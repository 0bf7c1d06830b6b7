# EDData auth service core, modelled in Dafny

This project models the core of the EDData authentication service. The
service is a Koa server that signs Elite Dangerous commanders in with
Frontier's OAuth2 (PKCE) flow. It then proxies and caches requests to
Frontier's Companion API (CAPI). The model has four parts:

- **SQL helpers** (`lib/utils/sql.js`, module `Sql` in `sql.dfy`). This part
  covers:
  - the text of the generated `INSERT OR REPLACE` and `UPDATE` statements;
  - the closed list of writable tables;
  - the process-wide cache of prepared statements, keyed by database name
    and statement text (class `Sql.StatementCache`).
- **PKCE helpers** (`lib/utils/auth.js`, module `Auth` in `auth.dfy`). This
  part covers:
  - the conversion of standard base64 to unpadded base64url;
  - the code verifier made from random bytes;
  - the S256 code challenge of section 4.2 of RFC 7636;
  - the time in whole seconds.

  Base64 itself is modelled in module `Base64` (`base64.dfy`), after
  sections 4 and 5 of RFC 4648.
- **CAPI router** (`router/cmdr.js`, module `Cmdr` in `cmdr.dfy`). Four
  handlers, with:
  - the endpoint whitelist;
  - the per-commander response cache (class `Cmdr.CmdrRouter`);
  - the 401/404/500 error mapping;
  - the `visitedstars` special case.

  The collaborators the router calls are given as a `World` value: JWT
  verification, access-token lookup, `fetch` and the reading of the
  response body. Each handler returns the calls it made, in order, so that
  the model can state what a handler does *not* do. Examples: no CAPI call
  on a cache hit; nothing at all for an unsupported endpoint.
- **Date helper** (`lib/utils/dates.js`, module `Dates` in `dates.dfy`):
  `timeBetweenTimestamps`, the human-readable difference between two
  timestamps.

Module `Text` (`text.dfy`) holds the string machinery the others share:
- `Array.prototype.join`;
- `String.prototype.trim` over the exact ECMAScript white-space set;
- `includes`;
- decimal rendering of integers.

## Model

| member | source | states |
|---|---|---|
| Sql.ValidateTableName | lib/utils/sql.js:22-28 | no error exactly for `sessions` and `cache`; any other name gives `Invalid table name: <name>` |
| Sql.Placeholders | lib/utils/sql.js:9 | one parameter per key, in key order, the i-th being `@` followed by the i-th key |
| Sql.Assignments | lib/utils/sql.js:17 | one `SET` item per key, in key order, the i-th being the i-th key, ` = @` and the key again |
| Sql.InsertOrReplaceStmt | lib/utils/sql.js:5-11 | the trimmed insert is `INSERT OR REPLACE INTO t (k1,..,kn)` then a line `VALUES (@k1,..,@kn)`: column i is bound to parameter i, in key order, and trimming removes only the template's own line breaks and indentation |
| Sql.UpdateStmt | lib/utils/sql.js:13-20 | the trimmed update is `UPDATE t`, `SET k = @k` joined by `, `, then `WHERE` and the condition with its trailing white space trimmed; a condition not ending in white space appears verbatim, an all-blank condition leaves the statement ending in `WHERE` |
| Sql.InsertStmtInjective | lib/utils/sql.js:5-11 | on one table, different key sequences (a reordering included) give different insert text, so each object shape has its own cache entry |
| Sql.UpdateStmtInjective | lib/utils/sql.js:13-20 | for one table and condition, different key sequences give different update text |
| Sql.InsertAndUpdateDiffer | lib/utils/sql.js:5-20 | no insert text equals any update text |
| Sql.TablesDoNotShareStatements | lib/utils/sql.js:5-22 | the two valid tables never share a statement text, for inserts or for updates |
| Sql.StatementCache.constructor | lib/utils/sql.js:3 | the cache starts empty |
| Sql.StatementCache.PreparedOnce | lib/utils/sql.js:35-38 | under the cache invariant no fingerprint was ever successfully prepared twice (a text `db.prepare` refuses is not cached, so it is prepared again on every call) |
| Sql.StatementCache.PrepareCached | lib/utils/sql.js:33-41 | a hit returns the cached statement and changes nothing; a miss prepares and caches under (db name, text); a failing prepare throws and caches nothing |
| Sql.StatementCache.InsertOrReplaceIntoDb | lib/utils/sql.js:30-42 | an invalid table throws before any lookup; otherwise the statement for this object shape is reused or prepared once, the one run is the cached one, and other entries are untouched |
| Sql.StatementCache.UpdateDb | lib/utils/sql.js:44-56 | the same guarantees for the update statement built from the keys and the condition |
| Sql.TwoDatabases | lib/utils/sql.js:30-42 | the same write on two differently named databases gives two prepared statements, a repeat reuses the first, and `users` is refused |
| Text.Join | lib/utils/sql.js:8-9 | a non-empty array joins into a text that starts with its first element |
| Text.JoinLength | lib/utils/sql.js:8-9 | the joined text is the elements' lengths plus one separator between each two neighbours |
| Text.Trim | lib/utils/sql.js:10 | the result is a slice of the input with only white space before and after it, and starts and ends with a character that is not white space |
| Text.TrimStartSpec | lib/utils/sql.js:10 | trimming the start keeps a suffix, removes only white space and leaves no white space first |
| Text.TrimEndSpec | lib/utils/sql.js:10 | trimming the end keeps a prefix, removes only white space and leaves no white space last |
| Text.ContainsSpec | router/cmdr.js:37 | `includes` finds a text wherever it is embedded, and never in a string that lacks its first character |
| Text.IntToString | lib/utils/dates.js:26-32 | an integer renders as a non-empty text that starts with `-` exactly when the integer is negative |
| Text.ParseIntToString | lib/utils/dates.js:26-32 | the decimal text of an integer reads back as that integer |
| Base64.Encode | lib/utils/auth.js:23 | standard base64 output is 4·ceil(n/3) characters |
| Base64.EncodeUrl | lib/utils/auth.js:23-26 | unpadded base64url output is ceil(4n/3) characters of the URL-safe alphabet |
| Base64.DecodeEncodeUrl | lib/utils/auth.js:23-26 | decoding unpadded base64url gives back the encoded bytes |
| Base64.EncodeUrlInjective | lib/utils/auth.js:9-12 | different byte strings have different base64url text |
| Auth.StripTrailingPadding | lib/utils/auth.js:12 | `/=+$/` removes the whole final run of `=` and nothing else |
| Auth.UrlSafe | lib/utils/auth.js:24-26 | the replace chain maps `+` to `-` and `/` to `_` character by character, drops exactly the trailing `=` run, and leaves no `+`, `/` or trailing `=` |
| Auth.UrlSafeIdempotent | lib/utils/auth.js:24-26 | applying the replace chain twice is the same as once |
| Auth.UrlSafeOfEncode | lib/utils/auth.js:23-26 | the replace chain applied to base64 is exactly base64url without padding |
| Auth.UrlSafeBase64ByteString | lib/utils/auth.js:22-27 | a verifier from n random bytes has ceil(4n/3) URL-safe characters and decodes back to those bytes; the default 32 bytes give 43 characters, and 32 to 96 bytes stay within the 43 to 128 characters of section 4.1 of RFC 7636 |
| Auth.CodeChallenge | lib/utils/auth.js:9-12 | the challenge is BASE64URL(SHA256(verifier)) as section 4.2 of RFC 7636 defines it, decodes back to the digest and is 43 characters for a 32-byte digest |
| Auth.CodeVerifierAndChallenge | lib/utils/auth.js:7-17 | the verifier decodes back to the random bytes (43 characters for 32 bytes) and the pair passes the S256 check of section 4.6 of RFC 7636 |
| Auth.OnlyMatchingDigestPasses | lib/utils/auth.js:7-17 | the generated challenge accepts a verifier exactly when its SHA-256 digest equals the generated verifier's |
| Auth.SecondsSinceEpoch | lib/utils/auth.js:32-34 | the result is the whole seconds at or before the millisecond clock reading |
| Dates.Bucket | lib/utils/dates.js:24-33 | the unit is seconds below one minute, minutes below one hour, hours below one day, days otherwise; the amount is the difference rounded down to that unit, and 0-59 s, 1-59 min, 1-23 h or at least 1 day for non-negative differences |
| Dates.Render | lib/utils/dates.js:26-32 | `<amount> <unit>` ends with the unit word and starts with a digit or `-`, so it is never `NaN days` |
| Dates.RenderInjective | lib/utils/dates.js:26-32 | the `<amount> <unit>` text determines amount and unit |
| Dates.TimeBetweenTimestamps | lib/utils/dates.js:21-34 | the text is `NaN days` exactly when a timestamp did not parse; with both parsed it is the bucketed difference |
| Cmdr.ErrorResult | router/cmdr.js:35-47 | 401 `Unauthorized` with the message exactly when the message is non-empty and mentions `JWT` or `signed in`; otherwise 500 with the handler's label and the error's string form, plus the stack exactly in development |
| Cmdr.UnsupportedEndpoint | router/cmdr.js:77-82 | 404 with body `{error: 'Unsupported CAPI endpoint'}` and no Content-Type of the handler's own |
| Cmdr.NoAccessToken | router/cmdr.js:96-99 | 401 with body `{error: 'No valid access token found'}` |
| Cmdr.UpstreamFailure | router/cmdr.js:104-107 | CAPI's status passed on verbatim, as the HTTP status and as the `status` field beside `error: 'Frontier API request failed'` |
| Cmdr.AuthMessages | router/cmdr.js:128 | a message mentioning `JWT` or `signed in` anywhere is an authentication failure; one with neither a `J` nor an `s` is not |
| Cmdr.Success | router/cmdr.js:125 | assigning a body answers 200, or 204 for a JSON `null` document, with the body unchanged |
| Cmdr.CmdrRouter.constructor | router/cmdr.js:15 | the router starts with an empty cache |
| Cmdr.CmdrRouter.Root | router/cmdr.js:17-49 | JWT, then token, then a fetch of the CAPI root with that token; missing token 401, non-ok status passed on, JSON body returned; the cache is never used |
| Cmdr.CmdrRouter.Delete | router/cmdr.js:51-71 | a verified commander's cache entries, and only theirs, are removed and `{success: true}` is returned; a JWT failure changes nothing |
| Cmdr.CmdrRouter.Endpoint | router/cmdr.js:73-140 | unsupported endpoint 404 with no other call; a cache hit is served without a token lookup or fetch; a miss fetches `<base>/<endpoint>`, passes a non-ok status or a rejected fetch on without caching anything, reads journal as text, visitedstars as gzip bytes and others as JSON, and caches what it serves except visitedstars; only the requested entry is ever written |
| Cmdr.CmdrRouter.JournalForDay | router/cmdr.js:142-175 | fetches `<base>/journal/<year>/<month>/<day>` with the commander's token and returns the text; never uses the cache |
| Cmdr.MarketServedFromCache | router/cmdr.js:90-123 | after one successful `market` request, a second one of the same commander is served the same response from the cache with no token lookup or fetch, whatever the token or CAPI would now give |
| Cmdr.FailedFetchCachesNothing | router/cmdr.js:101-126 | a `market` request whose `fetch` rejects answers with the catch block's error and caches nothing, so the next request of that commander fetches again and serves CAPI's answer |
| Cmdr.DeleteForcesRefetch | router/cmdr.js:51-123 | after a `market` request has filled the cache, `delete` makes the next `market` request fetch again and serve CAPI's new answer, not the cached one |

## Left out

- Foreign primitives are not modelled; they are parameters about which
  nothing is assumed:
  - SHA-1, SHA-256 and `randomBytes`;
  - `db.prepare` and `.run` (a `Database` says only whether it accepts a text);
  - `verifyJwt`, `getAccessToken` and `fetch`;
  - reading a response body.
- The cache store of `lib/cmdr` is not part of this model. The router's
  cache is a plain map, so these are not modelled:
  - any expiry or freshness policy;
  - store errors from `getCache`, `setCache` or `deleteCache`.
- The statement fingerprint is the pair (database name, statement text), not
  the SHA-1 of `${db.name}/${stmt}`. SHA-1 collisions are therefore not
  modelled, and neither is the ambiguity of that joined string when a
  database name contains `/`.
- `Object.keys` ordering is taken as given (`objectKeys`). JavaScript puts
  integer-like keys first in ascending order; the model does not.
- Sql.InsertStmtInjective: proved only for keys without `,` or `)`.
- Sql.UpdateStmtInjective: proved only for keys without `,`.
- Sql.StatementCache: only successful `db.prepare` calls are counted. A
  text that `db.prepare` refuses is not cached and is prepared again on
  every call.
- Sql.UpdateStmt: the condition is interpolated after `WHERE ` and
  the whole text is then trimmed. White space at the end of the condition is
  therefore lost, and a blank condition leaves a statement ending in `WHERE`.
  The model states exactly that.
- Auth: `getFileHash` (a file stream hashed with SHA-256) is pure I/O and is
  not modelled. The clock is a parameter of `SecondsSinceEpoch`.
- Dates: `ageOfISODateInSeconds` and `getISOTimestamp` read the clock and
  format dates; they are not modelled. In `timeBetweenTimestamps`:
  - parsing with `new Date(...)` is left out; a timestamp is given as whole
    milliseconds, or as absent for an Invalid Date, which gives `NaN days`;
  - Dates.TimeBetweenTimestamps: floating-point rounding is not modelled.
    `d2 - d1` is exact while the difference is at most 2^53 ms (about
    285,000 years). Within that bound, dividing by 1000, 60, 3600 or 86400
    and then flooring gives the integer quotient. Beyond it the subtraction
    itself rounds, and the double result can differ from `Bucket` by one.
- Cmdr.CmdrRouter.Endpoint: each handler call is modelled as atomic. In the
  source, the handler awaits between `getCache` (router/cmdr.js:91) and
  `setCache` (router/cmdr.js:121): at 95, at 101 and at 110-117. A
  concurrent request's `setCache` or `deleteCache` can land in between. The
  `old(cache)` frames of `Endpoint` and `Delete`, and
  `Cmdr.DeleteForcesRefetch`, hold only when no other request interleaves.
- Cmdr.CmdrRouter.Delete: `getCache`, `setCache` and `deleteCache` are called
  without `await` (router/cmdr.js:55, 91, 121). They are taken to be
  synchronous, so their effect is complete when the call returns.
- Cmdr: the following are not modelled:
  - thrown values that are not Error objects (`e?.toString()` of a string or
    of `undefined`);
  - the `console.error` logging;
  - the route dispatch of Koa's router;
  - any Content-Type Koa infers by itself (only the one the handler sets is
    modelled).
- `index.js` and `scripts/backup.js` import `ARDENT_AUTH_LOCAL_PORT`,
  `ARDENT_DATA_DIR`, `ARDENT_AUTH_DB` and `ARDENT_BACKUP_DIR` from
  `lib/consts.js`, which exports only the `EDDATA_*` names. Those values
  would therefore be `undefined`. The server start-up and the scripts are not
  part of this model.
