/** The PKCE helpers of lib/utils/auth.js: the conversion of standard base64
    text to the unpadded URL-safe form, the code verifier made from random
    bytes, the S256 code challenge of section 4.2 of RFC 7636, and the current
    time in whole seconds.

    `randomBytes` and SHA-256 are foreign: the random bytes are a parameter
    and the digest is a function parameter about which nothing is assumed. */
module Auth {
  import opened Text
  import opened Base64

  /** `.replace(/\+/g, '-').replace(/\//g, '_')`: every `+` and every `/`. */
  function ReplaceChar(s: string, from: char, to: char): (r: string)
  {
    seq(|s|, i requires 0 <= i < |s| => if s[i] == from then to else s[i])
  }

  /** `.replace(/=+$/, '')`: without the `m` flag `$` only matches at the end
      of the text, and the first match starts at the beginning of the final
      run of `=`, so the whole run goes. */
  function StripTrailingPadding(s: string): (r: string)
    ensures |r| <= |s| && r == s[..|r|]
    ensures forall i :: |r| <= i < |s| ==> s[i] == '='
    ensures |r| > 0 ==> r[|r| - 1] != '='
  {
    if |s| > 0 && s[|s| - 1] == '=' then StripTrailingPadding(s[..|s| - 1]) else s
  }

  /** The number of `=` characters at the end of `s`. */
  function TrailingPadding(s: string): nat
  {
    if |s| > 0 && s[|s| - 1] == '=' then 1 + TrailingPadding(s[..|s| - 1]) else 0
  }

  /** The replace chain applied to base64 output in both PKCE helpers. It
      works character for character on everything before the final run of
      `=`: the output is as long as the input less that run, and at each
      position holds the input character with `+` made `-` and `/` made `_`.
      Hence no `+`, no `/` and no trailing `=` survive. */
  function UrlSafe(s: string): (r: string)
    ensures |r| == |s| - TrailingPadding(s)
    ensures forall i :: 0 <= i < |r| ==> r[i] == MapChar(s[i])
    ensures '+' !in r && '/' !in r
    ensures |r| == 0 || r[|r| - 1] != '='
  {
    var m := ReplaceChar(ReplaceChar(s, '+', '-'), '/', '_');
    TrailingPaddingOfReplaced(s);
    StripLength(m);
    StripTrailingPadding(m)
  }

  /** What the replace chain does to a single character. */
  function MapChar(c: char): char
  {
    if c == '+' then '-' else if c == '/' then '_' else c
  }

  /** Replacing `+` and `/` leaves the `=` characters where they are. */
  lemma {:induction false} TrailingPaddingOfReplaced(s: string)
    ensures TrailingPadding(ReplaceChar(ReplaceChar(s, '+', '-'), '/', '_')) == TrailingPadding(s)
  {
    if |s| > 0 {
      var m := ReplaceChar(ReplaceChar(s, '+', '-'), '/', '_');
      var p := s[..|s| - 1];
      assert m[..|m| - 1] == ReplaceChar(ReplaceChar(p, '+', '-'), '/', '_');
      TrailingPaddingOfReplaced(p);
    }
  }

  lemma {:induction false} StripLength(s: string)
    ensures |StripTrailingPadding(s)| == |s| - TrailingPadding(s)
  {
    if |s| > 0 && s[|s| - 1] == '=' {
      StripLength(s[..|s| - 1]);
    }
  }

  /** Applying the conversion to its own output changes nothing. */
  lemma UrlSafeIdempotent(s: string)
    ensures UrlSafe(UrlSafe(s)) == UrlSafe(s)
  {
    var u := UrlSafe(s);
    assert TrailingPadding(u) == 0;
  }

  /** Applied to section 4 base64, the conversion yields exactly the unpadded
      base64url encoding of section 5 of RFC 4648. */
  lemma UrlSafeOfEncode(b: seq<byte>)
    ensures UrlSafe(Encode(b)) == EncodeUrl(b)
  {
    var e, u := Encode(b), EncodeUrl(b);
    var std := StdChars(Sextets(b));
    var pad := Padding(|b|);
    assert e == std + pad;
    assert TrailingPadding(e) == |pad| by {
      PaddingAfterChars(std, pad);
    }
    assert UrlSafe(e) == u;
  }

  /** The padding is counted exactly: no alphabet character is `=`. */
  lemma {:induction false} PaddingAfterChars(std: string, pad: string)
    requires forall i :: 0 <= i < |std| ==> std[i] != '='
    requires forall i :: 0 <= i < |pad| ==> pad[i] == '='
    ensures TrailingPadding(std + pad) == |pad|
  {
    if |pad| > 0 {
      assert (std + pad)[..|std + pad| - 1] == std + pad[..|pad| - 1];
      PaddingAfterChars(std, pad[..|pad| - 1]);
    } else {
      assert std + pad == std;
      if |std| > 0 {
        assert std[|std| - 1] != '=';
      }
    }
  }

  /** `generateUrlSafeBase64ByteString(numberOfBytes)`, given the bytes
      `randomBytes(numberOfBytes)` returned. A verifier made from n random
      bytes is ceil(4n/3) characters of the base64url alphabet and decodes
      back to those bytes. Section 4.1 of RFC 7636 asks for 43 to 128
      characters from the unreserved set: the default 32 bytes give 43, and
      every byte count from 32 to 96 stays within the range. */
  function UrlSafeBase64ByteString(random: seq<byte>): (r: string)
    ensures |r| == (4 * |random| + 2) / 3
    ensures forall i :: 0 <= i < |r| ==> IsUrlChar(r[i])
    ensures DecodeUrl(r) == Some(random)
    ensures 32 <= |random| <= 96 ==> 43 <= |r| <= 128
    ensures |random| == 32 ==> |r| == 43
  {
    UrlSafeOfEncode(random);
    DecodeEncodeUrl(random);
    UrlSafe(Encode(random))
  }

  /** The pair `generateCodeVerifierAndChallenge` returns. */
  datatype Pkce = Pkce(codeVerifier: string, codeChallenge: string)

  /** The S256 code challenge: the replace chain on the standard base64 of
      the SHA-256 digest, where `sha256` stands for
      `createHash('sha256').update(verifier).digest()`. It is BASE64URL of the
      digest as section 4.2 of RFC 7636 defines it, decodes back to the digest
      and is 43 characters for a 32-byte digest. */
  function CodeChallenge(verifier: string, sha256: string -> seq<byte>): (r: string)
    ensures r == EncodeUrl(sha256(verifier))
    ensures DecodeUrl(r) == Some(sha256(verifier))
    ensures |sha256(verifier)| == 32 ==> |r| == 43
  {
    UrlSafeOfEncode(sha256(verifier));
    DecodeEncodeUrl(sha256(verifier));
    UrlSafe(Encode(sha256(verifier)))
  }

  /** The check an authorization server makes under S256 (section 4.6 of
      RFC 7636): BASE64URL-ENCODE(SHA256(verifier)) equals the challenge. */
  predicate S256Matches(verifier: string, challenge: string, sha256: string -> seq<byte>)
  {
    EncodeUrl(sha256(verifier)) == challenge
  }

  /** `generateCodeVerifierAndChallenge()`, given the 32 random bytes: a
      verifier that decodes back to those bytes and a challenge that passes
      the server's check for it. */
  function CodeVerifierAndChallenge(random: seq<byte>, sha256: string -> seq<byte>): (p: Pkce)
    ensures |random| == 32 ==> |p.codeVerifier| == 43
    ensures DecodeUrl(p.codeVerifier) == Some(random)
    ensures S256Matches(p.codeVerifier, p.codeChallenge, sha256)
  {
    var verifier := UrlSafeBase64ByteString(random);
    Pkce(verifier, CodeChallenge(verifier, sha256))
  }

  /** The generated challenge admits exactly the verifiers whose digest is the
      generated verifier's digest. */
  lemma OnlyMatchingDigestPasses(random: seq<byte>, sha256: string -> seq<byte>, other: string)
    ensures var p := CodeVerifierAndChallenge(random, sha256);
      S256Matches(other, p.codeChallenge, sha256) <==> sha256(other) == sha256(p.codeVerifier)
  {
    var p := CodeVerifierAndChallenge(random, sha256);
    if S256Matches(other, p.codeChallenge, sha256) {
      EncodeUrlInjective(sha256(other), sha256(p.codeVerifier));
    }
  }

  /** `secondsSinceEpoch()`: `Math.floor(Date.now() / 1000)`, with the clock
      reading in milliseconds as a parameter. */
  function SecondsSinceEpoch(nowMs: int): (s: int)
    ensures s * 1000 <= nowMs < (s + 1) * 1000
  {
    nowMs / 1000
  }
}
