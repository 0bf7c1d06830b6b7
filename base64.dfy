/** Base 64 encoding of section 4 of RFC 4648 (what Node's
    `buffer.toString('base64')` produces, with `=` padding), the URL and
    filename safe alphabet of section 5 of RFC 4648 without padding, and a
    decoder for the latter. */
module Base64 {
  import opened Text

  type byte = x: int | 0 <= x < 256

  /** A 6-bit group: an index into a 64-character alphabet. */
  type sextet = x: int | 0 <= x < 64

  /** Table 1 of RFC 4648. */
  function StdChar(i: sextet): char
  {
    if i < 26 then ('A' as int + i) as char
    else if i < 52 then ('a' as int + (i - 26)) as char
    else if i < 62 then ('0' as int + (i - 52)) as char
    else if i == 62 then '+'
    else '/'
  }

  /** Table 2 of RFC 4648: the same alphabet with `-` and `_` for values 62 and 63. */
  function UrlChar(i: sextet): char
  {
    if i == 62 then '-' else if i == 63 then '_' else StdChar(i)
  }

  predicate IsUrlChar(c: char)
  {
    ('A' <= c <= 'Z') || ('a' <= c <= 'z') || ('0' <= c <= '9') || c == '-' || c == '_'
  }

  /** The value of a character of the URL-safe alphabet. */
  function UrlValue(c: char): (r: Option<sextet>)
    ensures r.Some? <==> IsUrlChar(c)
  {
    if 'A' <= c <= 'Z' then Some(c as int - 'A' as int)
    else if 'a' <= c <= 'z' then Some(c as int - 'a' as int + 26)
    else if '0' <= c <= '9' then Some(c as int - '0' as int + 52)
    else if c == '-' then Some(62)
    else if c == '_' then Some(63)
    else None
  }

  /** The URL-safe alphabet is exactly the characters `UrlValue` reads, and
      each character reads back as its own index. */
  lemma UrlCharValue(i: sextet)
    ensures IsUrlChar(UrlChar(i)) && UrlValue(UrlChar(i)) == Some(i)
  {
  }

  /** The 6-bit groups of the input, most significant first; a final group of
      one or two bytes is filled with zero bits (section 4 of RFC 4648). */
  function Sextets(b: seq<byte>): (r: seq<sextet>)
    ensures |r| == (4 * |b| + 2) / 3
  {
    if |b| == 0 then []
    else if |b| == 1 then [b[0] / 4, (b[0] % 4) * 16]
    else if |b| == 2 then [b[0] / 4, (b[0] % 4) * 16 + b[1] / 16, (b[1] % 16) * 4]
    else [b[0] / 4, (b[0] % 4) * 16 + b[1] / 16, (b[1] % 16) * 4 + b[2] / 64, b[2] % 64]
         + Sextets(b[3..])
  }

  /** Reassembles bytes from 6-bit groups; a trailing single group cannot
      hold a byte and is refused. */
  function Unsextets(s: seq<sextet>): Option<seq<byte>>
  {
    if |s| == 0 then Some([])
    else if |s| == 1 then None
    else if |s| == 2 then Some([First(s[0], s[1])])
    else if |s| == 3 then Some([First(s[0], s[1]), Second(s[1], s[2])])
    else
      match Unsextets(s[4..])
      case None => None
      case Some(rest) => Some([First(s[0], s[1]), Second(s[1], s[2]), Third(s[2], s[3])] + rest)
  }

  /** The three bytes of a 4-character group: the first is the six bits of
      the first character and the top two of the second, and so on. */
  function First(a: sextet, b: sextet): byte
  {
    (a as int) * 4 + (b as int) / 16
  }

  function Second(b: sextet, c: sextet): byte
  {
    ((b as int) % 16) * 16 + (c as int) / 4
  }

  function Third(c: sextet, d: sextet): byte
  {
    ((c as int) % 4) * 64 + (d as int)
  }

  lemma {:induction false} UnsextetsSextets(b: seq<byte>)
    ensures Unsextets(Sextets(b)) == Some(b)
  {
    if |b| >= 3 {
      UnsextetsSextets(b[3..]);
      UnsextetsGroup(b);
    } else {
      UnsextetsShort(b);
    }
  }

  /** One full 3-byte group in front of bytes that already round-trip. */
  lemma {:induction false} UnsextetsGroup(b: seq<byte>)
    requires |b| >= 3 && Unsextets(Sextets(b[3..])) == Some(b[3..])
    ensures Unsextets(Sextets(b)) == Some(b)
  {
    var s := Sextets(b);
    assert |s| >= 4;
    assert s[4..] == Sextets(b[3..]);
    GroupRoundTrip(b[0], b[1], b[2]);
    assert [First(s[0], s[1]), Second(s[1], s[2]), Third(s[2], s[3])] == [b[0], b[1], b[2]];
    assert b == [b[0], b[1], b[2]] + b[3..];
  }

  /** The final group of zero, one or two bytes. */
  lemma {:induction false} UnsextetsShort(b: seq<byte>)
    requires |b| < 3
    ensures Unsextets(Sextets(b)) == Some(b)
  {
    if |b| == 2 {
      GroupRoundTrip(b[0], b[1], 0);
      assert [b[0], b[1]] == b;
    } else if |b| == 1 {
      GroupRoundTrip(b[0], 0, 0);
      assert [b[0]] == b;
    }
  }

  /** Splitting three bytes into four 6-bit groups and joining them again
      gives the same bytes. */
  lemma GroupRoundTrip(x: byte, y: byte, z: byte)
    ensures First(x / 4, (x % 4) * 16 + y / 16) == x
    ensures Second((x % 4) * 16 + y / 16, (y % 16) * 4 + z / 64) == y
    ensures Second((x % 4) * 16 + y / 16, (y % 16) * 4) == y
    ensures Third((y % 16) * 4 + z / 64, z % 64) == z
  {
  }

  /** The `=` characters that complete the last 4-character group. */
  function Padding(n: nat): string
  {
    if n % 3 == 1 then "==" else if n % 3 == 2 then "=" else ""
  }

  function StdChars(s: seq<sextet>): (r: string)
  {
    seq(|s|, i requires 0 <= i < |s| => StdChar(s[i]))
  }

  function UrlChars(s: seq<sextet>): (r: string)
  {
    seq(|s|, i requires 0 <= i < |s| => UrlChar(s[i]))
  }

  /** `buffer.toString('base64')`: section 4 of RFC 4648. */
  function Encode(b: seq<byte>): (r: string)
    ensures |r| % 4 == 0 && |r| == 4 * ((|b| + 2) / 3)
  {
    StdChars(Sextets(b)) + Padding(|b|)
  }

  /** Base64url without padding: section 5 of RFC 4648 with the `=` left off,
      as section 3 of RFC 7636 defines BASE64URL-ENCODE. */
  function EncodeUrl(b: seq<byte>): (r: string)
    ensures |r| == (4 * |b| + 2) / 3
    ensures forall i :: 0 <= i < |r| ==> IsUrlChar(r[i])
  {
    UrlChars(Sextets(b))
  }

  /** Reads base64url text without padding back into bytes. */
  function DecodeUrl(s: string): Option<seq<byte>>
  {
    match Values(s)
    case None => None
    case Some(v) => Unsextets(v)
  }

  function Values(s: string): (r: Option<seq<sextet>>)
  {
    if s == [] then Some([])
    else
      match UrlValue(s[0])
      case None => None
      case Some(v) =>
        match Values(s[1..])
        case None => None
        case Some(rest) => Some([v] + rest)
  }

  lemma {:induction false} ValuesUrlChars(s: seq<sextet>)
    ensures Values(UrlChars(s)) == Some(s)
  {
    if s != [] {
      assert UrlChars(s)[1..] == UrlChars(s[1..]);
      UrlCharValue(s[0]);
      ValuesUrlChars(s[1..]);
      assert s == [s[0]] + s[1..];
    }
  }

  /** Decoding undoes the unpadded URL-safe encoding, so the encoding is
      injective: different byte strings give different text. */
  lemma DecodeEncodeUrl(b: seq<byte>)
    ensures DecodeUrl(EncodeUrl(b)) == Some(b)
  {
    ValuesUrlChars(Sextets(b));
    UnsextetsSextets(b);
  }

  lemma EncodeUrlInjective(b: seq<byte>, b': seq<byte>)
    requires EncodeUrl(b) == EncodeUrl(b')
    ensures b == b'
  {
    DecodeEncodeUrl(b);
    DecodeEncodeUrl(b');
  }
}
