/** String operations of the JavaScript runtime that the modelled code relies
    on: `Array.prototype.join`, `String.prototype.trim`, `String.prototype.includes`
    and the decimal rendering of an integer inside a template literal; and
    the `Option` type the other modules share. */
module Text {

  /** A value that may be absent. */
  datatype Option<T> = None | Some(value: T)

  /** `xs.join(sep)`: the elements separated by `sep`; the empty array gives
      "", and a non-empty one gives a text that starts with its first
      element. */
  function Join(xs: seq<string>, sep: string): (r: string)
    ensures |xs| > 0 ==> |r| >= |xs[0]| && r[..|xs[0]|] == xs[0]
  {
    if |xs| == 0 then ""
    else if |xs| == 1 then xs[0]
    else xs[0] + sep + Join(xs[1..], sep)
  }

  /** Every element is separated from the next by exactly one `sep` and
      nothing else is added. */
  lemma {:induction false} JoinLength(xs: seq<string>, sep: string)
    requires |xs| > 0
    ensures |Join(xs, sep)| == SumLengths(xs) + (|xs| - 1) * |sep|
  {
    if |xs| > 1 {
      JoinLength(xs[1..], sep);
    }
  }

  function SumLengths(xs: seq<string>): nat
  {
    if xs == [] then 0 else |xs[0]| + SumLengths(xs[1..])
  }

  /** When the first character of the separator occurs in no element, the
      joined text determines the elements: two non-empty lists with the same
      join are the same list. */
  lemma {:induction false} JoinInjective(xs: seq<string>, ys: seq<string>, sep: string)
    requires |sep| > 0 && |xs| > 0 && |ys| > 0
    requires forall i :: 0 <= i < |xs| ==> sep[0] !in xs[i]
    requires forall i :: 0 <= i < |ys| ==> sep[0] !in ys[i]
    requires Join(xs, sep) == Join(ys, sep)
    ensures xs == ys
  {
    var jx, jy := Join(xs, sep), Join(ys, sep);
    if |xs| == 1 || |ys| == 1 {
      JoinHasSeparator(xs, sep);
      JoinHasSeparator(ys, sep);
      assert |xs| == 1 && |ys| == 1;
    } else {
      var rx, ry := sep + Join(xs[1..], sep), sep + Join(ys[1..], sep);
      assert jx == xs[0] + rx;
      assert jy == ys[0] + ry;
      SplitAtFirst(xs[0], rx, ys[0], ry, sep[0]);
      assert Join(xs[1..], sep) == rx[|sep|..] == ry[|sep|..] == Join(ys[1..], sep);
      JoinInjective(xs[1..], ys[1..], sep);
      assert xs == [xs[0]] + xs[1..];
      assert ys == [ys[0]] + ys[1..];
    }
  }

  /** Cutting a text at the first occurrence of a delimiter is unambiguous. */
  lemma SplitAtFirst(a: string, x: string, b: string, y: string, d: char)
    requires d !in a && d !in b
    requires |x| > 0 && x[0] == d && |y| > 0 && y[0] == d
    requires a + x == b + y
    ensures a == b && x == y
  {
    FirstDelimiter(a, x, d);
    FirstDelimiter(b, y, d);
    assert |a| == |b|;
    assert a == (a + x)[..|a|];
    assert b == (b + y)[..|b|];
    assert x == (a + x)[|a|..];
    assert y == (b + y)[|b|..];
  }

  /** The first delimiter in `a + x` is the one that starts `x`. */
  lemma FirstDelimiter(a: string, x: string, d: char)
    requires d !in a && |x| > 0 && x[0] == d
    ensures (a + x)[|a|] == d
    ensures forall i :: 0 <= i < |a| ==> (a + x)[i] != d
  {
    assert forall i :: 0 <= i < |a| ==> (a + x)[i] == a[i];
  }

  /** A join of several elements shows the separator; a join of one element
      is that element. */
  lemma JoinHasSeparator(xs: seq<string>, sep: string)
    requires |sep| > 0 && |xs| > 0
    requires forall i :: 0 <= i < |xs| ==> sep[0] !in xs[i]
    ensures sep[0] in Join(xs, sep) <==> |xs| > 1
  {
    if |xs| > 1 {
      assert Join(xs, sep)[|xs[0]|] == sep[0];
    }
  }

  /** Equal texts with a common prefix have equal remainders. */
  lemma CancelPrefix(p: string, x: string, y: string)
    requires p + x == p + y
    ensures x == y
  {
    assert x == (p + x)[|p|..];
    assert y == (p + y)[|p|..];
  }

  /** Equal texts with a common suffix have equal beginnings. */
  lemma CancelSuffix(x: string, y: string, q: string)
    requires x + q == y + q
    ensures x == y
  {
    assert x == (x + q)[..|x|];
    assert y == (y + q)[..|y|];
  }

  /** `s.includes(t)`: `t` occurs in `s` at some position. */
  predicate Contains(s: string, t: string)
  {
    exists i :: 0 <= i <= |s| - |t| && OccursAt(s, t, i)
  }

  /** A text includes whatever was put inside it, and cannot include a text
      whose first character it lacks. */
  lemma ContainsSpec(s: string, t: string, a: string, b: string)
    ensures Contains(a + t + b, t)
    ensures |t| > 0 && t[0] !in s ==> !Contains(s, t)
  {
    var w := a + t + b;
    assert w[|a|..|a| + |t|] == t;
    assert OccursAt(w, t, |a|);
    if |t| > 0 && t[0] !in s {
      forall i | 0 <= i <= |s| - |t|
        ensures !OccursAt(s, t, i)
      {
        assert s[i..i + |t|][0] == s[i];
      }
    }
  }

  predicate OccursAt(s: string, t: string, i: int)
    requires 0 <= i <= |s| - |t|
  {
    s[i..i + |t|] == t
  }

  /** The characters `String.prototype.trim` removes: the ECMAScript
      WhiteSpace (TAB, VT, FF, SP, NBSP, ZWNBSP and category Zs) and
      LineTerminator (LF, CR, LS, PS) code points. */
  predicate IsJsSpace(c: char)
  {
    var n := c as int;
    n == 0x09 || n == 0x0A || n == 0x0B || n == 0x0C || n == 0x0D || n == 0x20 ||
    n == 0xA0 || n == 0x1680 || (0x2000 <= n <= 0x200A) || n == 0x2028 ||
    n == 0x2029 || n == 0x202F || n == 0x205F || n == 0x3000 || n == 0xFEFF
  }

  predicate AllSpace(s: string)
  {
    forall i :: 0 <= i < |s| ==> IsJsSpace(s[i])
  }

  function TrimStart(s: string): string
  {
    if |s| > 0 && IsJsSpace(s[0]) then TrimStart(s[1..]) else s
  }

  function TrimEnd(s: string): (r: string)
  {
    if |s| > 0 && IsJsSpace(s[|s| - 1]) then TrimEnd(s[..|s| - 1]) else s
  }

  /** `s.trim()`. */
  function Trim(s: string): (r: string)
    ensures |r| <= |s| && exists i :: TrimmedAt(s, r, i)
    ensures |r| > 0 ==> !IsJsSpace(r[0]) && !IsJsSpace(r[|r| - 1])
  {
    var t := TrimStart(s);
    TrimStartSpec(s);
    TrimEndSpec(t);
    var r := TrimEnd(t);
    var i := |s| - |t|;
    assert s[i + |r|..] == t[|r|..];
    assert r == s[i..i + |r|];
    assert TrimmedAt(s, r, i);
    r
  }

  /** `r` is the slice of `s` at `i`, with only white space around it. */
  predicate TrimmedAt(s: string, r: string, i: int)
  {
    0 <= i <= |s| - |r| && r == s[i..i + |r|] && AllSpace(s[..i]) && AllSpace(s[i + |r|..])
  }

  /** TrimStart removes exactly the leading run of white space. */
  lemma {:induction false} TrimStartSpec(s: string)
    ensures |TrimStart(s)| <= |s| && TrimStart(s) == s[|s| - |TrimStart(s)|..]
    ensures AllSpace(s[..|s| - |TrimStart(s)|])
    ensures |TrimStart(s)| > 0 ==> !IsJsSpace(TrimStart(s)[0])
  {
    if |s| > 0 && IsJsSpace(s[0]) {
      TrimStartSpec(s[1..]);
      var k := |s[1..]| - |TrimStart(s[1..])|;
      assert s[..k + 1] == [s[0]] + s[1..][..k];
    }
  }

  /** TrimEnd removes exactly the trailing run of white space: what is left is
      a prefix that is empty or ends in a non-space, and the part removed is
      all white space. */
  lemma {:induction false} TrimEndSpec(s: string)
    ensures |TrimEnd(s)| <= |s| && TrimEnd(s) == s[..|TrimEnd(s)|]
    ensures AllSpace(s[|TrimEnd(s)|..])
    ensures |TrimEnd(s)| > 0 ==> !IsJsSpace(TrimEnd(s)[|TrimEnd(s)| - 1])
  {
    if |s| > 0 && IsJsSpace(s[|s| - 1]) {
      var p := s[..|s| - 1];
      TrimEndSpec(p);
      var k := |TrimEnd(p)|;
      assert s[k..] == p[k..] + [s[|s| - 1]];
    }
  }

  /** Appending white space does not change what TrimEnd keeps. */
  lemma {:induction false} TrimEndAppendSpace(s: string, w: string)
    requires AllSpace(w)
    ensures TrimEnd(s + w) == TrimEnd(s)
  {
    if |w| > 0 {
      assert (s + w)[..|s + w| - 1] == s + w[..|w| - 1];
      TrimEndAppendSpace(s, w[..|w| - 1]);
    } else {
      assert s + w == s;
    }
  }

  /** Behind a non-space, TrimEnd only trims what follows. */
  lemma {:induction false} TrimEndAfter(head: string, tail: string)
    requires |head| > 0 && !IsJsSpace(head[|head| - 1])
    ensures TrimEnd(head + tail) == head + TrimEnd(tail)
  {
    if |tail| == 0 {
      assert head + tail == head;
    } else if IsJsSpace(tail[|tail| - 1]) {
      assert (head + tail)[..|head + tail| - 1] == head + tail[..|tail| - 1];
      TrimEndAfter(head, tail[..|tail| - 1]);
    }
  }

  /** TrimStart drops a leading run of white space in front of a non-space. */
  lemma {:induction false} TrimStartPrefix(w: string, s: string)
    requires AllSpace(w) && |s| > 0 && !IsJsSpace(s[0])
    ensures TrimStart(w + s) == s
  {
    if |w| > 0 {
      assert (w + s)[1..] == w[1..] + s;
      TrimStartPrefix(w[1..], s);
    } else {
      assert w + s == s;
    }
  }

  function DigitChar(d: nat): char
    requires d < 10
  {
    ('0' as int + d) as char
  }

  predicate IsDigit(c: char)
  {
    '0' <= c <= '9'
  }

  /** The decimal digits of a natural number, without leading zeros. */
  function NatToString(n: nat): (r: string)
    ensures |r| > 0 && forall i :: 0 <= i < |r| ==> IsDigit(r[i])
    ensures |r| > 1 ==> r[0] != '0'
  {
    if n < 10 then [DigitChar(n)] else NatToString(n / 10) + [DigitChar(n % 10)]
  }

  /** How JavaScript renders an integral number in a template literal. */
  function IntToString(n: int): (r: string)
    ensures |r| > 0
    ensures n < 0 <==> r[0] == '-'
  {
    if n < 0 then "-" + NatToString(-n) else NatToString(n)
  }

  function DigitValue(c: char): nat
    requires IsDigit(c)
  {
    c as int - '0' as int
  }

  /** Reads back a string of decimal digits. */
  function ParseNat(s: string): nat
    requires forall i :: 0 <= i < |s| ==> IsDigit(s[i])
  {
    if s == [] then 0 else 10 * ParseNat(s[..|s| - 1]) + DigitValue(s[|s| - 1])
  }

  /** Reads back an optionally signed decimal number. */
  function ParseInt(s: string): int
    requires |s| > 0
    requires s[0] == '-' ==> forall i :: 1 <= i < |s| ==> IsDigit(s[i])
    requires s[0] != '-' ==> forall i :: 0 <= i < |s| ==> IsDigit(s[i])
  {
    if s[0] == '-' then 0 - ParseNat(s[1..]) else ParseNat(s)
  }

  lemma {:induction false} ParseNatToString(n: nat)
    ensures ParseNat(NatToString(n)) == n
  {
    if n >= 10 {
      var r := NatToString(n);
      assert r[..|r| - 1] == NatToString(n / 10);
      ParseNatToString(n / 10);
    }
  }

  /** The rendered number reads back as itself, so rendering is injective. */
  lemma ParseIntToString(n: int)
    ensures ParseInt(IntToString(n)) == n
  {
    if n < 0 {
      assert IntToString(n)[1..] == NatToString(-n);
      ParseNatToString(-n);
    } else {
      ParseNatToString(n);
    }
  }

  lemma IntToStringInjective(m: int, n: int)
    requires IntToString(m) == IntToString(n)
    ensures m == n
  {
    ParseIntToString(m);
    ParseIntToString(n);
  }

  /** A rendered integer never contains a space. */
  lemma IntToStringNoSpace(n: int)
    ensures ' ' !in IntToString(n)
  {
    var r := IntToString(n);
    if n < 0 {
      assert forall i :: 1 <= i < |r| ==> r[i] == NatToString(-n)[i - 1];
    }
  }
}
