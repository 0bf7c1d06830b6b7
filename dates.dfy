/** `timeBetweenTimestamps` of lib/utils/dates.js: the difference between two
    timestamps, rounded down to whole seconds, minutes, hours or days, as
    text.

    Parsing the timestamps with `new Date(...)` is left to the caller: a
    timestamp is given as its millisecond value, or `None` for an Invalid
    Date. With integral milliseconds, `Math.floor(ms / 1000 / 60)` is the
    integer quotient of ms by 60000, which is Dafny's `/` on `int` since the
    divisor is positive. */
module Dates {
  import opened Text

  datatype Unit = Seconds | Minutes | Hours | Days
  {
    function Name(): string
    {
      match this
      case Seconds => "seconds"
      case Minutes => "minutes"
      case Hours => "hours"
      case Days => "days"
    }

    /** Milliseconds in one unit. */
    function Millis(): int
    {
      match this
      case Seconds => 1000
      case Minutes => 60 * 1000
      case Hours => 60 * 60 * 1000
      case Days => 60 * 60 * 24 * 1000
    }
  }

  /** A duration rounded down to a whole number of one unit. */
  datatype Span = Span(amount: int, unit: Unit)

  /** The if/else chain on `diffInSeconds`. The unit is the largest one the
      difference reaches (seconds for anything under a minute, negative
      differences included) and the amount is the difference rounded down to
      that unit; for a difference that is not negative the number stays within
      its unit: 0 to 59 seconds, 1 to 59 minutes, 1 to 23 hours, at least one
      day. */
  function Bucket(diffMs: int): (s: Span)
    ensures s.amount * s.unit.Millis() <= diffMs < (s.amount + 1) * s.unit.Millis()
    ensures s.unit == Seconds <==> diffMs < 60000
    ensures s.unit == Minutes <==> 60000 <= diffMs < 3600000
    ensures s.unit == Hours <==> 3600000 <= diffMs < 86400000
    ensures s.unit == Days <==> 86400000 <= diffMs
    ensures diffMs >= 0 ==>
      && (s.unit == Seconds ==> 0 <= s.amount <= 59)
      && (s.unit == Minutes ==> 1 <= s.amount <= 59)
      && (s.unit == Hours ==> 1 <= s.amount <= 23)
      && (s.unit == Days ==> 1 <= s.amount)
  {
    if diffMs < 60 * 1000 then Span(diffMs / 1000, Seconds)
    else if diffMs < 60 * 60 * 1000 then Span(diffMs / (60 * 1000), Minutes)
    else if diffMs < 60 * 60 * 24 * 1000 then Span(diffMs / (60 * 60 * 1000), Hours)
    else Span(diffMs / (60 * 60 * 24 * 1000), Days)
  }

  /** `${amount} ${unit}`: the number, then one space, then the unit word.
      The text starts with a digit or a minus sign, so it is never the
      `NaN days` of an unparsed timestamp. */
  function Render(s: Span): (r: string)
    ensures |r| > |s.unit.Name()| && r[|r| - |s.unit.Name()|..] == s.unit.Name()
    ensures r[0] == '-' || IsDigit(r[0])
    ensures r != "NaN days"
  {
    var n := IntToString(s.amount);
    var r := n + " " + s.unit.Name();
    assert r[|r| - |s.unit.Name()|..] == s.unit.Name();
    assert r[0] == n[0];
    r
  }

  /** `timeBetweenTimestamps(minTimestamp, maxTimestamp)`. A timestamp that
      does not parse makes the difference NaN: every comparison with NaN is
      false, so the chain falls through to the last branch and prints
      `NaN days`. The text is `NaN days` exactly when a timestamp did not
      parse; otherwise it is the rendered bucket of the difference. */
  function TimeBetweenTimestamps(minMs: Option<int>, maxMs: Option<int>): (r: string)
    ensures r == "NaN days" <==> minMs.None? || maxMs.None?
    ensures minMs.Some? && maxMs.Some? ==> r == Render(Bucket(maxMs.value - minMs.value))
  {
    if minMs.None? || maxMs.None? then "NaN days"
    else Render(Bucket(maxMs.value - minMs.value))
  }

  /** The text determines the span: the number reads back and the unit word
      follows the only space. */
  lemma {:induction false} RenderInjective(s: Span, t: Span)
    requires Render(s) == Render(t)
    ensures s == t
  {
    var a, b := IntToString(s.amount), IntToString(t.amount);
    var x, y := " " + s.unit.Name(), " " + t.unit.Name();
    IntToStringNoSpace(s.amount);
    IntToStringNoSpace(t.amount);
    RenderParts(s);
    RenderParts(t);
    SplitAtFirst(a, x, b, y, ' ');
    IntToStringInjective(s.amount, t.amount);
    CancelPrefix(" ", s.unit.Name(), t.unit.Name());
    NameInjective(s.unit, t.unit);
  }

  lemma RenderParts(s: Span)
    ensures Render(s) == IntToString(s.amount) + (" " + s.unit.Name())
  {
  }

  /** The unit words start with different letters. */
  lemma NameInjective(u: Unit, v: Unit)
    requires u.Name() == v.Name()
    ensures u == v
  {
    assert u.Name()[0] == v.Name()[0];
  }
}
