/** The date-range filter: a local start/end pair edited in two date inputs,
    applied to the parent (`onChange`) only when the end does not precede the
    start, and cleared back to no range. The parent's `start` and `end`
    props are parameters. */
module DateRangeFilter {
  import opened JsModel

  /** The pair handed to `onChange`. */
  datatype Range = Range(start: Option<string>, end: Option<string>)

  /** JavaScript's `a < b` on strings: lexicographic, a proper prefix before
      the longer string. */
  predicate LexLess(a: string, b: string)
    decreases |a|
  {
    if b == [] then false
    else if a == [] then true
    else if a[0] != b[0] then a[0] < b[0]
    else LexLess(a[1..], b[1..])
  }

  /** `s || ''` for a nullable prop. */
  function OrEmpty(s: Option<string>): (r: string)
    ensures s.Some? ==> r == s.value
    ensures s.None? ==> r == ""
  {
    StrOr(s, "")
  }

  /** `s || null` for a local value. */
  function NullIfEmpty(s: string): (r: Option<string>)
    ensures r.None? <==> s == ""
    ensures r.Some? ==> r.value == s
  {
    if s == "" then None else Some(s)
  }

  /** What apply hands to `onChange`: nothing when both bounds are set and the
      end sorts before the start (the user is alerted instead), otherwise the
      two bounds with '' as null. */
  function ApplyResult(localStart: string, localEnd: string): (r: Option<Range>)
    ensures r.None? <==> localStart != "" && localEnd != "" && LexLess(localEnd, localStart)
    ensures r.Some? ==> r.value.start == NullIfEmpty(localStart) && r.value.end == NullIfEmpty(localEnd)
  {
    if localStart != "" && localEnd != "" && LexLess(localEnd, localStart) then None
    else Some(Range(NullIfEmpty(localStart), NullIfEmpty(localEnd)))
  }

  /** Apply is disabled while the local values equal the props. */
  predicate ApplyDisabled(start: Option<string>, end: Option<string>, localStart: string, localEnd: string) {
    localStart == OrEmpty(start) && localEnd == OrEmpty(end)
  }

  /** Clear is rendered when any prop or local value is non-empty. */
  predicate ClearVisible(start: Option<string>, end: Option<string>, localStart: string, localEnd: string) {
    OrEmpty(start) != "" || OrEmpty(end) != "" || localStart != "" || localEnd != ""
  }

  class DateRangeFilterState {
    var localStart: string
    var localEnd: string

    constructor(start: Option<string>, end: Option<string>)
      ensures localStart == OrEmpty(start) && localEnd == OrEmpty(end)
    {
      localStart := OrEmpty(start);
      localEnd := OrEmpty(end);
    }

    method SetLocalStart(s: string)
      modifies this`localStart
      ensures localStart == s
    {
      localStart := s;
    }

    method SetLocalEnd(s: string)
      modifies this`localEnd
      ensures localEnd == s
    {
      localEnd := s;
    }

    /** apply: `emitted` is the pair passed to `onChange`, if any, and
        `alerted` says whether the user was alerted instead. */
    method Apply() returns (emitted: Option<Range>, alerted: bool)
      ensures alerted <==> localStart != "" && localEnd != "" && LexLess(localEnd, localStart)
      ensures alerted <==> emitted.None?
      ensures emitted.Some? ==> emitted.value == Range(NullIfEmpty(localStart), NullIfEmpty(localEnd))
    {
      if localStart != "" && localEnd != "" && LexLess(localEnd, localStart) {
        return None, true;
      }
      emitted := Some(Range(if localStart != "" then Some(localStart) else None,
                            if localEnd != "" then Some(localEnd) else None));
      alerted := false;
    }

    /** clear: both local values emptied, `onChange(null, null)`. */
    method Clear() returns (emitted: Range)
      modifies this`localStart, this`localEnd
      ensures localStart == "" && localEnd == ""
      ensures emitted == Range(None, None)
    {
      localStart := "";
      localEnd := "";
      emitted := Range(None, None);
    }
  }

  // ---- Properties of the string order ----

  /** No string sorts before itself, so equal bounds are accepted. */
  lemma {:induction false} LexLessIrreflexive(a: string)
    ensures !LexLess(a, a)
  {
    if a != [] {
      LexLessIrreflexive(a[1..]);
    }
  }

  /** Of two different strings exactly one sorts first. */
  lemma {:induction false} LexLessTrichotomy(a: string, b: string)
    ensures a != b ==> (LexLess(a, b) <==> !LexLess(b, a))
    ensures a == b ==> !LexLess(a, b)
    decreases |a|
  {
    if a == b {
      LexLessIrreflexive(a);
    } else if a != [] && b != [] && a[0] == b[0] {
      assert a[1..] != b[1..] by {
        assert a == [a[0]] + a[1..] && b == [b[0]] + b[1..];
      }
      LexLessTrichotomy(a[1..], b[1..]);
    }
  }

  /** Comparing two strings that start with parts of equal length: the
      first parts decide unless they are equal. */
  lemma {:induction false} LexLessAppend(p: string, q: string, x: string, y: string)
    requires |p| == |q|
    ensures LexLess(p + x, q + y) == (if p == q then LexLess(x, y) else LexLess(p, q))
    decreases |p|
  {
    if p == [] {
      assert p + x == x && q + y == y;
    } else {
      assert (p + x)[0] == p[0] && (q + y)[0] == q[0];
      assert (p + x)[1..] == p[1..] + x && (q + y)[1..] == q[1..] + y;
      if p[0] == q[0] {
        LexLessAppend(p[1..], q[1..], x, y);
        assert p == q <==> p[1..] == q[1..] by {
          assert p == [p[0]] + p[1..] && q == [q[0]] + q[1..];
        }
      }
    }
  }

  // ---- ISO dates: string order is chronological order ----

  predicate IsDigit(c: char) { '0' <= c <= '9' }

  predicate AllDigits(s: string) {
    forall i :: 0 <= i < |s| ==> IsDigit(s[i])
  }

  function Pow10(n: nat): (r: nat)
    ensures r >= 1
  {
    if n == 0 then 1 else 10 * Pow10(n - 1)
  }

  /** The number a digit string spells in decimal. */
  function DigitsVal(s: string): nat
    requires AllDigits(s)
  {
    if s == [] then 0
    else (s[0] as int - '0' as int) * Pow10(|s| - 1) + DigitsVal(s[1..])
  }

  lemma {:induction false} DigitsValBound(s: string)
    requires AllDigits(s)
    ensures DigitsVal(s) < Pow10(|s|)
  {
    if s != [] {
      DigitsValBound(s[1..]);
      var d := s[0] as int - '0' as int;
      var p := Pow10(|s| - 1);
      assert d <= 9;
      assert d * p <= 9 * p;
    }
  }

  lemma MulMonotone(x: int, y: int, p: nat)
    requires x <= y
    ensures x * p <= y * p
  {
    assert y * p - x * p == (y - x) * p;
  }

  /** For digit strings of equal length, string order is numeric order. */
  lemma {:induction false} LexLessDigits(a: string, b: string)
    requires AllDigits(a) && AllDigits(b) && |a| == |b|
    ensures LexLess(a, b) <==> DigitsVal(a) < DigitsVal(b)
  {
    if a != [] {
      var p := Pow10(|a| - 1);
      var da := a[0] as int - '0' as int;
      var db := b[0] as int - '0' as int;
      assert AllDigits(a[1..]) && AllDigits(b[1..]);
      var ra, rb := DigitsVal(a[1..]), DigitsVal(b[1..]);
      assert DigitsVal(a) == da * p + ra && DigitsVal(b) == db * p + rb;
      DigitsValBound(a[1..]);
      DigitsValBound(b[1..]);
      if a[0] == b[0] {
        LexLessDigits(a[1..], b[1..]);
      } else if a[0] < b[0] {
        MulMonotone(da + 1, db, p);
        assert (da + 1) * p == da * p + p;
      } else {
        MulMonotone(db + 1, da, p);
        assert (db + 1) * p == db * p + p;
      }
    }
  }

  /** A `yyyy-mm-dd` string, as a date input produces. */
  predicate IsoDate(s: string) {
    |s| == 10 && s[4] == '-' && s[7] == '-' &&
    AllDigits(s[..4]) && AllDigits(s[5..7]) && AllDigits(s[8..])
  }

  /** The eight digits of a date, dashes left out. */
  function DateDigits(s: string): (r: string)
    requires IsoDate(s)
    ensures |r| == 8 && AllDigits(r)
  {
    s[..4] + (s[5..7] + s[8..])
  }

  /** The date as the number yyyymmdd: ordered as the calendar is. */
  function DateKey(s: string): nat
    requires IsoDate(s)
  {
    DigitsVal(DateDigits(s))
  }

  lemma SameHeadStep(x: string, y: string)
    requires x != [] && y != [] && x[0] == y[0]
    ensures LexLess(x, y) == LexLess(x[1..], y[1..])
  {
  }

  /** The dashes sit at the same places in both dates, so they never decide
      the comparison. */
  lemma IsoOrderIsDigitOrder(a: string, b: string)
    requires IsoDate(a) && IsoDate(b)
    ensures LexLess(a, b) == LexLess(DateDigits(a), DateDigits(b))
  {
    assert a == a[..4] + a[4..] && b == b[..4] + b[4..];
    LexLessAppend(a[..4], b[..4], a[4..], b[4..]);
    assert a[4..][1..] == a[5..] && b[4..][1..] == b[5..];
    SameHeadStep(a[4..], b[4..]);
    assert a[5..] == a[5..7] + a[7..] && b[5..] == b[5..7] + b[7..];
    LexLessAppend(a[5..7], b[5..7], a[7..], b[7..]);
    assert a[7..][1..] == a[8..] && b[7..][1..] == b[8..];
    SameHeadStep(a[7..], b[7..]);
    LexLessAppend(a[..4], b[..4], a[5..7] + a[8..], b[5..7] + b[8..]);
    LexLessAppend(a[5..7], b[5..7], a[8..], b[8..]);
  }

  /** For two ISO dates, `a < b` holds exactly when a is the earlier date. */
  lemma IsoDateOrderIsChronological(a: string, b: string)
    requires IsoDate(a) && IsoDate(b)
    ensures LexLess(a, b) <==> DateKey(a) < DateKey(b)
  {
    IsoOrderIsDigitOrder(a, b);
    LexLessDigits(DateDigits(a), DateDigits(b));
  }

  // ---- Properties of the filter ----

  /** For two ISO dates, apply refuses the range exactly when the end date
      comes before the start date; a range of one day is accepted. */
  lemma ApplyRejectsOnlyBackwardRanges(start: string, end: string)
    requires IsoDate(start) && IsoDate(end)
    ensures ApplyResult(start, end).None? <==> DateKey(end) < DateKey(start)
    ensures ApplyResult(start, start) == Some(Range(Some(start), Some(start)))
  {
    IsoDateOrderIsChronological(end, start);
    LexLessIrreflexive(start);
  }

  /** A range with one side left empty is always accepted. */
  lemma SingleSidedRangesAreAccepted(s: string)
    ensures ApplyResult(s, "") == Some(Range(NullIfEmpty(s), None))
    ensures ApplyResult("", s) == Some(Range(None, NullIfEmpty(s)))
  {
  }

  /** Once the parent adopts the applied range as its props, Apply is
      disabled again: `||` with '' undoes the `|| null` of apply. */
  lemma AppliedRangeDisablesApply(localStart: string, localEnd: string)
    requires ApplyResult(localStart, localEnd).Some?
    ensures var r := ApplyResult(localStart, localEnd).value;
      ApplyDisabled(r.start, r.end, localStart, localEnd)
  {
  }

  /** After clear, and once the parent adopts (null, null), Apply is disabled
      and Clear is hidden. */
  lemma ClearedFilterIsIdle()
    ensures ApplyDisabled(None, None, "", "")
    ensures !ClearVisible(None, None, "", "")
  {
  }

  /** A freshly mounted filter has Apply disabled. */
  lemma FreshFilterHasApplyDisabled(start: Option<string>, end: Option<string>)
    ensures ApplyDisabled(start, end, OrEmpty(start), OrEmpty(end))
  {
  }

  /** 2025-01-01 to 2025-02-01 is applied as it stands; 2025-02-10 to
      2025-02-01 is refused. */
  lemma ApplyExamples()
    ensures ApplyResult("2025-01-01", "2025-02-01") == Some(Range(Some("2025-01-01"), Some("2025-02-01")))
    ensures ApplyResult("2025-02-10", "2025-02-01").None?
  {
    assert "2025-02-01" == "2025-0" + "2-01" && "2025-01-01" == "2025-0" + "1-01";
    LexLessAppend("2025-0", "2025-0", "2-01", "1-01");
    assert "2025-02-10" == "2025-02-" + "10" && "2025-02-01" == "2025-02-" + "01";
    LexLessAppend("2025-02-", "2025-02-", "01", "10");
  }
}
