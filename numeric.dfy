/**
 * The numeric pattern `/^\d+(\.\d+)?$/` that the form applies to tax rates,
 * item rates and quantities: one or more decimal digits, optionally followed
 * by a point and one or more digits. `IsDecimal` states the language;
 * `Matches` is the automaton that a call to `.test` runs over the string.
 */
module Numeric {
  import opened Wrappers
  import opened Text

  lemma AllDigitsCons(s: string)
    requires s != []
    ensures AllDigits(s) <==> IsDigit(s[0]) && AllDigits(s[1..])
  {
    if IsDigit(s[0]) && AllDigits(s[1..]) {
      forall i | 0 <= i < |s| ensures IsDigit(s[i]) {
        if i > 0 { assert s[i] == s[1..][i - 1]; }
      }
    }
  }

  /** `s` is `digits "." digits` with the point at index `k` (either side possibly empty). */
  predicate PointAt(s: string, k: int) {
    0 <= k < |s| && s[k] == '.' && AllDigits(s[..k]) && AllDigits(s[k + 1..])
  }

  /** The language of `^\d+(\.\d+)?$`. */
  predicate IsDecimal(s: string) {
    (s != [] && AllDigits(s)) ||
    exists k :: PointAt(s, k) && 0 < k < |s| - 1
  }

  /** States of the matcher: before the first digit, in the whole part, just after the point, in the fraction. */
  datatype Phase = Start | Whole | Point | Fraction

  function Next(p: Phase, c: char): Option<Phase> {
    match p
    case Start => if IsDigit(c) then Some(Whole) else None
    case Whole => if IsDigit(c) then Some(Whole) else if c == '.' then Some(Point) else None
    case Point => if IsDigit(c) then Some(Fraction) else None
    case Fraction => if IsDigit(c) then Some(Fraction) else None
  }

  function Accepts(p: Phase, s: string): bool
    decreases |s|
  {
    if s == [] then p == Whole || p == Fraction
    else match Next(p, s[0])
      case None => false
      case Some(q) => Accepts(q, s[1..])
  }

  /** `/^\d+(\.\d+)?$/.test(s)` */
  function Matches(s: string): bool {
    Accepts(Start, s)
  }

  lemma {:induction false} AcceptsFraction(s: string)
    ensures Accepts(Fraction, s) <==> AllDigits(s)
    decreases |s|
  {
    if s != [] {
      AcceptsFraction(s[1..]);
      AllDigitsCons(s);
    }
  }

  lemma AcceptsPoint(s: string)
    ensures Accepts(Point, s) <==> s != [] && AllDigits(s)
  {
    if s != [] {
      AcceptsFraction(s[1..]);
      AllDigitsCons(s);
    }
  }

  /** After a leading digit, a point at `k` in the rest is a point at `k + 1` in the whole, and back. */
  lemma PointShift(s: string, k: nat)
    requires s != [] && IsDigit(s[0])
    ensures PointAt(s[1..], k) <==> PointAt(s, k + 1)
  {
    var t := s[1..];
    if k < |t| {
      assert s[..k + 1] == [s[0]] + t[..k];
      assert s[k + 2..] == t[k + 1..];
      AllDigitsCons(s[..k + 1]);
      assert s[..k + 1][1..] == t[..k];
    }
  }

  /** From the whole part the automaton accepts digits, optionally followed by `.digits+`. */
  lemma {:induction false} AcceptsWhole(s: string)
    ensures Accepts(Whole, s) <==> AllDigits(s) || exists k :: PointAt(s, k) && k < |s| - 1
    decreases |s|
  {
    if s == [] {
      return;
    }
    var t := s[1..];
    var c := s[0];
    AllDigitsCons(s);
    if IsDigit(c) {
      AcceptsWhole(t);
      if Accepts(Whole, s) && !AllDigits(s) {
        var k: nat :| PointAt(t, k) && k < |t| - 1;
        PointShift(s, k);
      }
      if !AllDigits(s) && (exists k :: PointAt(s, k) && k < |s| - 1) {
        var k :| PointAt(s, k) && k < |s| - 1;
        PointShift(s, k - 1);
      }
    } else if c == '.' {
      AcceptsPoint(t);
      if Accepts(Whole, s) {
        assert s[..0] == [] && s[1..] == t;
        assert PointAt(s, 0);
      }
      if exists k :: PointAt(s, k) && k < |s| - 1 {
        var k :| PointAt(s, k) && k < |s| - 1;
        assert s[1..] == t;
      }
    }
  }

  /** The automaton accepts exactly the language of the pattern. */
  lemma MatchesIsDecimal(s: string)
    ensures Matches(s) <==> IsDecimal(s)
  {
    if s == [] {
      return;
    }
    var t := s[1..];
    var c := s[0];
    AcceptsWhole(t);
    AllDigitsCons(s);
    if IsDigit(c) {
      if Matches(s) && !AllDigits(s) {
        var k: nat :| PointAt(t, k) && k < |t| - 1;
        PointShift(s, k);
      }
      if IsDecimal(s) && !AllDigits(s) {
        var k :| PointAt(s, k) && 0 < k < |s| - 1;
        PointShift(s, k - 1);
      }
    }
  }
}
