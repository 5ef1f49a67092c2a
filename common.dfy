/** Shared vocabulary of the three agents: optional values, timestamps as
    integer seconds, and the handful of statistics (sum, mean, minimum,
    maximum) that the pandas calls in the agents compute. */
module Common {

  datatype Option<T> = None | Some(value: T)

  /** A datetime is modelled as a whole number of seconds on one naive
      clock; `datetime.now()` is passed in as such a value. */
  type Timestamp = int

  const SecondsPerMinute: int := 60
  const SecondsPerHour: int := 3600
  const SecondsPerDay: int := 86400

  /** Calendar day of a timestamp (`.dt.date`); Dafny's division floors
      like Python's, so this holds for timestamps before the epoch too. */
  function DayOf(t: Timestamp): (d: int)
    ensures d * SecondsPerDay <= t < (d + 1) * SecondsPerDay
  {
    t / SecondsPerDay
  }

  /** Hour of the day of a timestamp (`.dt.hour`). */
  function HourOf(t: Timestamp): (h: int)
    ensures 0 <= h < 24
    ensures DayOf(t) * SecondsPerDay + h * SecondsPerHour <= t < DayOf(t) * SecondsPerDay + (h + 1) * SecondsPerHour
  {
    (t % SecondsPerDay) / SecondsPerHour
  }

  /** Whole days of a time difference, as `timedelta.days` gives it
      (rounded towards minus infinity). */
  function WholeDays(from: Timestamp, to: Timestamp): (d: int)
    ensures d * SecondsPerDay <= to - from < (d + 1) * SecondsPerDay
  {
    (to - from) / SecondsPerDay
  }

  lemma WholeDaysOfDayOffset(now: Timestamp, days: int)
    ensures WholeDays(now, now + days * SecondsPerDay) == days
  {
  }

  /** Python's `min` of two reals. */
  function MinReal(a: real, b: real): (m: real)
    ensures m <= a && m <= b && (m == a || m == b)
  {
    if a <= b then a else b
  }

  /** `min` on integers: the same definition as `MinReal`, since Dafny has
      no ordering common to `int` and `real` to write it once. */
  function MinInt(a: int, b: int): (m: int)
    ensures m <= a && m <= b && (m == a || m == b)
  {
    if a <= b then a else b
  }

  function AbsInt(a: int): (r: nat)
    ensures r == a || r == -a
  {
    if a < 0 then -a else a
  }

  function Sum(xs: seq<real>): real
  {
    if xs == [] then 0.0 else xs[0] + Sum(xs[1..])
  }

  /** Arithmetic mean, as `Series.mean()` computes it over the values present. */
  function Mean(xs: seq<real>): real
    requires |xs| > 0
  {
    Sum(xs) / |xs| as real
  }

  /** Smallest element, as `Series.min()`. */
  function Min(xs: seq<real>): (m: real)
    requires |xs| > 0
    ensures m in xs
    ensures forall i :: 0 <= i < |xs| ==> m <= xs[i]
  {
    if |xs| == 1 then xs[0]
    else
      var rest := Min(xs[1..]);
      assert forall i :: 1 <= i < |xs| ==> xs[i] == xs[1..][i - 1];
      if xs[0] <= rest then xs[0] else rest
  }

  /** Largest element, as `Series.max()`. */
  function Max(xs: seq<real>): (m: real)
    requires |xs| > 0
    ensures m in xs
    ensures forall i :: 0 <= i < |xs| ==> xs[i] <= m
  {
    if |xs| == 1 then xs[0]
    else
      var rest := Max(xs[1..]);
      assert forall i :: 1 <= i < |xs| ==> xs[i] == xs[1..][i - 1];
      if rest <= xs[0] then xs[0] else rest
  }

  lemma Sum1(xs: seq<real>)
    requires |xs| == 1
    ensures Sum(xs) == xs[0]
  {
    assert xs[1..] == [];
  }

  lemma {:induction false} SumAppend(xs: seq<real>, ys: seq<real>)
    ensures Sum(xs + ys) == Sum(xs) + Sum(ys)
  {
    if xs == [] {
      assert xs + ys == ys;
    } else {
      assert (xs + ys)[1..] == xs[1..] + ys;
      SumAppend(xs[1..], ys);
    }
  }

  /** A sum of values inside [lo, hi] lies inside [n * lo, n * hi]. */
  lemma {:induction false} SumBounds(xs: seq<real>, lo: real, hi: real)
    requires forall i :: 0 <= i < |xs| ==> lo <= xs[i] <= hi
    ensures |xs| as real * lo <= Sum(xs) <= |xs| as real * hi
  {
    if xs != [] {
      assert forall i :: 0 <= i < |xs| - 1 ==> xs[1..][i] == xs[i + 1];
      SumBounds(xs[1..], lo, hi);
    }
  }

  /** The mean of values inside [lo, hi] lies inside [lo, hi]. */
  lemma MeanBounds(xs: seq<real>, lo: real, hi: real)
    requires |xs| > 0
    requires forall i :: 0 <= i < |xs| ==> lo <= xs[i] <= hi
    ensures lo <= Mean(xs) <= hi
  {
    SumBounds(xs, lo, hi);
    var n := |xs| as real;
    assert Mean(xs) * n == Sum(xs);
  }

  /** The minimum never exceeds the mean, and the mean never exceeds the
      maximum (the order `min <= avg <= max` of every baseline column). */
  lemma MinMeanMax(xs: seq<real>)
    requires |xs| > 0
    ensures Min(xs) <= Mean(xs) <= Max(xs)
  {
    MeanBounds(xs, Min(xs), Max(xs));
  }

  /** The mean of a sequence whose every element is q is q itself. */
  lemma MeanConstant(xs: seq<real>, q: real)
    requires |xs| > 0
    requires forall i :: 0 <= i < |xs| ==> xs[i] == q
    ensures Mean(xs) == q
  {
    MeanBounds(xs, q, q);
  }

  predicate IsDigit(c: char)
  {
    '0' <= c <= '9'
  }

  /** The value of a decimal digit (0 for any other character). */
  function DigitValue(c: char): (v: nat)
    ensures v < 10
    ensures IsDigit(c) ==> v == c as int - '0' as int
  {
    if IsDigit(c) then c as int - '0' as int else 0
  }

  /** The decimal digit for 0..9. */
  function DigitChar(d: int): (c: char)
    requires 0 <= d <= 9
    ensures IsDigit(c) && DigitValue(c) == d
  {
    ('0' as int + d) as char
  }

  /** `str.lower()` restricted to ASCII letters. */
  function LowerChar(c: char): (l: char)
    ensures !('A' <= l <= 'Z')
    ensures 'a' <= l <= 'z' <==> 'A' <= c <= 'Z' || 'a' <= c <= 'z'
    ensures 'A' <= c <= 'Z' ==> l as int - 'a' as int == c as int - 'A' as int
    ensures !('A' <= c <= 'Z') ==> l == c
  {
    if 'A' <= c <= 'Z' then (c as int + 32) as char else c
  }

  function Lower(s: string): (l: string)
    ensures |l| == |s|
    ensures forall i :: 0 <= i < |s| ==> l[i] == LowerChar(s[i])
  {
    if s == [] then [] else [LowerChar(s[0])] + Lower(s[1..])
  }

  /** Python's `sub in s` for a non-empty `sub`. */
  predicate HasInfix(s: string, sub: string)
    decreases |s|
  {
    |sub| <= |s| && (s[..|sub|] == sub || HasInfix(s[1..], sub))
  }

  /** `sub` occurs in `s` starting at position `i`. */
  predicate OccursAt(s: string, sub: string, i: int)
  {
    0 <= i <= |s| - |sub| && s[i..i + |sub|] == sub
  }

  /** A slice of `s` that starts after its first character is the same
      slice of `s[1..]`, one position earlier. */
  lemma SliceOfTail(s: string, i: int, n: int)
    requires 1 <= i && 0 <= n && i + n <= |s|
    ensures s[i..i + n] == s[1..][i - 1..i - 1 + n]
  {
    assert forall k :: i - 1 <= k < i - 1 + n ==> s[1..][k] == s[k + 1];
  }

  /** `sub in s` holds exactly when `sub` occurs at some position of `s`. */
  lemma {:induction false} HasInfixAt(s: string, sub: string)
    ensures HasInfix(s, sub) <==> exists i :: OccursAt(s, sub, i)
    decreases |s|
  {
    if |sub| > |s| {
      assert forall i :: !OccursAt(s, sub, i);
    } else if s[..|sub|] == sub {
      assert OccursAt(s, sub, 0);
    } else {
      HasInfixAt(s[1..], sub);
      if HasInfix(s[1..], sub) {
        var j :| OccursAt(s[1..], sub, j);
        SliceOfTail(s, j + 1, |sub|);
        assert OccursAt(s, sub, j + 1);
      } else {
        forall i | OccursAt(s, sub, i)
          ensures false
        {
          assert i > 0;
          SliceOfTail(s, i, |sub|);
          assert OccursAt(s[1..], sub, i - 1);
        }
      }
    }
  }

  /** Python's `s.replace(target, replacement)` for a non-empty `target`: every
      non-overlapping occurrence, scanning left to right. */
  function Replace(s: string, target: string, replacement: string): (r: string)
    requires target != []
    ensures |replacement| == |target| ==> |r| == |s|
    ensures replacement == target ==> r == s
    decreases |s|
  {
    if |s| < |target| then s
    else if s[..|target|] == target then replacement + Replace(s[|target|..], target, replacement)
    else [s[0]] + Replace(s[1..], target, replacement)
  }
}
