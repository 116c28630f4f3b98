/** The characteristic of pressure tendency, WMO code table 0200, as
    `weathercodes.py` derives it: the extremum heuristic `pressure_tendency`
    (which sorts the caller's list in place), the list of half-hour means it
    is fed by `StationBinder.pressure_tendency_symbol`, and the sign table of
    BUFR descriptor 0 10 063 in `pressure_tendency_bufr`. */
module Tendency {
  import opened Builtins

  /** One entry of `p_list`: a time stamp and a barometer reading in hPa. */
  datatype Reading = Reading(time: real, pressure: real)

  /** `round(p, 1)`, counted in tenths of hPa. */
  function Tenths(p: real): int {
    RoundHalfEven(p * 10.0)
  }

  lemma TenthsMonotone(p: real, q: real)
    requires p <= q
    ensures Tenths(p) <= Tenths(q)
  {
    RoundHalfEvenMonotone(p * 10.0, q * 10.0);
  }

  // ------------------------------------------------------------ decision

  /** The decision chain of `pressure_tendency` on the rounded readings:
      3 hours ago, now, the lowest and the highest. */
  function TendencyCode(p3h: int, p0h: int, pmin: int, pmax: int): Option<int> {
    if p3h == p0h then Some(4)
    else if pmin == p3h && pmax == p0h then Some(2)
    else if pmin == p0h && pmax == p3h then Some(7)
    else if p0h > p3h && pmin <= p0h then Some(3)
    else if p0h <= p3h && pmin < p0h then Some(5)
    else if p0h < p3h && pmax >= p3h then Some(8)
    else if p0h < p3h && pmin == p0h then Some(6)
    else if p0h > p3h && pmax == p0h then Some(1)
    else None
  }

  /** When the lowest and highest reading bracket both end points, as they
      do for readings from one list, the chain always answers, and never
      with 1, 6 or None: a rise is 2 exactly when it starts at the minimum
      and ends at the maximum, else 3; a fall is 7 exactly when it starts at
      the maximum and ends at the minimum, 5 when some reading lies below the
      final one, else 8. */
  lemma TendencyCodeCases(p3h: int, p0h: int, pmin: int, pmax: int)
    requires pmin <= p3h <= pmax && pmin <= p0h <= pmax
    ensures var r := TendencyCode(p3h, p0h, pmin, pmax);
      r.Some? && r.value in {2, 3, 4, 5, 7, 8} &&
      (p3h == p0h <==> r == Some(4)) &&
      (p0h > p3h ==> (r == Some(2) <==> pmin == p3h && pmax == p0h) && (r == Some(3) <==> !(pmin == p3h && pmax == p0h))) &&
      (p0h < p3h ==> (r == Some(7) <==> pmin == p0h && pmax == p3h) &&
                     (r == Some(5) <==> pmin < p0h) &&
                     (r == Some(8) <==> pmin == p0h && pmax > p3h))
  {
  }

  // ------------------------------------------------------------ pressure_tendency

  predicate SortedByPressure(s: seq<Reading>) {
    forall k, l :: 0 <= k < l < |s| ==> s[k].pressure <= s[l].pressure
  }

  function MinPressure(s: seq<Reading>): (m: real)
    requires |s| > 0
    ensures forall k :: 0 <= k < |s| ==> m <= s[k].pressure
    ensures exists k :: 0 <= k < |s| && m == s[k].pressure
  {
    if |s| == 1 then s[0].pressure
    else
      var m' := MinPressure(s[1..]);
      assert forall k :: 1 <= k < |s| ==> s[k] == s[1..][k - 1];
      if s[0].pressure <= m' then s[0].pressure else m'
  }

  function MaxPressure(s: seq<Reading>): (m: real)
    requires |s| > 0
    ensures forall k :: 0 <= k < |s| ==> s[k].pressure <= m
    ensures exists k :: 0 <= k < |s| && m == s[k].pressure
  {
    if |s| == 1 then s[0].pressure
    else
      var m' := MaxPressure(s[1..]);
      assert forall k :: 1 <= k < |s| ==> s[k] == s[1..][k - 1];
      if s[0].pressure >= m' then s[0].pressure else m'
  }

  /** What `pressure_tendency(p_list)` returns or raises: IndexError for an
      empty list, ZeroDivisionError when the first and last time stamps
      coincide (one reading included), else the decision on the first and
      last reading and the extremes, all rounded to 0.1 hPa. Every list the
      heuristic accepts gets one of 2, 3, 4, 5, 7, 8. */
  function PressureTendencyOf(s: seq<Reading>): (r: Result<Option<int>>)
    ensures r.Ok? <==> |s| > 0 && s[|s| - 1].time != s[0].time
    ensures r.Err? ==> r.error == if |s| == 0 then IndexError else ZeroDivisionError
    ensures r.Ok? ==> r.value.Some? && r.value.value in {2, 3, 4, 5, 7, 8}
  {
    if |s| == 0 then Err(IndexError)
    else if s[|s| - 1].time == s[0].time then Err(ZeroDivisionError)
    else
      var lo, hi := MinPressure(s), MaxPressure(s);
      TenthsMonotone(lo, s[0].pressure);
      TenthsMonotone(lo, s[|s| - 1].pressure);
      TenthsMonotone(s[0].pressure, hi);
      TenthsMonotone(s[|s| - 1].pressure, hi);
      TendencyCodeCases(Tenths(s[0].pressure), Tenths(s[|s| - 1].pressure), Tenths(lo), Tenths(hi));
      Ok(TendencyCode(Tenths(s[0].pressure), Tenths(s[|s| - 1].pressure), Tenths(lo), Tenths(hi)))
  }

  /** A list sorted by pressure that is a permutation of another starts with
      its minimum and ends with its maximum. */
  lemma SortedEnds(s: seq<Reading>, t: seq<Reading>)
    requires |s| > 0 && SortedByPressure(s) && multiset(s) == multiset(t) && |t| == |s|
    ensures s[0].pressure == MinPressure(t) && s[|s| - 1].pressure == MaxPressure(t)
  {
    assert |t| == |multiset(t)| == |s|;
    SortedFirst(s, t);
    SortedLast(s, t);
  }

  lemma SortedFirst(s: seq<Reading>, t: seq<Reading>)
    requires |s| > 0 && SortedByPressure(s) && multiset(s) == multiset(t) && |t| == |s|
    ensures s[0].pressure == MinPressure(t)
  {
    assert s[0] in multiset(t);
    var i :| 0 <= i < |t| && MinPressure(t) == t[i].pressure;
    assert t[i] in multiset(s);
  }

  lemma SortedLast(s: seq<Reading>, t: seq<Reading>)
    requires |s| > 0 && SortedByPressure(s) && multiset(s) == multiset(t) && |t| == |s|
    ensures s[|s| - 1].pressure == MaxPressure(t)
  {
    assert s[|s| - 1] in multiset(t);
    var j :| 0 <= j < |t| && MaxPressure(t) == t[j].pressure;
    assert t[j] in multiset(s);
  }

  /** One step of the insertion sort: moves `a[i]` down into the sorted
      prefix `a[..i]`. */
  method InsertByPressure(a: array<Reading>, i: nat)
    requires i < a.Length && SortedByPressure(a[..i])
    modifies a
    ensures SortedByPressure(a[..i + 1])
    ensures multiset(a[..]) == multiset(old(a[..]))
  {
    var j := i;
    InsertStart(a[..], i);
    while j > 0 && a[j - 1].pressure > a[j].pressure
      invariant 0 <= j <= i
      invariant Inserting(a[..], i, j)
      invariant multiset(a[..]) == multiset(old(a[..]))
    {
      ghost var s := a[..];
      a[j - 1], a[j] := a[j], a[j - 1];
      assert a[..] == s[j - 1 := s[j]][j := s[j - 1]];
      InsertSwap(s, i, j);
      j := j - 1;
    }
    InsertDone(a[..], i, j);
  }

  /** The state of the insertion of row `i`: the rows up to `i` other than
      the one being moved, at `j`, are in order, and it is no heavier than
      the rows after it. */
  predicate Inserting(s: seq<Reading>, i: nat, j: nat)
    requires j <= i < |s|
  {
    (forall k, l :: 0 <= k < l <= i && k != j && l != j ==> s[k].pressure <= s[l].pressure) &&
    (forall l :: j < l <= i ==> s[j].pressure <= s[l].pressure)
  }

  lemma InsertStart(s: seq<Reading>, i: nat)
    requires i < |s| && SortedByPressure(s[..i])
    ensures Inserting(s, i, i)
  {
    forall k, l | 0 <= k < l <= i && k != i && l != i
      ensures s[k].pressure <= s[l].pressure
    {
      assert s[k] == s[..i][k] && s[l] == s[..i][l];
    }
  }

  /** Swapping the moved row with a heavier one before it. */
  lemma InsertSwap(s: seq<Reading>, i: nat, j: nat)
    requires 0 < j <= i < |s| && Inserting(s, i, j) && s[j - 1].pressure > s[j].pressure
    ensures Inserting(s[j - 1 := s[j]][j := s[j - 1]], i, j - 1)
    ensures multiset(s[j - 1 := s[j]][j := s[j - 1]]) == multiset(s)
  {
  }

  lemma InsertDone(s: seq<Reading>, i: nat, j: nat)
    requires j <= i < |s| && Inserting(s, i, j)
    requires j == 0 || s[j - 1].pressure <= s[j].pressure
    ensures SortedByPressure(s[..i + 1])
  {
  }

  /** `p_list.sort(key=lambda x: x[1])`, as an insertion sort. */
  method SortByPressure(a: array<Reading>)
    modifies a
    ensures SortedByPressure(a[..])
    ensures multiset(a[..]) == multiset(old(a[..]))
  {
    var i := 0;
    while i < a.Length
      invariant 0 <= i <= a.Length
      invariant SortedByPressure(a[..i])
      invariant multiset(a[..]) == multiset(old(a[..]))
    {
      InsertByPressure(a, i);
      i := i + 1;
    }
    assert a[..a.Length] == a[..];
  }

  /** `pressure_tendency(p_list)`: the result of `PressureTendencyOf` on the
      list as given, which is left sorted by pressure. */
  method PressureTendency(a: array<Reading>) returns (r: Result<Option<int>>)
    modifies a
    ensures r == PressureTendencyOf(old(a[..]))
    ensures multiset(a[..]) == multiset(old(a[..]))
    ensures a.Length > 0 ==> SortedByPressure(a[..])
  {
    if a.Length == 0 {
      return Err(IndexError);
    }
    ghost var original := a[..];
    var p0h := a[a.Length - 1].pressure;
    var p3h := a[0].pressure;
    var p0htime := a[a.Length - 1].time;
    var p3htime := a[0].time;
    SortByPressure(a);
    var pmax := a[a.Length - 1].pressure;
    var pmin := a[0].pressure;
    SortedEnds(a[..], original);
    if p0htime == p3htime {
      return Err(ZeroDivisionError);
    }
    TendencyOfEnds(original, pmin, pmax);
    r := Ok(TendencyCode(Tenths(p3h), Tenths(p0h), Tenths(pmin), Tenths(pmax)));
  }

  lemma TendencyOfEnds(s: seq<Reading>, lo: real, hi: real)
    requires |s| > 0 && s[|s| - 1].time != s[0].time
    requires lo == MinPressure(s) && hi == MaxPressure(s)
    ensures PressureTendencyOf(s) == Ok(TendencyCode(Tenths(s[0].pressure), Tenths(s[|s| - 1].pressure), Tenths(lo), Tenths(hi)))
  {
  }

  // ------------------------------------------------------------ pressure_tendency_symbol

  /** One interval of `a.series()`: its start and stop time and the
      barometer reading, None when missing. */
  datatype Sample = Sample(start: real, stop: real, pressure: Option<real>)

  predicate Truthy(p: Option<real>) {
    p.Some? && p.value != 0.0
  }

  /** The list `pressure_tendency_symbol` builds from the first `n`
      samples: for every sample after a truthy one, the mean of the two
      readings stamped half-way between the earlier start and the later stop;
      a missing reading after a truthy one is a TypeError. */
  function Midpoints(series: seq<Sample>, n: nat): Result<seq<Reading>>
    requires n <= |series|
  {
    if n <= 1 then Ok([])
    else
      match Midpoints(series, n - 1)
      case Err(e) => Err(e)
      case Ok(l) =>
        var prev, cur := series[n - 2], series[n - 1];
        if !Truthy(prev.pressure) then Ok(l)
        else if cur.pressure.None? then Err(TypeError)
        else Ok(l + [Reading((prev.start + cur.stop) / 2.0, (prev.pressure.value + cur.pressure.value) / 2.0)])
  }

  /** Once the list fails it stays failed. */
  lemma {:induction false} MidpointsErrStays(series: seq<Sample>, n: nat, m: nat)
    requires n <= m <= |series| && Midpoints(series, n).Err?
    ensures Midpoints(series, m) == Midpoints(series, n)
    decreases m - n
  {
    if n < m {
      MidpointsErrStays(series, n, m - 1);
    }
  }

  /** Without missing or zero readings every sample after the first adds
      exactly one mean. */
  lemma {:induction false} MidpointsComplete(series: seq<Sample>, n: nat)
    requires n <= |series|
    requires forall k :: 0 <= k < |series| ==> Truthy(series[k].pressure)
    ensures Midpoints(series, n).Ok?
    ensures |Midpoints(series, n).value| == if n == 0 then 0 else n - 1
  {
    if n > 1 {
      MidpointsComplete(series, n - 1);
    }
  }

  /** The code `pressure_tendency_symbol` draws for a span: 4 when the
      difference over the span is below 0.1 hPa either way, else the
      heuristic on the means of neighbouring samples. Errors are the
      exceptions it catches and prints instead of a symbol. */
  function SpanTendencyOf(diff: Option<real>, series: seq<Sample>): (r: Result<Option<int>>)
    ensures diff.None? ==> r == Err(TypeError)
    ensures r.Ok? ==> r.value.Some? && r.value.value in {2, 3, 4, 5, 7, 8}
    ensures diff.Some? && -0.1 < diff.value < 0.1 ==> r == Ok(Some(4))
  {
    if diff.None? then Err(TypeError)
    else if -0.1 < diff.value < 0.1 then Ok(Some(4))
    else
      match Midpoints(series, |series|)
      case Err(e) => Err(e)
      case Ok(l) => PressureTendencyOf(l)
  }

  method SpanTendency(diff: Option<real>, series: seq<Sample>) returns (r: Result<Option<int>>)
    ensures r == SpanTendencyOf(diff, series)
  {
    if diff.None? {
      return Err(TypeError);
    }
    if -0.1 < diff.value < 0.1 {
      return Ok(Some(4));
    }
    var pList: seq<Reading> := [];
    var p0: Option<real> := None;
    var t0: real := 0.0;
    var i := 0;
    while i < |series|
      invariant 0 <= i <= |series|
      invariant Midpoints(series, i) == Ok(pList)
      invariant i == 0 ==> p0.None?
      invariant i > 0 ==> p0 == series[i - 1].pressure && t0 == series[i - 1].start
    {
      var p1 := series[i].pressure;
      if Truthy(p0) {
        if p1.None? {
          MidpointsErrStays(series, i + 1, |series|);
          return Err(TypeError);
        }
        pList := pList + [Reading((t0 + series[i].stop) / 2.0, (p0.value + p1.value) / 2.0)];
      }
      p0 := p1;
      t0 := series[i].start;
      i := i + 1;
    }
    var a := new Reading[|pList|](k requires 0 <= k < |pList| => pList[k]);
    assert a[..] == pList;
    r := PressureTendency(a);
  }

  // ------------------------------------------------------------ BUFR 0 10 063

  function Sign(x: real): (s: int)
    ensures s in {-1, 0, 1} && (s == 1 <==> x > 0.0) && (s == -1 <==> x < 0.0)
  {
    if x > 0.0 then 1 else if x < 0.0 then -1 else 0
  }

  /** The dictionary `A` of `pressure_tendency_bufr`, keyed by the signs of
      the change over three hours, of the third hour's change minus the first
      hour's, and of the third hour's change; `A.get` gives None off the
      table. */
  function BufrTable(all: int, bend: int, last: int): Option<int> {
    if all == 1 then
      if bend == 1 && last in {1, 0, -1} then Some(3)
      else if bend == 0 && last in {1, 0, -1} then Some(2)
      else if bend == -1 && last in {1, 0} then Some(1)
      else if bend == -1 && last == -1 then Some(0)
      else None
    else if all == 0 then
      if bend == 1 && last in {1, 0, -1} then Some(5)
      else if bend == 0 && last in {1, 0, -1} then Some(4)
      else if bend == -1 && last in {1, 0, -1} then Some(0)
      else None
    else if all == -1 then
      if bend == 1 && last == 1 then Some(5)
      else if bend == 1 && last in {0, -1} then Some(6)
      else if bend == 0 && last in {1, 0, -1} then Some(7)
      else if bend == -1 && last in {1, 0, -1} then Some(8)
      else None
    else None
  }

  /** `pressure_tendency_bufr(p3, p2, p1, p0)`: None when a reading is
      missing (the TypeError it catches). */
  function PressureTendencyBufr(p3: Option<real>, p2: Option<real>, p1: Option<real>, p0: Option<real>): (r: Option<int>)
    ensures r.Some? <==> p3.Some? && p2.Some? && p1.Some? && p0.Some?
    ensures r.Some? ==> 0 <= r.value <= 8
  {
    if p3.None? || p2.None? || p1.None? || p0.None? then None
    else
      var diffAll := p0.value - p3.value;
      var diffThird := p0.value - p1.value;
      var diffFirst := p2.value - p3.value;
      BufrTable(Sign(diffAll), Sign(diffThird - diffFirst), Sign(diffThird))
  }

  function BufrOf(p3: real, p2: real, p1: real, p0: real): Option<int> {
    PressureTendencyBufr(Some(p3), Some(p2), Some(p1), Some(p0))
  }

  /** The table covers all 27 sign triples, so four readings always give a
      code; a rise over the three hours gives 0..3, no change 0, 4 or 5, a
      fall 5..8. */
  lemma BufrByDirection(p3: real, p2: real, p1: real, p0: real)
    ensures var r := BufrOf(p3, p2, p1, p0);
      r.Some? && 0 <= r.value <= 8 &&
      (p0 > p3 ==> r.value <= 3) &&
      (p0 == p3 ==> r.value in {0, 4, 5}) &&
      (p0 < p3 ==> r.value >= 5)
  {
  }

  /** The code of a mirrored pressure curve. */
  function Mirror(c: int): int {
    if c == 4 then 4 else if c < 4 then c + 5 else c - 5
  }

  /** Turning the pressure curve upside down turns a rise code into the
      fall code of the same shape (0..3 into 5..8 and back) and keeps 4. */
  lemma BufrMirror(p3: real, p2: real, p1: real, p0: real)
    ensures BufrOf(-p3, -p2, -p1, -p0).Some? && BufrOf(p3, p2, p1, p0).Some?
    ensures BufrOf(-p3, -p2, -p1, -p0).value == Mirror(BufrOf(p3, p2, p1, p0).value)
  {
    assert (-p0) - (-p3) == -(p0 - p3);
    assert ((-p0) - (-p1)) - ((-p2) - (-p3)) == -((p0 - p1) - (p2 - p3));
  }

  /** A steady rise, the same change in the first and in the third hour,
      gives 2; so does the rise of 1 hPa an hour from 1000 hPa, and the
      small wave 1000, 1000.5, 1000.2, 1000 gives 0. */
  lemma BufrSteadyRise(p3: real, p2: real, p1: real, p0: real)
    requires p0 > p3 && p2 - p3 == p0 - p1 && p0 - p1 > 0.0
    ensures BufrOf(p3, p2, p1, p0) == Some(2)
    ensures BufrOf(1000.0, 1001.0, 1002.0, 1003.0) == Some(2)
    ensures BufrOf(1000.0, 1000.5, 1000.2, 1000.0) == Some(0)
  {
  }
}
