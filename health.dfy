/** The DWD health forecasts of `weatherserviceshealth.py` (bio-weather,
    pollen, UV index): the forecast intervals a record is looked up in, the
    pollen region and pollen value parsing, the legend of the pollen levels,
    the colour of a pollen level, the cache of intervals and the time the
    thread sleeps before the next download. */
module Health {
  import opened Builtins

  /** A value in a forecast record. */
  datatype Value = Null | Time(t: int) | Amount(x: real) | Text(s: string)

  /** A (value, unit, group) tuple. */
  datatype Entry = Entry(value: Value, unit: Option<string>, group: Option<string>)

  type Record = map<string, Entry>

  /** A forecast interval `(start, end, data)`; it answers for the
      timestamps `start < ts <= end`. */
  datatype Span = Span(start: int, end: int, values: Record)

  predicate Covers(sp: Span, ts: int) {
    sp.start < ts <= sp.end
  }

  // ------------------------------------------------------------ get_data

  /** The data of every interval covering `ts`, later intervals overriding
      earlier ones. */
  function Merged(spans: seq<Span>, ts: int): (r: Record)
    ensures (forall i :: 0 <= i < |spans| ==> !Covers(spans[i], ts)) ==> r == map[]
  {
    if spans == [] then map[]
    else
      var front := spans[..|spans| - 1];
      var m := Merged(front, ts);
      var last := spans[|spans| - 1];
      assert forall i :: 0 <= i < |front| ==> front[i] == spans[i];
      if Covers(last, ts) then m + last.values else m
  }

  /** A key is in the merge iff an interval covering `ts` holds it. */
  lemma {:induction false} MergedKeys(spans: seq<Span>, ts: int)
    ensures forall k :: k in Merged(spans, ts) <==> exists i :: 0 <= i < |spans| && Covers(spans[i], ts) && k in spans[i].values
  {
    if spans != [] {
      var front := spans[..|spans| - 1];
      MergedKeys(front, ts);
      assert forall i :: 0 <= i < |front| ==> front[i] == spans[i];
    }
  }

  /** The value under a key is that of the last covering interval holding it. */
  lemma {:induction false} MergedLatest(spans: seq<Span>, ts: int, i: nat, k: string)
    requires i < |spans| && Covers(spans[i], ts) && k in spans[i].values
    requires forall j :: i < j < |spans| && Covers(spans[j], ts) ==> k !in spans[j].values
    ensures k in Merged(spans, ts) && Merged(spans, ts)[k] == spans[i].values[k]
  {
    var front := spans[..|spans| - 1];
    if i < |spans| - 1 {
      assert forall j :: i < j < |front| ==> front[j] == spans[j];
      MergedLatest(front, ts, i, k);
    }
  }

  /** The merge of two runs of intervals is the merge of the first,
      overridden by the merge of the second. */
  lemma {:induction false} MergedAppend(a: seq<Span>, b: seq<Span>, ts: int)
    ensures Merged(a + b, ts) == Merged(a, ts) + Merged(b, ts)
  {
    if b == [] {
      assert a + b == a;
    } else {
      var front := b[..|b| - 1];
      MergedAppend(a, front, ts);
      assert (a + b)[..|a + b| - 1] == a + front;
      var last := b[|b| - 1];
      if Covers(last, ts) {
        var x, y, z := Merged(a, ts), Merged(front, ts), last.values;
        assert (x + y) + z == x + (y + z);
      }
    }
  }

  /** `(ts if ts else None, 'unix_epoch', 'group_time')`: a time of 0 or
      None is reported as None. */
  function UpdateEntry(t: Option<int>): (e: Entry)
    ensures e.value.Null? <==> t.None? || t.value == 0
  {
    Entry(if t.Some? && t.value != 0 then Time(t.value) else Null, Some("unix_epoch"), Some("group_time"))
  }

  /** The record of `get_data` before the intervals are merged in. */
  function Announced(model: string, lastUpdate: Option<int>, nextUpdate: Option<int>): Record {
    map[model + "LastUpdate" := UpdateEntry(lastUpdate), model + "NextUpdate" := UpdateEntry(nextUpdate)]
  }

  /** The result of `process_*` when the area was found: issue time,
      time of the next issue, the area's name and the forecast intervals. */
  datatype Fetched = Fetched(lastUpdate: Option<int>, nextUpdate: Option<int>, areaName: string, spans: seq<Span>)

  /** The cache after an update: only the previous last interval stays,
      followed by the new ones. */
  function Cached(old_: seq<Span>, fresh_: seq<Span>): (c: seq<Span>)
    ensures old_ == [] ==> c == fresh_
    ensures old_ != [] ==> |c| == |fresh_| + 1 && c[0] == old_[|old_| - 1] && c[1..] == fresh_
  {
    if old_ != [] then [old_[|old_| - 1]] + fresh_ else fresh_
  }

  /** After an update the previous last interval still answers for its
      timestamps, unless a new interval holds the same key. */
  lemma CachedLookup(old_: seq<Span>, fresh_: seq<Span>, ts: int)
    requires old_ != []
    ensures Merged(Cached(old_, fresh_), ts) ==
      (if Covers(old_[|old_| - 1], ts) then old_[|old_| - 1].values else map[]) + Merged(fresh_, ts)
  {
    var l := [old_[|old_| - 1]];
    MergedAppend(l, fresh_, ts);
    assert l[..0] == [];
    assert Merged(l, ts) == if Covers(old_[|old_| - 1], ts) then map[] + old_[|old_| - 1].values else map[];
    assert map[] + old_[|old_| - 1].values == old_[|old_| - 1].values;
  }

  /** The health forecast thread. */
  class DwdHealthThread {
    /** 'biowetter', 'pollen', 'uvi' or 'thermal'. */
    var model: string
    /** The archive interval in seconds. */
    var queryInterval: int
    var data: seq<Span>
    var lastUpdate: Option<int>
    var nextUpdate: Option<int>
    var areaName: string

    constructor (model: string, queryInterval: int)
      ensures this.model == model && this.queryInterval == queryInterval
      ensures data == [] && lastUpdate == Some(0) && nextUpdate == Some(0) && areaName == ""
    {
      this.model := model;
      this.queryInterval := queryInterval;
      data := [];
      lastUpdate := Some(0);
      nextUpdate := Some(0);
      areaName := "";
    }

    /** `get_data(ts)`: the issue times and the data of the intervals
        covering `ts`; the interval is always 5. */
    method GetData(ts: int) returns (d: Record, interval: int)
      ensures d == Announced(model, lastUpdate, nextUpdate) + Merged(data, ts)
      ensures interval == 5
    {
      var base := Announced(model, lastUpdate, nextUpdate);
      d := base;
      for i := 0 to |data|
        invariant d == base + Merged(data[..i], ts)
      {
        assert data[..i + 1][..i] == data[..i];
        if data[i].start < ts <= data[i].end {
          var m := Merged(data[..i], ts);
          assert (base + m) + data[i].values == base + (m + data[i].values);
          d := d + data[i].values;
        }
      }
      assert data[..|data|] == data;
      interval := 5;
    }

    /** The cache update of `getRecord`: nothing changes unless the area
        was found and has intervals (`if data:`). */
    method Update(fetched: Option<Fetched>)
      modifies this
      ensures fetched.None? || fetched.value.spans == [] ==>
        data == old(data) && lastUpdate == old(lastUpdate) && nextUpdate == old(nextUpdate) && areaName == old(areaName)
      ensures fetched.Some? && fetched.value.spans != [] ==>
        data == Cached(old(data), fetched.value.spans) && lastUpdate == fetched.value.lastUpdate &&
        nextUpdate == fetched.value.nextUpdate && areaName == fetched.value.areaName
      ensures model == old(model) && queryInterval == old(queryInterval)
    {
      if fetched.Some? && fetched.value.spans != [] {
        lastUpdate := fetched.value.lastUpdate;
        nextUpdate := fetched.value.nextUpdate;
        areaName := fetched.value.areaName;
        if data != [] {
          data := [data[|data| - 1]] + fetched.value.spans;
        } else {
          data := fetched.value.spans;
        }
      }
    }
  }

  /** Every record of `get_data` holds both issue times; where no covering
      interval overrides them they are the thread's, None for 0. */
  lemma GetDataAnnounces(model: string, lastUpdate: Option<int>, nextUpdate: Option<int>, spans: seq<Span>, ts: int)
    ensures var d := Announced(model, lastUpdate, nextUpdate) + Merged(spans, ts);
      model + "LastUpdate" in d && model + "NextUpdate" in d &&
      (model + "LastUpdate" !in Merged(spans, ts) ==> d[model + "LastUpdate"] == UpdateEntry(lastUpdate)) &&
      (model + "NextUpdate" !in Merged(spans, ts) ==> d[model + "NextUpdate"] == UpdateEntry(nextUpdate))
  {
    assert model + "LastUpdate" != model + "NextUpdate" by {
      assert (model + "LastUpdate")[|model|] != (model + "NextUpdate")[|model|];
    }
  }

  // ---------------------------------------------------------- pollen region

  /** The pollen area `int(area)` as (region, part region): an area that is
      not a multiple of 10 is the part region of the region below it; a
      multiple of 10 is a whole region (-1). */
  function AreaSplit(area: string): (r: Result<(int, int)>)
    ensures r.Ok? <==> ParseInt(area).Ok?
    ensures r.Err? ==> r.error == ValueError
    ensures r.Ok? ==> var n, (a1, a2) := ParseInt(area).value, r.value;
      a1 % 10 == 0 && a1 <= n < a1 + 10 &&
      (n % 10 == 0 ==> a1 == n && a2 == -1) && (n % 10 != 0 ==> a2 == n)
  {
    match ParseInt(area)
    case Err(e) => Err(e)
    case Ok(area1) =>
      if area1 % 10 != 0 then Ok((area1 - area1 % 10, area1)) else Ok((area1, -1))
  }

  /** The loop over the zones of the reply: the first zone whose
      (region_id, partregion_id) is the configured pair. */
  method FindZone(zones: seq<(int, int)>, key: (int, int)) returns (r: Option<nat>)
    ensures r.Some? ==> r.value < |zones| && zones[r.value] == key && forall j :: 0 <= j < r.value ==> zones[j] != key
    ensures r.None? ==> forall j :: 0 <= j < |zones| ==> zones[j] != key
  {
    var i := 0;
    while i < |zones|
      invariant i <= |zones|
      invariant forall j :: 0 <= j < i ==> zones[j] != key
    {
      if zones[i] == key {
        return Some(i);
      }
      i := i + 1;
    }
    return None;
  }

  // ----------------------------------------------------------- pollen value

  /** A pollen level as sent: an all-digit text is its number; otherwise the
      part before the first '-' plus 0.5 ('2-3' is 2.5); a part that is not a
      number gives None. */
  function PollenValue(val: string): (r: Option<real>)
    ensures r.Some? ==> r.value >= 0.0
  {
    if IsDigits(val) then
      Some(DigitsValue(val) as real)
    else
      HalfAbove(Split(val, '-')[0])
  }

  /** The range branch: `float(head) + 0.5`, None where `float` fails. */
  function HalfAbove(head: string): (r: Option<real>)
    requires '-' !in head
    ensures r.Some? ==> r.value >= 0.5
  {
    ParseFloatNonNegative(head);
    match ParseFloat(head)
    case Ok(x) => Some(x + 0.5)
    case Err(_) => None
  }

  /** An all-digit level 'n' is read as n. */
  lemma PollenValueDigits(a: string)
    requires IsDigits(a)
    ensures PollenValue(a) == Some(DigitsValue(a) as real)
  {
  }

  /** A range 'a-b' is read as `float(a) + 0.5`, whatever b is. */
  lemma PollenValueRange(a: string, b: string, x: real)
    requires '-' !in a && ParseFloat(a) == Ok(x)
    ensures PollenValue(a + "-" + b) == Some(x + 0.5)
  {
    var s := a + "-" + b;
    assert s[|a|] == '-';
    assert !IsDigits(s);
    assert s == a + ("-" + b);
    SplitPrefix(a, "-" + b, '-');
    assert Split("-" + b, '-')[0] == "";
    assert a + "" == a;
    PollenValueOfHead(s, a);
    HalfAboveOk(a, x);
  }

  /** A text that is not all digits is read through the part before its
      first '-'. */
  lemma PollenValueOfHead(val: string, head: string)
    requires !IsDigits(val) && Split(val, '-')[0] == head
    ensures '-' !in head && PollenValue(val) == HalfAbove(head)
  {
  }

  lemma HalfAboveOk(head: string, x: real)
    requires '-' !in head && ParseFloat(head) == Ok(x)
    ensures HalfAbove(head) == Some(x + 0.5)
  {
  }

  /** A level starting with '-', or an empty one, is None: the part
      before the '-' is empty and `float('')` fails. */
  lemma PollenValueNone(b: string)
    ensures PollenValue("-" + b) == None && PollenValue("") == None
  {
    assert ("-" + b)[0] == '-';
    assert !IsDigits("-" + b);
    assert Split("-" + b, '-')[0] == "";
    assert ParseFloat("") == Err(ValueError) by {
      assert Strip("") == "";
      assert Split("", '.') == [""];
    }
    assert HalfAbove("") == None;
  }

  // ----------------------------------------------------------- legend

  predicate StartsWith(s: string, p: string) {
    |p| <= |s| && s[..|p|] == p
  }

  /** A legend key naming a level ('id1'), not describing one ('id1_desc'). */
  predicate IsName(key: string) {
    StartsWith(key, "id") && !EndsWith(key, "desc")
  }

  predicate IsDesc(key: string) {
    StartsWith(key, "id") && EndsWith(key, "desc")
  }

  /** The id of a legend key: `key.split('_')[0]`. */
  function LegendId(key: string): string {
    Split(key, '_')[0]
  }

  /** The position of key `k` among the items, `|d|` when it is absent. */
  function KeyIndex(d: seq<(string, string)>, k: string): (i: nat)
    ensures i <= |d| && (i < |d| ==> d[i].0 == k)
    ensures forall j :: 0 <= j < i ==> d[j].0 != k
  {
    if d == [] then 0
    else if d[0].0 == k then 0
    else 1 + KeyIndex(d[1..], k)
  }

  /** Python's `d[k] = v` on a dict kept as its items in insertion order:
      an existing key keeps its place and takes the new value, a new key
      goes to the end. */
  function Assign(d: seq<(string, string)>, k: string, v: string): (r: seq<(string, string)>)
    ensures KeyIndex(d, k) == |d| ==> r == d + [(k, v)]
    ensures KeyIndex(d, k) < |d| ==> |r| == |d| && r[KeyIndex(d, k)] == (k, v)
    ensures forall i :: 0 <= i < |d| ==> r[i].0 == d[i].0
    ensures forall i :: 0 <= i < |d| && d[i].0 != k ==> r[i] == d[i]
  {
    var i := KeyIndex(d, k);
    if i < |d| then d[i := (k, v)] else d + [(k, v)]
  }

  /** `a` of `process_pollen`: the level names by id, in the order the ids
      first appear, each with the last name given. */
  function Names(legend: seq<(string, string)>): seq<(string, string)> {
    if legend == [] then []
    else
      var a := Names(legend[..|legend| - 1]);
      var e := legend[|legend| - 1];
      if IsName(e.0) then Assign(a, LegendId(e.0), e.1) else a
  }

  /** `b` of `process_pollen`: the descriptions by id. */
  function Descs(legend: seq<(string, string)>): map<string, string> {
    if legend == [] then map[]
    else
      var b := Descs(legend[..|legend| - 1]);
      var e := legend[|legend| - 1];
      if IsDesc(e.0) then b[LegendId(e.0) := e.1] else b
  }

  /** `b.get(no)`. */
  function Get(b: map<string, string>, no: string): Option<string> {
    if no in b then Some(b[no]) else None
  }

  /** `legend_dict`: every level name to the description with its id, the
      later of two equal names winning. */
  function Pairing(a: seq<(string, string)>, b: map<string, string>): map<string, Option<string>> {
    if a == [] then map[]
    else Pairing(a[..|a| - 1], b)[a[|a| - 1].1 := Get(b, a[|a| - 1].0)]
  }

  /** The three loops of `process_pollen` over the legend. */
  method PairLegend(legend: seq<(string, string)>) returns (d: map<string, Option<string>>)
    ensures d == Pairing(Names(legend), Descs(legend))
  {
    var a: seq<(string, string)> := [];
    var b: map<string, string> := map[];
    for i := 0 to |legend|
      invariant a == Names(legend[..i]) && b == Descs(legend[..i])
    {
      assert legend[..i + 1][..i] == legend[..i];
      var (k, v) := legend[i];
      if StartsWith(k, "id") {
        var no := Split(k, '_')[0];
        if EndsWith(k, "desc") {
          b := b[no := v];
        } else {
          a := Assign(a, no, v);
        }
      }
    }
    assert legend[..|legend|] == legend;
    d := map[];
    for i := 0 to |a|
      invariant d == Pairing(a[..i], b)
    {
      assert a[..i + 1][..i] == a[..i];
      d := d[a[i].1 := Get(b, a[i].0)];
    }
    assert a[..|a|] == a;
  }

  /** Every id of a level name appears once in `a`. */
  lemma {:induction false} NamesDistinct(legend: seq<(string, string)>)
    ensures forall i, j :: 0 <= i < j < |Names(legend)| ==> Names(legend)[i].0 != Names(legend)[j].0
  {
    if legend != [] {
      var front := legend[..|legend| - 1];
      NamesDistinct(front);
      var a0, a := Names(front), Names(legend);
      forall i, j | 0 <= i < j < |a|
        ensures a[i].0 != a[j].0
      {
        if j < |a0| {
          assert a[i].0 == a0[i].0 && a[j].0 == a0[j].0;
        }
      }
    }
  }

  /** Some name key of the legend has the id. */
  predicate NamedIn(legend: seq<(string, string)>, id: string) {
    exists j :: 0 <= j < |legend| && IsName(legend[j].0) && LegendId(legend[j].0) == id
  }

  /** Every id in `a` is that of a name key of the legend. */
  lemma {:induction false} NamesFromLegend(legend: seq<(string, string)>)
    ensures forall i :: 0 <= i < |Names(legend)| ==> NamedIn(legend, Names(legend)[i].0)
  {
    if legend != [] {
      var last := |legend| - 1;
      var front := legend[..last];
      NamesFromLegend(front);
      var a0, a := Names(front), Names(legend);
      var e := legend[last];
      forall i | 0 <= i < |a|
        ensures NamedIn(legend, a[i].0)
      {
        if i < |a0| {
          assert a[i].0 == a0[i].0;
          assert NamedIn(front, a0[i].0);
          var j :| 0 <= j < |front| && IsName(front[j].0) && LegendId(front[j].0) == a0[i].0;
          assert legend[j] == front[j];
        } else {
          assert IsName(e.0) && a[i].0 == LegendId(e.0);
          assert IsName(legend[last].0) && LegendId(legend[last].0) == a[i].0;
        }
      }
    }
  }

  /** The id of every name key of the legend is in `a`. */
  lemma {:induction false} LegendInNames(legend: seq<(string, string)>)
    ensures forall j :: 0 <= j < |legend| && IsName(legend[j].0) ==> KeyIndex(Names(legend), LegendId(legend[j].0)) < |Names(legend)|
  {
    if legend != [] {
      var front := legend[..|legend| - 1];
      LegendInNames(front);
      var a0, a := Names(front), Names(legend);
      var last := |legend| - 1;
      forall j | 0 <= j < |legend| && IsName(legend[j].0)
        ensures KeyIndex(a, LegendId(legend[j].0)) < |a|
      {
        var id := LegendId(legend[j].0);
        if j < last {
          assert legend[j] == front[j];
          var m := KeyIndex(a0, id);
          assert a[m].0 == a0[m].0;
        } else if KeyIndex(a0, id) == |a0| {
          assert a[|a0|].0 == id;
        } else {
          var m := KeyIndex(a0, id);
          assert a[m].0 == a0[m].0;
        }
      }
    }
  }

  /** The pairing has exactly the level names as keys. */
  lemma {:induction false} PairingKeys(a: seq<(string, string)>, b: map<string, string>)
    ensures forall n :: n in Pairing(a, b) <==> exists i :: 0 <= i < |a| && a[i].1 == n
  {
    if a != [] {
      var front := a[..|a| - 1];
      PairingKeys(front, b);
      assert forall i :: 0 <= i < |front| ==> front[i] == a[i];
    }
  }

  /** A level name given once is paired with the description of its id, or None. */
  lemma {:induction false} PairingOf(a: seq<(string, string)>, b: map<string, string>, i: nat)
    requires i < |a| && forall j :: i < j < |a| ==> a[j].1 != a[i].1
    ensures a[i].1 in Pairing(a, b) && Pairing(a, b)[a[i].1] == Get(b, a[i].0)
  {
    var front := a[..|a| - 1];
    if i < |a| - 1 {
      assert front[i] == a[i];
      assert forall j :: i < j < |front| ==> front[j] == a[j];
      PairingOf(front, b, i);
    }
  }

  // ------------------------------------------------------------ colour

  /** `POLLEN_COLORS`, one colour per half level from 0 to 3. */
  const PollenColors: seq<string> := ["#3ea72d", "#dafac7", "#fee391", "#fec44e", "#fe9929", "#f03b20", "#bd0026"]

  /** The level clamped to [0, 3]. */
  function Clamp(x: real): (r: real)
    ensures 0.0 <= r <= 3.0
    ensures 0.0 <= x <= 3.0 ==> r == x
    ensures x > 3.0 ==> r == 3.0
    ensures x < 0.0 ==> r == 0.0
  {
    var c := if x > 3.0 then 3.0 else x;
    if c < 0.0 then 0.0 else c
  }

  /** `int(round(col*2.0, 0))`: the index of the cell's colour. */
  function ColorIndex(x: real): (i: int)
    ensures 0 <= i < |PollenColors|
    ensures (i as real) - 0.5 <= 2.0 * Clamp(x) <= (i as real) + 0.5
  {
    var c := Clamp(x);
    RoundHalfEvenMonotone(0.0, 2.0 * c);
    RoundHalfEvenMonotone(2.0 * c, 6.0);
    RoundHalfEvenUnique(0.0, 0);
    RoundHalfEvenUnique(6.0, 6);
    RoundHalfEven(2.0 * c)
  }

  /** White text on the darkest and the lightest cells. */
  predicate WhiteText(x: real) {
    Clamp(x) < 0.25 || Clamp(x) > 1.75
  }

  /** White text goes with the first colour or the four darkest ones, black
      text with the three middle ones. */
  lemma WhiteTextColors(x: real)
    ensures WhiteText(x) ==> ColorIndex(x) == 0 || ColorIndex(x) >= 4
    ensures 1 <= ColorIndex(x) <= 3 ==> !WhiteText(x)
  {
  }

  /** A higher level never gets an earlier colour, and every half level
      from 0 to 3 gets its own colour. */
  lemma ColorIndexOrder(x: real, y: real, k: nat)
    requires x <= y && k <= 6
    ensures ColorIndex(x) <= ColorIndex(y)
    ensures ColorIndex(k as real / 2.0) == k
  {
    RoundHalfEvenMonotone(2.0 * Clamp(x), 2.0 * Clamp(y));
    RoundHalfEvenUnique(k as real, k);
    assert 2.0 * Clamp(k as real / 2.0) == k as real;
  }

  // ------------------------------------------------------------ waiting_time

  /** `BaseThread.waiting_time`: until the end of the current query interval. */
  function BaseWaiting(now: int, qi: int): (r: int)
    requires qi > 0
    ensures 0 < r <= qi && (now + r) % qi == 0
  {
    var d := now / qi;
    assert now + (qi - now % qi) == qi * (d + 1);
    MultipleMod(qi, d + 1);
    qi - now % qi
  }

  /** A positive factor keeps a product at least as far from 0 as the other factor's sign. */
  lemma MulSign(q: int, x: int)
    requires q > 0
    ensures x >= 1 ==> q * x >= q
    ensures x <= -1 ==> q * x <= -q
  {
  }

  /** A multiple of `q` leaves no remainder. */
  lemma MultipleMod(q: int, m: int)
    requires q > 0
    ensures (q * m) % q == 0
  {
    var a := q * m;
    var d, r := a / q, a % q;
    assert a == q * d + r && 0 <= r < q;
    assert q * (m - d) == r;
    MulSign(q, m - d);
  }

  /** The target rounded up to a multiple of the query interval. */
  function AlignUp(t: int, qi: int): (r: int)
    requires qi > 0
    ensures r % qi == 0 && t <= r < t + qi
  {
    var d := t / qi;
    assert t == qi * d + t % qi;
    MultipleMod(qi, d);
    MultipleMod(qi, d + 1);
    assert t + (qi - t % qi) == qi * (d + 1);
    if t % qi != 0 then t + (qi - t % qi) else t
  }

  function Min(a: int, b: int): int {
    if a <= b then a else b
  }

  /** `waiting_time` of the health thread: after the announced next issue,
      to the end of the query interval; before it, to the earliest of the
      next issue, the end of the day plus one interval and, for the
      bio-weather forecast before noon, noon, rounded up to the query
      interval. `dayEnd` is `archiveDaySpan(now)[1]`. A next issue time of
      None cannot be compared (TypeError). */
  function WaitingTime(now: int, nextUpdate: Option<int>, qi: int, model: string, dayEnd: int): (r: Result<int>)
    requires qi > 0
    ensures r.Err? <==> nextUpdate.None?
    ensures r.Ok? ==> (now + r.value) % qi == 0
    ensures r.Ok? && now >= nextUpdate.value ==> 0 < r.value <= qi
  {
    match nextUpdate
    case None => Err(TypeError)
    case Some(next) =>
      if now >= next then Ok(BaseWaiting(now, qi))
      else
        var eod := dayEnd + qi;
        var mid := eod - 43200;
        var mid := if mid < now || model != "biowetter" then eod else mid;
        Ok(AlignUp(Min(next, Min(eod, mid)), qi) - now)
  }

  /** Before the next issue the thread wakes at the first interval border at
      or after the earliest of the next issue and the end of the day plus
      one interval (and noon for the bio-weather forecast before noon),
      never in the past. */
  lemma WaitingTimeBefore(now: int, next: int, qi: int, model: string, dayEnd: int)
    requires qi > 0 && now < next && now <= dayEnd
    ensures var w := now + WaitingTime(now, Some(next), qi, model, dayEnd).value;
      var t := Min(next, dayEnd + qi);
      w >= now && w % qi == 0 &&
      (model != "biowetter" || dayEnd + qi - 43200 < now ==> t <= w < t + qi) &&
      (model == "biowetter" && now <= dayEnd + qi - 43200 ==> Min(t, dayEnd + qi - 43200) <= w < Min(t, dayEnd + qi - 43200) + qi)
  {
  }

  // ------------------------------------------------------------ symbol

  /** An SVG symbol: width per height, view box and drawing (kept opaque). */
  datatype Shape = Shape(ratio: real, viewBox: string, drawing: string)

  /** `VAL_SYMBOLS`. */
  function ValSymbol(val: string): Option<Shape> {
    if val == "geringe Gefährdung" then Some(Shape(1.0, "-25 -25 50 50", "NEG_SYMBOL"))
    else if val == "hohe Gefährdung" then Some(Shape(2.2, "-25 -25 110 50", "NEG_NEG_SYMBOL"))
    else if val == "kein Einfluss" then Some(Shape(1.0, "-25 -25 50 50", "NEUTRAL_SYMBOL"))
    else if val == "positiver Einfluss" then Some(Shape(1.0, "-25 -25 50 50", "POS_SYMBOL"))
    else None
  }

  /** What `symbol` writes: the text itself, or an SVG of the given
      height titled with the text. */
  datatype Html = Plain(text: string) | Svg(width: real, height: int, viewBox: string, title: string, drawing: string)

  /** `symbol(val, height)`. */
  function Symbol(val: string, height: int): (h: Html)
    ensures h.Plain? <==> ValSymbol(val).None?
    ensures h.Plain? ==> h.text == val
    ensures h.Svg? ==> h.title == val && h.height == height && h.width == height as real * ValSymbol(val).value.ratio
  {
    match ValSymbol(val)
    case None => Plain(val)
    case Some(sym) => Svg(height as real * sym.ratio, height, sym.viewBox, val, sym.drawing)
  }

  /** The four effects have symbols, the legend's heading has none, and
      only a high risk gets the double-width symbol. */
  lemma SymbolLegend()
    ensures Symbol("Legende:", 20) == Plain("Legende:")
    ensures Symbol("hohe Gefährdung", 20).Svg? && Symbol("hohe Gefährdung", 20).width == 44.0
    ensures forall v :: v in ["geringe Gefährdung", "kein Einfluss", "positiver Einfluss"] ==> Symbol(v, 20).Svg? && Symbol(v, 20).width == 20.0
  {
    assert "Legende:" != "geringe Gefährdung" && "Legende:" != "hohe Gefährdung";
    assert "Legende:" != "kein Einfluss" && "Legende:" != "positiver Einfluss";
    assert "kein Einfluss" != "geringe Gefährdung" && "kein Einfluss" != "hohe Gefährdung";
    assert "positiver Einfluss" != "geringe Gefährdung" && "positiver Einfluss" != "hohe Gefährdung";
    assert "positiver Einfluss" != "kein Einfluss";
    assert "hohe Gefährdung" != "geringe Gefährdung";
  }
}
