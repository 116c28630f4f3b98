/** The merge of the ten-minute CDC files of one station in
    `DWDCDCthread.getRecord`: every file holds records of some kinds of
    observations, the first one fixes the time line and the later ones are
    merged into it by timestamp. */
module Cdc {
  import opened Builtins
  import opened Services

  /** One record of a CDC file: its timestamp and its other observations. */
  datatype Row = Row(ts: int, obs: map<string, ValueTuple>)

  /** `ti` maps every timestamp of `x` to a position in `x` that holds it. */
  predicate Indexed(x: seq<Row>, ti: map<int, nat>) {
    (forall t :: t in ti ==> ti[t] < |x|) &&
    (forall t :: t in ti ==> x[ti[t]].ts == t) &&
    (forall i :: 0 <= i < |x| ==> x[i].ts in ti)
  }

  /** The index of the first table: `{vv['dateTime']: ii for ii, vv in
      enumerate(tab)}`, the later of two equal timestamps winning. */
  function IndexOf(tab: seq<Row>): (ti: map<int, nat>)
    ensures Indexed(tab, ti)
    ensures LaterDiffer(tab, ti)
  {
    if tab == [] then map[]
    else
      var ti := IndexOf(tab[..|tab| - 1]);
      IndexOfStep(tab, ti);
      ti[tab[|tab| - 1].ts := |tab| - 1]
  }

  /** No row after the indexed one has the same timestamp. */
  predicate LaterDiffer(tab: seq<Row>, ti: map<int, nat>) {
    forall t :: t in ti ==> forall j :: ti[t] < j < |tab| ==> tab[j].ts != t
  }

  /** Indexing the last row of `tab` after the others. */
  lemma IndexOfStep(tab: seq<Row>, ti: map<int, nat>)
    requires tab != [] && Indexed(tab[..|tab| - 1], ti) && LaterDiffer(tab[..|tab| - 1], ti)
    ensures var ti' := ti[tab[|tab| - 1].ts := |tab| - 1];
      Indexed(tab, ti') && LaterDiffer(tab, ti')
  {
    var n := |tab| - 1;
    var front := tab[..n];
    var t0 := tab[n].ts;
    var ti' := ti[t0 := n];
    forall t | t in ti'
      ensures ti'[t] < |tab| && tab[ti'[t]].ts == t
    {
      if t != t0 {
        assert tab[ti[t]] == front[ti[t]];
      }
    }
    forall i | 0 <= i < |tab|
      ensures tab[i].ts in ti'
    {
      if i < n {
        assert front[i] == tab[i];
      }
    }
    forall t, j | t in ti' && ti'[t] < j < |tab|
      ensures tab[j].ts != t
    {
      if t != t0 && j < n {
        assert front[j] == tab[j];
      }
    }
  }

  /** The state of the merge after some of the rows of a later table:
      the records, their index and the timestamps taken from the table. */
  datatype Step = Step(x: seq<Row>, ti: map<int, nat>, tabti: seq<int>)

  function Last(x: seq<Row>): Row
    requires x != []
  {
    x[|x| - 1]
  }

  /** `x1`/`ti1` extend `x0`/`ti0`: records keep their positions and
      timestamps, indexed timestamps keep their positions, and records
      added at the end are in strictly increasing time order. */
  predicate Grows(x0: seq<Row>, ti0: map<int, nat>, x1: seq<Row>, ti1: map<int, nat>) {
    |x0| <= |x1| &&
    (forall i :: 0 <= i < |x0| ==> x1[i].ts == x0[i].ts) &&
    (forall t :: t in ti0 ==> t in ti1 && ti1[t] == ti0[t]) &&
    (forall i :: 0 < i && |x0| <= i < |x1| ==> x1[i - 1].ts < x1[i].ts)
  }

  lemma GrowsTrans(x0: seq<Row>, ti0: map<int, nat>, x1: seq<Row>, ti1: map<int, nat>, x2: seq<Row>, ti2: map<int, nat>)
    requires Grows(x0, ti0, x1, ti1) && Grows(x1, ti1, x2, ti2)
    ensures Grows(x0, ti0, x2, ti2)
  {
    forall i | 0 < i && |x0| <= i < |x2|
      ensures x2[i - 1].ts < x2[i].ts
    {
      if i < |x1| {
        assert x1[i - 1].ts < x1[i].ts;
        assert x2[i - 1].ts == x1[i - 1].ts && x2[i].ts == x1[i].ts;
      }
    }
  }

  /** One row of a later table: a row whose timestamp is indexed is merged
      into that record, its values winning; a row later than the last record
      is appended and indexed; any other row is only reported. */
  function MergeRow(s: Step, row: Row): (r: Step)
    requires s.x != [] && Indexed(s.x, s.ti)
    ensures r.x != [] && Indexed(r.x, r.ti)
    ensures Grows(s.x, s.ti, r.x, r.ti)
  {
    if row.ts in s.ti then
      var i := s.ti[row.ts];
      Step(s.x[i := Row(row.ts, s.x[i].obs + row.obs)], s.ti, s.tabti + [row.ts])
    else if row.ts > Last(s.x).ts then
      var r := Step(s.x + [row], s.ti[row.ts := |s.x|], s.tabti + [row.ts]);
      assert forall j :: 0 <= j < |s.x| ==> r.x[j] == s.x[j];
      assert Indexed(r.x, r.ti) by {
        forall t | t in r.ti ensures r.ti[t] < |r.x| && r.x[r.ti[t]].ts == t {
          if t != row.ts {
            assert t in s.ti;
          }
        }
      }
      r
    else
      s
  }

  /** A row is taken (indexed, its timestamp added to tabti) iff its
      timestamp was indexed or is later than the last record; a taken row's
      values are in its record; no other record changes and no other
      timestamp is indexed. */
  lemma MergeRowFacts(s: Step, row: Row)
    requires s.x != [] && Indexed(s.x, s.ti)
    ensures var r := MergeRow(s, row);
      (forall t :: t in r.ti ==> t in s.ti || t == row.ts) &&
      (row.ts in r.ti <==> row.ts in s.ti || row.ts > Last(s.x).ts) &&
      r.tabti == (if row.ts in r.ti then s.tabti + [row.ts] else s.tabti) &&
      (row.ts in r.ti ==> forall k :: k in row.obs ==> k in r.x[r.ti[row.ts]].obs && r.x[r.ti[row.ts]].obs[k] == row.obs[k]) &&
      (forall t :: t in s.ti && t != row.ts ==> r.x[r.ti[t]] == s.x[s.ti[t]])
  {
    if row.ts in s.ti {
      var i := s.ti[row.ts];
      assert forall t :: t in s.ti && t != row.ts ==> s.ti[t] != i;
    }
  }

  /** The loop over a later table, row by row. */
  function MergeRows(x: seq<Row>, ti: map<int, nat>, tab: seq<Row>): (r: Step)
    requires x != [] && Indexed(x, ti)
    ensures r.x != [] && Indexed(r.x, r.ti)
    ensures Grows(x, ti, r.x, r.ti)
  {
    if tab == [] then Step(x, ti, [])
    else
      var s := MergeRows(x, ti, tab[..|tab| - 1]);
      var r := MergeRow(s, tab[|tab| - 1]);
      GrowsTrans(x, ti, s.x, s.ti, r.x, r.ti);
      r
  }

  /** The timestamps the table takes are those of its rows that end up
      indexed, and the index holds no timestamp from anywhere else. */
  predicate Taken(ti: map<int, nat>, tab: seq<Row>, r: Step) {
    (forall t :: t in r.ti ==> t in ti || t in r.tabti) &&
    (forall t :: t in r.tabti ==> t in r.ti && exists j :: 0 <= j < |tab| && tab[j].ts == t)
  }

  lemma {:induction false} MergeRowsTaken(x: seq<Row>, ti: map<int, nat>, tab: seq<Row>)
    requires x != [] && Indexed(x, ti)
    ensures Taken(ti, tab, MergeRows(x, ti, tab))
  {
    if tab != [] {
      var front := tab[..|tab| - 1];
      MergeRowsTaken(x, ti, front);
      var s := MergeRows(x, ti, front);
      assert MergeRows(x, ti, tab) == MergeRow(s, tab[|tab| - 1]);
      TakenStep(ti, tab, s);
    }
  }

  /** One row more keeps `Taken`. */
  lemma TakenStep(ti: map<int, nat>, tab: seq<Row>, s: Step)
    requires tab != [] && s.x != [] && Indexed(s.x, s.ti)
    requires Taken(ti, tab[..|tab| - 1], s)
    ensures Taken(ti, tab, MergeRow(s, tab[|tab| - 1]))
  {
    var front := tab[..|tab| - 1];
    var r := MergeRow(s, tab[|tab| - 1]);
    MergeRowFacts(s, tab[|tab| - 1]);
    forall t | t in r.tabti
      ensures t in r.ti && exists j :: 0 <= j < |tab| && tab[j].ts == t
    {
      if t in s.tabti {
        var j :| 0 <= j < |front| && front[j].ts == t;
        assert tab[j] == front[j];
      } else {
        assert tab[|tab| - 1].ts == t;
      }
    }
  }

  /** A record takes the values of the last row of the table that has its
      timestamp, for every kind that row holds. */
  lemma {:induction false} MergeRowsLaterWins(x: seq<Row>, ti: map<int, nat>, tab: seq<Row>, j: nat, key: string)
    requires x != [] && Indexed(x, ti)
    requires j < |tab| && key in tab[j].obs && tab[j].ts in MergeRows(x, ti, tab).ti
    requires Unrepeated(tab, j)
    ensures Holds(MergeRows(x, ti, tab), tab[j].ts, key, tab[j].obs[key])
  {
    var front := tab[..|tab| - 1];
    var s := MergeRows(x, ti, front);
    var row := tab[|tab| - 1];
    assert MergeRows(x, ti, tab) == MergeRow(s, row);
    if j < |tab| - 1 {
      assert front[j] == tab[j];
      MergeRowKeeps(s, row, tab[j].ts);
      UnrepeatedFront(tab, j);
      MergeRowsLaterWins(x, ti, front, j, key);
    } else {
      MergeRowWins(s, row, key);
    }
  }

  /** No row after the `j`-th has its timestamp. */
  predicate Unrepeated(tab: seq<Row>, j: nat)
    requires j < |tab|
  {
    forall k :: j < k < |tab| ==> tab[k].ts != tab[j].ts
  }

  lemma UnrepeatedFront(tab: seq<Row>, j: nat)
    requires j < |tab| - 1 && Unrepeated(tab, j)
    ensures Unrepeated(tab[..|tab| - 1], j)
  {
    var front := tab[..|tab| - 1];
    forall k | j < k < |front|
      ensures front[k].ts != front[j].ts
    {
      assert front[k] == tab[k] && front[j] == tab[j];
    }
  }

  /** The record indexed under `t` holds the value `v` of `key`. */
  predicate Holds(s: Step, t: int, key: string, v: ValueTuple) {
    t in s.ti && s.ti[t] < |s.x| && key in s.x[s.ti[t]].obs && s.x[s.ti[t]].obs[key] == v
  }

  /** The record of a taken row holds the row's value of `key`. */
  lemma MergeRowWins(s: Step, row: Row, key: string)
    requires s.x != [] && Indexed(s.x, s.ti)
    requires key in row.obs && row.ts in MergeRow(s, row).ti
    ensures Holds(MergeRow(s, row), row.ts, key, row.obs[key])
  {
    MergeRowFacts(s, row);
  }

  /** The record of any other indexed timestamp is left as it was. */
  lemma MergeRowKeeps(s: Step, row: Row, t: int)
    requires s.x != [] && Indexed(s.x, s.ti)
    requires t in MergeRow(s, row).ti && t != row.ts
    ensures var r := MergeRow(s, row);
      t in s.ti && r.x[r.ti[t]] == s.x[s.ti[t]]
  {
    MergeRowFacts(s, row);
  }

  /** `maxtime` after a later table: replaced by the table's last taken
      timestamp when the table ends before or starts after it. */
  function NextMaxtime(maxtime: int, tabti: seq<int>): (m: int)
    ensures m != maxtime ==> tabti != [] && m == tabti[|tabti| - 1]
    ensures m != maxtime ==> tabti[|tabti| - 1] < maxtime || maxtime < tabti[0]
    ensures tabti != [] && tabti[0] <= maxtime <= tabti[|tabti| - 1] ==> m == maxtime
  {
    if tabti == [] then maxtime
    else if tabti[|tabti| - 1] < maxtime || tabti[0] > maxtime then tabti[|tabti| - 1]
    else maxtime
  }

  /** The local state of `getRecord`: `x`, `ti` and `maxtime`. */
  datatype Merge = Merge(x: Option<seq<Row>>, ti: map<int, nat>, maxtime: Option<int>)

  /** What the loop keeps: an index of the records and, once there are
      records, a maxtime that is indexed. */
  predicate Good(m: Merge) {
    (m.x.Some? ==> Indexed(m.x.value, m.ti)) &&
    (m.x.None? || m.x.value == [] ==> m.ti == map[] && m.maxtime.None?) &&
    (m.x.Some? && m.x.value != [] ==> m.maxtime.Some? && m.maxtime.value in m.ti)
  }

  /** A later table keeps the loop's invariant. */
  lemma MergeLaterGood(x: seq<Row>, ti: map<int, nat>, maxtime: int, tab: seq<Row>)
    requires x != [] && Indexed(x, ti) && maxtime in ti
    ensures var s := MergeRows(x, ti, tab);
      Good(Merge(Some(s.x), s.ti, Some(NextMaxtime(maxtime, s.tabti)))) && ti.Keys <= s.ti.Keys
  {
    var s := MergeRows(x, ti, tab);
    MergeRowsTaken(x, ti, tab);
    assert Grows(x, ti, s.x, s.ti);
    var m := NextMaxtime(maxtime, s.tabti);
    if m != maxtime {
      assert m in s.tabti;
    }
    assert m in s.ti;
  }

  /** One file of `getRecord`: None stands for a file that could not be
      fetched, unpacked or read, which is skipped. While there are no
      records, the file's table becomes the records; an empty table leaves
      none and `tab[-1]` raises before maxtime is set. */
  function MergeFile(m: Merge, file: Option<seq<Row>>): (r: Merge)
    requires Good(m)
    ensures Good(r)
    ensures m.x.Some? && m.x.value != [] ==> r.x.Some? && |m.x.value| <= |r.x.value| && m.ti.Keys <= r.ti.Keys
  {
    match file
    case None => m
    case Some(tab) =>
      if m.x.Some? && m.x.value != [] then
        var s := MergeRows(m.x.value, m.ti, tab);
        MergeLaterGood(m.x.value, m.ti, m.maxtime.value, tab);
        Merge(Some(s.x), s.ti, Some(NextMaxtime(m.maxtime.value, s.tabti)))
      else if tab == [] then
        Merge(Some([]), map[], m.maxtime)
      else
        Merge(Some(tab), IndexOf(tab), Some(tab[|tab| - 1].ts))
  }

  /** All files, in the order of the configured URLs. */
  function MergeAll(files: seq<Option<seq<Row>>>): (r: Merge)
    ensures Good(r)
    ensures r.x.None? <==> forall k :: 0 <= k < |files| ==> files[k].None?
  {
    if files == [] then Merge(None, map[], None)
    else
      var r := MergeFile(MergeAll(files[..|files| - 1]), files[|files| - 1]);
      assert forall k :: 0 <= k < |files| - 1 ==> files[..|files| - 1][k] == files[k];
      r
  }

  lemma MergeAllNext(files: seq<Option<seq<Row>>>, f: nat)
    requires f < |files|
    ensures MergeAll(files[..f + 1]) == MergeFile(MergeAll(files[..f]), files[f])
  {
    assert files[..f + 1][..f] == files[..f];
  }

  /** The first record whose timestamp is maxtime: once a file was
      merged, maxtime is the first file's last timestamp (or one taken from a
      later file), and it indexes a record. */
  lemma {:induction false} MaxtimeIndexed(files: seq<Option<seq<Row>>>)
    requires MergeAll(files).x.Some? && MergeAll(files).x.value != []
    ensures var r := MergeAll(files);
      r.maxtime.Some? && r.maxtime.value in r.ti && r.ti[r.maxtime.value] < |r.x.value| &&
      r.x.value[r.ti[r.maxtime.value]].ts == r.maxtime.value
  {
    var r := MergeAll(files);
    assert Good(r);
    assert r.maxtime.Some?;
    assert r.maxtime.value in r.ti;
    assert Indexed(r.x.value, r.ti);
    assert forall t :: t in r.ti ==> r.ti[t] < |r.x.value|;
    var t := r.maxtime.value;
    assert r.ti[t] < |r.x.value|;
  }

  const IntervalEntry := ValueTuple(Number(Int(10)), Some("minute"), Some("group_interval"))

  /** The fields every record gets after the merge: interval, and the
      station's position where it is known (an altitude of 0 is left out,
      as Python takes it for false). */
  function Decorate(row: Row, lat: Option<real>, lon: Option<real>, alt: Option<real>): (r: Row)
    ensures r.ts == row.ts && r.obs.Keys >= row.obs.Keys
    ensures "interval" in r.obs && r.obs["interval"] == IntervalEntry
    ensures forall k :: k in row.obs && k !in {"interval", "latitude", "longitude", "altitude"} ==> r.obs[k] == row.obs[k]
    ensures "altitude" in r.obs && "altitude" !in row.obs ==> alt.Some? && alt.value != 0.0
  {
    var o := row.obs["interval" := IntervalEntry];
    var o := if lat.Some? then o["latitude" := ValueTuple(Number(Float(lat.value)), Some("degree_compass"), Some("group_coordinate"))] else o;
    var o := if lon.Some? then o["longitude" := ValueTuple(Number(Float(lon.value)), Some("degree_compass"), Some("group_coordinate"))] else o;
    var o := if alt.Some? && alt.value != 0.0 then o["altitude" := ValueTuple(Number(Float(alt.value)), Some("meter"), Some("group_altitude"))] else o;
    Row(row.ts, o)
  }

  /** The records and the position of maxtime `getRecord` stores. */
  function Stored(m: Merge, lat: Option<real>, lon: Option<real>, alt: Option<real>): (r: (Option<seq<Row>>, Option<nat>))
    requires Good(m)
    ensures r.0.Some? <==> m.x.Some?
    ensures r.0.Some? ==> |r.0.value| == |m.x.value| && forall i :: 0 <= i < |m.x.value| ==> r.0.value[i] == Decorate(m.x.value[i], lat, lon, alt)
    ensures r.1.Some? <==> m.x.Some? && m.x.value != []
    ensures r.1.Some? ==> r.1.value < |r.0.value| && r.0.value[r.1.value].ts == m.maxtime.value
  {
    var data := if m.x.Some? then Some(seq(|m.x.value|, i requires 0 <= i < |m.x.value| => Decorate(m.x.value[i], lat, lon, alt))) else None;
    if m.ti != map[] && m.maxtime.Some? then
      var t := m.maxtime.value;
      assert Indexed(m.x.value, m.ti);
      assert m.ti[t] < |m.x.value| && m.x.value[m.ti[t]].ts == t;
      (data, Some(m.ti[t]))
    else
      (data, None)
  }

  /** The CDC thread's buffer. */
  class CdcThread {
    var data: Option<seq<Row>>
    var maxtime: Option<nat>
    /** The station's position from its meta data, None until read. */
    var lat: Option<real>
    var lon: Option<real>
    var alt: Option<real>

    constructor ()
      ensures data == Some([]) && maxtime.None?
      ensures lat.None? && lon.None? && alt.None?
    {
      data := Some([]);
      maxtime := None;
      lat := None;
      lon := None;
      alt := None;
    }

    /** `getRecord`: merges the tables of all files and stores the
        records, each with interval and position, and the position of the
        maxtime record. */
    method GetRecord(files: seq<Option<seq<Row>>>)
      modifies this
      ensures (data, maxtime) == Stored(MergeAll(files), lat, lon, alt)
      ensures lat == old(lat) && lon == old(lon) && alt == old(alt)
      ensures data.Some? && maxtime.Some? ==> maxtime.value < |data.value| && data.value[maxtime.value].ts == MergeAll(files).maxtime.value
    {
      var m := MergeFiles(files);
      ghost var stored := Stored(m, lat, lon, alt);
      if m.x.Some? {
        var rows := DecorateRows(m.x.value, lat, lon, alt);
        assert rows == stored.0.value;
        data := Some(rows);
      } else {
        data := None;
      }
      maxtime := if m.ti != map[] && m.maxtime.Some? then Some(m.ti[m.maxtime.value]) else None;
    }

    /** The loop over the files. */
    static method MergeFiles(files: seq<Option<seq<Row>>>) returns (m: Merge)
      ensures m == MergeAll(files)
    {
      var x: Option<seq<Row>> := None;
      var ti: map<int, nat> := map[];
      var mt: Option<int> := None;
      for f := 0 to |files|
        invariant Merge(x, ti, mt) == MergeAll(files[..f])
      {
        MergeAllNext(files, f);
        if files[f].Some? {
          x, ti, mt := MergeOne(x, ti, mt, files[f].value);
        }
      }
      assert files[..|files|] == files;
      m := Merge(x, ti, mt);
    }

    /** The body of the loop over the files, for a file that was read. */
    static method MergeOne(x0: Option<seq<Row>>, ti0: map<int, nat>, mt0: Option<int>, tab: seq<Row>)
      returns (x: Option<seq<Row>>, ti: map<int, nat>, mt: Option<int>)
      requires Good(Merge(x0, ti0, mt0))
      ensures Merge(x, ti, mt) == MergeFile(Merge(x0, ti0, mt0), Some(tab))
    {
      x, ti, mt := x0, ti0, mt0;
      if x.Some? && x.value != [] {
        var s := MergeTable(x.value, ti, tab);
        x, ti := Some(s.x), s.ti;
        if s.tabti != [] && (s.tabti[|s.tabti| - 1] < mt.value || s.tabti[0] > mt.value) {
          mt := Some(s.tabti[|s.tabti| - 1]);
        }
      } else {
        x, ti := Some(tab), IndexOf(tab);
        if tab != [] {
          mt := Some(tab[|tab| - 1].ts);
        }
      }
    }

    /** The loop over a later table. */
    static method MergeTable(x: seq<Row>, ti: map<int, nat>, tab: seq<Row>) returns (s: Step)
      requires x != [] && Indexed(x, ti)
      ensures s == MergeRows(x, ti, tab)
    {
      s := Step(x, ti, []);
      for j := 0 to |tab|
        invariant s == MergeRows(x, ti, tab[..j])
      {
        assert tab[..j + 1][..j] == tab[..j];
        s := MergeRow(s, tab[j]);
      }
      assert tab[..|tab|] == tab;
    }

    /** The loop adding interval and position to every record. */
    static method DecorateRows(x: seq<Row>, lat: Option<real>, lon: Option<real>, alt: Option<real>) returns (rows: seq<Row>)
      ensures |rows| == |x| && forall i :: 0 <= i < |x| ==> rows[i] == Decorate(x[i], lat, lon, alt)
    {
      rows := x;
      for i := 0 to |rows|
        invariant |rows| == |x|
        invariant forall j :: 0 <= j < i ==> rows[j] == Decorate(x[j], lat, lon, alt)
        invariant forall j :: i <= j < |rows| ==> rows[j] == x[j]
      {
        rows := rows[i := Decorate(rows[i], lat, lon, alt)];
      }
    }

    /** `get_data`: the records, an interval of 10 minutes and the
        position of the maxtime record. */
    method GetData() returns (d: Option<seq<Row>>, interval: int, m: Option<nat>)
      ensures d == data && interval == 10 && m == maxtime
    {
      d, interval, m := data, 10, maxtime;
    }
  }
}
