/** The wildfire danger level thread of `wildfire.py`: the configured fetch
    time, the mapping of a danger level to its instruction text and colour,
    the conversion of a provider reply (Staatsbetrieb Sachsenforst), the
    once-per-day download state of `getRecord`, the buffered record of
    `get_data` and the time the thread sleeps before the next download.
    Clock readings and the day span of weewx are parameters. */
module Wildfire {
  import opened Builtins
  import Health

  /** A JSON value of a reply, and a value of the thread's data dict.
      `Instruction(k)` stands for the HTML instruction text of danger
      level `k` (2 to 5); the text of level 1 is empty. */
  datatype Value = Null | Int(i: int) | Real(r: real) | Bool(b: bool) | Str(s: string) | Instruction(level: nat)

  type Dict = map<string, Value>

  /** A (value, unit, group) tuple of `get_data`. */
  datatype Entry = Entry(value: Value, unit: Option<string>, group: Option<string>)

  function Get(d: Dict, k: string, default: Value): Value {
    if k in d then d[k] else default
  }

  // ---------------------------------------------------------- fetch time

  predicate IsTimeChar(c: char) {
    IsDigit(c) || c == ':'
  }

  /** The characters of `s` that are digits or ':', in order. */
  function KeepTimeChars(s: string): (r: string)
    ensures |r| <= |s|
    ensures forall i :: 0 <= i < |r| ==> IsTimeChar(r[i])
  {
    if s == [] then []
    else
      var c := s[|s| - 1];
      KeepTimeChars(s[..|s| - 1]) + (if IsTimeChar(c) then [c] else [])
  }

  lemma {:induction false} KeepAppend(u: string, v: string)
    ensures KeepTimeChars(u + v) == KeepTimeChars(u) + KeepTimeChars(v)
    decreases |v|
  {
    if v == [] {
      assert u + v == u;
    } else {
      var c := v[|v| - 1];
      assert (u + v)[..|u + v| - 1] == u + v[..|v| - 1];
      KeepAppend(u, v[..|v| - 1]);
    }
  }

  /** Filtering keeps a text made of digits and ':' whole; in particular
      filtering twice changes nothing more. */
  lemma {:induction false} KeepClean(s: string)
    requires forall i :: 0 <= i < |s| ==> IsTimeChar(s[i])
    ensures KeepTimeChars(s) == s
  {
    if s != [] {
      KeepClean(s[..|s| - 1]);
      assert s[..|s| - 1] + [s[|s| - 1]] == s;
    }
  }

  /** The weight of the `k`-th part: 3600, then divided by 60 per part. */
  function Weight(k: nat): (w: real)
    ensures w > 0.0
  {
    if k == 0 then 3600.0 else Weight(k - 1) / 60.0
  }

  /** The share of a part of value `n` in position `k`. */
  function Term(n: int, k: nat): real {
    n as real * Weight(k)
  }

  /** The sum of `int(part) * weight` over the parts; `int` of a part
      that is not a number raises ValueError. */
  function PartsValue(parts: seq<string>): (r: Result<real>)
    ensures r.Err? ==> r.error == ValueError
  {
    if parts == [] then Ok(0.0)
    else
      var front := PartsValue(parts[..|parts| - 1]);
      var n := ParseInt(parts[|parts| - 1]);
      if front.Err? then front
      else if n.Err? then Err(n.error)
      else Ok(front.value + Term(n.value, |parts| - 1))
  }

  /** A part that fails makes the whole sum fail. */
  lemma {:induction false} PartsErrStays(parts: seq<string>, i: nat)
    requires i <= |parts| && PartsValue(parts[..i]).Err?
    ensures PartsValue(parts).Err?
    decreases |parts| - i
  {
    if i < |parts| {
      assert parts[..i + 1][..i] == parts[..i];
      PartsErrStays(parts, i + 1);
    } else {
      assert parts[..i] == parts;
    }
  }

  /** The configured fetch time: seconds after midnight and whether it is
      meant in UTC. The UTC flag is read off the upper-cased, stripped
      text; every character other than digits and ':' is then dropped. */
  function FetchTimeOf(conf: string): (r: Result<(real, bool)>)
    ensures r.Err? ==> r.error == ValueError
  {
    var u := Strip(Upper(conf));
    var v := PartsValue(Split(KeepTimeChars(u), ':'));
    if v.Err? then Err(v.error) else Ok((v.value, EndsWith(u, "UTC")))
  }

  /** One more part: the sum so far plus the part's value times its weight. */
  lemma PartsNext(parts: seq<string>, i: nat)
    requires i < |parts|
    ensures PartsValue(parts[..i + 1]) ==
      var f := PartsValue(parts[..i]);
      var n := ParseInt(parts[i]);
      if f.Err? then f else if n.Err? then Err(n.error) else Ok(f.value + Term(n.value, i))
  {
    var q := parts[..i + 1];
    assert q[..|q| - 1] == parts[..i];
    assert q[|q| - 1] == parts[i];
  }

  /** A part that is a number adds its term. */
  lemma PartsOk(parts: seq<string>, i: nat, acc: real, n: int, t: real)
    requires i < |parts| && PartsValue(parts[..i]) == Ok(acc)
    requires ParseInt(parts[i]) == Ok(n) && t == Term(n, i)
    ensures PartsValue(parts[..i + 1]) == Ok(acc + t)
  {
    PartsNext(parts, i);
  }

  lemma WeightNext(k: nat, w: real)
    requires w == Weight(k)
    ensures Weight(k + 1) == w / 60.0
  {
  }

  lemma TermWeight(n: int, k: nat, w: real)
    requires w == Weight(k)
    ensures Term(n, k) == n as real * w
  {
  }

  /** A part that is not a number is the error of the whole sum. */
  lemma PartsFail(parts: seq<string>, i: nat, acc: real)
    requires i < |parts| && PartsValue(parts[..i]) == Ok(acc) && ParseInt(parts[i]).Err?
    ensures PartsValue(parts) == Err(ParseInt(parts[i]).error)
  {
    PartsNext(parts, i);
    PartsErrStays(parts, i + 1);
  }

  /** The accumulating loop over the parts of the fetch time. */
  method SumParts(parts: seq<string>) returns (r: Result<real>)
    ensures r == PartsValue(parts)
  {
    var acc := 0.0;
    var j := 3600.0;
    for i := 0 to |parts|
      invariant PartsValue(parts[..i]) == Ok(acc)
      invariant j == Weight(i)
    {
      var n := ParseInt(parts[i]);
      if n.Err? {
        PartsFail(parts, i, acc);
        return Err(n.error);
      }
      var t := n.value as real * j;
      TermWeight(n.value, i, j);
      PartsOk(parts, i, acc, n.value, t);
      acc := acc + t;
      WeightNext(i, j);
      j := j / 60.0;
    }
    assert parts[..|parts|] == parts;
    r := Ok(acc);
  }

  /** The fetch time of the thread's constructor. */
  method ParseFetchTime(conf: string) returns (r: Result<(real, bool)>)
    ensures r == FetchTimeOf(conf)
  {
    var u := Strip(Upper(conf));
    var utc := EndsWith(u, "UTC");
    var v := SumParts(Split(KeepTimeChars(u), ':'));
    if v.Err? {
      return Err(v.error);
    }
    r := Ok((v.value, utc));
  }

  /** `int(s)` of a run of digits is its value. */
  lemma ParseDigits(s: string)
    requires IsDigits(s)
    ensures ParseInt(s) == Ok(DigitsValue(s))
  {
    assert !IsSpace(s[0]) && !IsSpace(s[|s| - 1]);
    assert Strip(s) == s;
    assert IsDigit(s[0]);
  }

  /** The seconds after midnight of a clock `a:b`. */
  function Clock(a: int, b: int): real {
    a as real * 3600.0 + b as real * 60.0
  }

  /** Two numbers weigh 3600 and 60. */
  lemma PartsTwo(p: seq<string>, a: int, b: int)
    requires |p| == 2 && ParseInt(p[0]) == Ok(a) && ParseInt(p[1]) == Ok(b)
    ensures PartsValue(p) == Ok(Clock(a, b))
  {
    PartsNext(p, 0);
    PartsNext(p, 1);
    assert p[..0] == [] && p[..2] == p;
    assert Weight(1) == 60.0;
  }

  /** A clock splits into its hours and minutes. */
  lemma ClockSplit(h: string, m: string) returns (sp: seq<string>)
    requires IsDigits(h) && IsDigits(m)
    ensures sp == Split(h + ":" + m, ':') && |sp| == 2 && sp[0] == h && sp[1] == m
  {
    assert ':' !in h by { assert forall i :: 0 <= i < |h| ==> IsDigit(h[i]); }
    assert ':' !in m by { assert forall i :: 0 <= i < |m| ==> IsDigit(m[i]); }
    SplitTwo(h, m, ':');
    assert h + ":" + m == h + [':'] + m;
    sp := Split(h + ":" + m, ':');
  }

  /** An hours:minutes clock of digits gives hours * 3600 + minutes * 60. */
  lemma ClockParts(h: string, m: string)
    requires IsDigits(h) && IsDigits(m)
    ensures PartsValue(Split(h + ":" + m, ':')) == Ok(Clock(DigitsValue(h), DigitsValue(m)))
  {
    var sp := ClockSplit(h, m);
    ParseDigits(h);
    ParseDigits(m);
    PartsTwo(sp, DigitsValue(h), DigitsValue(m));
  }

  /** Upper-casing and stripping leave a clock, with or without " UTC". */
  lemma ClockText(c: string)
    requires |c| > 0 && IsDigit(c[0]) && IsDigit(c[|c| - 1])
    requires forall i :: 0 <= i < |c| ==> IsTimeChar(c[i])
    ensures Strip(Upper(c)) == c
    ensures Strip(Upper(c + " UTC")) == c + " UTC"
  {
    assert Upper(c) == c by {
      assert forall i :: 0 <= i < |c| ==> UpperChar(c[i]) == c[i];
    }
    var t := c + " UTC";
    assert Upper(t) == t by {
      assert forall i :: 0 <= i < |t| ==> UpperChar(t[i]) == t[i] by {
        forall i | 0 <= i < |t|
          ensures UpperChar(t[i]) == t[i]
        {
          if i < |c| {
            assert t[i] == c[i] && IsTimeChar(c[i]);
          } else {
            assert t[i] in " UTC";
          }
        }
      }
    }
    assert t[|t| - 1] == 'C';
    assert !IsSpace(c[0]) && !IsSpace(c[|c| - 1]);
  }

  /** The text " UTC" ends a clock that is followed by it, and its own
      characters are all dropped by the filter. */
  lemma UtcSuffix(c: string)
    ensures EndsWith(c + " UTC", "UTC")
    ensures KeepTimeChars(c + " UTC") == KeepTimeChars(c)
  {
    var t := c + " UTC";
    assert t[|t| - 3..] == "UTC" by {
      assert forall i :: 0 <= i < 3 ==> t[|t| - 3 + i] == "UTC"[i];
    }
    KeepAppend(c, " UTC");
    assert KeepTimeChars(" UTC") == [] by {
      assert " UTC"[..3] == " UT" && " UT"[..2] == " U" && " U"[..1] == " " && " "[..0] == [];
    }
    assert KeepTimeChars(c) + [] == KeepTimeChars(c);
  }

  /** `hh:mm` is made of digits and ':' and starts and ends with a digit. */
  lemma ClockChars(h: string, m: string)
    requires IsDigits(h) && IsDigits(m)
    ensures var c := h + ":" + m;
      IsDigit(c[0]) && IsDigit(c[|c| - 1]) && forall i :: 0 <= i < |c| ==> IsTimeChar(c[i])
  {
    var c := h + ":" + m;
    assert c[0] == h[0] && c[|c| - 1] == m[|m| - 1];
    forall i | 0 <= i < |c|
      ensures IsTimeChar(c[i])
    {
      if i < |h| {
        assert c[i] == h[i];
      } else if i > |h| {
        assert c[i] == m[i - |h| - 1];
      }
    }
  }

  /** A clock `hh:mm` gives its seconds after midnight, in UTC exactly
      when " UTC" follows (so "04:30 UTC" gives 16200 seconds in UTC). */
  lemma FetchTimeClock(h: string, m: string)
    requires IsDigits(h) && IsDigits(m)
    ensures FetchTimeOf(h + ":" + m) == Ok((Clock(DigitsValue(h), DigitsValue(m)), false))
    ensures FetchTimeOf(h + ":" + m + " UTC") == Ok((Clock(DigitsValue(h), DigitsValue(m)), true))
  {
    var c := h + ":" + m;
    ClockChars(h, m);
    ClockText(c);
    ClockParts(h, m);
    KeepClean(c);
    assert !EndsWith(c, "UTC") by {
      assert IsDigit(c[|c| - 1]);
    }
    UtcSuffix(c);
  }

  /** The documented example: "04:30 UTC" is 16200 seconds after midnight UTC. */
  lemma FetchTimeExample()
    ensures FetchTimeOf("04:30 UTC") == Ok((16200.0, true))
  {
    assert DigitsValue("04") == 4 by {
      assert "04"[..1] == "0" && "0"[..0] == [];
    }
    assert DigitsValue("30") == 30 by {
      assert "30"[..1] == "3" && "3"[..0] == [];
    }
    FetchTimeClock("04", "30");
    assert "04" + ":" + "30" + " UTC" == "04:30 UTC";
  }

  /** A missing or empty fetch time raises ValueError (`int('')`). */
  lemma FetchTimeEmpty()
    ensures FetchTimeOf("") == Err(ValueError)
  {
    assert Upper("") == "";
    assert KeepTimeChars("") == "";
    assert Split("", ':') == [""];
    assert [""][..0] == [];
    assert ParseInt("") == Err(ValueError);
  }

  // --------------------------------------------------- level and colour

  const Provider: string := "Staatsbetrieb Sachsenforst"

  /** LEVELCOLOR: the colour of 'not available' and of the levels 1 to 5. */
  function LevelColor(i: nat): string
    requires i < 6
  {
    match i
    case 0 => "#808080"
    case 1 => "#ffffcd"
    case 2 => "#ffd879"
    case 3 => "#ff8c39"
    case 4 => "#e9161d"
    case _ => "#7f0126"
  }

  /** INSTRUCTIONTEXT[k]: the instruction of danger level k + 1. */
  function InstructionText(k: nat): Value
    requires k < 5
  {
    if k == 0 then Str("") else Instruction(k + 1)
  }

  /** `INSTRUCTIONTEXT[wbs-1]`, or '' where that raises (no level, or an
      index outside the five texts). Python's negative indexing makes
      level 0 read the text of level 5. */
  function InstructionOf(wbs: Option<int>): (v: Value)
    ensures wbs.Some? && 1 <= wbs.value <= 5 ==> v == InstructionText(wbs.value - 1)
    ensures wbs.Some? && -4 <= wbs.value <= 0 ==> v == InstructionText(wbs.value + 4)
    ensures wbs == Some(0) ==> v == Instruction(5)
    ensures wbs.None? || wbs.value > 5 || wbs.value < -4 ==> v == Str("")
  {
    if wbs.None? then Str("")
    else
      match PyIndex(5, wbs.value - 1)
      case None => Str("")
      case Some(k) => InstructionText(k)
  }

  /** The default colour: that of the level for levels 1 to 5, else that
      of 'not available'. */
  function DefaultColor(wbs: Option<int>): (c: string)
    ensures wbs.Some? && 1 <= wbs.value <= 5 ==> c == LevelColor(wbs.value)
    ensures !(wbs.Some? && 1 <= wbs.value <= 5) ==> c == LevelColor(0)
  {
    if wbs.Some? && 1 <= wbs.value <= 5 then LevelColor(wbs.value) else LevelColor(0)
  }

  // ------------------------------------------------------- process_data

  /** `int(x)` of a JSON value. */
  function PyInt(v: Value): (r: Result<int>)
    ensures v.Int? ==> r == Ok(v.i)
    ensures v.Null? ==> r == Err(TypeError)
  {
    match v
    case Int(i) => Ok(i)
    case Real(x) => Ok(Trunc(x))
    case Bool(b) => Ok(if b then 1 else 0)
    case Str(s) => ParseInt(s)
    case _ => Err(TypeError)
  }

  /** `x == 0` in Python: true for 0, 0.0 and False, not for "0". */
  predicate PyEqZero(v: Value) {
    v == Int(0) || v == Real(0.0) || v == Bool(false)
  }

  function OptInt(o: Option<int>): Value {
    if o.Some? then Int(o.value) else Null
  }

  /** The danger level: `int(reply['wbs'])`, None where that raises. */
  function LevelOf(reply: Dict): Option<int> {
    if "wbs" !in reply then None
    else
      var n := PyInt(reply["wbs"]);
      if n.Ok? then Some(n.value) else None
  }

  /** The issue time: `reply['generated']` as a timestamp (`mktime`
      stands for `strptime` then `mktime`, None where they raise), and
      None where the raw level is missing or equals 0. */
  function IssuedOf(reply: Dict, mktime: Value -> Option<int>): (r: Option<int>)
    ensures r.Some? <==> "generated" in reply && mktime(reply["generated"]).Some? && "wbs" in reply && !PyEqZero(reply["wbs"])
    ensures r.Some? ==> r == mktime(reply["generated"])
  {
    if "generated" !in reply then None
    else
      var t := mktime(reply["generated"]);
      if t.None? then None
      else if "wbs" !in reply then None
      else if PyEqZero(reply["wbs"]) then None
      else t
  }

  /** The fields every converted reply has. */
  function Header(area: Value): Dict {
    map["Issuer" := Str(Provider), "ProductID" := Str("WBS"), "id" := area]
  }

  /** The fields of a reply of today. */
  function Body(reply: Dict, today: string, issued: Option<int>, wbs: Option<int>): Dict {
    map["sent" := OptInt(issued), "released" := OptInt(issued), "description" := Str(""),
        "instruction" := InstructionOf(wbs), "wbs" := OptInt(wbs),
        "color" := Get(reply, "color", Str(DefaultColor(wbs))),
        "text" := Get(reply, "text", Str("")), "day" := Str(PySlice(today, 0, 6))]
  }

  /** `SachsenforstThread.process_data`: the data dict and the issue time
      of a reply; `today` is the local date as 'dd.mm.yyyy'. A non-empty
      reply without 'date' raises KeyError. */
  function ProcessData(area: Value, reply: Dict, today: string, mktime: Value -> Option<int>): (r: Result<(Dict, Option<int>)>)
    ensures r.Err? <==> |reply| > 0 && "date" !in reply
    ensures r.Err? ==> r.error == KeyError
    ensures r.Ok? ==> "Issuer" in r.value.0 && "ProductID" in r.value.0 && "id" in r.value.0
    ensures r.Ok? ==> (r.value.1.Some? <==>
      |reply| > 0 && reply["date"] == Str(today) && IssuedOf(reply, mktime).Some?)
    ensures r.Ok? && r.value.1.Some? ==> "wbs" in reply && !PyEqZero(reply["wbs"]) && r.value.1 == mktime(reply["generated"])
  {
    var head := Header(area);
    if |reply| == 0 then Ok((head, None))
    else
      var named := head["name" := Get(reply, "region", Str(""))];
      if "date" !in reply then Err(KeyError)
      else if reply["date"] != Str(today) then Ok((named, None))
      else
        var wbs := LevelOf(reply);
        var issued := IssuedOf(reply, mktime);
        Ok((named + Body(reply, today, issued, wbs), issued))
  }

  /** A reply of today carries its level, instruction and colour: the
      reply's own colour wins over that of the level. */
  lemma ProcessDataLevel(area: Value, reply: Dict, today: string, mktime: Value -> Option<int>)
    requires |reply| > 0 && "date" in reply && reply["date"] == Str(today)
    ensures var r := ProcessData(area, reply, today, mktime);
      r.Ok? && r.value.0["wbs"] == OptInt(LevelOf(reply)) &&
      r.value.0["instruction"] == InstructionOf(LevelOf(reply)) &&
      r.value.0["released"] == OptInt(r.value.1) &&
      ("color" in reply ==> r.value.0["color"] == reply["color"]) &&
      ("color" !in reply ==> r.value.0["color"] == Str(DefaultColor(LevelOf(reply))))
  {
    var wbs, issued := LevelOf(reply), IssuedOf(reply, mktime);
    var named := Header(area)["name" := Get(reply, "region", Str(""))];
    var body := Body(reply, today, issued, wbs);
    ProcessDataToday(area, reply, today, mktime);
    BodyFields(reply, today, issued, wbs);
    MergeKeeps(named, body, "wbs");
    MergeKeeps(named, body, "instruction");
    MergeKeeps(named, body, "released");
    MergeKeeps(named, body, "color");
  }

  /** A reply dated today is the header, its region's name and the body. */
  lemma ProcessDataToday(area: Value, reply: Dict, today: string, mktime: Value -> Option<int>)
    requires |reply| > 0 && "date" in reply && reply["date"] == Str(today)
    ensures ProcessData(area, reply, today, mktime) ==
      Ok((Header(area)["name" := Get(reply, "region", Str(""))] + Body(reply, today, IssuedOf(reply, mktime), LevelOf(reply)), IssuedOf(reply, mktime)))
  {
  }

  lemma BodyFields(reply: Dict, today: string, issued: Option<int>, wbs: Option<int>)
    ensures var b := Body(reply, today, issued, wbs);
      "wbs" in b && "instruction" in b && "released" in b && "color" in b &&
      b["wbs"] == OptInt(wbs) && b["instruction"] == InstructionOf(wbs) && b["released"] == OptInt(issued) &&
      b["color"] == Get(reply, "color", Str(DefaultColor(wbs)))
  {
  }

  /** In `a | b` the keys of `b` keep its values. */
  lemma MergeKeeps(a: Dict, b: Dict, k: string)
    requires k in b
    ensures k in a + b && (a + b)[k] == b[k]
  {
  }

  /** The text "0" is level 0 without being equal to 0: the issue time
      stays and the instruction is that of level 5. */
  lemma ProcessDataTextZero(area: Value, reply: Dict, today: string, mktime: Value -> Option<int>)
    requires |reply| > 0 && "date" in reply && reply["date"] == Str(today)
    requires "wbs" in reply && reply["wbs"] == Str("0")
    requires "generated" in reply && mktime(reply["generated"]).Some?
    ensures var r := ProcessData(area, reply, today, mktime);
      r.Ok? && r.value.1 == mktime(reply["generated"]) && r.value.0["instruction"] == Instruction(5)
  {
    assert ParseInt("0") == Ok(0) by {
      ParseDigits("0");
      assert "0"[..0] == [];
    }
    assert LevelOf(reply) == Some(0);
    var issued := IssuedOf(reply, mktime);
    var named := Header(area)["name" := Get(reply, "region", Str(""))];
    var body := Body(reply, today, issued, Some(0));
    ProcessDataToday(area, reply, today, mktime);
    BodyFields(reply, today, issued, Some(0));
    MergeKeeps(named, body, "instruction");
  }

  // ------------------------------------------------------- getRecord

  /** The countdown to the fetch time; `now` and the start of the archive
      day in seconds. For a fetch time in local time the source reads the
      undefined `now_sec`, which raises NameError. */
  function Countdown(fetchTime: real, utc: bool, now: int, dayStart: int): (r: Result<real>)
    ensures r.Err? <==> !utc
    ensures r.Err? ==> r.error == NameError
    ensures r.Ok? && fetchTime >= 0.0 ==> r.value + now as real > dayStart as real
  {
    if !utc then Err(NameError)
    else
      var reference := (dayStart - dayStart % 86400) as real + fetchTime;
      var reference' := if reference <= dayStart as real then reference + 86400.0 else reference;
      Ok(reference' - now as real)
  }

  /** The record written before the fetch time, once a day. */
  function Placeholder(area: Value, areaName: Value, now: int, dayLabel: string): Dict {
    map["Issuer" := Str(Provider), "id" := area, "name" := areaName, "sent" := Int(now),
        "wbs" := Null, "released" := Null, "text" := Str("noch nicht ver\U{00F6}ffentlicht"),
        "description" := Str(""), "instruction" := Str(""), "color" := Str(LevelColor(0)),
        "day" := Str(dayLabel)]
  }

  /** The fields added to every stored record. */
  function Stamped(d: Dict, reached: bool, now: int, dayStart: int, dayEnd: int): (s: Dict)
    ensures s.Keys == d.Keys + {"fetch_time_reached", "processed", "start", "end"}
    ensures s["fetch_time_reached"] == Bool(reached) && s["processed"] == Int(now)
    ensures s["start"] == Int(dayStart) && s["end"] == Int(dayEnd)
  {
    d["fetch_time_reached" := Bool(reached)]["processed" := Int(now)]["start" := Int(dayStart)]["end" := Int(dayEnd)]
  }

  /** The part of the thread's state `getRecord` changes. */
  datatype DayState = DayState(lastDataTs: int, lastNewdayTs: int, areaName: Value, data: Dict)

  /** The inputs of one `getRecord` call: the clock, the archive day
      `(dayStart, dayEnd]`, the reply (None where the download failed),
      the local date 'dd.mm.yyyy', the local 'dd.mm.' label and the
      timestamp parser. */
  datatype Call = Call(now: int, dayStart: int, dayEnd: int, reply: Option<Dict>, today: string, dayLabel: string, mktime: Value -> Option<int>)

  /** The fetch of `getRecord` once the fetch time is reached: the new
      state, or None where nothing is stored. */
  function Fetch(s: DayState, area: Value, c: Call): (r: Option<DayState>)
    ensures c.reply.None? ==> r.None?
    ensures r.Some? ==> r.value.lastDataTs != 0 && r.value.lastNewdayTs == s.lastNewdayTs
    ensures r.Some? ==> "fetch_time_reached" in r.value.data && r.value.data["fetch_time_reached"] == Bool(true)
    ensures r.Some? ==> "processed" in r.value.data && r.value.data["processed"] == Int(c.now)
  {
    if c.reply.None? then None
    else
      var p := ProcessData(area, c.reply.value, c.today, c.mktime);
      if p.Err? then None
      else
        var d := p.value.0;
        var issued := p.value.1;
        if d == map[] || issued.None? || issued.value == 0 then None
        else Some(DayState(issued.value, s.lastNewdayTs, Get(d, "name", s.areaName), Stamped(d, true, c.now, c.dayStart, c.dayEnd)))
  }

  /** A reply processed into a non-empty record with an issue time is
      stored, stamped, with the name of the area it gives. */
  lemma FetchStored(s: DayState, area: Value, c: Call, d: Dict, issued: int)
    requires c.reply.Some? && ProcessData(area, c.reply.value, c.today, c.mktime) == Ok((d, Some(issued)))
    requires d != map[] && issued != 0
    ensures Fetch(s, area, c) == Some(DayState(issued, s.lastNewdayTs, Get(d, "name", s.areaName), Stamped(d, true, c.now, c.dayStart, c.dayEnd)))
  {
  }

  /** `getRecord` on a state: the new state and the error it raises. */
  function GetRecordOf(s: DayState, fetchTime: real, utc: bool, area: Value, c: Call): (r: (DayState, Option<PyError>))
    ensures r.1.Some? <==> !utc
    ensures r.1.Some? ==> r.0 == s
    ensures s.lastDataTs > c.dayStart ==> r.0 == s
  {
    var cd := Countdown(fetchTime, utc, c.now, c.dayStart);
    if cd.Err? then (s, Some(cd.error))
    else if s.lastDataTs > c.dayStart then (s, None)
    else if cd.value <= 60.0 then
      var f := Fetch(s, area, c);
      (if f.Some? then f.value else s, None)
    else if s.lastNewdayTs > c.dayStart then (s, None)
    else
      (DayState(s.lastDataTs, c.now, s.areaName, Stamped(Placeholder(area, s.areaName, c.now, c.dayLabel), false, c.now, c.dayStart, c.dayEnd)), None)
  }

  /** `last_data_ts` only moves to the issue time of a converted reply,
      stored with its stamps; whatever is stored carries the day and the
      time it was processed. */
  lemma GetRecordStores(s: DayState, fetchTime: real, utc: bool, area: Value, c: Call)
    ensures var r := GetRecordOf(s, fetchTime, utc, area, c).0;
      r.lastDataTs != s.lastDataTs ==>
        c.reply.Some? && var p := ProcessData(area, c.reply.value, c.today, c.mktime);
        p.Ok? && p.value.1 == Some(r.lastDataTs) && r.lastDataTs != 0 &&
        r.data == Stamped(p.value.0, true, c.now, c.dayStart, c.dayEnd)
    ensures var r := GetRecordOf(s, fetchTime, utc, area, c).0;
      r.data != s.data ==>
        "start" in r.data && "processed" in r.data && r.data["start"] == Int(c.dayStart) && r.data["processed"] == Int(c.now)
  {
  }

  /** Before the fetch time the placeholder is written at most once a day:
      a second call on the same archive day changes nothing. */
  lemma PlaceholderOnce(s: DayState, fetchTime: real, utc: bool, area: Value, c1: Call, c2: Call)
    requires c1.dayStart == c2.dayStart && c1.dayStart < c1.now
    requires Countdown(fetchTime, utc, c1.now, c1.dayStart).Ok? && Countdown(fetchTime, utc, c1.now, c1.dayStart).value > 60.0
    requires Countdown(fetchTime, utc, c2.now, c2.dayStart).Ok? && Countdown(fetchTime, utc, c2.now, c2.dayStart).value > 60.0
    ensures var s1 := GetRecordOf(s, fetchTime, utc, area, c1).0;
      GetRecordOf(s1, fetchTime, utc, area, c2).0 == s1
  {
    var s1 := GetRecordOf(s, fetchTime, utc, area, c1).0;
    assert s1.lastDataTs > c1.dayStart || s1.lastNewdayTs > c1.dayStart;
  }

  /** Once data issued during the archive day is stored, every later call
      of that day changes nothing. */
  lemma FetchedDone(s: DayState, fetchTime: real, utc: bool, area: Value, c1: Call, c2: Call)
    requires c1.dayStart == c2.dayStart
    requires var s1 := GetRecordOf(s, fetchTime, utc, area, c1).0;
      s1.lastDataTs != s.lastDataTs && s1.lastDataTs > c1.dayStart
    ensures var s1 := GetRecordOf(s, fetchTime, utc, area, c1).0;
      GetRecordOf(s1, fetchTime, utc, area, c2).0 == s1
  {
  }

  // ----------------------------------------------------------- get_data

  /** The five fields `get_data` hands to weewx; all of them are None for
      an empty buffer. */
  function Published(data: Dict): (r: map<string, Entry>)
    ensures r.Keys == {"wildfireDangerLevel", "wildfireDangerLevelIssued",
      "wildfireDangerLevelText", "wildfireDangerLevelArea", "wildfireDangerLevelColor"}
    ensures data == map[] ==> forall k :: k in r ==> r[k].value == Null
    ensures r["wildfireDangerLevelIssued"].unit == Some("unix_epoch") && r["wildfireDangerLevel"].unit == Some("byte")
  {
    map["wildfireDangerLevel" := Entry(Get(data, "wbs", Null), Some("byte"), Some("group_data")),
        "wildfireDangerLevelIssued" := Entry(Get(data, "released", Null), Some("unix_epoch"), Some("group_datetime")),
        "wildfireDangerLevelText" := Entry(Get(data, "text", Null), None, None),
        "wildfireDangerLevelArea" := Entry(Get(data, "name", Null), None, None),
        "wildfireDangerLevelColor" := Entry(Get(data, "color", Null), None, None)]
  }

  /** After a successful fetch, `get_data` on the same day publishes the
      level and the issue time of the reply. */
  lemma FetchThenPublish(s: DayState, fetchTime: real, utc: bool, area: Value, c: Call)
    requires var s1 := GetRecordOf(s, fetchTime, utc, area, c).0; s1.lastDataTs != s.lastDataTs
    ensures var s1 := GetRecordOf(s, fetchTime, utc, area, c).0;
      var p := Published(s1.data);
      p["wildfireDangerLevelIssued"].value == Int(s1.lastDataTs) &&
      p["wildfireDangerLevel"].value == OptInt(LevelOf(c.reply.value))
  {
    var s1 := GetRecordOf(s, fetchTime, utc, area, c).0;
    GetRecordStores(s, fetchTime, utc, area, c);
    var reply := c.reply.value;
    var p := ProcessData(area, reply, c.today, c.mktime);
    var d := p.value.0;
    assert Get(d, "released", Null) == Int(s1.lastDataTs) && Get(d, "wbs", Null) == OptInt(LevelOf(reply)) by {
      assert |reply| > 0 && reply["date"] == Str(c.today);
      ProcessDataLevel(area, reply, c.today, c.mktime);
    }
    assert s1.data == Stamped(d, true, c.now, c.dayStart, c.dayEnd);
    PublishedStamped(d, true, c.now, c.dayStart, c.dayEnd);
    PublishedFields(d);
  }

  /** The level and the issue time `get_data` publishes. */
  lemma PublishedFields(d: Dict)
    ensures Published(d)["wildfireDangerLevel"].value == Get(d, "wbs", Null)
    ensures Published(d)["wildfireDangerLevelIssued"].value == Get(d, "released", Null)
  {
  }

  /** The stamps of a stored record are not published. */
  lemma PublishedStamped(d: Dict, reached: bool, now: int, dayStart: int, dayEnd: int)
    ensures Published(Stamped(d, reached, now, dayStart, dayEnd)) == Published(d)
  {
    var t := Stamped(d, reached, now, dayStart, dayEnd);
    StampKeptGet(d, t, "wbs");
    StampKeptGet(d, t, "released");
    StampKeptGet(d, t, "text");
    StampKeptGet(d, t, "name");
    StampKeptGet(d, t, "color");
  }

  /** A key other than the stamps reads the same after stamping. */
  lemma StampKeptGet(d: Dict, t: Dict, k: string)
    requires t.Keys == d.Keys + {"fetch_time_reached", "processed", "start", "end"}
    requires forall j :: j in d && j !in {"fetch_time_reached", "processed", "start", "end"} ==> t[j] == d[j]
    requires k !in {"fetch_time_reached", "processed", "start", "end"}
    ensures Get(t, k, Null) == Get(d, k, Null)
  {
  }

  // ------------------------------------------------------- waiting_time

  /** `a % b` in Python: the remainder has the sign of the divisor. */
  function PyMod(a: int, b: int): (r: int)
    requires b != 0
    ensures b > 0 ==> 0 <= r < b
    ensures b < 0 ==> b < r <= 0
  {
    if b > 0 then a % b
    else
      var m := a % b;
      if m == 0 then 0 else m + b
  }

  /** `waiting_time`: 0 before the first data; on a new day the rest of
      the current query interval once the fetch time has passed, or the
      countdown before it; otherwise until the end of the day plus one
      interval. */
  function Waiting(lastDataTs: int, queryInterval: int, fetchTime: real, utc: bool, now: int, dayStart: int, dayEnd: int): (r: Result<real>)
    ensures lastDataTs == 0 ==> r == Ok(0.0)
    ensures lastDataTs != 0 && !utc ==> r == Err(NameError)
  {
    if lastDataTs == 0 then Ok(0.0)
    else
      var cd := Countdown(fetchTime, utc, now, dayStart);
      if cd.Err? then Err(cd.error)
      else if dayStart > lastDataTs then
        if cd.value <= 0.0 then
          if queryInterval == 0 then Err(ZeroDivisionError)
          else Ok((queryInterval - PyMod(now, queryInterval)) as real)
        else Ok(cd.value)
      else Ok((dayEnd - now + queryInterval) as real)
  }

  /** With a positive interval and a clock inside the day the thread always
      sleeps a positive time: after the fetch time it wakes on the next
      interval boundary, before it at the fetch time, and with today's
      data one interval after the end of the day. */
  lemma WaitingWakes(lastDataTs: int, queryInterval: int, fetchTime: real, now: int, dayStart: int, dayEnd: int)
    requires lastDataTs != 0 && queryInterval > 0 && now <= dayEnd
    ensures var r := Waiting(lastDataTs, queryInterval, fetchTime, true, now, dayStart, dayEnd);
      var cd := Countdown(fetchTime, true, now, dayStart).value;
      r.Ok? && r.value > 0.0 &&
      (dayStart > lastDataTs && cd <= 0.0 ==> r.value <= queryInterval as real && (now + r.value.Floor) % queryInterval == 0) &&
      (dayStart > lastDataTs && cd > 0.0 ==> r.value == cd) &&
      (dayStart <= lastDataTs ==> r.value == (dayEnd + queryInterval - now) as real)
  {
    var w := Health.BaseWaiting(now, queryInterval);
    assert PyMod(now, queryInterval) == now % queryInterval;
    assert (w as real).Floor == w;
  }

  // ------------------------------------------------------------- thread

  /** The wildfire thread of one area, with the state `getRecord` and
      `get_data` update. */
  class WildfireThread {
    /** The archive interval in seconds. */
    var queryInterval: int
    /** The fetch time in seconds after midnight, and whether it is UTC. */
    var fetchTime: real
    var fetchTimeUtc: bool
    /** The configured area id. */
    var area: Value
    var lastDataTs: int
    var lastNewdayTs: int
    var areaName: Value
    var data: Dict

    /** The thread of an area with the parsed fetch time (see
        ParseFetchTime); the buffer starts empty. */
    constructor (queryInterval: int, fetchTime: real, fetchTimeUtc: bool, area: Value)
      ensures this.queryInterval == queryInterval && this.fetchTime == fetchTime
      ensures this.fetchTimeUtc == fetchTimeUtc && this.area == area
      ensures lastDataTs == 0 && data == map[] && lastNewdayTs == 0 && areaName == Str("")
    {
      this.queryInterval := queryInterval;
      this.fetchTime := fetchTime;
      this.fetchTimeUtc := fetchTimeUtc;
      this.area := area;
      lastDataTs := 0;
      data := map[];
      lastNewdayTs := 0;
      areaName := Str("");
    }

    function State(): DayState
      reads this
    {
      DayState(lastDataTs, lastNewdayTs, areaName, data)
    }

    /** `get_data(ts)`, `todayTs` being the start of the archive day of
        `ts`: an outdated buffer is emptied first; the interval is 1. */
    method GetData(todayTs: int) returns (d: map<string, Entry>, interval: int)
      modifies this
      ensures todayTs > old(lastDataTs) ==> lastDataTs == 0 && data == map[]
      ensures todayTs <= old(lastDataTs) ==> lastDataTs == old(lastDataTs) && data == old(data)
      ensures lastNewdayTs == old(lastNewdayTs) && areaName == old(areaName)
      ensures queryInterval == old(queryInterval) && fetchTime == old(fetchTime)
      ensures fetchTimeUtc == old(fetchTimeUtc) && area == old(area)
      ensures d == Published(data) && interval == 1
    {
      if todayTs > lastDataTs {
        lastDataTs := 0;
        data := map[];
      }
      interval := 1;
      d := Published(data);
    }

    /** `getRecord`: download, convert and store the data of the day. */
    method GetRecord(c: Call) returns (err: Option<PyError>)
      modifies this
      ensures (State(), err) == GetRecordOf(old(State()), fetchTime, fetchTimeUtc, area, c)
      ensures queryInterval == old(queryInterval) && fetchTime == old(fetchTime)
      ensures fetchTimeUtc == old(fetchTimeUtc) && area == old(area)
    {
      var cd := Countdown(fetchTime, fetchTimeUtc, c.now, c.dayStart);
      if cd.Err? {
        return Some(cd.error);
      }
      err := None;
      if lastDataTs > c.dayStart {
        return;
      }
      if cd.value <= 60.0 {
        StoreFetched(c);
      } else {
        if lastNewdayTs > c.dayStart {
          return;
        }
        StorePlaceholder(c);
      }
    }

    /** The fetch branch of `getRecord`: convert the reply and store it if
        it has an issue time. */
    method StoreFetched(c: Call)
      modifies this
      ensures var f := Fetch(old(State()), area, c); State() == if f.Some? then f.value else old(State())
      ensures queryInterval == old(queryInterval) && fetchTime == old(fetchTime)
      ensures fetchTimeUtc == old(fetchTimeUtc) && area == old(area)
    {
      if c.reply.None? {
        return;
      }
      var p := ProcessData(area, c.reply.value, c.today, c.mktime);
      if p.Err? {
        return;
      }
      var d := p.value.0;
      var issued := p.value.1;
      if d == map[] || issued.None? || issued.value == 0 {
        return;
      }
      FetchStored(State(), area, c, d, issued.value);
      Store(d, issued.value, c);
    }

    /** The store of a fetched record `d` issued at `issued`: the area's
        name it carries and the record stamped as fetched. */
    method Store(d: Dict, issued: int, c: Call)
      modifies this
      ensures State() == DayState(issued, old(lastNewdayTs), Get(d, "name", old(areaName)), Stamped(d, true, c.now, c.dayStart, c.dayEnd))
      ensures queryInterval == old(queryInterval) && fetchTime == old(fetchTime)
      ensures fetchTimeUtc == old(fetchTimeUtc) && area == old(area)
    {
      lastDataTs := issued;
      if "name" in d {
        areaName := d["name"];
      }
      var rec := d;
      rec := rec["fetch_time_reached" := Bool(true)];
      rec := rec["processed" := Int(c.now)];
      rec := rec["start" := Int(c.dayStart)];
      rec := rec["end" := Int(c.dayEnd)];
      data := rec;
    }

    /** The branch of `getRecord` before the fetch time: store the
        placeholder of the day. */
    method StorePlaceholder(c: Call)
      modifies this
      ensures State() == DayState(old(lastDataTs), c.now, old(areaName),
        Stamped(Placeholder(area, old(areaName), c.now, c.dayLabel), false, c.now, c.dayStart, c.dayEnd))
      ensures queryInterval == old(queryInterval) && fetchTime == old(fetchTime)
      ensures fetchTimeUtc == old(fetchTimeUtc) && area == old(area)
    {
      lastNewdayTs := c.now;
      var d := Placeholder(area, areaName, c.now, c.dayLabel);
      ghost var d0 := d;
      d := d["fetch_time_reached" := Bool(false)];
      d := d["processed" := Int(c.now)];
      d := d["start" := Int(c.dayStart)];
      d := d["end" := Int(c.dayEnd)];
      assert d == Stamped(d0, false, c.now, c.dayStart, c.dayEnd);
      data := d;
    }

    /** `waiting_time`. */
    function WaitingTime(now: int, dayStart: int, dayEnd: int): (r: Result<real>)
      reads this
      ensures lastDataTs == 0 ==> r == Ok(0.0)
      ensures r == Waiting(lastDataTs, queryInterval, fetchTime, fetchTimeUtc, now, dayStart, dayEnd)
    {
      Waiting(lastDataTs, queryInterval, fetchTime, fetchTimeUtc, now, dayStart, dayEnd)
    }
  }
}
