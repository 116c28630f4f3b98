/** `StationBinder` of `weathercodes.py`: the station model. The cloud cover
    symbol sits in the middle; present weather, wind barb, pressure tendency,
    temperatures, pressure, visibility and past weather are placed around it
    at the positions of the WMO or the DWD preset, and every element added
    widens the bounding box that becomes the SVG view box. */
module Station {
  import opened Builtins
  import opened CodeTables
  import Binder
  import Visibility
  import Tendency

  // ------------------------------------------------------------ FORMAT

  /** One row of `FORMAT`: the rectangle (x0, y0)-(x1, y1) an element covers
      and the point (x, y) and size factor it is drawn with, all in units of
      the width of the cloud symbol. */
  datatype Placement = Placement(x0: int, y0: int, x1: int, y1: int, x: real, y: real, size: real)

  /** The twelve rows of a `FORMAT` preset. */
  datatype Layout = Layout(
    n: Placement, ww: Placement, ttt: Placement, td: Placement, tw: Placement, pppp: Placement,
    ppp: Placement, a: Placement, vv: Placement, w1: Placement, w2: Placement, rrr: Placement)

  datatype Style = WMO | DWD

  function FormatOf(style: Style): Layout {
    match style
    case WMO => Layout(
      Placement(0, 0, 1, 1, 0.0, 0.0, 1.0),
      Placement(-1, 0, 0, 1, -1.0, 0.0, 1.0),
      Placement(-1, -1, 0, 0, -0.5, -0.5, 0.4),
      Placement(-1, 1, 0, 2, -0.5, 1.5, 0.4),
      Placement(-1, 2, 0, 3, -0.5, 2.5, 0.4),
      Placement(1, -1, 2, 0, 1.5, -0.5, 0.4),
      Placement(0, 1, 2, 1, 1.5, 0.5, 0.4),
      Placement(2, 0, 3, 1, 2.5, 0.5, 1.0),
      Placement(-2, 0, -1, 1, -1.5, 0.5, 0.4),
      Placement(1, 1, 2, 2, 1.0, 1.25, 0.5),
      Placement(1, 1, 2, 2, 1.5, 1.25, 0.5),
      Placement(1, 2, 2, 3, 1.5, 2.25, 0.4))
    case DWD => Layout(
      Placement(0, 0, 1, 1, 0.0, 0.0, 1.0),
      Placement(-1, 0, 0, 1, -1.0, 0.0, 1.0),
      Placement(-1, -1, 0, 0, -0.5, -0.75, 0.4),
      Placement(-1, 1, 0, 2, -0.5, 1.25, 0.4),
      Placement(-1, 1, 0, 2, -0.5, 1.75, 0.4),
      Placement(1, -1, 2, 0, 1.5, -0.75, 0.4),
      Placement(1, -1, 2, 0, 1.5, -0.25, 0.4),
      Placement(1, 0, 2, 1, 1.5, 0.5, 1.0),
      Placement(-1, 0, -1, 1, -0.5, -0.25, 0.4),
      Placement(1, 1, 2, 2, 1.0, 1.0, 0.5),
      Placement(1, 1, 2, 2, 1.5, 1.0, 0.5),
      Placement(1, 1, 2, 2, 1.5, 1.75, 0.4))
  }

  function Placements(l: Layout): seq<Placement> {
    [l.n, l.ww, l.ttt, l.td, l.tw, l.pppp, l.ppp, l.a, l.vv, l.w1, l.w2, l.rrr]
  }

  /** `format[key]`, None where the preset has no such row (a KeyError). */
  function FormatKey(l: Layout, key: string): (r: Option<Placement>)
    ensures r.Some? ==> r.value in Placements(l)
  {
    if key == "n" then Some(l.n)
    else if key == "ww" then Some(l.ww)
    else if key == "TTT" then Some(l.ttt)
    else if key == "Td" then Some(l.td)
    else if key == "Tw" then Some(l.tw)
    else if key == "PPPP" then Some(l.pppp)
    else if key == "ppp" then Some(l.ppp)
    else if key == "a" then Some(l.a)
    else if key == "VV" then Some(l.vv)
    else if key == "W1" then Some(l.w1)
    else if key == "W2" then Some(l.w2)
    else if key == "RRR" then Some(l.rrr)
    else None
  }

  /** The presets have rows for W1 and W2 but none for the combined key
      W1W2 that `station` also accepts, so that key always fails. */
  lemma PastWeatherRows(style: Style)
    ensures FormatKey(FormatOf(style), "W1").Some? && FormatKey(FormatOf(style), "W2").Some?
    ensures FormatKey(FormatOf(style), "W1W2").None?
  {
  }

  /** `FORMAT.get(format.upper(), FORMAT['WMO'])`. */
  function StyleOf(format: string): Style {
    if Upper(format) == "DWD" then DWD else WMO
  }

  /** The preset does not depend on the case the caller wrote its name in. */
  lemma StyleIgnoresCase(format: string)
    ensures StyleOf(Upper(format)) == StyleOf(format)
    ensures StyleOf("dwd") == DWD && StyleOf("Dwd") == DWD && StyleOf("wmo") == WMO
  {
    UpperIdempotent(format);
    assert Upper("dwd") == "DWD";
    assert Upper("Dwd") == "DWD";
    assert Upper("wmo") == "WMO";
  }

  /** `if not width: width = 50`. */
  function WidthOf(width: Option<int>): (w: int)
    ensures w != 0
    ensures width.Some? && width.value != 0 ==> w == width.value
  {
    if width.None? || width.value == 0 then 50 else width.value
  }

  /** The `round` argument `to_celsius` sees: the caller's `round_temp`, which
      the DWD preset turns on when it is not given. */
  function Rounds(style: Style, roundTemp: Option<bool>): bool {
    if roundTemp.Some? then roundTemp.value else style == DWD
  }

  /** The colour `decolor_ww` is applied with, None when `color` is falsy. */
  function Tint(colour: Option<string>): Option<string> {
    if colour.Some? && colour.value != "" then colour else None
  }

  // ------------------------------------------------------------ bounding box

  datatype Box = Box(x0: int, y0: int, x1: int, y1: int)

  predicate Within(inner: Box, outer: Box) {
    outer.x0 <= inner.x0 && outer.y0 <= inner.y0 && inner.x1 <= outer.x1 && inner.y1 <= outer.y1
  }

  /** The four `min`/`max` updates of `x0, y0, x1, y1`: the smallest box that
      holds both boxes. */
  function Widen(b: Box, r: Box): (u: Box)
    ensures Within(b, u) && Within(r, u)
    ensures forall c :: Within(b, c) && Within(r, c) ==> Within(u, c)
  {
    Box(if r.x0 < b.x0 then r.x0 else b.x0, if r.y0 < b.y0 then r.y0 else b.y0,
        if r.x1 > b.x1 then r.x1 else b.x1, if r.y1 > b.y1 then r.y1 else b.y1)
  }

  /** `obsfmt[0]*width, … obsfmt[3]*width`. */
  function Scaled(p: Placement, w: int): Box {
    Box(p.x0 * w, p.y0 * w, p.x1 * w, p.y1 * w)
  }

  /** The margin a wind barb adds around the cloud symbol. */
  function WindBox(w: int): Box {
    Box(-15, -15, w + 15, w + 15)
  }

  function Hull(boxes: seq<Box>): (h: Box)
    requires |boxes| > 0
    ensures forall k :: 0 <= k < |boxes| ==> Within(boxes[k], h)
  {
    if |boxes| == 1 then boxes[0]
    else
      var rest := Hull(boxes[1..]);
      assert forall k :: 1 <= k < |boxes| ==> boxes[k] == boxes[1..][k - 1];
      Widen(boxes[0], rest)
  }

  /** Every box the station model can widen by: the wind margin and the
      twelve rows of the preset at width `w`. */
  function Rows(l: Layout, w: int): seq<Box> {
    [WindBox(w)] + seq(12, k requires 0 <= k < 12 => Scaled(Placements(l)[k], w))
  }

  /** The largest box a station model in preset `l` can need: every row of
      the preset and the wind margin. */
  function Extent(l: Layout, w: int): Box {
    Hull(Rows(l, w))
  }

  lemma PlacementInExtent(l: Layout, w: int, p: Placement)
    requires p in Placements(l)
    ensures Scaled(p, w) in Rows(l, w) && Within(Scaled(p, w), Extent(l, w))
  {
    var k :| 0 <= k < 12 && Placements(l)[k] == p;
    assert Rows(l, w)[k + 1] == Scaled(p, w);
  }

  lemma WindInExtent(l: Layout, w: int)
    ensures WindBox(w) in Rows(l, w) && Within(WindBox(w), Extent(l, w))
  {
    assert Rows(l, w)[0] == WindBox(w);
  }

  // ------------------------------------------------------------ arguments

  /** A keyword argument's value as the station model reads it: None, a
      number (a plain number, or a ValueHelper or AggTypeBinder by its raw
      value in the unit the code converts to), a ValueTuple with its unit
      group, or an ObservationBinder over a time span with its last value,
      its difference, its series and its maximum as a value tuple. */
  datatype Obs =
    | Missing
    | Number(v: Option<real>)
    | Tuple(v: Option<real>, group: Option<string>)
    | Span(last: Option<real>, diff: Option<real>, series: seq<Tendency.Sample>, max: Option<real>, maxGroup: Option<string>)

  /** The number after the unwrapping `to_celsius` and `wind` do, then
      `to_float`: `float()` of a span raises TypeError. */
  function Raw(o: Obs): (r: Result<Option<real>>)
    ensures r.Err? <==> o.Span?
    ensures r.Err? ==> r.error == TypeError
  {
    match o
    case Missing => Ok(None)
    case Number(v) => Ok(v)
    case Tuple(v, _) => Ok(v)
    case Span(_, _, _, _, _) => Err(TypeError)
  }

  /** `self.kwargs[key]` for the first entry with that key, None when
      `key not in self.kwargs`. */
  function Get(kwargs: seq<(string, Obs)>, key: string): (r: Option<Obs>)
    ensures r.Some? <==> exists k :: 0 <= k < |kwargs| && kwargs[k].0 == key
  {
    if kwargs == [] then None
    else if kwargs[0].0 == key then Some(kwargs[0].1)
    else
      assert forall k :: 1 <= k < |kwargs| ==> kwargs[k] == kwargs[1..][k - 1];
      Get(kwargs[1..], key)
  }

  // ------------------------------------------------------------ to_celsius

  function Abs(i: int): nat {
    if i < 0 then -i else i
  }

  /** `'%.1f' % t`: the tenths rounded half to even, with a minus sign for
      every negative number (also one that rounds to zero). */
  function FormatFixed1(t: real): (s: string)
    ensures (|s| > 0 && s[0] == '-') <==> t < 0.0
  {
    var a := Abs(RoundHalfEven(t * 10.0));
    (if t < 0.0 then "-" else "") + NatToString(a / 10) + "." + [DigitChar(a % 10)]
  }

  /** Reading `'%.1f' % t` back: the digits before and after the point give
      the rounded tenths of `|t|`. */
  lemma FormatFixed1RoundTrip(t: real)
    ensures var s := FormatFixed1(t);
      var u := if t < 0.0 then s[1..] else s;
      |u| >= 3 && u[|u| - 2] == '.' && IsDigits(u[..|u| - 2]) && IsDigit(u[|u| - 1]) &&
      DigitsValue(u[..|u| - 2]) * 10 + (u[|u| - 1] as int - '0' as int) == Abs(RoundHalfEven(t * 10.0))
  {
    var a := Abs(RoundHalfEven(t * 10.0));
    var s := FormatFixed1(t);
    var u := if t < 0.0 then s[1..] else s;
    var head := NatToString(a / 10);
    assert u == head + "." + [DigitChar(a % 10)];
    assert u[..|u| - 2] == head;
    NatToStringRoundTrip(a / 10);
  }

  /** `to_celsius(x, round)`: empty for None, whole degrees or tenths
      otherwise; a span, or a value without a number, is a TypeError. */
  function ToCelsius(x: Obs, round: bool): (r: Result<string>)
    ensures r == Ok("") <==> x == Missing
  {
    if x == Missing then Ok("")
    else
      match Raw(x)
      case Err(e) => Err(e)
      case Ok(t) =>
        if t.None? then Err(TypeError)
        else
          var s := if round then Binder.FormatFixed0(t.value) else FormatFixed1(t.value);
          assert s != "";
          Ok(s)
  }

  // ------------------------------------------------------------ to_coded_mbar

  /** The coded barometer: the reading in tenths of hPa with the thousands
      of hPa dropped, written without padding; empty when missing. */
  function CodedMbar(p: Option<real>): (s: string)
    ensures s == "" <==> p.None?
  {
    if p.None? then ""
    else
      var k := Tendency.Tenths(p.value);
      IntToString(if k >= 10000 then k - 10000 else k)
  }

  /** For readings from 0 to 1999.9 hPa the coded text reads back as the
      tenths modulo 10000: 1013.2 hPa as 132, 998.7 hPa as 9987. */
  lemma CodedMbarRoundTrip(p: real)
    requires 0 <= Tendency.Tenths(p) < 20000
    ensures ParseInt(CodedMbar(Some(p))) == Ok(Tendency.Tenths(p) % 10000)
  {
    var k := Tendency.Tenths(p);
    IntToStringRoundTrip(if k >= 10000 then k - 10000 else k);
  }

  /** The coded tendency `'%02d' % (pdiff*10)`: the difference in tenths,
      truncated toward zero, at least two characters; empty when missing. */
  function CodedDiff(d: Option<real>): (s: string)
    ensures s == "" <==> d.None?
  {
    if d.None? then "" else Format02d(Trunc(d.value * 10.0))
  }

  /** The coded tendency reads back as the truncated tenths. */
  lemma CodedDiffRoundTrip(d: real)
    ensures ParseInt(CodedDiff(Some(d))) == Ok(Trunc(d * 10.0))
  {
    var i := Trunc(d * 10.0);
    if 0 <= i < 10 {
      Format02dRoundTrip(i);
      var s := Format02d(i);
      assert Strip(s) == s;
      assert s[0] != '-' && s[0] != '+';
    } else {
      IntToStringRoundTrip(i);
    }
  }

  /** `to_coded_mbar(x)`: the last reading and the difference of a span, or
      the value and no difference for anything else. */
  function ToCodedMbar(x: Obs): (r: (string, string))
    ensures r.1 != "" ==> x.Span?
  {
    match x
    case Span(last, diff, _, _, _) => (CodedMbar(last), CodedDiff(diff))
    case Missing => (CodedMbar(None), "")
    case Number(v) => (CodedMbar(v), "")
    case Tuple(v, _) => (CodedMbar(v), "")
  }

  // ------------------------------------------------------------ pressure_tendency_symbol

  /** What `pressure_tendency_svg_path` is given: the code derived from a
      span (or the exception caught while deriving it), or a value passed in
      directly. */
  datatype TendencyArg = Derived(code: Result<Option<int>>) | Given(a: Option<real>)

  function TendencyArgOf(o: Obs): TendencyArg {
    match o
    case Span(_, diff, series, _, _) => Derived(Tendency.SpanTendencyOf(diff, series))
    case Number(v) => Given(v)
    case Tuple(v, _) => Given(v)
    case Missing => Given(None)
  }

  // ------------------------------------------------------------ visibility

  /** `visibility_code` of the value: only a number converts; None, a value
      tuple or a span make `visibility*0.01` or `float()` a TypeError. */
  function VisibilityText(o: Obs): (r: Result<string>)
    ensures r.Ok? <==> o.Number? && o.v.Some?
  {
    if o.Number? && o.v.Some? then
      Visibility.VisibilityCodeAsWritten(o.v.value);
      Visibility.VisibilityCode(o.v.value)
    else Err(TypeError)
  }

  // ------------------------------------------------------------ W1, W2

  /** The value tuple the W branch reads: a span's maximum, a tuple itself,
      or `ValueTuple(to_int(val), None, None)`. */
  function PastWeatherArg(o: Obs): (Option<real>, Option<string>) {
    match o
    case Span(_, _, _, max, g) => (max, g)
    case Tuple(v, g) => (v, g)
    case Number(v) => (if v.Some? then Some(Trunc(v.value) as real) else None, None)
    case Missing => (None, None)
  }

  /** `W_SYMBOLS[int(c)//10]`. */
  function WDecade(c: real): Result<Option<Svg>>
    requires c >= 40.0
  {
    var i := Trunc(c) / 10;
    if i < 10 then Ok(SymbolAt(W, i)) else Err(IndexError)
  }

  /** The past-weather symbol: a ww or wawa code is reduced to a symbol of
      the W or wawa tables by ranges, an untagged code indexes W_SYMBOLS.
      Comparing a missing code raises TypeError, a code past the table
      IndexError. */
  function PastWeatherSymbol(code: Option<real>, group: Option<string>): Result<Option<Svg>> {
    if group == Some("group_wmo_ww") then
      if code.None? then Err(TypeError)
      else
        var c := code.value;
        if 30.0 <= c < 36.0 then Ok(SymbolAt(Wawa, 27))
        else if 36.0 <= c < 40.0 then Ok(SymbolAt(Ww, 38))
        else if c == 90.0 then Ok(SymbolAt(W, 8))
        else if c >= 40.0 then WDecade(c)
        else Ok(None)
    else if group == Some("group_wmo_wawa") then
      if code.None? then Err(TypeError)
      else
        var c := code.value;
        if 27.0 <= c < 30.0 then Ok(SymbolAt(Wawa, 27))
        else if 30.0 <= c <= 35.0 then Ok(SymbolAt(Wawa, 33))
        else if 40.0 <= c < 50.0 then Ok(SymbolAt(Wawa, 40))
        else if c >= 50.0 then WDecade(c)
        else Ok(None)
    else if code.None? then Err(TypeError)
    else
      match PyIndex(10, Trunc(code.value))
      case None => Err(IndexError)
      case Some(i) => Ok(SymbolAt(W, i))
  }

  /** Every ww code 0..99 reduces without an exception and draws a symbol
      exactly from 30 up. */
  lemma PastWeatherFromWw(c: int)
    requires 0 <= c <= 99
    ensures var r := PastWeatherSymbol(Some(c as real), Some("group_wmo_ww"));
      r.Ok? && (r.value.None? <==> c < 30)
  {
    assert Trunc(c as real) == c;
    if 30 <= c < 36 {
      AliasesNeverDangle(Wawa, 27);
    } else if 36 <= c < 40 {
      AliasesNeverDangle(Ww, 38);
    } else if c == 90 {
      AliasesNeverDangle(W, 8);
    } else if c >= 40 {
      AliasesNeverDangle(W, c / 10);
    }
  }

  /** Every wawa code 0..99 reduces without an exception and draws a symbol
      exactly from 27 up, except for 36..39. */
  lemma PastWeatherFromWawa(c: int)
    requires 0 <= c <= 99
    ensures var r := PastWeatherSymbol(Some(c as real), Some("group_wmo_wawa"));
      r.Ok? && (r.value.None? <==> c < 27 || 36 <= c < 40)
  {
    assert Trunc(c as real) == c;
    if 27 <= c < 30 {
      AliasesNeverDangle(Wawa, 27);
    } else if 30 <= c <= 35 {
      AliasesNeverDangle(Wawa, 33);
    } else if 40 <= c < 50 {
      AliasesNeverDangle(Wawa, 40);
    } else if c >= 50 {
      AliasesNeverDangle(W, c / 10);
    }
  }

  /** From 50 up a ww and a wawa code reduce to the same symbol, the W
      code of their decade, except ww 90 (reduced to showers, W 8). */
  lemma PastWeatherDecades(c: int)
    requires 50 <= c <= 99 && c != 90
    ensures PastWeatherSymbol(Some(c as real), Some("group_wmo_ww")) == PastWeatherSymbol(Some(c as real), Some("group_wmo_wawa"))
    ensures PastWeatherSymbol(Some(c as real), Some("group_wmo_ww")) == Ok(SymbolAt(W, c / 10))
  {
    assert Trunc(c as real) == c;
  }

  /** An untagged code indexes W_SYMBOLS directly: only -10..9 are inside. */
  lemma PastWeatherUntagged(c: int)
    ensures PastWeatherSymbol(Some(c as real), None).Ok? <==> -10 <= c < 10
  {
    assert Trunc(c as real) == c;
  }

  // ------------------------------------------------------------ wind

  /** One stroke of the barb at `offset` tenths along the staff: a full
      stroke is 10 knots, a half stroke 5. */
  datatype Stroke = Full(offset: real) | Half(offset: real)

  /** A wind barb: the direction it points from, whether it carries the
      50-knot pennant, and its strokes. */
  datatype WindBarb = WindBarb(direction: real, pennant: bool, strokes: seq<Stroke>)

  function StrokesValue(s: seq<Stroke>): nat {
    if s == [] then 0 else StrokesValue(s[..|s| - 1]) + (if s[|s| - 1].Full? then 10 else 5)
  }

  /** The knots a barb reads as. */
  function BarbValue(b: WindBarb): nat {
    (if b.pennant then 50 else 0) + StrokesValue(b.strokes)
  }

  /** `int(round(kph_to_knot(speed)/5, 0))`: the speed in steps of 5 knots;
      the unit conversion is a parameter. */
  function Steps(speed: real, knots: real -> real): int {
    RoundHalfEven(knots(speed) / 5.0)
  }

  /** What a barb for `kn` steps of 5 knots shows: the pennant from 10 steps
      on (only ever one), strokes worth the rest of the speed exactly, all
      full except possibly the last, one tenth of the staff apart, starting
      at the end of the staff or after the pennant; a lone half stroke sits
      one tenth in. A negative speed draws the bare staff. */
  predicate Encodes(b: WindBarb, kn: int) {
    var s := b.strokes;
    (b.pennant <==> kn >= 10) &&
    (kn > 0 ==> BarbValue(b) == 5 * kn) &&
    (kn < 0 ==> s == []) &&
    (forall k :: 0 <= k < |s| - 1 ==> s[k].Full?) &&
    (forall k :: 0 <= k < |s| - 1 ==> s[k + 1].offset == s[k].offset + 1.0) &&
    (kn == 1 ==> s == [Half(1.0)]) &&
    (kn != 1 && s != [] ==> s[0].offset == if kn >= 10 then 1.8 else 0.0)
  }

  /** The speed is given and rounds to a non-zero number of steps. */
  predicate WindDrawn(speed: Obs, knots: real -> real) {
    Raw(speed).Ok? && Raw(speed).value.Some? && Steps(Raw(speed).value.value, knots) != 0
  }

  /** `wind(windspeed, winddir, …)`: nothing without a speed, for calm or
      without a direction; otherwise the barb, built stroke by stroke. */
  method Wind(speed: Obs, direction: Obs, knots: real -> real) returns (r: Result<Option<WindBarb>>)
    ensures r == BarbOf(speed, direction, knots)
    ensures r.Err? <==> Raw(speed).Err? || (WindDrawn(speed, knots) && Raw(direction).Err?)
    ensures r.Err? ==> r.error == TypeError
    ensures (r.Ok? && r.value.Some?) <==>
      WindDrawn(speed, knots) && Raw(direction).Ok? && Raw(direction).value.Some?
    ensures r.Ok? && r.value.Some? ==>
      r.value.value.direction == Raw(direction).value.value &&
      Encodes(r.value.value, Steps(Raw(speed).value.value, knots))
  {
    var v := Raw(speed);
    if v.Err? {
      return Err(v.error);
    }
    if v.value.None? {
      return Ok(None);
    }
    var kn := Steps(v.value.value, knots);
    if kn == 0 {
      return Ok(None);
    }
    var d := Raw(direction);
    if d.Err? {
      return Err(d.error);
    }
    if d.value.None? {
      return Ok(None);
    }
    var strokes := BarbStrokes(kn);
    LaidEncodes(strokes, kn, d.value.value);
    return Ok(Some(WindBarb(d.value.value, kn >= 10, strokes)));
  }

  /** The number of strokes for `kn` steps: the steps left after the
      pennant, two per full stroke, rounded up. */
  function StrokeCount(kn: int): int {
    if kn >= 10 then (kn - 9) / 2 else (kn + 1) / 2
  }

  /** Where the first stroke sits: after the pennant, or at the end of the
      staff. */
  function FirstOffset(kn: int): real {
    if kn >= 10 then 1.8 else 0.0
  }

  /** The first `i` strokes the loop of `wind` lays for `kn` steps. */
  predicate LaidUpTo(s: seq<Stroke>, kn: int, i: nat) {
    |s| == i &&
    (forall k :: 0 <= k < i ==> s[k].offset == if kn == 1 then 1.0 else k as real + FirstOffset(kn)) &&
    (forall k :: 0 <= k < i ==> (s[k].Half? <==> k == StrokeCount(kn) - 1 && kn % 2 != 0)) &&
    StrokesValue(s) == 10 * i - (if 0 < i == StrokeCount(kn) && kn % 2 != 0 then 5 else 0)
  }

  /** All the strokes the loop of `wind` lays for `kn` steps. */
  predicate Laid(s: seq<Stroke>, kn: int) {
    LaidUpTo(s, kn, if StrokeCount(kn) < 0 then 0 else StrokeCount(kn))
  }

  /** The stroke loop of `wind`. */
  method BarbStrokes(kn: int) returns (strokes: seq<Stroke>)
    ensures Laid(strokes, kn) && strokes == StrokesOf(kn)
  {
    var pennant := kn >= 10;
    var kn2 := if pennant then (kn - 9) / 2 else (kn + 1) / 2;
    var ii0 := if pennant then 1.8 else 0.0;
    strokes := [];
    var ii := 0;
    while ii < kn2
      invariant 0 <= ii <= (if kn2 < 0 then 0 else kn2)
      invariant LaidUpTo(strokes, kn, ii)
    {
      var jj := if kn == 1 then 1.0 else ii as real + ii0;
      var s := if ii == kn2 - 1 && kn % 2 != 0 then Half(jj) else Full(jj);
      LaidStep(strokes, kn, ii, s);
      strokes := strokes + [s];
      ii := ii + 1;
    }
    LaidIsStrokesOf(strokes, kn);
  }

  /** One stroke more: a half stroke only as the last of an odd count. */
  lemma LaidStep(s: seq<Stroke>, kn: int, i: nat, x: Stroke)
    requires LaidUpTo(s, kn, i) && i < StrokeCount(kn)
    requires x.offset == if kn == 1 then 1.0 else i as real + FirstOffset(kn)
    requires x.Half? <==> i == StrokeCount(kn) - 1 && kn % 2 != 0
    ensures LaidUpTo(s + [x], kn, i + 1)
  {
    assert (s + [x])[..|s|] == s;
  }

  /** The strokes laid for a non-zero speed make up a barb of that speed. */
  lemma LaidEncodes(s: seq<Stroke>, kn: int, direction: real)
    requires kn != 0 && Laid(s, kn)
    ensures Encodes(WindBarb(direction, kn >= 10, s), kn)
  {
    var n := StrokeCount(kn);
    if kn == 1 {
      assert |s| == 1 && s[0].Half? && s[0].offset == 1.0;
      assert s == [Half(1.0)];
    }
    forall k | 0 <= k < |s| - 1
      ensures s[k].Full? && s[k + 1].offset == s[k].offset + 1.0
    {
    }
  }

  /** The stroke the loop of `wind` lays `k`-th for `kn` steps. */
  function StrokeAt(kn: int, k: int): Stroke {
    var offset := if kn == 1 then 1.0 else k as real + FirstOffset(kn);
    if k == StrokeCount(kn) - 1 && kn % 2 != 0 then Half(offset) else Full(offset)
  }

  /** All the strokes for `kn` steps, as one value. */
  function StrokesOf(kn: int): seq<Stroke> {
    seq(if StrokeCount(kn) < 0 then 0 else StrokeCount(kn), k => StrokeAt(kn, k))
  }

  /** `Laid` leaves no freedom: the strokes it admits are `StrokesOf`. */
  lemma LaidIsStrokesOf(s: seq<Stroke>, kn: int)
    requires Laid(s, kn)
    ensures s == StrokesOf(kn)
  {
    forall k | 0 <= k < |s|
      ensures s[k] == StrokeAt(kn, k)
    {
      if s[k].Half? {
        assert s[k] == Half(s[k].offset);
      } else {
        assert s[k] == Full(s[k].offset);
      }
    }
  }

  /** What `wind` returns, as a value: the exception, no barb, or the barb
      pointing from the direction with the pennant and the strokes for the
      speed's steps. */
  function BarbOf(speed: Obs, direction: Obs, knots: real -> real): Result<Option<WindBarb>> {
    match Raw(speed)
    case Err(e) => Err(e)
    case Ok(v) =>
      if v.None? || Steps(v.value, knots) == 0 then Ok(None)
      else
        match Raw(direction)
        case Err(e) => Err(e)
        case Ok(d) =>
          if d.None? then Ok(None)
          else
            var kn := Steps(v.value, knots);
            Ok(Some(WindBarb(d.value, kn >= 10, StrokesOf(kn))))
  }

  // ------------------------------------------------------------ station

  /** The ww, wawa and cloud cover given to the binder, and its other keyword
      arguments in the order they were passed. */
  datatype StationBinder = StationBinder(ww: Option<int>, wawa: Option<int>, nn: Option<int>, kwargs: seq<(string, Obs)>)

  /** One entry of `els`. */
  datatype Element =
    | Symbol(svg: Svg, pixels: int, colour: Option<string>, x: real, y: real)
    | Barb(id: string, barb: WindBarb)
    | PressureSymbol(x: real, y: real, size: real, arg: TendencyArg)
    | Text(x: real, y: real, size: real, id: string, text: string, title: string)

  /** An element with the rectangle it was given in the preset. */
  datatype Placed = Placed(element: Element, region: Box)

  /** The view box and the elements of the SVG, in drawing order. */
  datatype Drawing = Drawing(box: Box, elements: seq<Placed>)

  /** The slot of OKTA_SYMBOLS the cloud symbol is taken from: the cover in
      whole okta, counted from the end when negative as Python indexing
      does, and the "missing" slot 10 when the cover is None or too large. */
  function CloudSlot(nn: Option<int>): (i: nat)
    ensures i < 11
  {
    if nn.None? then 10
    else
      match PyIndex(11, Binder.OktaOf(nn.value))
      case None => 10
      case Some(i) => i
  }

  /** A cover of 0..100 % draws its okta; a negative one wraps around to the
      end of the table (-50 % draws 4 okta from the end, slot 7); past about
      131 % the index fails and slot 10 is drawn. */
  lemma CloudSlotCases(nn: int)
    ensures 0 <= nn <= 100 ==> CloudSlot(Some(nn)) == Binder.OktaOf(nn) <= 8
    ensures CloudSlot(Some(-50)) == 7 && CloudSlot(Some(132)) == 10 && CloudSlot(None) == 10
  {
    Binder.OktaNearest(nn);
    assert Binder.OktaOf(-50) == -4;
    assert Binder.OktaOf(132) == 11;
  }

  /** `els[0]`: the cloud symbol at its size, colour and position. */
  function CloudElement(nn: Option<int>, l: Layout, w: int, tint: Option<string>): Placed {
    Placed(Symbol(Svg(Okta, CloudSlot(nn)), w, tint, l.n.x * w as real, l.n.y * w as real), Scaled(l.n, w))
  }

  /** The present-weather symbol: the ww code's if one is given, else the
      wawa code's; a failing lookup draws nothing. */
  function PresentWeatherSymbol(ww: Option<int>, wawa: Option<int>): (s: Option<Svg>)
    ensures ww.Some? && 0 <= ww.value < 100 ==> s == Some(Svg(Ww, ww.value))
    ensures ww.Some? && !(-100 <= ww.value < 100) ==> s.None?
  {
    var r := if ww.Some? then Lookup(4677, ww) else if wawa.Some? then Lookup(4680, wawa) else Ok(None);
    if r.Ok? then r.value else None
  }

  /** The exception a keyword argument makes `station` raise, if any. */
  function ItemError(l: Layout, round: bool, item: (string, Obs)): Option<PyError> {
    var (obs, val) := item;
    if obs in {"outTemp", "TTT", "TT", "dewpoint", "TdTdTd", "Td"} then
      var t := ToCelsius(val, round);
      if t.Err? then Some(t.error) else None
    else if obs == "visibility" then
      var v := VisibilityText(val);
      if v.Err? then Some(v.error) else None
    else if obs in {"W1", "W2", "W1W2"} then
      if FormatKey(l, obs).None? then Some(KeyError)
      else
        var arg := PastWeatherArg(val);
        var s := PastWeatherSymbol(arg.0, arg.1);
        if s.Err? then Some(s.error) else None
    else None
  }

  /** The exception the wind barb makes `station` raise, if any. */
  function WindError(kwargs: seq<(string, Obs)>, knots: real -> real): Option<PyError> {
    var speed, dir := Get(kwargs, "windSpeed"), Get(kwargs, "windDir");
    if speed.None? || dir.None? then None
    else if Raw(speed.value).Err? then Some(Raw(speed.value).error)
    else if WindDrawn(speed.value, knots) && Raw(dir.value).Err? then Some(Raw(dir.value).error)
    else None
  }

  /** What holds between passes of the loop over the keyword arguments: the
      row in hand is one of the preset's, the box lies within the preset's
      extent and holds every element drawn so far. */
  predicate Framed(l: Layout, w: int, obsfmt: Option<Placement>, box: Box, els: seq<Placed>) {
    (obsfmt.Some? ==> obsfmt.value in Placements(l)) && Within(box, Extent(l, w)) &&
    forall k :: 0 <= k < |els| ==> Within(els[k].region, box)
  }

  /** A pass only adds: the box grows and the elements drawn before stay. */
  predicate Extends(box: Box, els: seq<Placed>, box': Box, els': seq<Placed>) {
    Within(box, box') && |els| <= |els'| && els'[..|els|] == els
  }

  // ------------------------------------------------------------ the drawing as a value

  /** What the loop of `station` carries from pass to pass: the row in hand,
      the box and the elements drawn so far. */
  datatype Pass = Pass(obsfmt: Option<Placement>, box: Box, els: seq<Placed>)

  /** `els.append(e)` for an element in row `p`, with the box widened by
      that row; the row in hand stays. */
  function Put(w: int, p: Placement, e: Element, s: Pass): Pass {
    Pass(s.obsfmt, Widen(s.box, Scaled(p, w)), s.els + [Placed(e, Scaled(p, w))])
  }

  /** The barometer branch: the coded pressure as text in the PPPP row, the
      coded difference in the ppp row, and for a span without an `a`
      argument the tendency symbol in the a row; each puts its row in hand. */
  function BarometerOf(l: Layout, w: int, idPrefix: string, hasA: bool, val: Obs, s: Pass): Pass {
    var coded := ToCodedMbar(val);
    var s1 := if coded.0 == "" then s else PutIn(w, l.pppp, SmallText(l.pppp, w, idPrefix + "_PPPP", coded.0, "PPPP"), s);
    var s2 := if coded.1 == "" then s1 else PutIn(w, l.ppp, SmallText(l.ppp, w, idPrefix + "_ppp", coded.1, "ppp"), s1);
    if val.Span? && !hasA then PutIn(w, l.a, TendencySymbol(l.a, w, val), s2) else s2
  }

  /** `Put`, with the row `p` put in hand. */
  function PutIn(w: int, p: Placement, e: Element, s: Pass): Pass {
    Put(w, p, e, s).(obsfmt := Some(p))
  }

  /** A text at the point of row `p`, in the small font of 0.4 widths. */
  function SmallText(p: Placement, w: int, id: string, text: string, title: string): Element {
    Text(p.x * w as real, p.y * w as real, w as real * 0.4, id, text, title)
  }

  /** The pressure tendency symbol at the point and size of row `p`. */
  function TendencySymbol(p: Placement, w: int, val: Obs): Element {
    PressureSymbol(p.x * w as real, p.y * w as real, p.size * w as real, TendencyArgOf(val))
  }

  /** What a keyword argument other than the barometer puts in hand and
      draws, or the exception it raises: the temperature and the dew point
      as `to_celsius` text, the visibility as its code, W1 and W2 as the
      symbol of their past weather (nothing where the reduction gives none),
      and for any other argument no row at all. */
  function ArgumentElement(l: Layout, w: int, round: bool, tint: Option<string>, idPrefix: string,
                           obs: string, val: Obs): (r: Result<(Option<Placement>, Option<Element>)>)
    ensures ItemError(l, round, (obs, val)) == if r.Err? then Some(r.error) else None
    ensures r.Ok? && r.value.0.Some? ==> r.value.0.value in Placements(l)
    ensures r.Ok? && r.value.1.Some? ==> r.value.0.Some?
  {
    var size := w as real * 0.4;
    if obs in {"outTemp", "TTT", "TT"} then
      match ToCelsius(val, round)
      case Err(e) => Err(e)
      case Ok(t) => Ok((Some(l.ttt), Some(Text(l.ttt.x * w as real, l.ttt.y * w as real, size, idPrefix + "_" + obs, t, "TTT"))))
    else if obs in {"dewpoint", "TdTdTd", "Td"} then
      match ToCelsius(val, round)
      case Err(e) => Err(e)
      case Ok(t) => Ok((Some(l.td), Some(Text(l.td.x * w as real, l.td.y * w as real, size, idPrefix + "_" + obs, t, "Td"))))
    else if obs == "visibility" then
      match VisibilityText(val)
      case Err(e) => Err(e)
      case Ok(v) => Ok((Some(l.vv), Some(Text(l.vv.x * w as real, l.vv.y * w as real, size, idPrefix + "_VV", v, "VV"))))
    else if obs in {"W1", "W2", "W1W2"} then
      match FormatKey(l, obs)
      case None => Err(KeyError)
      case Some(q) =>
        var arg := PastWeatherArg(val);
        match PastWeatherSymbol(arg.0, arg.1)
        case Err(e) => Err(e)
        case Ok(sym) =>
          Ok((Some(q), if sym.None? then None
                       else Some(Symbol(sym.value, Trunc(q.size * w as real), tint, Trunc(q.x * w as real) as real, Trunc(q.y * w as real) as real))))
    else Ok((None, None))
  }

  /** The trailing `if obsfmt:` of a pass: the box widens by the row in hand
      and the element drawn, if any, goes in that row. */
  function PlaceOf(w: int, drawn: Option<Element>, s: Pass): Pass {
    if s.obsfmt.None? then s
    else if drawn.Some? then Put(w, s.obsfmt.value, drawn.value, s)
    else s.(box := Widen(s.box, Scaled(s.obsfmt.value, w)))
  }

  /** One pass of the loop over the keyword arguments. */
  function ArgumentOf(l: Layout, w: int, round: bool, tint: Option<string>, idPrefix: string, hasA: bool,
                      obs: string, val: Obs, s: Pass): Result<Pass> {
    if obs in {"barometer", "PPPP"} then Ok(PlaceOf(w, None, BarometerOf(l, w, idPrefix, hasA, val, s)))
    else
      match ArgumentElement(l, w, round, tint, idPrefix, obs, val)
      case Err(e) => Err(e)
      case Ok(pe) => Ok(PlaceOf(w, pe.1, s.(obsfmt := pe.0)))
  }

  /** The passes over the keyword arguments `kw` in order, stopping at the
      first exception. */
  function PassesOf(l: Layout, w: int, round: bool, tint: Option<string>, idPrefix: string, hasA: bool,
                    kw: seq<(string, Obs)>, s: Pass): Result<Pass>
    decreases |kw|
  {
    if kw == [] then Ok(s)
    else
      match PassesOf(l, w, round, tint, idPrefix, hasA, kw[..|kw| - 1], s)
      case Err(e) => Err(e)
      case Ok(t) => ArgumentOf(l, w, round, tint, idPrefix, hasA, kw[|kw| - 1].0, kw[|kw| - 1].1, t)
  }

  /** The wind barb, when both wind arguments are given and `wind` draws
      one, widening the box by the wind margin. */
  function WindPassOf(kw: seq<(string, Obs)>, w: int, idPrefix: string, knots: real -> real, s: Pass): Result<Pass> {
    var speed, dir := Get(kw, "windSpeed"), Get(kw, "windDir");
    if speed.None? || dir.None? then Ok(s)
    else
      match BarbOf(speed.value, dir.value, knots)
      case Err(e) => Err(e)
      case Ok(barb) =>
        if barb.None? then Ok(s)
        else Ok(s.(box := Widen(s.box, WindBox(w)), els := s.els + [Placed(Barb(idPrefix + "_wind", barb.value), WindBox(w))]))
  }

  /** What `station` draws before its loop: the cloud symbol in the n row
      (which starts the box), the present-weather symbol in the ww row, the
      wind barb, and the tendency symbol for an `a` argument that is not
      None; an `a` argument puts the a row in hand even when it is None. */
  function FixedOf(b: StationBinder, l: Layout, w: int, tint: Option<string>, idPrefix: string, knots: real -> real): Result<Pass> {
    match WindPassOf(b.kwargs, w, idPrefix, knots, OpeningOf(b, l, w, tint))
    case Err(e) => Err(e)
    case Ok(s) => Ok(TendencyPassOf(b.kwargs, l, w, s))
  }

  /** The cloud symbol, which starts the box in the n row, and the
      present-weather symbol in the ww row; the n row is in hand. */
  function OpeningOf(b: StationBinder, l: Layout, w: int, tint: Option<string>): Pass {
    var s := Pass(Some(l.n), Scaled(l.n, w), [CloudElement(b.nn, l, w, tint)]);
    var pw := PresentWeatherSymbol(b.ww, b.wawa);
    if pw.None? then s else Put(w, l.ww, PresentWeatherElement(pw.value, l, w, tint), s)
  }

  /** The present-weather symbol at the size and point of the ww row. */
  function PresentWeatherElement(svg: Svg, l: Layout, w: int, tint: Option<string>): Element {
    Symbol(svg, Trunc(l.ww.size * w as real), tint, l.ww.x * w as real, l.ww.y * w as real)
  }

  /** The `a` argument: its tendency symbol in the a row unless it is None;
      either way the a row is in hand. */
  function TendencyPassOf(kw: seq<(string, Obs)>, l: Layout, w: int, s: Pass): Pass {
    var a := Get(kw, "a");
    if a.None? then s
    else if a.value == Missing then s.(obsfmt := Some(l.a))
    else PutIn(w, l.a, TendencySymbol(l.a, w, a.value), s)
  }

  /** The drawing `station` makes in preset `l` at width `w`, as a value. */
  function DrawingOf(b: StationBinder, l: Layout, w: int, round: bool, tint: Option<string>, idPrefix: string,
                     knots: real -> real): Result<Drawing> {
    match FixedOf(b, l, w, tint, idPrefix, knots)
    case Err(e) => Err(e)
    case Ok(s) =>
      match PassesOf(l, w, round, tint, idPrefix, Get(b.kwargs, "a").Some?, b.kwargs, s)
      case Err(e) => Err(e)
      case Ok(t) => Ok(Drawing(t.box, t.els))
  }

  /** An exception in one pass ends the loop: the later passes do not run. */
  lemma {:induction false} PassesStop(l: Layout, w: int, round: bool, tint: Option<string>, idPrefix: string, hasA: bool,
                                      kw: seq<(string, Obs)>, i: nat, s: Pass)
    requires i <= |kw| && PassesOf(l, w, round, tint, idPrefix, hasA, kw[..i], s).Err?
    ensures PassesOf(l, w, round, tint, idPrefix, hasA, kw, s) == PassesOf(l, w, round, tint, idPrefix, hasA, kw[..i], s)
    decreases |kw|
  {
    if i < |kw| {
      var front := kw[..|kw| - 1];
      assert front[..i] == kw[..i];
      PassesStop(l, w, round, tint, idPrefix, hasA, front, i, s);
    } else {
      assert kw[..i] == kw;
    }
  }

  /** Passes that all complete met no argument that raises. */
  lemma {:induction false} PassesRaiseNothing(l: Layout, w: int, round: bool, tint: Option<string>, idPrefix: string, hasA: bool,
                                              kw: seq<(string, Obs)>, s: Pass)
    requires PassesOf(l, w, round, tint, idPrefix, hasA, kw, s).Ok?
    ensures forall k :: 0 <= k < |kw| ==> ItemError(l, round, kw[k]).None?
    decreases |kw|
  {
    if kw != [] {
      var front, last := kw[..|kw| - 1], kw[|kw| - 1];
      PassesRaiseNothing(l, w, round, tint, idPrefix, hasA, front, s);
      var t := PassesOf(l, w, round, tint, idPrefix, hasA, front, s).value;
      assert ArgumentOf(l, w, round, tint, idPrefix, hasA, last.0, last.1, t).Ok?;
      forall k | 0 <= k < |kw|
        ensures ItemError(l, round, kw[k]).None?
      {
        if k < |kw| - 1 {
          assert kw[k] == front[k];
        }
      }
    }
  }

  // ------------------------------------------------------------ the box is a hull

  /** `b` widened by `rows`, one after the other. */
  function WidenAll(b: Box, rows: seq<Box>): Box
    decreases |rows|
  {
    if rows == [] then b else Widen(WidenAll(b, rows[..|rows| - 1]), rows[|rows| - 1])
  }

  lemma {:induction false} WidenAllHolds(b: Box, rows: seq<Box>)
    ensures Within(b, WidenAll(b, rows))
    ensures forall k :: 0 <= k < |rows| ==> Within(rows[k], WidenAll(b, rows))
    decreases |rows|
  {
    if rows != [] {
      var front := rows[..|rows| - 1];
      WidenAllHolds(b, front);
      forall k | 0 <= k < |rows| - 1
        ensures Within(rows[k], WidenAll(b, rows))
      {
        assert rows[k] == front[k];
      }
    }
  }

  lemma {:induction false} WidenAllLeast(b: Box, rows: seq<Box>, c: Box)
    requires Within(b, c) && forall k :: 0 <= k < |rows| ==> Within(rows[k], c)
    ensures Within(WidenAll(b, rows), c)
    decreases |rows|
  {
    if rows != [] {
      var front := rows[..|rows| - 1];
      assert forall k :: 0 <= k < |front| ==> front[k] == rows[k];
      WidenAllLeast(b, front, c);
    }
  }

  /** Widening by one row after another ends in the hull of the first box
      and the rows, whatever their order. */
  lemma WidenAllIsHull(b: Box, rows: seq<Box>)
    ensures WidenAll(b, rows) == Hull([b] + rows)
  {
    var all := [b] + rows;
    var u, h := WidenAll(b, rows), Hull(all);
    WidenAllHolds(b, rows);
    assert forall k :: 0 <= k < |rows| ==> rows[k] == all[k + 1];
    HullLeast(all, u);
    assert all[0] == b;
    WidenAllLeast(b, rows, h);
  }

  /** `box` is `b0` widened by `rows`, each the wind margin or a row of the
      preset. */
  predicate Grown(l: Layout, w: int, b0: Box, box: Box, rows: seq<Box>) {
    box == WidenAll(b0, rows) && forall k :: 0 <= k < |rows| ==> rows[k] in Rows(l, w)
  }

  /** The row in hand, if any, is one of the preset's. */
  predicate InHand(l: Layout, obsfmt: Option<Placement>) {
    obsfmt.Some? ==> obsfmt.value in Placements(l)
  }

  lemma GrownStep(l: Layout, w: int, b0: Box, box: Box, rows: seq<Box>, r: Box)
    requires Grown(l, w, b0, box, rows) && r in Rows(l, w)
    ensures Grown(l, w, b0, Widen(box, r), rows + [r])
  {
    assert (rows + [r])[..|rows|] == rows;
  }

  lemma PutGrown(l: Layout, w: int, b0: Box, rows: seq<Box>, p: Placement, e: Element, s: Pass)
    requires Grown(l, w, b0, s.box, rows) && p in Placements(l)
    ensures Grown(l, w, b0, Put(w, p, e, s).box, rows + [Scaled(p, w)])
  {
    PlacementInExtent(l, w, p);
    GrownStep(l, w, b0, s.box, rows, Scaled(p, w));
  }

  lemma BarometerGrown(l: Layout, w: int, idPrefix: string, hasA: bool, val: Obs, s: Pass, b0: Box, rows: seq<Box>)
    returns (rows': seq<Box>)
    requires Grown(l, w, b0, s.box, rows) && InHand(l, s.obsfmt)
    ensures var t := BarometerOf(l, w, idPrefix, hasA, val, s); Grown(l, w, b0, t.box, rows') && InHand(l, t.obsfmt)
  {
    var coded := ToCodedMbar(val);
    var s1, r1 := s, rows;
    if coded.0 != "" {
      var e := SmallText(l.pppp, w, idPrefix + "_PPPP", coded.0, "PPPP");
      PutGrown(l, w, b0, r1, l.pppp, e, s1);
      s1, r1 := PutIn(w, l.pppp, e, s1), r1 + [Scaled(l.pppp, w)];
    }
    var s2, r2 := s1, r1;
    if coded.1 != "" {
      var e := SmallText(l.ppp, w, idPrefix + "_ppp", coded.1, "ppp");
      PutGrown(l, w, b0, r2, l.ppp, e, s2);
      s2, r2 := PutIn(w, l.ppp, e, s2), r2 + [Scaled(l.ppp, w)];
    }
    rows' := r2;
    if val.Span? && !hasA {
      PutGrown(l, w, b0, r2, l.a, TendencySymbol(l.a, w, val), s2);
      rows' := r2 + [Scaled(l.a, w)];
    }
  }

  lemma PlaceGrown(l: Layout, w: int, drawn: Option<Element>, s: Pass, b0: Box, rows: seq<Box>) returns (rows': seq<Box>)
    requires Grown(l, w, b0, s.box, rows) && InHand(l, s.obsfmt)
    ensures Grown(l, w, b0, PlaceOf(w, drawn, s).box, rows') && PlaceOf(w, drawn, s).obsfmt == s.obsfmt
  {
    rows' := rows;
    if s.obsfmt.Some? {
      var p := s.obsfmt.value;
      PlacementInExtent(l, w, p);
      GrownStep(l, w, b0, s.box, rows, Scaled(p, w));
      rows' := rows + [Scaled(p, w)];
    }
  }

  lemma ArgumentGrown(l: Layout, w: int, round: bool, tint: Option<string>, idPrefix: string, hasA: bool,
                      obs: string, val: Obs, s: Pass, b0: Box, rows: seq<Box>) returns (rows': seq<Box>)
    requires Grown(l, w, b0, s.box, rows) && InHand(l, s.obsfmt)
    requires ArgumentOf(l, w, round, tint, idPrefix, hasA, obs, val, s).Ok?
    ensures var t := ArgumentOf(l, w, round, tint, idPrefix, hasA, obs, val, s).value;
      Grown(l, w, b0, t.box, rows') && InHand(l, t.obsfmt)
  {
    if obs in {"barometer", "PPPP"} {
      var r1 := BarometerGrown(l, w, idPrefix, hasA, val, s, b0, rows);
      rows' := PlaceGrown(l, w, None, BarometerOf(l, w, idPrefix, hasA, val, s), b0, r1);
    } else {
      var pe := ArgumentElement(l, w, round, tint, idPrefix, obs, val).value;
      rows' := PlaceGrown(l, w, pe.1, s.(obsfmt := pe.0), b0, rows);
    }
  }

  lemma {:induction false} PassesGrown(l: Layout, w: int, round: bool, tint: Option<string>, idPrefix: string, hasA: bool,
                                       kw: seq<(string, Obs)>, s: Pass, b0: Box, rows: seq<Box>) returns (rows': seq<Box>)
    requires Grown(l, w, b0, s.box, rows) && InHand(l, s.obsfmt)
    requires PassesOf(l, w, round, tint, idPrefix, hasA, kw, s).Ok?
    ensures var t := PassesOf(l, w, round, tint, idPrefix, hasA, kw, s).value;
      Grown(l, w, b0, t.box, rows') && InHand(l, t.obsfmt)
    decreases |kw|
  {
    if kw == [] {
      rows' := rows;
    } else {
      var front := kw[..|kw| - 1];
      var r1 := PassesGrown(l, w, round, tint, idPrefix, hasA, front, s, b0, rows);
      var t := PassesOf(l, w, round, tint, idPrefix, hasA, front, s).value;
      rows' := ArgumentGrown(l, w, round, tint, idPrefix, hasA, kw[|kw| - 1].0, kw[|kw| - 1].1, t, b0, r1);
    }
  }

  lemma FixedGrown(b: StationBinder, l: Layout, w: int, tint: Option<string>, idPrefix: string, knots: real -> real)
    returns (rows: seq<Box>)
    requires FixedOf(b, l, w, tint, idPrefix, knots).Ok?
    ensures var t := FixedOf(b, l, w, tint, idPrefix, knots).value;
      Grown(l, w, Scaled(l.n, w), t.box, rows) && InHand(l, t.obsfmt)
  {
    var b0 := Scaled(l.n, w);
    var s := OpeningOf(b, l, w, tint);
    rows := [];
    var pw := PresentWeatherSymbol(b.ww, b.wawa);
    if pw.Some? {
      PutGrown(l, w, b0, [], l.ww, PresentWeatherElement(pw.value, l, w, tint), Pass(Some(l.n), b0, [CloudElement(b.nn, l, w, tint)]));
      rows := [Scaled(l.ww, w)];
    }
    assert l.n in Placements(l);
    var t := WindPassOf(b.kwargs, w, idPrefix, knots, s).value;
    var speed, dir := Get(b.kwargs, "windSpeed"), Get(b.kwargs, "windDir");
    if speed.Some? && dir.Some? && BarbOf(speed.value, dir.value, knots).value.Some? {
      WindInExtent(l, w);
      GrownStep(l, w, b0, s.box, rows, WindBox(w));
      rows := rows + [WindBox(w)];
    }
    var a := Get(b.kwargs, "a");
    if a.Some? && a.value != Missing {
      PutGrown(l, w, b0, rows, l.a, TendencySymbol(l.a, w, a.value), t);
      rows := rows + [Scaled(l.a, w)];
    }
  }

  /** The view box of every drawing is exactly the hull of the cloud
      symbol's row and the rows the drawing widened by, each a row of the
      preset or the wind margin: the box starts as the n row and grows
      only by min/max unions with rows. */
  lemma DrawingHull(b: StationBinder, l: Layout, w: int, round: bool, tint: Option<string>, idPrefix: string,
                    knots: real -> real) returns (rows: seq<Box>)
    requires DrawingOf(b, l, w, round, tint, idPrefix, knots).Ok?
    ensures forall k :: 0 <= k < |rows| ==> rows[k] in Rows(l, w)
    ensures DrawingOf(b, l, w, round, tint, idPrefix, knots).value.box == Hull([Scaled(l.n, w)] + rows)
  {
    var r1 := FixedGrown(b, l, w, tint, idPrefix, knots);
    var s := FixedOf(b, l, w, tint, idPrefix, knots).value;
    rows := PassesGrown(l, w, round, tint, idPrefix, Get(b.kwargs, "a").Some?, b.kwargs, s, Scaled(l.n, w), r1);
    WidenAllIsHull(Scaled(l.n, w), rows);
  }

  // ------------------------------------------------------------ the drawing's methods

  /** `box` widened by the row `p`, with `e` drawn in it. */
  method Add(l: Layout, w: int, p: Placement, e: Element, obsfmt: Option<Placement>, box: Box, els: seq<Placed>)
    returns (box': Box, els': seq<Placed>)
    requires p in Placements(l) && Framed(l, w, obsfmt, box, els)
    ensures Framed(l, w, Some(p), box', els') && Extends(box, els, box', els')
    ensures Pass(obsfmt, box', els') == Put(w, p, e, Pass(obsfmt, box, els))
  {
    PlacementInExtent(l, w, p);
    box' := Widen(box, Scaled(p, w));
    els' := els + [Placed(e, Scaled(p, w))];
    assert els'[..|els|] == els;
  }

  /** The barometer branch: the coded pressure and, for a span, the coded
      difference, each widening the box by its row; a span also draws the
      tendency symbol when no `a` argument drew it. */
  method DrawBarometer(l: Layout, w: int, idPrefix: string, hasA: bool, val: Obs,
                       obsfmt: Option<Placement>, box: Box, els: seq<Placed>)
    returns (obsfmt': Option<Placement>, box': Box, els': seq<Placed>)
    requires Framed(l, w, obsfmt, box, els)
    ensures Pass(obsfmt', box', els') == BarometerOf(l, w, idPrefix, hasA, val, Pass(obsfmt, box, els))
    ensures Framed(l, w, obsfmt', box', els') && Extends(box, els, box', els')
  {
    obsfmt', box', els' := obsfmt, box, els;
    assert els[..|els|] == els;
    var coded := ToCodedMbar(val);
    ghost var s1 := if coded.0 == "" then Pass(obsfmt, box, els)
      else PutIn(w, l.pppp, SmallText(l.pppp, w, idPrefix + "_PPPP", coded.0, "PPPP"), Pass(obsfmt, box, els));
    if coded.0 != "" {
      box', els' := Add(l, w, l.pppp, SmallText(l.pppp, w, idPrefix + "_PPPP", coded.0, "PPPP"), obsfmt', box', els');
      obsfmt' := Some(l.pppp);
    }
    assert Pass(obsfmt', box', els') == s1;
    ghost var box1, els1 := box', els';
    ghost var s2 := if coded.1 == "" then s1
      else PutIn(w, l.ppp, SmallText(l.ppp, w, idPrefix + "_ppp", coded.1, "ppp"), s1);
    if coded.1 != "" {
      box', els' := Add(l, w, l.ppp, SmallText(l.ppp, w, idPrefix + "_ppp", coded.1, "ppp"), obsfmt', box', els');
      obsfmt' := Some(l.ppp);
    }
    assert Pass(obsfmt', box', els') == s2;
    ExtendsTrans(box, els, box1, els1, box', els');
    ghost var box2, els2 := box', els';
    if val.Span? && !hasA {
      box', els' := Add(l, w, l.a, TendencySymbol(l.a, w, val), obsfmt', box', els');
      obsfmt' := Some(l.a);
    }
    ExtendsTrans(box, els, box2, els2, box', els');
  }

  /** One pass of the loop over the keyword arguments: the element drawn for
      `obs = val`, if any, and the row `obsfmt` that then widens the box.
      The row carries over from the previous pass when a barometer entry
      draws nothing. Fails exactly as `ItemError` says; otherwise the box
      only grows, stays within the preset's extent, and still holds every
      element, old and new. */
  method DrawArgument(l: Layout, w: int, round: bool, tint: Option<string>, idPrefix: string, hasA: bool,
                      obs: string, val: Obs, obsfmt: Option<Placement>, box: Box, els: seq<Placed>)
    returns (err: Option<PyError>, obsfmt': Option<Placement>, box': Box, els': seq<Placed>)
    requires Framed(l, w, obsfmt, box, els)
    ensures err == ItemError(l, round, (obs, val))
    ensures ArgumentOf(l, w, round, tint, idPrefix, hasA, obs, val, Pass(obsfmt, box, els)) ==
      if err.Some? then Err(err.value) else Ok(Pass(obsfmt', box', els'))
    ensures err.None? ==> Framed(l, w, obsfmt', box', els') && Extends(box, els, box', els')
  {
    obsfmt', box', els' := obsfmt, box, els;
    assert els[..|els|] == els;
    err := None;
    var drawn: Option<Element> := None;
    if obs in {"barometer", "PPPP"} {
      obsfmt', box', els' := DrawBarometer(l, w, idPrefix, hasA, val, obsfmt, box, els);
    } else {
      var pe := ArgumentElement(l, w, round, tint, idPrefix, obs, val);
      if pe.Err? {
        return Some(pe.error), obsfmt', box', els';
      }
      obsfmt', drawn := pe.value.0, pe.value.1;
    }
    ghost var midBox, midEls := box', els';
    box', els' := Place(l, w, obsfmt', drawn, box', els');
    ExtendsTrans(box, els, midBox, midEls, box', els');
  }

  /** The trailing `if obsfmt:` of the loop: it widens the box by the row
      in hand, and a drawn element lies in that row. */
  method Place(l: Layout, w: int, obsfmt: Option<Placement>, drawn: Option<Element>, box: Box, els: seq<Placed>)
    returns (box': Box, els': seq<Placed>)
    requires Framed(l, w, obsfmt, box, els)
    ensures Pass(obsfmt, box', els') == PlaceOf(w, drawn, Pass(obsfmt, box, els))
    ensures Framed(l, w, obsfmt, box', els') && Extends(box, els, box', els')
  {
    box', els' := box, els;
    assert els[..|els|] == els;
    if obsfmt.Some? {
      if drawn.Some? {
        box', els' := Add(l, w, obsfmt.value, drawn.value, obsfmt, box, els);
      } else {
        PlacementInExtent(l, w, obsfmt.value);
        box' := Widen(box, Scaled(obsfmt.value, w));
      }
    }
  }

  lemma ExtendsTrans(box0: Box, els0: seq<Placed>, box1: Box, els1: seq<Placed>, box2: Box, els2: seq<Placed>)
    requires Extends(box0, els0, box1, els1) && Extends(box1, els1, box2, els2)
    ensures Extends(box0, els0, box2, els2)
  {
    assert els2[..|els0|] == els2[..|els1|][..|els0|];
  }

  /** The wind barb, drawn when both wind arguments are given and `wind`
      draws one; it widens the box by the wind margin. */
  method DrawWind(kw: seq<(string, Obs)>, l: Layout, w: int, idPrefix: string, knots: real -> real,
                  obsfmt: Option<Placement>, box: Box, els: seq<Placed>)
    returns (err: Option<PyError>, box': Box, els': seq<Placed>)
    requires Framed(l, w, obsfmt, box, els)
    ensures err == WindError(kw, knots)
    ensures WindPassOf(kw, w, idPrefix, knots, Pass(obsfmt, box, els)) ==
      if err.Some? then Err(err.value) else Ok(Pass(obsfmt, box', els'))
    ensures err.None? ==> Framed(l, w, obsfmt, box', els') && Extends(box, els, box', els')
  {
    err, box', els' := None, box, els;
    assert els[..|els|] == els;
    var speed, dir := Get(kw, "windSpeed"), Get(kw, "windDir");
    if dir.Some? && speed.Some? {
      var barb := Wind(speed.value, dir.value, knots);
      if barb.Err? {
        return Some(barb.error), box', els';
      }
      if barb.value.Some? {
        WindInExtent(l, w);
        box' := Widen(box, WindBox(w));
        els' := els + [Placed(Barb(idPrefix + "_wind", barb.value.value), WindBox(w))];
        assert els'[..|els|] == els;
      }
    }
  }

  /** The elements `station` draws before its loop: the cloud symbol, the
      present-weather symbol, the wind barb when both wind arguments are
      given, and the tendency symbol for an `a` argument that is not None.
      An `a` argument sets the row in hand even when it is None. */
  method DrawFixed(b: StationBinder, l: Layout, w: int, tint: Option<string>, idPrefix: string, knots: real -> real)
    returns (err: Option<PyError>, obsfmt: Option<Placement>, box: Box, els: seq<Placed>)
    ensures err == WindError(b.kwargs, knots)
    ensures FixedOf(b, l, w, tint, idPrefix, knots) == if err.Some? then Err(err.value) else Ok(Pass(obsfmt, box, els))
    ensures err.None? ==>
      Within(Scaled(l.n, w), box) && Framed(l, w, obsfmt, box, els) &&
      |els| >= 1 && els[0] == CloudElement(b.nn, l, w, tint)
    ensures err.None? && PresentWeatherSymbol(b.ww, b.wawa).Some? ==>
      |els| >= 2 &&
      els[1] == Placed(PresentWeatherElement(PresentWeatherSymbol(b.ww, b.wawa).value, l, w, tint), Scaled(l.ww, w))
  {
    obsfmt, box, els := DrawOpening(b, l, w, tint);
    var head := els;
    err, box, els := DrawWind(b.kwargs, l, w, idPrefix, knots, obsfmt, box, els);
    if err.Some? {
      return;
    }
    var before := els;
    obsfmt, box, els := DrawTendency(b.kwargs, l, w, obsfmt, box, els);
    assert els[..|head|] == before[..|head|];
    assert els[..|head|][0] == els[0];
    assert |head| >= 2 ==> els[..|head|][1] == els[1];
  }

  /** The cloud cover symbol, which is always drawn and starts the box, and
      the present-weather symbol. */
  method DrawOpening(b: StationBinder, l: Layout, w: int, tint: Option<string>)
    returns (obsfmt: Option<Placement>, box: Box, els: seq<Placed>)
    ensures Pass(obsfmt, box, els) == OpeningOf(b, l, w, tint)
    ensures Within(Scaled(l.n, w), box) && Framed(l, w, obsfmt, box, els)
  {
    obsfmt := Some(l.n);
    box := Scaled(l.n, w);
    els := [CloudElement(b.nn, l, w, tint)];
    PlacementInExtent(l, w, l.n);
    var pw := PresentWeatherSymbol(b.ww, b.wawa);
    if pw.Some? {
      box, els := Add(l, w, l.ww, PresentWeatherElement(pw.value, l, w, tint), obsfmt, box, els);
    }
  }

  /** The pressure tendency symbol of an `a` argument. */
  method DrawTendency(kw: seq<(string, Obs)>, l: Layout, w: int, obsfmt: Option<Placement>, box: Box, els: seq<Placed>)
    returns (obsfmt': Option<Placement>, box': Box, els': seq<Placed>)
    requires Framed(l, w, obsfmt, box, els)
    ensures Pass(obsfmt', box', els') == TendencyPassOf(kw, l, w, Pass(obsfmt, box, els))
    ensures Framed(l, w, obsfmt', box', els') && Extends(box, els, box', els')
  {
    obsfmt', box', els' := obsfmt, box, els;
    assert els[..|els|] == els;
    var a := Get(kw, "a");
    if a.Some? {
      if a.value != Missing {
        box', els' := Add(l, w, l.a, TendencySymbol(l.a, w, a.value), obsfmt, box, els);
      }
      obsfmt' := Some(l.a);
    }
  }

  /** The drawing `station` makes in preset `l` at width `w`. It starts with
      the cloud symbol and its box; each element added widens the box by its
      row of the preset, so the box always holds the cloud symbol and every
      element drawn, and never exceeds the preset's extent. It fails exactly
      when the wind or one of the keyword arguments raises an exception the
      code does not catch. */
  method Draw(b: StationBinder, l: Layout, w: int, round: bool, tint: Option<string>, idPrefix: string, knots: real -> real)
    returns (r: Result<Drawing>)
    ensures r == DrawingOf(b, l, w, round, tint, idPrefix, knots)
    ensures r.Err? <==>
      WindError(b.kwargs, knots).Some? || exists k :: 0 <= k < |b.kwargs| && ItemError(l, round, b.kwargs[k]).Some?
    ensures r.Ok? ==>
      var d := r.value;
      |d.elements| >= 1 && d.elements[0] == CloudElement(b.nn, l, w, tint) &&
      Within(Scaled(l.n, w), d.box) && Within(d.box, Extent(l, w)) &&
      forall k :: 0 <= k < |d.elements| ==> Within(d.elements[k].region, d.box)
    ensures r.Ok? && PresentWeatherSymbol(b.ww, b.wawa).Some? ==>
      |r.value.elements| >= 2 &&
      r.value.elements[1] == Placed(PresentWeatherElement(PresentWeatherSymbol(b.ww, b.wawa).value, l, w, tint), Scaled(l.ww, w))
  {
    var err, obsfmt, box, els := DrawFixed(b, l, w, tint, idPrefix, knots);
    if err.Some? {
      return Err(err.value);
    }
    var obsfmt', box', els';
    err, obsfmt', box', els' := DrawArguments(l, w, round, tint, idPrefix, Get(b.kwargs, "a").Some?, b.kwargs, obsfmt, box, els);
    if err.Some? {
      return Err(err.value);
    }
    assert els'[..|els|][0] == els'[0];
    assert |els| >= 2 ==> els'[..|els|][1] == els'[1];
    return Ok(Drawing(box', els'));
  }

  /** The loop of `station` over the keyword arguments, in the order they
      were given: it stops at the first argument that raises, and otherwise
      keeps the frame and only adds. */
  method DrawArguments(l: Layout, w: int, round: bool, tint: Option<string>, idPrefix: string, hasA: bool,
                       kw: seq<(string, Obs)>, obsfmt: Option<Placement>, box: Box, els: seq<Placed>)
    returns (err: Option<PyError>, obsfmt': Option<Placement>, box': Box, els': seq<Placed>)
    requires Framed(l, w, obsfmt, box, els)
    ensures PassesOf(l, w, round, tint, idPrefix, hasA, kw, Pass(obsfmt, box, els)) ==
      if err.Some? then Err(err.value) else Ok(Pass(obsfmt', box', els'))
    ensures err.None? <==> forall k :: 0 <= k < |kw| ==> ItemError(l, round, kw[k]).None?
    ensures err.None? ==> Framed(l, w, obsfmt', box', els') && Extends(box, els, box', els')
  {
    obsfmt', box', els' := obsfmt, box, els;
    assert els[..|els|] == els;
    var i := 0;
    while i < |kw|
      invariant 0 <= i <= |kw|
      invariant PassesOf(l, w, round, tint, idPrefix, hasA, kw[..i], Pass(obsfmt, box, els)) == Ok(Pass(obsfmt', box', els'))
      invariant Framed(l, w, obsfmt', box', els') && Extends(box, els, box', els')
    {
      ghost var midBox, midEls := box', els';
      err, obsfmt', box', els' := DrawArgument(l, w, round, tint, idPrefix, hasA, kw[i].0, kw[i].1, obsfmt', box', els');
      assert kw[..i + 1][..i] == kw[..i];
      if err.Some? {
        PassesStop(l, w, round, tint, idPrefix, hasA, kw, i + 1, Pass(obsfmt, box, els));
        return;
      }
      ExtendsTrans(box, els, midBox, midEls, box', els');
      i := i + 1;
    }
    err := None;
    assert kw[..i] == kw;
    PassesRaiseNothing(l, w, round, tint, idPrefix, hasA, kw, Pass(obsfmt, box, els));
  }

  /** `station(format, width, color, round_temp, id_prefix)`: the preset
      named by `format` (WMO unless it reads DWD in any case), the width 50
      unless a non-zero one is given, rounding to whole degrees when asked
      or, for DWD, unless refused, and the colour when one is given. */
  method Station(b: StationBinder, format: string, width: Option<int>, colour: Option<string>,
                 roundTemp: Option<bool>, idPrefix: string, knots: real -> real)
    returns (r: Result<Drawing>)
    ensures r == DrawingOf(b, FormatOf(StyleOf(format)), WidthOf(width), Rounds(StyleOf(format), roundTemp), Tint(colour), idPrefix, knots)
    ensures r.Err? <==>
      WindError(b.kwargs, knots).Some? ||
      exists k :: 0 <= k < |b.kwargs| && ItemError(FormatOf(StyleOf(format)), Rounds(StyleOf(format), roundTemp), b.kwargs[k]).Some?
    ensures r.Ok? ==>
      var l, w := FormatOf(StyleOf(format)), WidthOf(width);
      |r.value.elements| >= 1 && r.value.elements[0] == CloudElement(b.nn, l, w, Tint(colour)) &&
      Within(Scaled(l.n, w), r.value.box) && Within(r.value.box, Extent(l, w)) &&
      forall k :: 0 <= k < |r.value.elements| ==> Within(r.value.elements[k].region, r.value.box)
  {
    var style := StyleOf(format);
    r := Draw(b, FormatOf(style), WidthOf(width), Rounds(style, roundTemp), Tint(colour), idPrefix, knots);
  }

  /** The hull is the smallest box holding all the boxes. */
  lemma {:induction false} HullLeast(boxes: seq<Box>, c: Box)
    requires |boxes| > 0
    requires forall k :: 0 <= k < |boxes| ==> Within(boxes[k], c)
    ensures Within(Hull(boxes), c)
  {
    if |boxes| > 1 {
      assert forall k :: 0 <= k < |boxes| - 1 ==> boxes[1..][k] == boxes[k + 1];
      HullLeast(boxes[1..], c);
    }
  }

  lemma MulLe(a: int, b: int, w: int)
    requires a <= b && w >= 0
    ensures a * w <= b * w
  {
    assert b * w - a * w == (b - a) * w;
  }

  /** A hull that reaches every edge of a box holding all the boxes is that box. */
  lemma HullIs(boxes: seq<Box>, c: Box, i: nat, j: nat, k: nat, m: nat)
    requires |boxes| > 0 && i < |boxes| && j < |boxes| && k < |boxes| && m < |boxes|
    requires forall n :: 0 <= n < |boxes| ==> Within(boxes[n], c)
    requires boxes[i].x0 == c.x0 && boxes[j].y0 == c.y0 && boxes[k].x1 == c.x1 && boxes[m].y1 == c.y1
    ensures Hull(boxes) == c
  {
    HullLeast(boxes, c);
  }

  /** Every row's box scaled by `w` lies within `lo`..`hi` widths. */
  lemma ScaledWithin(p: Placement, w: int, x0: int, y0: int, x1: int, y1: int)
    requires w >= 0 && x0 <= p.x0 && y0 <= p.y0 && p.x1 <= x1 && p.y1 <= y1
    ensures Within(Scaled(p, w), Box(x0 * w, y0 * w, x1 * w, y1 * w))
  {
    MulLe(x0, p.x0, w);
    MulLe(y0, p.y0, w);
    MulLe(p.x1, x1, w);
    MulLe(p.y1, y1, w);
  }

  /** With a cloud symbol at least 15 units wide the wind margin stays
      inside the other rows, and the WMO preset can grow to five widths by
      four: from the visibility two widths to the left to the tendency symbol
      three widths to the right, from the temperature one width up to the
      wet-bulb temperature and precipitation three widths down. */
  lemma ExtentOfWmo(w: int)
    requires w >= 15
    ensures Extent(FormatOf(WMO), w) == Box(-2 * w, -w, 3 * w, 3 * w)
  {
    var l := FormatOf(WMO);
    var bs := Rows(l, w);
    forall n | 0 <= n < 13 ensures Within(bs[n], Box(-2 * w, -1 * w, 3 * w, 3 * w)) {
      if n > 0 {
        ScaledWithin(Placements(l)[n - 1], w, -2, -1, 3, 3);
      }
    }
    HullIs(bs, Box(-2 * w, -w, 3 * w, 3 * w), 9, 3, 8, 5);
  }

  /** The DWD preset packs the same elements into three widths by three. */
  lemma ExtentOfDwd(w: int)
    requires w >= 15
    ensures Extent(FormatOf(DWD), w) == Box(-w, -w, 2 * w, 2 * w)
  {
    var l := FormatOf(DWD);
    var bs := Rows(l, w);
    forall n | 0 <= n < 13 ensures Within(bs[n], Box(-1 * w, -1 * w, 2 * w, 2 * w)) {
      if n > 0 {
        ScaledWithin(Placements(l)[n - 1], w, -1, -1, 2, 2);
      }
    }
    HullIs(bs, Box(-w, -w, 2 * w, 2 * w), 2, 3, 6, 4);
  }
}
