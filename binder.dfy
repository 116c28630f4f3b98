/** The template tags `$presentweather(...)` of `weathercodes.py`: the
    binder normalises its arguments once and answers each attribute from the
    present-weather code list, the wawa code list or the cloud cover, in that
    order of precedence. An attribute the active branch does not know raises
    AttributeError, as the fallback to `object.__getattr__` does. */
module Binder {
  import opened Builtins
  import opened CodeTables
  import opened PresentWeather

  // ------------------------------------------------------------ okta

  /** `int(round(n/100*8, 0))`: a cover in percent as whole okta. */
  function OktaOf(n: int): int {
    RoundHalfEven(n as real / 100.0 * 8.0)
  }

  /** The okta value is the nearest whole okta, strictly (an integer
      percentage never lies half-way between two okta), and stays within
      0..8 for a cover of 0..100 %. */
  lemma OktaNearest(n: int)
    ensures 100 * OktaOf(n) - 50 < 8 * n < 100 * OktaOf(n) + 50
    ensures 0 <= n <= 100 ==> 0 <= OktaOf(n) <= 8
  {
    var k := OktaOf(n);
    assert (100 * k - 50) as real <= (8 * n) as real <= (100 * k + 50) as real;
    assert 8 * n - 100 * k != 50 && 100 * k - 8 * n != 50;
  }

  /** `'%.0f' % x`: the nearest integer, ties to even, with the sign of a
      negative number kept even when it rounds to zero. */
  function FormatFixed0(x: real): (s: string)
    ensures s == IntToString(RoundHalfEven(x)) || (s == "-0" && x < 0.0)
  {
    var k := RoundHalfEven(x);
    if k == 0 && x < 0.0 then "-0" else IntToString(k)
  }

  // ------------------------------------------------------------ SVGIconBinder

  /** The entries of SVG_ICON_WW that hold a drawing (the others are None). */
  predicate HasWwIcon(c: nat)
    requires c < 100
  {
    !(c <= 8 || c == 10 || c in {14, 15, 16} || 20 <= c <= 29 || c == 76)
  }

  /** What `SVGIconBinder` draws: a cloud icon of SVG_ICON_N (or its windy
      variant), the weather icon of a code, or nothing (the empty string). */
  datatype IconDrawing = CloudDrawing(index: nat, night: bool, wind: bool) | WwDrawing(code: nat) | NoDrawing

  /** `str(SVGIconBinder(ww, n, night))`. A code reaches SVG_ICON_WW when
      there is no cover or it is no cloud code and no squall; a negative
      code then counts from the end of the table as Python indexing does. */
  function SvgIconOf(ww: Option<int>, n: Option<int>, night: bool): (d: IconDrawing)
    ensures d.CloudDrawing? ==> d.index <= 6 && n.Some?
    ensures d.WwDrawing? <==>
      ww.Some? && (n.None? || !(IsCloudCode(ww.value) || ww.value == 18)) &&
      PyIndex(100, ww.value).Some? && HasWwIcon(PyIndex(100, ww.value).value)
    ensures d.WwDrawing? ==> PyIndex(100, ww.value) == Some(d.code)
  {
    if n.Some? && (ww.None? || IsCloudCode(ww.value) || ww.value == 18) then
      match OktaIconIndex(OktaOf(n.value))
      case None => NoDrawing
      case Some(i) => CloudDrawing(i, night, ww == Some(18))
    else if ww.None? then NoDrawing
    else
      match PyIndex(100, ww.value)
      case None => NoDrawing
      case Some(i) => if HasWwIcon(i) then WwDrawing(i) else NoDrawing
  }

  /** Without a cover, code 95 draws its own entry, -1 the last entry (99),
      -100 the first (0, which has no drawing), and -101 nothing. */
  lemma SvgIconIndexing(night: bool)
    ensures SvgIconOf(Some(95), None, night) == WwDrawing(95)
    ensures SvgIconOf(Some(-1), None, night) == WwDrawing(99)
    ensures SvgIconOf(Some(-100), None, night) == NoDrawing
    ensures SvgIconOf(Some(-101), None, night) == NoDrawing
  {
  }

  /** With a cover of 0..100 % a cloud code, a squall or no code at all draws
      one of the five cloud icons of its nearest okta, windy for a squall;
      without a cover the cloud codes 0..99 draw nothing, because SVG_ICON_WW
      has no drawing for them (a negative code indexes from the end). */
  lemma SvgIconCloudCodes(ww: Option<int>, n: Option<int>, night: bool)
    ensures n.Some? && 0 <= n.value <= 100 && (ww.None? || IsCloudCode(ww.value) || ww.value == 18) ==>
      var d := SvgIconOf(ww, n, night);
      d.CloudDrawing? && d.index <= 4 && d.index == OktaIconIndex(OktaOf(n.value)).value && d.wind == (ww == Some(18))
    ensures n.None? && ww.Some? && 0 <= ww.value && IsCloudCode(ww.value) ==> SvgIconOf(ww, n, night) == NoDrawing
  {
    if n.Some? {
      OktaNearest(n.value);
    }
  }

  // ------------------------------------------------------------ WMOSymbolBinder

  /** `WMOSymbolBinder(code, table)`: the symbol found in WMO_TABLES (None for
      a reserved code) or, when the lookup fails, the label
      `'<table>:<code>'`. */
  datatype WmoSymbol = Found(svg: Option<Svg>) | Label(text: string)

  function CodeString(code: Option<int>): string {
    match code
    case None => "None"
    case Some(c) => IntToString(c)
  }

  function WmoSymbolOf(code: Option<int>, table: int): (s: WmoSymbol)
    ensures s.Found? <==> Lookup(table, code).Ok?
    ensures s.Label? ==> s.text == IntToString(table) + ":" + CodeString(code)
  {
    match Lookup(table, code)
    case Ok(svg) => Found(svg)
    case Err(_) => Label(IntToString(table) + ":" + CodeString(code))
  }

  /** What `WMOSymbolBinder(...)(width, color)` returns: "N/A" for a
      reserved code, the symbol resized and recoloured, or the label as it
      is. */
  datatype Picture = NotAvailable | Drawing(svg: Svg, width: Option<int>, colour: Option<string>) | Caption(text: string)

  const WidthAttribute := "width=\"50\""
  const HeightAttribute := "height=\"50\""

  function WmoSymbolCall(s: WmoSymbol, width: int, colour: Option<string>): Picture {
    match s
    case Found(None) => NotAvailable
    case Found(Some(svg)) => Drawing(svg, if width != 0 then Some(width) else None, colour)
    case Label(text) =>
      var w := IntToString(width);
      var sized := if width != 0 then Replace(Replace(text, WidthAttribute, "width=\"" + w + "\""), HeightAttribute, "height=\"" + w + "\"") else text;
      Caption(Decolor(sized, colour))
  }

  /** The resizing and recolouring leave a `'<table>:<code>'` label alone:
      it holds no `w` and none of the colours' `#`, `b`, `k` or `C`. */
  lemma LabelCallUnchanged(code: Option<int>, table: int, width: int, colour: Option<string>)
    requires WmoSymbolOf(code, table).Label?
    ensures WmoSymbolCall(WmoSymbolOf(code, table), width, colour) == Caption(WmoSymbolOf(code, table).text)
  {
    var text := WmoSymbolOf(code, table).text;
    LabelChars(table, code);
    LabelUnsized(text, IntToString(width));
    LabelUncoloured(text, colour);
  }

  /** A label has no `w`, so neither size attribute occurs in it. */
  lemma LabelUnsized(text: string, w: string)
    requires forall c :: c in text ==> LabelChar(c)
    ensures Replace(Replace(text, WidthAttribute, "width=\"" + w + "\""), HeightAttribute, "height=\"" + w + "\"") == text
  {
    assert WidthAttribute[0] !in text && HeightAttribute[0] !in text;
    NotOccursByChar(text, WidthAttribute, 0);
    ReplaceAbsent(text, WidthAttribute, "width=\"" + w + "\"");
    NotOccursByChar(text, HeightAttribute, 0);
    ReplaceAbsent(text, HeightAttribute, "height=\"" + w + "\"");
  }

  /** A label holds none of the colours `decolor_ww` replaces. */
  lemma LabelUncoloured(text: string, colour: Option<string>)
    requires forall c :: c in text ==> LabelChar(c)
    ensures Decolor(text, colour) == text
  {
    if colour.Some? {
      forall k | 0 <= k < |SymbolColours| ensures !Occurs(text, SymbolColours[k]) {
        var j := if k < 5 then 0 else if k == 5 then 0 else 7;
        assert SymbolColours[k][j] in {'#', 'b', 'C'};
        NotOccursByChar(text, SymbolColours[k], j);
      }
    }
    DecolorKeepsUncoloured(text, colour);
  }

  predicate LabelChar(c: char) {
    IsDigit(c) || c in {'-', ':', 'N', 'o', 'n', 'e'}
  }

  lemma LabelChars(table: int, code: Option<int>)
    ensures forall c :: c in IntToString(table) + ":" + CodeString(code) ==> LabelChar(c)
  {
    IntToStringChars(table);
    if code.Some? {
      IntToStringChars(code.value);
    }
  }

  lemma IntToStringChars(i: int)
    ensures forall c :: c in IntToString(i) ==> IsDigit(c) || c == '-'
  {
    var s := IntToString(i);
    if i < 0 {
      assert s == "-" + NatToString(-i);
    }
  }

  // ------------------------------------------------------------ PresentWeatherBinder

  /** A raw argument value: missing, a single code or a list of codes. */
  datatype Raw = NoValue | Scalar(v: int) | Many(vs: seq<int>)

  /** An argument as the template passes it: a bare value, or a value helper
      carrying the unit group of its observation type. */
  datatype Arg = Bare(raw: Raw) | Tagged(raw: Raw, group: string)

  /** "convert to list if it is not". */
  function ToList(r: Raw): (l: Option<seq<int>>)
    ensures r.NoValue? <==> l.None?
    ensures r.Scalar? ==> l == Some([r.v])
    ensures r.Many? ==> l == Some(r.vs)
  {
    match r
    case NoValue => None
    case Scalar(v) => Some([v])
    case Many(vs) => Some(vs)
  }

  datatype PresentWeatherBinder = PresentWeatherBinder(
    wwList: Option<seq<int>>,
    nn: Option<int>,
    night: bool,
    lang: string,
    wwTexts: map<string, string>,
    wawaList: Option<seq<int>>)
  {
    /** `_get_ww_text`: a user text for the code (keyed `'%02d'`) wins, else
        the German or the English text of WW_LIST. */
    function WwText(w: WwCode): string {
      var key := Format02d(w.ww);
      if |wwTexts| > 0 && key in wwTexts then wwTexts[key]
      else if lang == "de" then w.german
      else w.english
    }

    predicate WwMode() {
      wwList.Some?
    }

    predicate WawaMode() {
      wwList.None? && wawaList.Some?
    }

    predicate CloudMode() {
      wwList.None? && wawaList.None? && nn.Some?
    }

    function Selected(): WwCode
      requires WwMode()
    {
      GetWw(wwList.value, nn, night)
    }

    function Cover(): CloudIcons
      requires CloudMode()
    {
      GetCloudCover(Some(nn.value as real)).value
    }

    /** `$presentweather(...).ww`. */
    function Ww(): (r: Result<nat>)
      ensures r.Ok? <==> WwMode()
      ensures r.Ok? ==> r.value < 100 && (r.value in wwList.value || r.value == 0)
    {
      if WwMode() then
        GetWwPicksEarliest(wwList.value, nn, night);
        GetWwCloudOverride(wwList.value, nn, night);
        Ok(Selected().ww)
      else Err(AttributeError)
    }

    function MosmixPriority(): Result<Option<nat>> {
      if WwMode() then Ok(Selected().severity) else Err(AttributeError)
    }

    /** `.text`: the code's text, or for a cloud cover the OKTA_TEXTS entry
        of its okta (day or night form), `str(n)` when that index is out of
        range and `'<n>%'` for a language without okta texts. */
    function Text(): (r: Result<string>)
      ensures r.Ok? <==> WwMode() || CloudMode()
      ensures r.Err? ==> r.error == AttributeError
      ensures WwMode() ==> r == Ok(WwText(Selected()))
      ensures CloudMode() && OktaTexts(lang).None? ==> r == Ok(IntToString(nn.value) + "%")
    {
      if WwMode() then Ok(WwText(Selected()))
      else if CloudMode() then
        var n := nn.value;
        match OktaTexts(lang)
        case None => Ok(IntToString(n) + "%")
        case Some(texts) =>
          match PyIndex(|texts|, OktaOf(n))
          case None => Ok(IntToString(n))
          case Some(i) =>
            match texts[i]
            case Plain(t) => Ok(t)
            case DayNight(d, nt) => Ok(if night then nt else d)
      else Err(AttributeError)
    }

    function BelchertownIcon(): Result<Option<string>> {
      if WwMode() then Ok(Selected().belchertownIcon)
      else if CloudMode() then Ok(Some(Cover().Icon(night)))
      else Err(AttributeError)
    }

    function DwdIcon(): Result<Option<string>> {
      if WwMode() then Ok(Selected().dwdIcon)
      else if CloudMode() then Ok(Some(Cover().dwdIcon))
      else Err(AttributeError)
    }

    /** `.aeris_icon`: the Aeris icon name, `n` appended at night, `.png`
        appended; `na.png` for a code without one. */
    function AerisIcon(): (r: Result<string>)
      ensures r.Ok? <==> WwMode() || CloudMode()
      ensures r.Ok? ==> EndsWith(r.value, ".png")
    {
      if WwMode() then
        match Selected().aerisIcon
        case Some(icon) =>
          if icon != "" then Ok(icon + (if night then "n" else "") + ".png") else Ok("na.png")
        case None => Ok("na.png")
      else if CloudMode() then
        var icon := Cover().aerisIcon;
        Ok(icon + (if night && icon != "na" then "n" else "") + ".png")
      else Err(AttributeError)
    }

    /** `.wi_icon`: the weather-icons tag; for wawa codes the tag of the
        highest one (ValueError for an empty list). */
    function WiIcon(): (r: Result<string>)
      ensures r.Ok? <==> WwMode() || CloudMode() || (WawaMode() && wawaList.value != [])
      ensures r.Err? ==> r.error == (if WawaMode() then ValueError else AttributeError)
      ensures r.Ok? ==> IsWiTag(r.value)
    {
      if WwMode() then
        var icon := match Selected().wiIcon case Some(i) => if i != "" then i else "wi-na" case None => "wi-na";
        Ok(WiTag(icon))
      else if WawaMode() then
        if wawaList.value == [] then Err(ValueError)
        else Ok(WiTag("wi-wmo4680-" + Format02d(Max(wawaList.value))))
      else if CloudMode() then Ok(WiTag(Cover().WiIcon(night)))
      else Err(AttributeError)
    }

    /** `.svg_icon_filename`: the Belchertown icon with `.png` turned into
        `.svg`, the squall drawn as the windy cloud icon of its cover, and
        four codes with their own files. A code without a Belchertown icon
        fails on `None.replace`, which Python reports as AttributeError. */
    function SvgIconFilename(): Result<string> {
      if WwMode() then
        var c := Selected().ww;
        if c == 18 && nn.Some? then
          match GetWw([0], nn, night).belchertownIcon
          case Some(icon) => Ok(Replace(icon, ".png", "-wind.svg"))
          case None => Err(AttributeError)
        else if c == 96 then Ok("thunderstorm-hail.svg")
        else if c in {13, 17} then Ok("lightning.svg")
        else if c in {56, 57, 66, 67} then Ok("freezingrain.svg")
        else
          match Selected().belchertownIcon
          case Some(icon) => Ok(Replace(icon, ".png", ".svg"))
          case None => Err(AttributeError)
      else if CloudMode() then Ok(Replace(Cover().Icon(night), ".png", ".svg"))
      else Err(AttributeError)
    }

    /** `.svg_icon`. */
    function SvgIcon(): (r: Result<IconDrawing>)
      ensures r.Ok? <==> WwMode() || CloudMode()
      ensures CloudMode() ==> !r.value.WwDrawing?
      ensures WwMode() && r.value.WwDrawing? ==> r.value.code == Ww().value
    {
      if WwMode() then
        var c := Ww().value;
        assert PyIndex(100, c) == Some(c);
        Ok(SvgIconOf(Some(Selected().ww), nn, night))
      else if CloudMode() then Ok(SvgIconOf(None, nn, night))
      else Err(AttributeError)
    }

    /** `.wmo_symbol`: table 4677 for ww, 4680 for the highest wawa code,
        2700 for the okta of a cloud cover. */
    function WmoSymbol(): (r: Result<WmoSymbol>)
      ensures r.Ok? <==> WwMode() || CloudMode() || (WawaMode() && wawaList.value != [])
      ensures r.Err? ==> r.error == (if WawaMode() then ValueError else AttributeError)
      ensures WwMode() ==> r == Ok(WmoSymbolOf(Some(Ww().value), 4677))
    {
      if WwMode() then Ok(WmoSymbolOf(Some(Selected().ww), 4677))
      else if WawaMode() then
        if wawaList.value == [] then Err(ValueError)
        else Ok(WmoSymbolOf(Some(Max(wawaList.value)), 4680))
      else if CloudMode() then Ok(WmoSymbolOf(Some(OktaOf(nn.value)), 2700))
      else Err(AttributeError)
    }

    /** `.n`: the cover in percent, `-` for fog and `/` for sky not
        visible. It does not depend on the language: an integer cover has no
        decimal point for the German form to localise. */
    function N(): (r: Result<string>)
      ensures r.Ok? <==> CloudMode()
      ensures r.Ok? ==> var n := nn.value;
        r.value == (if n > 118 then "/" else if n > 106 then "-" else IntToString(n) + "%")
    {
      if CloudMode() then
        var n := nn.value;
        if n as real > 106.25 then
          if n as real > 118.75 then Ok("/") else Ok("-")
        else if lang == "de" then
          var s := IntToString(n) + "%";
          assert Replace(s, ".", ",") == s by {
            IntToStringChars(n);
            NotOccursByChar(s, ".", 0);
            ReplaceAbsent(s, ".", ",");
          }
          Ok(Replace(s, ".", ","))
        else Ok(IntToString(n) + "%")
      else Err(AttributeError)
    }

    /** `.okta`: the cover as `'<k>/8'`, `/` for sky not visible. */
    function OktaString(): (r: Result<string>)
      ensures r.Ok? <==> CloudMode()
      ensures r.Ok? ==> (r.value == "/" <==> nn.value > 118)
      ensures r.Ok? && nn.value <= 118 ==> EndsWith(r.value, "/8")
    {
      if CloudMode() then
        var n := nn.value;
        if n as real > 118.75 then Ok("/")
        else Ok(FormatFixed0(n as real / 100.0 * 8.0) + "/8")
      else Err(AttributeError)
    }

    /** The arguments of the `.station` attribute's StationBinder. */
    function StationRequest(): Result<StationArgs> {
      if WwMode() then Ok(StationArgs(Some(Selected().ww), None, nn))
      else if WawaMode() then
        if wawaList.value == [] then Err(ValueError)
        else Ok(StationArgs(None, Some(Max(wawaList.value)), nn))
      else if CloudMode() then Ok(StationArgs(None, None, nn))
      else Err(AttributeError)
    }
  }

  datatype StationArgs = StationArgs(ww: Option<int>, wawa: Option<int>, n: Option<int>)

  /** The `<i class="wi ...">` element of weather-icons. */
  predicate IsWiTag(s: string) {
    |s| >= 19 && s[..13] == "<i class=\"wi " && EndsWith(s, "\"></i>")
  }

  function WiTag(icon: string): (s: string)
    ensures IsWiTag(s)
  {
    "<i class=\"wi " + icon + "\"></i>"
  }

  /** `PresentWeatherBinder.__init__`: a value tagged with the wawa unit group
      moves from the ww argument to the wawa argument, one tagged with the ww
      group the other way, and single codes become one-element lists. */
  function MakeBinder(wwl: Arg, n: Option<int>, night: bool, lang: string, wwTexts: map<string, string>, wawal: Arg): PresentWeatherBinder {
    var first: (Raw, Arg) :=
      match wwl
      case Tagged(r, g) => if g == "group_wmo_wawa" then (NoValue, Bare(r)) else (r, wawal)
      case Bare(r) => (r, wawal);
    var second: (Raw, Raw) :=
      match first.1
      case Tagged(r, g) => if g == "group_wmo_ww" then (r, NoValue) else (first.0, r)
      case Bare(r) => (first.0, r);
    PresentWeatherBinder(ToList(second.0), n, night, lang, wwTexts, ToList(second.1))
  }

  /** Routing by unit group: a wawa-tagged first argument becomes the wawa
      list (whatever was passed as wawa), a ww-tagged wawa argument becomes
      the ww list, and untagged arguments stay where they were given. */
  lemma MakeBinderRoutes(r: Raw, other: Arg, n: Option<int>, night: bool, lang: string, texts: map<string, string>)
    ensures var b := MakeBinder(Tagged(r, "group_wmo_wawa"), n, night, lang, texts, other);
      b.wwList.None? && b.wawaList == ToList(r)
    ensures var b := MakeBinder(Bare(NoValue), n, night, lang, texts, Tagged(r, "group_wmo_ww"));
      b.wwList == ToList(r) && b.wawaList.None?
    ensures forall a: Raw :: var b := MakeBinder(Bare(a), n, night, lang, texts, Bare(r));
      b.wwList == ToList(a) && b.wawaList == ToList(r)
  {
  }

  // ------------------------------------------------------------ properties

  /** The user's text for a code wins over the built-in ones; without one
      the language picks German or English. */
  lemma WwTextPrecedence(b: PresentWeatherBinder, w: WwCode)
    ensures Format02d(w.ww) in b.wwTexts ==> b.WwText(w) == b.wwTexts[Format02d(w.ww)]
    ensures Format02d(w.ww) !in b.wwTexts ==> b.WwText(w) == (if b.lang == "de" then w.german else w.english)
  {
  }

  /** `.okta` is the nearest whole okta over 8 for a cover of 0..100 %. */
  lemma OktaStringNearest(b: PresentWeatherBinder)
    requires b.CloudMode() && 0 <= b.nn.value <= 100
    ensures var n := b.nn.value;
      exists k :: 0 <= k <= 8 && 100 * k - 50 < 8 * n < 100 * k + 50 && b.OktaString() == Ok(NatToString(k) + "/8")
  {
    OktaNearest(b.nn.value);
    var k := OktaOf(b.nn.value);
    assert b.OktaString() == Ok(NatToString(k) + "/8");
  }

  /** A slightly negative cover is printed as `-0/8`: `'%.0f'` keeps the sign. */
  lemma OktaStringNegativeZero(night: bool, lang: string, texts: map<string, string>)
    ensures PresentWeatherBinder(None, Some(-2), night, lang, texts, None).OktaString() == Ok("-0/8")
  {
    assert RoundHalfEven(-2 as real / 100.0 * 8.0) == 0;
    assert FormatFixed0(-2 as real / 100.0 * 8.0) == "-0";
    assert "-0" + "/8" == "-0/8";
  }

  /** The cloud text is OKTA_TEXTS at the nearest okta for 0..100 %; a
      negative okta reads from the end of the table (a cover of -10 % gives
      "no data"). */
  lemma CloudTextExamples(night: bool, texts: map<string, string>)
    ensures PresentWeatherBinder(None, Some(0), night, "en", texts, None).Text() == Ok("clear")
    ensures PresentWeatherBinder(None, Some(100), false, "de", texts, None).Text() == Ok("bedeckt")
    ensures PresentWeatherBinder(None, Some(-10), night, "en", texts, None).Text() == Ok("no data")
  {
    assert OktaOf(0) == 0;
    assert OktaOf(100) == 8;
    assert OktaOf(-10) == -1;
  }

  /** Past the table the text is the cover itself, and a language without
      texts gives the cover with a per cent sign. */
  lemma CloudTextFallback(night: bool, texts: map<string, string>)
    ensures PresentWeatherBinder(None, Some(132), night, "en", texts, None).Text() == Ok("132")
    ensures PresentWeatherBinder(None, Some(50), night, "fr", texts, None).Text() == Ok("50%")
  {
    assert OktaOf(132) == 11;
    assert NatToString(132) == "132" by {
      assert NatToString(13) == "13";
    }
    assert IntToString(50) + "%" == "50%" by {
      assert NatToString(5) == "5";
      assert NatToString(50) == "50";
    }
  }

  /** The cloud icons are all `<stem>.png` with no other dot. */
  lemma BandIconStem(k: nat, night: bool) returns (stem: string)
    requires k <= 6
    ensures BandIcons(k).Icon(night) == stem + ".png" && '.' !in stem
  {
    if k >= 4 {
      stem := OvercastStem(k);
      assert BandIcons(k).Icon(night) == BandIcons(k).Icon(false);
    } else if night {
      stem := NightStem(k);
    } else {
      stem := DayStem(k);
    }
  }

  lemma NightStem(k: nat) returns (stem: string)
    requires k <= 3
    ensures BandIcons(k).Icon(true) == stem + ".png" && '.' !in stem
  {
    assert BandIcons(k) == NIcon(k);
    if k == 0 {
      stem := "clear-night";
      assert stem + ".png" == "clear-night.png";
    } else if k == 1 {
      stem := "mostly-clear-night";
      assert stem + ".png" == "mostly-clear-night.png";
    } else if k == 2 {
      stem := "partly-cloudy-night";
      assert stem + ".png" == "partly-cloudy-night.png";
    } else {
      stem := "mostly-cloudy-night";
      assert stem + ".png" == "mostly-cloudy-night.png";
    }
  }

  lemma DayStem(k: nat) returns (stem: string)
    requires k <= 3
    ensures BandIcons(k).Icon(false) == stem + ".png" && '.' !in stem
  {
    assert BandIcons(k) == NIcon(k);
    if k == 0 {
      stem := "clear-day";
      assert stem + ".png" == "clear-day.png";
    } else if k == 1 {
      stem := "mostly-clear-day";
      assert stem + ".png" == "mostly-clear-day.png";
    } else if k == 2 {
      stem := "partly-cloudy-day";
      assert stem + ".png" == "partly-cloudy-day.png";
    } else {
      stem := "mostly-cloudy-day";
      assert stem + ".png" == "mostly-cloudy-day.png";
    }
  }

  /** Overcast, fog and unknown have one icon for day and night. */
  lemma OvercastStem(k: nat) returns (stem: string)
    requires 4 <= k <= 6
    ensures BandIcons(k).Icon(false) == stem + ".png" && '.' !in stem
    ensures BandIcons(k).Icon(true) == BandIcons(k).Icon(false)
  {
    if k == 4 {
      stem := "cloudy";
      assert BandIcons(k) == NIcon(4);
      assert stem + ".png" == "cloudy.png";
    } else if k == 5 {
      stem := "fog";
      assert BandIcons(k) == FogIcons;
      assert stem + ".png" == "fog.png";
    } else {
      stem := "unknown";
      assert BandIcons(k) == UnknownIcons;
      assert stem + ".png" == "unknown.png";
    }
  }

  /** `.svg_icon_filename` for a squall with a known cover is the windy
      variant of the cloud icon of that cover. */
  lemma SvgIconFilenameSquall(b: PresentWeatherBinder) returns (stem: string)
    requires b.nn.Some? && b.WwMode() && b.Selected().ww == 18
    ensures BandIcons(CloudCoverBand(b.nn.value as real)).Icon(b.night) == stem + ".png" && '.' !in stem
    ensures b.SvgIconFilename() == Ok(stem + "-wind.svg")
  {
    stem := BandIconStem(CloudCoverBand(b.nn.value as real), b.night);
    OnlyAtEndByChar(stem, ".png");
    ReplaceSuffix(stem, ".png", "-wind.svg");
    CalmCloudIcon(b.nn.value, b.night);
  }

  /** The code 0 `get_ww` looks up for a squall takes the icon of the cover. */
  lemma CalmCloudIcon(n: int, night: bool)
    ensures GetWw([0], Some(n), night).belchertownIcon == Some(BandIcons(CloudCoverBand(n as real)).Icon(night))
  {
    GetWwCloudOverride([0], Some(n), night);
    GetWwPicksEarliest([0], Some(n), night);
  }

  /** For a bare cloud cover `.svg_icon_filename` is the cloud icon with
      `.svg` for `.png`. */
  lemma SvgIconFilenameCloud(b: PresentWeatherBinder) returns (stem: string)
    requires b.CloudMode()
    ensures BandIcons(CloudCoverBand(b.nn.value as real)).Icon(b.night) == stem + ".png" && '.' !in stem
    ensures b.SvgIconFilename() == Ok(stem + ".svg")
  {
    stem := BandIconStem(CloudCoverBand(b.nn.value as real), b.night);
    OnlyAtEndByChar(stem, ".png");
    ReplaceSuffix(stem, ".png", ".svg");
    GetCloudCoverByBand(b.nn.value as real);
  }

  /** A code with a drawing of its own: hail thunderstorm 96. */
  lemma SvgIconFilenameHail(n: Option<int>, night: bool, lang: string, texts: map<string, string>)
    ensures PresentWeatherBinder(Some([96]), n, night, lang, texts, None).SvgIconFilename() == Ok("thunderstorm-hail.svg")
  {
    FirstListedSingle(96);
    assert WwPosition(96) == 4;
  }

  /** Haze (5) has no Belchertown icon, so its file name fails. */
  lemma SvgIconFilenameHaze(night: bool, lang: string, texts: map<string, string>)
    ensures PresentWeatherBinder(Some([5]), None, night, lang, texts, None).SvgIconFilename() == Err(AttributeError)
  {
    var b := PresentWeatherBinder(Some([5]), None, night, lang, texts, None);
    FirstListedSingle(5);
    assert WwPosition(5) == 85;
    assert WwListAt(85).belchertownIcon == None by {
      assert WwCodeAt(85) == 5;
      assert WwDetailsOf(5).belchertownIcon == None;
    }
    assert b.Selected() == RowCode(85);
  }

  /** The wawa branch answers with the highest code of the list. */
  lemma WawaUsesHighest(b: PresentWeatherBinder)
    requires b.WawaMode() && b.wawaList.value != []
    ensures var m := Max(b.wawaList.value);
      m in b.wawaList.value && (forall x :: x in b.wawaList.value ==> x <= m) &&
      b.WiIcon() == Ok(WiTag("wi-wmo4680-" + Format02d(m))) &&
      b.WmoSymbol() == Ok(WmoSymbolOf(Some(m), 4680))
  {
  }

  /** For a cover of 0..100 % the `.wmo_symbol` is the table 2700 symbol of
      its nearest okta. */
  lemma CloudWmoSymbol(b: PresentWeatherBinder)
    requires b.CloudMode() && 0 <= b.nn.value <= 100
    ensures b.WmoSymbol() == Ok(Found(SymbolAt(Okta, OktaOf(b.nn.value))))
  {
    OktaNearest(b.nn.value);
  }
}
