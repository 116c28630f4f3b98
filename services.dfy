/** The provider helpers of `weatherservices.py`: the cloud-cover icons
    (`get_cloudcover`), the number parser of the POI CSV files (`to_float`),
    the present-weather icons of the POI and Open-Meteo threads (`get_ww`),
    the merge of the CDC files (`DWDCDCthread.getRecord`), the memory of
    LOOP readings (`DWDXType.remember`), the staleness rule of
    `new_archive_record` and the renaming of observations (`_to_weewx`). */
module Services {
  import opened Builtins

  // ------------------------------------------------------------ values

  /** A Python number: what `int()` and `float()` return. */
  datatype Num = Int(i: int) | Float(x: real)

  /** The value of an observation: None, a number or a text. */
  datatype Scalar = Null | Number(n: Num) | Str(s: string)

  /** A weewx value tuple `(value, unit, group)`. */
  datatype ValueTuple = ValueTuple(value: Scalar, unit: Option<string>, group: Option<string>)

  /** A Python dict of value tuples, in insertion order. */
  type Dict = seq<(string, ValueTuple)>

  // ------------------------------------------------------------ N_ICON_LIST

  /** A row of the cloud-cover icons: Belchertown day and night, DWD,
      Aeris code, Aeris. */
  datatype NIcons = NIcons(day: string, night: string, dwd: string, aerisCode: string, aeris: string)
  {
    /** `N_ICON_LIST[idx][night]`. */
    function Icon(night: bool): string {
      if night then this.night else day
    }

    /** The Aeris icon name: the Aeris stem, 'n' at night, '.png'. */
    function AerisIcon(night: bool): string {
      aeris + (if night then "n" else "") + ".png"
    }
  }

  /** Entry `i` of N_ICON_LIST: clear, mostly clear, partly cloudy, mostly
      cloudy, overcast. */
  function NIconAt(i: nat): NIcons
    requires i < 5
  {
    match i
    case 0 => NIcons("clear-day.png", "clear-night.png", "0-8.png", "CL", "clear")
    case 1 => NIcons("mostly-clear-day.png", "mostly-clear-night.png", "2-8.png", "FW", "fair")
    case 2 => NIcons("partly-cloudy-day.png", "partly-cloudy-night.png", "5-8.png", "SC", "pcloudy")
    case 3 => NIcons("mostly-cloudy-day.png", "mostly-cloudy-night.png", "5-8.png", "BK", "mcloudy")
    case _ => NIcons("cloudy.png", "cloudy.png", "8-8.png", "OV", "cloudy")
  }

  // ------------------------------------------------------------ get_cloudcover

  /** `get_cloudcover(n)`: the icons of the band the cover `n` (percent)
      falls in; None cannot be compared (TypeError). */
  function GetCloudCover(n: Option<real>): (r: Result<NIcons>)
    ensures r.Err? <==> n.None?
    ensures r.Err? ==> r.error == TypeError
  {
    if n.None? then Err(TypeError)
    else if n.value < 7.0 then Ok(NIconAt(0))
    else if n.value < 32.0 then Ok(NIconAt(1))
    else if n.value < 70.0 then Ok(NIconAt(2))
    else if n.value < 95.0 then Ok(NIconAt(3))
    else Ok(NIconAt(4))
  }

  /** The lower band edges, in percent. */
  const CloudEdges: seq<real> := [7.0, 32.0, 70.0, 95.0]

  /** How many of `edges` lie at or below `n`. */
  function EdgesBelow(edges: seq<real>, n: real): (k: nat)
    ensures k <= |edges|
  {
    if edges == [] then 0
    else (if edges[0] <= n then 1 else 0) + EdgesBelow(edges[1..], n)
  }

  /** Passing more edges never lowers the count. */
  lemma {:induction false} EdgesBelowMonotone(edges: seq<real>, n: real, m: real)
    requires n <= m
    ensures EdgesBelow(edges, n) <= EdgesBelow(edges, m)
  {
    if edges != [] {
      EdgesBelowMonotone(edges[1..], n, m);
    }
  }

  /** The icons are those of band `k`, `k` the number of edges 7, 32, 70, 95
      at or below `n`: the edges belong to the band above them, and there
      is no band beyond overcast, however large `n` is. */
  lemma GetCloudCoverBand(n: real)
    ensures GetCloudCover(Some(n)) == Ok(NIconAt(EdgesBelow(CloudEdges, n)))
  {
    var e := CloudEdges;
    assert e[1..] == [32.0, 70.0, 95.0] && e[1..][1..] == [70.0, 95.0] && e[1..][1..][1..] == [95.0];
    assert EdgesBelow([95.0], n) == (if 95.0 <= n then 1 else 0) by {
      assert [95.0][1..] == [];
    }
    assert EdgesBelow([70.0, 95.0], n) == (if 70.0 <= n then 1 else 0) + EdgesBelow([95.0], n);
    assert EdgesBelow([32.0, 70.0, 95.0], n) == (if 32.0 <= n then 1 else 0) + EdgesBelow([70.0, 95.0], n);
    assert EdgesBelow(e, n) == (if 7.0 <= n then 1 else 0) + EdgesBelow([32.0, 70.0, 95.0], n);
  }

  /** A larger cover never gives a band below. */
  lemma GetCloudCoverMonotone(n: real, m: real)
    requires n <= m
    ensures exists j: nat, k: nat :: j <= k < 5 && GetCloudCover(Some(n)) == Ok(NIconAt(j)) && GetCloudCover(Some(m)) == Ok(NIconAt(k))
  {
    GetCloudCoverBand(n);
    GetCloudCoverBand(m);
    EdgesBelowMonotone(CloudEdges, n, m);
    var j, k := EdgesBelow(CloudEdges, n), EdgesBelow(CloudEdges, m);
    assert j <= k < 5 && GetCloudCover(Some(n)) == Ok(NIconAt(j)) && GetCloudCover(Some(m)) == Ok(NIconAt(k));
  }

  // ------------------------------------------------------------ to_float

  /** `DWDPOIthread.to_float(x)`: a CSV field with ',' is read as a float
      with '.' for ',', one with '.' as a float, anything else as an int;
      any failure gives None. The first test compares a one-character
      slice with '--' and never holds. */
  function ToFloat(x: string): (r: Option<Num>)
    ensures r.Some? && r.value.Int? ==> ',' !in x && '.' !in x
    ensures r.Some? && r.value.Float? ==> ',' in x || '.' in x
  {
    if PySlice(x, 0, 1) == "--" then None
    else if ',' in x then
      match ParseFloat(Replace(x, ",", "."))
      case Ok(v) => Some(Float(v))
      case Err(_) => None
    else if '.' in x then
      match ParseFloat(x)
      case Ok(v) => Some(Float(v))
      case Err(_) => None
    else
      match ParseInt(x)
      case Ok(i) => Some(Int(i))
      case Err(_) => None
  }

  /** An integer written out reads back as that int. */
  lemma ToFloatInt(i: int)
    ensures ToFloat(IntToString(i)) == Some(Int(i))
  {
    var s := IntToString(i);
    IntToStringRoundTrip(i);
    assert ',' !in s && '.' !in s by {
      if i < 0 {
        assert s == "-" + NatToString(-i);
        assert forall k :: 1 <= k < |s| ==> s[k] == NatToString(-i)[k - 1];
      }
    }
    assert |PySlice(s, 0, 1)| <= 1;
  }

  /** A decimal number `<a>,<b>` (the German form) or `<a>.<b>` reads as
      the float `a + b / 10^|b|`. */
  lemma ToFloatDecimal(a: string, b: string, sep: char)
    requires AllDigits(a) && AllDigits(b) && |a| + |b| > 0
    requires sep == ',' || sep == '.'
    ensures ToFloat(a + [sep] + b) == Some(Float(NumeralValue(a, b)))
  {
    var s := a + [sep] + b;
    assert |PySlice(s, 0, 1)| <= 1;
    NumeralChars(a, b);
    assert ',' !in a && ',' !in b by {
      assert forall k :: 0 <= k < |a| ==> IsDigit(a[k]);
      assert forall k :: 0 <= k < |b| ==> IsDigit(b[k]);
    }
    assert s[|a|] == sep;
    if sep == ',' {
      ReplaceOne(a, ',', b, ".");
      assert a + "." + b == a + ['.'] + b;
      ParseFloatDecimal(a, b);
    } else {
      assert ',' !in s by {
        assert forall k :: 0 <= k < |s| ==> s[k] == (if k < |a| then a[k] else if k == |a| then sep else b[k - |a| - 1]);
      }
      ParseFloatDecimal(a, b);
    }
  }

  // ------------------------------------------------------------ POI get_ww

  /** A row of `DWDPOIthread.WEATHER`: German text, Belchertown icon, DWD icon. */
  datatype PoiRow = PoiRow(german: string, belchertown: string, dwd: string)

  /** `DWDPOIthread.WEATHER[i]`, the DWD POI weather codes 0..31. */
  function PoiWeather(i: nat): PoiRow
    requires i < 32
  {
    match i
    case 0 => PoiRow("unbekannt", "unknown.png", "unknown.png")
    case 1 => PoiRow("wolkenlos", "clear-day.png", "0-8.png")
    case 2 => PoiRow("heiter", "mostly-clear-day.png", "2-8.png")
    case 3 => PoiRow("bewölkt", "mostly-cloudy-day.png", "5-8.png")
    case 4 => PoiRow("bedeckt", "cloudy.png", "8-8.png")
    case 5 => PoiRow("Nebel", "fog.png", "40.png")
    case 6 => PoiRow("gefrierender Nebel", "fog.png", "48.png")
    case 7 => PoiRow("leichter Regen", "rain.png", "7.png")
    case 8 => PoiRow("Regen", "rain.png", "8.png")
    case 9 => PoiRow("kräftiger Regen", "rain.png", "9.png")
    case 10 => PoiRow("gefrierender Regen", "sleet.png", "66.png")
    case 11 => PoiRow("kräftiger gefrierender Regen", "sleet.png", "67.png")
    case 12 => PoiRow("Schneeregen", "sleet.png", "12.png")
    case 13 => PoiRow("kräftiger Schneeregen", "sleet.png", "13.png")
    case 14 => PoiRow("leichter Schneefall", "snow.png", "14.png")
    case 15 => PoiRow("Schneefall", "snow.png", "15.png")
    case 16 => PoiRow("kräftiger Schneefall", "snow.png", "16.png")
    case 17 => PoiRow("Eiskörner", "snow.png", "17.png")
    case 18 => PoiRow("Regenschauer", "rain.png", "80.png")
    case 19 => PoiRow("kräftiger Regenschauer", "rain.png", "82.png")
    case 20 => PoiRow("Schneeregenschauer", "sleet.png", "83.png")
    case 21 => PoiRow("kräftiger Schneeregenschauer", "sleet.png", "84.png")
    case 22 => PoiRow("Schneeschauer", "snow.png", "85.png")
    case 23 => PoiRow("kräftiger Schneeschauer", "snow.png", "86.png")
    case 24 => PoiRow("Graupelschauer", "snow.png", "87.png")
    case 25 => PoiRow("kräftiger Graupelschauer", "snow.png", "88.png")
    case 26 => PoiRow("Gewitter ohne Niederschlag", "thunderstorm.png", "26.png")
    case 27 => PoiRow("Gewitter", "thunderstorm.png", "27.png")
    case 28 => PoiRow("kräftiges Gewitter", "thunderstorm.png", "28.png")
    case 29 => PoiRow("Gewitter mit Hagel", "thunderstorm.png", "29.png")
    case 30 => PoiRow("kräftiges Gewitter mit Hagel", "thunderstrom.png", "30.png")
    case _ => PoiRow("Böen", "wind.png", "18.png")
  }

  /** The row used for a code WEATHER cannot index: None, a float or an
      int outside -32..31. */
  const PoiUnknown := PoiRow("Wetterzustand nicht gemeldet", "unknown.png", "")

  /** `(ww, german, english, severity, Belchertown icon, DWD icon, Aeris icon)`. */
  datatype PoiWw = PoiWw(ww: Option<int>, german: string, english: string, severity: int,
                         belchertown: string, dwd: string, aeris: string)

  /** `WEATHER[present_weather]`, with its fallback. */
  function PoiRowOf(pw: Option<Num>): PoiRow {
    if pw.Some? && pw.value.Int? then
      match PyIndex(32, pw.value.i)
      case Some(k) => PoiWeather(k)
      case None => PoiUnknown
    else PoiUnknown
  }

  /** `(0,0,1,3,4)[k]`: the cloud-cover band of the cloud-only codes. */
  function PoiCloudBand(k: nat): (b: nat)
    requires k < 5
    ensures b < 5
  {
    match k
    case 0 => 0
    case 1 => 0
    case 2 => 1
    case 3 => 3
    case _ => 4
  }

  /** Python truth of a number. */
  predicate Truthy(n: Num) {
    if n.Int? then n.i != 0 else n.x != 0.0
  }

  predicate Below(n: Num, bound: int) {
    if n.Int? then n.i < bound else n.x < bound as real
  }

  /** `DWDPOIthread.get_ww(present_weather, night)`. A truthy code below 5
      is cloud cover only: severity 26, the cloud icons of band
      `(0,0,1,3,4)[code]` and the Aeris name of that band; any other code
      has severity 0 and the icons of its WEATHER row. Indexing the band
      tuple with an int below -5 raises IndexError, with a float TypeError;
      neither is caught. */
  function PoiGetWw(pw: Option<Num>, night: bool): (r: Result<PoiWw>)
    ensures r.Err? <==> pw.Some? && Truthy(pw.value) && Below(pw.value, 5) && (pw.value.Float? || pw.value.i < -5)
    ensures r.Err? ==> r.error == (if pw.value.Float? then TypeError else IndexError)
    ensures r.Ok? ==> r.value.ww.None? && r.value.english == "" && r.value.german == PoiRowOf(pw).german
    ensures r.Ok? ==> (r.value.severity == 26 <==> pw.Some? && Truthy(pw.value) && Below(pw.value, 5))
    ensures r.Ok? && r.value.severity != 26 ==>
      (r.value.severity == 0 && r.value.belchertown == PoiRowOf(pw).belchertown && r.value.dwd == PoiRowOf(pw).dwd && r.value.aeris == "")
  {
    var x := PoiRowOf(pw);
    if pw.Some? && Truthy(pw.value) && Below(pw.value, 5) then
      if pw.value.Float? then Err(TypeError)
      else
        match PyIndex(5, pw.value.i)
        case None => Err(IndexError)
        case Some(k) =>
          var icons := NIconAt(PoiCloudBand(k));
          Ok(PoiWw(None, x.german, "", 26, icons.Icon(night), icons.dwd, icons.AerisIcon(night)))
    else Ok(PoiWw(None, x.german, "", 0, x.belchertown, x.dwd, ""))
  }

  /** For the cloud-only codes 1..4 the cloud branch shows, by day, the
      same Belchertown and DWD icons as the code's own WEATHER row: the
      band tuple lines the codes up with N_ICON_LIST. */
  lemma PoiCloudCodesAgree(code: int)
    requires 1 <= code <= 4
    ensures PoiGetWw(Some(Int(code)), false).Ok?
    ensures var w := PoiGetWw(Some(Int(code)), false).value;
      w.severity == 26 && w.german == PoiWeather(code).german &&
      w.belchertown == PoiWeather(code).belchertown && w.dwd == PoiWeather(code).dwd
  {
  }

  /** The other codes of WEATHER keep their row, with severity 0 and no
      Aeris icon; 0 ('unbekannt') is one of them, being falsy. */
  lemma PoiWeatherCodes(code: int, night: bool)
    requires code == 0 || 5 <= code < 32
    ensures PoiGetWw(Some(Int(code)), night) ==
      Ok(PoiWw(None, PoiWeather(code).german, "", 0, PoiWeather(code).belchertown, PoiWeather(code).dwd, ""))
  {
  }

  /** A missing code, a float or an int beyond the table reads as 'not
      reported' with the unknown icon. */
  lemma PoiUnreported(pw: Option<Num>, night: bool)
    requires pw.None? || (pw.value.Int? && pw.value.i >= 32) || (pw.value.Float? && !(Truthy(pw.value) && Below(pw.value, 5)))
    ensures PoiGetWw(pw, night) == Ok(PoiWw(None, "Wetterzustand nicht gemeldet", "", 0, "unknown.png", "", ""))
  {
  }

  /** A negative code -5..-1 indexes both tuples from the end: the text of
      WEATHER row `32 + code` (-1 is 'Böen') with the cloud icons of band
      `(0,0,1,3,4)[5 + code]`. */
  lemma PoiNegativeCodes(code: int, night: bool)
    requires -5 <= code <= -1
    ensures PoiGetWw(Some(Int(code)), night) ==
      Ok(PoiWw(None, PoiWeather(32 + code).german, "", 26, NIconAt(PoiCloudBand(5 + code)).Icon(night),
               NIconAt(PoiCloudBand(5 + code)).dwd, NIconAt(PoiCloudBand(5 + code)).AerisIcon(night)))
  {
  }

  // ------------------------------------------------------------ Open-Meteo get_ww

  /** A row of `DWDOPENMETEOthread.WEATHER`: German and English text,
      Belchertown, DWD and Aeris icon (its two empty slots left out). */
  datatype OmRow = OmRow(german: string, english: string, belchertown: string, dwd: string, aeris: string)

  /** `DWDOPENMETEOthread.WEATHER.get(code)`: the WMO weather codes of
      Open-Meteo, and -1 for unknown conditions. */
  function OmWeather(code: int): Option<OmRow> {
    if code == -1 then Some(OmRow("unbekannte Wetterbedingungen", "unknown conditions", "unknown.png", "unknown.png", "na"))
    else if code < 0 then None
    else
      match code
      case 0 => Some(OmRow("wolkenlos", "clear sky", "clear-day.png", "0-8.png", "clear"))
      case 1 => Some(OmRow("heiter", "mainly clear", "mostly-clear-day.png", "2-8.png", "fair"))
      case 2 => Some(OmRow("bewölkt", "partly cloudy", "mostly-cloudy-day.png", "5-8.png", "pcloudy"))
      case 3 => Some(OmRow("bedeckt", "overcast", "cloudy.png", "8-8.png", "cloudy"))
      case 45 => Some(OmRow("Nebel", "fog", "fog.png", "40.png", "fog"))
      case 48 => Some(OmRow("gefrierender Nebel", "depositing rime fog", "fog.png", "48.png", ""))
      case 51 => Some(OmRow("leichter Nieselregen", "light drizzle", "rain.png", "7.png", "drizzle"))
      case 53 => Some(OmRow("Nieselregen", "moderate drizzle", "rain.png", "8.png", "drizzle"))
      case 55 => Some(OmRow("starker Nieselregen", "dense drizzle", "rain.png", "9.png", "drizzle"))
      case 56 => Some(OmRow("gefrierender Nieselregen", "light freezing drizzle", "sleet.png", "66.png", "freezingrain"))
      case 57 => Some(OmRow("kräftiger gefrierender Nieselregen", "dense freezing drizzle", "sleet.png", "67.png", "freezingrain"))
      case 61 => Some(OmRow("leichter Regen", "slight rain", "rain.png", "7.png", "rain"))
      case 63 => Some(OmRow("Regen", "moderate rain", "rain.png", "8.png", "rain"))
      case 65 => Some(OmRow("starker Regen", "heavy rain", "rain.png", "9.png", "rain"))
      case 66 => Some(OmRow("gefrierender Regen", "light freezing rain", "sleet.png", "66.png", "freezingrain"))
      case 67 => Some(OmRow("starker gefrierender Regen", "heavy freezing rain", "sleet.png", "67.png", "freezingrain"))
      case 71 => Some(OmRow("leichter Schneefall", "slight snow fall", "snow.png", "14.png", "snow"))
      case 73 => Some(OmRow("Schneefall", "moderate snow fall", "snow.png", "15.png", "snow"))
      case 75 => Some(OmRow("starker Schneefall", "heavy snow fall", "snow.png", "16.png", "snow"))
      case 77 => Some(OmRow("Eiskörner", "snow grains", "snow.png", "17.png", "sleet"))
      case 80 => Some(OmRow("leichter Regenschauer", "slight rain showers", "rain.png", "80.png", "showers"))
      case 81 => Some(OmRow("Regenschauer", "moderate rain showers", "rain.png", "80.png", "showers"))
      case 82 => Some(OmRow("starker Regenschauer", "heavy rain showers", "rain.png", "82.png", "showers"))
      case 85 => Some(OmRow("Schneeregen", "slight snow showers", "sleet.png", "12.png", "rainandsnow"))
      case 86 => Some(OmRow("starker Schneeregen", "heavy snow showers", "sleet.png", "13.png", "rainandsnow"))
      case 95 => Some(OmRow("Gewitter", "thunderstorm", "thunderstorm.png", "27.png", "tstorm"))
      case 96 => Some(OmRow("Gewitter mit Hagel", "thunderstorm with slight hail", "thunderstorm.png", "29.png", "tstorm"))
      case 99 => Some(OmRow("starkes Gewitter mit Hagel", "thunderstorm with slight hail", "thunderstrom.png", "30.png", "tstorm"))
      case _ => None
  }

  /** `(0,1,2,4)[k]`: the cloud-cover band of the codes 0..3. */
  function OmCloudBand(k: nat): (b: nat)
    requires k < 4
    ensures b < 5
  {
    match k
    case 0 => 0
    case 1 => 1
    case 2 => 2
    case _ => 4
  }

  /** `DWDOPENMETEOthread.get_ww(wwcode, night)`: the WEATHER row of the
      code, the row of -1 for an unknown code; codes below 4 keep the
      texts but take the icons of band `(0,1,2,4)[code]`. A code below -4
      cannot index that tuple: IndexError, not caught. */
  function OmGetWw(code: int, night: bool): (r: Result<OmRow>)
    ensures r.Err? <==> code < -4
    ensures r.Err? ==> r.error == IndexError
    ensures r.Ok? ==> r.value.german == (if OmWeather(code).Some? then OmWeather(code).value else OmWeather(-1).value).german
  {
    var x := if OmWeather(code).Some? then OmWeather(code).value else OmWeather(-1).value;
    if code < 4 then
      match PyIndex(4, code)
      case None => Err(IndexError)
      case Some(k) =>
        var icons := NIconAt(OmCloudBand(k));
        Ok(OmRow(x.german, x.english, icons.Icon(night), icons.dwd, icons.AerisIcon(night)))
    else Ok(x)
  }

  /** A listed code from 4 on returns its WEATHER row as it stands. */
  lemma OmListedCodes(code: int, night: bool)
    requires code >= 4 && OmWeather(code).Some?
    ensures OmGetWw(code, night) == Ok(OmWeather(code).value)
  {
  }

  /** An unlisted code from 4 on returns the unknown-conditions row. */
  lemma OmUnlistedCodes(code: int, night: bool)
    requires code >= 4 && OmWeather(code).None?
    ensures OmGetWw(code, night) == Ok(OmRow("unbekannte Wetterbedingungen", "unknown conditions", "unknown.png", "unknown.png", "na"))
  {
  }

  /** The missing-code value -1 keeps the unknown texts but, indexing the
      band tuple from the end, shows the overcast icons. */
  lemma OmMissingCode(night: bool)
    ensures OmGetWw(-1, night) == Ok(OmRow("unbekannte Wetterbedingungen", "unknown conditions",
                                           NIconAt(4).Icon(night), "8-8.png", if night then "cloudyn.png" else "cloudy.png"))
  {
    assert PyIndex(4, -1) == Some(3);
    assert NIconAt(4).AerisIcon(true) == "cloudyn.png";
    assert NIconAt(4).AerisIcon(false) == "cloudy.png";
  }

  /** For the codes 0..3 the cloud icons agree, by DWD icon, with the rows
      WEATHER keeps for documentation. */
  lemma OmCloudCodesAgree(code: int)
    requires 0 <= code < 4
    ensures OmGetWw(code, false).Ok? && OmGetWw(code, false).value.dwd == OmWeather(code).value.dwd
  {
  }

  // ------------------------------------------------------------ _to_weewx

  /** The keys `_to_weewx` leaves out: interval, count and sysStatus, and
      dateTime when the prefix is empty (`legacy`, the copy in `dwd.py`,
      keeps it). The `elif` that would copy interval and count tests a
      subset of the first condition and is never reached. */
  predicate Dropped(key: string, prefix: string, legacy: bool) {
    key == "interval" || key == "count" || key == "sysStatus" || (!legacy && key == "dateTime" && prefix == "")
  }

  /** The name a kept observation gets: `prefix + key[0].upper() + key[1:]`,
      or the key itself when the prefix is empty (not in `legacy`). An empty
      key cannot be capitalised (IndexError). */
  function OutKey(prefix: string, key: string, legacy: bool): (r: Result<string>)
    ensures r.Err? <==> (legacy || prefix != "") && key == ""
    ensures r.Err? ==> r.error == IndexError
    ensures r.Ok? ==> |r.value| == |prefix| + |key| || (!legacy && prefix == "" && r.value == key)
  {
    if !legacy && prefix == "" then Ok(key)
    else if key == "" then Err(IndexError)
    else Ok(prefix + [UpperChar(key[0])] + key[1..])
  }

  /** The value stored: converted to the record's unit system, or the bare
      value when the conversion raises. */
  function Converted(v: ValueTuple, convert: ValueTuple -> Result<Scalar>): Scalar {
    match convert(v)
    case Ok(c) => c
    case Err(_) => v.value
  }

  /** What `_to_weewx` builds from the entries of a reply, one after the
      other; a later entry under the same name replaces an earlier one. */
  function ToWeewxOf(prefix: string, reply: Dict, convert: ValueTuple -> Result<Scalar>, legacy: bool): Result<map<string, Scalar>> {
    if reply == [] then Ok(map[])
    else
      match ToWeewxOf(prefix, reply[..|reply| - 1], convert, legacy)
      case Err(e) => Err(e)
      case Ok(d) =>
        var (key, v) := reply[|reply| - 1];
        if Dropped(key, prefix, legacy) then Ok(d)
        else
          match OutKey(prefix, key, legacy)
          case Err(e) => Err(e)
          case Ok(k) => Ok(d[k := Converted(v, convert)])
  }

  /** `_to_weewx(thread_name, reply, usUnits)`, `convert` standing for
      `convertStd(..., usUnits)`. */
  method ToWeewx(prefix: string, reply: Dict, convert: ValueTuple -> Result<Scalar>, legacy: bool) returns (r: Result<map<string, Scalar>>)
    ensures r == ToWeewxOf(prefix, reply, convert, legacy)
  {
    var data: map<string, Scalar> := map[];
    for i := 0 to |reply|
      invariant ToWeewxOf(prefix, reply[..i], convert, legacy) == Ok(data)
    {
      assert reply[..i + 1][..i] == reply[..i];
      var (key, v) := reply[i];
      if !Dropped(key, prefix, legacy) {
        var k;
        if !legacy && prefix == "" {
          k := key;
        } else {
          if key == "" {
            ToWeewxErrStays(prefix, reply, convert, legacy, i + 1);
            return Err(IndexError);
          }
          k := prefix + [UpperChar(key[0])] + key[1..];
        }
        data := data[k := Converted(v, convert)];
      }
    }
    assert reply[..|reply|] == reply;
    r := Ok(data);
  }

  lemma {:induction false} ToWeewxErrStays(prefix: string, reply: Dict, convert: ValueTuple -> Result<Scalar>, legacy: bool, i: nat)
    requires i <= |reply| && ToWeewxOf(prefix, reply[..i], convert, legacy).Err?
    ensures ToWeewxOf(prefix, reply, convert, legacy) == ToWeewxOf(prefix, reply[..i], convert, legacy)
    decreases |reply| - i
  {
    if i < |reply| {
      assert reply[..i + 1][..i] == reply[..i];
      ToWeewxErrStays(prefix, reply, convert, legacy, i + 1);
    } else {
      assert reply[..i] == reply;
    }
  }

  /** The record gets a name for every kept entry and no other: an entry
      of the reply is kept iff it is not dropped. `_to_weewx` fails iff it
      must capitalise an empty key. */
  lemma {:induction false} ToWeewxKeys(prefix: string, reply: Dict, convert: ValueTuple -> Result<Scalar>, legacy: bool)
    ensures ToWeewxOf(prefix, reply, convert, legacy).Err? <==>
      exists i :: 0 <= i < |reply| && !Dropped(reply[i].0, prefix, legacy) && OutKey(prefix, reply[i].0, legacy).Err?
    ensures ToWeewxOf(prefix, reply, convert, legacy).Ok? ==>
      var d := ToWeewxOf(prefix, reply, convert, legacy).value;
      (forall i :: 0 <= i < |reply| && !Dropped(reply[i].0, prefix, legacy) ==> OutKey(prefix, reply[i].0, legacy).value in d) &&
      (forall k :: k in d ==> exists i :: 0 <= i < |reply| && !Dropped(reply[i].0, prefix, legacy) && OutKey(prefix, reply[i].0, legacy) == Ok(k))
    decreases |reply|
  {
    if reply != [] {
      var front := reply[..|reply| - 1];
      ToWeewxKeys(prefix, front, convert, legacy);
      assert forall i :: 0 <= i < |front| ==> front[i] == reply[i];
    }
  }

  /** Without a prefix the names are the keys, and none of interval, count,
      sysStatus and dateTime is passed on. */
  lemma ToWeewxReserved(reply: Dict, convert: ValueTuple -> Result<Scalar>)
    ensures ToWeewxOf("", reply, convert, false).Ok? ==>
      var d := ToWeewxOf("", reply, convert, false).value;
      "interval" !in d && "count" !in d && "sysStatus" !in d && "dateTime" !in d
  {
    ToWeewxKeys("", reply, convert, false);
    var r := ToWeewxOf("", reply, convert, false);
    if r.Ok? {
      var d := r.value;
      forall k | k in d ensures k != "interval" && k != "count" && k != "sysStatus" && k != "dateTime" {
        var i :| 0 <= i < |reply| && !Dropped(reply[i].0, "", false) && OutKey("", reply[i].0, false) == Ok(k);
      }
    }
  }

  /** The value under a name is that of the last entry renamed to it. */
  lemma {:induction false} ToWeewxLastWins(prefix: string, reply: Dict, convert: ValueTuple -> Result<Scalar>, legacy: bool, i: nat)
    requires i < |reply| && !Dropped(reply[i].0, prefix, legacy) && OutKey(prefix, reply[i].0, legacy).Ok?
    requires forall j :: i < j < |reply| && !Dropped(reply[j].0, prefix, legacy) ==> OutKey(prefix, reply[j].0, legacy) != OutKey(prefix, reply[i].0, legacy)
    requires ToWeewxOf(prefix, reply, convert, legacy).Ok?
    ensures var d, k := ToWeewxOf(prefix, reply, convert, legacy).value, OutKey(prefix, reply[i].0, legacy).value;
      k in d && d[k] == Converted(reply[i].1, convert)
    decreases |reply|
  {
    ToWeewxKeys(prefix, reply, convert, legacy);
    var front := reply[..|reply| - 1];
    if i < |reply| - 1 {
      assert forall j :: 0 <= j < |front| ==> front[j] == reply[j];
      ToWeewxLastWins(prefix, front, convert, legacy, i);
    }
  }

  // ------------------------------------------------------------ staleness

  /** `d.get(key)`. */
  function Lookup(d: Dict, key: string): (r: Option<ValueTuple>)
    ensures r.Some? <==> exists i :: 0 <= i < |d| && d[i].0 == key
  {
    if d == [] then None
    else if d[0].0 == key then Some(d[0].1)
    else
      var r := Lookup(d[1..], key);
      assert forall i :: 1 <= i < |d| ==> d[i] == d[1..][i - 1];
      r
  }

  function NumValue(n: Num): real {
    if n.Int? then n.i as real else n.x
  }

  /** The test of `new_archive_record`: the data are stale when their time
      (the record's own `ts` when they have none) is None or more than
      three hours (10800 s) before `ts`; a text cannot be compared with a
      number (TypeError). */
  function IsStale(d: Dict, ts: real): Result<bool> {
    var x := if Lookup(d, "dateTime").Some? then Lookup(d, "dateTime").value.value else Number(Float(ts));
    match x
    case Null => Ok(true)
    case Number(n) => Ok(NumValue(n) < ts - 10800.0)
    case Str(_) => Err(TypeError)
  }

  /** The keys whose values stale data keep. */
  predicate KeepsValue(key: string) {
    key == "interval" || key == "latitude" || key == "longitude" || key == "altitude"
  }

  /** Stale data: every value but those of KeepsValue set to None, units kept. */
  function Blanked(d: Dict): (r: Dict)
    ensures |r| == |d|
  {
    seq(|d|, i requires 0 <= i < |d| =>
      if KeepsValue(d[i].0) then d[i] else (d[i].0, ValueTuple(Null, d[i].1.unit, d[i].1.group)))
  }

  /** The loop of `new_archive_record` over stale data. */
  method AgeOut(d: Dict, ts: real) returns (r: Result<Dict>)
    ensures IsStale(d, ts).Err? ==> r == Err(IsStale(d, ts).error)
    ensures IsStale(d, ts).Ok? ==> r == Ok(if IsStale(d, ts).value then Blanked(d) else d)
  {
    var x := Lookup(d, "dateTime");
    var t := if x.Some? then x.value.value else Number(Float(ts));
    if t.Str? {
      return Err(TypeError);
    }
    if t.Number? && NumValue(t.n) >= ts - 10800.0 {
      return Ok(d);
    }
    var data := d;
    for i := 0 to |d|
      invariant |data| == |d|
      invariant forall j :: 0 <= j < i ==> data[j] == Blanked(d)[j]
      invariant forall j :: i <= j < |d| ==> data[j] == d[j]
    {
      if !KeepsValue(data[i].0) {
        data := data[i := (data[i].0, ValueTuple(Null, data[i].1.unit, data[i].1.group))];
      }
    }
    assert data == Blanked(d);
    r := Ok(data);
  }

  /** Blanking keeps the keys, their order and their units, and every
      value of interval, latitude, longitude and altitude; all other values
      become None. Blanked data stay stale at any later time when they have
      a dateTime, and blanking them again changes nothing. */
  lemma BlankedShape(d: Dict, ts: real)
    ensures forall i :: 0 <= i < |d| ==> Blanked(d)[i].0 == d[i].0 && Blanked(d)[i].1.unit == d[i].1.unit && Blanked(d)[i].1.group == d[i].1.group
    ensures forall i :: 0 <= i < |d| ==> Blanked(d)[i].1.value == (if KeepsValue(d[i].0) then d[i].1.value else Null)
    ensures Blanked(Blanked(d)) == Blanked(d)
    ensures Lookup(d, "dateTime").Some? ==> IsStale(Blanked(d), ts) == Ok(true)
  {
    var b := Blanked(d);
    if Lookup(d, "dateTime").Some? {
      LookupBlanked(d);
    }
  }

  lemma {:induction false} LookupBlanked(d: Dict)
    requires Lookup(d, "dateTime").Some?
    ensures Lookup(Blanked(d), "dateTime") == Some(ValueTuple(Null, Lookup(d, "dateTime").value.unit, Lookup(d, "dateTime").value.group))
  {
    var b := Blanked(d);
    if d[0].0 != "dateTime" {
      assert Blanked(d[1..]) == b[1..];
      LookupBlanked(d[1..]);
    }
  }

  // ------------------------------------------------------------ DWDXType.remember

  /** The time of a LOOP packet: its dateTime, `now` when it has none. */
  function PacketTime(packet: map<string, Option<real>>, now: real): Option<real> {
    if "dateTime" in packet then packet["dateTime"] else Some(now)
  }

  /** The readings `barometerDWD` falls back on between packets. */
  class DwdXType {
    var outTemp: Option<real>
    var outHumidity: Option<real>
    /** When each reading was last seen; None once a packet stamped None
        was remembered. */
    var outTempLastSeen: Option<real>
    var outHumidityLastSeen: Option<real>

    constructor ()
      ensures outTemp.None? && outHumidity.None?
      ensures outTempLastSeen == Some(0.0) && outHumidityLastSeen == Some(0.0)
    {
      outTemp := None;
      outHumidity := None;
      outTempLastSeen := Some(0.0);
      outHumidityLastSeen := Some(0.0);
    }

    /** `remember(packet)`: the readings of the packet in metric units
        (`convert`, whose failures are caught) with their time, then each
        reading not seen within 300 s of the packet is forgotten. A time of
        None cannot be compared (TypeError, raised to the caller). */
    method Remember(packet: Option<map<string, Option<real>>>, now: real,
                    convert: (map<string, Option<real>>, string) -> Result<Option<real>>) returns (err: Option<PyError>)
      modifies this
      ensures packet.None? ==> (err.None? && outTemp == old(outTemp) && outHumidity == old(outHumidity) &&
        outTempLastSeen == old(outTempLastSeen) && outHumidityLastSeen == old(outHumidityLastSeen))
      ensures packet.Some? ==>
        var p, ts := packet.value, PacketTime(packet.value, now);
        var tempSeen := "outTemp" in p && convert(p, "outTemp").Ok?;
        var humSeen := "outHumidity" in p && convert(p, "outHumidity").Ok?;
        var temp := if tempSeen then convert(p, "outTemp").value else old(outTemp);
        var hum := if humSeen then convert(p, "outHumidity").value else old(outHumidity);
        outTempLastSeen == (if tempSeen then ts else old(outTempLastSeen)) &&
        outHumidityLastSeen == (if humSeen then ts else old(outHumidityLastSeen)) &&
        (if ts.None? || outTempLastSeen.None? then
           err == Some(TypeError) && outTemp == temp && outHumidity == hum
         else
           outTemp == (if outTempLastSeen.value < ts.value - 300.0 then None else temp) &&
           (if outHumidityLastSeen.None? then err == Some(TypeError) && outHumidity == hum
            else err.None? && outHumidity == (if outHumidityLastSeen.value < ts.value - 300.0 then None else hum)))
      ensures err.None? && packet.Some? ==>
        PacketTime(packet.value, now).Some? &&
        (outTemp.Some? ==> outTempLastSeen.Some? && outTempLastSeen.value >= PacketTime(packet.value, now).value - 300.0) &&
        (outHumidity.Some? ==> outHumidityLastSeen.Some? && outHumidityLastSeen.value >= PacketTime(packet.value, now).value - 300.0)
    {
      if packet.None? {
        return None;
      }
      var p := packet.value;
      var ts := if "dateTime" in p then p["dateTime"] else Some(now);
      if "outTemp" in p {
        var t := convert(p, "outTemp");
        if t.Ok? {
          outTemp := t.value;
          outTempLastSeen := ts;
        }
      }
      if "outHumidity" in p {
        var h := convert(p, "outHumidity");
        if h.Ok? {
          outHumidity := h.value;
          outHumidityLastSeen := ts;
        }
      }
      if ts.None? || outTempLastSeen.None? {
        return Some(TypeError);
      }
      if outTempLastSeen.value < ts.value - 300.0 {
        outTemp := None;
      }
      if outHumidityLastSeen.None? {
        return Some(TypeError);
      }
      if outHumidityLastSeen.value < ts.value - 300.0 {
        outHumidity := None;
      }
      err := None;
    }
  }
}
