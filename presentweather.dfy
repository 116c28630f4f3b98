/** Present-weather resolution of `weathercodes.py`: the most important
    code among the candidates (`get_ww`), the cloud-cover bands
    (`get_cloudcover`), the okta-to-icon map of `svg_icon_n` and the
    recolouring of symbols (`decolor_ww`). */
module PresentWeather {
  import opened Builtins
  import opened CodeTables

  // ------------------------------------------------------------ get_cloudcover

  /** The lower edge of cloud-cover band `k` (1..6), in percent. */
  function BandEdge(k: nat): real
    requires 1 <= k <= 6
  {
    match k
    case 1 => 7.0
    case 2 => 32.0
    case 3 => 70.0
    case 4 => 95.0
    case 5 => 106.25
    case _ => 118.75
  }

  /** Which of the seven results `get_cloudcover` picks: the number of band
      edges at or below `n`. */
  function CloudCoverBand(n: real): (b: nat)
    ensures b <= 6
    ensures forall k :: 1 <= k <= 6 ==> (k <= b <==> BandEdge(k) <= n)
  {
    if n < 7.0 then 0
    else if n < 32.0 then 1
    else if n < 70.0 then 2
    else if n < 95.0 then 3
    else if n < 106.25 then 4
    else if n < 118.75 then 5
    else 6
  }

  /** The band never drops when the cloud cover grows. */
  lemma CloudCoverBandMonotone(n: real, m: real)
    requires n <= m
    ensures CloudCoverBand(n) <= CloudCoverBand(m)
  {
    var b := CloudCoverBand(n);
    if b > 0 {
      assert BandEdge(b) <= n;
    }
  }

  const FogIcons := CloudIcons("fog.png", "fog.png", "40.png", "::BR", "fog", "wi-fog", "wi-fog")
  const UnknownIcons := CloudIcons("unknown.png", "unknown.png", "", "::", "na", "wi-na", "wi-na")

  /** `get_cloudcover(n)`: the icons for a cloud cover in percent; None
      for a missing value. */
  function GetCloudCover(n: Option<real>): (r: Option<CloudIcons>)
    ensures r.None? <==> n.None?
  {
    match n
    case None => None
    case Some(v) =>
      if v < 7.0 then Some(NIcon(0))
      else if v < 32.0 then Some(NIcon(1))
      else if v < 70.0 then Some(NIcon(2))
      else if v < 95.0 then Some(NIcon(3))
      else if v < 106.25 then Some(NIcon(4))
      else if v < 118.75 then Some(FogIcons)
      else Some(UnknownIcons)
  }

  /** The seven results in band order. */
  function BandIcons(b: nat): CloudIcons
    requires b <= 6
  {
    if b < 5 then NIcon(b) else if b == 5 then FogIcons else UnknownIcons
  }

  /** `get_cloudcover` is the icon set of the band the value falls in:
      95 up to 106.25 is overcast, 106.25 up to 118.75 fog, from 118.75 on
      unknown. */
  lemma GetCloudCoverByBand(n: real)
    ensures GetCloudCover(Some(n)) == Some(BandIcons(CloudCoverBand(n)))
    ensures 95.0 <= n < 106.25 ==> GetCloudCover(Some(n)) == Some(NIcon(4))
    ensures 106.25 <= n < 118.75 ==> GetCloudCover(Some(n)) == Some(FogIcons)
    ensures 118.75 <= n ==> GetCloudCover(Some(n)) == Some(UnknownIcons)
  {
  }

  // ------------------------------------------------------------ get_ww

  /** The tuple `get_ww` returns: the WW_LIST row plus the WW_SYMBOLS entry
      of its code. */
  datatype WwCode = WwCode(
    ww: nat,
    german: string,
    english: string,
    severity: Option<nat>,
    belchertownIcon: Option<string>,
    dwdIcon: Option<string>,
    aerisIcon: Option<string>,
    aerisCode: Option<string>,
    wiIcon: Option<string>,
    symbol: Option<Svg>)

  /** The tuple for a candidate list that names no code of WW_LIST. */
  function DefaultWwCode(): WwCode {
    WwCode(0, "", "", Some(30), Some("unknown.png"), Some("unknown.png"), Some("na.png"), Some(""), Some("wi_na"), SymbolAt(Ww, 0))
  }

  /** The walk over WW_LIST from row `i` on: the first row whose code is a
      candidate. */
  function FirstListed(ww: seq<int>, i: nat): (r: Option<nat>)
    requires i <= 100
    ensures r.Some? ==> i <= r.value < 100 && WwCodeAt(r.value) in ww
    ensures r.Some? ==> Unlisted(ww, i, r.value)
    ensures r.None? ==> Unlisted(ww, i, 100)
    decreases 100 - i
  {
    if i == 100 then None
    else if WwCodeAt(i) in ww then Some(i)
    else
      var r := FirstListed(ww, i + 1);
      UnlistedStep(ww, i, if r.Some? then r.value else 100);
      r
  }

  /** No row from `i` up to `j` holds a candidate code. */
  predicate Unlisted(ww: seq<int>, i: nat, j: nat)
    requires j <= 100
  {
    forall k :: i <= k < j ==> WwCodeAt(k) !in ww
  }

  lemma UnlistedStep(ww: seq<int>, i: nat, j: nat)
    requires i < j <= 100 && WwCodeAt(i) !in ww && Unlisted(ww, i + 1, j)
    ensures Unlisted(ww, i, j)
  {
  }

  /** The walk from `i` stops at `j` when row `j` is the first from `i` on
      holding a candidate. */
  lemma {:induction false} FirstListedFrom(ww: seq<int>, i: nat, j: nat)
    requires i <= j < 100 && WwCodeAt(j) in ww && Unlisted(ww, i, j)
    ensures FirstListed(ww, i) == Some(j)
    decreases j - i
  {
    if i < j {
      assert WwCodeAt(i) !in ww;
      FirstListedFrom(ww, i + 1, j);
    }
  }

  /** A single candidate code is found at its own row. */
  lemma FirstListedSingle(c: nat)
    requires c < 100
    ensures FirstListed([c], 0) == Some(WwPosition(c))
  {
    var j := WwPosition(c);
    forall k | 0 <= k < j
      ensures WwCodeAt(k) !in [c]
    {
      RowPosition(k);
    }
    FirstListedFrom([c], 0, j);
  }

  /** The WW_LIST row `i` with its symbol appended. */
  function RowCode(i: nat): (w: WwCode)
    requires i < 100
    ensures w.ww == WwCodeAt(i) && w.severity == WwSeverityAt(i)
  {
    var e := WwListAt(i);
    WwCode(e.ww, e.german, e.english, e.severity, e.belchertownIcon, e.dwdIcon, e.aerisIcon, e.aerisCode, e.wiIcon,
           if e.ww < 100 then SymbolAt(Ww, e.ww) else None)
  }

  /** The loop part of `get_ww`, before the cloud-cover override. */
  function SelectWw(ww: seq<int>): WwCode {
    match FirstListed(ww, 0)
    case Some(i) => RowCode(i)
    case None => DefaultWwCode()
  }

  /** Codes whose icons and text `get_ww` takes from the cloud cover: cloud
      development (0..3), precipitation not at the station (14..16) and
      events of the past hour (20..29). */
  predicate IsCloudCode(c: int) {
    c <= 3 || (20 <= c < 30) || c in {14, 15, 16}
  }

  /** The DWD icon chosen by the thresholds 12.5, 50 and 87.5 %. */
  function DwdCloudIcon(n: int): string {
    if (n as real) < 12.5 then NIcon(0).dwdIcon
    else if n < 50 then NIcon(1).dwdIcon
    else if (n as real) < 87.5 then NIcon(2).dwdIcon
    else NIcon(4).dwdIcon
  }

  /** `get_ww(ww, n, night)` with the cloud cover as an integer percentage
      (the binders convert it with `to_int` first): the code and severity are
      always the selected row's; for a cloud code with a known cover the
      icons are the cover's, otherwise the row is returned unchanged. */
  function GetWw(ww: seq<int>, n: Option<int>, night: bool): (r: WwCode)
    ensures r.ww == SelectWw(ww).ww && r.severity == SelectWw(ww).severity
    ensures !(IsCloudCode(r.ww) && n.Some?) ==> r == SelectWw(ww)
    ensures IsCloudCode(r.ww) && n.Some? ==>
      r.dwdIcon == Some(DwdCloudIcon(n.value)) &&
      r.belchertownIcon == Some(GetCloudCover(Some(n.value as real)).value.Icon(night))
  {
    var w := SelectWw(ww);
    if IsCloudCode(w.ww) && n.Some? then
      var v := n.value;
      var cover := GetCloudCover(Some(v as real)).value;
      WwCode(w.ww, w.german + " " + IntToString(v) + "%", w.english + " " + IntToString(v), w.severity,
             Some(cover.Icon(night)), Some(DwdCloudIcon(v)), Some(cover.aerisIcon), Some("::" + cover.aerisCode),
             Some(cover.WiIcon(night)), SymbolAt(Ww, w.ww))
    else w
  }

  /** Is code `c` listed in WW_LIST before code `d`? */
  predicate ListedBefore(c: nat, d: nat)
    requires c < 100 && d < 100
  {
    WwPosition(c) < WwPosition(d)
  }

  /** `get_ww` returns the candidate listed earliest in WW_LIST, whatever the
      order of the candidates, and the default only when no candidate is a
      code 0..99. */
  lemma {:induction false} GetWwPicksEarliest(ww: seq<int>, n: Option<int>, night: bool)
    ensures var r := GetWw(ww, n, night);
      (exists x :: x in ww && 0 <= x < 100) ==>
        r.ww in ww && r.ww < 100 && forall d :: d in ww && 0 <= d < 100 && d != r.ww ==> ListedBefore(r.ww, d)
    ensures (forall x :: x in ww ==> !(0 <= x < 100)) <==> SelectWw(ww) == DefaultWwCode()
  {
    match FirstListed(ww, 0)
    case Some(i) =>
      EarliestListed(ww, i);
      assert GetWw(ww, n, night).ww == WwCodeAt(i);
    case None =>
      NoneListed(ww);
  }

  /** The row the walk stops at holds a candidate listed before every
      other candidate. */
  lemma EarliestListed(ww: seq<int>, i: nat)
    requires FirstListed(ww, 0) == Some(i)
    ensures WwCodeAt(i) in ww && WwCodeAt(i) < 100
    ensures forall d :: d in ww && 0 <= d < 100 && d != WwCodeAt(i) ==> ListedBefore(WwCodeAt(i), d)
  {
    var c := WwCodeAt(i);
    RowPosition(i);
    forall d | d in ww && 0 <= d < 100 && d != c
      ensures ListedBefore(c, d)
    {
      var j := WwPosition(d);
      assert WwCodeAt(j) == d;
    }
  }

  /** A walk that finds nothing had no candidate code 0..99. */
  lemma NoneListed(ww: seq<int>)
    requires FirstListed(ww, 0).None?
    ensures forall x :: x in ww ==> !(0 <= x < 100)
  {
    forall x | 0 <= x < 100
      ensures x !in ww
    {
      assert WwCodeAt(WwPosition(x)) == x;
    }
  }

  lemma RowPosition(i: nat)
    requires i < 100
    ensures WwCodeAt(i) < 100 && WwPosition(WwCodeAt(i)) == i
  {
    WwListRowsAreCodes();
  }

  /** Only the set of candidates matters. */
  lemma {:induction false} GetWwIgnoresOrder(ww1: seq<int>, ww2: seq<int>, n: Option<int>, night: bool)
    requires forall x :: x in ww1 <==> x in ww2
    ensures GetWw(ww1, n, night) == GetWw(ww2, n, night)
  {
    FirstListedSameSet(ww1, ww2, 0);
  }

  lemma {:induction false} FirstListedSameSet(ww1: seq<int>, ww2: seq<int>, i: nat)
    requires i <= 100
    requires forall x :: x in ww1 <==> x in ww2
    ensures FirstListed(ww1, i) == FirstListed(ww2, i)
    decreases 100 - i
  {
    if i < 100 && WwCodeAt(i) !in ww1 {
      FirstListedSameSet(ww1, ww2, i + 1);
    }
  }

  /** The cloud-cover override: it applies exactly to cloud codes with a
      known cover, keeps code and severity, appends the percentage to both
      texts and takes the DWD icon from the 12.5/50/87.5 thresholds rather
      than from the band. */
  lemma GetWwCloudOverride(ww: seq<int>, n: Option<int>, night: bool)
    ensures var w, r := SelectWw(ww), GetWw(ww, n, night);
      r.ww == w.ww && r.severity == w.severity &&
      (!(IsCloudCode(w.ww) && n.Some?) ==> r == w) &&
      (IsCloudCode(w.ww) && n.Some? ==>
        r.german == w.german + " " + IntToString(n.value) + "%" &&
        r.english == w.english + " " + IntToString(n.value) &&
        r.belchertownIcon == Some(BandIcons(CloudCoverBand(n.value as real)).Icon(night)) &&
        r.dwdIcon == Some(DwdCloudIcon(n.value)))
  {
    if n.Some? {
      GetCloudCoverByBand(n.value as real);
    }
  }

  /** A thunderstorm 95 ranks first in WW_LIST, with severity 1. */
  lemma GetWwThunderstorm(n: Option<int>, night: bool)
    ensures GetWw([95], n, night).ww == 95 && GetWw([95], n, night).severity == Some(1)
  {
    FirstListedSingle(95);
    assert WwPosition(95) == 5;
    assert SelectWw([95]) == RowCode(5);
  }

  /** Of ice pellets 79 and a dry thunderstorm 17 the ice pellets win, in
      either order. */
  lemma GetWwIcePellets(n: Option<int>, night: bool)
    ensures GetWw([79, 17], n, night).ww == 79 && GetWw([17, 79], n, night).ww == 79
  {
    assert WwCodeAt(15) == 79;
    FirstListedIcePellets([79, 17]);
    FirstListedIcePellets([17, 79]);
  }

  lemma FirstListedIcePellets(ww: seq<int>)
    requires ww == [79, 17] || ww == [17, 79]
    ensures FirstListed(ww, 0) == Some(15)
  {
    assert FirstListed(ww, 7) == Some(15);
  }

  /** With no code at 90 % cloud cover the DWD icon is that of the
      thresholds of `get_ww`, 8/8, while `get_cloudcover` gives 5/8. */
  lemma GetWwCloudIcon()
    ensures GetWw([], Some(90), false).dwdIcon == Some("8-8.png")
    ensures GetCloudCover(Some(90.0)).value.dwdIcon == "5-8.png"
  {
    assert FirstListed([], 0).None? by {
      assert Unlisted([], 0, 100);
    }
  }

  // ------------------------------------------------------------ svg_icon_n

  /** Which SVG_ICON_N entry `svg_icon_n` draws for a cloud cover in okta:
      the index map (0,1,1,2,2,2,3,3,4,5,6), read with Python indexing; None
      where the source returns the empty string. */
  function OktaIconIndex(okta: int): (r: Option<nat>)
    ensures r.Some? <==> -11 <= okta < 11
    ensures r.Some? ==> r.value <= 6
  {
    var map_ := [0, 1, 1, 2, 2, 2, 3, 3, 4, 5, 6];
    match PyIndex(|map_|, okta)
    case None => None
    case Some(i) => Some(map_[i])
  }

  /** From 0 to 10 okta the icon index never decreases, clear sky is 0, sky
      not visible (9) is the fog icon 5 and no data (10) the unknown icon 6. */
  lemma OktaIconIndexMonotone(a: int, b: int)
    requires 0 <= a <= b <= 10
    ensures OktaIconIndex(a).value <= OktaIconIndex(b).value
    ensures OktaIconIndex(0) == Some(0) && OktaIconIndex(9) == Some(5) && OktaIconIndex(10) == Some(6)
  {
  }

  // ------------------------------------------------------------ decolor_ww

  /** The colours `decolor_ww` replaces, in the order it replaces them. */
  const SymbolColours: seq<string> := ["#ffc83f", "#ed1c24", "#00d700", "#ac00ff", "#000000", "black", "currentColor"]

  function ReplaceAll(s: string, colours: seq<string>, colour: string): string
    requires forall k :: 0 <= k < |colours| ==> |colours[k]| > 0
    decreases |colours|
  {
    if colours == [] then s else ReplaceAll(Replace(s, colours[0], colour), colours[1..], colour)
  }

  /** `decolor_ww(symbol, color)`. */
  function Decolor(symbol: string, colour: Option<string>): string {
    match colour
    case None => symbol
    case Some(c) => ReplaceAll(symbol, SymbolColours, c)
  }

  /** Without a colour, or in a symbol that uses none of the replaced
      colours, nothing changes. */
  lemma DecolorKeepsUncoloured(symbol: string, colour: Option<string>)
    requires colour.Some? ==> forall k :: 0 <= k < |SymbolColours| ==> !Occurs(symbol, SymbolColours[k])
    ensures Decolor(symbol, colour) == symbol
  {
    if colour.Some? {
      ReplaceAllAbsent(symbol, SymbolColours, colour.value);
    }
  }

  lemma {:induction false} ReplaceAllAbsent(s: string, colours: seq<string>, colour: string)
    requires forall k :: 0 <= k < |colours| ==> |colours[k]| > 0 && !Occurs(s, colours[k])
    ensures ReplaceAll(s, colours, colour) == s
  {
    if colours != [] {
      ReplaceAbsent(s, colours[0], colour);
      ReplaceAllAbsent(s, colours[1..], colour);
    }
  }
}
