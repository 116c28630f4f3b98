/** The code tables of `weathercodes.py`: WW_LIST (present weather by
    importance), N_ICON_LIST (cloud-cover icons), OKTA_TEXTS, and the
    registry WMO_TABLES of SVG symbols for WMO code tables 2700 (cloud cover
    in okta), 4561 (past weather W), 4531 (past weather Wa), 4677 (present
    weather ww) and 4680 (present weather wawa). The SVG texts themselves are
    opaque: a symbol is named by the table and slot where its text is written
    out, so a slot that reuses another table's entry resolves to that entry. */
module CodeTables {
  import opened Builtins

  // ------------------------------------------------------------ WW_LIST

  /** One row of WW_LIST: ww code, German and English description, MOSMIX
      severity, Belchertown icon, DWD icon, Aeris icon, Aeris coded weather
      and Weather Icons class. The list leaves some of them out (None). */
  datatype WwEntry = WwEntry(
    ww: nat,
    german: string,
    english: string,
    severity: Option<nat>,
    belchertownIcon: Option<string>,
    dwdIcon: Option<string>,
    aerisIcon: Option<string>,
    aerisCode: Option<string>,
    wiIcon: Option<string>)

  /** The ww code in row `i` of WW_LIST, the hand-ordered list of
      present-weather codes with the most important one first. */
  function WwCodeAt(i: nat): nat
    requires i < 100
  {
    match i
      case 0 => 19
      case 1 => 99
      case 2 => 98
      case 3 => 97
      case 4 => 96
      case 5 => 95
      case 6 => 57
      case 7 => 56
      case 8 => 67
      case 9 => 66
      case 10 => 24
      case 11 => 90
      case 12 => 89
      case 13 => 88
      case 14 => 87
      case 15 => 79
      case 16 => 94
      case 17 => 93
      case 18 => 92
      case 19 => 91
      case 20 => 86
      case 21 => 85
      case 22 => 84
      case 23 => 83
      case 24 => 82
      case 25 => 81
      case 26 => 80
      case 27 => 75
      case 28 => 74
      case 29 => 73
      case 30 => 72
      case 31 => 71
      case 32 => 70
      case 33 => 69
      case 34 => 68
      case 35 => 59
      case 36 => 58
      case 37 => 55
      case 38 => 54
      case 39 => 53
      case 40 => 52
      case 41 => 51
      case 42 => 50
      case 43 => 65
      case 44 => 64
      case 45 => 63
      case 46 => 62
      case 47 => 61
      case 48 => 60
      case 49 => 78
      case 50 => 77
      case 51 => 76
      case 52 => 49
      case 53 => 48
      case 54 => 47
      case 55 => 46
      case 56 => 45
      case 57 => 44
      case 58 => 43
      case 59 => 42
      case 60 => 41
      case 61 => 40
      case 62 => 39
      case 63 => 38
      case 64 => 37
      case 65 => 36
      case 66 => 35
      case 67 => 34
      case 68 => 33
      case 69 => 32
      case 70 => 31
      case 71 => 30
      case 72 => 18
      case 73 => 17
      case 74 => 16
      case 75 => 15
      case 76 => 14
      case 77 => 13
      case 78 => 12
      case 79 => 11
      case 80 => 10
      case 81 => 9
      case 82 => 8
      case 83 => 7
      case 84 => 6
      case 85 => 5
      case 86 => 4
      case 87 => 29
      case 88 => 28
      case 89 => 27
      case 90 => 26
      case 91 => 25
      case 92 => 23
      case 93 => 22
      case 94 => 21
      case 95 => 20
      case 96 => 3
      case 97 => 2
      case 98 => 1
      case _ => 0
  }

  /** The severity in row `i` of WW_LIST. */
  function WwSeverityAt(i: nat): Option<nat>
    requires i < 100
  {
    match i
      case 5 => Some(1)
      case 6 => Some(2)
      case 7 => Some(3)
      case 8 => Some(4)
      case 9 => Some(5)
      case 20 => Some(6)
      case 21 => Some(7)
      case 22 => Some(8)
      case 23 => Some(9)
      case 24 => Some(10)
      case 25 => Some(11)
      case 26 => Some(12)
      case 27 => Some(13)
      case 29 => Some(14)
      case 31 => Some(15)
      case 33 => Some(16)
      case 34 => Some(17)
      case 37 => Some(18)
      case 39 => Some(19)
      case 41 => Some(20)
      case 43 => Some(21)
      case 45 => Some(22)
      case 47 => Some(23)
      case 52 => Some(24)
      case 56 => Some(25)
      case 96 => Some(26)
      case 97 => Some(27)
      case 98 => Some(28)
      case 99 => Some(29)
      case _ => None
  }

  /** Texts and icons WW_LIST gives for code `c`: German and English
      description, Belchertown icon, DWD icon, Aeris icon, Aeris coded
      weather and Weather Icons class. */
  datatype WwDetails = WwDetails(
    german: string,
    english: string,
    belchertownIcon: Option<string>,
    dwdIcon: Option<string>,
    aerisIcon: Option<string>,
    aerisCode: Option<string>,
    wiIcon: Option<string>)

  function WwDetailsOf(c: nat): WwDetails
    requires c < 100
  {
    match c
      case 0 => WwDetails("keine Bewölkungsentwicklung", "no cloud cover development", None, None, None, None, None)
      case 1 => WwDetails("Bewölkung abnehmend", "Clouds generally dissolving or becoming less developed", None, None, None, None, None)
      case 2 => WwDetails("Bewölkung unverändert", "State of sky on the whole unchanged", None, None, None, None, None)
      case 3 => WwDetails("Bewölkung zunehmend", "Clouds generally forming or developing", None, None, None, None, None)
      case 4 => WwDetails("durch Rauch oder Vulkanasche eingeschränkte Sicht", "visbility reduced by smoke or volcanic ashes", Some("fog.png"), Some("40.png"), Some("smoke"), Some("::K"), Some("wi-smog"))
      case 5 => WwDetails("trockener Dunst", "haze", None, None, Some("hazy"), Some("::H"), Some("wi-dust"))
      case 6 => WwDetails("Staub in der Luft, kein Wind", "widespread dust in suspension in the air, not raised by wind", None, None, Some("dust"), Some("::H"), Some("wi-dust"))
      case 7 => WwDetails("Staub oder Sand aufgewirbelt in der Luft", "dust or sand raised by wind", None, None, Some("dust"), Some("::BD"), Some("wi-windy"))
      case 8 => WwDetails("kleine Wirbel mit Staub oder Sand", "well developed dust whirl(s) or sand whirls(s)", None, None, None, Some("VC::BD"), Some("wi-windy"))
      case 9 => WwDetails("Staub- oder Sandsturm in Sichtweite", "duststorm or sandstorm in sight", Some("wind.png"), Some("18.png"), Some("wind"), Some("VC::BD"), Some("wi-sandstorm"))
      case 10 => WwDetails("feuchter Dunst", "mist", None, None, Some("fog"), Some("::BR"), Some("wi-fog"))
      case 11 => WwDetails("Nebelschwaden", "patches of fog or ice fog", Some("fog.png"), Some("40.png"), Some("fog"), Some("PA::BR"), Some("wi-fog"))
      case 12 => WwDetails("flacher Nebel", "shallow fog or ice fog", Some("fog.png"), Some("40.png"), Some("fog"), Some("::BR"), Some(""))
      case 13 => WwDetails("Wetterleuchten", "lightning visible, no thunder heard", None, Some("26.png"), None, Some("VC::T"), Some("wi-lightning"))
      case 14 => WwDetails("Niederschläge in Sichtweite, nicht den Boden erreichend", "Precipitation within sight, not reaching the ground or the surface of the sea", None, None, None, None, None)
      case 15 => WwDetails("Niederschläge in Sichtweite, aber entfernt, den Boden erreichend", "Precipitation within sight, reaching the ground or the surface of the sea, but distant, i.e.  estimated to be more than 5 km from the station", None, None, None, None, None)
      case 16 => WwDetails("Niederschläge in Sichtweite aber nicht an der Station, den Boden erreichend", "Precipitation within sight, reaching the ground or the surface of the sea, near to, but not at the station", None, None, None, None, None)
      case 17 => WwDetails("Gewitter ohne Niederschlag", "thunderstorm, but no precipitation", Some("thunderstorm.png"), Some("26.png"), Some("tstorm"), Some("VC::T"), Some("wi-lightning"))
      case 18 => WwDetails("Böen", "squalls", Some("wind.png"), Some("18.png"), Some("wind"), Some(""), Some("wi-strong-wind"))
      case 19 => WwDetails("Tornado (Windhose), Trichterwolke", "funnel clouds (tornado)", Some("tornado.png"), Some("18.png"), Some(""), Some("::FC"), Some("wi-tornado"))
      case 20 => WwDetails("nach Sprühregen", "after drizzle", None, None, None, Some("::L"), Some(""))
      case 21 => WwDetails("nach Regen", "after rain", None, None, None, Some("::R"), Some(""))
      case 22 => WwDetails("nach Schneefall", "after snow fall", None, None, None, Some("::S"), Some(""))
      case 23 => WwDetails("nach Schneeregen", "after rain and snow or ice pellets", None, None, None, Some("::SI"), Some(""))
      case 24 => WwDetails("nach gefrierendem Regen", "after freezing drizzle or freezing rain", None, Some("eis.png"), None, Some("::ZR"), Some(""))
      case 25 => WwDetails("nach Regenschauer", "after shower(s) of rain", None, None, None, Some("::RW"), Some(""))
      case 26 => WwDetails("nach Schneeschauer", "after shower(s) of snow or rain and snow", None, None, None, Some("::SW"), Some(""))
      case 27 => WwDetails("nach Hagelschauer", "after shower(s) of hail", None, None, None, Some("::A"), Some(""))
      case 28 => WwDetails("nach Nebel oder Eisnebel", "after fog or ice fog", None, None, None, Some("::F"), Some(""))
      case 29 => WwDetails("nach Gewitter", "after thunderstorm", None, None, None, Some("::T"), Some(""))
      case 30 => WwDetails("leichter oder mittlerer Staub- oder Sandsturm, abnehmend", "slight or moderate duststorm or sandstorm, decreasing", Some("wind.png"), Some("18.png"), Some("wind"), Some(":L:BD"), Some("wi-sandstorm"))
      case 31 => WwDetails("leichter oder mittlerer Staub- oder Sandsturm, unverändert", "slight or moderate duststorm or sandstorm, no change", Some("wind.png"), Some("18.png"), Some("wind"), Some(":L:BD"), Some("wi-sandstorm"))
      case 32 => WwDetails("leichter oder mittlerer Staub- oder Sandsturm, zunehmend", "slight or moderate duststorm or sandstorm, increasing", Some("wind.png"), Some("18.png"), Some("wind"), Some(":L:BD"), Some("wi-sandstorm"))
      case 33 => WwDetails("schwerer Staub- oder Sandsturm, abnehmend", "severe duststorm or sandstorm, decreasing", Some("wind.png"), Some("18.png"), Some("wind"), Some(":H:BD"), Some("wi-sandstorm"))
      case 34 => WwDetails("schwerer Staub- oder Sandsturm, unverändert", "severe duststorm or sandstorm, no change", Some("wind.png"), Some("18.png"), Some("wind"), Some(":H:BD"), Some("wi-sandstorm"))
      case 35 => WwDetails("schwerer Staub- oder Sandsturm, zunehmend", "severe duststorm or sandstorm, increasing", Some("wind.png"), Some("18.png"), Some("wind"), Some(":H:BD"), Some("wi-sandstorm"))
      case 36 => WwDetails("Schneefegen unterhalb Augenhöhe", "slight or moderate blowing snow, generally low (below eye level)", Some("wind.png"), Some("18.png"), Some("blowingsnow"), Some(":L:BS"), Some("wi-snow-wind"))
      case 37 => WwDetails("starkes Schneefegen unterhalb Augenhöhe", "heavy drifting snow, generally low (below eye level", Some("wind.png"), Some("18.png"), Some("blowingsnow"), Some(":H:BS"), Some("wi-snow-wind"))
      case 38 => WwDetails("Schneefegen, oberhalb Augenhöhe", "slight or moderate blowing snow, generally high (above eye level)", Some("wind.png"), Some("18.png"), Some("blowingsnow"), Some(":L:BS"), Some("wi-snow-wind"))
      case 39 => WwDetails("starkes Schneefegen, oberhalb Augenhöhe", "heavy drifting snow, generally high (above eye level)", Some("wind.png"), Some("18.png"), Some("blowingsnow"), Some(":H:BS"), Some("wi-snow-wind"))
      case 40 => WwDetails("Nebel oder Eisnebel in der Entfernung", "fog or ice fog at a distance", Some("fog.png"), Some("40.png"), Some("fog"), Some("VC::F"), Some("wi-fog"))
      case 41 => WwDetails("stellenweise Nebel oder Eisnebel", "fog or ice fog in patches", Some("fog.png"), Some("40.png"), Some("fog"), Some("PA::F"), Some("wi-fog"))
      case 42 => WwDetails("Nebel oder Eisnebel, Himmel erkennbar, abnehmend", "fog or ice fog, sky visible, has become thinner", Some("fog.png"), Some("40.png"), Some("fog"), Some("::F"), Some("wi-fog"))
      case 43 => WwDetails("Nebel oder Eisnebel, Himmel nicht erkennbar, abnehmend", "fog or ice fog, sky invisible, has become thinner", Some("fog.png"), Some("40.png"), Some("fog"), Some("::F"), Some("wi-fog"))
      case 44 => WwDetails("Nebel oder Eisnebel, Himmel erkennbar, unverändert", "fog or ice fog, sky visible, no change", Some("fog.png"), Some("40.png"), Some("fog"), Some("::F"), Some("wi-fog"))
      case 45 => WwDetails("Nebel, Himmel nicht erkennbar", "Fog, sky not recognizable", Some("fog.png"), Some("40.png"), Some("fog"), Some("::F"), Some("wi-fog"))
      case 46 => WwDetails("Nebel oder Eisnebel, Himmel erkennbar, zunehmend", "fog or ice fog, sky visible, has become thicker", Some("fog.png"), Some("48.png"), Some("fog"), Some("::IF"), Some("wi-fog"))
      case 47 => WwDetails("Nebel oder Eisnebel, Himmel nicht erkennbar, zunehmend", "fog or ice fog, sky invisible, has become thicker", Some("fog.png"), Some("48.png"), Some("fog"), Some("::IF"), Some("wi-fog"))
      case 48 => WwDetails("Nebel mit Reifansatz, Himmel erkennbar", "fog depositing rime, sky visible", Some("fog.png"), Some("48.png"), Some("fog"), Some("::IF"), Some("wi-fog"))
      case 49 => WwDetails("Nebel mit Reifansatz, Himmel nicht erkennbar, unverändert", "Ice Fog, sky not recognizable", Some("fog.png"), Some("48.png"), Some("fog"), Some("::IF"), Some("wi-fog"))
      case 50 => WwDetails("intermittierend leichter Sprühregen", "slight drizzle, not freezing, intermittent", Some("drizzle.png"), Some("7.png"), Some("drizzle"), Some("IN:L:L"), Some("wi-sprinkle"))
      case 51 => WwDetails("durchgehend leichter Sprühregen", "slight drizzle, not freezing, continuous", Some("drizzle.png"), Some("7.png"), Some("drizzle"), Some(":L:L"), Some("wi-sprinkle"))
      case 52 => WwDetails("intermittierend mäßiger Sprühregen", "moderate drizzle, not freezing, intermittent", Some("drizzle.png"), Some("8.png"), Some("drizzle"), Some("IN::L"), Some("wi-sprinkle"))
      case 53 => WwDetails("durchgehend mäßiger Sprühregen", "moderate drizzle, not freezing, continuous", Some("drizzle.png"), Some("8.png"), Some("drizzle"), Some("::L"), Some("wi-sprinkle"))
      case 54 => WwDetails("intermittierend starker Sprühregen", "heavy drizzle, not freezing, intermittent", Some("drizzle.png"), Some("9.png"), Some("drizzle"), Some("IN:H:L"), Some("wi-sprinkle"))
      case 55 => WwDetails("durchgehend starker Sprühregen", "heavy drizzle, not freezing, continuous", Some("drizzle.png"), Some("9.png"), Some("drizzle"), Some(":H:L"), Some("wi-sprinkle"))
      case 56 => WwDetails("leichter gefrierender Sprühregen", "Drizzle, freezing, slight", Some("sleet.png"), Some("66.png"), Some("freezingrain"), Some(":L:ZL"), Some("wi-sleet"))
      case 57 => WwDetails("mäßiger oder starker gefrierender Sprühregen", "Drizzle, freezing, moderate or heavy (dence)", Some("sleet.png"), Some("67.png"), Some("freezingrain"), Some(":H:ZL"), Some("wi-sleet"))
      case 58 => WwDetails("leichter Sprühregen und Regen", "slight drizzle and rain", Some("rain.png"), Some(""), Some("rain"), Some(""), Some("wi-rain"))
      case 59 => WwDetails("starker Sprühregen und Regen", "moderate or heavy drizzle and rain", Some("rain.png"), Some(""), Some("rain"), Some(""), Some("wi-rain"))
      case 60 => WwDetails("intermittierend leichter Regen", "slight rain, not freezing, intermittent", Some("rain.png"), Some("7.png"), Some("rain"), Some("IN:L:R"), Some("wi-rain"))
      case 61 => WwDetails("durchgehend leichter Regen", "slight rain, not freezing, continuous", Some("rain.png"), Some("7.png"), Some("rain"), Some(":L:R"), Some("wi-rain"))
      case 62 => WwDetails("intermittierend mäßiger Regen", "moderate rain, not freezing, intermittent", Some("rain.png"), Some("8.png"), Some("rain"), Some("IN::R"), Some("wi-rain"))
      case 63 => WwDetails("durchgehend mäßiger Regen", "moderate rain, not freezing, continuous", Some("rain.png"), Some("8.png"), Some("rain"), Some("::R"), Some("wi-rain"))
      case 64 => WwDetails("intermittierend starker Regen", "heavy rain, not freezing, intermittent", Some("rain.png"), Some("9.png"), Some("rain"), Some("IN:H:R"), Some("wi-rain"))
      case 65 => WwDetails("durchgehend starker Regen", "heavy rain, not freezing, continuous", Some("rain.png"), Some("9.png"), Some("rain"), Some(":H:R"), Some("wi-rain"))
      case 66 => WwDetails("leichter gefrierender Regen", "Rain, freezing, slight", Some("sleet.png"), Some("66.png"), Some("freezingrain"), Some(":L:ZR"), Some("wi-sleet"))
      case 67 => WwDetails("mäßiger bis starker gefrierender Regen", "Rain, freezing, moderate or heavy (dence)", Some("sleet.png"), Some("67.png"), Some("freezingrain"), Some(":H:ZR"), Some("wi-sleet"))
      case 68 => WwDetails("leichter Schneeregen", "slight rain and snow", Some("sleet.png"), Some("12.png"), Some("rainandsnow"), Some(":L:RS"), Some("wi-sleet"))
      case 69 => WwDetails("mäßger oder starker Schneeregen", "moderate or heavy rain and snow", Some("sleet.png"), Some("13.png"), Some("rainandsnow"), Some(":H:RS"), Some("wi-sleet"))
      case 70 => WwDetails("intermittierend leichter Schneefall", "slight snowfall, intermittent", Some("snow.png"), Some("14.png"), Some("snow"), Some("IN:L:S"), Some("wi-snow"))
      case 71 => WwDetails("durchgehend leichter Schneefall", "slight snowfall, continuous", Some("snow.png"), Some("14.png"), Some("snow"), Some(":L:S"), Some("wi-snow"))
      case 72 => WwDetails("intermittierend mäßiger Schneefall", "moderate snowfall, intermittent", Some("snow.png"), Some("15.png"), Some("snow"), Some("IN::S"), Some("wi-snow"))
      case 73 => WwDetails("durchgehend mäßiger Schneefall", "moderate snowfall, continuous", Some("snow.png"), Some("15.png"), Some("snow"), Some("::S"), Some("wi-snow"))
      case 74 => WwDetails("intermittierend starker Schneefall", "heavy snowfall, intermittent", Some("snow.png"), Some("16.png"), Some("snow"), Some("IN:H:S"), Some("wi-snow"))
      case 75 => WwDetails("durchgehend starker Schneefall", "heavy snowfall, continuous", Some("snow.png"), Some("16.png"), Some("snow"), Some(":H:S"), Some("wi-snow"))
      case 76 => WwDetails("Eisnadeln (auch Diamantstaub genannt), mit oder ohne Nebel", "diamond dust with our without fog", Some("fog.png"), Some(""), Some("dust"), Some(""), Some("wi-fog"))
      case 77 => WwDetails("Schneegriesel, mit oder ohne Nebel", "snow grains with or without fog", Some("snow.png"), Some("14.png"), Some("snow"), Some(":L:S"), Some("wi-snow"))
      case 78 => WwDetails("einzelne Schneeflocken, mit oder ohne Nebel", "isolated star-like snow crystals with or without fog", Some("snow.png"), Some("14.png"), Some("snow"), Some(":L:S"), Some("wi-snow"))
      case 79 => WwDetails("Niederschlag in Form von Eiskörnern", "ice pellets", Some("snow.png"), Some("85.png"), Some("snow"), Some(":L:A"), Some("wi-hail"))
      case 80 => WwDetails("leichter Regenschauer", "slight rain shower", Some("rain.png"), Some("80.png"), Some("showers"), Some(":L:RW"), Some("wi-showers"))
      case 81 => WwDetails("mäßiger oder starker Regenschauer", "moderate or heavy rain showers", Some("rain.png"), Some("82.png"), Some("showers"), Some(":H:RW"), Some("wi-showers"))
      case 82 => WwDetails("äußerst heftiger Regenschauer", "extremely heavy rain shower", Some("rain.png"), Some("82.png"), Some("showers"), Some(":VH:RW"), Some("wi-showers"))
      case 83 => WwDetails("leichter Schneeregenschauer", "Shower(s) of rain and snow mixed, slight", Some("sleet.png"), Some("83.png"), Some("wintrymix"), Some(":L:RS"), Some("wi-sleet"))
      case 84 => WwDetails("mäßiger oder starker Schneeregenschauer", "Shower(s) of rain and snow mixed, moderate or heavy", Some("sleet.png"), Some("84.png"), Some("wintrymix"), Some(":H:RS"), Some("wi-sleet"))
      case 85 => WwDetails("leichter Schneeschauer", "Snow shower(s), slight", Some("snow.png"), Some("85.png"), Some("snowshowers"), Some(":L:SW"), Some("wi-snow"))
      case 86 => WwDetails("mäßiger bis starker Schneeschauer", "Snow shower(s), moderate or heavy", Some("snow.png"), Some("86.png"), Some("snowshowers"), Some(":H:SW"), Some("wi-snow"))
      case 87 => WwDetails("leichte Graupelschauer", "slight shower(s) of snow pellets", Some("snow.png"), Some("85.png"), Some("snow"), Some(":L:A"), Some("wi-hail"))
      case 88 => WwDetails("kräftige Graupelschauer", "moderate or heavy shower(s) of snow pellets", Some("snow.png"), Some("86.png"), Some("snow"), Some(":H:A"), Some("wi-hail"))
      case 89 => WwDetails("leichte Hagelschauer", "slight shower(s) of hail", Some("hail.png"), Some("17.png"), Some("hail"), Some(":L:A"), Some("wi-hail"))
      case 90 => WwDetails("kräftige Hagelschauer", "moderate or heavy shower(s) of hail", Some("hail.png"), Some("17.png"), Some("hail"), Some(":H:A"), Some("wi-hail"))
      case 91 => WwDetails("leichter Regen nach Gewitter", "slight rain after thunderstorm", Some("rain.png"), Some("27.png"), Some("rain"), Some(":L:T"), Some("wi-rain"))
      case 92 => WwDetails("kräftiger Regen nach Gewitter", "moderate or heavy rain after thunderstorm", Some("rain.png"), Some("27.png"), Some("rain"), Some(":H:T"), Some("wi-rain"))
      case 93 => WwDetails("leichter Schnee, Schneeregen oder Hagel nach einem Gewitter", "slight snow, or rain and snow mixed or hail after thunderstorm", Some("snow.png"), Some("27.png"), Some("snow"), Some(":L:T"), Some("wi-snow"))
      case 94 => WwDetails("Schnee, Schneeregen oder Hagel nach einem Gewitter", "snow, or rain and snow mixed or hail after thunderstorm", Some("snow.png"), Some("27.png"), Some("snow"), Some(":H:T"), Some("wi-snow"))
      case 95 => WwDetails("leichtes oder mäßiges Gewitter mit Regen oder Schnee", "slight or moderate thunderstorm with rain or snow", Some("thunderstorm.png"), Some("27.png"), Some("tstorm"), Some(":L:T"), Some("wi-thunderstorm"))
      case 96 => WwDetails("leichtes oder mäßiges Gewitter mit Hagel", "slight or moderate thunderstorm with hail", Some("thunderstorm.png"), Some("29.png"), Some("tstorm"), Some(":L:T"), Some("wi-thunderstorm"))
      case 97 => WwDetails("schweres Gewitter mit Regen oder Schnee", "heavy thunderstorm with rain or snow", Some("thunderstorm.png"), Some("28.png"), Some("tstorm"), Some(":H:T"), Some("wi-thunderstorm"))
      case 98 => WwDetails("Gewitter mit Staub- oder Standsturm", "thunderstorm with duststorm or sandstorm", Some("thunderstorm.png"), Some("27.png"), Some("tstorm"), Some("::T"), Some("wi-thunderstorm"))
      case _ => WwDetails("schweres Gewitter mit Hagel", "heavy thunderstorm with hail", Some("thunderstorm.png"), Some("30.png"), Some("tstorm"), Some(":H:T"), Some("wi-thunderstorm"))
  }

  /** Row `i` of WW_LIST, put together from its code, severity and details. */
  function WwListAt(i: nat): (e: WwEntry)
    requires i < 100
    ensures e.ww == WwCodeAt(i) && e.severity == WwSeverityAt(i)
  {
    var c := WwCodeAt(i);
    var d := if c < 100 then WwDetailsOf(c) else WwDetails("", "", None, None, None, None, None);
    WwEntry(c, d.german, d.english, WwSeverityAt(i), d.belchertownIcon, d.dwdIcon, d.aerisIcon, d.aerisCode, d.wiIcon)
  }

  const WwList: seq<WwEntry> := seq(100, i requires 0 <= i < 100 => WwListAt(i))

  /** The row of WW_LIST that describes code `c`. */
  function WwPosition(c: nat): (i: nat)
    requires c < 100
    ensures i < 100 && WwCodeAt(i) == c
  {
    match c
      case 0 => 99
      case 1 => 98
      case 2 => 97
      case 3 => 96
      case 4 => 86
      case 5 => 85
      case 6 => 84
      case 7 => 83
      case 8 => 82
      case 9 => 81
      case 10 => 80
      case 11 => 79
      case 12 => 78
      case 13 => 77
      case 14 => 76
      case 15 => 75
      case 16 => 74
      case 17 => 73
      case 18 => 72
      case 19 => 0
      case 20 => 95
      case 21 => 94
      case 22 => 93
      case 23 => 92
      case 24 => 10
      case 25 => 91
      case 26 => 90
      case 27 => 89
      case 28 => 88
      case 29 => 87
      case 30 => 71
      case 31 => 70
      case 32 => 69
      case 33 => 68
      case 34 => 67
      case 35 => 66
      case 36 => 65
      case 37 => 64
      case 38 => 63
      case 39 => 62
      case 40 => 61
      case 41 => 60
      case 42 => 59
      case 43 => 58
      case 44 => 57
      case 45 => 56
      case 46 => 55
      case 47 => 54
      case 48 => 53
      case 49 => 52
      case 50 => 42
      case 51 => 41
      case 52 => 40
      case 53 => 39
      case 54 => 38
      case 55 => 37
      case 56 => 7
      case 57 => 6
      case 58 => 36
      case 59 => 35
      case 60 => 48
      case 61 => 47
      case 62 => 46
      case 63 => 45
      case 64 => 44
      case 65 => 43
      case 66 => 9
      case 67 => 8
      case 68 => 34
      case 69 => 33
      case 70 => 32
      case 71 => 31
      case 72 => 30
      case 73 => 29
      case 74 => 28
      case 75 => 27
      case 76 => 51
      case 77 => 50
      case 78 => 49
      case 79 => 15
      case 80 => 26
      case 81 => 25
      case 82 => 24
      case 83 => 23
      case 84 => 22
      case 85 => 21
      case 86 => 20
      case 87 => 14
      case 88 => 13
      case 89 => 12
      case 90 => 11
      case 91 => 19
      case 92 => 18
      case 93 => 17
      case 94 => 16
      case 95 => 5
      case 96 => 4
      case 97 => 3
      case 98 => 2
      case _ => 1
  }

  /** WW_LIST names every code 0..99 exactly once: the code of row `i` is
      below 100 and `WwPosition` finds its row again. */
  lemma WwListRowsAreCodes()
    ensures forall i :: 0 <= i < 100 ==> WwCodeAt(i) < 100 && WwPosition(WwCodeAt(i)) == i
  {
  }

  /** Each ww code 0..99 stands in exactly one row of WW_LIST. */
  lemma {:induction false} WwListEachCodeOnce(c: nat)
    requires c < 100
    ensures exists i :: 0 <= i < |WwList| && WwList[i].ww == c
    ensures forall i, j :: 0 <= i < |WwList| && 0 <= j < |WwList| && WwList[i].ww == c && WwList[j].ww == c ==> i == j
  {
    WwListRowsAreCodes();
    var k := WwPosition(c);
    assert WwList[k].ww == c;
    forall i | 0 <= i < |WwList| && WwList[i].ww == c ensures i == k {
      assert WwCodeAt(i) == c;
    }
  }

  /** The severities WW_LIST gives are 1..29 and grow strictly down the list,
      so the list is sorted by severity. */
  lemma SeveritiesIncrease()
    ensures forall i :: 0 <= i < 100 && WwSeverityAt(i).Some? ==> 1 <= WwSeverityAt(i).value <= 29
    ensures forall i, j :: 0 <= i < j < 100 && WwSeverityAt(i).Some? && WwSeverityAt(j).Some? ==>
      WwSeverityAt(i).value < WwSeverityAt(j).value
  {
  }

  // ------------------------------------------------------------ N_ICON_LIST

  /** Icons for one cloud-cover band: Belchertown day and night, DWD, Aeris
      coded weather, Aeris, Weather Icons day and night. */
  datatype CloudIcons = CloudIcons(
    dayIcon: string,
    nightIcon: string,
    dwdIcon: string,
    aerisCode: string,
    aerisIcon: string,
    wiDay: string,
    wiNight: string)
  {
    /** `cover[night]` in the source. */
    function Icon(night: bool): string {
      if night then nightIcon else dayIcon
    }

    /** `cover[night + 5]` in the source. */
    function WiIcon(night: bool): string {
      if night then wiNight else wiDay
    }
  }

  /** Entry `i` of N_ICON_LIST: clear, mostly clear, partly cloudy, mostly
      cloudy, overcast. */
  function NIcon(i: nat): CloudIcons
    requires i < 5
  {
    match i
      case 0 => CloudIcons("clear-day.png", "clear-night.png", "0-8.png", "::CL", "clear", "wi-day-sunny", "wi-night-clear")
      case 1 => CloudIcons("mostly-clear-day.png", "mostly-clear-night.png", "2-8.png", "::FW", "fair", "wi-day-sunny-overcast", "wi-night-alt-partly-cloudy")
      case 2 => CloudIcons("partly-cloudy-day.png", "partly-cloudy-night.png", "5-8.png", "::SC", "pcloudy", "wi-day-cloudy", "wi-night-cloudy")
      case 3 => CloudIcons("mostly-cloudy-day.png", "mostly-cloudy-night.png", "5-8.png", "::BK", "mcloudy", "wi-day-cloudy", "wi-night-cloudy")
      case _ => CloudIcons("cloudy.png", "cloudy.png", "8-8.png", "::OV", "cloudy", "wi-cloudy", "wi-cloudy")
  }

  // ------------------------------------------------------------ OKTA_TEXTS

  datatype OktaText = Plain(text: string) | DayNight(day: string, night: string)

  /** OKTA_TEXTS: index 0..8 is the cloud cover in okta, 9 sky not visible,
      10 no data. */
  function OktaTexts(lang: string): (r: Option<seq<OktaText>>)
    ensures r.Some? <==> lang in {"de", "en"}
    ensures r.Some? ==> |r.value| == 11
  {
    if lang == "de" then Some([DayNight("wolkenlos", "klar"), DayNight("sonnig", "fast klar"), DayNight("heiter", "leicht bewölkt"), Plain("leicht bewölkt"), Plain("wolkig"), Plain("bewölkt"), Plain("stark bewölkt"), Plain("fast bedeckt"), Plain("bedeckt"), Plain("nicht sichtbar"), Plain("keine Daten")])
    else if lang == "en" then Some([Plain("clear"), Plain("fair"), Plain("mostly sunny"), Plain("partly cloudy"), Plain("partly cloudy"), Plain("partly cloudy"), Plain("mostly cloudy"), Plain("cloudy"), Plain("overcast"), Plain("sky not visible"), Plain("no data")])
    else None
  }

  // ------------------------------------------------------------ WMO_TABLES

  datatype CodeTable = Okta | W | Wa | Ww | Wawa

  /** The WMO code table number each table is registered under in WMO_TABLES. */
  function TableNumber(t: CodeTable): int {
    match t
    case Okta => 2700
    case W => 4561
    case Wa => 4531
    case Ww => 4677
    case Wawa => 4680
  }

  /** The key lookup `WMO_TABLES[n]`. */
  function TableOf(n: int): (r: Option<CodeTable>)
    ensures r.Some? ==> TableNumber(r.value) == n
    ensures r.None? ==> forall t: CodeTable :: TableNumber(t) != n
  {
    if n == 2700 then Some(Okta)
    else if n == 4561 then Some(W)
    else if n == 4531 then Some(Wa)
    else if n == 4677 then Some(Ww)
    else if n == 4680 then Some(Wawa)
    else None
  }

  function TableLength(t: CodeTable): nat {
    match t
    case Okta => 11
    case W => 10
    case Wa => 10
    case Ww => 100
    case Wawa => 100
  }

  /** Alias chains run from Wa through W or Wawa down to Ww. */
  function Rank(t: CodeTable): nat {
    match t
    case Okta => 0
    case Ww => 0
    case W => 1
    case Wawa => 1
    case Wa => 2
  }

  /** What a slot of a symbol table holds: its own SVG text, None (reserved),
      or the entry of another table. */
  datatype Slot = Own | Reserved | Alias(table: CodeTable, code: nat)

  /** WAWA_SYMBOLS (code table 4680). */
  function WawaSlot(c: nat): (s: Slot)
    requires c < 100
    ensures s.Alias? ==> s.table == Ww && s.code < 100
  {
    match c
      case 6 => Reserved
      case 7 => Reserved
      case 8 => Reserved
      case 9 => Reserved
      case 10 => Alias(Ww, 10)
      case 11 => Alias(Ww, 76)
      case 12 => Alias(Ww, 13)
      case 13 => Reserved
      case 14 => Reserved
      case 15 => Reserved
      case 16 => Reserved
      case 17 => Reserved
      case 18 => Alias(Ww, 18)
      case 19 => Reserved
      case 20 => Alias(Ww, 28)
      case 22 => Alias(Ww, 20)
      case 23 => Alias(Ww, 21)
      case 24 => Alias(Ww, 22)
      case 25 => Alias(Ww, 24)
      case 26 => Alias(Ww, 29)
      case 31 => Alias(Ww, 41)
      case 32 => Alias(Ww, 43)
      case 33 => Alias(Ww, 45)
      case 34 => Alias(Ww, 47)
      case 36 => Reserved
      case 37 => Reserved
      case 38 => Reserved
      case 39 => Reserved
      case 49 => Reserved
      case 51 => Alias(Ww, 51)
      case 52 => Alias(Ww, 53)
      case 53 => Alias(Ww, 55)
      case 54 => Alias(Ww, 56)
      case 55 => Alias(Ww, 57)
      case 57 => Alias(Ww, 58)
      case 58 => Alias(Ww, 59)
      case 59 => Reserved
      case 61 => Alias(Ww, 61)
      case 62 => Alias(Ww, 63)
      case 63 => Alias(Ww, 65)
      case 64 => Alias(Ww, 66)
      case 65 => Alias(Ww, 67)
      case 67 => Alias(Ww, 68)
      case 68 => Alias(Ww, 69)
      case 69 => Reserved
      case 71 => Alias(Ww, 71)
      case 72 => Alias(Ww, 73)
      case 73 => Alias(Ww, 75)
      case 74 => Alias(Ww, 79)
      case 77 => Alias(Ww, 77)
      case 78 => Alias(Ww, 78)
      case 79 => Reserved
      case 81 => Alias(Ww, 80)
      case 82 => Alias(Ww, 81)
      case 84 => Alias(Ww, 82)
      case 85 => Alias(Ww, 85)
      case 86 => Alias(Ww, 86)
      case 88 => Reserved
      case 90 => Alias(Ww, 17)
      case 92 => Alias(Ww, 95)
      case 93 => Alias(Ww, 96)
      case 95 => Alias(Ww, 97)
      case 96 => Alias(Ww, 99)
      case 97 => Reserved
      case 98 => Reserved
      case _ => Own
  }

  /** W_SYMBOLS (code table 4561). */
  function WSlot(c: nat): (s: Slot)
    requires c < 10
    ensures s.Alias? ==> s.table == Ww && s.code < 100
  {
    match c
      case 0 => Reserved
      case 1 => Reserved
      case 2 => Reserved
      case 3 => Alias(Ww, 38)
      case 4 => Alias(Ww, 45)
      case 9 => Alias(Ww, 17)
      case _ => Own
  }

  /** WA_SYMBOLS (code table 4531). */
  function WaSlot(c: nat): (s: Slot)
    requires c < 10
    ensures s.Alias? ==> s.table != Wa && s.code < TableLength(s.table)
  {
    match c
      case 0 => Alias(Wawa, 0)
      case 2 => Alias(W, 3)
      case 3 => Alias(W, 4)
      case 4 => Alias(Wawa, 40)
      case 5 => Alias(W, 5)
      case 6 => Alias(W, 6)
      case 7 => Alias(W, 7)
      case 8 => Alias(W, 8)
      case 9 => Alias(Ww, 17)
      case _ => Own
  }

  /** Slot `c` of table `t`; WW_SYMBOLS and OKTA_SYMBOLS write out every entry. */
  function SlotAt(t: CodeTable, c: nat): (s: Slot)
    requires c < TableLength(t)
    ensures s.Alias? ==> Rank(s.table) < Rank(t) && s.code < TableLength(s.table)
  {
    match t
    case Okta => Own
    case Ww => Own
    case Wawa => WawaSlot(c)
    case W => WSlot(c)
    case Wa => WaSlot(c)
  }

  /** Names an SVG text by the table and slot where the source writes it out. */
  datatype Svg = Svg(table: CodeTable, code: nat)

  /** The symbol in slot `c` of table `t`, following aliases; None for a
      reserved slot. */
  function SymbolAt(t: CodeTable, c: nat): (r: Option<Svg>)
    requires c < TableLength(t)
    ensures r.Some? ==> r.value.code < TableLength(r.value.table) && SlotAt(r.value.table, r.value.code) == Own
    ensures SlotAt(t, c) == Own ==> r == Some(Svg(t, c))
    ensures SlotAt(t, c) == Reserved ==> r == None
    decreases Rank(t)
  {
    match SlotAt(t, c)
    case Own => Some(Svg(t, c))
    case Reserved => None
    case Alias(t2, c2) => SymbolAt(t2, c2)
  }

  /** No alias points at a reserved slot: a slot is None exactly when it is
      written as None. */
  lemma AliasesNeverDangle(t: CodeTable, c: nat)
    requires c < TableLength(t)
    ensures SymbolAt(t, c).None? <==> SlotAt(t, c) == Reserved
  {
  }

  /** `WMO_TABLES[table][code]`: KeyError for an unknown table, TypeError
      for a missing code, IndexError outside the table (negative codes count
      from the end, as Python indexing does). */
  function Lookup(table: int, code: Option<int>): (r: Result<Option<Svg>>)
    ensures TableOf(table).None? ==> r == Err(KeyError)
    ensures TableOf(table).Some? && code.None? ==> r == Err(TypeError)
    ensures r.Ok? ==>
      TableOf(table).Some? && code.Some? && PyIndex(TableLength(TableOf(table).value), code.value).Some?
    ensures TableOf(table).Some? && code.Some? && 0 <= code.value < TableLength(TableOf(table).value) ==>
      r == Ok(SymbolAt(TableOf(table).value, code.value))
    ensures TableOf(table).Some? && code.Some? && PyIndex(TableLength(TableOf(table).value), code.value).None? ==>
      r == Err(IndexError)
    ensures TableOf(table).Some? && code.Some? && PyIndex(TableLength(TableOf(table).value), code.value).Some? ==>
      r == Ok(SymbolAt(TableOf(table).value, PyIndex(TableLength(TableOf(table).value), code.value).value))
  {
    match TableOf(table)
    case None => Err(KeyError)
    case Some(t) =>
      match code
      case None => Err(TypeError)
      case Some(c) =>
        match PyIndex(TableLength(t), c)
        case None => Err(IndexError)
        case Some(i) => Ok(SymbolAt(t, i))
  }
}
