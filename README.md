# weewx-DWD: a Dafny model of the code engine and the provider threads

weewx-DWD is an extension for the weewx weather station software. It brings
in forecasts, observations and warnings of the Deutscher Wetterdienst (DWD)
and other services, and it turns observations into WMO codes, icons and
station-model symbols. This project models its table-driven code engine and
the small sequential cores of its provider threads, and proves what they
promise.

- `builtins.dfy` (`Builtins`): the bits of Python the models need. These are
  `Option`/`Result` with the Python exception raised, Python's half-to-even
  `round`, `int()` and `float()` parsing, `'%02d'` formatting, floor
  division and negative indexing.
- `codetables.dfy` (`CodeTables`): `WW_LIST` and the icon and text tables of
  `weathercodes.py`; the registry of WMO code tables 2700, 4561, 4531, 4677
  and 4680, with its reserved slots and aliases; the okta index map.
- `presentweather.dfy` (`PresentWeather`): `get_ww`, which resolves a list of
  candidate ww codes (WMO code table 4677) to the most severe one, with the
  cloud-cover override; and `get_cloudcover` with its two sentinel bands.
- `binder.dfy` (`Binder`): the attribute dispatch of `PresentWeatherBinder`
  and the table lookup with fallback of `WMOSymbolBinder`.
- `visibility.dfy` (`Visibility`): `visibility_code` (WMO code table 4377).
- `tendency.dfy` (`Tendency`): the two pressure-tendency classifiers (WMO
  code table 0200). These are the extremum heuristic, which sorts its list in
  place, and the sign table of BUFR descriptor 0 10 063.
- `station.dfy` (`Station`): `StationBinder.station`, the station-model
  drawing. Its elements are values (text, symbol, barb) placed in the rows of
  the WMO or DWD preset, in the order the code appends them, and its view
  box is the hull of the rows it was widened by. It also covers the format
  and width defaults, the wind barbs, the coded barometer and the reduction
  of past weather.
- `radar.dfy` (`Radar`): the reader of DWD radar composites. It covers the
  header up to 0x03, the keyed header fields, the little-endian words of the
  payload, the grid-cell lookup and the reading-to-wawa map. It also covers
  the radar thread's buffer with one hour of retention.
- `services.dfy` (`Services`): from `weatherservices.py`, the cloud-cover
  bands, the POI and Open-Meteo code-to-icon mappings, the CSV number
  parsing, `DWDXType.remember`, the staleness rule of `new_archive_record`
  and the key prefixing of `_to_weewx`.
- `cdc.dfy` (`Cdc`): the merge of several CDC files keyed by timestamp.
- `dwdlegacy.dfy` (`DwdLegacy`): the older POI thread of `dwd.py`. Its
  `get_cloudcover`, `to_float` and `get_ww` are the same as in
  `weatherservices.py` and share that model.
- `health.dfy` (`Health`): the DWD health forecasts (bio-weather, pollen, UV
  index). It covers the interval lookup, the pollen region split, value
  parsing and legend, the colour of a pollen level, the cache and the
  waiting time.
- `wildfire.dfy` (`Wildfire`): the wildfire danger thread. It covers the
  fetch-time parser, the level to colour and instruction mapping, the
  once-per-day fetch state machine and the waiting time.

Where the code's comments or table headers and the code disagree, the model
follows the code:
- candidates {79, 17} give 79;
- visibilities past 5.5 km always give '89';
- the heuristic tendency never gives 1 or 6;
- a steady rise gives BUFR code 2 when the differences of the readings are
  exact (Python's doubles can break the tie, see "## Left out");
- the radar borders are always set, because the constructor installs them.

Objects the source updates in place are classes:
- the sorted pressure list is an `array`;
- `DwdRadar`, the radar, CDC, health and wildfire threads, `DWDXType` and
  the legacy POI thread are classes whose methods are proved against
  specification functions;
- the loops of `StationBinder.station` and `wind` are methods that carry the
  growing bounding box and the list of drawn elements as loop variables, and
  they are proved equal to the drawing as a value (`Station.DrawingOf`).

## Model

| member | source | states |
|---|---|---|
| CodeTables.WwListAt | bin/user/weathercodes.py:431-580 | row `i` of WW_LIST carries the ww code and severity of that row |
| CodeTables.WwPosition | bin/user/weathercodes.py:431-580 | every ww code 0..99 has a row of WW_LIST whose code it is |
| CodeTables.WwListRowsAreCodes | bin/user/weathercodes.py:431-580 | every row holds a code 0..99 and WwPosition finds exactly that row again (positions and codes are a bijection) |
| CodeTables.WwListEachCodeOnce | bin/user/weathercodes.py:431-580 | each ww code 0..99 stands in exactly one row of WW_LIST |
| CodeTables.SeveritiesIncrease | bin/user/weathercodes.py:431-580 | the severities that are not None lie in 1..29 and strictly increase in list order |
| CodeTables.OktaTexts | bin/user/weathercodes.py:1049-1076 | OKTA_TEXTS has exactly the languages 'de' and 'en', each with 11 entries (0..8 okta, sky not visible, no data) |
| CodeTables.TableOf | bin/user/weathercodes.py:1078-1084 | the key lookup in WMO_TABLES finds a table registered under that number, and none exactly when no table has the number |
| CodeTables.WawaSlot | bin/user/weathercodes.py:817-972 | every alias in WAWA_SYMBOLS points into WW_SYMBOLS within its 100 entries |
| CodeTables.WSlot | bin/user/weathercodes.py:975-997 | every alias in W_SYMBOLS points into WW_SYMBOLS within its 100 entries |
| CodeTables.WaSlot | bin/user/weathercodes.py:1000-1021 | every alias in WA_SYMBOLS points into another table, within that table's length |
| CodeTables.SlotAt | bin/user/weathercodes.py:612-1047 | aliases only point down a rank (WA to W/WAWA to WW), within the target's length, so alias chains end |
| CodeTables.SymbolAt | bin/user/weathercodes.py:612-1047 | following aliases ends at a slot written out as SVG; an own slot is itself, a None slot gives None |
| CodeTables.AliasesNeverDangle | bin/user/weathercodes.py:817-1021 | a symbol is None exactly when its own slot is None: no alias leads to a reserved slot |
| CodeTables.Lookup | bin/user/weathercodes.py:1689-1695 | `WMO_TABLES[code_table][code]`: KeyError for an unknown table, TypeError for a missing code, IndexError exactly for a code outside the table's Python index range (-len..len-1), and otherwise the symbol of the slot so indexed (a negative code counting from the end) |
| PresentWeather.CloudCoverBand | bin/user/weathercodes.py:1145-1160 | the band is 0..6 and reaches band k exactly when the cloud cover is at least the k-th edge (7, 32, 70, 95, 106.25, 118.75), all edges lower-inclusive |
| PresentWeather.CloudCoverBandMonotone | bin/user/weathercodes.py:1145-1160 | the band never drops when the cloud cover grows |
| PresentWeather.GetCloudCover | bin/user/weathercodes.py:1144 | the result is None exactly for a missing cloud cover |
| PresentWeather.GetCloudCoverByBand | bin/user/weathercodes.py:1137-1161 | a cloud cover gives the icons of its band; 95..106.25 is overcast, 106.25..118.75 fog, from 118.75 on unknown |
| PresentWeather.FirstListed | bin/user/weathercodes.py:1102-1105 | the walk over WW_LIST stops at the first row whose code is a candidate, and finds none only when no later row holds a candidate |
| PresentWeather.RowCode | bin/user/weathercodes.py:1104 | the entry taken from row `i` keeps that row's code and severity |
| PresentWeather.GetWwPicksEarliest | bin/user/weathercodes.py:1102-1107 | with a candidate in 0..99 the result is a candidate listed before every other candidate; the default entry comes exactly when no candidate lies in 0..99 |
| PresentWeather.GetWwIgnoresOrder | bin/user/weathercodes.py:1102-1105 | only the set of candidates matters, not their order |
| PresentWeather.FirstListedSameSet | bin/user/weathercodes.py:1102-1105 | the walk from any row gives the same result for two candidate lists with the same members |
| PresentWeather.GetWwCloudOverride | bin/user/weathercodes.py:1111-1134 | code and severity are kept; the entry changes exactly for codes <= 3, 20..29 or 14..16 with a cloud cover, and then gets ' n%' / ' n' appended, the band's icon and the DWD icon by 12.5/50/87.5 |
| PresentWeather.GetWw | bin/user/weathercodes.py:1087-1135 | the code and severity are those of the selected WW_LIST row; a cloud code with a known cover takes the cover's Belchertown icon and the DWD icon by 12.5/50/87.5 %, any other entry is the row unchanged |
| PresentWeather.GetWwThunderstorm | bin/user/weathercodes.py:1087-1135 | the code set {95} gives code 95 with severity 1 |
| PresentWeather.GetWwIcePellets | bin/user/weathercodes.py:1087-1135 | {79,17} and {17,79} both give 79: the row order of WW_LIST decides, not the order of the candidates |
| PresentWeather.GetWwCloudIcon | bin/user/weathercodes.py:1087-1135 | with no code at 90 % cloud cover the DWD icon is 8-8, while get_cloudcover(90) gives 5-8 |
| PresentWeather.OktaIconIndex | bin/user/weathercodes.py:200 | the index tuple of svg_icon_n answers for -11..10 (Python indexing from the end) and gives icon 0..6 |
| PresentWeather.OktaIconIndexMonotone | bin/user/weathercodes.py:200 | for 0..10 okta the icon index never drops; 0 okta is icon 0, 9 (sky not visible) icon 5, 10 icon 6 |
| PresentWeather.DecolorKeepsUncoloured | bin/user/weathercodes.py:1320-1331 | a symbol holding none of the replaced colours, or a colour of None, comes back unchanged |
| PresentWeather.ReplaceAllAbsent | bin/user/weathercodes.py:1331 | the chain of `replace` calls leaves a text without any of the colours unchanged |
| Binder.OktaNearest | bin/user/weathercodes.py:1618 | `int(round(n/100*8, 0))` is the nearest whole okta (8n lies strictly within 50 of 100 times it), 0..8 for a cover of 0..100 % |
| Binder.FormatFixed0 | bin/user/weathercodes.py:1609 | `'%.0f'` prints the half-to-even rounding of the value, or `-0` for a small negative value |
| Binder.SvgIconOf | bin/user/weathercodes.py:1659-1666 | the weather drawing of SVG_ICON_WW is chosen exactly when there is a code, no cover or a code that is neither a cloud code nor 18, and the code indexes the table the Python way (-1 is 99) at an entry that exists; it is that entry. A cloud icon needs a cover and has index 0..6 |
| Binder.SvgIconIndexing | bin/user/weathercodes.py:413-421 | code 95 draws entry 95 and -1 draws entry 99; -100 and -101 draw nothing |
| Binder.SvgIconCloudCodes | bin/user/weathercodes.py:1659-1666 | with a cover of 0..100 %, no code, a cloud code or a squall draws the cloud icon of the nearest okta (windy exactly for 18); without a cover a cloud code draws nothing |
| Binder.WmoSymbolOf | bin/user/weathercodes.py:1689-1695 | the symbol is found exactly when the table lookup succeeds; otherwise it is the label `'<table>:<code>'` |
| Binder.LabelCallUnchanged | bin/user/weathercodes.py:1700-1709 | resizing and recolouring leave a `'<table>:<code>'` label as it is |
| Binder.LabelChars | bin/user/weathercodes.py:1695 | a label holds only digits, '-', ':' and the letters of 'None' |
| Binder.IntToStringChars | bin/user/weathercodes.py:1695 | `str` of an integer holds only digits and '-' |
| Binder.ToList | bin/user/weathercodes.py:1518-1531 | a missing value stays None, a single code becomes a one-element list, a list stays as it is |
| Binder.PresentWeatherBinder.Ww | bin/user/weathercodes.py:1544-1549 | `.ww` answers exactly in ww mode, with a code 0..99 that is a candidate or the default 0 |
| Binder.PresentWeatherBinder.AerisIcon | bin/user/weathercodes.py:1558-1565 | `.aeris_icon` answers in ww and cloud mode, always with a name ending in '.png' |
| Binder.PresentWeatherBinder.Text | bin/user/weathercodes.py:1550-1551 | `.text` answers in ww and cloud mode, else AttributeError; in ww mode it is the text of the selected code, in cloud mode for a language without okta texts the cover with '%' |
| Binder.PresentWeatherBinder.WiIcon | bin/user/weathercodes.py:1566-1569 | `.wi_icon` answers in ww and cloud mode and for a non-empty wawa list; an empty wawa list raises ValueError, anything else AttributeError; the answer is always an `<i class="wi ...">` element |
| Binder.PresentWeatherBinder.SvgIcon | bin/user/weathercodes.py:1581-1585 | `.svg_icon` answers in ww and cloud mode; in cloud mode it never draws a weather icon, in ww mode a weather icon is that of the `.ww` code |
| Binder.PresentWeatherBinder.WmoSymbol | bin/user/weathercodes.py:1586-1587 | `.wmo_symbol` answers as `.wi_icon` does; in ww mode it is the table 4677 symbol of the `.ww` code |
| Binder.PresentWeatherBinder.OktaString | bin/user/weathercodes.py:1606-1609 | `.okta` answers only in cloud mode; it is '/' exactly above 118 % and otherwise ends in '/8' |
| Binder.MakeBinderRoutes | bin/user/weathercodes.py:1502-1531 | a wawa-tagged first argument becomes the wawa list, a ww-tagged wawa argument the ww list, untagged arguments stay where they are |
| Binder.WwTextPrecedence | bin/user/weathercodes.py:1535-1542 | a user text for the code wins; without one the German text for 'de' and the English text otherwise |
| Binder.PresentWeatherBinder.N | bin/user/weathercodes.py:1598-1605 | `.n` answers only in cloud mode: '/' above 118, '-' above 106, else the integer cover with '%', the same in every language |
| Binder.OktaStringNearest | bin/user/weathercodes.py:1606-1609 | for a cover of 0..100 % `.okta` is `'<k>/8'` with k the nearest whole okta |
| Binder.OktaStringNegativeZero | bin/user/weathercodes.py:1609 | a cover of -2 % is printed as '-0/8' |
| Binder.CloudTextExamples | bin/user/weathercodes.py:1623-1632 | 0 % is 'clear', 100 % by day in German 'bedeckt', and -10 % reads from the end of the table: 'no data' |
| Binder.CloudTextFallback | bin/user/weathercodes.py:1623-1632 | 132 % falls past the table back to '132', and a language without texts gives '50%' |
| Binder.BandIconStem | bin/user/weathercodes.py:1137-1161 | every cloud icon name is a stem without a dot followed by '.png' |
| Binder.SvgIconFilenameSquall | bin/user/weathercodes.py:1570-1573 | a squall (18) with a known cover gives the file of the cover's cloud icon, its '.png' turned into '-wind.svg' |
| Binder.SvgIconFilenameCloud | bin/user/weathercodes.py:1645-1647 | a bare cloud cover gives the file of its cloud icon with '.svg' for '.png' |
| Binder.SvgIconFilenameHail | bin/user/weathercodes.py:1574-1575 | code 96 gives 'thunderstorm-hail.svg' |
| Binder.SvgIconFilenameHaze | bin/user/weathercodes.py:1580 | haze (5) has no Belchertown icon, so `.replace` on None raises AttributeError |
| Binder.WawaUsesHighest | bin/user/weathercodes.py:1590-1596 | in wawa mode `.wi_icon` and `.wmo_symbol` use the highest code of the list, taken from the list |
| Binder.CloudWmoSymbol | bin/user/weathercodes.py:1616-1620 | for a cover of 0..100 % `.wmo_symbol` is the table 2700 symbol of the nearest okta |
| Visibility.VisibilityCodeAsWritten | bin/user/weathercodes.py:1163-1183 | as written the code is always found: up to 5049 m the two-digit hectometre count, up to 5549 m '50', beyond that '89' (the kilometre and 5-km branches are never reached) |
| Visibility.VisibilityCode | bin/user/weathercodes.py:1163-1183 | the code as written always answers, and every visibility of more than 55 hectometres gives '89' |
| Visibility.VisibilityCodeExamples | bin/user/weathercodes.py:1163-1183 | 5000 m and 5549 m give '50', 5550 m, 10 km and 100 km give '89', 1200 m gives '12' and 40 m '00' |
| Visibility.VisibilityCodeWmo | bin/user/weathercodes.py:1164 | for a non-negative visibility the code of WMO table 4377 is two digits that read back as the step number, which lies in 0..89 and is never one of the unused steps 51..55 |
| Visibility.VisibilityNumberRange | bin/user/weathercodes.py:1164 | every visibility maps to a step 0..89 that is never one of the unused steps 51..55 |
| Visibility.VisibilityNumberMonotone | bin/user/weathercodes.py:1164 | the step number never decreases as the visibility grows |
| Visibility.VisibilityCodeDiscrepancy | bin/user/weathercodes.py:1177-1183 | up to 5549 m the code as written agrees with table 4377; at 10000 m it gives '89' where the table gives '60' |
| Tendency.TenthsMonotone | bin/user/weathercodes.py:1210-1217 | rounding to one decimal keeps the order of two readings |
| Tendency.TendencyCodeCases | bin/user/weathercodes.py:1209-1232 | with the lowest and highest reading bracketing both end points the code is 4 exactly for equal ends, 2 or 3 for a rise (2 exactly when the ends are the extremes), 5, 7 or 8 for a fall, and never 1 or 6 |
| Tendency.MinPressure | bin/user/weathercodes.py:1206 | the lowest reading of a non-empty list, taken from the list |
| Tendency.MaxPressure | bin/user/weathercodes.py:1205 | the highest reading of a non-empty list, taken from the list |
| Tendency.PressureTendencyOf | bin/user/weathercodes.py:1185-1232 | `pressure_tendency` answers exactly for a non-empty list whose last time differs from its first, and then with one of 2, 3, 4, 5, 7, 8; otherwise IndexError for the empty list and ZeroDivisionError |
| Tendency.SortedEnds | bin/user/weathercodes.py:1204-1206 | after sorting by pressure the first and last entries are the lowest and highest reading of the list |
| Tendency.InsertByPressure | bin/user/weathercodes.py:1204 | one insertion step extends the sorted prefix by one entry and only permutes the list |
| Tendency.SortByPressure | bin/user/weathercodes.py:1204 | `p_list.sort(key=...)` leaves the list sorted by pressure and a permutation of its entries |
| Tendency.PressureTendency | bin/user/weathercodes.py:1185-1232 | the code (or IndexError / ZeroDivisionError) is that of the list as given, and the caller's list is left sorted by pressure as a permutation of itself |
| Tendency.MidpointsErrStays | bin/user/weathercodes.py:1867-1874 | once a missing reading has raised TypeError, later samples do not change the outcome |
| Tendency.MidpointsComplete | bin/user/weathercodes.py:1867-1874 | with no missing or zero readings, n samples give n-1 means and no error |
| Tendency.SpanTendency | bin/user/weathercodes.py:1856-1877 | the symbol code for a span: 4 when the change is under 0.1 hPa either way, else `pressure_tendency` of the means of neighbouring samples, errors kept as the exceptions it prints |
| Tendency.SpanTendencyOf | bin/user/weathercodes.py:1856-1877 | a missing difference is a TypeError, a difference under 0.1 hPa either way gives 4, and every code given is one of 2, 3, 4, 5, 7, 8 |
| Tendency.Sign | bin/user/weathercodes.py:1275-1278 | the sign is 1, 0 or -1 exactly for a positive, zero or negative argument |
| Tendency.PressureTendencyBufr | bin/user/weathercodes.py:1234-1289 | a code comes exactly when all four readings are present, and it lies in 0..8 |
| Tendency.BufrByDirection | bin/user/weathercodes.py:1234-1289 | four readings always give a code 0..8: a rise over three hours gives 0..3, no change 0, 4 or 5, a fall 5..8 |
| Tendency.BufrMirror | bin/user/weathercodes.py:1246-1287 | turning the pressure curve upside down turns each code into its mirror code |
| Tendency.BufrSteadyRise | bin/user/weathercodes.py:1246-1287 | the same rise in the first and third hour gives 2; 1000, 1000.5, 1000.2, 1000 hPa give 0 |
| Station.FormatKey | bin/user/weathercodes.py:2078 | a row found in the preset is one of the preset's placements; a missing row is the KeyError of `format[key]` |
| Station.PastWeatherRows | bin/user/weathercodes.py:1732-1748 | both presets place 'W1' and 'W2' but have no 'W1W2' row, so an argument named 'W1W2' raises KeyError |
| Station.StyleIgnoresCase | bin/user/weathercodes.py:1966-1969 | the preset chosen does not depend on the case of the format name; an unknown name falls back to WMO |
| Station.WidthOf | bin/user/weathercodes.py:1965 | the width is never 0: a given non-zero width is kept, a missing or zero one becomes 50 |
| Station.Widen | bin/user/weathercodes.py:1999-2002 | the min/max update gives the smallest box holding both boxes |
| Station.Hull | bin/user/weathercodes.py:2121-2124 | the box grown over a list of rows holds every one of them |
| Station.PlacementInExtent | bin/user/weathercodes.py:1720-1751 | every row of a preset, scaled by the width, lies within the preset's extent |
| Station.WindInExtent | bin/user/weathercodes.py:2011-2014 | the wind barb's box (15 units beyond the cloud symbol) lies within the preset's extent |
| Station.Raw | bin/user/weathercodes.py:1771-1776 | a plain value or a missing one reads as a number or None; a time span has no single raw value (TypeError) |
| Station.Get | bin/user/weathercodes.py:2007-2016 | a keyword argument is found exactly when one of that name was passed |
| Station.FormatFixed1 | bin/user/weathercodes.py:1778 | `'%.1f'` starts with '-' exactly for a negative temperature |
| Station.FormatFixed1RoundTrip | bin/user/weathercodes.py:1778 | the text reads back as the temperature's tenths, rounded half to even |
| Station.ToCelsius | bin/user/weathercodes.py:1759-1778 | the empty text stands exactly for a missing temperature |
| Station.CodedMbar | bin/user/weathercodes.py:1827-1832 | the coded barometer is empty exactly when the reading is missing |
| Station.CodedMbarRoundTrip | bin/user/weathercodes.py:1830-1832 | the coded barometer reads back as the rounded tenths of hPa without the thousands digit |
| Station.CodedDiff | bin/user/weathercodes.py:1834-1837 | the coded tendency is empty exactly when there is no difference |
| Station.CodedDiffRoundTrip | bin/user/weathercodes.py:1837 | the coded tendency reads back as the difference in tenths, truncated toward zero |
| Station.ToCodedMbar | bin/user/weathercodes.py:1799-1839 | only a time span gives a tendency |
| Station.VisibilityText | bin/user/weathercodes.py:2070-2076 | the visibility text exists exactly for a plain number that is present (`visibility_code(None)` raises) |
| Station.PastWeatherFromWw | bin/user/weathercodes.py:2087-2097 | a ww-tagged past weather code 0..99 draws a symbol exactly from 30 on |
| Station.PastWeatherFromWawa | bin/user/weathercodes.py:2098-2108 | a wawa-tagged code 0..99 draws a symbol exactly for 27..35 and 40..99 |
| Station.PastWeatherDecades | bin/user/weathercodes.py:2094-2106 | from 50 on (except 90 under ww) both tags draw the W symbol of the code's tens digit |
| Station.PastWeatherUntagged | bin/user/weathercodes.py:2109-2110 | an untagged code indexes the W symbols directly, so only -10..9 are inside the list |
| Station.Wind | bin/user/weathercodes.py:1887-1942 | the barb is drawn exactly when speed rounds to a non-zero number of 5-knot steps and a direction is present; it points along the direction, its pennants and barbs encode the steps, and the result is that of `BarbOf` |
| Station.BarbStrokes | bin/user/weathercodes.py:1920-1935 | the stroke loop lays (kn-9)//2 strokes after a pennant or (kn+1)//2 without, the last one half long when kn is odd, at offset 1 for a single step and ii+ii0 otherwise; the list is `StrokesOf(kn)` |
| Station.LaidEncodes | bin/user/weathercodes.py:1920-1935 | the strokes so laid, with the pennant, add up to the number of 5-knot steps |
| Station.LaidIsStrokesOf | bin/user/weathercodes.py:1920-1935 | any stroke list laid as the loop lays it is the list `StrokesOf(kn)`, stroke by stroke |
| Station.CloudSlot | bin/user/weathercodes.py:1975-1978 | the cloud symbol is slot 0..10 of table 2700 |
| Station.CloudSlotCases | bin/user/weathercodes.py:1975-1978 | a cover of 0..100 % draws the nearest okta; -50 % reaches slot 7 by negative indexing, 132 % and a missing cover fall back to slot 10 |
| Station.PresentWeatherSymbol | bin/user/weathercodes.py:1986-2005 | a ww code 0..99 draws its own ww symbol; a ww code outside -100..99 draws nothing |
| Station.ArgumentElement | bin/user/weathercodes.py:2026-2119 | an argument fails exactly as `ItemError` predicts; TTT and Td draw their `to_celsius` text in their rows, visibility its code in the VV row, W1 and W2 their past-weather symbol (if any) in their own rows, and any other argument puts no row in hand; an element is only drawn with a row in hand |
| Station.Add | bin/user/weathercodes.py:2049-2054 | drawing an element in row `p` appends it with that row as its region and grows the box by the min/max union with that row alone, keeping everything within the extent |
| Station.Place | bin/user/weathercodes.py:2120-2124 | the trailing `if obsfmt:` widens the box by the row in hand and puts a drawn element in that row; without a row in hand nothing changes |
| Station.DrawBarometer | bin/user/weathercodes.py:2047-2069 | the barometer draws the PPPP text when the coded pressure is non-empty, the ppp text when the coded difference is, and the tendency symbol in the a row for a span when no `a` argument was given, each in its own row, which is then in hand |
| Station.DrawArgument | bin/user/weathercodes.py:2025-2124 | one pass of the loop is `ArgumentOf`: the barometer branch or the element of `ArgumentElement`, then the trailing widening; it fails exactly as `ItemError` predicts and otherwise only appends and grows the box |
| Station.DrawArguments | bin/user/weathercodes.py:2025-2124 | the loop over the keyword arguments is `PassesOf`: the passes in order, stopping at the first exception; it fails exactly when some argument's `ItemError` is set |
| Station.PassesStop | bin/user/weathercodes.py:2025-2124 | an exception in one pass is the outcome of the whole loop |
| Station.PassesRaiseNothing | bin/user/weathercodes.py:2025-2124 | a loop that completes met no argument that raises |
| Station.DrawWind | bin/user/weathercodes.py:2007-2014 | the wind barb is drawn, and the box widened by the 15-unit wind margin, exactly when both wind arguments are given and `wind` draws a barb; it fails exactly when `wind` raises; the result is `WindPassOf` |
| Station.DrawOpening | bin/user/weathercodes.py:1970-2005 | the cloud symbol is drawn in the n row, whose box starts the view box; the present-weather symbol follows in the ww row when there is one |
| Station.DrawTendency | bin/user/weathercodes.py:2016-2023 | an `a` argument puts the a row in hand; unless it is None it draws its tendency symbol there and grows the box by that row |
| Station.DrawFixed | bin/user/weathercodes.py:1970-2023 | the part before the loop is `FixedOf`: the cloud symbol first, the present-weather symbol second when there is one, then the barb and the `a` symbol; it fails exactly when the wind raises |
| Station.Draw | bin/user/weathercodes.py:1970-2131 | the drawing is `DrawingOf`; it fails exactly when the wind or some keyword argument raises; otherwise the cloud symbol comes first, every element lies in the view box and the box lies in the preset's extent |
| Station.Station | bin/user/weathercodes.py:1965-2131 | `station(...)` is `DrawingOf` with the preset named by the format, width 50 unless a non-zero one is given, the rounding default of the preset and the colour, with the same guarantees |
| Station.DrawingHull | bin/user/weathercodes.py:1972-2124 | the view box of every drawing is exactly the hull of the n row and the rows it was widened by, each a row of the preset or the wind margin: it grows only by min/max unions |
| Station.WidenAllIsHull | bin/user/weathercodes.py:2121-2124 | widening a box by rows one after another ends in the hull of the box and the rows |
| Station.HullLeast | bin/user/weathercodes.py:2121-2124 | the grown box is the smallest box holding all rows |
| Station.HullIs | bin/user/weathercodes.py:2121-2124 | a grown box that reaches every edge of a box holding all rows is that box |
| Station.ScaledWithin | bin/user/weathercodes.py:1973-1974 | scaling by a non-negative width keeps a row inside the scaled bounds |
| Station.ExtentOfWmo | bin/user/weathercodes.py:1721-1735 | the WMO preset spans five widths by four |
| Station.ExtentOfDwd | bin/user/weathercodes.py:1736-1750 | the DWD preset spans three widths by three |
| Radar.Wawa | bin/user/weatherservicesradar.py:180-193 | a reading has a wawa entry exactly for the twelve classes of the table; the codes found are precipitation codes of table 4680 |
| Radar.HeaderFmt | bin/user/weatherservicesradar.py:226-236 | every header field has type 'I' or 'A' and a positive length |
| Radar.HeaderKeysPrefixFree | bin/user/weatherservicesradar.py:226-236 | no proper prefix of a header key is itself a key, so the scan never stops early on a key |
| Radar.DataSize | bin/user/weatherservicesradar.py:238-242 | the word size is 256 or 16777216, 256 for an unknown product |
| Radar.Pow256 | bin/user/weatherservicesradar.py:349 | the byte weight is positive |
| Radar.WordBytes | bin/user/weatherservicesradar.py:338-344 | a word holds 2 or 4 bytes, its top byte weighted by the data size |
| Radar.Decode | bin/user/weatherservicesradar.py:333 | ASCII decoding with replacement yields one character per byte |
| Radar.DecodeAppend | bin/user/weatherservicesradar.py:333 | decoding two pieces gives the concatenation of their texts |
| Radar.Find | bin/user/weatherservicesradar.py:326 | `find(b'\x03')` is -1 exactly when there is none, else the first position holding it |
| Radar.HeaderPayloadSplit | bin/user/weatherservicesradar.py:325-336 | the header is everything before the first 0x03 and the payload everything after it; without a 0x03 all is header |
| Radar.FindAfter | bin/user/weatherservicesradar.py:326 | the first 0x03 after a stretch without one is found right there |
| Radar.HeaderPayloadUnique | bin/user/weatherservicesradar.py:325-336 | a product built as header, 0x03, payload splits back into those two parts |
| Radar.LittleEndianAppend | bin/user/weatherservicesradar.py:343 | a further byte adds its value times its weight |
| Radar.Words | bin/user/weatherservicesradar.py:342-349 | the payload yields one value per complete word; a trailing partial word is dropped |
| Radar.WordsExtend | bin/user/weatherservicesradar.py:342-349 | bytes added at the end leave the words already complete unchanged |
| Radar.LastByteWeight | bin/user/weatherservicesradar.py:344 | `ct == data_size` holds exactly at the last byte of a word |
| Radar.LastWord | bin/user/weatherservicesradar.py:345 | a payload ending on a word boundary ends with that word's value |
| Radar.CompleteWord | bin/user/weatherservicesradar.py:344-347 | the last byte of a word appends the word's value and restarts the counter |
| Radar.ContinueWord | bin/user/weatherservicesradar.py:348-349 | any other byte adds its weight to the word in progress |
| Radar.AssembleStep | bin/user/weatherservicesradar.py:342-349 | one byte of the loop keeps the loop state equal to the words of the bytes read so far |
| Radar.AssembleWords | bin/user/weatherservicesradar.py:342-349 | the inner loop over a chunk's payload bytes keeps that correspondence |
| Radar.FlattenStep | bin/user/weatherservicesradar.py:323 | the bytes read after one more chunk are the earlier bytes followed by that chunk |
| Radar.ChunkInHeader | bin/user/weatherservicesradar.py:327-333 | a chunk with no 0x03 read in the header is all header text |
| Radar.ChunkEndsHeader | bin/user/weatherservicesradar.py:329-336 | a chunk whose first 0x03 is at i ends the header there; the rest of the chunk is payload |
| Radar.ChunkInPayload | bin/user/weatherservicesradar.py:337-349 | after the header every chunk is payload |
| Radar.ReadChunk | bin/user/weatherservicesradar.py:324-349 | one more chunk keeps header and data equal to the header text and words of all bytes read |
| Radar.ReadChunks | bin/user/weatherservicesradar.py:316-349 | for any split into chunks, the header is the text before the first 0x03 and the data are the words of the bytes after it |
| Radar.ToLittleEndian | bin/user/weatherservicesradar.py:342-349 | writing a value as n bytes gives n bytes |
| Radar.LittleEndianRoundTrip | bin/user/weatherservicesradar.py:342-349 | a value below 256^n written as n bytes reads back as itself |
| Radar.Serialize | bin/user/weatherservicesradar.py:342-349 | writing values as n-byte words gives n bytes per value |
| Radar.WordsRoundTrip | bin/user/weatherservicesradar.py:342-349 | values written as words, plus a partial word, read back as those values |
| Radar.SerializeAt | bin/user/weatherservicesradar.py:342-349 | the i-th word of the written bytes is the i-th value's bytes |
| Radar.Step | bin/user/weatherservicesradar.py:380-399 | a character of the variable header fails only with ValueError (`int` of a non-number) |
| Radar.ParseVarHeader | bin/user/weatherservicesradar.py:376-399 | the loop over the variable header computes the header map, or the ValueError |
| Radar.RunFromAppend | bin/user/weatherservicesradar.py:380-399 | scanning a + b is scanning a and then b from where a left off |
| Radar.RunErrStays | bin/user/weatherservicesradar.py:380-399 | a failure ends the scan; later characters do not undo it |
| Radar.StepConsistent | bin/user/weatherservicesradar.py:380-399 | each step keeps the key, counter and type of the scan consistent |
| Radar.RunTyped | bin/user/weatherservicesradar.py:389-392 | a finished scan stores integers for 'I' fields and text for 'A' fields |
| Radar.RunTypedErr | bin/user/weatherservicesradar.py:389-390 | the only failure of the scan is a ValueError |
| Radar.Digits3 | bin/user/weatherservicesradar.py:385-388 | a three-digit length field has three characters |
| Radar.Digits3Value | bin/user/weatherservicesradar.py:385-386 | a three-digit length field reads back as its value |
| Radar.KeyPrefix | bin/user/weatherservicesradar.py:395-399 | while a key is read its characters only collect |
| Radar.KeyRun | bin/user/weatherservicesradar.py:396-399 | a complete key sets the field's length and type |
| Radar.ValuePrefix | bin/user/weatherservicesradar.py:381-383 | the characters of a value collect until the last one |
| Radar.ValueRun | bin/user/weatherservicesradar.py:381-394 | a value is stored when its last character arrives |
| Radar.FieldRun | bin/user/weatherservicesradar.py:380-399 | one well-formed field stores its value under its key and returns to reading keys |
| Radar.HeaderRoundTrip | bin/user/weatherservicesradar.py:376-400 | the variable header written from well-formed fields parses back to those fields' values |
| Radar.Issued | bin/user/weatherservicesradar.py:356-364 | the timestamp fields fail only with ValueError |
| Radar.EpochExamples | bin/user/weatherservicesradar.py:356-364 | 1970-01-01 00:00 is 0 and 2024-06-04 12:35 UTC is 1717504500 |
| Radar.FieldTexts | bin/user/weatherservicesradar.py:357-361 | two-digit fields such as '04', '24' and '35' |
| Radar.IssuedExample | bin/user/weatherservicesradar.py:356-364 | the header 'WN041235100000624' is issued at 1717504500 |
| Radar.ExampleText | bin/user/weatherservicesradar.py:354-366 | that header is the fixed header of WN, 4 June 2024 12:35, station 10000 |
| Radar.IssuedOfExample | bin/user/weatherservicesradar.py:356-364 | the issue time of that header is the epoch of its fields |
| Radar.ParseDigits | bin/user/weatherservicesradar.py:357-361 | a digit string reads back as its value |
| Radar.TwoDigits | bin/user/weatherservicesradar.py:357-361 | a two-digit field below 100 has two characters |
| Radar.DigitsValueTwoMore | bin/user/weatherservicesradar.py:357 | two more digits multiply the value by 100 and add theirs |
| Radar.FixedHeaderSlices | bin/user/weatherservicesradar.py:354-366 | the slices read by `read_data` are the product, day, hour, minute, station, month and year written |
| Radar.ParseTwoDigits | bin/user/weatherservicesradar.py:358-361 | a two-digit field reads back with `int` |
| Radar.ParseYear | bin/user/weatherservicesradar.py:357 | '20' followed by the two-digit year reads back as the year |
| Radar.FixedHeaderRoundTrip | bin/user/weatherservicesradar.py:354-366 | a fixed header written from a valid time gives back its product, station and issue time |
| Radar.GpWidth | bin/user/weatherservicesradar.py:410-412 | the width after 'x' fails only with IndexError (no 'x') or ValueError |
| Radar.GpRoundTrip | bin/user/weatherservicesradar.py:408-412 | 'AxB' gives height A and width B |
| Radar.AccuracyError | bin/user/weatherservicesradar.py:415-418 | the accuracy field fails only with IndexError (too short for the test) or ValueError (a non-numeric exponent) |
| Radar.AccuracyCases | bin/user/weatherservicesradar.py:415-418 | 'E-' followed by digits is read without failure; an empty or blank field and a lone 'E' raise IndexError; 'E-x' raises ValueError |
| Radar.Cell | bin/user/weatherservicesradar.py:453-455 | `int()` of a non-negative coordinate is a non-negative cell |
| Radar.CellInGrid | bin/user/weatherservicesradar.py:449-455 | a point within the grid, its far edge included, lands on a cell inside the grid |
| Radar.DwdRadar.constructor | bin/user/weatherservicesradar.py:244-261 | no data, no header, product, version or time yet, a 1100 by 1200 grid |
| Radar.DwdRadar.ApplyGp | bin/user/weatherservicesradar.py:408-412 | the height is set before the width is read, so a bad width leaves the new height |
| Radar.DwdRadar.ReadData | bin/user/weatherservicesradar.py:313-423 | data are the words of the payload; product, issue time, station, header, version and grid follow from the header; a failure leaves the fields it did not reach as they were; a readable header fails only on its accuracy field |
| Radar.DwdRadar.ApplyHeader | bin/user/weatherservicesradar.py:354-421 | the fixed and variable header are read in the source's order, each error stopping the rest |
| Radar.DwdRadar.ApplyVars | bin/user/weatherservicesradar.py:400-421 | the header map is stored, VS sets the version, GP the grid (height first), then PR is checked |
| Radar.DwdRadar.GetValue | bin/user/weatherservicesradar.py:428-457 | a point answers exactly when it lies in the grid counted from the DE1200 south-west corner and its cell is within the data, with that cell's reading |
| Radar.DwdRadar.GetWawa | bin/user/weatherservicesradar.py:459-471 | the wawa code of the point's reading, a precipitation code, found exactly where there is a reading with an entry in the table, and then that entry |
| Radar.GridCovered | bin/user/weatherservicesradar.py:439-457 | a product whose data fill the grid answers every point of the grid |
| Radar.RecordEntries | bin/user/weatherservicesradar.py:682-695 | each site with coordinates gets Value, Wawa and DateTime entries; every time is the product's, every wawa code a table code |
| Radar.RecordOf | bin/user/weatherservicesradar.py:682-695 | every entry of a record is a radar value without unit, a wawa code in group_wmo_wawa or the issue time in group_time |
| Radar.DropStaleTail | bin/user/weatherservicesradar.py:699-700 | trimming removes exactly the leading entries older than the cut-off |
| Radar.DropStale | bin/user/weatherservicesradar.py:699-700 | trimming never lengthens the buffer, and what is left starts with an entry that is not older than the cut-off |
| Radar.FirstAtOrAfter | bin/user/weatherservicesradar.py:708-710 | the first entry stamped at or after the time asked for |
| Radar.DwdRadarThread.constructor | bin/user/weatherservicesradar.py:633-651 | the thread starts with no data |
| Radar.DwdRadarThread.Readings | bin/user/weatherservicesradar.py:683-695 | the loop over the locations computes the record, skipping sites without coordinates |
| Radar.DwdRadarThread.GetRecord | bin/user/weatherservicesradar.py:653-702 | a failed download raises AttributeError at `log.failure` (line 656: the module's logger has no such attribute) and leaves the data unchanged; otherwise the new record is appended and the entries older than an hour are dropped from the front |
| Radar.DwdRadarThread.Trim | bin/user/weatherservicesradar.py:699-700 | the loop deletes stale entries from the front so the first left is recent |
| Radar.DwdRadarThread.GetData | bin/user/weatherservicesradar.py:704-715 | the last record stamped before the time asked for, or an empty dict, with interval 1 |
| Radar.FirstAtOrAfterUnique | bin/user/weatherservicesradar.py:708-710 | the scan stops at the only position where earlier entries are older and the entry itself is not |
| Services.GetCloudCover | bin/user/weatherservices.py:312-324 | a missing cover cannot be compared (TypeError); any cover gives one of the five cloud icons |
| Services.EdgesBelow | bin/user/weatherservices.py:314-323 | the count of band edges passed lies between 0 and the number of edges |
| Services.EdgesBelowMonotone | bin/user/weatherservices.py:314-323 | a larger cover never passes fewer edges |
| Services.GetCloudCoverBand | bin/user/weatherservices.py:312-324 | the icon is the one of the band the edges 7, 32, 70 and 95 % put the cover in |
| Services.GetCloudCoverMonotone | bin/user/weatherservices.py:312-324 | a larger cover never gives a band below |
| Services.ToFloat | bin/user/weatherservices.py:575-586 | a value read as an int has neither ',' nor '.', one read as a float has one of them |
| Services.ToFloatInt | bin/user/weatherservices.py:583 | an integer written out reads back as that int |
| Services.ToFloatDecimal | bin/user/weatherservices.py:579-582 | digits around a decimal comma or point read back as that decimal number |
| Services.PoiCloudBand | bin/user/weatherservices.py:604 | the cloud-only codes map to one of the five cloud bands |
| Services.PoiGetWw | bin/user/weatherservices.py:590-607 | a truthy code below 5 fails when it is a float (TypeError) or below -5 (IndexError); otherwise it gets severity 26 exactly when it is a truthy code below 5, the table's German text and no English text or ww |
| Services.PoiCloudCodesAgree | bin/user/weatherservices.py:601-606 | for the codes 1..4 the cloud band icons agree with the table's own icons |
| Services.PoiWeatherCodes | bin/user/weatherservices.py:597-607 | the code 0 and the codes 5..31 return their table row with severity 0 |
| Services.PoiUnreported | bin/user/weatherservices.py:597-607 | a missing code or a code past the table reports 'Wetterzustand nicht gemeldet' with the unknown icon |
| Services.PoiNegativeCodes | bin/user/weatherservices.py:598-606 | the codes -5..-1 index both tuples from the back: the text of row 32+code and the band of position 5+code |
| Services.OmCloudBand | bin/user/weatherservices.py:1363 | the codes 0..3 map to one of the five cloud bands |
| Services.OmGetWw | bin/user/weatherservices.py:1351-1366 | only a code below -4 fails (IndexError); the German text is the listed row's, or the fallback row's |
| Services.OmListedCodes | bin/user/weatherservices.py:1355-1366 | a listed code from 4 on returns its row as it stands |
| Services.OmUnlistedCodes | bin/user/weatherservices.py:1357-1366 | an unlisted code from 4 on returns the unknown-conditions row |
| Services.OmMissingCode | bin/user/weatherservices.py:1355-1365 | the code -1 gives the unknown-conditions texts with the overcast icons |
| Services.OmCloudCodesAgree | bin/user/weatherservices.py:1360-1365 | for the codes 0..3 the DWD icon of the band agrees with the table's |
| Services.OutKey | bin/user/weatherservices.py:2009-2012 | renaming fails only on an empty key that has to be capitalised; the new name is prefix plus key, or the key itself without a prefix |
| Services.ToWeewx | bin/user/weatherservices.py:1991-2013 | the loop of `_to_weewx` computes the renamed and converted observations |
| Services.ToWeewxErrStays | bin/user/weatherservices.py:1994-2012 | once an entry fails the whole conversion fails with that error |
| Services.ToWeewxKeys | bin/user/weatherservices.py:1994-2012 | the conversion fails exactly when a kept key cannot be renamed; otherwise the names are exactly the renamed kept keys |
| Services.ToWeewxReserved | bin/user/weatherservices.py:1994-2012 | without a prefix, interval, count, sysStatus and dateTime are never among the names passed on |
| Services.ToWeewxLastWins | bin/user/weatherservices.py:1994-2012 | the value under a name is the converted value of the last entry renamed to it |
| Services.Lookup | bin/user/weatherservices.py:1978 | `data.get(key)` finds a value exactly when the key is present |
| Services.Blanked | bin/user/weatherservices.py:1981-1983 | blanking keeps the number of entries |
| Services.AgeOut | bin/user/weatherservices.py:1977-1983 | data more than three hours older than the record (or stamped None) are blanked, recent data kept, a text time stamp is a TypeError |
| Services.BlankedShape | bin/user/weatherservices.py:1981-1983 | blanking keeps keys, order and units and the values of interval, latitude, longitude and altitude, sets all others to None, is idempotent, and blanked data with a dateTime stay stale |
| Services.LookupBlanked | bin/user/weatherservices.py:1978-1983 | the blanked dateTime is None with its unit kept |
| Services.DwdXType.constructor | bin/user/weatherservices.py:330-337 | no remembered temperature or humidity, both last seen at time 0 |
| Services.DwdXType.Remember | bin/user/weatherservices.py:349-385 | a reading that converts is remembered with the packet's time; a reading not seen for more than 300 s is forgotten; a packet stamped None raises TypeError at the age test; afterwards every remembered reading is at most 300 s old |
| Cdc.IndexOf | bin/user/weatherservices.py:916 | the index of the first table maps each time stamp to a row holding it, the last such row when a stamp repeats |
| Cdc.GrowsTrans | bin/user/weatherservices.py:868-917 | merging table after table only ever adds rows and stamps, keeping the rows of earlier stamps in place |
| Cdc.MergeRow | bin/user/weatherservices.py:886-898 | one row of a later table keeps the index consistent and only grows the merged list |
| Cdc.MergeRowFacts | bin/user/weatherservices.py:886-898 | a row with a known stamp updates that record with its observations, one after the last stamp is appended, an older unknown one is skipped; only taken stamps are noted, and other records are untouched |
| Cdc.MergeRows | bin/user/weatherservices.py:886-898 | the loop over a later table keeps the index consistent and only grows the merged list |
| Cdc.MergeRowsTaken | bin/user/weatherservices.py:886-898 | the stamps noted as taken are in the index and come from the table; every indexed stamp was there before or was taken |
| Cdc.MergeRowsLaterWins | bin/user/weatherservices.py:887-889 | an observation of a taken row that no later row of the table repeats ends up in the merged record |
| Cdc.NextMaxtime | bin/user/weatherservices.py:903-905 | maxtime moves only to the last taken stamp, and only when the taken stamps do not span it |
| Cdc.MergeLaterGood | bin/user/weatherservices.py:882-905 | merging a later table keeps maxtime indexed and every earlier stamp in the index |
| Cdc.MergeFile | bin/user/weatherservices.py:868-919 | a file (None when its download or decoding failed) keeps the merge consistent and never loses records or stamps |
| Cdc.MergeAll | bin/user/weatherservices.py:868-919 | the merge of all files is consistent and has records exactly when some file was read |
| Cdc.MaxtimeIndexed | bin/user/weatherservices.py:903-933 | with records, maxtime is set, indexed and stamps the record it points to |
| Cdc.Decorate | bin/user/weatherservices.py:921-928 | a stored record keeps its stamp and observations and gains the 10-minute interval; an altitude is added only when it is truthy |
| Cdc.Stored | bin/user/weatherservices.py:920-933 | the stored list is the merged records each decorated, and the stored maxtime is the position of the record stamped maxtime |
| Cdc.CdcThread.constructor | bin/user/weatherservices.py:709-722 | no position, no data, no maxtime |
| Cdc.CdcThread.GetRecord | bin/user/weatherservices.py:863-935 | the stored data and maxtime position are those of all files merged and decorated; the position points at the record stamped maxtime |
| Cdc.CdcThread.MergeFiles | bin/user/weatherservices.py:868-919 | the loop over the files computes the merge |
| Cdc.CdcThread.MergeTable | bin/user/weatherservices.py:886-898 | the loop over a later table computes the merged rows |
| Cdc.CdcThread.DecorateRows | bin/user/weatherservices.py:920-928 | the loop decorates every record in place, keeping their number |
| Cdc.CdcThread.GetData | bin/user/weatherservices.py:748-767 | the buffered data and maxtime position, with interval 10 |
| DwdLegacy.Minus | bin/user/dwd.py:248 | only numbers subtract: the difference when both operands are numbers, TypeError when one is a tuple |
| DwdLegacy.LegacyPoiThread.constructor | bin/user/dwd.py:212-234 | an empty buffer, last query time 0 |
| DwdLegacy.LegacyPoiThread.GetData | bin/user/dwd.py:242-257 | the buffered data, unchanged, and never an interval: an empty buffer (IndexError), a record without 'time' (KeyError) and the tuple 'time' holds (TypeError on subtraction) all end in the `except`, so the last query time never moves |
| DwdLegacy.LegacyOutKey | bin/user/dwd.py:439-458 | the copy in dwd.py always capitalises and prefixes a non-empty key, so dateTime becomes prefix + 'DateTime' |
| DwdLegacy.LegacyKeysPrefixed | bin/user/dwd.py:439-458 | every name it writes starts with the prefix, and a dateTime entry is kept as prefix + 'DateTime' |
| Health.MergedKeys | bin/user/weatherserviceshealth.py:307-309 | a key is in the looked-up record exactly when some forecast interval covering the timestamp holds it |
| Health.MergedLatest | bin/user/weatherserviceshealth.py:307-309 | when several covering intervals hold a key, the value of the last of them wins |
| Health.MergedAppend | bin/user/weatherserviceshealth.py:307-309 | looking up in two lists of intervals one after the other is the union of the two lookups, the later list overriding |
| Health.Merged | bin/user/weatherserviceshealth.py:307-309 | with no forecast interval covering the timestamp the looked-up record is empty |
| Health.UpdateEntry | bin/user/weatherserviceshealth.py:296-305 | an issue time is published as null exactly when it is unknown or 0 |
| Health.Cached | bin/user/weatherserviceshealth.py:678-681 | the new cache is the fresh intervals, preceded by the last interval of the old cache when there was one |
| Health.CachedLookup | bin/user/weatherserviceshealth.py:678-681 | after an update a lookup still sees the kept last old interval, overridden by the fresh ones |
| Health.DwdHealthThread.constructor | bin/user/weatherserviceshealth.py:211-233 | a new thread has no intervals, issue times 0 and an empty area name |
| Health.DwdHealthThread.GetData | bin/user/weatherserviceshealth.py:283-312 | the record holds both issue times and the merged data of every interval covering the timestamp; the interval is 5 |
| Health.DwdHealthThread.Update | bin/user/weatherserviceshealth.py:666-684 | nothing changes when no interval was obtained; otherwise the issue times and area name are replaced and the cache keeps the last old interval before the fresh ones |
| Health.GetDataAnnounces | bin/user/weatherserviceshealth.py:296-309 | every record holds the LastUpdate and NextUpdate keys, with the thread's issue times unless an interval overrides them |
| Health.AreaSplit | bin/user/weatherserviceshealth.py:644-651 | the area number splits into its main region (a multiple of 10 no greater than it) and its subregion, -1 for a main region; a non-number raises ValueError |
| Health.FindZone | bin/user/weatherserviceshealth.py:653-657 | the first zone with the region and subregion pair is chosen, and none when no zone has it |
| Health.PollenValue | bin/user/weatherserviceshealth.py:393-401 | a parsed pollen level is never negative |
| Health.PollenValueDigits | bin/user/weatherserviceshealth.py:394-395 | an all-digit level is read as its own number |
| Health.PollenValueRange | bin/user/weatherserviceshealth.py:396-399 | a range "a-b" is read as float(a) plus one half, whatever b is |
| Health.PollenValueNone | bin/user/weatherserviceshealth.py:396-401 | a level that is empty or starts with '-' has no value, because float of the empty head fails |
| Health.KeyIndex | bin/user/weatherserviceshealth.py:357-365 | the position of a key in an insertion-ordered dictionary is the first entry holding it, or the end when it is absent |
| Health.Assign | bin/user/weatherserviceshealth.py:363-365 | assigning to a dictionary replaces the value of an existing key in place or appends a new key, leaving every other entry alone |
| Health.PairLegend | bin/user/weatherserviceshealth.py:356-367 | the legend loops give the pairing of the level names with the descriptions of their ids |
| Health.NamesDistinct | bin/user/weatherserviceshealth.py:359-365 | every legend id appears once among the level names collected |
| Health.NamesFromLegend | bin/user/weatherserviceshealth.py:359-365 | every id collected comes from a name key of the legend |
| Health.LegendInNames | bin/user/weatherserviceshealth.py:359-365 | the id of every name key of the legend is collected |
| Health.PairingKeys | bin/user/weatherserviceshealth.py:366-367 | the legend dictionary has exactly the level names as keys |
| Health.PairingOf | bin/user/weatherserviceshealth.py:366-367 | a level name is paired with the description of its id, or with None when the id has no description |
| Health.Clamp | bin/user/weatherserviceshealth.py:557-558 | the level is clamped to the range 0 to 3 and left alone inside it |
| Health.ColorIndex | bin/user/weatherserviceshealth.py:560 | the colour index is within the seven pollen colours and is twice the clamped level rounded to the nearest whole number |
| Health.ColorIndexOrder | bin/user/weatherserviceshealth.py:555-560 | a higher level never gets an earlier colour, and each half level from 0 to 3 gets its own colour |
| Health.WhiteTextColors | bin/user/weatherserviceshealth.py:559-560 | white text goes with the first colour or the four darkest ones, and the three middle colours get black text |
| Health.BaseWaiting | bin/user/weatherservicesutil.py:132-134 | the base thread sleeps more than 0 and at most one query interval, waking on an interval border |
| Health.AlignUp | bin/user/weatherserviceshealth.py:701-702 | the wake-up time is rounded up to the next multiple of the query interval, by less than one interval |
| Health.WaitingTime | bin/user/weatherserviceshealth.py:686-707 | the thread always wakes on an interval border; after the scheduled update it waits at most one interval; an unknown next update raises an error |
| Health.WaitingTimeBefore | bin/user/weatherserviceshealth.py:692-704 | before the scheduled update the thread wakes at the first interval border at or after the earliest of the update, the end of the day and, for bio-weather, noon |
| Health.Symbol | bin/user/weatherserviceshealth.py:131-135 | an effect text without a symbol is kept as it is; one with a symbol becomes a picture titled with the text, as high as asked and as wide as its ratio makes it |
| Health.SymbolLegend | bin/user/weatherserviceshealth.py:124-135 | the legend heading stays text; the four effect texts get symbols, the high-danger one twice as wide as it is high plus a tenth |
| Wildfire.KeepTimeChars | bin/user/wildfire.py:273 | only digits and colons are kept, in order |
| Wildfire.KeepAppend | bin/user/wildfire.py:273 | filtering a concatenation is concatenating the filtered parts |
| Wildfire.KeepClean | bin/user/wildfire.py:273 | a text made only of digits and colons is kept unchanged |
| Wildfire.Weight | bin/user/wildfire.py:275-278 | every part of the fetch time has a positive weight |
| Wildfire.PartsValue | bin/user/wildfire.py:276-278 | the sum of the parts fails only with ValueError |
| Wildfire.PartsErrStays | bin/user/wildfire.py:276-278 | a part that is not a number makes the whole fetch time fail |
| Wildfire.FetchTimeOf | bin/user/wildfire.py:271-278 | parsing the fetch time fails only with ValueError |
| Wildfire.PartsNext | bin/user/wildfire.py:276-278 | each further part adds its number times its weight, or passes on the first error |
| Wildfire.SumParts | bin/user/wildfire.py:274-278 | the accumulating loop computes the weighted sum of the parts |
| Wildfire.ParseFetchTime | bin/user/wildfire.py:271-278 | the constructor's parse gives the fetch time in seconds and whether it is UTC |
| Wildfire.ParseDigits | bin/user/wildfire.py:277 | a run of digits converts to its value |
| Wildfire.PartsTwo | bin/user/wildfire.py:275-278 | two numbers weigh 3600 and 60 |
| Wildfire.ClockSplit | bin/user/wildfire.py:276 | a clock text splits at the colon into its hours and minutes |
| Wildfire.ClockParts | bin/user/wildfire.py:275-278 | an hours:minutes clock gives hours times 3600 plus minutes times 60 |
| Wildfire.ClockText | bin/user/wildfire.py:271 | upper-casing and stripping leave a clock, with or without " UTC", unchanged |
| Wildfire.UtcSuffix | bin/user/wildfire.py:272-273 | the " UTC" suffix marks the time as UTC and is dropped by the filter |
| Wildfire.ClockChars | bin/user/wildfire.py:273 | a clock is made of digits and a colon and starts and ends with a digit |
| Wildfire.FetchTimeClock | bin/user/wildfire.py:270-278 | "hh:mm" is parsed as local time and "hh:mm UTC" as UTC, both to hours times 3600 plus minutes times 60 |
| Wildfire.FetchTimeExample | bin/user/wildfire.py:270-278 | "04:30 UTC" is 16200 seconds after midnight UTC |
| Wildfire.FetchTimeEmpty | bin/user/wildfire.py:271-277 | a missing fetch time raises ValueError |
| Wildfire.InstructionOf | bin/user/wildfire.py:623-626 | levels 1 to 5 get their instruction, 0 and down to -4 wrap around to the end of the list, anything else gets an empty text |
| Wildfire.DefaultColor | bin/user/wildfire.py:628 | levels 1 to 5 get their own colour and every other level the grey of level 0 |
| Wildfire.PyInt | bin/user/wildfire.py:610-612 | an integer converts to itself and null raises TypeError |
| Wildfire.IssuedOf | bin/user/wildfire.py:613-619 | the issue time is known exactly when the generated time converts and the raw level is not 0, and it is that converted time |
| Wildfire.ProcessData | bin/user/wildfire.py:599-636 | a non-empty reply without a date raises KeyError; otherwise the record names the issuer, product and area, and an issue time exists exactly for a reply of today whose generated time converts |
| Wildfire.ProcessDataLevel | bin/user/wildfire.py:606-630 | for a reply of today the record holds the level, its instruction, the issue time and the reply's colour or the level's default |
| Wildfire.ProcessDataTextZero | bin/user/wildfire.py:610-624 | a level sent as the text "0" keeps the issue time and takes the last instruction |
| Wildfire.Countdown | bin/user/wildfire.py:328-343 | the countdown is defined only for a UTC fetch time (local time raises NameError) and points after the start of the day |
| Wildfire.Stamped | bin/user/wildfire.py:417-420 | a stored record gains the fetch flag, the processing time and the day's start and end, and keeps every other key |
| Wildfire.GetRecordOf | bin/user/wildfire.py:351-425 | an error arises exactly for a local fetch time and then nothing changes; once today's data is in, nothing changes |
| Wildfire.GetRecordStores | bin/user/wildfire.py:370-420 | a new issue time is stored only from a reply of today that processed with that time, together with the stamped record |
| Wildfire.PlaceholderOnce | bin/user/wildfire.py:397-403 | before the fetch time the placeholder record is stored only once per day |
| Wildfire.FetchedDone | bin/user/wildfire.py:363-366 | once data for the day has been fetched, further calls that day change nothing |
| Wildfire.Published | bin/user/wildfire.py:318-324 | the published record has exactly the five wildfire keys, all null when no data is stored; the level is a byte and the issue time a unix epoch |
| Wildfire.Fetch | bin/user/wildfire.py:370-396 | nothing is stored without a reply; a stored day has a non-zero issue time, keeps the day-change time and is stamped as fetched at the call's time |
| Wildfire.FetchThenPublish | bin/user/wildfire.py:386-396 | after a fetch the published level and issue time are those of the reply |
| Wildfire.PublishedFields | bin/user/wildfire.py:318-320 | the published level and issue time are the stored level and release time |
| Wildfire.PublishedStamped | bin/user/wildfire.py:318-324 | the stamps added to a stored record are not published |
| Wildfire.PyMod | bin/user/wildfire.py:440 | the remainder has the sign of the divisor and is smaller than it |
| Wildfire.Waiting | bin/user/wildfire.py:431-449 | without data the thread wakes at once; with data and a local fetch time it raises NameError |
| Wildfire.WaitingWakes | bin/user/wildfire.py:431-449 | the wait is positive: at the interval border once the fetch time has passed, the countdown before it, and the start of the next day after today's data |
| Wildfire.WildfireThread.constructor | bin/user/wildfire.py:262-296 | a new thread keeps its configuration and holds no data, with no day change processed |
| Wildfire.WildfireThread.GetData | bin/user/wildfire.py:304-325 | stored data older than today is dropped first; the record published is that of the stored data, with interval 1 |
| Wildfire.WildfireThread.GetRecord | bin/user/wildfire.py:351-428 | the new state and the error are those of the getRecord state function |
| Wildfire.WildfireThread.StoreFetched | bin/user/wildfire.py:370-396 | the state after a fetch is that of the fetch function, unchanged when nothing usable came back |
| Wildfire.WildfireThread.Store | bin/user/wildfire.py:394-423 | storing a fetched day sets the issue time, the area name (kept when the reply has none) and the stamped record, and keeps the day-change time |
| Wildfire.WildfireThread.StorePlaceholder | bin/user/wildfire.py:397-420 | the placeholder stamped with the call's times is stored and the day change noted |
| Wildfire.WildfireThread.WaitingTime | bin/user/wildfire.py:431-449 | the thread's wait is that of the waiting function, 0 before any data |

## Left out

- Network, file and archive I/O: downloads, bz2/tar/ZIP unpacking, the JSON and CSV readers, and the HTML, SVG and JSON writers. A downloaded reply enters the model as a value.
- Threads, locks, events and the `run` loop of the base thread; the random load balancing (`random_time`).
- Clocks and calendar helpers (`time.time`, `mktime`, `strptime`, `strftime`, `localtime`, the weeutil day spans) are parameters. Times are whole seconds.
- weewx unit conversion and `wxformulas` are parameters or not part of this model; `kph_to_knot` is the function parameter `knots`.
- SVG path coordinates, the wind trigonometry and the map rendering of the radar are not part of this model. The station model's elements are values (kind, text, size, point and row); the SVG text they print as, and the `viewBox` header computed from the box, are not modelled.
- Python floats are modelled as exact reals. A difference of two nearby pressures is exact in doubles as well, but sums, means and decimal literals are not: for the doubles 1000.0, 1000.1, 1000.2 and 1000.3 the code gives BUFR code 1 where the exact model gives 2. This concerns Tendency.PressureTendencyBufr, Tendency.SpanTendencyOf (the means of neighbouring samples) and Visibility.Hectometres.
- Builtins.UpperChar: `str.upper` is modelled for ASCII letters only; other letters keep their case.
- Services.DwdXType: the barometer and saturation vapour pressure formulas (floating-point physics) are not modelled; only `remember` is.
- Radar.DwdRadar.ReadData: the data keep the raw words; scaling by 10^-k for an accuracy 'E-k' is not modelled, only the errors the accuracy check raises.
- Radar.DwdRadarThread.GetRecord: the download of `DwdRadar.wget` is a parameter holding a single product; the list it returns for the tar products (RV, WN) is not modelled. The AttributeError of a failed download is returned; that it ends the thread's main loop (bin/user/weatherservicesutil.py:153) is not modelled, and neither is the NameError the older logging set-up of weewx 3 would raise there instead.
- Builtins.ParseFloat: `float()` is modelled for decimal numerals with an optional sign and an optional exponent (`1.5e3`); the words `inf`, `infinity` and `nan` and underscores between digits are not, so where Python returns infinity or NaN the model gives ValueError. This reaches Services.ToFloat and Health.PollenValue, which parse with it.
- Services.ToFloat: Python's `float('inf')` and `float('nan')` give values where the model returns None (see Builtins.ParseFloat).
- Health.PollenValue: a level text `inf` or `nan` gives None in the model, where Python's `float()` gives a value (see Builtins.ParseFloat).
- Builtins.ParseInt: ASCII digits only (Python's `int()` also accepts other Unicode digits); no underscores between digits. White space, for `int()`, `float()` and `strip()`, is the ASCII set space, `\t`, `\n`, `\v`, `\f`, `\r` and the separators `\x1c`-`\x1f`; Python's other white space (`\x85`, `\xa0` and the Unicode spaces) is not stripped.
- Health: `process_bio`, `process_uvi` and `convert_timestamp` are not modelled. The forecast intervals they produce enter the model as values, and `Update` takes them as its argument.
- Health.WaitingTime: the query interval is required to be positive, since the source divides by it.
- Health.Assign: Python dictionaries are modelled as insertion-ordered lists of pairs where iteration order matters (the legend); elsewhere they are maps.
- Wildfire: only the Sachsenforst provider is modelled. The instruction texts and level colours are opaque values.
- Wildfire.Countdown: the local-time branch of `is_fetch_time_reached` uses an undefined name (wildfire.py line 341) and raises NameError. The model keeps that error and does not model a local countdown.
- Station: the `W1W2` format lookup raises KeyError and is kept as that error. At most one pennant is drawn, as in the code.
- The unused database module `weatherservicesdb.py` and the installer are not part of this model.

## Findings

| source | as written | input that shows it | evidently intended | confidence | as-written member | corrected member |
|---|---|---|---|---|---|---|
| bin/user/weathercodes.py:1177-1182 | past 5.5 km the visibility is compared in metres with the kilometre bounds 30 and 70, so every longer visibility is coded '89' | 10000 m gives '89' | WMO code table 4377 codes 10 km as '60' (whole kilometres plus 50 up to 30 km, fifths of kilometres plus 74 up to 70 km) | not executed | Visibility.VisibilityCode | Visibility.VisibilityCodeWmo |

The corrected step number is proved to lie in 0..89, to skip 51..55
(Visibility.VisibilityNumberRange) and to grow with the visibility
(Visibility.VisibilityNumberMonotone). Visibility.VisibilityCodeDiscrepancy
proves that both codes agree up to 5.5 km and differ at 10 km. The station
model draws the code the program computes, so it calls the code as written.
