# InaSAFE impact computation, modelled in Dafny

This project models the impact-computation core of InaSAFE 1.x and proves properties of the model:

- **Impact functions.** These cover:
  - the earthquake building impact (MMI classes and NEXIS dollar totals);
  - the ITB earthquake fatality model;
  - the OpenStreetMap building flood impact;
  - the raster population evacuation;
  - the population evacuation for flood polygons.
- **Result bookkeeping.** The `ImpactBreakdown` table, the impact-layer keywords and their serialisation.
- **Table formatter.** The formatter that lays the breakdown out as a report.
- **QGIS helpers.** The self-contained helpers of `safe_qgis/utilities.py`.
- **Dock aggregation.** The aggregation bookkeeping of the dock (`safe_qgis/dock.py`).

Each source file is one Dafny module:

| module | source |
|---|---|
| `Common` (common.dfy) | values, Python helpers |
| `EarthquakeBuilding` | safe/impact_functions/earthquake/earthquake_building_impact.py |
| `ItbFatality` | safe/impact_functions/earthquake/itb_earthquake_fatality_model.py |
| `FloodBuilding` | safe/impact_functions/inundation/flood_OSM_building_impact.py |
| `FloodEvacuation` | safe/impact_functions/inundation/flood_population_evacuation.py |
| `FloodPolygon` | safe/impact_functions/inundation/flood_population_evacuation_polygon_hazard.py |
| `Keywords` | safe/keywords/keywords_management.py |
| `TableFormatter` | safe/keywords/table_formatter.py |
| `QgisUtilities` | safe_qgis/utilities.py |
| `DockAggregation` | safe_qgis/dock.py |

The model follows these conventions:

- **Layers and grids.**
  - An attribute table is a `seq<map<string, Value>>`. Its `Value` has None, Bool, Int, Float, Str, List and Dict cases.
  - A grid is a `seq<Num>`, where `Num` is either `NaN` or a finite real. The comparisons the source makes with NaN are written out.
- **Loops.** The loops that count, accumulate, mask or fill a table are methods. Each is proved against a function of its inputs, and the properties are lemmas about that function.
- **State.** Objects whose fields the source updates become classes:
  - `ImpactBreakdown`, `KeywordsLayerImpact`, `Keywords`;
  - the combo box and the logger;
  - the dock and its aggregation layer.
- **Unseen helpers.** Helpers whose code is not part of the model are parameters:
  - `numpy.power(10, ·)`, `numpy.nextafter` and `round_thousand`;
  - the weekly-needs calculator;
  - Qt's `toInt`/`toString`, the post processors and `get_question`;
  - the hazard interpolation. Its output rows are inputs.
- **Translation.** Phrases are shown in English. Translated labels of breakdown cells are a `Labels` parameter. The earthquake table reads its cells under the same `EarthquakeLabels` the fatality function writes them under, since both call `tr` on the same texts.

## Model

| member | source | states |
|---|---|---|
| Common.Lower | safe/impact_functions/inundation/flood_population_evacuation_polygon_hazard.py:104 | str.lower() keeps the length and lowers each ASCII letter in place |
| Common.TruncInt | safe/impact_functions/inundation/flood_population_evacuation.py:152 | int() of a float truncates toward zero: the result is within 1 of the value, on the zero side |
| Common.PyInt | safe/impact_functions/inundation/flood_population_evacuation_polygon_hazard.py:167-172 | int() fails with ValueError iff the value is NaN, and otherwise truncates toward zero |
| Common.Round | safe/impact_functions/earthquake/itb_earthquake_fatality_model.py:279-290 | Python 2 round(): within 0.5 of the value, a half going away from zero |
| Common.NanSumOfZeroFilled | safe/impact_functions/inundation/flood_population_evacuation.py:133-160 | numpy.nansum of a grid equals the plain sum of the grid with NaN cells read as 0 |
| Common.PyFloat | safe/impact_functions/earthquake/earthquake_building_impact.py:125-138 | float() fails only with TypeError or ValueError; None raises TypeError; an int converts exactly and a float is kept; a text converts to what ParseDecimal reads and raises ValueError when it reads nothing |
| Common.Strip | safe/impact_functions/earthquake/earthquake_building_impact.py:125-138 | the whitespace float() ignores: the stripped text is no longer and neither starts nor ends with whitespace |
| Common.StripPadded | safe/impact_functions/earthquake/earthquake_building_impact.py:125-138 | stripping removes exactly the whitespace around a text that neither starts nor ends with whitespace |
| Common.PaddingIgnored | safe/impact_functions/earthquake/earthquake_building_impact.py:125-138 | float() of a text with whitespace around it equals float() of the text |
| Common.Scaled | safe/impact_functions/earthquake/earthquake_building_impact.py:125-138 | x times ten to the exponent: a product for a non-negative exponent, and a quotient that multiplies back to x for a negative one |
| Common.ExponentRead | safe/impact_functions/earthquake/earthquake_building_impact.py:125-138 | a mantissa, 'e' and a signed exponent read as the mantissa times ten to the exponent |
| Common.NanRead | safe/impact_functions/earthquake/earthquake_building_impact.py:125-138 | 'nan' in any letter case, with or without a sign, reads as NaN |
| Common.SecondPointRefused | safe/impact_functions/earthquake/earthquake_building_impact.py:125-138 | digits with two decimal points are refused |
| Common.NatToStringRoundTrip | safe_qgis/dock.py:1478 | formatting a natural number with %i and reading the digits back gives the number |
| Common.LexLessIrreflexive | safe/impact_functions/inundation/flood_OSM_building_impact.py:270 | no string sorts before itself |
| Common.LexLessTransitive | safe/impact_functions/inundation/flood_OSM_building_impact.py:270 | string order is transitive |
| Common.LexLessTotal | safe/impact_functions/inundation/flood_OSM_building_impact.py:270 | of two different strings one sorts before the other |
| Common.NanMax | safe/impact_functions/inundation/flood_population_evacuation.py:183 | numpy.nanmax is finite iff some cell is finite, and then it is a cell at least as large as every finite cell |
| Common.NanMin | safe/impact_functions/inundation/flood_population_evacuation.py:183 | numpy.nanmin is finite iff some cell is finite, and then it is a cell no larger than any finite cell |
| Common.ZeroImpact | safe/impact_functions/inundation/flood_population_evacuation.py:183 | the test nanmax == 0 == nanmin raises ValueError iff the grid is empty |
| Common.ZeroImpactAllZero | safe/impact_functions/inundation/flood_population_evacuation.py:183 | on a non-empty grid without NaN the test holds iff every cell is 0 |
| EarthquakeBuilding.ShakeClass | safe/impact_functions/earthquake/earthquake_building_impact.py:147-158 | a building's class is one of 0..3 |
| EarthquakeBuilding.ShakeClassIntervals | safe/impact_functions/earthquake/earthquake_building_impact.py:147-158 | for t0 <= t1 <= t2, class 1 iff t0 <= x < t1, class 2 iff t1 <= x < t2, class 3 iff t2 <= x, class 0 iff x is NaN or below t0; a boundary value lands in the upper class |
| EarthquakeBuilding.ShakeClassMonotone | safe/impact_functions/earthquake/earthquake_building_impact.py:147-158 | for ordered thresholds a stronger shake never gives a lower class |
| EarthquakeBuilding.ShakeClassThresholdsRaised | safe/impact_functions/earthquake/earthquake_building_impact.py:67-69 | raising the thresholds never raises a class |
| EarthquakeBuilding.NexisFloat | safe/impact_functions/earthquake/earthquake_building_impact.py:125-138 | a missing NEXIS attribute, or a value float() refuses with ValueError, reads as 0.0; a parsable value reads as float(); None raises the uncaught TypeError |
| EarthquakeBuilding.MmiOf | safe/impact_functions/earthquake/earthquake_building_impact.py:143-146 | a missing 'mmi' raises KeyError, None (the caught TypeError) reads as 0.0, and any other value reads as float() does |
| EarthquakeBuilding.EvalRow | safe/impact_functions/earthquake/earthquake_building_impact.py:124-158 | a building's class is ShakeClass of its MMI; without NEXIS data it has no dollar value and fails only when its MMI cannot be read |
| EarthquakeBuilding.MissingShakeUnaffected | safe/impact_functions/earthquake/earthquake_building_impact.py:143-158 | a None or NaN MMI puts the building in class 0 (for a positive low threshold) |
| EarthquakeBuilding.NexisMissingAreaIsZero | safe/impact_functions/earthquake/earthquake_building_impact.py:125-141 | without FLOOR_AREA the building value is density times 0.0 |
| EarthquakeBuilding.CountsAddUp | safe/impact_functions/earthquake/earthquake_building_impact.py:111-158 | unaffected + lo + me + hi equals the number of buildings |
| EarthquakeBuilding.CountClassBound | safe/impact_functions/earthquake/earthquake_building_impact.py:147-158 | a class count is at most the number of buildings, and 0 when no building has that class |
| EarthquakeBuilding.AppendOne | safe/impact_functions/earthquake/earthquake_building_impact.py:147-165 | one more building raises only its own class's count and dollar totals |
| EarthquakeBuilding.ReadBuilding | safe/impact_functions/earthquake/earthquake_building_impact.py:124-146 | the reads of one loop iteration succeed or fail exactly as EvalRow does, with the same class and values |
| EarthquakeBuilding.Tally1 | safe/impact_functions/earthquake/earthquake_building_impact.py:147-158 | the if/elif ladder raises exactly the counter of ShakeClass(x) |
| EarthquakeBuilding.ClassifyBuildings | safe/impact_functions/earthquake/earthquake_building_impact.py:120-165 | the feature loop succeeds iff every building can be read, else it fails with the first failure; every row gets Shake_cls = its class and is otherwise unchanged; counts and dollar totals are the per-class tallies |
| EarthquakeBuilding.ConvertToMillions | safe/impact_functions/earthquake/earthquake_building_impact.py:167-171 | each total becomes int(v / 1000000), truncated toward zero (whole millions below v for v >= 0); a NaN total raises ValueError |
| EarthquakeBuilding.Millions | safe/impact_functions/earthquake/earthquake_building_impact.py:168-171 | int(total / 1000000): the whole number of millions, truncated toward zero |
| EarthquakeBuilding.EnglishDistinct | safe/impact_functions/earthquake/earthquake_building_impact.py:173-181 | the four categories and three attributes of the breakdown are distinct |
| EarthquakeBuilding.BreakdownAttributes | safe/impact_functions/earthquake/earthquake_building_impact.py:176-181 | one attribute, 'Buildings Affected', or all three with NEXIS data |
| EarthquakeBuilding.CountCells | safe/impact_functions/earthquake/earthquake_building_impact.py:184-187 | the four count writes, category j getting count j |
| EarthquakeBuilding.ValueCells | safe/impact_functions/earthquake/earthquake_building_impact.py:188-193 | two value writes per category |
| EarthquakeBuilding.BuildingBreakdown | safe/impact_functions/earthquake/earthquake_building_impact.py:182-193 | the breakdown 'building_breakdown' has the four categories; every count cell holds its class count and, with NEXIS data, every value cell its millions |
| EarthquakeBuilding.WriteCounts | safe/impact_functions/earthquake/earthquake_building_impact.py:184-187 | after the count writes each category's 'Buildings Affected' cell holds its count; the table's shape is unchanged |
| EarthquakeBuilding.WriteValues | safe/impact_functions/earthquake/earthquake_building_impact.py:188-193 | after the value writes each category's value cells hold its millions and the counts survive |
| EarthquakeBuilding.CountsWritten | safe/impact_functions/earthquake/earthquake_building_impact.py:184-187 | writing the count cells in turn leaves each holding its count |
| EarthquakeBuilding.ValuesWritten | safe/impact_functions/earthquake/earthquake_building_impact.py:188-193 | writing the value cells leaves each holding its total and the counts unchanged |
| EarthquakeBuilding.CountSurvivesValues | safe/impact_functions/earthquake/earthquake_building_impact.py:188-193 | no value write touches a count cell |
| EarthquakeBuilding.ValueCellOnce | safe/impact_functions/earthquake/earthquake_building_impact.py:188-193 | every value cell is written exactly once |
| EarthquakeBuilding.Analyse | safe/impact_functions/earthquake/earthquake_building_impact.py:111-193 | fails with the first unreadable building; under NEXIS a NaN value total fails in int() with ValueError; otherwise it succeeds, marks every building, counts every class and, under NEXIS, writes each class's building and contents totals in whole millions |
| EarthquakeBuilding.RecordRun | safe/impact_functions/earthquake/earthquake_building_impact.py:80-82 | the provenance of both layers and the assessment ('buildings', 'earthquake') are recorded |
| EarthquakeBuilding.Summarise | safe/impact_functions/earthquake/earthquake_building_impact.py:195-205 | the breakdown is set on the keywords and the report is exactly the building table of that breakdown (or its error) |
| EarthquakeBuilding.ThresholdValue | safe/impact_functions/earthquake/earthquake_building_impact.py:147-155 | an int threshold compares as itself and a finite float as its value; a bool compares as 0 or 1; any other value is refused with TypeError |
| EarthquakeBuilding.ThresholdShown | safe/keywords/table_formatter.py:146-151 | a threshold the comparisons accept is shown by '%i' as its integer part |
| EarthquakeBuilding.ReadThresholds | safe/impact_functions/earthquake/earthquake_building_impact.py:67-69 | t0, t1 and t2 are parameters['low_threshold'], ['medium_threshold'] and ['high_threshold']; the first missing key in that order raises KeyError (TypeError when the parameters are not a dict); with all three keys present a value that cannot be compared raises TypeError; the read succeeds iff all three keys are present and their values compare as numbers, and then gives those numbers |
| EarthquakeBuilding.DefaultParametersRead | safe/impact_functions/earthquake/earthquake_building_impact.py:43-49 | the default parameters read as the thresholds 6, 7 and 8 |
| EarthquakeBuilding.ChecklistShowsThresholds | safe/keywords/keywords_management.py:194 | the function details carry the same parameters, so the checklist's thresholds are the integer parts of the thresholds the buildings are classed by |
| EarthquakeBuilding.TableShowsThresholds | safe/keywords/table_formatter.py:140-152 | the last three lines of a building table built from these function details show t2, (t1, t2) and (t0, t1) of the classification thresholds |
| EarthquakeBuilding.ClassifyAndSummarise | safe/impact_functions/earthquake/earthquake_building_impact.py:84-205 | fails with the first unreadable building, or with ValueError for a NaN NEXIS total; otherwise it returns the classified buildings with the breakdown, and its summary is the building table of that breakdown, or the table's error |
| EarthquakeBuilding.Run | safe/impact_functions/earthquake/earthquake_building_impact.py:51-205 | run() records keywords and provenance and reads the thresholds from the function's own parameters, failing with KeyError (or TypeError) when one cannot be read; then it fails with the first unreadable building, or with ValueError for a NaN NEXIS total; otherwise it returns the buildings classed by those thresholds with the breakdown; its summary is the building table of that breakdown, or the table's error, and the table's checklist shows the same thresholds |
| ItbFatality.FatalityRate | safe/impact_functions/earthquake/itb_earthquake_fatality_model.py:177-189 | no fatalities below MMI 4; from MMI 4 the rate is ten to the power x*mmi - y |
| ItbFatality.FatalityRateMonotone | safe/impact_functions/earthquake/itb_earthquake_fatality_model.py:177-189 | the rate is 0 below MMI 4 and 10^(x·mmi − y) above, non-negative and non-decreasing in mmi |
| ItbFatality.LevelsDisjoint | safe/impact_functions/earthquake/itb_earthquake_fatality_model.py:242-245 | with step <= 0.5 no cell is at two levels (mmi − step < h <= mmi + step) |
| ItbFatality.DefaultLevelsCover | safe/impact_functions/earthquake/itb_earthquake_fatality_model.py:161-162 | with range(2, 10) and step 0.5 a cell is at some level iff its MMI is finite and in (1.5, 9.5] |
| ItbFatality.Corrected | safe/impact_functions/earthquake/itb_earthquake_fatality_model.py:262 | where(D > F, D − F, 0) is never negative and positive exactly when D > F (false for NaN) |
| ItbFatality.CellDisplaced | safe/impact_functions/earthquake/itb_earthquake_fatality_model.py:242-262 | a cell's corrected displaced count is non-negative and 0 outside the level |
| ItbFatality.GridAdd | safe/impact_functions/earthquake/itb_earthquake_fatality_model.py:265 | R + D cell by cell |
| ItbFatality.LevelPopulation | safe/impact_functions/earthquake/itb_earthquake_fatality_model.py:242-245 | I holds the population of the cells at the level and 0 elsewhere |
| ItbFatality.LevelFatalities | safe/impact_functions/earthquake/itb_earthquake_fatality_model.py:248-250 | F is the level's rate times I |
| ItbFatality.LevelDisplaced | safe/impact_functions/earthquake/itb_earthquake_fatality_model.py:253-262 | D is the level's displacement rate times I, corrected for F |
| ItbFatality.FirstMissingIndex | safe/impact_functions/earthquake/itb_earthquake_fatality_model.py:253-258 | the first level in range order without a displacement rate |
| ItbFatality.FirstMissingAt | safe/impact_functions/earthquake/itb_earthquake_fatality_model.py:253-258 | the level that raises is the first missing one |
| ItbFatality.LevelSumNonNegative | safe/impact_functions/earthquake/itb_earthquake_fatality_model.py:265 | summed corrected counts are non-negative |
| ItbFatality.Displaced | safe/impact_functions/earthquake/itb_earthquake_fatality_model.py:238-265 | R after the levels: each cell the sum of its corrected displaced counts |
| ItbFatality.DisplacedStep | safe/impact_functions/earthquake/itb_earthquake_fatality_model.py:265 | R += D for one more level is R over the longer range |
| ItbFatality.OtherLevelsZero | safe/impact_functions/earthquake/itb_earthquake_fatality_model.py:242-262 | for distinct levels at most 0.5 wide, the levels a cell is not at add nothing |
| ItbFatality.NoLevelNoneDisplaced | safe/impact_functions/earthquake/itb_earthquake_fatality_model.py:242-265 | a cell at no level has no one displaced |
| ItbFatality.OwnLevelOnly | safe/impact_functions/earthquake/itb_earthquake_fatality_model.py:242-265 | a cell's R is the corrected count of its own level |
| ItbFatality.RecordedStep | safe/impact_functions/earthquake/itb_earthquake_fatality_model.py:269-272 | recording a level keeps the earlier levels' exposed, displaced and fatality sums |
| ItbFatality.AddInto | safe/impact_functions/earthquake/itb_earthquake_fatality_model.py:265 | R += D in place |
| ItbFatality.AddLevel | safe/impact_functions/earthquake/itb_earthquake_fatality_model.py:259-272 | one level with a displacement rate takes R from Displaced over the earlier levels to Displaced over one more level, and records that level |
| ItbFatality.Accumulate | safe/impact_functions/earthquake/itb_earthquake_fatality_model.py:238-272 | the level loop raises InaSAFEError for the first level without a displacement rate, else leaves R equal to Displaced and records every level's sums |
| ItbFatality.MaskCellBounds | safe/impact_functions/earthquake/itb_earthquake_fatality_model.py:276 | after masking a cell is NaN iff it was below the tolerance, and unchanged otherwise |
| ItbFatality.MaskBelow | safe/impact_functions/earthquake/itb_earthquake_fatality_model.py:276 | R[R < tolerance] = nan, in place, cell by cell |
| ItbFatality.Masked | safe/impact_functions/earthquake/itb_earthquake_fatality_model.py:276 | the masked grid, cell by cell |
| ItbFatality.MaskedZeroImpactNeverFires | safe/impact_functions/earthquake/itb_earthquake_fatality_model.py:318 | as written, the zero-impact test on the masked grid never holds for a positive tolerance |
| ItbFatality.UnmaskedZeroImpact | safe/impact_functions/earthquake/itb_earthquake_fatality_model.py:318-324 | on an unmasked non-negative grid, nanmax == 0 == nanmin iff every cell is 0 |
| ItbFatality.RoundThousand | safe/impact_functions/earthquake/itb_earthquake_fatality_model.py:279-291 | the result is a multiple of 1000 within 500 of v |
| ItbFatality.ReportedFatalities | safe/impact_functions/earthquake/itb_earthquake_fatality_model.py:282-287 | fatalities below 50 are reported as 0, the others rounded to thousands |
| ItbFatality.FatalityClampOnlyNegatives | safe/impact_functions/earthquake/itb_earthquake_fatality_model.py:286-287 | the clamp below 50 changes only negative counts, since rounded counts are multiples of 1000 |
| ItbFatality.Totals | safe/impact_functions/earthquake/itb_earthquake_fatality_model.py:279-291 | total population is the rounded nansum of the exposure; fatalities below 50 are 0 |
| ItbFatality.EnglishDistinct | safe/impact_functions/earthquake/itb_earthquake_fatality_model.py:293-295 | the three categories of the breakdown are distinct |
| ItbFatality.FatalityBreakdown | safe/impact_functions/earthquake/itb_earthquake_fatality_model.py:293-301 | the breakdown holds fatalities, displaced (0 when displaced people are not calculated) and the total population |
| ItbFatality.FatalityCellsWritten | safe/impact_functions/earthquake/itb_earthquake_fatality_model.py:296-301 | the three writes land in three different cells |
| ItbFatality.ZeroImpactOfDisplaced | safe/impact_functions/earthquake/itb_earthquake_fatality_model.py:318 | on the unmasked R the test fails only for an empty grid and holds iff no one is displaced |
| ItbFatality.CheckZeroImpact | safe/impact_functions/earthquake/itb_earthquake_fatality_model.py:317-324 | tested on R before masking (corrected, see Findings): ZeroImpactException with the fatalities exactly when no cell has anyone displaced; ValueError on an empty grid |
| ItbFatality.Analyse | safe/impact_functions/earthquake/itb_earthquake_fatality_model.py:231-291 | the level loop, mask and totals: InaSAFEError for the first level without a rate, else the masked R and every level's sums |
| ItbFatality.RecordRun | safe/impact_functions/earthquake/itb_earthquake_fatality_model.py:203-218 | function details, title, provenance and the ('population', 'earthquake') assessment |
| ItbFatality.Summarise | safe/impact_functions/earthquake/itb_earthquake_fatality_model.py:302-313 | breakdown and needs set; the report is exactly the earthquake table of the breakdown and needs (or its error) |
| ItbFatality.Conclude | safe/impact_functions/earthquake/itb_earthquake_fatality_model.py:293-324 | the layer records the breakdown of the reported numbers and the weekly needs of the displaced; a table error is returned; else, testing R before masking (corrected, see Findings), an empty grid gives ValueError, no one displaced gives ZeroImpactException with the reported fatalities, and otherwise the result is the earthquake table; the layer's other fields are kept |
| ItbFatality.Run | safe/impact_functions/earthquake/itb_earthquake_fatality_model.py:191-324 | run() fails with InaSAFEError for a missing rate; otherwise the breakdown is recorded and, with zero impact tested on R before masking (corrected, see Findings): the table succeeds iff the question and the needs table do (the cells it reads are the ones written, for any distinct labels), a table error is returned, an empty grid gives ValueError, no one displaced gives ZeroImpactException carrying the fatalities in the breakdown, and otherwise it succeeds with the earthquake table as summary and the weekly needs of the reported displaced count |
| FloodBuilding.DepthFlag | safe/impact_functions/inundation/flood_OSM_building_impact.py:106-109 | flooded iff float(depth) >= 1.0; NaN is not flooded; missing or unparsable depth raises |
| FloodBuilding.DepthFlagMonotone | safe/impact_functions/inundation/flood_OSM_building_impact.py:108-109 | a deeper building is flooded whenever a shallower one is |
| FloodBuilding.RegionFlag | safe/impact_functions/inundation/flood_OSM_building_impact.py:117-151 | the flag comes from 'affected' (None is False, else bool), else FLOODPRONE (None is False, else lower() == 'yes'), else DEFAULT_ATTRIBUTE (None is False, else the raw value), else an exception |
| FloodBuilding.FloodProneAnyCase | safe/impact_functions/inundation/flood_OSM_building_impact.py:129-134 | 'Yes', 'YES' and 'yes' all flag a building |
| FloodBuilding.Consult | safe/impact_functions/inundation/flood_OSM_building_impact.py:164-176 | a usage attribute is read only if the layer has it and usage is still None or 0 |
| FloodBuilding.UsageKey | safe/impact_functions/inundation/flood_OSM_building_impact.py:160-183 | the usage chain type, amenity, building_t, office, tourism, leisure, building; 'yes' becomes 'building', unresolved becomes 'unknown' |
| FloodBuilding.UsageKeyFirstSet | safe/impact_functions/inundation/flood_OSM_building_impact.py:160-176 | the first attribute of the chain with a set value gives the key |
| FloodBuilding.UsageKeyBuildingYes | safe/impact_functions/inundation/flood_OSM_building_impact.py:175-178 | building = 'yes' gives the key 'building' when no earlier attribute is set |
| FloodBuilding.UsageKeyUnknown | safe/impact_functions/inundation/flood_OSM_building_impact.py:180-183 | with every usage attribute silent the key is 'unknown' |
| FloodBuilding.MapSumRemove | safe/impact_functions/inundation/flood_OSM_building_impact.py:185-212 | a dict's value sum is any entry plus the rest |
| FloodBuilding.MapSumUpdate | safe/impact_functions/inundation/flood_OSM_building_impact.py:185-212 | setting an entry changes the sum by the difference |
| FloodBuilding.MapSumDelete | safe/impact_functions/inundation/flood_OSM_building_impact.py:211-212 | deleting an entry takes its value off the sum |
| FloodBuilding.EvalRow | safe/impact_functions/inundation/flood_OSM_building_impact.py:105-183 | a building's flag is read before its usage key, and the first failure is reported |
| FloodBuilding.AddBuilding | safe/impact_functions/inundation/flood_OSM_building_impact.py:185-196 | counting one building keeps the two dicts (total and affected) on the same keys; its sums are stated by AddBuildingSums |
| FloodBuilding.CountAll | safe/impact_functions/inundation/flood_OSM_building_impact.py:185-196 | the tallies of any list of buildings keep the two dicts on the same keys |
| FloodBuilding.KeysInOrder | safe/impact_functions/inundation/flood_OSM_building_impact.py:185-187 | the types in order of first appearance are listed without repeats |
| FloodBuilding.KeysInOrderMet | safe/impact_functions/inundation/flood_OSM_building_impact.py:185-187 | every type met is listed, and only those |
| FloodBuilding.CountAllKeys | safe/impact_functions/inundation/flood_OSM_building_impact.py:185-187 | the types counted are exactly the types met |
| FloodBuilding.CountAllBounds | safe/impact_functions/inundation/flood_OSM_building_impact.py:185-196 | for each type, 0 <= affected <= total |
| FloodBuilding.AddBuildingSums | safe/impact_functions/inundation/flood_OSM_building_impact.py:190-196 | one building adds 1 to the total sum, and adds its True flag to both the affected sum and count |
| FloodBuilding.CountAllSums | safe/impact_functions/inundation/flood_OSM_building_impact.py:185-196 | before lumping, the per-type totals sum to N, and the affected counts sum to count |
| FloodBuilding.RawFlagNotCounted | safe/impact_functions/inundation/flood_OSM_building_impact.py:191 | a raw flag 1 (not True) is counted as a building but not as flooded |
| FloodBuilding.MarkedPrefixStep | safe/impact_functions/inundation/flood_OSM_building_impact.py:199 | marking one more row extends the marked prefix |
| FloodBuilding.CountOne | safe/impact_functions/inundation/flood_OSM_building_impact.py:185-196 | the loop body's dict updates are AddBuilding |
| FloodBuilding.CountBuildings | safe/impact_functions/inundation/flood_OSM_building_impact.py:105-199 | the feature loop fails with the first unreadable building; otherwise every row gets INUNDATED = its flag and the tallies are CountAll |
| FloodBuilding.MoveInto | safe/impact_functions/inundation/flood_OSM_building_impact.py:205-212 | the type's count is added to 'other' (created at 0) and the type is deleted |
| FloodBuilding.MoveIntoSum | safe/impact_functions/inundation/flood_OSM_building_impact.py:205-212 | moving a type into 'other' keeps the sum |
| FloodBuilding.LumpOne | safe/impact_functions/inundation/flood_OSM_building_impact.py:203-212 | merging one type keeps the two dicts on the same keys and leaves the flooded count unchanged |
| FloodBuilding.LumpAll | safe/impact_functions/inundation/flood_OSM_building_impact.py:202-212 | the lumping loop over the snapshot of the keys keeps the two dicts' keys equal |
| FloodBuilding.LumpType | safe/impact_functions/inundation/flood_OSM_building_impact.py:203-212 | the loop body is LumpOne |
| FloodBuilding.Lump | safe/impact_functions/inundation/flood_OSM_building_impact.py:202-212 | the lumping loop gives LumpAll |
| FloodBuilding.LumpOneSums | safe/impact_functions/inundation/flood_OSM_building_impact.py:203-212 | lumping a type other than 'other' keeps both sums |
| FloodBuilding.LumpAllSums | safe/impact_functions/inundation/flood_OSM_building_impact.py:202-212 | totals are preserved when no original type is 'other' |
| FloodBuilding.LumpOneStep | safe/impact_functions/inundation/flood_OSM_building_impact.py:203-212 | one step of the lumping loop keeps the lumped state |
| FloodBuilding.LumpAllShape | safe/impact_functions/inundation/flood_OSM_building_impact.py:202-212 | after lumping, a type besides 'other' is present iff it was an original type that was not visited or is not small, with its counts unchanged; 'other' is present iff some visited type was small |
| FloodBuilding.LumpedLeavesLarge | safe/impact_functions/inundation/flood_OSM_building_impact.py:202-212 | after lumping, no type but 'other' is small |
| FloodBuilding.OriginalOtherLost | safe/impact_functions/inundation/flood_OSM_building_impact.py:202-212 | a layer with one building of a type literally named 'other' has total 1 before lumping and 0 after |
| FloodBuilding.Capitalize | safe/impact_functions/inundation/flood_OSM_building_impact.py:258 | str.capitalize: the first character upper case, the rest lower case, length kept |
| FloodBuilding.Spaced | safe/impact_functions/inundation/flood_OSM_building_impact.py:248 | usage.replace('_', ' '): no underscore is left, length kept |
| FloodBuilding.SpacedOnly | safe/impact_functions/inundation/flood_OSM_building_impact.py:248-264 | for a word without spaces or underscores, a type name compares equal to it after underscores become spaces iff it was spelled exactly that word |
| FloodBuilding.TypeRows | safe/impact_functions/inundation/flood_OSM_building_impact.py:246-260 | one row per type in iteration order: capitalised spaced name, flooded, total |
| FloodBuilding.BreakdownList | safe/impact_functions/inundation/flood_OSM_building_impact.py:244-264 | the list loop builds TypeRows and picks the flooded counts of 'school' and 'hospital' (0 when absent) |
| FloodBuilding.ClosedInStep | safe/impact_functions/inundation/flood_OSM_building_impact.py:261-264 | a type whose spaced name is the word sets that word's flooded count to its own; any other type leaves it |
| FloodBuilding.NameLeTransitive | safe/impact_functions/inundation/flood_OSM_building_impact.py:270 | string order is transitive |
| FloodBuilding.Insert | safe/impact_functions/inundation/flood_OSM_building_impact.py:270 | insertion keeps the rows as a multiset |
| FloodBuilding.SortByName | safe/impact_functions/inundation/flood_OSM_building_impact.py:270 | list.sort() permutes the rows |
| FloodBuilding.InsertSorted | safe/impact_functions/inundation/flood_OSM_building_impact.py:270 | inserting into a sorted list keeps it sorted |
| FloodBuilding.SortByNameSorted | safe/impact_functions/inundation/flood_OSM_building_impact.py:270 | the rows come out in alphabetical order |
| FloodBuilding.SortByNameSums | safe/impact_functions/inundation/flood_OSM_building_impact.py:270 | sorting keeps the totals and flooded sums |
| FloodBuilding.KeySumIsMapSum | safe/impact_functions/inundation/flood_OSM_building_impact.py:246-260 | summing over an enumeration of the keys gives the dict's sum |
| FloodBuilding.TypeRowsSums | safe/impact_functions/inundation/flood_OSM_building_impact.py:246-260 | the rows' total and flooded columns sum to the dicts' sums |
| FloodBuilding.Present | safe/impact_functions/inundation/flood_OSM_building_impact.py:202-212 | the surviving keys in their order: exactly the keys both met and still present, without repeats |
| FloodBuilding.LumpedOrder | safe/impact_functions/inundation/flood_OSM_building_impact.py:202-246 | iteration after lumping lists no type twice, lists only surviving types, and lists every surviving type that was met or is 'other' |
| FloodBuilding.LumpAllKeys | safe/impact_functions/inundation/flood_OSM_building_impact.py:202-212 | lumping only removes types and adds 'other' |
| FloodBuilding.ListEntries | safe/impact_functions/inundation/flood_OSM_building_impact.py:277-279 | one table row per type row |
| FloodBuilding.Analyse | safe/impact_functions/inundation/flood_OSM_building_impact.py:105-212 | the feature loop and the lumping |
| FloodBuilding.Summarise | safe/impact_functions/inundation/flood_OSM_building_impact.py:221-309 | the report is Summary: the heading rows (question, count, N) first; it fails exactly when the layer has a usage attribute and some type name is not a string |
| FloodBuilding.Run | safe/impact_functions/inundation/flood_OSM_building_impact.py:71-312 | run() fails with the first unreadable building, else marks every building and reports the summary |
| FloodBuilding.NumFloodedBound | safe/impact_functions/inundation/flood_OSM_building_impact.py:191-196 | count is at most N |
| FloodBuilding.ReportedAllRow | safe/impact_functions/inundation/flood_OSM_building_impact.py:226 | the row 'All' shows the number flagged True and N |
| FloodBuilding.ListingSorted | safe/impact_functions/inundation/flood_OSM_building_impact.py:270 | the breakdown is alphabetical |
| FloodBuilding.ListedTypesLarge | safe/impact_functions/inundation/flood_OSM_building_impact.py:202-260 | every listed type is 'other' or has at least 25 buildings |
| FloodBuilding.LargeTypeListed | safe/impact_functions/inundation/flood_OSM_building_impact.py:202-212 | a type with at least 25 buildings keeps its counts through lumping and its row (capitalised spaced name, flooded, total) appears in the sorted breakdown listing |
| FloodBuilding.ListingShowsLargeType | safe/impact_functions/inundation/flood_OSM_building_impact.py:202-260 | each type with at least 25 buildings, other than 'unknown', gets its own row with its counts |
| FloodBuilding.ListingAddsUp | safe/impact_functions/inundation/flood_OSM_building_impact.py:185-270 | when no type is 'other', the breakdown totals sum to N and its flooded counts to count |
| FloodBuilding.ClosedSchoolsAfterLumping | safe/impact_functions/inundation/flood_OSM_building_impact.py:261-264 | the closed schools are the flooded 'school' buildings only if that type survived lumping, else 0 |
| FloodEvacuation.Thresholds | safe/impact_functions/inundation/flood_population_evacuation.py:127-130 | a thresholds parameter that is not a list fails verification; a list gives one float per entry, in order |
| FloodEvacuation.Upper | safe/impact_functions/inundation/flood_population_evacuation.py:142-149 | only the last threshold has no upper bound |
| FloodEvacuation.Band | safe/impact_functions/inundation/flood_population_evacuation.py:145-149 | each cell keeps its population exactly when its depth is at least the threshold and below the next one (no upper bound for the last), else 0 |
| FloodEvacuation.BandsDisjoint | safe/impact_functions/inundation/flood_population_evacuation.py:142-149 | for ascending thresholds no depth falls in two bands |
| FloodEvacuation.BandFrom | safe/impact_functions/inundation/flood_population_evacuation.py:142-149 | for ascending thresholds a depth at least threshold k falls in some band from k on |
| FloodEvacuation.BandsCover | safe/impact_functions/inundation/flood_population_evacuation.py:142-149 | for ascending thresholds a depth falls in some band iff it is at least the first threshold |
| FloodEvacuation.BandSums | safe/impact_functions/inundation/flood_population_evacuation.py:142-156 | one unrounded sum per threshold |
| FloodEvacuation.BandSumLast | safe/impact_functions/inundation/flood_population_evacuation.py:152 | a band's sum splits into the sum without the last cell plus that cell's share |
| FloodEvacuation.CellInBands | safe/impact_functions/inundation/flood_population_evacuation.py:142-152 | across the bands one cell contributes its population exactly once if its depth reaches the first threshold, else nothing |
| FloodEvacuation.BandsAddUp | safe/impact_functions/inundation/flood_population_evacuation.py:142-156 | for ascending thresholds the band sums add up to the population at or above the first threshold |
| FloodEvacuation.CountBands | safe/impact_functions/inundation/flood_population_evacuation.py:139-156 | the threshold loop gives one rounded count per threshold, in order, and the last threshold's band as the impact grid (none without thresholds) |
| FloodEvacuation.ZeroImpactOfBands | safe/impact_functions/inundation/flood_population_evacuation.py:183 | the zero-impact test fires iff no one lives in a cell at or above the last threshold, and passes iff someone does |
| FloodEvacuation.Analyse | safe/impact_functions/inundation/flood_population_evacuation.py:127-162 | not a list gives VerificationError; an empty list gives IndexError (counts[-1]); otherwise the counts, evacuated = the last count, total = rounded population, and the impact grid |
| FloodEvacuation.RecordRun | safe/impact_functions/inundation/flood_population_evacuation.py:114-123 | the function details and the title are recorded, then the provenance of the hazard and the exposure layers |
| FloodEvacuation.Run | safe/impact_functions/inundation/flood_population_evacuation.py:97-174 | as written: the keywords get the function details, title and minimum needs of the evacuated count, and every non-empty threshold list ends in AttributeError |
| FloodEvacuation.Assess | safe/impact_functions/inundation/flood_population_evacuation.py:127-192 | the corrected run, without the summary table: the parameter errors, ValueError on an empty grid, ZeroImpactException with the evacuated count iff no one lives at or above the last threshold, else the numbers of Analyse |
| FloodPolygon.PointAffected | safe/impact_functions/inundation/flood_population_evacuation_polygon_hazard.py:95-121 | 'affected' decides when present (None is no, else its truth); else FLOODPRONE lower-cased equals 'yes' (None is no, a non-text value raises AttributeError); a point with only 'Affected' is never affected; with none of them the plain exception |
| FloodPolygon.FloodProneAnyCase | safe/impact_functions/inundation/flood_population_evacuation_polygon_hazard.py:100-104 | FLOODPRONE values equal up to case give the same answer |
| FloodPolygon.ListIndex | safe/impact_functions/inundation/flood_population_evacuation_polygon_hazard.py:128-129 | list indexing: an index in range, a negative one counted from the end, IndexError outside, TypeError for a non-integer |
| FloodPolygon.AddPop | safe/impact_functions/inundation/flood_population_evacuation_polygon_hazard.py:129 | adding a float population gives a float whose value is the sum |
| FloodPolygon.AddPoint | safe/impact_functions/inundation/flood_population_evacuation_polygon_hazard.py:123-136 | a failing flag fails the point; an unaffected point changes nothing; a change only comes from an affected point, and the polygons stay counted with their categories listed |
| FloodPolygon.DictValue | safe/impact_functions/inundation/flood_population_evacuation_polygon_hazard.py:125-128 | attr[key] is present iff the key is, else KeyError |
| FloodPolygon.AffectedPointLands | safe/impact_functions/inundation/flood_population_evacuation_polygon_hazard.py:123-136 | an affected point with a readable population and polygon id adds its population to exactly that polygon, to its category and to the total; every other polygon is unchanged |
| FloodPolygon.AddPoints | safe/impact_functions/inundation/flood_population_evacuation_polygon_hazard.py:93-136 | the point loop keeps every polygon counted and the number of polygons |
| FloodPolygon.AddPointsStops | safe/impact_functions/inundation/flood_population_evacuation_polygon_hazard.py:93-136 | once a point fails, the later points change nothing |
| FloodPolygon.NumAddSwap | safe/impact_functions/inundation/flood_population_evacuation_polygon_hazard.py:129-136 | float addition with NaN absorbing may be reordered |
| FloodPolygon.MapNumSumRemove | safe/impact_functions/inundation/flood_population_evacuation_polygon_hazard.py:133 | a dict's value sum is any entry plus the rest |
| FloodPolygon.MapNumSumAdd | safe/impact_functions/inundation/flood_population_evacuation_polygon_hazard.py:133 | adding to one category adds to the sum of the categories |
| FloodPolygon.MapNumSumZeros | safe/impact_functions/inundation/flood_population_evacuation_polygon_hazard.py:85-89 | categories all at 0 sum to 0 |
| FloodPolygon.PolygonSumsAdd | safe/impact_functions/inundation/flood_population_evacuation_polygon_hazard.py:129-133 | adding to one polygon adds the same to the polygon sum and to its category's polygon sum only |
| FloodPolygon.AddPointBalanced | safe/impact_functions/inundation/flood_population_evacuation_polygon_hazard.py:123-136 | one point keeps the three tallies in agreement: polygons sum to the total, categories sum to the total, each category is the sum of its polygons |
| FloodPolygon.AddPointsBalanced | safe/impact_functions/inundation/flood_population_evacuation_polygon_hazard.py:93-136 | the whole point loop keeps the tallies in agreement |
| FloodPolygon.Zeroed | safe/impact_functions/inundation/flood_population_evacuation_polygon_hazard.py:86-87 | every polygon's population set to 0, nothing else changed |
| FloodPolygon.ZeroCategories | safe/impact_functions/inundation/flood_population_evacuation_polygon_hazard.py:85-89 | every polygon's category is a key, every key is some polygon's category, all at 0 |
| FloodPolygon.ZeroCategoriesStep | safe/impact_functions/inundation/flood_population_evacuation_polygon_hazard.py:86-89 | one more polygon adds its category at 0 |
| FloodPolygon.Initial | safe/impact_functions/inundation/flood_population_evacuation_polygon_hazard.py:83-92 | the state before the point loop is well formed |
| FloodPolygon.InitialBalanced | safe/impact_functions/inundation/flood_population_evacuation_polygon_hazard.py:83-92 | before any point is counted the tallies agree |
| FloodPolygon.ZeroSums | safe/impact_functions/inundation/flood_population_evacuation_polygon_hazard.py:86-89 | zeroed polygons sum to 0 in total and per category |
| FloodPolygon.InitPolygons | safe/impact_functions/inundation/flood_population_evacuation_polygon_hazard.py:83-89 | the first loop succeeds iff every polygon has FLOODPRONE (else KeyError) and gives the initial state |
| FloodPolygon.CountPoints | safe/impact_functions/inundation/flood_population_evacuation_polygon_hazard.py:93-136 | the point loop gives AddPoints: the first failure stops it |
| FloodPolygon.Evacuated | safe/impact_functions/inundation/flood_population_evacuation_polygon_hazard.py:139-141 | evacuated * 100 = affected * percentage; NaN stays NaN |
| FloodPolygon.FloorThousands | safe/impact_functions/inundation/flood_population_evacuation_polygon_hazard.py:148-149 | a float above 1000 becomes the largest multiple of 1000 not above it; smaller values and NaN are kept |
| FloodPolygon.FloorThousandsInt | safe/impact_functions/inundation/flood_population_evacuation_polygon_hazard.py:146-147 | an int above 1000 becomes the largest multiple of 1000 not above it; smaller values are kept |
| FloodPolygon.WeeklyNeeds | safe/impact_functions/inundation/flood_population_evacuation_polygon_hazard.py:152-156 | seven days of 400 g rice, 2.5 l drinking water and 15 l clean water per person; one family kit per 5 people and one toilet per 20; NaN people give NaN needs |
| FloodPolygon.NeedsRows | safe/impact_functions/inundation/flood_population_evacuation_polygon_hazard.py:167-172 | int() of each need succeeds iff all are finite, else ValueError |
| FloodPolygon.ImpactTable | safe/impact_functions/inundation/flood_population_evacuation_polygon_hazard.py:159-173 | nine rows: the question first, then the evacuated count as a header; fails iff a need is not finite |
| FloodPolygon.Run | safe/impact_functions/inundation/flood_population_evacuation_polygon_hazard.py:43-201 | hazard not vector or not polygon raises; a polygon without FLOODPRONE raises KeyError; a failing point's error is reported; otherwise the tallies are AddPoints of the initial state and agree, and a NaN affected count (int() of NaN) or a layer without polygons (max() of nothing) gives ValueError, and every other run succeeds with evacuated, total, needs, impact table and summary as computed above |
| Keywords.ODict.Put | safe/keywords/keywords_management.py:51-52 | OrderedDict assignment: the value is stored; a new key goes last, an existing key keeps its place |
| Keywords.Dedup | safe/keywords/keywords_management.py:51-52 | the key order of an OrderedDict filled from a list: every element once, in order of first occurrence |
| Keywords.DedupOfDistinct | safe/keywords/keywords_management.py:51-52 | distinct keys keep exactly their order |
| Keywords.FromKeys | safe/keywords/keywords_management.py:51-52 | OrderedDict(zip(keys, [None] * n)): the deduplicated keys, every value the given one |
| Keywords.InitialData | safe/keywords/keywords_management.py:49-52 | a new breakdown's data lists the categories once each in order, each with the attributes in order, every cell None |
| Keywords.CellGet | safe/keywords/keywords_management.py:54-65 | reading a cell succeeds iff its category and attribute exist, else KeyError |
| Keywords.CellPut | safe/keywords/keywords_management.py:67-76 | writing a cell succeeds iff its category exists, else KeyError; the categories and their order are kept |
| Keywords.NewTableShape | safe/keywords/keywords_management.py:30-65 | over distinct names, the data lists exactly the given categories and attributes in order, every declared cell reads None and an unknown category raises KeyError |
| Keywords.PutThenGet | safe/keywords/keywords_management.py:54-76 | a written cell reads back the written value and every other cell is unchanged |
| Keywords.UnknownCategory | safe/keywords/keywords_management.py:54-76 | an unknown category fails both reading and writing with KeyError |
| Keywords.NewAttributeStaysLocal | safe/keywords/keywords_management.py:67-76 | writing an undeclared attribute appends it to that category only |
| Keywords.PutCells | safe/keywords/keywords_management.py:67-76 | a run of writes keeps the categories |
| Keywords.PutCellsGet | safe/keywords/keywords_management.py:54-76 | after a run of writes a cell reads the last value written to it, or what it held before |
| Keywords.CellPutWellFormed | safe/keywords/keywords_management.py:67-76 | one write keeps the data well formed |
| Keywords.PutCellsWellFormed | safe/keywords/keywords_management.py:67-76 | a run of writes keeps the data well formed |
| Keywords.PutCellsKeepsCells | safe/keywords/keywords_management.py:67-76 | a run of writes keeps every cell the data had |
| Keywords.LastWriteOnce | safe/keywords/keywords_management.py:67-76 | a cell written exactly once holds the written value |
| Keywords.LastWriteNever | safe/keywords/keywords_management.py:67-76 | a cell never written keeps its content |
| Keywords.RowValue | safe/keywords/keywords_management.py:100-104 | a category's ordered dict as a value: its entries in key order |
| Keywords.TableValue | safe/keywords/keywords_management.py:100-104 | the data as nested ordered dicts, keys in insertion order |
| Keywords.ImpactBreakdown.constructor | safe/keywords/keywords_management.py:30-52 | the categories, attributes and label are stored and the data is the initial table |
| Keywords.ImpactBreakdown.Get | safe/keywords/keywords_management.py:54-65 | a declared category and attribute never fail; an unknown category raises KeyError |
| Keywords.ImpactBreakdown.Set | safe/keywords/keywords_management.py:67-76 | the cell is written iff the category exists (else KeyError and nothing changes); categories, attributes and label are kept |
| Keywords.ImpactBreakdown.GetCategories | safe/keywords/keywords_management.py:78-84 | every category returned is a key of the data |
| Keywords.ImpactBreakdown.GetAttributes | safe/keywords/keywords_management.py:86-92 | every attribute returned can be read in every category |
| Keywords.ImpactBreakdown.Serialize | safe/keywords/keywords_management.py:94-104 | four entries in order: category_label, data, categories, attributes |
| Keywords.NewBreakdown | safe/keywords/keywords_management.py:30-52 | a fresh breakdown holding the given names, with every category a key of its data |
| Keywords.WriteCells | safe/keywords/keywords_management.py:67-76 | a run of writes gives PutCells of the old data and keeps the names |
| Keywords.ImpactAssessment | safe/keywords/keywords_management.py:180-184 | the impact assessment is a dict |
| Keywords.ImpactAssessmentFields | safe/keywords/keywords_management.py:180-184 | both subcategories are recorded; hazard_units is present iff the hazard is 'flood', and is then 'wet/dry' |
| Keywords.OptionalEntries | safe/keywords/keywords_management.py:199-201 | an optional detail is recorded iff the function has it, with its value |
| Keywords.FunctionDetails | safe/keywords/keywords_management.py:190-201 | the function details are a dict |
| Keywords.EntryIndexAfter | safe/keywords/keywords_management.py:190-201 | a key not among the first entries is found after them |
| Keywords.FunctionDetailsParameters | safe/keywords/keywords_management.py:194 | function_details['parameters'] is the function's own parameters |
| Keywords.FunctionDetailsFields | safe/keywords/keywords_management.py:199-201 | author, rating, citation and limitation are present iff the function has them, with their values |
| Keywords.CountTruthy | safe/keywords/keywords_management.py:156-168 | at most the number of fields |
| Keywords.CountTruthyZero | safe/keywords/keywords_management.py:156-168 | no field counts exactly when no field value is truthy |
| Keywords.TruthyEntries | safe/keywords/keywords_management.py:156-168 | exactly the truthy fields, as many as CountTruthy |
| Keywords.TruthyEntriesKeepOrder | safe/keywords/keywords_management.py:156-168 | each truthy field lands after exactly the truthy fields that precede it |
| Keywords.KeywordsLayerImpact.constructor | safe/keywords/keywords_management.py:117-148 | the version is stored, layer_type is 'impact', and each plain field is the layer data's value or None when absent |
| Keywords.KeywordsLayerImpact.Fields | safe/keywords/keywords_management.py:156-167 | the five serialised fields in their fixed order, the breakdown serialised when present |
| Keywords.KeywordsLayerImpact.Serialize | safe/keywords/keywords_management.py:150-168 | only the truthy fields, in that order |
| Keywords.KeywordsLayerImpact.SetImpactAssessment | safe/keywords/keywords_management.py:170-184 | the impact assessment is replaced; every other field is kept |
| Keywords.KeywordsLayerImpact.SetMinimumNeeds | safe/keywords/keywords_management.py:186-187 | the minimum needs are replaced; every other field is kept |
| Keywords.KeywordsLayerImpact.SetFunctionDetails | safe/keywords/keywords_management.py:189-201 | the function details are replaced; every other field is kept |
| Keywords.KeywordsLayerImpact.SetTitle | safe/keywords/keywords_management.py:204-205 | the title is replaced; every other field is kept |
| Keywords.KeywordsLayerImpact.SetImpactBreakdown | safe/keywords/keywords_management.py:207-208 | the breakdown is replaced; every other field is kept |
| Keywords.SerializedLayerFields | safe/keywords/keywords_management.py:156-164 | a plain field is serialised iff it is truthy |
| Keywords.SerializedLayerBreakdown | safe/keywords/keywords_management.py:165-167 | a present breakdown is serialised |
| Keywords.SerializedLayerWithoutBreakdown | safe/keywords/keywords_management.py:156-168 | without a breakdown at most four fields are serialised |
| Keywords.CountTruthyAppend | safe/keywords/keywords_management.py:156-168 | one more field adds one exactly when it is truthy |
| Keywords.RecordProvenanceFields | safe/keywords/keywords_management.py:338-352 | the layer is recorded with its path, name and type ('vector' iff a vector layer); attribution is copied only when the layer has one; other entries are kept and nothing else is added |
| Keywords.Keywords.ImpactKeywords | safe/keywords/keywords_management.py:365-371 | empty keywords at version 1 whose primary layer is a fresh, empty impact layer |
| Keywords.Keywords.SetProvenanceLayer | safe/keywords/keywords_management.py:338-352 | the provenance becomes RecordProvenance of the old one; every other field is kept |
| Keywords.Keywords.Attribute | safe/keywords/keywords_management.py:354-362 | a name resolves to the keywords' own member first, else to the primary layer's member, else AttributeError |
| TableFormatter.Shown | safe/keywords/table_formatter.py:47-50 | an int is formatted as an integer, anything else is shown as it is |
| TableFormatter.Texts | safe/keywords/table_formatter.py:53 | one text cell per attribute, in order |
| TableFormatter.HeadingLabel | safe/keywords/table_formatter.py:53 | category_label or '': a truthy label is kept, a falsy one becomes '' |
| TableFormatter.CategoryRow | safe/keywords/table_formatter.py:56-59 | the category, then one shown cell per attribute in attribute order, each read from the breakdown without failure |
| TableFormatter.TableBody | safe/keywords/table_formatter.py:41-60 | a header row of the label and attributes, then one non-header row per category, in order; the whole is BodyOf the breakdown |
| TableFormatter.BodyOf | safe/keywords/table_formatter.py:41-60 | the table body has one row per category after the header |
| TableFormatter.BodyIs | safe/keywords/table_formatter.py:41-60 | a header and one entry per category with the category's cells is exactly BodyOf the breakdown |
| TableFormatter.EntryIsRow | safe/keywords/table_formatter.py:56-59 | an entry built for a category is the row of its name and its shown cells, every one of which exists |
| TableFormatter.ReducedTotals | safe/keywords/table_formatter.py:62-81 | the loop over the types gives Regrouped: a small type starts or grows 'other', a large one is copied |
| TableFormatter.RegroupedKeepsLarge | safe/keywords/table_formatter.py:62-81 | with no input type 'other', every type with at least min_group_count affected is kept unchanged and only those and 'other' appear |
| TableFormatter.RegroupedOther | safe/keywords/table_formatter.py:62-81 | with no input type 'other', 'other' appears iff some type is small, and then holds the sum of the small types |
| TableFormatter.FilterLarge | safe/keywords/table_formatter.py:67 | exactly the types with at least min_group_count affected, in order |
| TableFormatter.SmallPlusLarge | safe/keywords/table_formatter.py:62-81 | every type's counts split into the small and the large ones |
| TableFormatter.LargeSumAgrees | safe/keywords/table_formatter.py:77-79 | the kept large types sum to the large types' sum |
| TableFormatter.RegroupedKeepsSums | safe/keywords/table_formatter.py:62-81 | with no input type 'other', the kept types plus 'other' add up to the totals over all input types |
| TableFormatter.RegroupedWithOtherInput | safe/keywords/table_formatter.py:68-79 | an input type named 'other' with 30 affected absorbs a small type visited after it (30 becomes 32) |
| TableFormatter.FormatThousands | safe/keywords/table_formatter.py:122-126 | the name and int(value) followed by a star iff value >= 1000; int() of NaN fails |
| TableFormatter.FormatThousandsStar | safe/keywords/table_formatter.py:124-126 | the star appears iff the value is at least 1000, and the integer shown is then at least 1000 |
| TableFormatter.AddActionChecklist | safe/keywords/table_formatter.py:105-119 | the six checklist rows are appended iff hazard is 'population' and impact is 'inundation'; otherwise the body is unchanged |
| TableFormatter.PercentI | safe/keywords/table_formatter.py:146-151 | '%i' of an int is itself, of a float its truncation; NaN raises ValueError, anything else TypeError |
| TableFormatter.ChecklistThresholds | safe/keywords/table_formatter.py:140-144 | missing parameters fail |
| TableFormatter.BuildingChecklist | safe/keywords/table_formatter.py:140-152 | succeeds iff the three thresholds can be read; the high, medium and low lines then show t2, (t1, t2) and (t0, t1) |
| TableFormatter.DefaultBuildingChecklist | safe/keywords/table_formatter.py:140-152 | thresholds 6, 7, 8 give 'greater than 8', 'between 7 and 8' and 'between 6 and 7' |
| TableFormatter.ChecklistLines | safe/keywords/table_formatter.py:169-189 | the heading first; the victim line iff the fatalities are truthy, the shelter lines iff someone is displaced, and so many lines in all |
| TableFormatter.EarthquakeChecklist | safe/keywords/table_formatter.py:169-189 | KeyError iff the fatalities or displaced cell is missing under the given labels; otherwise the lines are ChecklistLines of the two cells |
| TableFormatter.EarthquakeNotes | safe/keywords/table_formatter.py:191-207 | nine rows starting with the Notes heading and the total population |
| TableFormatter.NeedRow | safe/keywords/table_formatter.py:93-102 | a needs row succeeds iff type and quantity (and the unit for the first three) are present, and shows the quantity |
| TableFormatter.Lookups | safe/keywords/table_formatter.py:88-92 | every key looked up in order; a missing first key fails |
| TableFormatter.NeedRows | safe/keywords/table_formatter.py:93-102 | one row per resource, in order |
| TableFormatter.NeedsTable | safe/keywords/table_formatter.py:83-103 | the heading and five rows, one per need; a missing 'food' fails |
| TableFormatter.QuestionOf | safe/keywords/table_formatter.py:132-135 | the question uses the function title; it needs both provenance entries; a missing impact layer raises KeyError |
| TableFormatter.BuildingAnalysisTable | safe/keywords/table_formatter.py:129-138 | the table is BuildingTableOf the keywords |
| TableFormatter.BuildingTableOf | safe/keywords/table_formatter.py:129-138 | it succeeds iff the question, the breakdown and the checklist exist, a missing breakdown being AttributeError; then the question, the breakdown's body and the three checklist lines, in that order |
| TableFormatter.EarthquakeAnalysisTable | safe/keywords/table_formatter.py:155-167 | the table is EarthquakeTableOf the keywords |
| TableFormatter.EarthquakeTableOf | safe/keywords/table_formatter.py:155-167 | it succeeds iff the question, the breakdown, the needs table and the fatalities, displaced and total cells (under the given labels) exist, a missing breakdown being AttributeError; then it is EarthquakeRows of them |
| TableFormatter.EarthquakeRows | safe/keywords/table_formatter.py:155-167 | the question, the body, the displaced-map line, the needs rows, the checklist and the nine notes, each in its slice |
| TableFormatter.Call | safe/keywords/table_formatter.py:26-39 | 'Complete Analysis Result' raises AttributeError; other unknown types give None; the base class raises AttributeError; the building and earthquake formatters return their tables or the tables' errors |
| TableFormatter.TableSelector | safe/keywords/table_formatter.py:211-216 | buildings give the building table; population with earthquake gives the population table; otherwise None; a missing exposure subcategory fails |
| TableFormatter.SelectorOnRecordedAssessment | safe/keywords/table_formatter.py:211-216 | on a recorded impact assessment the selector picks by its exposure and hazard |
| QgisUtilities.WithRange | safe_qgis/utilities.py:276-278 | the class gets min and max and keeps its quantity |
| QgisUtilities.Step | safe_qgis/utilities.py:275-283 | one class: it is always written (min, max) in place; it is kept only when it reads and its quantity differs from the last max, and the last max then becomes the next float above its quantity; after a failure nothing more is read |
| QgisUtilities.Scan | safe_qgis/utilities.py:273-284 | every class is visited once |
| QgisUtilities.StepChained | safe_qgis/utilities.py:275-283 | one step keeps the kept classes' ranges chained |
| QgisUtilities.ChainedAt | safe_qgis/utilities.py:273-284 | the first kept class ranges from 0 to its quantity; every later one from just above the previous kept quantity to its own |
| QgisUtilities.ScanChained | safe_qgis/utilities.py:273-284 | the kept classes' ranges are chained and at most every class is kept |
| QgisUtilities.ScanNext | safe_qgis/utilities.py:275 | scanning one more class is one more step |
| QgisUtilities.StepReads | safe_qgis/utilities.py:276-283 | a readable class gets range (last max, quantity); it is skipped iff its quantity equals the last max |
| QgisUtilities.ScanAfterFailure | safe_qgis/utilities.py:276 | after a failure the remaining classes are left as they are |
| QgisUtilities.AddMinMaxToStyle | safe_qgis/utilities.py:222-284 | the loop over the style list writes min and max into the classes in place and returns the kept classes, or the first error of float(quantity) |
| QgisUtilities.ScanStops | safe_qgis/utilities.py:276 | a class whose quantity does not read stops the scan there, with it and all after it left as they are |
| QgisUtilities.Combo.constructor | safe_qgis/utilities.py:1140-1167 | a combo holds the given items |
| QgisUtilities.Combo.InsertItem | safe_qgis/utilities.py:1164-1167 | insertItem puts the item at the index and shifts the rest |
| QgisUtilities.InsertPosition | safe_qgis/utilities.py:1159-1167 | the first item whose text the new one precedes case-insensitively, or the end: every earlier item is not preceded |
| QgisUtilities.AddComboItemInOrder | safe_qgis/utilities.py:1140-1167 | the item is inserted at InsertPosition, the other items keep their order |
| QgisUtilities.InsertKeepsSorted | safe_qgis/utilities.py:1140-1167 | a case-insensitively sorted combo stays sorted |
| QgisUtilities.InsertPositionEnds | safe_qgis/utilities.py:1159-1167 | an item preceding no item goes last; one preceding the first goes first |
| QgisUtilities.Humanise | safe_qgis/utilities.py:1045-1058 | the phrase is picked by the ranges below 60, 120, 3600, 7200, 86400 and beyond, each iff its range |
| QgisUtilities.HumaniseRecombines | safe_qgis/utilities.py:1039-1058 | the days, hours and minutes shown add back up to the duration short of under a minute, with hours under a day and minutes under an hour |
| QgisUtilities.SpanText | safe_qgis/utilities.py:1045-1058 | only a count of seconds is written with the unit ' seconds' |
| QgisUtilities.HumaniseSeconds | safe_qgis/utilities.py:1022-1058 | under a minute the seconds are shown as they are, then 'a minute', and 'over an hour' in the second hour; the text ends in ' seconds' iff the duration is under a minute |
| QgisUtilities.Logger.constructor | safe_qgis/utilities.py:693-713 | a new logger has no handlers |
| QgisUtilities.Logger.AddHandler | safe_qgis/utilities.py:712 | the handler is appended |
| QgisUtilities.AddLoggingHandlerOnce | safe_qgis/utilities.py:693-713 | the handler is appended and True returned iff no handler of its class is attached; otherwise nothing changes and False is returned |
| QgisUtilities.AddOnceIdempotent | safe_qgis/utilities.py:693-713 | adding keeps the handler classes distinct, a second add of the same class changes nothing and answers False, and the answer is True iff the class was absent |
| QgisUtilities.AllowedNames | safe_qgis/utilities.py:840-851 | at most one name per field; a name is listed iff some field of an allowed type has it |
| QgisUtilities.LastIndex | safe_qgis/utilities.py:849-850 | the last position holding the current keyword, or None when no position holds it |
| QgisUtilities.GetLayerAttributeNames | safe_qgis/utilities.py:817-854 | a vector layer gives the allowed names in field order and the last position of the keyword among them; any other layer gives (None, None) |
| QgisUtilities.KeywordOr | safe_qgis/utilities.py:1088-1108 | the keyword's value when present, else the fallback phrase |
| QgisUtilities.ImpactLayerAttribution | safe_qgis/utilities.py:1061-1137 | None iff there are no keywords |
| QgisUtilities.AttributionShowsSources | safe_qgis/utilities.py:1110-1137 | the report is one table holding the hazard and exposure source rows, and the software note when asked for |
| QgisUtilities.ContainsTransitive | safe_qgis/utilities.py:1110-1137 | text inside a piece of the report is inside the report |
| QgisUtilities.AttributionFallbacks | safe_qgis/utilities.py:1088-1108 | without title and source keywords the generic phrases are used |
| QgisUtilities.MmToPoints | safe_qgis/utilities.py:945-958 | points times 25.4 are millimetres times dpi; never negative for non-negative inputs |
| QgisUtilities.PointsToMm | safe_qgis/utilities.py:961-974 | a dpi of 0 raises ZeroDivisionError, any other succeeds |
| QgisUtilities.PointsMmRoundTrip | safe_qgis/utilities.py:945-974 | converting millimetres to points and back gives them again, and the other way round |
| QgisUtilities.DpiToMeters | safe_qgis/utilities.py:977-990 | dots per metre times 25.4 are 1000 times dpi, at least 39 per dot per inch |
| QgisUtilities.DotsPerMetre | safe_qgis/utilities.py:977-990 | dots per metre are 1000 millimetres converted to points |
| DockAggregation.AggregationLayer.constructor | safe_qgis/dock.py:1408-1409 | the layer holds the given fields and features |
| DockAggregation.AggregationLayer.DeleteAttributes | safe_qgis/dock.py:1424-1427 | the fields at the given positions are dropped, in order, and their values removed from every feature |
| DockAggregation.AggregationLayer.AddAttribute | safe_qgis/dock.py:1545-1547 | the field is appended and the features are unchanged |
| DockAggregation.AggregationLayer.ChangeFirstFeature | safe_qgis/dock.py:1548-1555 | feature 0 gets the value; no other feature changes; an empty layer stays empty |
| DockAggregation.KeepIndices | safe_qgis/dock.py:1424-1427 | at most the original fields remain |
| DockAggregation.StripRows | safe_qgis/dock.py:1424-1427 | every feature loses exactly the named values |
| DockAggregation.WantedFields | safe_qgis/dock.py:1419-1422 | at most the original fields |
| DockAggregation.WantedFieldsMembers | safe_qgis/dock.py:1419-1422 | a field is kept iff it is a field of the layer and its name is among the values of postProcessingAttributes |
| DockAggregation.DeleteUnwanted | safe_qgis/dock.py:1416-1427 | deleting exactly the unneeded positions leaves the wanted fields, in order |
| DockAggregation.IntSumSplits | safe_qgis/dock.py:1535-1539 | the sum of the convertible target values splits over any cut of the features |
| DockAggregation.Highest | safe_qgis/dock.py:1455-1461 | the highest converted value above 0, or 0: it bounds every converted value and, when positive, is one of them |
| DockAggregation.LegendClasses | safe_qgis/dock.py:1463-1479 | three classes, class k from k*(step+1) to that plus step, with step = highest / 3 and the colours in order |
| DockAggregation.LegendPartitions | safe_qgis/dock.py:1463-1479 | consecutive classes do not overlap, and every value from 0 to the highest falls in exactly one class |
| DockAggregation.Append | safe_qgis/dock.py:1679-1685 | one result is appended to its post processor's list, which is created on first use; the keys gain that post processor and no other |
| DockAggregation.AddZoneResults | safe_qgis/dock.py:1656-1685 | one zone adds its result to the list of each requested post processor and to no other list |
| DockAggregation.ZoneEntries | safe_qgis/dock.py:1642-1685 | one entry per zone, in zone order, named and computed for that zone |
| DockAggregation.AddZonesResults | safe_qgis/dock.py:1642-1685 | after the zone loop a requested post processor's list is the old list plus one entry per zone in order; every other list is unchanged |
| DockAggregation.Indicator | safe_qgis/dock.py:1289-1309 | the first indicator of that name, or None when no indicator has it |
| DockAggregation.SortKey | safe_qgis/dock.py:1304-1311 | a missing indicator or 'value' raises KeyError; NO_DATA sorts as -1 |
| DockAggregation.InsertDescending | safe_qgis/dock.py:1302-1312 | inserting keeps the results as a multiset |
| DockAggregation.InsertKeepsDescending | safe_qgis/dock.py:1302-1312 | inserting into a descending list keeps it descending |
| DockAggregation.SortDescending | safe_qgis/dock.py:1302-1312 | sorted(reverse=True) permutes the results into descending order of the key |
| DockAggregation.SortZoneResults | safe_qgis/dock.py:1287-1315 | an empty list or an empty first result raises; otherwise the results are permuted, descending by the first indicator when every key reads, and left in order when one raises KeyError or cannot be compared |
| DockAggregation.MissingIndicatorKeepsOrder | safe_qgis/dock.py:1313-1315 | a zone without the first indicator leaves the order as it was |
| DockAggregation.FillDefaults | safe_qgis/dock.py:1719-1734 | fails iff the aggregation attribute is missing and the layer has no int or string field (None gives TypeError, [] IndexError); otherwise the category is 'postprocessing', all three keys are present and every other keyword is kept |
| DockAggregation.CheckAttributesAsWritten | safe_qgis/dock.py:1687-1760 | keywords passing the test as written give True with nothing written |
| DockAggregation.UseDefaultWithoutRatioPasses | safe_qgis/dock.py:1709-1716 | keywords whose female ratio attribute is 'Use default' and that hold no ratio pass the test as written, though they are incomplete |
| DockAggregation.CheckAttributes | safe_qgis/dock.py:1687-1760 | True with nothing written iff the keywords are complete; False only under zonal aggregation; whatever is written is complete |
| DockAggregation.CheckSettles | safe_qgis/dock.py:1687-1760 | after the defaults are written the next check finds the keywords complete and writes nothing |
| DockAggregation.Dock.constructor | safe_qgis/dock.py:150-155 | no post processing output, prefix 'aggr_', no attributes, no skip reason |
| DockAggregation.Dock.AggregationFieldNameCount | safe_qgis/dock.py:892-893 | the name starts with the prefix and the rest is 'count' |
| DockAggregation.Dock.AggregationFieldNameMean | safe_qgis/dock.py:895-896 | the name starts with the prefix and the rest is 'mean' |
| DockAggregation.Dock.AggregationFieldNameSum | safe_qgis/dock.py:898-899 | the name starts with the prefix and the rest is 'sum' |
| DockAggregation.Dock.AggregationFieldNamesDistinct | safe_qgis/dock.py:892-899 | the three aggregation field names differ |
| DockAggregation.Dock.RemoveUnneededFields | safe_qgis/dock.py:1416-1427 | the layer keeps exactly the wanted fields in order and its features lose the others |
| DockAggregation.Dock.AggregateResultsVector | safe_qgis/dock.py:1486-1557 | no target_field keyword, no such field, or zonal aggregation each record their skip reason and leave the layer unchanged; otherwise the sum field is appended and feature 0 holds the sum of the convertible target values |
| DockAggregation.Dock.AggregationLegend | safe_qgis/dock.py:1449-1484 | a style iff the layers are shown under zonal aggregation; KeyError when a feature has no sum field; otherwise the three classes of the highest sum |
| DockAggregation.Dock.StartPostProcessors | safe_qgis/dock.py:1635-1685 | the output becomes AddZones of the old output: each zone's results appended to each post processor's list, in order |
| DockAggregation.Dock.PostProcessZone | safe_qgis/dock.py:1656-1685 | the output becomes AddZone of the old output: the zone's (name, results) appended to each post processor's list in processor order, a missing list created first |

## Left out

- Common.PyFloat: 'inf' and 'infinity' texts give ValueError, since the model has no infinities; binary64 rounding of decimal texts and overflow of huge exponents are not modelled.
- Floating point: floats are exact reals with a NaN case. There is no rounding error, no infinity and no overflow. Text formatting of floats (`'%s' % x`, `str(float)`) is not modelled.
- Unseen helpers: `numpy.power(10, ·)`, `numpy.nextafter`, `round_thousand`, `format_int`, `get_question` and the weekly-needs calculator are parameters or symbolic cells. Their code is not part of this model.
- Translation: phrases and notes are kept in English (`tr`/`safeTr` as the identity on them). Only breakdown labels are a `Labels` parameter, and the earthquake table is given the same labels as the fatality function.
- EarthquakeBuilding.ThresholdValue: a threshold that is None, a string, a NaN float or another non-number is refused with TypeError. Python 2 would compare it with the MMI values without raising, and run() would fail later: with the first unreadable building, or in the checklist's '%i' (TypeError, or ValueError for NaN).
- EarthquakeBuilding.Run: the thresholds are read after provenance and the assessment are recorded, where the source reads them before. When a read fails the returned keywords already hold provenance; the source's keywords are local to run() and are dropped with the exception, so nothing observable differs.
- EarthquakeBuilding.Run: requires the translated labels to be distinct. This holds for the English labels (EarthquakeBuilding.EnglishDistinct). A translation that maps two labels to the same text would merge breakdown cells, and that is not modelled.
- ItbFatality.Run: requires distinct translated labels, for the same reason. It also requires the hazard and exposure grids to have the same size, which numpy assumes without checking.
- ItbFatality.Run: tests zero impact on R before the tolerance mask, the corrected behaviour of the first Findings row. The source tests the masked R (itb_earthquake_fatality_model.py:276, 318), where the exception can never fire (ItbFatality.MaskedZeroImpactNeverFires). The same holds for ItbFatality.Conclude and ItbFatality.CheckZeroImpact.
- Python 2 dict iteration order is arbitrary. Most loops over a dict take an explicit key order that enumerates the keys exactly once, and their properties hold for every such order.
- FloodBuilding.Run: the lumping loop visits the usage types in the order they were first met (KeysInOrder), one particular enumeration of the dict. When no input usage is 'other', the totals are preserved whatever the order (LumpAllSums). When one is, the merged counts can depend on where 'other' falls in the order, and only the first-seen order is captured.
- Style and legend creation: `create_classes`, the `numpy.linspace` legend breaks of the polygon-hazard function, the raster legend and `Table`/`TableRow` rendering are not modelled. Table rows are sequences of cells.
- Hazard interpolation (`assign_hazard_values_to_exposure_data`): its output attribute rows are inputs.
- FloodEvacuation.Analyse: requires every entry of a list of thresholds to be a number. The source compares whatever the list holds, and Python 2 order between mixed types is not modelled.
- FloodEvacuation.Assess: also leaves out the summary table at flood_population_evacuation.py:178-179. That call uses the base `TableFormatter`, which has no `analysis_table`, so it fails with AttributeError like line 172 (TableFormatter.Call states this for the base formatter). No formatter in safe/keywords/table_formatter.py lays out a population flood table, so the corrected run has no summary to state.
- FloodEvacuation: `get_data(nan=0.0, scaling=True)` is taken to return the grid with NaN read as 0. Resampling and scaling of the population grid are not modelled.
- FloodPolygon: attribute dicts are values. The aliasing between the hazard layer's attribute dicts and `new_attributes` is not modelled.
- FloodPolygon: dict keys are compared as written. Python's equality of `1`, `1.0` and `True` as dict keys is not modelled.
- Keywords: the JSON parsing in `Keywords.__init__` and `json_dump` are not modelled. Keywords start from ImpactKeywords.
- Keywords: `Keywords.serialize` passes a single pair to `OrderedDict`, which is not a valid list of pairs. It is not modelled as succeeding, and not modelled at all.
- Keywords: `set_impact_assesment_population` is not defined in keywords_management.py. Its call is modelled as the AttributeError it raises (see Findings).
- Keywords.KeywordsLayerImpact.constructor: an `impact_breakdown` entry in the layer data is not read, and the field starts as null. The model's breakdown is an object, while layer data holds plain values.
- Keywords: the exposure and hazard layer classes and the metrics are not modelled. Only the impact layer is.
- TableFormatter.ReducedTotals: requires the key order to enumerate the dict's keys without repeats, as Python iteration does.
- TableFormatter.ReducedTotals: a large type's entry in the result is the input's own dict. When the input has a large type named 'other', later small types add into that dict and so change the input. The model copies values and does not capture this aliasing.
- QgisUtilities: Qt widgets are reduced to the state the helpers touch. The combo box is a list of (text, data) pairs, the logger a list of handlers, and a layer its fields, type codes and keywords.
- QgisUtilities: keywords are a `map<string, string>`, QVariant type codes are ints, and the QGIS version is a parameter.
- QgisUtilities: `setVectorStyle`, `setRasterStyle`, `setupLogger`, `getWGS84resolution`, printer, file and memory-layer helpers are renderer, reprojection and I/O calls, and are not modelled.
- DockAggregation: Qt's `toInt`/`toString` conversions are parameters.
- DockAggregation: the post processors' setup, process and results are one opaque `compute` parameter. It cannot alias the dock's state.
- DockAggregation: skip messages are reasons rather than translated HTML.
- DockAggregation.SortKey: a 'value' that is a bool, a NaN float, or anything else that is neither NO_DATA nor a finite number is treated as a failed comparison, and the order is kept as on KeyError. Python 2 sorts True as 1 and False as 0, places a NaN without raising, and compares other values with the numbers without raising.
- FloodBuilding.SortByName: rows with equal names (usages that differ only in '_' versus space, or in letter case) are not ordered by their count columns, as Python's comparison of whole rows would order them. Only the order by name and the permutation are stated.
- DockAggregation.Dock.constructor: starts with no skip reason, the state initializePostProcessor sets before each run (safe_qgis/dock.py:1226-1227); `__init__` itself does not set it.
- DockAggregation.SortZoneResults: does not state that equal keys keep their order (stability of `sorted`).
- DockAggregation: `_aggregateResultsRaster` (a call into QgsZonalStatistics), the dock UI, `getDefaults` (QSettings), the HTML of `postProcessingTables`, `readImpactLayer`, `optimalClip` and the creation of the "Entire area" feature are not modelled.
- Tests: the expected numbers of the GUI tests depend on real datasets and are not modelled.

## Findings

| source | as written | input that shows it | evidently intended | confidence | as-written member | corrected member |
|---|---|---|---|---|---|---|
| safe/impact_functions/earthquake/itb_earthquake_fatality_model.py:276-318 | the zero-impact test runs on R after every cell below the tolerance became NaN | any grid with tolerance 0.01: a 0 cell is NaN after masking, so nanmax is never 0 and ZeroImpactException never fires | test R before masking: raise when no one is displaced anywhere | not executed | ItbFatality.MaskedZeroImpactNeverFires | ItbFatality.UnmaskedZeroImpact |
| safe/impact_functions/inundation/flood_population_evacuation.py:172 | run() calls `set_impact_assesment_population`, which the keywords layer does not define; the next call, `TableFormatter(impact_keywords)()` at lines 178-179, uses the base formatter, which has no `analysis_table` and fails with AttributeError as well | any non-empty list of thresholds: AttributeError before the report and the zero-impact test at lines 183-192 | record the assessment, build the summary with a formatter that has a population flood table, and go on to the zero-impact test; no such formatter exists, so the corrected member covers the numbers and the zero-impact test only | not executed | FloodEvacuation.Run | FloodEvacuation.Assess |
| safe_qgis/dock.py:1713-1715 | completeness compares the default key name FEM_RATIO_ATTR_KEY with 'Use default', not the keyword's value | keywords with category 'postprocessing', the aggregation attribute, female ratio attribute 'Use default' and no female ratio: accepted as complete | compare the keyword's value, so those keywords get the default ratio written | not executed | DockAggregation.UseDefaultWithoutRatioPasses | DockAggregation.CheckAttributes |
