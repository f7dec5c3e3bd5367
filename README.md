# CCTA dashboard: classifiers, staging and chart logic in Dafny

This project models the logic layer of a coronary CT angiography (CCTA)
report viewer. The viewer shows one report of 18 coronary segments and, when
the report carries one, a prior study for comparison. It colours each
measurement by a risk tier. It stages the whole heart from total plaque
volume (TPV) and percent atheroma volume (PAV). It draws per-segment bar
charts, a prior-versus-current comparison and a change matrix. It colours a
coronary diagram, with a darker stroke derived from each fill colour. It
also draws a twelve-bar PAV triangle.

One Dafny module stands for each source file of the core:

- `Thresholds` models `src/lib/thresholds.ts`: the colour classifiers.
- `Compute` models `src/lib/compute.ts`: PAV, TPV and overall staging, and the missing-value branch of `formatNumber`.
- `Types` models `src/types/ccta.ts`: the report data model, with `flatMap` over the vessels and the two ways the components look a segment up by id (`find` keeps the first match, `new Map` keeps the last).
- `SegmentMap` models `src/components/SegmentMap.tsx`: the scoreboard, the stenosis summary and the mode toggles.
- `SegmentBarChart` models `src/components/SegmentBarChart.tsx`: segment order, chart configuration, bar info and heights, axis labels and the mode toggles.
- `SerialComparisonChart` models `src/components/SerialComparisonChart.tsx`: vessel filters, delta classification, change labels and the view state.
- `ChangeMatrix` models `src/components/ChangeMatrix.tsx`: the cell value, risk class, trend icon, value text and the matrix loops.
- `Scct18` models `src/lib/scct18.tsx`: `darkenColor`, the mode-to-colour dispatch and the colour-map effect.
- `Hex` models the JavaScript number conversions `darkenColor` uses: `parseInt(s, 16)` and `toString(16)`.
- `Strings` holds the text helpers several components use: integer to decimal text, `join`, and `replace` of one character.
- `PavlTriangleChart` models `src/components/PavlTriangleChart.tsx`: the lit-bar stage, bar colours and heights.

The model is pure where the source is pure. It is imperative where the
source mutates:

- The stenosis summary's counters become a `while` loop proved against a counting function.
- The change matrix's nested `map`s and its reassigned `valueText` become loops and a method proved against the cell function.
- The colour map's dictionary writes become a loop proved against a function that keeps the last write.
- Each component's `useState` fields become a class whose methods are the click handlers.

Numbers are `real`, so there is no IEEE rounding. Three things the
components depend on but do not define are parameters of the members that
use them:

- `getHrpColor` is an `HrpClassifier`.
- `toLocaleString` is a `Formatter`.
- `getComputedStyle(...).getPropertyValue(v).trim()` is a `CssLookup`.

## Model

| member | source | states |
|---|---|---|
| Types.AllSegments | src/components/SegmentMap.tsx:60 | a segment is in the flattened list iff some vessel of the report holds it |
| Types.TotalPlaque | src/components/SegmentMap.tsx:114 | the tooltip's total is LRNC + NCP + CP exactly, and with non-negative volumes it is at least each of the three |
| Types.FindSegment | src/components/SegmentBarChart.tsx:159 | `find` by id: None iff no segment has the id, otherwise the FIRST segment carrying it |
| Types.IndexById | src/components/ChangeMatrix.tsx:67-68 | `new Map` by id: every key maps to a segment with that id |
| Types.IndexByIdLastWins | src/components/ChangeMatrix.tsx:67-68 | every id of the list is a key, and it maps to the LAST segment with that id |
| Types.IndexByIdKeys | src/components/ChangeMatrix.tsx:67-68 | the index has no key that no segment carries |
| Strings.NatToString | src/components/SegmentBarChart.tsx:137 | `${n}`: non-empty decimal digits with no leading zero whose value is n |
| Strings.Join | src/components/SegmentBarChart.tsx:115 | `join`: empty for no parts, the part itself for one part, the two parts around the separator for two, and non-empty when any part is non-empty |
| Strings.JoinAppend | src/components/SegmentBarChart.tsx:115 | joining one more part gives the join of the others, then the separator, then that part |
| Strings.IndexOf | src/components/SegmentBarChart.tsx:137 | the position of the first occurrence of a character |
| Strings.RemoveFirst | src/components/SegmentBarChart.tsx:137 | `replace(' ', '')` removes at most one character |
| Strings.RemoveFirstSpec | src/components/SegmentBarChart.tsx:137 | only the first occurrence is removed, and a string without it is unchanged |
| Thresholds.StepColor | src/lib/thresholds.ts:7-13 | the shape the step classifiers share: dark green iff exactly 0, then green, yellow, orange and red between lower-inclusive cuts, each tier as an iff; never gray |
| Thresholds.StepColorMonotone | src/lib/thresholds.ts:7-13 | on non-negative values a step colour never loses severity as the value grows |
| Thresholds.GetStenosisColor | src/lib/thresholds.ts:7-13 | dark green iff 0; green iff non-zero and below 25; yellow on [25, 50); orange on [50, 70); red from 70 |
| Thresholds.GetFfrctColor | src/lib/thresholds.ts:16-22 | dark green iff absent or above 0.85; green on (0.80, 0.85]; yellow on (0.75, 0.80]; orange on (0.70, 0.75]; red at or below 0.70 |
| Thresholds.GetCompositionColor | src/lib/thresholds.ts:25-28 | gray iff NCP and CP are both 0; otherwise NCP iff ncp >= cp (ties go to NCP) and CP iff ncp < cp; never the LRB colour |
| Thresholds.GetLrncVolumeColor | src/lib/thresholds.ts:31-37 | the tiers with cuts 5, 15 and 30, each as an iff |
| Thresholds.GetNcpVolumeColor | src/lib/thresholds.ts:40-46 | the tiers with cuts 20, 50 and 100, each as an iff |
| Thresholds.GetCpVolumeColor | src/lib/thresholds.ts:49-55 | the tiers with cuts 50, 150 and 300, each as an iff |
| Thresholds.GetTpvColor | src/lib/thresholds.ts:58-64 | the tiers with cuts 30, 75 and 150, each as an iff |
| Thresholds.GetGlobalTpvColor | src/lib/thresholds.ts:67-72 | upper-inclusive cuts: dark green iff 0, green up to 250, orange up to 750, red above; never yellow |
| Thresholds.GetPavColor | src/lib/thresholds.ts:75-80 | dark green iff 0; green on (0, 5]; orange on (5, 15]; red iff negative or above 15; never yellow |
| Thresholds.SharedStepShape | src/lib/thresholds.ts:7-64 | the stenosis, LRNC, NCP, CP and segment-TPV classifiers are the shared step function with their own cuts |
| Thresholds.StepClassifiersMonotone | src/lib/thresholds.ts:7-64 | over [0, infinity) none of the five step classifiers loses severity as the value grows |
| Thresholds.NegativeStenosisIsGreen | src/lib/thresholds.ts:8-9 | a negative stenosis is green, not dark green |
| Thresholds.FfrctAntitone | src/lib/thresholds.ts:16-22 | severity never increases as a measured FFRct rises; absent is dark green while a measured 0 is red |
| Thresholds.GlobalTpvAndPavMonotone | src/lib/thresholds.ts:67-80 | on non-negative values neither the whole-heart TPV colour nor the PAV colour loses severity as the value grows |
| Compute.PavStage | src/lib/compute.ts:4-9 | 0 iff exactly 0; 1 on (0, 5]; 2 on (5, 15]; 3 iff negative or above 15 |
| Compute.TpvStage | src/lib/compute.ts:14-18 | 0 iff exactly 0; 1 for other values up to 250, negatives included; 2 on (250, 750]; 3 above |
| Compute.AtherosclerosisStage | src/lib/compute.ts:12-25 | at most 3, at least each sub-stage, and equal to one of them: the maximum |
| Compute.AtherosclerosisStageMonotone | src/lib/compute.ts:12-25 | the stage is monotone in both TPV and PAV over non-negative inputs |
| Compute.StageExample | src/lib/compute.ts:12-25 | TPV 300 (stage 2) with PAV 3% (stage 1) is stage 2 |
| Compute.PavStageMatchesPavColor | src/lib/compute.ts:4-9 | the PAV stage and the PAV colour agree tier for tier (dark green, green, orange, red), negatives included |
| Compute.FormatNumber | src/lib/compute.ts:27-28 | a missing value gives the placeholder text; a present one is handed to the locale formatter |
| Compute.MissingValueIgnoresFormatter | src/lib/compute.ts:28 | a missing value's text is the same under every formatter |
| Compute.SignedText | src/components/ChangeMatrix.tsx:108-110 | under a plain formatter a signed change text is non-empty and starts with `+` iff the number is positive |
| SegmentMap.GetTpvStage | src/components/SegmentMap.tsx:13-18 | the scoreboard's own TPV stage equals the sub-stage used inside the overall staging |
| SegmentMap.StageLabelBackgrounds | src/components/SegmentMap.tsx:32-35 | four labels, of which exactly the current stage's label is coloured, in that stage's colour |
| SegmentMap.CountSingleHighlight | src/components/SegmentMap.tsx:32-52 | a label row with exactly one coloured label counts one highlight |
| SegmentMap.CountNoHighlight | src/components/SegmentMap.tsx:32-52 | a row with no coloured label counts none |
| SegmentMap.AtherosclerosisScore | src/components/SegmentMap.tsx:10-26 | the final stage is the overall stage and the header has its colour; exactly one TPV label and one PAV label are highlighted, at the TPV and PAV stages |
| SegmentMap.StenosisBucket | src/components/SegmentMap.tsx:63-73 | severe iff at least 70, or the left main (segment 5) at 50 or more; moderate iff not the left main and within [50, 69]; mild iff within [25, 49]; minimal iff within [1, 24] |
| SegmentMap.BucketCountsPartition | src/components/SegmentMap.tsx:61-74 | every segment lands in exactly one bucket or in none: the five counts add up to the number of segments |
| SegmentMap.CountBucket | src/components/SegmentMap.tsx:61-74 | a bucket's count is at most the number of segments |
| SegmentMap.CountBucketExtremes | src/components/SegmentMap.tsx:61-74 | a bucket no segment lands in counts 0, and one every segment lands in counts them all |
| SegmentMap.StenosisSummary | src/components/SegmentMap.tsx:59-74 | the loop's four counters are the bucket counts over all segments, and their sum is at most the number of segments |
| SegmentMap.LeftMainOverride | src/components/SegmentMap.tsx:64-68 | on [50, 70) the left main is severe, while any other segment up to 69 is moderate |
| SegmentMap.UnbucketedValues | src/components/SegmentMap.tsx:65-72 | 0, 0.5, 24.5, 49.5 and (outside the left main) 69.5 land in no bucket |
| SegmentMap.IntegerStenosisIsBucketed | src/components/SegmentMap.tsx:65-72 | an integer stenosis from 1 to 100 always lands in a bucket |
| SegmentMap.BucketAgreesWithStenosisColor | src/components/SegmentMap.tsx:65-80 | outside the left main, an integer stenosis of at least 1 lands in the bucket whose card has its stenosis colour; the left main on [50, 70) gets a red card although its colour is orange |
| SegmentMap.SegmentMapView.constructor | src/components/SegmentMap.tsx:134-135 | starts in Stenosis mode with no sub-mode |
| SegmentMap.SegmentMapView.SelectMode | src/components/SegmentMap.tsx:179-186 | Composition always resets the sub-mode to LRNC; any other mode clears it; the state stays consistent |
| SegmentMap.SegmentMapView.SelectSubMode | src/components/SegmentMap.tsx:196-199 | a sub-mode button sets the sub-mode and keeps the mode |
| SegmentBarChart.SegmentOrderIsPermutation | src/components/SegmentBarChart.tsx:14-19 | the order lists each of the segments 1 to 18 exactly once, and every listed id has a name |
| SegmentBarChart.ConfigKeyFor | src/components/SegmentBarChart.tsx:102 | the sub-mode in Composition mode when one is set, otherwise the mode |
| SegmentBarChart.ChartConfigFor | src/components/SegmentBarChart.tsx:23-88 | there is no entry exactly for the TPV and PAV sub-modes; every maximum is positive; every threshold lies strictly between 0 and the maximum |
| SegmentBarChart.ConsistentModesHaveConfig | src/components/SegmentBarChart.tsx:102-103 | every state the buttons can reach has a configuration |
| SegmentBarChart.HrpLabel | src/components/SegmentBarChart.tsx:115 | `'0'` for a segment without features, otherwise the feature names joined with `, ` (at least two characters) |
| SegmentBarChart.GetBarInfo | src/components/SegmentBarChart.tsx:105-132 | a missing segment or an unmatched key gives value 0, gray and `'0'`; otherwise the mode's field is the value and the colour is the mode's classifier applied to it; the caption is `formatNumber` of the value with 0 decimals for Stenosis and 1 for Burden, LRNC, NCP and CP, and the HRP label for HRP; in Composition the value is 1 iff there is plaque and the label is NCP, CP or empty accordingly |
| SegmentBarChart.CompositionBarMatchesColor | src/components/SegmentBarChart.tsx:122-128 | with non-negative volumes the composition bar agrees with the dominant-composition colour: height 1 iff not gray, and NCP or CP as the colour says |
| SegmentBarChart.BarHeight | src/components/SegmentBarChart.tsx:161-163 | at most 100, non-negative for a non-negative value, 100 from the maximum up, and value/max*100 below it |
| SegmentBarChart.HrpCapIsRedundant | src/components/SegmentBarChart.tsx:161-163 | capping the HRP count first never changes the height |
| SegmentBarChart.TickPosition | src/components/SegmentBarChart.tsx:144 | a threshold strictly inside the axis sits strictly between 0% and 100% |
| SegmentBarChart.TicksInsideAxis | src/components/SegmentBarChart.tsx:143-155 | every configured tick and grid line lies strictly inside the axis |
| SegmentBarChart.ModeMaxLabels | src/components/SegmentBarChart.tsx:135-137 | the top labels are `≥2 Features` for HRP, `100%`, `40%` and `1` |
| SegmentBarChart.VolumeMaxLabels | src/components/SegmentBarChart.tsx:135-137 | the volume units lose their leading space: `40mm³`, `120mm³`, `350mm³` |
| SegmentBarChart.MaxLabel | src/components/SegmentBarChart.tsx:135-137 | the custom label for HRP; otherwise the label starts with the maximum's digits |
| SegmentBarChart.MaxLabelShape | src/components/SegmentBarChart.tsx:135-137 | outside HRP the label is the maximum's digits followed by the unit, one character shorter when the unit has a space, and the unit unchanged when it has none |
| SegmentBarChart.ChartDisplay | src/components/SegmentBarChart.tsx:96-177 | the title and the top label are the configuration's; one tick per configured threshold at its position on the axis; one bar per entry of the segment order, the i-th being `BarOf` the i-th id over all segments of the report; heights at most 100; a segment the report lacks gives a gray `'0'` bar of height 0 |
| SegmentBarChart.BarOf | src/components/SegmentBarChart.tsx:158-168 | a bar carries its id, the caption and colour `getBarInfo` gives the first segment with that id, and the capped height of its value; a missing segment gives the gray `'0'` bar |
| SegmentBarChart.BarChartView.constructor | src/components/SegmentBarChart.tsx:181-182 | starts in Stenosis mode with no sub-mode |
| SegmentBarChart.BarChartView.SelectMode | src/components/SegmentBarChart.tsx:191-197 | Composition keeps an existing sub-mode and falls back to LRNC only without one; any other mode clears it |
| SegmentBarChart.BarChartView.SelectSubMode | src/components/SegmentBarChart.tsx:208-211 | a sub-mode button sets the sub-mode and keeps the mode |
| SegmentBarChart.BarChartView.Display | src/components/SegmentBarChart.tsx:220 | the current state always has a configuration, and the chart is the display for it |
| ChangeMatrix.Abs | src/components/ChangeMatrix.tsx:59 | the absolute value: non-negative and equal to x or -x |
| ChangeMatrix.GetValue | src/components/ChangeMatrix.tsx:26-37 | 0 for a missing segment; the feature count for HRP |
| ChangeMatrix.GetValueMatchesBarValue | src/components/ChangeMatrix.tsx:26-37 | the cell value of every metric is the bar chart's value for the same key, missing segments included |
| ChangeMatrix.MetricKey | src/components/ChangeMatrix.tsx:26-37 | every metric names a configured chart key other than Composition; HRP and Stenosis keep their own keys |
| ChangeMatrix.GetAbsoluteRiskClass | src/components/ChangeMatrix.tsx:39-56 | severe iff the metric's colour is red, moderate iff orange, mild iff yellow, minimal iff green, none iff dark green or gray |
| ChangeMatrix.StenosisRiskClasses | src/components/ChangeMatrix.tsx:39-56 | for stenosis, severe iff at least 70 and none iff exactly 0 |
| ChangeMatrix.GetRelativeChangeIcon | src/components/ChangeMatrix.tsx:58-62 | stable iff the change is below 1e-6 in magnitude; worsened iff at least 1e-6; improved iff at most -1e-6 |
| ChangeMatrix.IconSwap | src/components/ChangeMatrix.tsx:58-62 | swapping prior and current swaps worsened and improved and keeps stable |
| ChangeMatrix.ValueText | src/components/ChangeMatrix.tsx:103-119 | empty without change; a signed delta in absolute mode or for HRP; `New` in percentage mode when the prior is 0; otherwise a signed percentage with `%` |
| ChangeMatrix.Decimals | src/components/ChangeMatrix.tsx:109 | whole numbers exactly for Stenosis and HRP, one decimal otherwise |
| ChangeMatrix.ValueTextEmptyIffNoChange | src/components/ChangeMatrix.tsx:103-113 | under a plain formatter the text is empty exactly when there is no change, and prior = current = 0 gives empty text |
| ChangeMatrix.PercentSignFollowsChange | src/components/ChangeMatrix.tsx:115-117 | with a positive prior the percentage starts with `+` iff the value rose, and ends with `%` |
| ChangeMatrix.AbsoluteSignFollowsChange | src/components/ChangeMatrix.tsx:107-110 | the signed delta starts with `+` iff the value rose |
| ChangeMatrix.CellValueText | src/components/ChangeMatrix.tsx:103-119 | the reassigned `valueText` ends as the value text the cell function gives |
| ChangeMatrix.MatrixCell | src/components/ChangeMatrix.tsx:92-120 | a cell's class comes from the current value alone; its icon and text come from current minus prior, with missing segments valued 0 |
| ChangeMatrix.IconAgreesWithText | src/components/ChangeMatrix.tsx:101-106 | under a plain formatter a cell shows text exactly when its icon is not stable |
| ChangeMatrix.BuildMatrix | src/components/ChangeMatrix.tsx:89-120 | six rows of 18 cells; cell (i, j) is the cell of metric i at the j-th segment of the order, looked up by the last-wins index of both reports |
| ChangeMatrix.BuildRow | src/components/ChangeMatrix.tsx:92-120 | one row of the matrix: 18 cells, the k-th being the metric's cell at the k-th segment of the order |
| ChangeMatrix.MatrixView.constructor | src/components/ChangeMatrix.tsx:66 | the matrix starts in absolute mode |
| ChangeMatrix.MatrixView.SetDisplayMode | src/components/ChangeMatrix.tsx:74-78 | a button sets the display mode |
| SerialComparisonChart.VesselGroupsPartition | src/components/SerialComparisonChart.tsx:9-13 | the three vessel groups are pairwise disjoint and together hold exactly the segments 1 to 18 |
| SerialComparisonChart.VesselSegments | src/components/SerialComparisonChart.tsx:9-13 | each vessel group holds at least five segment ids between 1 and 18, in ascending order |
| SerialComparisonChart.FilterKey | src/components/SerialComparisonChart.tsx:44 | a vessel filter names a real vessel group (`LM+LAD` is `LM_LAD`) |
| SerialComparisonChart.FilterIds | src/components/SerialComparisonChart.tsx:45 | the filter keeps exactly the ids that are in the group, in the order's order |
| SerialComparisonChart.DisplayedSegments | src/components/SerialComparisonChart.tsx:42-46 | Whole Heart shows the whole order; any other filter shows the order restricted to its group |
| SerialComparisonChart.FiltersPartitionOrder | src/components/SerialComparisonChart.tsx:42-46 | each segment of the order is shown under exactly one of the three vessel filters |
| SerialComparisonChart.SerialConfigKey | src/components/SerialComparisonChart.tsx:39 | the sub-mode (possibly none) in Composition mode, otherwise the mode |
| SerialComparisonChart.SerialConfigFor | src/components/SerialComparisonChart.tsx:22-29 | no entry iff the key is missing, Composition, TPV or PAV; every maximum is positive |
| SerialComparisonChart.SerialConfigAgreesWithBarChart | src/components/SerialComparisonChart.tsx:22-29 | each serial entry has the bar chart's title, maximum and unit |
| SerialComparisonChart.SerialBarInfo | src/components/SerialComparisonChart.tsx:48-60 | where configured it is the bar chart's bar info, otherwise the no-plaque default |
| SerialComparisonChart.SerialValueMatchesMatrix | src/components/SerialComparisonChart.tsx:48-60 | a serial bar's value is the change matrix's cell value for the same metric |
| SerialComparisonChart.ClassifyDelta | src/components/SerialComparisonChart.tsx:70-72 | no change iff the difference is below 1e-6; unfavourable iff the value rose by more than 1e-6; favourable otherwise |
| SerialComparisonChart.TrendSwap | src/components/SerialComparisonChart.tsx:70-72 | swapping prior and current swaps the trends beyond 1e-6 and keeps no change; at exactly 1e-6 both orders are favourable |
| SerialComparisonChart.TrendAgreesWithIcon | src/components/SerialComparisonChart.tsx:70-72 | the trend agrees with the matrix icon except at a rise of exactly 1e-6 (favourable, yet worsened) |
| SerialComparisonChart.ChangeLabel | src/components/SerialComparisonChart.tsx:77-83 | empty iff HRP or no change; otherwise parenthesised, and under a plain formatter it has `+` iff the value rose |
| SerialComparisonChart.ChangeLabelMatchesMatrix | src/components/SerialComparisonChart.tsx:77-83 | when the change is at least 1e-6, the label is the matrix's absolute text in parentheses |
| SerialComparisonChart.SerialHeight | src/components/SerialComparisonChart.tsx:74-75 | at most 100, non-negative for non-negative values, and 100 from the maximum up |
| SerialComparisonChart.SerialHeightMatchesBarChart | src/components/SerialComparisonChart.tsx:74-75 | the serial height equals the bar chart's height for every key |
| SerialComparisonChart.PairOf | src/components/SerialComparisonChart.tsx:66-96 | a pair carries its id; each side's caption and colour are the serial bar info of that report's segment and its height is the capped height of its value; the change label and the trend are those of the prior and current values |
| SerialComparisonChart.PairSidesMatchBarChart | src/components/SerialComparisonChart.tsx:66-96 | where the serial table has an entry, each side of a pair shows the caption, colour and height the bar chart shows for the same segment of that report |
| SerialComparisonChart.MissingOnBothSidesIsNoChange | src/components/SerialComparisonChart.tsx:49-50 | a segment missing from both reports has value 0 on both sides and shows no change and no label |
| SerialComparisonChart.SerialChartDisplay | src/components/SerialComparisonChart.tsx:33-100 | the placeholder iff the table has no entry for the key; otherwise one pair per displayed segment, in order, the i-th being `PairOf` the i-th displayed id over the prior and current reports; heights at most 100 |
| SerialComparisonChart.SerialComparisonChart | src/components/SerialComparisonChart.tsx:103-146 | as written: nothing without a prior study; otherwise the display given the mode but no sub-mode |
| SerialComparisonChart.CompositionAlwaysPlaceholder | src/components/SerialComparisonChart.tsx:39-40 | as written, with a prior study the placeholder is shown iff the mode is Composition |
| SerialComparisonChart.SerialComparisonChartIntended | src/components/SerialComparisonChart.tsx:103-146 | nothing without a prior study; otherwise the display given the mode and the sub-mode |
| SerialComparisonChart.IntendedChartShowsBars | src/components/SerialComparisonChart.tsx:134-146 | with the sub-mode passed on, every reachable state shows bars, and outside Composition nothing changes |
| SerialComparisonChart.SerialView.constructor | src/components/SerialComparisonChart.tsx:104-108 | Stenosis, Whole Heart, no sub-mode, matrix hidden |
| SerialComparisonChart.SerialView.SelectMode | src/components/SerialComparisonChart.tsx:134 | Composition keeps an existing sub-mode and falls back to LRNC only without one; other modes clear it; the filter and the matrix flag are unchanged |
| SerialComparisonChart.SerialView.SelectSubMode | src/components/SerialComparisonChart.tsx:140 | sets the sub-mode and changes nothing else |
| SerialComparisonChart.SerialView.SelectVesselFilter | src/components/SerialComparisonChart.tsx:118 | sets the filter and changes nothing else |
| SerialComparisonChart.SerialView.ToggleMatrix | src/components/SerialComparisonChart.tsx:123 | flips the matrix flag and changes nothing else |
| SerialComparisonChart.SerialView.Render | src/components/SerialComparisonChart.tsx:110-146 | the corrected chart for the state (the sub-mode is passed on): nothing iff there is no prior study, and bars otherwise |
| Hex.DigitValue | src/lib/scct18.tsx:30-32 | a hex digit's value is below 16 |
| Hex.LowerHexDigit | src/lib/scct18.tsx:40 | the lowercase digit of a value below 16 has that value |
| Hex.LowerHexDigitUnique | src/lib/scct18.tsx:40 | a lowercase digit is the only lowercase digit with its value |
| Hex.HexValuePair | src/lib/scct18.tsx:30-32 | two digits are worth 16 times the first plus the second, below 256 |
| Hex.HexValue | src/lib/scct18.tsx:30-32 | `n` hex digits are worth less than 16 to the n |
| Hex.HexValueLastTwo | src/lib/scct18.tsx:40 | the value of a hex text is 256 times the value of all but its last two digits plus the value of the last two |
| Hex.NatToHex | src/lib/scct18.tsx:40 | `toString(16)` of a non-negative integer: lowercase digits with no leading zero whose value is the integer, one digit iff below 16 |
| Hex.NumberToHex | src/lib/scct18.tsx:40 | `toString(16)`: `NaN` for NaN, digits worth the value for a non-negative integer, and a minus sign before the digits of its magnitude otherwise |
| Hex.ToHex | src/lib/scct18.tsx:40 | always two characters; NaN gives `aN`; a non-negative integer gives two lowercase digits worth it modulo 256 |
| Hex.ToHexOfNat | src/lib/scct18.tsx:40 | padding with `00` and keeping the last two characters gives the value modulo 256 |
| Hex.PaddedDigit | src/lib/scct18.tsx:40 | a single hex digit padded with `0` keeps its value |
| Hex.LastTwoDigits | src/lib/scct18.tsx:40 | the last two digits of a hex text are its value modulo 256 |
| Hex.LowerPairUnique | src/lib/scct18.tsx:40 | two lowercase two-digit texts with the same value are the same text |
| Hex.TrimStart | src/lib/scct18.tsx:30-32 | dropping leading white space never lengthens the text |
| Hex.TrimStartSpec | src/lib/scct18.tsx:30-32 | what `parseInt` skips is white space and what it keeps is the rest, starting with a non-space |
| Hex.HexPrefixLength | src/lib/scct18.tsx:30-32 | the run of leading hex digits, stopping at the first non-digit |
| Hex.ParseHexDigits | src/lib/scct18.tsx:30-32 | a text of hex digits parses to its value, and the empty text to NaN |
| Hex.ParseHexInt | src/lib/scct18.tsx:30-32 | `parseInt(s, 16)`: NaN for the empty text and for a bare text not starting with a digit; a non-negative integer for a text starting with a digit and no `0x` |
| Hex.ParseFromDigit | src/lib/scct18.tsx:30-32 | a text starting with a digit and no `0x` parses to the value of its leading digits |
| Hex.ParseSkipsWhitespace | src/lib/scct18.tsx:30-32 | one more leading white-space character never changes the result |
| Hex.ParseMinus | src/lib/scct18.tsx:30-32 | a leading minus before a bare text negates the result, and NaN stays NaN |
| Hex.ParsePlus | src/lib/scct18.tsx:30-32 | a leading plus before a bare text is ignored |
| Hex.ParseHexPrefix | src/lib/scct18.tsx:30-32 | one `0x` or `0X` prefix before a bare text is skipped |
| Hex.ParseStopsAtFirstNonDigit | src/lib/scct18.tsx:30-32 | digits followed by a non-digit parse to the digits' value, whatever follows |
| Hex.HexPrefixOfDigits | src/lib/scct18.tsx:30-32 | a run of hex digits before a non-digit is read whole |
| Hex.ParseToHexRoundTrip | src/lib/scct18.tsx:30-40 | `parseInt` inverts the two-digit `toHex` on every byte |
| Hex.ParseNaNExamples | src/lib/scct18.tsx:30-32 | the empty text and a bare `0x` have no digit and parse to NaN |
| Hex.ParseSpaceExample | src/lib/scct18.tsx:30-32 | leading white space is skipped |
| Hex.ParseSignExample | src/lib/scct18.tsx:30-32 | a minus sign negates |
| Hex.ParseStopsAtNonDigit | src/lib/scct18.tsx:30-32 | parsing stops at the first non-digit |
| Scct18.Substring | src/lib/scct18.tsx:30-32 | `substring` within bounds is the slice, and past the end it is empty |
| Scct18.Normalize | src/lib/scct18.tsx:28 | a four-character text becomes seven characters starting with `#`; any other text is kept |
| Scct18.Scale | src/lib/scct18.tsx:34-38 | NaN stays NaN, and an integer channel becomes max(0, floor(c * (1 - percent/100))) |
| Scct18.ScaledChannelBounds | src/lib/scct18.tsx:34-38 | a percentage in [0, 100] never raises a channel, 0 keeps it, and 100 or more zeroes it |
| Scct18.ScaledChannel | src/lib/scct18.tsx:36-38 | the floor of the scaled channel, clamped at 0: 0 below 1, otherwise the largest integer not above the product |
| Scct18.DarkenColor | src/lib/scct18.tsx:24-43 | text that is empty or lacks a leading `#` is returned unchanged; otherwise the result is `#` and six characters |
| Scct18.ChannelText | src/lib/scct18.tsx:30-32 | channel i is the two characters at positions 1 + 2i and 2 + 2i |
| Scct18.Channel | src/lib/scct18.tsx:30-32 | the value of a channel of a long colour is its two-digit hex value, below 256 |
| Scct18.ShortFormExpands | src/lib/scct18.tsx:28 | a `#rgb` colour darkens exactly as its `#rrggbb` expansion, which is a valid long colour |
| Scct18.ParseChannel | src/lib/scct18.tsx:30-32 | each channel text of a long colour parses to the channel's value |
| Scct18.ScaledChannelOfLong | src/lib/scct18.tsx:30-38 | each output channel of a long colour is its input channel, scaled |
| Scct18.DarkenLongParts | src/lib/scct18.tsx:28-42 | a long colour's output is `#` and the three scaled channels, each through `toHex` |
| Scct18.DarkenLongValue | src/lib/scct18.tsx:24-43 | a long colour darkens to the hex triple of its three scaled channel values |
| Scct18.HexTriple | src/lib/scct18.tsx:40-42 | three integers print as a long lowercase colour whose channels are the integers modulo 256 |
| Scct18.DarkenChannels | src/lib/scct18.tsx:24-43 | each output channel of a long colour is the scaled input channel modulo 256, and the output is lowercase |
| Scct18.DarkenValidIsLowerHex | src/lib/scct18.tsx:24-43 | a valid 4- or 7-character colour darkens to `#` and six lowercase hex digits, whatever the percentage |
| Scct18.DarkenNeverBrightens | src/lib/scct18.tsx:34-38 | a percentage in [0, 100] raises no channel |
| Scct18.ScaledByte | src/lib/scct18.tsx:34-38 | a byte scaled by a percentage in [0, 100] is still a byte, no larger, and unchanged at 0 |
| Scct18.LongColorsEqual | src/lib/scct18.tsx:40-42 | two lowercase long colours with the same channels are the same text |
| Scct18.DarkenByZeroIsIdentity | src/lib/scct18.tsx:24-43 | darkening a lowercase long colour by 0% returns it unchanged |
| Scct18.DarkenFullyIsBlack | src/lib/scct18.tsx:24-43 | darkening a long colour by 100% or more gives `#000000` |
| Scct18.NegativePercentWraps | src/lib/scct18.tsx:34-42 | a negative percentage brightens and a channel past 255 wraps: `#808080` at -100% gives `#000000` |
| Scct18.BareHashIsNaN | src/lib/scct18.tsx:30-42 | `#` alone gives NaN channels, printed `#aNaNaN` |
| Scct18.CompositionFillVar | src/lib/scct18.tsx:62-72 | LRNC, NCP and CP colour their own volume, TPV the sum LRNC + NCP + CP, PAV the percent atheroma volume, and no sub-mode the dominant composition |
| Scct18.FillSourceOf | src/lib/scct18.tsx:56-77 | compared as text: `Stenosis` and `Composition` look their variable up in the style sheet; `FFRct` uses the variable name itself; any other text looks up dark green |
| Scct18.Fill | src/lib/scct18.tsx:56-77 | the fill is the style sheet's value of the stenosis, composition or dark-green variable, or in FFRct mode the FFRct variable's name |
| SegmentMap.MapModeText | src/components/SegmentMap.tsx:8 | the segment map's modes are the texts `Stenosis`, `HRP`, `Composition` and `Burden` |
| Scct18.SegmentMapModesReachDiagram | src/components/SegmentMap.tsx:210-213 | the map's Stenosis and Composition reach the diagram's rules, its HRP and Burden fall through to dark green, and the FFRct rule is never reached from the map |
| Scct18.HrpAndBurdenMapsAreDarkGreen | src/lib/scct18.tsx:74-77 | in the map's HRP and Burden modes every colour map entry is filled with the style sheet's dark green, whatever the segment |
| Scct18.ColorsOf | src/lib/scct18.tsx:79 | a segment's stroke is its fill darkened by 25% |
| Scct18.ColorMapOf | src/lib/scct18.tsx:53-81 | every entry's stroke is its fill darkened by 25% |
| Scct18.FfrctStrokeEqualsFill | src/lib/scct18.tsx:59-60 | in FFRct mode the fill is the variable name, so the stroke equals the fill |
| Scct18.HexFillGivesDarkerStroke | src/lib/scct18.tsx:73-79 | a `#rrggbb` fill gives a lowercase long stroke no brighter in any channel |
| Scct18.ColorMapFollowsIndex | src/lib/scct18.tsx:53-81 | the colour map has the keys of the last-wins index, and each entry is coloured from the segment the index keeps |
| Scct18.ColorMapLastWins | src/lib/scct18.tsx:81 | an id's entry is coloured from the last segment with that id, and its stroke is its fill darkened by 25% |
| Scct18.BuildColorMap | src/lib/scct18.tsx:52-82 | the loop's dictionary is the colour map of all segments, with a key for exactly the ids some segment has |
| Scct18.ColorMapKeys | src/lib/scct18.tsx:53-81 | the colour map has a key for exactly the ids some segment has |
| Scct18.LastOccurrence | src/lib/scct18.tsx:81 | every id that occurs is a key of the index |
| Scct18.DiagramView.constructor | src/lib/scct18.tsx:47 | the colour map starts empty |
| Scct18.DiagramView.Refresh | src/lib/scct18.tsx:49-85 | with a window the map becomes the colour map of the report; without one it is unchanged |
| PavlTriangleChart.TriangleStage | src/components/PavlTriangleChart.tsx:11 | between -1 and 11; -1 iff the PAV is not positive; 11 from 25% up; otherwise floor(pav / 25 * 11) |
| PavlTriangleChart.TriangleBars | src/components/PavlTriangleChart.tsx:17-28 | twelve bars |
| PavlTriangleChart.BarAt | src/components/PavlTriangleChart.tsx:17-28 | a bar is lit iff its index is at most the stage; lit bars take the tier colour and unlit ones gray; heights are positive and at most 100 on the twelve bars |
| PavlTriangleChart.CountActive | src/components/PavlTriangleChart.tsx:17-18 | the lit count is at most the number of bars |
| PavlTriangleChart.CountActivePrefix | src/components/PavlTriangleChart.tsx:17-18 | when exactly the first k bars are lit, k are counted |
| PavlTriangleChart.ActiveBarsArePrefix | src/components/PavlTriangleChart.tsx:17-18 | the lit bars are exactly those up to the stage, stage + 1 of them: none for a PAV that is not positive, all twelve from 25% up |
| PavlTriangleChart.BarColors | src/components/PavlTriangleChart.tsx:12-19 | lit bars take the PAV stage's colour, never gray; unlit bars are gray |
| PavlTriangleChart.BarHeightsRise | src/components/PavlTriangleChart.tsx:25 | heights rise strictly from 100/12 to 100 |
| PavlTriangleChart.TriangleStageMonotone | src/components/PavlTriangleChart.tsx:11 | more PAV never lights fewer bars |
| PavlTriangleChart.TriangleStageMatchesPavStage | src/components/PavlTriangleChart.tsx:11 | PAV stage 0 lights none, stage 1 up to three, stage 2 three to seven, above 15% seven or more; a negative PAV is red yet lights none |
| PavlTriangleChart.TenPercentLightsFive | src/components/PavlTriangleChart.tsx:11-19 | 10% lights five orange bars |

## Findings

| source | as written | input that shows it | evidently intended | confidence | as-written member | corrected member |
|---|---|---|---|---|---|---|
| src/components/SerialComparisonChart.tsx:146 | the display is given the mode but not `compositionSubMode`, so its config key is missing in Composition mode | a report with a prior study, with Composition and then any sub-mode selected: the chart shows the "Select a Composition type." placeholder | pass the sub-mode, so the LRNC, NCP and CP buttons select bars | high (not executed) | SerialComparisonChart.CompositionAlwaysPlaceholder | SerialComparisonChart.IntendedChartShowsBars |

`SerialComparisonChart.SerialView.Render` uses the intended chart.

The segment map passes its own mode text to the anatomical diagram (`src/components/SegmentMap.tsx:210-213`). The diagram only has rules for `Stenosis`, `FFRct` and `Composition`, so in the map's HRP and Burden modes every segment is filled dark green while the legend beside it shows the HRP and Burden tiers. `Scct18.SegmentMapModesReachDiagram` and `Scct18.HrpAndBurdenMapsAreDarkGreen` state this behaviour.

## Left out

- `toLocaleString` number rendering is not modelled. It is the `Formatter` parameter. Lemmas about signs assume only that it never returns empty text and never writes a leading `+`.
- `getHrpColor` is imported but has no definition in `thresholds.ts`. It is the `HrpClassifier` parameter, so nothing about HRP colours is proved.
- `getComputedStyle(...).getPropertyValue(v).trim()` is the `CssLookup` parameter, and `typeof window` is the `hasWindow` flag of `Scct18.DiagramView.Refresh`.
- React rendering is not modelled: JSX, CSS module classes, legends, `useMemo`, hover handlers, the tooltip's position and its markup. The toggles are modelled as class methods.
- `AnatomyDiagramComponent` is not part of this model. The colour map is its only input that is modelled.
- SerialComparisonChart.SerialView.Render: renders the corrected chart of the finding above (`SerialComparisonChartIntended`, with the sub-mode passed on), not lines 110-146 as written. With a prior study, Composition and a volume sub-mode it shows bars where the source shows the placeholder. The as-written chart is `SerialComparisonChart.SerialComparisonChart`.
- The diagram colours the map's HRP and Burden modes intend are not modelled. The source gives no rule for them, so there is no corrected member, only the as-written behaviour above.
- The change matrix inside the serial panel is modelled only as the `showMatrix` flag. The matrix it shows is `ChangeMatrix.BuildMatrix` over the report and its prior.
- `DonutChart.tsx`, `CompositionDonutChart.tsx`, `SummaryHeader.tsx`, `VesselCard.tsx`, `pages/index.tsx`, `SegmentViewer.tsx` and the `next.config` files are outside the modelled core. They hold SVG geometry, clock-based age, display sums, page wiring and build configuration.
- Annualised deltas, years between studies, whole-heart aggregation, a continuous FFRct ramp and inverted favourability are not modelled, because no code in the core implements them.
- Numbers are exact reals, so IEEE rounding is not modelled. This affects `100 / 12`, `pav / 25 * 11`, `c * (1 - p / 100)` for large channels, and the 1e-6 comparisons.
- `Hex.TrimStart`, `Hex.ParseHexInt` and the other string members work on Unicode code points, while JavaScript strings are UTF-16. Texts outside the Basic Multilingual Plane can differ in length and indexing.
- `Scct18.DarkenColor` takes `percent` as an exact real. The source only calls it with 25.
- `Types.Segment` carries `hrp` as a sequence of feature tags. The source interface omits the field, but every component reads it.
