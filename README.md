# MetalliSense core, modelled in Dafny

MetalliSense is a dashboard for alloy production in a steel plant. This
project models the logic under its presentation code:

- the live panels of the React front end:
  - spectrometer
  - quality control
  - furnace monitor
  - inventory
  - anomaly board
  - alloy recommendation panel
  - neural-network visualiser
  - live metrics globe
  - industrial communication hub
  - process optimiser
- the client data service;
- the Python analysis back end:
  - the alloy-addition optimiser;
  - the quality scorer against grade ranges;
  - three-sigma temperature anomaly detection;
  - the API views that shape their results.

Each panel's periodic timer callback is one `Tick` method of a class.
- The class holds the panel's state as fields.
- Every `Math.random()` or `random.uniform` draw the callback would make is a parameter.
- Each `Tick` ensures that its new state is a pure function of the old state and the draws.
- That function's own contract states the step bounds, the clamps, the re-derived statuses and "nothing else changes".

Pure reductions are functions with lemmas beside them:
- averages, pass rates, counts, totals;
- colour and badge thresholds;
- filters.

The back-end loops are `while` loops with invariants. Each is proved equal to the function that specifies it. All arithmetic is exact (`real`).

Two choices fix how JavaScript's special values appear in the model:
- A JavaScript `0 / 0` (NaN) is `None`.
- A JavaScript or Python string id is a datatype or a number.

Modules:
- `Common`: Option, clamps, sums, means and counts.
- `Tolerance`: the tolerance-band classifier and progress position. Three panels share them.
- One module per core source file:
  - `Spectrometer`
  - `QualityControl`
  - `Furnace`
  - `Inventory`
  - `AnomalyDetection`
  - `AlloyPanel`
  - `NeuralNetwork`
  - `LiveMetricsGlobe`
  - `IndustrialCommunication`
  - `ProcessOptimization`
  - `DataService`
  - `AlloyUtils`
  - `AdvancedViews`

Two points where the code is easy to misread:
- The progress position is a percentage in 0..100 (`Tolerance.Position`), not a fraction in [0, 1].
- `quality_analysis` keeps its rows newest first for both the trend's `quality_scores[-5:]` and `detect_anomalies`. `AdvancedViews.QualityAnalysis` models that as written. `AdvancedViews.QualityAnalysisInTimeOrder` is the corrected view, which puts them oldest first for both. The Findings table below shows the difference.

## Model

| member | source | states |
|---|---|---|
| Tolerance.Deviation | src/components/SpectrometerPanel.tsx:41 | the deviation is nonnegative and zero exactly when the reading is on target |
| Tolerance.Classify | src/components/SpectrometerPanel.tsx:40-45 | best iff deviation <= ratio*tolerance; middle iff ratio*tolerance < deviation <= tolerance; worst iff above both |
| Tolerance.ClassifyWorstFirst | src/components/QualityControl.tsx:123-125 | worst iff deviation > tolerance; middle iff ratio*tolerance < deviation <= tolerance; best otherwise |
| Tolerance.OrdersAgree | src/components/FurnaceMonitoring.tsx:82-84 | for a ratio in (0, 1] and a nonnegative deviation the best-first and worst-first orders give the same band |
| Tolerance.BandsPartition | src/components/SpectrometerPanel.tsx:42-44 | with a nonnegative tolerance, worst iff deviation > tolerance, and best implies within the tolerance |
| Tolerance.ZeroTolerance | src/components/SpectrometerPanel.tsx:40-45 | a zero tolerance gives best iff the deviation is zero and worst otherwise; there is no middle band |
| Tolerance.ClassifyMonotone | src/components/SpectrometerPanel.tsx:40-45 | a larger deviation never gets a better band |
| Tolerance.Position | src/components/SpectrometerPanel.tsx:65-69 | the clamped position percentage lies in [0, 100] |
| Tolerance.PositionShape | src/components/SpectrometerPanel.tsx:65-69 | 50 at the target, 0 at or below the lower edge, 100 at or above the upper edge, linear in between |
| Tolerance.PositionMonotone | src/components/FurnaceMonitoring.tsx:234-236 | a higher reading never gives a smaller position |
| Spectrometer.GetStatus | src/components/SpectrometerPanel.tsx:40-45 | optimal iff deviation <= 0.5*tolerance; acceptable iff 0.5*tolerance < deviation <= tolerance; critical iff deviation > tolerance (nonnegative tolerance) |
| Spectrometer.ZeroToleranceStatus | src/components/SpectrometerPanel.tsx:40-45 | with tolerance 0 the status is optimal iff current = target, critical otherwise |
| Spectrometer.GetProgressValue | src/components/SpectrometerPanel.tsx:65-69 | in [0, 100]; 50 on target; 0 and 100 beyond the band edges |
| Spectrometer.ProgressMonotone | src/components/SpectrometerPanel.tsx:65-69 | raising the reading never shortens the bar |
| Spectrometer.CarbonSeedReading | src/components/SpectrometerPanel.tsx:17-24 | the seed carbon reading 3.45 against 3.50 +/- 0.10 is optimal with progress 25 |
| Spectrometer.TickReadings | src/components/SpectrometerPanel.tsx:30-33 | same length; every concentration >= 0; a nonnegative one moves by at most 0.01; only `current` changes |
| Spectrometer.Panel.constructor | src/components/SpectrometerPanel.tsx:17-26 | the panel starts with the seed readings and the mount time |
| Spectrometer.Panel.Tick | src/components/SpectrometerPanel.tsx:29-34 | the readings become TickReadings of the old ones, the time stamp is updated, concentrations stay nonnegative |
| QualityControl.MetricStatusOf | src/components/QualityControl.tsx:121-125 | fail iff deviation > tolerance; warning iff 0.7*tolerance < deviation <= tolerance; pass otherwise |
| QualityControl.TickMetrics | src/components/QualityControl.tsx:118-128 | same length; each current moves by less than 0.05 either way, unclamped; every status follows the rule; only current and status change |
| QualityControl.SeedStatusesInconsistent | src/components/QualityControl.tsx:41-47 | tensile strength and surface finish are seeded as warnings though the rule passes them; the other seeds agree |
| QualityControl.OverallQuality | src/components/QualityControl.tsx:163-166 | undefined (NaN) exactly for an empty metric list |
| QualityControl.OverallQualityRange | src/components/QualityControl.tsx:163-166 | for a nonempty list the score lies in [60, 100] and is 100 iff every metric passes |
| QualityControl.PassRate | src/components/QualityControl.tsx:168 | undefined exactly for no tests, otherwise in [0, 100] |
| QualityControl.PassRateExtremes | src/components/QualityControl.tsx:168 | 100 iff every test passed, 0 iff every test failed |
| QualityControl.SeedPassRate | src/components/QualityControl.tsx:56-60 | the seed tests give a pass rate of 75 |
| QualityControl.BarValue | src/components/QualityControl.tsx:280-283 | the clamped bar value lies in [0, 100] |
| QualityControl.BarValueShape | src/components/QualityControl.tsx:280-283 | 100 on target, 50 at one tolerance of deviation, 0 from two tolerances on |
| QualityControl.FindColonDigit | src/components/QualityControl.tsx:171 | returns the leftmost position where ':' is followed by a digit, or None when no such position exists |
| QualityControl.DigitRunEnd | src/components/QualityControl.tsx:171 | the greedy end of the digit run: all digits before it, none at it |
| QualityControl.ChartName | src/components/QualityControl.tsx:171 | a name with no ':'+digits is unchanged; otherwise exactly the first ':' followed by its whole run of digits is removed, and the rest is kept |
| QualityControl.ChartNameRemovesOneRun | src/components/QualityControl.tsx:171 | the removed part is ':' and a maximal nonempty run of digits, ending at the end of the name or before a non-digit |
| QualityControl.ChartNameWithoutColon | src/components/QualityControl.tsx:171 | a name without ':' is shown unchanged |
| QualityControl.SeedChartNames | src/components/QualityControl.tsx:49-54 | "ISO 9001:2015" becomes "ISO 9001"; "ASTM A36" stays |
| QualityControl.ComplianceData | src/components/QualityControl.tsx:170-174 | one chart entry per standard in order, with the stripped name, the compliance and the status colour |
| QualityControl.QualityControlView.constructor | src/components/QualityControl.tsx:41-71 | the view starts with the seed metrics, standards and tests |
| QualityControl.QualityControlView.Tick | src/components/QualityControl.tsx:116-131 | metrics become TickMetrics of the old ones, all consistent with the rule; standards and tests unchanged |
| Furnace.ZoneStatusOf | src/components/FurnaceMonitoring.tsx:80-84 | critical iff deviation > tolerance; warning iff 0.7*tolerance < deviation <= tolerance; optimal otherwise |
| Furnace.TickZones | src/components/FurnaceMonitoring.tsx:77-87 | same length; each temperature moves by less than 5 either way; statuses follow the rule; only temperature and status change |
| Furnace.SeedZoneStatuses | src/components/FurnaceMonitoring.tsx:34-39 | the ladle and slag zones are seeded as warnings though the rule makes them optimal |
| Furnace.TickPower | src/components/FurnaceMonitoring.tsx:90-94 | current moves by less than 1; efficiency lands in [80, 95] and moves by at most 0.5 from inside; average and peak unchanged |
| Furnace.PeakNotTracked | src/components/FurnaceMonitoring.tsx:90-94 | one tick can lift the current above the shown peak |
| Furnace.TickGas | src/components/FurnaceMonitoring.tsx:97-102 | oxygen, argon, nitrogen move by less than 2.5, 1, 0.5; total flow unchanged |
| Furnace.GasTotalGoesStale | src/components/FurnaceMonitoring.tsx:48-53 | the seed total equals the sum of the flows, but not after a tick that moves them |
| Furnace.GetEfficiencyColor | src/components/FurnaceMonitoring.tsx:119-123 | green iff >= 85, yellow iff in [80, 85), red iff < 80 |
| Furnace.EfficiencyNeverRed | src/components/FurnaceMonitoring.tsx:119-123 | inside the tick's [80, 95] band the efficiency is never red |
| Furnace.ZoneCountsBounded | src/components/FurnaceMonitoring.tsx:125-126 | critical plus warning zones are at most all zones; no critical zone iff no zone has critical status |
| Furnace.CriticalZones | src/components/FurnaceMonitoring.tsx:125 | at most the number of zones; 0 iff no zone is critical |
| Furnace.WarningZones | src/components/FurnaceMonitoring.tsx:126 | at most the number of zones; 0 iff no zone is in warning |
| Furnace.AvgTemperature | src/components/FurnaceMonitoring.tsx:127 | undefined (NaN) exactly when there are no zones |
| Furnace.AvgTemperatureBounds | src/components/FurnaceMonitoring.tsx:127 | the average lies between the coldest and the hottest zone |
| Furnace.ZoneProgress | src/components/FurnaceMonitoring.tsx:234-236 | in [0, 100]; 50 at the target; 0 and 100 beyond the band edges |
| Furnace.Monitor.constructor | src/components/FurnaceMonitoring.tsx:34-53 | the seed zones, power and gas; efficiency in its band |
| Furnace.Monitor.Tick | src/components/FurnaceMonitoring.tsx:75-105 | zones, power and gas become their ticked values; efficiency stays in [80, 95] |
| Inventory.GetStockStatus | src/components/InventoryManagement.tsx:92-98 | critical iff stock <= threshold; otherwise low iff percentage <= 30, high iff not low and >= 80, normal otherwise, including a zero capacity as JavaScript divides |
| Inventory.StockStatusByFraction | src/components/InventoryManagement.tsx:93-97 | for a positive capacity: low up to 3/10 of capacity, high from 4/5, normal strictly between |
| Inventory.CriticalTakesPrecedence | src/components/InventoryManagement.tsx:94 | a stock at or below its threshold is critical whatever the capacity, even zero |
| Inventory.GetStatusBadgeVariant | src/components/InventoryManagement.tsx:100-110 | destructive iff critical, secondary iff low, default iff high or normal |
| Inventory.TotalInventoryValue | src/components/InventoryManagement.tsx:112-114 | an empty inventory is worth 0 |
| Inventory.TotalValueNonnegative | src/components/InventoryManagement.tsx:112-114 | nonnegative stocks and costs give a nonnegative total |
| Inventory.CountsDisjoint | src/components/InventoryManagement.tsx:116-117 | critical plus low items are at most all items |
| Inventory.CriticalItems | src/components/InventoryManagement.tsx:116 | at most the number of items; 0 iff no item's stock reads critical |
| Inventory.LowStockItems | src/components/InventoryManagement.tsx:117 | at most the number of items; 0 iff no item's stock reads low |
| Inventory.SeedSummary | src/components/InventoryManagement.tsx:24-90 | the seed stock has 2 critical items, 0 low items and is worth 12284.5 |
| AnomalyDetection.PickIndex | src/components/AnomalyDetection.tsx:106-107 | `Math.floor(r * n)` is an index below n, the floor of r*n |
| AnomalyDetection.NewAnomaly | src/components/AnomalyDetection.tsx:104-114 | an arrival is active, never critical, with confidence in [70, 100) |
| AnomalyDetection.EveryTypeReachable | src/components/AnomalyDetection.tsx:107 | each of the four types is produced by some draw |
| AnomalyDetection.PushNewest | src/components/AnomalyDetection.tsx:116 | the new anomaly is first, the nine newest older ones follow in order, length at most 10 |
| AnomalyDetection.Arrive | src/components/AnomalyDetection.tsx:103-117 | a draw >= 0.1 leaves the list alone; below it the new anomaly is pushed |
| AnomalyDetection.ArrivalAddsNoCritical | src/components/AnomalyDetection.tsx:103-117 | an arrival never raises the count of active critical anomalies |
| AnomalyDetection.ChangeStatus | src/components/AnomalyDetection.tsx:173-177 | same length and order; entries with the id take the new status; no other field changes |
| AnomalyDetection.ChangeStatusIdempotent | src/components/AnomalyDetection.tsx:173-177 | changing twice equals changing once; an absent id leaves the list unchanged |
| AnomalyDetection.OfferedActions | src/components/AnomalyDetection.tsx:282-305 | buttons only move forward in the lifecycle; none once resolved; resolve always offered before that |
| AnomalyDetection.ButtonMovesForward | src/components/AnomalyDetection.tsx:282-305 | with distinct ids, pressing an offered button advances that entry and leaves every other entry unchanged |
| AnomalyDetection.FilterByType | src/components/AnomalyDetection.tsx:168 | an entry is in the result iff it is in the list and of that type; order and multiplicity are stated by FilterAppend and FilterMultiplicity |
| AnomalyDetection.FilteredAnomalies | src/components/AnomalyDetection.tsx:166-168 | 'all' gives the whole list; a type gives exactly its entries |
| AnomalyDetection.FilterKeepsOrder | src/components/AnomalyDetection.tsx:168 | filtering a list with one more entry at the end appends that entry when it matches |
| AnomalyDetection.FilterAppend | src/components/AnomalyDetection.tsx:168 | filtering commutes with concatenation, so the kept entries stay in their original order |
| AnomalyDetection.FilterMultiplicity | src/components/AnomalyDetection.tsx:168 | each entry of the type is kept as often as the list holds it; no other entry is kept |
| AnomalyDetection.CountsOrdered | src/components/AnomalyDetection.tsx:170-171 | critical <= active <= list length |
| AnomalyDetection.ActiveAnomalies | src/components/AnomalyDetection.tsx:170 | at most the list length; 0 iff no anomaly is active |
| AnomalyDetection.CriticalAnomalies | src/components/AnomalyDetection.tsx:171 | at most the list length; 0 iff no active anomaly is critical |
| AnomalyDetection.SeedCounts | src/components/AnomalyDetection.tsx:29-76 | the seed board has 2 active anomalies, 1 of them critical |
| AnomalyDetection.Board.constructor | src/components/AnomalyDetection.tsx:29-99 | the seed list and the 'all' filter |
| AnomalyDetection.Board.ArrivalTick | src/components/AnomalyDetection.tsx:102-121 | the list becomes Arrive of the old list and stays at most 10 long |
| AnomalyDetection.Board.HandleStatusChange | src/components/AnomalyDetection.tsx:173-177 | the list becomes ChangeStatus of the old list |
| AnomalyDetection.Board.SelectType | src/components/AnomalyDetection.tsx:247 | only the selected filter changes |
| AlloyPanel.StatusOf | src/components/AlloyRecommendationPanel.tsx:302 | an id with no entry reads as pending; an id with an entry reads as that entry |
| AlloyPanel.ApprovalIsLocalAndFinal | src/components/AlloyRecommendationPanel.tsx:55-58 | a decision fixes that id's status, hides its buttons, and leaves every other id unchanged |
| AlloyPanel.ApprovalBoard.constructor | src/components/AlloyRecommendationPanel.tsx:52 | no decisions recorded |
| AlloyPanel.ApprovalBoard.HandleApproval | src/components/AlloyRecommendationPanel.tsx:55-58 | the map gains that one entry; its status reads back as the decision |
| AlloyPanel.PageBreak | src/components/AlloyRecommendationPanel.tsx:72-80 | a page is added iff y + required > height - 30, then y = 30 and page + 1; otherwise nothing changes; afterwards the space fits whenever it fits on an empty page |
| AlloyPanel.PdfCursor.constructor | src/components/AlloyRecommendationPanel.tsx:69-70 | the cursor starts at y 30 on page 1 |
| AlloyPanel.PdfCursor.AddNewPageIfNeeded | src/components/AlloyRecommendationPanel.tsx:72-80 | the cursor and the result are PageBreak of the old cursor |
| AlloyPanel.PdfCursor.WriteLines | src/components/AlloyRecommendationPanel.tsx:126-130 | line 0 sits where the page-break check leaves the starting cursor, line k+1 where it leaves line k moved down by the advance; the cursor ends one advance below the last line; pages nondecreasing, at most one new page per line, each line fitting above the margin |
| AlloyPanel.PlacedStep | src/components/AlloyRecommendationPanel.tsx:126-130 | one more line placed by the page-break check from where the last line left the cursor keeps the layout placed |
| AlloyPanel.TotalCost | src/components/AlloyRecommendationPanel.tsx:114 | no recommendations cost 0 |
| AlloyPanel.TotalCostNonnegative | src/components/AlloyRecommendationPanel.tsx:114 | nonnegative costs total nonnegative |
| AlloyPanel.AvgConfidence | src/components/AlloyRecommendationPanel.tsx:115 | undefined (NaN) exactly with no recommendations |
| AlloyPanel.AvgConfidenceBounds | src/components/AlloyRecommendationPanel.tsx:115 | confidences in [lo, hi] average in [lo, hi] |
| AlloyPanel.SeedTotals | src/components/AlloyRecommendationPanel.tsx:25-50 | the seed recommendations cost 230.70 in total at 90.5 average confidence |
| AlloyPanel.CostShare | src/components/AlloyRecommendationPanel.tsx:146 | undefined exactly when the total is zero |
| AlloyPanel.CostShareBounds | src/components/AlloyRecommendationPanel.tsx:146 | a nonnegative cost within a positive total has a share in [0, 100]; the whole total is 100 |
| AlloyPanel.CostShares | src/components/AlloyRecommendationPanel.tsx:143-147 | one share per recommendation, each its cost over the total |
| AlloyPanel.CostSharesSumTo100 | src/components/AlloyRecommendationPanel.tsx:143-147 | with a nonzero total every share is defined and they sum to exactly 100 |
| AlloyPanel.BucketOf | src/components/AlloyRecommendationPanel.tsx:121-123 | high iff > 90, medium iff in [80, 90], lower iff < 80 |
| AlloyPanel.BucketsPartition | src/components/AlloyRecommendationPanel.tsx:121-123 | the three bucket counts add up to the number of recommendations |
| AlloyPanel.PriorityOf | src/components/AlloyRecommendationPanel.tsx:179 | high iff > 90, medium iff in (80, 90], standard iff <= 80 |
| AlloyPanel.GetConfidenceColor | src/components/AlloyRecommendationPanel.tsx:278-282 | green iff >= 90, blue iff in [80, 90), orange iff < 80 |
| AlloyPanel.ThresholdsDisagreeOnlyAtBoundaries | src/components/AlloyRecommendationPanel.tsx:121-123 | bucket, priority and colour agree except at exactly 80 and exactly 90 |
| NeuralNetwork.PlannedNodesShape | src/components/NeuralNetworkVisualizer.tsx:36-73 | 27 nodes with distinct ids, each in its id's layer, inactive, with values in [0, 1) |
| NeuralNetwork.HiddenStarts | src/components/NeuralNetworkVisualizer.tsx:48-62 | the hidden layers start at positions 4, 10 and 18 of the node list; the output layer starts at 24 |
| NeuralNetwork.SlotOfHidden | src/components/NeuralNetworkVisualizer.tsx:48-62 | hidden node j of layer l sits at its layer's start plus j |
| NeuralNetwork.PlannedLayers | src/components/NeuralNetworkVisualizer.tsx:36-73 | the built layer numbers are 4 zeros, 6 ones, 8 twos, 6 threes, 3 fours |
| NeuralNetwork.PlanCounts | src/components/NeuralNetworkVisualizer.tsx:36-73 | layer sizes are 4, 6, 8, 6, 3 |
| NeuralNetwork.PlanFanOut | src/components/NeuralNetworkVisualizer.tsx:75-86 | the next-layer partners of all nodes number 138 |
| NeuralNetwork.PairsCount | src/components/NeuralNetworkVisualizer.tsx:75-86 | the connections of the first k nodes number their next-layer partners |
| NeuralNetwork.PlannedConnectionCount | src/components/NeuralNetworkVisualizer.tsx:75-86 | the built network has 138 connections |
| NeuralNetwork.TargetsSound | src/components/NeuralNetworkVisualizer.tsx:78-84 | every connection of a node leaves it and enters the next layer |
| NeuralNetwork.TargetsComplete | src/components/NeuralNetworkVisualizer.tsx:78-84 | every node of the next layer is a target |
| NeuralNetwork.ConnectionsAreLayered | src/components/NeuralNetworkVisualizer.tsx:75-86 | every connection goes from layer k to layer k + 1 |
| NeuralNetwork.FullyConnected | src/components/NeuralNetworkVisualizer.tsx:75-86 | every node is connected to every node of its next layer |
| NeuralNetwork.BuildNodes | src/components/NeuralNetworkVisualizer.tsx:36-73 | the node loops build exactly the planned node list |
| NeuralNetwork.BuildConnections | src/components/NeuralNetworkVisualizer.tsx:75-86 | the connection loops push the planned pairs in order, inactive, with weight (w - 0.5) * 2 |
| NeuralNetwork.BuildNetwork | src/components/NeuralNetworkVisualizer.tsx:33-89 | the planned nodes and 138 connections, every weight in [-1, 1) |
| NeuralNetwork.ConnectionsLabelMismatch | src/components/NeuralNetworkVisualizer.tsx:358 | the "27" label matches the nodes, but the network has 138 connections, not the labelled 164 |
| NeuralNetwork.ConnectionsFigureMatches | src/components/NeuralNetworkVisualizer.tsx:354-358 | the sum of adjacent layer-size products equals the number of connections built |
| NeuralNetwork.TickNodes | src/components/NeuralNetworkVisualizer.tsx:225-229 | same nodes and ids; only value (a fresh draw) and activity change |
| NeuralNetwork.TickConnections | src/components/NeuralNetworkVisualizer.tsx:231-235 | same endpoints; the weight moves by less than 0.05; only weight and activity change |
| NeuralNetwork.NextAccuracy | src/components/NeuralNetworkVisualizer.tsx:237 | never above 99.9; from at most 99.9 it does not drop and rises by less than 0.1 |
| NeuralNetwork.AccuracyRuns | src/components/NeuralNetworkVisualizer.tsx:237 | any run of ticks keeps the accuracy between its start and 99.9 |
| NeuralNetwork.Visualizer.constructor | src/components/NeuralNetworkVisualizer.tsx:25-89 | not training; accuracy 94.7; epoch 1247; the planned nodes; 138 connections, connection c joining the c-th planned pair, inactive, with a weight in [-1, 1) |
| NeuralNetwork.Visualizer.StartTraining | src/components/NeuralNetworkVisualizer.tsx:245-247 | training starts; nothing else changes |
| NeuralNetwork.Visualizer.StopTraining | src/components/NeuralNetworkVisualizer.tsx:247 | training stops; nothing else changes |
| NeuralNetwork.Visualizer.TrainingTick | src/components/NeuralNetworkVisualizer.tsx:222-243 | idle: nothing changes; training: ticked nodes and connections, accuracy nondecreasing, epoch + 1 |
| LiveMetricsGlobe.FurnaceStep | src/components/LiveMetricsGlobe.tsx:215 | the furnace step is -1 or 0, zero iff the draw is at least 0.5 |
| LiveMetricsGlobe.ProductionStep | src/components/LiveMetricsGlobe.tsx:216 | the production step is an integer in [-50, 49] |
| LiveMetricsGlobe.NextEfficiency | src/components/LiveMetricsGlobe.tsx:214 | in [85, 98]; from inside, moves by at most 0.25 |
| LiveMetricsGlobe.NextFurnaces | src/components/LiveMetricsGlobe.tsx:215 | in [40, 55]; from inside, drops by at most 1 and never rises |
| LiveMetricsGlobe.NextProduction | src/components/LiveMetricsGlobe.tsx:216 | at least 10000; from 10050 up, moves by the raw step |
| LiveMetricsGlobe.NextQuality | src/components/LiveMetricsGlobe.tsx:217 | in [90, 99]; from inside, moves by at most 0.15 |
| LiveMetricsGlobe.NextTransfer | src/components/LiveMetricsGlobe.tsx:218 | in [1, 5]; from inside, moves by at most 0.1 |
| LiveMetricsGlobe.NextUptime | src/components/LiveMetricsGlobe.tsx:219 | in [99.5, 100]; from inside, moves by at most 0.005 |
| LiveMetricsGlobe.Globe.constructor | src/components/LiveMetricsGlobe.tsx:28-35 | the seed figures, already inside every band |
| LiveMetricsGlobe.Globe.Tick | src/components/LiveMetricsGlobe.tsx:212-221 | every figure becomes its ticked value; all bands hold; active furnaces never rise |
| IndustrialCommunication.NextValue | src/components/IndustrialCommunication.tsx:99-101 | a string value is untouched; a number stays >= 0 and, from >= 0, moves by at most 0.05 |
| IndustrialCommunication.NextQuality | src/components/IndustrialCommunication.tsx:103 | never bad; good iff the draw exceeds 0.1 |
| IndustrialCommunication.TickLiveData | src/components/IndustrialCommunication.tsx:97-104 | same tags and units; fresh time stamps; never bad; value bounds as NextValue |
| IndustrialCommunication.LatencyFromDraw | src/components/IndustrialCommunication.tsx:109 | an integer in [20, 49] |
| IndustrialCommunication.TickConnections | src/components/IndustrialCommunication.tsx:106-110 | no status changes; connected devices get a fresh time and latency in [20, 49]; others keep their time with latency 0 |
| IndustrialCommunication.ConnectedDevices | src/components/IndustrialCommunication.tsx:159 | at most the number of devices |
| IndustrialCommunication.TotalDataPoints | src/components/IndustrialCommunication.tsx:160 | with no negative count, the total is nonnegative and at least every device's own count |
| IndustrialCommunication.ConnectedLatencies | src/components/IndustrialCommunication.tsx:161-162 | one latency per connected device |
| IndustrialCommunication.ConnectedLatenciesFrom | src/components/IndustrialCommunication.tsx:161-162 | bounds on connected devices' latencies carry over to the filtered list |
| IndustrialCommunication.Round | src/components/IndustrialCommunication.tsx:161 | `Math.round` lies within half a unit |
| IndustrialCommunication.AvgLatency | src/components/IndustrialCommunication.tsx:161-162 | undefined (NaN) exactly when no device is connected |
| IndustrialCommunication.AvgLatencyAfterTick | src/components/IndustrialCommunication.tsx:106-162 | after any tick the shown average is in [20, 49] or NaN with nothing connected |
| IndustrialCommunication.TickKeepsConnectedDevices | src/components/IndustrialCommunication.tsx:106-110 | a tick keeps the number of connected devices |
| IndustrialCommunication.SeedDataPoints | src/components/IndustrialCommunication.tsx:160 | the seed devices carry 90 data points |
| IndustrialCommunication.SeedConnectedLatencies | src/components/IndustrialCommunication.tsx:39-80 | the seed's connected latencies are 45, 32, 28 |
| IndustrialCommunication.SeedAvgLatency | src/components/IndustrialCommunication.tsx:159-162 | three seed devices connected, average latency 35 |
| IndustrialCommunication.NextScan | src/components/IndustrialCommunication.tsx:121-128 | from >= 100: exactly 100 and stop; below: keep scanning, grow by less than 20 |
| IndustrialCommunication.ScanOvershoots | src/components/IndustrialCommunication.tsx:121-128 | the counter can show 105 for one tick before it is reset to 100 |
| IndustrialCommunication.Hub.constructor | src/components/IndustrialCommunication.tsx:39-92 | the seed devices and data, not scanning, counter 0 |
| IndustrialCommunication.Hub.Refresh | src/components/IndustrialCommunication.tsx:96-110 | data and connections become their ticked values; the scan is untouched |
| IndustrialCommunication.Hub.StartNetworkScan | src/components/IndustrialCommunication.tsx:116-118 | scanning from 0; nothing else changes |
| IndustrialCommunication.Hub.ScanTick | src/components/IndustrialCommunication.tsx:120-129 | the counter and flag become NextScan of the old counter; the counter grows or is set to 100 |
| ProcessOptimization.ImproveMetric | src/components/ProcessOptimization.tsx:116-120 | current moves by an amount in [-0.6, 1.4); status becomes optimal on a draw above 0.3, else stays; nothing else changes |
| ProcessOptimization.ImproveMetrics | src/components/ProcessOptimization.tsx:116-120 | the same for every metric, same length |
| ProcessOptimization.NextProgress | src/components/ProcessOptimization.tsx:109-125 | from >= 100: exactly 100 and stop; below: keep running, grow by less than 15 |
| ProcessOptimization.RunFromZero | src/components/ProcessOptimization.tsx:124 | from 0, after k <= 7 steps the progress is below 15k, so no run stops before its eighth step |
| ProcessOptimization.Optimizer.constructor | src/components/ProcessOptimization.tsx:38-75 | not optimizing, progress 0, never optimized, the seed metrics |
| ProcessOptimization.Optimizer.StartOptimization | src/components/ProcessOptimization.tsx:104-106 | running from progress 0; metrics and time stamp unchanged |
| ProcessOptimization.Optimizer.Step | src/components/ProcessOptimization.tsx:108-126 | progress and flag follow NextProgress; the stopping step stamps the time and improves the metrics once; other steps only raise progress |
| ProcessOptimization.Optimizer.ResetOptimization | src/components/ProcessOptimization.tsx:129-132 | progress 0 and no time stamp; the run flag and metrics unchanged |
| Common.LookupOr0 | src/services/dataService.ts:100 | a missing element counts as 0, a present one as its stored value; the same lookup serves `current_composition.get(element, 0)` in backend/alloy_api/utils.py at line 26 |
| DataService.Adjustments | src/services/dataService.ts:98-109 | one entry per target element in key order; current + adjustment = target; confidence in [80, 100) |
| DataService.CostImpact | src/services/dataService.ts:111-113 | nonnegative, and 0 iff no adjustment is needed |
| DataService.GenerateRecommendation | src/services/dataService.ts:93-125 | keeps the compositions; its adjustments are Adjustments; cost 0 iff the current composition meets every target; improvement in [5, 20) |
| DataService.AvgQuality | src/services/dataService.ts:200-209 | no readings give 0 |
| DataService.AvgQualityBounds | src/services/dataService.ts:200-201 | scores in [lo, hi] (a missing score counting 0) average in [lo, hi] |
| DataService.CriticalAlerts | src/services/dataService.ts:202 | at most the number of alerts; 0 iff none is critical |
| DataService.MeanConfidences | src/services/dataService.ts:203-205 | defined iff every recommendation has adjustments; then each entry is that recommendation's mean confidence |
| DataService.AvgConfidence | src/services/dataService.ts:203-211 | 0 with no recommendations or with one that has no adjustments |
| DataService.AvgConfidenceBounds | src/services/dataService.ts:203-205 | confidences in [lo, hi] give an average in [lo, hi] |
| DataService.GetSystemAnalytics | src/services/dataService.ts:192-216 | reading count; critical count bounded; 0 averages for empty lists; the fixed uptime, efficiency and savings |
| DataService.OrMock | src/services/dataService.ts:51-56 | an error or null data gives the mock; data is kept |
| DataService.MockReading | src/services/dataService.ts:220-233 | id mock-i, five-minute-spaced time, temperature in [1640, 1660), score in [85, 100) |
| DataService.MockProcessData | src/services/dataService.ts:219-235 | 20 readings, strictly decreasing times 300000 ms apart, with those bounds |
| DataService.MockRecommendationCost | src/services/dataService.ts:237-254 | the mock adjustments are target minus current, but its cost 125.5 is not the 1.7 they imply |
| DataService.MockRecommendations | src/services/dataService.ts:237-254 | one recommendation, `mock-rec-1`, older than now, with one adjustment per target element |
| DataService.MockAlerts | src/services/dataService.ts:256-277 | two alerts, `mock-alert-1` and `mock-alert-2`, unresolved, older than now, neither critical |
| DataService.FallbackAnalytics | src/services/dataService.ts:192-216 | with every query failing: 20 readings, average in [85, 100), no critical alert, confidence 90.5 |
| AlloyUtils.Confidence | backend/alloy_api/utils.py:42 | the confidence lies in [80, 95] |
| AlloyUtils.AdditionsFor | backend/alloy_api/utils.py:29-43 | every addition carries the element, current and target, a positive quantity and a confidence in [80, 95] |
| AlloyUtils.AdditionsForCount | backend/alloy_api/utils.py:29-43 | no addition when the element is not short; otherwise one per qualifying material |
| AlloyUtils.AdditionsForSound | backend/alloy_api/utils.py:30-35 | every addition comes from a material above 50% whose quantity times its percentage is 100 times the shortfall |
| AlloyUtils.NeededSign | backend/alloy_api/utils.py:32-35 | the quantity is positive iff the shortfall is, and restores it exactly |
| AlloyUtils.ElementAdditions | backend/alloy_api/utils.py:25-43 | only elements more than 0.01 short yield additions; a missing current counts 0 |
| AlloyUtils.AllAdditions | backend/alloy_api/utils.py:25-43 | every addition is for a shortfall above 0.01, positive, with confidence in [80, 95] |
| AlloyUtils.First3 | backend/alloy_api/utils.py:45 | the first three, or all when fewer |
| AlloyUtils.AppendAdditions | backend/alloy_api/utils.py:29-43 | the inner loop appends exactly AdditionsFor |
| AlloyUtils.CalculateAlloyRecommendations | backend/alloy_api/utils.py:10-45 | the loops return the first three of AllAdditions |
| AlloyUtils.IronNeverAdded | backend/alloy_api/utils.py:16-23 | no material holds more than 50% iron, so iron is never added |
| AlloyUtils.ManganeseFromNothing | backend/alloy_api/utils.py:16-43 | missing manganese counts 0 and is offered by Mn Metal then SiMn 65/15 with the exact quantities |
| AlloyUtils.GradeSpec | backend/alloy_api/utils.py:55-64 | exactly 316L and 304 are known, with well-formed ranges |
| AlloyUtils.ElementScore | backend/alloy_api/utils.py:76-83 | in [50, 100], and 100 iff the value is in range |
| AlloyUtils.OutOfRangeDeviation | backend/alloy_api/utils.py:80-82 | out of range, the relative distance from the centre is positive |
| AlloyUtils.ScoreSums | backend/alloy_api/utils.py:73-84 | the count is at most the ranges listed; the total is 50 to 100 per counted element |
| AlloyUtils.ScoreSumsFull | backend/alloy_api/utils.py:73-84 | the total is 100 per element iff every present element is in range |
| AlloyUtils.SpecScore | backend/alloy_api/utils.py:73-86 | 85 when no listed element is present; otherwise the average of the element scores over the elements checked |
| AlloyUtils.Average | backend/alloy_api/utils.py:86 | the average times the count is the total |
| AlloyUtils.SpecScoreRange | backend/alloy_api/utils.py:73-86 | the score is in [50, 100]; with an element checked it is 100 iff all present ones are in range |
| AlloyUtils.MeanOfScores | backend/alloy_api/utils.py:86 | a total of per-element scores averages in [50, 100], and to 100 iff every element scored 100 |
| AlloyUtils.QualityScore | backend/alloy_api/utils.py:66-67 | an unknown grade scores 85 |
| AlloyUtils.QualityScoreRange | backend/alloy_api/utils.py:66-86 | any composition scores in [50, 100]; an unknown grade scores 85 |
| AlloyUtils.UnlistedIgnored | backend/alloy_api/utils.py:73-74 | elements the grade does not list never change the score |
| AlloyUtils.ScoreAgainst | backend/alloy_api/utils.py:69-86 | the loop computes SpecScore |
| AlloyUtils.CalculateQualityScore | backend/alloy_api/utils.py:51-86 | the method computes QualityScore |
| AlloyUtils.Temperatures | backend/alloy_api/utils.py:100 | one temperature per row, in order |
| AlloyUtils.SumSquares | backend/alloy_api/utils.py:102 | the sum of squares is nonnegative |
| AlloyUtils.Variance | backend/alloy_api/utils.py:102 | the variance is nonnegative |
| AlloyUtils.SeverityOf | backend/alloy_api/utils.py:113 | high iff the squared deviation exceeds 16 times the variance |
| AlloyUtils.FlagRows | backend/alloy_api/utils.py:105-114 | at most one anomaly per row; each reports a flagged row, and every flagged row is reported |
| AlloyUtils.FlaggedIsThreeSigma | backend/alloy_api/utils.py:106-112 | with std the standard deviation, the test on squares is abs(t - mean) > 3 std, and the high severity test abs(t - mean) > 4 std |
| AlloyUtils.Anomalies | backend/alloy_api/utils.py:96-116 | nothing for fewer than 10 rows; at most 5 anomalies; from 10 rows, exactly the flagged rows among the last five, against the mean and variance of all rows |
| AlloyUtils.DetectAnomalies | backend/alloy_api/utils.py:92-116 | the loop over the last five rows computes Anomalies |
| AlloyUtils.SquareOfSum | backend/alloy_api/utils.py:101-102 | the square of a sum is at most the length times the sum of squares |
| AlloyUtils.Samuelson | backend/alloy_api/utils.py:101-106 | no temperature lies further than sqrt(n - 1) standard deviations from the mean |
| AlloyUtils.FewRowsFlagNothing | backend/alloy_api/utils.py:96-113 | ten or fewer rows flag nothing; below 18 rows no anomaly is high |
| AdvancedViews.Unformat | backend/alloy_api/advanced_views.py:40-44 | an entry reads back exactly when it has one improvement |
| AdvancedViews.Format | backend/alloy_api/advanced_views.py:32-45 | id is the count + 1, unit kg, cost 12.5 per kg, and the entry reads back as the addition |
| AdvancedViews.FormatAll | backend/alloy_api/advanced_views.py:30-45 | entry k has id k + 1 and reads back as addition k |
| AdvancedViews.FormatRecommendations | backend/alloy_api/advanced_views.py:30-45 | the loop computes FormatAll |
| AdvancedViews.GenerateRecommendations | backend/alloy_api/advanced_views.py:11-51 | 400 iff a composition is absent or empty; otherwise the first three additions formatted; at most 3 |
| AdvancedViews.Incomplete | backend/alloy_api/advanced_views.py:19 | a request is complete iff both compositions are present and nonempty |
| AdvancedViews.CompositionScores | backend/alloy_api/advanced_views.py:78-82 | at most one score per row, each in [50, 100] |
| AdvancedViews.CompositionScoresEmpty | backend/alloy_api/advanced_views.py:78-82 | no score iff no row holds composition data |
| AdvancedViews.AverageQuality | backend/alloy_api/advanced_views.py:84 | 0 without scores, otherwise the average times the count is the sum |
| AdvancedViews.AverageQualityOfRows | backend/alloy_api/advanced_views.py:78-84 | 0 iff no row holds composition data, otherwise in [50, 100] |
| AdvancedViews.LastFive | backend/alloy_api/advanced_views.py:92 | the last five scores, or all when fewer |
| AdvancedViews.TrendOf | backend/alloy_api/advanced_views.py:92 | fewer than three scores read as stable |
| AdvancedViews.TwoValuesStable | backend/alloy_api/advanced_views.py:92 | last five scores of at most two values read as stable |
| AdvancedViews.ThreeValuesVariable | backend/alloy_api/advanced_views.py:92 | three different values among the last five read as variable |
| AdvancedViews.Chronological | backend/alloy_api/advanced_views.py:72 | the rows reversed into time order |
| AdvancedViews.ScoreRows | backend/alloy_api/advanced_views.py:78-82 | the loop computes CompositionScores |
| AdvancedViews.AnalyseRows | backend/alloy_api/advanced_views.py:74-96 | 404 iff no rows; otherwise the average and the count of the rows, and the trend and the anomalies of the readings in the order given |
| AdvancedViews.QualityAnalysis | backend/alloy_api/advanced_views.py:59-96 | as written: 404 iff no rows; otherwise the average and the count, and the trend and the anomalies of the rows newest first |
| AdvancedViews.QualityAnalysisInTimeOrder | backend/alloy_api/advanced_views.py:59-96 | corrected: as QualityAnalysis, but the trend and the anomalies are those of the rows in time order |
| AdvancedViews.AnomaliesAreNewest | backend/alloy_api/advanced_views.py:87 | in time order every reported anomaly is one of the five newest rows |
| AdvancedViews.OneOutlierStatistics | backend/alloy_api/utils.py:101-102 | twelve temperatures, one of them 12 and the rest 0, have mean 1 and variance 11 |
| AdvancedViews.NewestOutlierMissedAsWritten | backend/alloy_api/advanced_views.py:72-87 | rows handed newest first: the newest outlier goes unreported |
| AdvancedViews.NewestOutlierFlagged | backend/alloy_api/advanced_views.py:72-87 | rows in time order: the same outlier is reported as a medium anomaly |
| AdvancedViews.CompositionScoresAppend | backend/alloy_api/advanced_views.py:78-82 | scoring a concatenation scores the parts |
| AdvancedViews.ScoresInTimeOrder | backend/alloy_api/advanced_views.py:72-82 | the scores of the rows in time order are the newest-first scores reversed |
| AdvancedViews.ChronologicalAppend | backend/alloy_api/advanced_views.py:72 | putting a concatenation in time order reverses each part and swaps them |
| AdvancedViews.NewestScoresMissedAsWritten | backend/alloy_api/advanced_views.py:78-92 | rows scoring 50, 75, 100, 100, 100, 100, 100, 100 newest first read as stable |
| AdvancedViews.NewestScoresSeenInTimeOrder | backend/alloy_api/advanced_views.py:72-92 | in time order the same rows read as variable |
| AdvancedViews.ScoreOr85 | backend/alloy_api/advanced_views.py:206 | a missing or zero score reads as 85, any other as itself |
| AdvancedViews.DashboardScores | backend/alloy_api/advanced_views.py:206 | one score per row, each ScoreOr85 |
| AdvancedViews.ProductionEfficiency | backend/alloy_api/advanced_views.py:206 | 85 with no rows |
| AdvancedViews.EfficiencyBounds | backend/alloy_api/advanced_views.py:206 | stored scores in a band around 85 keep the efficiency in that band |
| AdvancedViews.UnscoredEfficiency | backend/alloy_api/advanced_views.py:206 | rows without stored scores give exactly 85 |
| AdvancedViews.Unresolved | backend/alloy_api/advanced_views.py:200 | one flag per alert, set iff unresolved |
| AdvancedViews.LowStock | backend/alloy_api/advanced_views.py:203 | one flag per item, set iff the quantity is below 100 |
| AdvancedViews.Dashboard | backend/alloy_api/advanced_views.py:190-223 | the efficiency is that of the ten newest rows; at most 5 recent activities from the newest rows; alert and low-stock counts bounded and 0 iff none; 3 furnaces online |
| AdvancedViews.DashboardEfficiencyBounds | backend/alloy_api/advanced_views.py:195-206 | stored scores in a band around 85 keep the dashboard's efficiency in that band |

## Left out

- Rendering is not modelled: JSX, styling, charts, the canvas animations and page routing. They state nothing checkable.
- Timers are not modelled: intervals, timeouts and effect clean-up. Each callback is one method, and its random draws are parameters in [0, 1).
- Dates are integers in milliseconds. `Date.now()`-based ids are strings supplied by the caller.
- `toFixed`, `toLocaleString` and Python's `round(..., 2)` are not modelled, nor IEEE floating point. All arithmetic is exact `real`, so band boundaries are exact.
- The `expected_range` field of a temperature anomaly is not modelled because it needs a square root. The three-sigma test is compared on squares: `(t - mean)^2 > 9 * variance`.
- Database and HTTP access is not modelled. This covers the Supabase queries and inserts, `addProcessReading`, `createAlert` and `resolveAlert`, the Django ORM queries, and request parsing.
  - The `hours` and `furnace_id` filters of `quality_analysis` and the 24-hour filter of `dashboard_metrics` are therefore not modelled. Their rows are parameters, newest first. The ten-row slice of `dashboard_metrics` is modelled: `AdvancedViews.Dashboard` takes it.
  - The `analysis_period_hours`, `generated_at` and `analysis_confidence` fields and the constant `daily_production` and `energy_efficiency` strings are not modelled either.
- The 500 responses for exceptions are not modelled, because the modelled code raises none. The `optimize_process` and `predictive_maintenance` views only return constants and are not modelled.
- The `reason` string of a formatted recommendation is not modelled. Its quantity, confidence and cost are not rounded.
- AdvancedViews.GenerateRecommendations: a target composition is a sequence of (element, value) pairs in key order. The model does not exclude duplicate keys, which a Python dict cannot hold.
- DataService.GenerateRecommendation: the target composition is likewise a sequence of (element, value) pairs in `Object.entries` order, and the model does not exclude duplicate keys, which a JavaScript object cannot hold. The same holds for `DataService.Adjustments`.
- Drawing the PDF report is not modelled. Only its page-break cursor is kept: `AlloyPanel.PdfCursor`.
- Tolerance.Position: requires a positive tolerance. With tolerance 0, JavaScript divides by zero and produces an infinity or NaN, which this model does not represent.
- Spectrometer.GetProgressValue: requires a positive tolerance, for the same reason.
- QualityControl.BarValue: requires a positive tolerance, for the same reason.
- Furnace.ZoneProgress: requires a positive tolerance, for the same reason.
- ProcessOptimization.Optimizer.StartOptimization: requires that no run is in progress, because the start button is disabled during a run. Two overlapping intervals are not modelled.
- ProcessOptimization.Optimizer.ResetOptimization: a reset during a run leaves that run going, as in the source. The run's later steps are modelled by `Step`.
- IndustrialCommunication.Hub.StartNetworkScan: requires that no scan is running, because the scan button is disabled while a scan runs.
- NeuralNetwork.Visualizer.StartTraining: pressing start while training would schedule a second stop. That is not modelled; the button is disabled while training.
- Inventory item counts are not modelled beyond the seed list: the inventory is never updated, and its +/- buttons have no handlers.

## Findings

| source | as written | input that shows it | evidently intended | confidence | as-written member | corrected member |
|---|---|---|---|---|---|---|
| src/components/NeuralNetworkVisualizer.tsx:358 | the statistics card prints 164 connections | the network built at lines 75-86: 4*6 + 6*8 + 8*6 + 6*3 = 138 connections | print the number of connections built, 138 | not executed | NeuralNetwork.ConnectionsLabelMismatch | NeuralNetwork.ConnectionsFigureMatches |
| backend/alloy_api/advanced_views.py:72-87 | rows ordered newest first are passed to `detect_anomalies`, whose `recent_data[-5:]` then takes the five oldest readings | twelve rows of one furnace, newest first, with the newest temperature 12 and the other eleven 0 (mean 1, variance 11, 121 > 9 * 11) | inspect the five newest readings, so the outlier is reported as a medium anomaly | not executed | AdvancedViews.NewestOutlierMissedAsWritten | AdvancedViews.NewestOutlierFlagged |
| backend/alloy_api/advanced_views.py:72-92 | the trend's `quality_scores[-5:]` is taken over the same newest-first rows, so it reads the five oldest scores | eight rows with composition data, newest first, scoring 50, 75, 100, 100, 100, 100, 100, 100 (316L with only Cr present at 100, 21.25 and 17, say): the newest three scores differ, yet the trend reads stable | the trend of the five newest scores, here variable | not executed | AdvancedViews.NewestScoresMissedAsWritten | AdvancedViews.NewestScoresSeenInTimeOrder |
