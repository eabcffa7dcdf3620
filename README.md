# VWMA dashboard core, modelled in Dafny

This project models the computational core of a Bitcoin dashboard. The dashboard polls
price/volume/direction records and draws a price line, a volume histogram and
volume-weighted moving average (VWMA) overlays. It also shows a trend signal and a
direction arrow. The model covers:

- the VWMA calculator, as a loop method proved equal to a specification function (`vwma.dfy`);
- the trend-signal classifier of the status panel (`vwma_status.dfy`);
- the state store, as a class whose actions are atomic transitions on a given fetch outcome (`store.dfy`);
- the three series the chart component prepares (`chart.dfy`);
- the rules of the indicator editor: the period guard, the fixed display order (an in-place
  sort of a copy), display names, and the per-row period draft (`vwma_manager.dfy`);
- the direction arrow (`direction_vector.dfy`).

Shared records are in `quotes.dfy`. Prices and volumes are `real`, times are integer
instants, and `undefined`/`null` is `Option.None`.

Two behaviours of the code worth knowing:

- `calculateVWMA` does not reject a non-positive period: the slice is empty and every
  entry is undefined (`Vwma.NonPositivePeriod`).
- `dir` is a number, and only `dir === 1` counts as up.

## Model

| member | source | states |
|---|---|---|
| `Vwma.Slice` | src/lib/vwma.ts:20 | JavaScript `slice`: within bounds it is the sub-sequence; a start at or past the end gives the empty sequence; an end past the length is clamped; a negative start counts from the end, or from 0 when it reaches past the front; an end at or before the front gives the empty sequence |
| `Vwma.SumsFromFront` | src/lib/vwma.ts:22-23 | the two `reduce` folds from 0 (Σclose·vol and Σvol, `SumPriceVolume` and `SumVolume`) equal the same sums taken from the front, so they do not depend on the fold's direction |
| `Vwma.WeightedMean` | src/lib/vwma.ts:22-29 | undefined exactly when the window's volumes sum to zero; otherwise the value times Σvol equals Σclose·vol |
| `Vwma.CalculateVWMA` | src/lib/vwma.ts:11-33 | output as long as the input; undefined during warm-up (i < period-1); Σclose·vol/Σvol over `data[i-period+1..i]` or undefined on a zero volume sum after it; all undefined for period <= 0; equal to the specification series `Vwma` |
| `Vwma.LastValue` | src/components/VWMAStatus.tsx:11-16 | the latest value of an indicator, assumed to be the last VWMA entry; undefined for an empty series |
| `Vwma.PrefixStable` | src/lib/vwma.ts:14-30 | computing over `data + more` leaves every entry at an index below `|data|` unchanged |
| `Vwma.PeriodBeyondLength` | src/lib/vwma.ts:15-18 | with a period longer than the series, every entry is undefined |
| `Vwma.NonPositivePeriod` | src/lib/vwma.ts:20-26 | with period <= 0 the slice is empty, so every entry is undefined |
| `Vwma.PeriodOne` | src/lib/vwma.ts:15-28 | with period 1 an entry is the quotation's own close when its volume is non-zero, undefined when it is zero |
| `Vwma.WeightedSumBounds` | src/lib/vwma.ts:22-23 | for non-negative volumes and closes in [lo, hi], lo·Σvol <= Σclose·vol <= hi·Σvol and Σvol >= 0 |
| `Vwma.MeanBetween` | src/lib/vwma.ts:25-28 | the quotient Σclose·vol/Σvol of such a window lies in [lo, hi] |
| `Vwma.WithinWindowRange` | src/lib/vwma.ts:20-28 | a defined entry over non-negative volumes lies between the smallest and largest close of its window |
| `Vwma.ThreeQuoteExample` | src/lib/vwma.ts:14-30 | closes 10, 20, 30 with volumes 1, 1, 2 at period 2 give undefined, 15, 80/3 |
| `Vwma.ZeroVolumeExample` | src/lib/vwma.ts:25-26 | two zero-volume quotations at period 2 give undefined, not 0 |
| `VwmaStatus.SignalText` | src/components/VWMAStatus.tsx:164-176 | the badge caption of each signal, never the "no data" text |
| `VwmaStatus.SignalTextInjective` | src/components/VWMAStatus.tsx:164-176 | different signals have different captions |
| `VwmaStatus.SignalBadge` | src/components/VWMAStatus.tsx:158-177 | first match wins and every flag triple gets exactly one signal: all true is strong rise, all false strong fall, rise only when blue>green and green>red but not blue>red, fall only in the mirrored case, sideways exactly when the blue/green and green/red flags differ |
| `VwmaStatus.LastValueOf` | src/components/VWMAStatus.tsx:14-16 | a key present in the last-values map yields its stored value; a missing key reads as undefined |
| `VwmaStatus.Classify` | src/components/VWMAStatus.tsx:28-49 | "no data" exactly when one of the three values is undefined; otherwise the three flags are the strict comparisons and the signal is strong rise exactly when blue > green > red, strong fall exactly when blue <= green <= red, and sideways otherwise (never rise or fall) |
| `VwmaStatus.PanelText` | src/components/VWMAStatus.tsx:30-44 | the panel reads "Нет данных" exactly when there is no data; otherwise it shows the signal's caption |
| `VwmaStatus.StatusPanel` | src/components/VWMAStatus.tsx:11-30 | the panel shows "no data" exactly when the blue, green or red value is missing or undefined |
| `VwmaStatus.UpAndDownUnreachable` | src/components/VWMAStatus.tsx:162-177 | for real values, the rise and fall branches are never taken |
| `VwmaStatus.TieIsStrongDown` | src/components/VWMAStatus.tsx:47-49 | three equal values give three false flags and a strong fall |
| `VwmaStatus.GrayIgnored` | src/components/VWMAStatus.tsx:13-16 | changing the gray indicator's value never changes the panel |
| `VwmaStatus.LiteralCases` | src/components/VWMAStatus.tsx:162-177 | 3,2,1 is a strong rise; 1,2,3 a strong fall; blue 2, green 3, red 1 is sideways with flags (false, true, true) |
| `VwmaStatus.FindIndicator` | src/components/VWMAStatus.tsx:19-21 | `find` yields the first indicator with the id, and nothing exactly when no indicator has it |
| `VwmaStatus.ColorOr` | src/components/VWMAStatus.tsx:23-25 | the first indicator with the id gives its colour when that colour is non-empty; a missing indicator or an empty colour gives the default |
| `VwmaStatus.PanelColors` | src/components/VWMAStatus.tsx:19-25 | each of blue, green and red takes the non-empty colour of its first indicator, and its own default (#0066ff, #00ff00, #ff0000) when no indicator has that id |
| `VwmaStatus.ShortHistoryHasNoSignal` | src/components/VWMAStatus.tsx:28-44 | if latest values are last VWMA entries, a series shorter than one of the periods gives "no data" |
| `Store.ErrorMessage` | src/lib/store.ts:75 | an `Error`'s message is recorded verbatim, even when empty; a thrown value without a message is recorded as "Failed to fetch data" |
| `Store.CryptoStore.constructor` | src/lib/store.ts:53-62 | starts empty with direction 0, not loading, no error; period and chart state are the stored ones or 20 and {0, not zoomed} |
| `Store.CryptoStore.FetchInitialData` | src/lib/store.ts:64-79 | success replaces the series, sets the direction to the last `dir` (0 if empty) and leaves the error cleared; failure records the error and keeps the series; loading ends either way; the direction invariant holds |
| `Store.CryptoStore.PollAfter` | src/lib/store.ts:82-83 | a poll asks for records after the last quotation's time, with no bound when the series is empty |
| `Store.CryptoStore.PollNewData` | src/lib/store.ts:81-96 | a non-empty batch is appended and its last `dir` becomes the direction; an empty batch or a failure changes nothing; the old series is a prefix and every VWMA value already computed is unchanged |
| `Store.CryptoStore.SetVWMAPeriod` | src/lib/store.ts:98-101 | the period becomes exactly the given one, nothing else changes |
| `Store.CryptoStore.SetChartState` | src/lib/store.ts:103-106 | the chart state becomes exactly the given one, nothing else changes |
| `Store.CryptoStore.ResetChartState` | src/lib/store.ts:108-112 | the chart state becomes {position 0, not zoomed}, nothing else changes |
| `Store.CryptoStore.GetVWMA` | src/lib/store.ts:114-117 | the VWMA series of the stored quotations at the stored period, one entry per quotation |
| `Store.CryptoStore.CurrentQuote` | src/lib/store.ts:119-122 | the last quotation, none exactly when the series is empty; in a consistent store its `dir` is the stored direction |
| `ChartData.PriceSeries` | src/components/Chart.tsx:111-116 | one point per quotation, in order, with the quotation's time and close |
| `ChartData.BarColorAt` | src/components/Chart.tsx:122-124 | a bar is falling exactly when it has a predecessor with a non-zero close greater than its own close |
| `ChartData.VolumeSeries` | src/components/Chart.tsx:118-126 | one bar per quotation, in order, with its time, its volume and the colour rule |
| `ChartData.FirstBarRises` | src/components/Chart.tsx:122 | the first bar is always rising |
| `ChartData.DefinedIndices` | src/components/Chart.tsx:132-142 | the ascending list of exactly the positions whose VWMA value is defined |
| `ChartData.DefinedPoints` | src/components/Chart.tsx:132-142 | the map-then-filter keeps one point per defined value, so the line is as long as the list of defined positions and no longer than the series |
| `ChartData.DefinedPointsAt` | src/components/Chart.tsx:132-142 | the filtered line has one point per defined position, in order, each with that position's time and value |
| `ChartData.VwmaLine` | src/components/Chart.tsx:128-143 | the VWMA line holds exactly the defined entries of the store's series, in order; undefined entries are dropped |
| `VwmaManager.HandleColorChange` | src/components/VWMAManager.tsx:22-24 | a colour change is always forwarded and carries only the colour |
| `VwmaManager.HandlePeriodChange` | src/components/VWMAManager.tsx:26-30 | an update is issued exactly when 10 <= period <= 2000, and it carries only that period |
| `VwmaManager.SortKey` | src/components/VWMAManager.tsx:34-35 | the comparator key: -1 exactly for an id not in the order list, otherwise the id's position in gray, blue, green, red |
| `VwmaManager.IndexOf` | src/components/VWMAManager.tsx:35 | `indexOf`: -1 exactly when absent, otherwise the first position holding the id |
| `VwmaManager.UnlistedFirst` | src/components/VWMAManager.tsx:33-36 | in the sorted list an id outside the order list never follows a listed one |
| `VwmaManager.ListedInOrder` | src/components/VWMAManager.tsx:33-36 | in the sorted list the listed ids come in the order gray, blue, green, red |
| `VwmaManager.SwapKeepsWithKey` | src/components/VWMAManager.tsx:33-36 | exchanging two neighbours with different keys leaves the entries of every key in the same order |
| `VwmaManager.InsertByKey` | src/components/VWMAManager.tsx:33-36 | one insertion step extends the sorted prefix by one entry, permutes the array and keeps every key's entries in order |
| `VwmaManager.SortByKey` | src/components/VWMAManager.tsx:33-36 | the array is sorted in place by key, is a permutation of what it held, and entries with equal keys keep their relative order (a stable sort) |
| `VwmaManager.SortedIndicators` | src/components/VWMAManager.tsx:33-36 | the result is a copy sorted by key, a permutation of the indicator list, with equal-key indicators in their original order |
| `VwmaManager.StableSortUnique` | src/components/VWMAManager.tsx:33-36 | two lists sorted by key that keep each key's entries in the same order are equal, so the contract above fixes the output of the stable sort exactly |
| `VwmaManager.DisplayName` | src/components/VWMAManager.tsx:54 | the mapped name for a known id, the id itself otherwise |
| `VwmaManager.DraftFromInput` | src/components/VWMAManager.tsx:130 | an input that parses to NaN or 0 falls back to the indicator's period; any other number is taken |
| `VwmaManager.IndicatorItem.constructor` | src/components/VWMAManager.tsx:81-82 | a row starts out of edit mode with the draft at the indicator's period |
| `VwmaManager.IndicatorItem.ReceiveIndicator` | src/components/VWMAManager.tsx:74-82 | new props replace the indicator but keep the edit flag and the draft |
| `VwmaManager.IndicatorItem.StartEditing` | src/components/VWMAManager.tsx:165 | clicking the label enters edit mode and keeps the draft |
| `VwmaManager.IndicatorItem.Input` | src/components/VWMAManager.tsx:130 | typing sets the draft by the NaN/0 fallback rule |
| `VwmaManager.IndicatorItem.Save` | src/components/VWMAManager.tsx:84-87 | the draft goes through the period guard, an update comes out exactly when it is in range, and edit mode always ends |
| `VwmaManager.IndicatorItem.Cancel` | src/components/VWMAManager.tsx:149-152 | edit mode ends and the draft returns to the indicator's period |
| `DirectionVector.DirectionView` | src/components/DirectionVector.tsx:10-37 | placeholder exactly without a quotation; up exactly when `dir == 1`; rotation 0 exactly when up, else 180; label, text class, stroke and fill green exactly when up |
| `DirectionVector.ViewText` | src/components/DirectionVector.tsx:10-37 | the placeholder shows "Нет данных"; an arrow shows its caption |
| `DirectionVector.QuoteTextIsCaption` | src/components/DirectionVector.tsx:27-37 | with a quotation the text is never the placeholder, and it is "ВВЕРХ" exactly when `dir` is 1 |
| `DirectionVector.OtherDirectionsPointDown` | src/components/DirectionVector.tsx:32-37 | any `dir` other than 1 gives down, rotation 180, "ВНИЗ" and red |
| `DirectionVector.ArrowAgreesWithStore` | src/components/DirectionVector.tsx:8-31 | from a consistent store, the placeholder shows exactly when the series is empty, and the arrow points up exactly when the stored direction is 1 |

## Left out

- The remote client in src/lib/supabase.ts (query building, environment check, date parsing) is not modelled. A fetch is an input: a batch or a failure.
- The asynchronous actions are atomic transitions. Interleaving is not modelled: two polls in flight, or a poll racing the initial load. The intermediate `isLoading: true` state is not observable.
- Reading and writing localStorage (and the JSON inside it) is I/O. The constructor takes the values read back as parameters. Only the in-memory updates are modelled.
- src/App.tsx is not modelled: the 10-second polling timer, the period slider (5 to 50) and its direct DOM write, and the layout.
- The chart library wiring, the resize listener and the effects in src/components/Chart.tsx are not modelled. Times are integer instants, not `getTime() / 1000`.
- `ChartData.BarColorAt` models `quotations.indexOf(q)` as the bar's own index. Every record is a distinct object, so the reference lookup finds that index.
- Number formatting with `toLocaleString`, SVG markup, styles and the comparison-row rendering are presentation.
- Floating point is not modelled: no NaN, infinities, rounding or summation order. Values are exact reals.
- Ordering of quotations by time is not enforced. The store appends whatever a poll returns, as the code does.
- The indicator registry (`vwmaIndicators`, `getVWMALastValues`, `updateVWMAIndicator`, `toggleVWMAIndicator`) is not defined in the store source. Its contents are parameters and its updates are outputs (`VwmaManager.Update`). Only `ShortHistoryHasNoSignal` uses the assumption that a latest value is the last VWMA entry.
- src/lib/store.ts defines neither `vwmaIndicators` nor `getVWMALastValues`, so no multi-indicator evaluator or visibility policy is modelled.
- The default argument `period = 20` of `calculateVWMA` (src/lib/vwma.ts:11) is not modelled: `Vwma.CalculateVWMA` always takes the period, and every modelled caller passes one.
- `parseInt` is not modelled. Its result is given as an optional integer, with NaN as none.
- `VwmaManager.DisplayName`: names inherited from the object prototype (an id such as `constructor`) are not modelled. The map holds only the four listed names.
