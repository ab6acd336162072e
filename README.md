# Battery, inverter and solar sizing calculators — a Dafny model

This project models the decision logic of a battery/inverter/solar retailer's website. It covers five parts.

- **Battery/inverter sizer** (`BatteryCalculator`). It sums the load in watts over a fixed catalog of eight appliances and the user's custom appliances. From that load it derives the required battery capacity, `ceil(load × hours / 12 / 0.8)` Ah, and the required inverter rating, `ceil(load × 1.25)` VA. A first-match threshold chain then picks one of four product pairs: no load, 150Ah/1050VA, 200Ah/1500VA MPPT, or multiple units/industrial.
- **Solar sizer** (`SolarCalculator`). It converts a monthly bill into units. It then works out a goal-adjusted size, rounds it half-up to 0.5 kW and clamps it to [3, 10] kW (residential) or [3, 50] kW (commercial). A roof-space override follows. The result is snapped to the nearest standard size, and ties go to the earlier, smaller size. Finally it computes savings (capped at 80 % of the bill), cost, payback to one decimal, and panel count.
- **Recommendation component state** (`BatteryRecommendationPanel.RecommendationState`). This is a class holding the quantity map, the backup hours, the custom-appliance list and the recommendation. Every handler ends with the recompute effect, and the invariant `Valid()` states that the recommendation is `Recommend` of the current inputs. The quote request's appliance list is `QuoteList`.
- **Quantity stepper** (`ApplianceSelector`). Its transitions propose a new quantity, or nothing.
- **Custom-appliance form** (`CustomApplianceModal.CustomApplianceForm`). It runs the name → wattage → quantity check chain, then resets or keeps the fields.

Numbers are exact: watts and quantities are `nat`, and hours, bill, roof area and kW are `real`. `Math.ceil`, `Math.floor` and `Math.round` (round half up) are defined through `.Floor` in `RealMath`.

The code behaves as follows in three places worth knowing:
- The roof-space override is applied *before* the standard-size snap. The snap can round up, so the final size may need more roof than is available. `SnapCanExceedRoof` shows a 900 sq. ft roof getting 10 kW.
- With a very small roof, the 3 kW minimum also exceeds the roof (`RoofLimitedSize`).
- The four lights + two fans example for 4 hours needs 163 Ah. That lands in the 200Ah/1500VA band, not the 150Ah one (`ExampleLightsAndFans`).

## Model

| member | source | states |
|---|---|---|
| BatteryCalculator.CalculateTotalLoad | app/utils/batteryCalculator.ts:44-62 | the two accumulating loops give the sum over catalog entries of wattage × quantity (absent id = 0) plus the sum over custom entries of wattage × quantity |
| BatteryCalculator.CatalogLoadZero | app/utils/batteryCalculator.ts:51-54 | the catalog sum is 0 iff every catalog term wattage × quantity is 0 |
| BatteryCalculator.CustomLoadZero | app/utils/batteryCalculator.ts:57-59 | the custom sum is 0 iff every custom entry contributes 0 W |
| BatteryCalculator.TotalLoadZero | app/utils/batteryCalculator.ts:44-62 | total load is 0 iff every catalog quantity is 0 and no custom appliance draws power |
| BatteryCalculator.CatalogLoadUpdate | app/utils/batteryCalculator.ts:51-54 | setting one catalog id's quantity changes the load by that entry's wattage × the change; other entries are unaffected |
| BatteryCalculator.CatalogLoadOtherKey | app/utils/batteryCalculator.ts:51-54 | a key no catalog entry uses does not change the load |
| BatteryCalculator.CatalogLoadEmpty | app/utils/batteryCalculator.ts:51-54 | the empty selection has catalog load 0 |
| BatteryCalculator.BatteryCapacity | app/utils/batteryCalculator.ts:64-69 | required Ah is the least integer not below load × hours / 12 / 0.8 |
| BatteryCalculator.BatteryCapacityMonotoneInLoad | app/utils/batteryCalculator.ts:64-69 | required Ah is non-decreasing in the load (for non-negative hours) |
| BatteryCalculator.BatteryCapacityMonotoneInHours | app/utils/batteryCalculator.ts:64-69 | required Ah is non-decreasing in the backup hours |
| BatteryCalculator.InverterSize | app/utils/batteryCalculator.ts:71-74 | required VA is the least integer not below load × 1.25 |
| BatteryCalculator.InverterSizeMonotone | app/utils/batteryCalculator.ts:71-74 | required VA is non-decreasing in the load |
| BatteryCalculator.SelectBand | app/utils/batteryCalculator.ts:88-168 | no-load band iff load 0; for load > 0 a rated band covers the required Ah/VA and no earlier rated band does (first match wins) |
| BatteryCalculator.CalculateRealTime | app/utils/batteryCalculator.ts:76-179 | the if/else-if chain yields `Recommend` of the inputs and echoes total load, required Ah, required VA and the input hours |
| BatteryCalculator.ZeroLoadPlaceholder | app/utils/batteryCalculator.ts:88-100 | load 0 gives "No battery needed"/"No inverter needed", the select prompt, and 0 Ah, 0 VA |
| BatteryCalculator.PositiveLoadBand | app/utils/batteryCalculator.ts:101-168 | for load > 0: 150Ah/1050VA iff Ah ≤ 150 and VA ≤ 1050; 200Ah/1500VA iff not that and Ah ≤ 200 and VA ≤ 1500; industrial otherwise; battery and inverter always come as a pair |
| BatteryCalculator.BandMonotone | app/utils/batteryCalculator.ts:101-168 | at any fixed backup time, a larger load never selects an earlier band (with negative hours the band is decided by VA alone) |
| BatteryCalculator.ExampleLightsAndFans | app/utils/batteryCalculator.ts:44-168 | 4 lights + 2 fans for 4 h: 390 W, 163 Ah, 488 VA, the 200Ah/1500VA MPPT pair |
| SolarCalculator.EstimateMonthlyUnits | app/utils/solarCalculator.ts:32-34 | units are the least integer not below bill / 6 |
| SolarCalculator.RoundToHalf | app/utils/solarCalculator.ts:65 | the result is a multiple of 0.5 within [−0.25, +0.25) of the input (half-up) |
| SolarCalculator.SystemSize | app/utils/solarCalculator.ts:36-77 | result is a multiple of 0.5 in [3, 10] or [3, 50]; target < 2.75 gives 3, target ≥ max + 0.25 gives the max, otherwise within 0.25 of the goal-adjusted target (factors 0.75, 1.2, 0.6, 0.8) |
| SolarCalculator.CalculateSystemSize | app/utils/solarCalculator.ts:36-77 | the step-by-step reassignment computes `SystemSize` |
| SolarCalculator.SystemSizeMonotone | app/utils/solarCalculator.ts:36-77 | the size is non-decreasing in monthly units |
| SolarCalculator.RoofCheckMonotone | app/utils/solarCalculator.ts:79-82 | a roof that holds a size holds any smaller size, and any larger roof holds it too |
| SolarCalculator.RoofLimitedSize | app/utils/solarCalculator.ts:121-128 | the override is at least 3; for a roof ≥ 300 sq. ft it is the largest whole kW that fits; below 300 it is 3 and does not fit |
| SolarCalculator.RoofOverrideNeverGrows | app/utils/solarCalculator.ts:121-128 | when the roof is too small for a size ≥ 3, the override is not larger than that size |
| SolarCalculator.StandardSizesIncreasing | app/utils/solarCalculator.ts:101-103 | both standard-size lists are strictly increasing |
| SolarCalculator.ClosestIndex | app/utils/solarCalculator.ts:106-108 | the strict-`<` reduce settles on a closest entry, and every earlier entry is strictly farther |
| SolarCalculator.RoundToStandardSize | app/utils/solarCalculator.ts:100-109 | returns a member of [3,5,7,10] or [3,5,10,15,20,25,30]; none is strictly closer; on a tie the smaller is returned; so ≤ 10 or ≤ 30 |
| SolarCalculator.CalculateSavings | app/utils/solarCalculator.ts:84-92 | monthly = round(min(kW × 120 × 6, 0.8 × bill)) ≤ round(0.8 × bill); annual = round(12 × unrounded monthly), within 6 of 12 × monthly |
| SolarCalculator.AnnualSavingsNotTwelveMonths | app/utils/solarCalculator.ts:84-92 | kW 3, bill 125.5: monthly 100 but annual 1205, not 1200 |
| SolarCalculator.CalculateROI | app/utils/solarCalculator.ts:94-98 | undefined iff annual savings are 0; otherwise a whole number of tenths within 0.05 of cost / annual savings |
| SolarCalculator.GetSolarRecommendation | app/utils/solarCalculator.ts:111-167 | the imperative assembly (roof check and override before the snap, then the figures and the explanation) yields `SolarPlan` of the inputs, whose properties the lemmas below state |
| SolarCalculator.RoofOverride | app/utils/solarCalculator.ts:118-164 | `roofSpaceNeeded` is the pre-override size × 100; sufficient iff roof ≥ that; otherwise the pre-snap size is the override (≤ the goal size, fits a roof ≥ 300) and the explanation notes the roof |
| SolarCalculator.SnapCanExceedRoof | app/utils/solarCalculator.ts:121-131 | residential, bill 50000, roof 900, independence: override 9 snaps to 10, which the roof does not hold |
| SolarCalculator.SavingsCapped | app/utils/solarCalculator.ts:84-92 | the recommended monthly savings never exceed round(0.8 × bill) |
| SolarCalculator.PaybackDefined | app/utils/solarCalculator.ts:133-136 | for bill ≥ 1, annual savings are > 0, so payback is defined and a whole number of tenths |
| SolarCalculator.WholeFigures | app/utils/solarCalculator.ts:131-137 | size is a standard size; panel count is 3 × size and cost is 60000 × size, so panels are 9..30 or 9..90 and cost is panel count × 20000 |
| SolarCalculator.ExampleReduceBills | app/utils/solarCalculator.ts:111-167 | residential, bill 5000, roof 500, reduce bills: 834 units, 5 kW, 15 panels, roof sufficient |
| SolarCalculator.ExampleSmallRoof | app/utils/solarCalculator.ts:111-167 | residential, bill 50000, roof 100, independence: needs 1000 sq. ft, not sufficient, 3 kW |
| BatteryRecommendationPanel.WithoutIndex | app/components/BatteryRecommendation.tsx:34-36 | the index filter equals the sequence with exactly that position removed, and is the identity for an out-of-range index |
| BatteryRecommendationPanel.CatalogLinesMembers | app/components/BatteryRecommendation.tsx:205-207 | a line is in the catalog part iff it names a catalog entry with quantity > 0 and carries that quantity |
| BatteryRecommendationPanel.CatalogLinesPositive | app/components/BatteryRecommendation.tsx:205-207 | every catalog line carries a positive quantity |
| BatteryRecommendationPanel.CatalogLinesComplete | app/components/BatteryRecommendation.tsx:205-207 | every catalog entry with a positive quantity has its line, with that quantity |
| BatteryRecommendationPanel.CatalogLinesLength | app/components/BatteryRecommendation.tsx:205-207 | there are at most as many catalog lines as catalog entries |
| BatteryRecommendationPanel.QuoteListShape | app/components/BatteryRecommendation.tsx:205-209 | every selected catalog item is listed before the custom part; every item there has quantity > 0; the tail is every custom appliance in insertion order |
| BatteryRecommendationPanel.RecommendationState.constructor | app/components/BatteryRecommendation.tsx:11-21 | empty map (every id reads 0), 4 hours, no custom appliances; the first recommendation is the zero-load placeholder |
| BatteryRecommendationPanel.RecommendationState.Refresh | app/components/BatteryRecommendation.tsx:17-21 | the effect makes the recommendation equal to `Recommend` of the current inputs |
| BatteryRecommendationPanel.RecommendationState.HandleApplianceChange | app/components/BatteryRecommendation.tsx:23-28 | key `id` takes `quantity`, every other key keeps its quantity, the rest of the state is unchanged, and the recommendation is recomputed |
| BatteryRecommendationPanel.RecommendationState.SetBackupHours | app/components/BatteryRecommendation.tsx:112-118 | hours take the slider value; the recommendation is recomputed |
| BatteryRecommendationPanel.RecommendationState.HandleAddCustomAppliance | app/components/BatteryRecommendation.tsx:30-32 | the appliance is appended; earlier entries and other state are unchanged |
| BatteryRecommendationPanel.RecommendationState.HandleRemoveCustomAppliance | app/components/BatteryRecommendation.tsx:34-36 | exactly position `index` is removed with order kept; no-op out of range |
| BatteryRecommendationPanel.RecommendationState.SubmitCustomAppliance | app/components/BatteryRecommendation.tsx:227-231 | submitting the form with this component's add handler appends the validated appliance iff the form is valid; the form's error is cleared or set to the first failed check's message, and its fields reset to '', '', '1' on success or are kept on failure |
| ApplianceSelector.Increment | app/components/ApplianceSelector.tsx:21-23 | the proposal is above the current quantity |
| ApplianceSelector.Decrement | app/components/ApplianceSelector.tsx:25-29 | a proposal exists iff quantity > 0, and it is a smaller non-negative quantity |
| ApplianceSelector.DecrementUndoesIncrement | app/components/ApplianceSelector.tsx:21-29 | from quantity ≥ 0, decrement after increment proposes the original quantity |
| ApplianceSelector.IncrementUndoesDecrement | app/components/ApplianceSelector.tsx:21-29 | from quantity > 0, increment after decrement gives the original quantity |
| ApplianceSelector.RunStaysNonNegative | app/components/ApplianceSelector.tsx:21-29 | from a quantity ≥ 0, any press sequence stays ≥ 0 and ≤ start + number of increments |
| ApplianceSelector.DecrementsAtZero | app/components/ApplianceSelector.tsx:44 | at 0, decrement presses (the disabled button) leave the quantity 0 |
| CustomApplianceModal.TrimStartDrops | app/components/CustomApplianceModal.tsx:28 | leading-trim gives a suffix, drops only white space, and does not start with white space |
| CustomApplianceModal.TrimEndDrops | app/components/CustomApplianceModal.tsx:28 | trailing-trim gives a prefix, drops only white space, and does not end with white space |
| CustomApplianceModal.TrimEmpty | app/components/CustomApplianceModal.tsx:28-31 | a name trims to empty iff all its characters are white space |
| CustomApplianceModal.TrimmedEdges | app/components/CustomApplianceModal.tsx:46 | the trimmed name is the input minus white space at both ends, and has none at either end |
| CustomApplianceModal.Validate | app/components/CustomApplianceModal.tsx:28-49 | succeeds iff name trims non-empty and wattage and quantity are non-empty positive parses; success carries the trimmed name and the positive numbers; the first failing check, in order name → wattage → quantity, gives the message |
| CustomApplianceModal.BlankNameRefused | app/components/CustomApplianceModal.tsx:28-31 | a blank name is refused with "Please enter appliance name", whatever the numbers |
| CustomApplianceModal.CustomApplianceForm.constructor | app/components/CustomApplianceModal.tsx:19-22 | fields start as name '', wattage '', quantity '1', error '' |
| CustomApplianceModal.CustomApplianceForm.Edit | app/components/CustomApplianceModal.tsx:109-145 | the input handlers set the three fields to the typed text |
| CustomApplianceModal.CustomApplianceForm.HandleSubmit | app/components/CustomApplianceModal.tsx:24-56 | onAdd gets the validated appliance and onClose runs exactly on success; success resets the fields to '', '', '1' with no error; failure sets the first message and keeps the fields |
| CustomApplianceModal.CustomApplianceForm.HandleClose | app/components/CustomApplianceModal.tsx:58-64 | all three fields reset and the error is cleared |

## Left out

- Floating point: all arithmetic is exact. Near integer boundaries the original's doubles can differ from the exact ceiling or rounding, for example `/ 12 / 0.8` and `Math.round(x * 2) / 2`.
- Explanation strings: they depend on `toLocaleString('en-IN')`, `toFixed(1)` and template text. Each is modelled as a datatype holding the band or roof case and the numbers it interpolates.
- `parseInt`: its leniency (for example "12abc" parses to 12) is not reimplemented. `HandleSubmit` takes the parsed wattage and quantity as `Option<int>` parameters, with `None` for NaN.
- The initial `null` recommendation: the component's recommendation starts as `null` and is set only when the effect runs after the first render. The model has no `null` state. Its constructor and every handler update the inputs and recompute the recommendation as one step, so the render between the two is not modelled.
- The submit event's `preventDefault`, the modal's `isOpen` flag and its open/close button, and all rendering and animation are not modelled.
- The quote request's `join(', ')`, its per-line text, the `mailto:` URL and the `window.location` assignment are left out as I/O. `QuoteList` gives the lines as name/quantity pairs.
- QuoteListShape: states which catalog lines appear and that custom lines follow in insertion order. It does not state the relative order of the catalog lines, which `CatalogLines` produces in catalog order by construction.
- BatteryCapacityMonotoneInLoad: requires non-negative hours. With negative hours, which the slider (2 to 10) never produces, capacity falls as load grows.
- Payback when annual savings are 0: the original yields Infinity or NaN. This is modelled as `Undefined`. Likewise the bill-reduction percentage for a zero bill (NaN) is `None`.
- Quantities in the selection map are `nat`. The original's `Record<string, number>` could hold any number, but the stepper only ever proposes non-negative values (`RunStaysNonNegative`).
- Integers are unbounded: JavaScript's loss of integer precision above 2^53 is not modelled.
- The solar component (`SolarRecommendation.tsx`) is not part of this model. Its only logic is calling `getSolarRecommendation` on input changes.
