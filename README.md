# SMR siting dashboard: power-delivery estimator in Dafny

This project models the computational core of a map dashboard that compares
candidate sites for a 300 MW small modular reactor (SMR) in Myanmar. The core
is `src/data/smrData.ts`. It holds the static tables of candidate sites and
load centers. It looks up the Yangon hub, the destination of every estimate.
It computes a transmission-efficiency curve from the site-to-hub distance. It
splits the day's generation (7200 MWh) into the part the hub absorbs and a
surplus, and it rounds that estimate for display. It also classifies water
availability and seismic risk for the site panels.

Everything in the core is pure, so the model is one module, `SmrData` in
`smr_data.dfy`: datatypes for the records, constants for the tables, and
functions and lemmas for the operations. The numbers of the source are
modelled as exact `real`s. `Math.min` and `Math.max` become the helpers `Min`
and `Max`. `Math.round` becomes `Round`, which is `floor(x + 0.5)` on reals.

Modelling decisions:
- The great-circle distance is an input. `CalculateEffectivePower` takes the
  site's distance to the hub in place of the site record, because the site
  enters the estimate only through that distance.
- `EffectivePowerAt` is the same estimate with the hub demand as a parameter.
  `CalculateEffectivePower` applies it to the demand of `YangonHub()`, which is
  proved to be 3200.
- The water score is an `int`, as on the 1-10 scale the tables use.
- The `label` field of a water level is called `name`, because `label` is a
  Dafny keyword.
- The optional `isPreferred` flag is a `bool` that is false where the source
  leaves it out.
- The `default` branch of `getSeismicColor` is unreachable under the source's
  union type, and the four-constructor datatype `Seismic` has no value for it.
  `GetSeismicColor` proves that the fallback class is never returned.
- The source validates no input: out-of-range coordinates and negative
  demands are computed as given (src/data/smrData.ts:178-224), so every
  function of the model is total. Bounds that need a non-negative distance
  say so in a `requires` or an implication.

## Model

| member | source | states |
|---|---|---|
| `SmrData.DailyTargetIsOneDayAtCapacity` | src/data/smrData.ts:2-3 | the daily generation target 7200 MWh is the 300 MW capacity run for 24 hours |
| `SmrData.TablesAreWellFormed` | src/data/smrData.ts:26-172 | every site and load center has latitude in [-90, 90] and longitude in [-180, 180]; every water score is in 1..10; every demand is non-negative |
| `SmrData.LoadCenterKeysAreUnique` | src/data/smrData.ts:163-172 | no two load centers share an id or a priority rank |
| `SmrData.FindLoadCenter` | src/data/smrData.ts:175 | the lookup returns None exactly when no center has the id; otherwise it returns the first center with that id |
| `SmrData.YangonHub` | src/data/smrData.ts:163-175 | the lookup of "yangon" succeeds, so the non-null assertion holds; the hub is the first table entry, with demand 3200 and priority 1 |
| `SmrData.HubIsTheTopPriorityCenter` | src/data/smrData.ts:163-175 | the hub's priority is the highest of all load centers, and the hub is the only center with priority 1 |
| `SmrData.TransmissionEfficiency` | src/data/smrData.ts:193-200 | efficiency is 95 − 3·d/1000 below 1000 km and 92 from 1000 km on; it is always at least 92, and at most 95 for d ≥ 0 |
| `SmrData.EfficiencyClampsAreInactive` | src/data/smrData.ts:196-199 | for every distance, neither the 8% cap on total loss nor the floor of 92 changes the result; efficiency is 95 minus the distance factor |
| `SmrData.EfficiencyAtZeroDistance` | src/data/smrData.ts:196-199 | efficiency at distance 0 is exactly 95 |
| `SmrData.EfficiencySaturates` | src/data/smrData.ts:197-199 | efficiency is exactly 92 for every distance ≥ 1000 |
| `SmrData.EfficiencyIsNonIncreasing` | src/data/smrData.ts:197-199 | d1 ≤ d2 implies efficiency(d1) ≥ efficiency(d2) |
| `SmrData.EfficiencyIsStrictlyDecreasingBelowSaturation` | src/data/smrData.ts:197-199 | below 1000 km, efficiency drops by exactly 3 points per 1000 km of extra distance |
| `SmrData.NegativeDistanceExceedsBaseEfficiency` | src/data/smrData.ts:199 | there is no upper clamp: a negative distance gives an efficiency above 95 |
| `SmrData.EffectivePowerAt` | src/data/smrData.ts:203-217 | delivered = 7200 · efficiency / 100, in [6624, 6840] for d ≥ 0; absorbed is at most both demand and delivered and equals one of them; surplus ≥ 0; a positive surplus means the hub took its full demand; absorbed + surplus = delivered |
| `SmrData.CalculateEffectivePower` | src/data/smrData.ts:203-217 | against the Yangon hub: delivered = 7200 · efficiency / 100; absorbed never exceeds the hub demand and absorbed + surplus = delivered; for every distance the hub absorbs exactly 3200 and the surplus is delivered − 3200; for d ≥ 0 the surplus is in [3424, 3640] |
| `SmrData.DeliveryIsNonIncreasingInDistance` | src/data/smrData.ts:211-216 | a nearer site delivers at least as much energy and at least as much surplus as a farther one |
| `SmrData.EstimateAtZeroDistance` | src/data/smrData.ts:210-216 | at distance 0 the estimate is efficiency 95, delivered 6840, absorbed 3200, surplus 3640 |
| `SmrData.EstimateAtTwoThousandKm` | src/data/smrData.ts:210-216 | at 2000 km the estimate is efficiency 92, delivered 6624, absorbed 3200, surplus 3424 |
| `SmrData.Round` | src/data/smrData.ts:219-223 | the rounded value is the integer n with n − 0.5 ≤ x < n + 0.5, so halves round up |
| `SmrData.RoundIsMonotone` | src/data/smrData.ts:219-223 | rounding preserves order |
| `SmrData.RoundShift` | src/data/smrData.ts:222-223 | rounding x + k gives round(x) + k for every whole number k |
| `SmrData.Displayed` | src/data/smrData.ts:218-224 | each displayed field is within half a unit of its unrounded value; the displayed efficiency is a whole number of tenths within 0.05 of the true efficiency |
| `SmrData.DisplayedSplitAddsUp` | src/data/smrData.ts:215-224 | for d ≥ 0 the displayed hub absorption is exactly 3200 and displayed absorbed + displayed surplus = displayed delivered; displayed delivered is in [6624, 6840] and displayed efficiency in [92, 95] |
| `SmrData.GetSeismicColor` | src/data/smrData.ts:228-236 | every category maps to one of the four risk classes, never to the fallback class |
| `SmrData.SeismicColorIsInjective` | src/data/smrData.ts:228-236 | different categories get different classes |
| `SmrData.GetWaterLevel` | src/data/smrData.ts:239-244 | "Excellent" iff water ≥ 9, "Good" iff 7 ≤ water < 9, "Moderate" iff 5 ≤ water < 7, "Limited" iff water < 5; each label comes with its own class |
| `SmrData.WaterLevelIsMonotone` | src/data/smrData.ts:239-244 | more water never gives a lower band |
| `SmrData.PreferredSiteIsDawei` | src/data/smrData.ts:27-36 | Dawei is the only preferred site; its water level is "Excellent" and its seismic class is the low-risk one |

## Left out

- Haversine distance (`calculateDistance`, src/data/smrData.ts:178-188): it needs sine, cosine, square root and atan2, which cannot be evaluated here. The distance is a real parameter, so its symmetry, its zero on equal points and the triangle inequality are not stated.
- IEEE double semantics: all arithmetic is exact real arithmetic. The quotient `distanceKm / 1000` and the demands `2035.2` and `24.167` are exact in the model and rounded in the source.
- Round: models `Math.round` on exact reals. On doubles the argument itself may already carry round-off, for example in `efficiency * 10`, so a value that is exactly a half in the model may not be one in the source.
- Record fields with no behaviour: descriptions, partnership text and economic factors of the candidate sites (src/data/smrData.ts:6-11 and 26-151).
- A water score that is not a whole number: the water score is an `int`, while the source's type would admit fractions.
- The map view, src/components/dashboard/MyanmarMap.tsx: marker icons, the `flyTo` effect, label styles, fault and flood polygons and the layer declarations. It is presentation only. Its palette fallback is a styling lookup.
