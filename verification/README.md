# EcoFlight carbon calculator — a Dafny model

EcoFlight reads a flying club's flights from the 4Fly platform and estimates
their carbon footprint. This project models the part of it that computes:

- the row shaping of the 4Fly client (`FourFlySimpleSDK.getFlights`). It
  produces `fuel_used`, the emission factor with its 2.31 default, and the
  pilot and aircraft display names;
- the client's club guard and its query-error path;
- the client's own `calculateCO2` / `calculateOffsetCost` and the
  `getFlightCarbonData` enrichment;
- the server's `CarbonCalculator`: CO₂ from fuel, offset cost from CO₂,
  the low/medium/high classifier and the threshold-gated recommendations;
- the `/api/carbon-analysis` handler. Per flight it picks a burn rate,
  estimates fuel from the duration in minutes, and derives CO₂, offset cost
  and level. It then folds the whole batch into totals and a guarded average,
  builds recommendations from the average, and returns the first 20 analysed
  flights.

Numbers are exact `real`s. JavaScript's `x || d` on a nullable number is
`JsValues.OrNumber`: null, undefined and 0 give the default. JavaScript
default parameters are Dafny default parameter values. The query, the
session and the network are parameters: the current club is an
`Option<string>`, and the query's outcome is a `Result` of rows or an error
message.

Files:

- `js_values.dfy` (module `JsValues`): Option, Result, `||`, ASCII upper-casing.
- `fourfly_sdk.dfy` (module `FourFlySdk`): the client.
- `carbon_calculator.dfy` (module `CarbonCalculator`): the calculator class.
  `generateRecommendations` builds its list by appending, as the source does.
  It is a method proved equal to the function `Recommendations`.
- `carbon_analysis.dfy` (module `CarbonAnalysis`): the handler.

Two facts about the code as wired are stated as lemmas rather than hidden:

- The client's flight objects carry neither `aircraft_capacity` nor
  `aircraft_type`, so the handler's reads of them (index.js:580-581) give
  undefined. Every flight is therefore estimated at the 33 L/h default. The
  burn-rate rule is modelled in general (`BurnRate`). The handler applies it
  to two absent values (`AnalyzeFlight`, `UlmRowAtFourSeatRate`,
  `WiredExample`).
- The client's `co2_kg` and `offset_cost`, computed from the recorded
  refuels, are overwritten by the handler's duration-based figures
  (`ClientCo2Overwritten`).

Two behaviours of the code that the model keeps as written:

- A negative emission factor is kept: only null, undefined and 0 fall back to 2.31.
- A known `fuel_used` never bypasses the estimate: the handler always
  estimates from the duration.

## Model

| member | source | states |
|---|---|---|
| FourFlySdk.FuelUsed | fourfly-simple-sdk.js:213-214 | `fuel_used` is before + after, a missing (or 0) refuel counting as 0 |
| FourFlySdk.EmissionFactor | fourfly-simple-sdk.js:216 | the fuel type's factor when present and non-zero, otherwise 2.31 (missing aircraft, fuel type or factor, or 0); never 0 |
| FourFlySdk.NegativeFactorKept | fourfly-simple-sdk.js:216 | a negative factor is passed through, not replaced by 2.31 |
| FourFlySdk.MapFlight | fourfly-simple-sdk.js:201-217 | id, date, duration, pilot id, aircraft id, destination and landings are copied; fuel used and emission factor follow the two rules above |
| FourFlySdk.DisplayDefaults | fourfly-simple-sdk.js:205-211 | pilot name is "first last" when the user join exists (a null name rendered "null"), "N/A" otherwise; aircraft name is "Avion" when the join is missing or its name is null or "", and never empty; registration is "" in the same cases |
| FourFlySdk.AircraftTypeDropped | fourfly-simple-sdk.js:201-217 | the aircraft type the query selects does not reach the mapped flight |
| FourFlySdk.GetFlights | fourfly-simple-sdk.js:145-218 | no club: fails with "Utilisateur non connecté ou sans club"; query error: fails with the prefixed message; otherwise one mapped flight per row, in order |
| FourFlySdk.NoClubFails | fourfly-simple-sdk.js:146-148 | without a club, both `getFlights` and `getFlightCarbonData` fail whatever the query holds, and never return an empty list |
| FourFlySdk.CalculateCO2 | fourfly-simple-sdk.js:280-282 | non-negative for non-negative inputs; zero fuel or a zero factor gives zero CO₂; dividing by a non-zero factor gives back the fuel |
| FourFlySdk.CalculateOffsetCost | fourfly-simple-sdk.js:284-286 | one tonne costs the price; non-negative for non-negative inputs; invertible for a non-zero price |
| FourFlySdk.Enrich | fourfly-simple-sdk.js:294-306 | keeps the flight and adds co2 = fuel used × factor and offset = co2 × 25 / 1000 |
| FourFlySdk.GetFlightCarbonData | fourfly-simple-sdk.js:291-307 | succeeds iff `getFlights` does, failing with its message; on success the same length and order, each flight enriched |
| FourFlySdk.CarbonDataOfRows | fourfly-simple-sdk.js:291-307 | for a row list and a club, element i keeps row i's mapped flight and its co2 is (before + after) × factor |
| CarbonCalculator.CalculateCO2 | index.js:176-178 | non-negative for non-negative inputs; zero fuel or a zero factor gives zero CO₂; dividing by a non-zero factor gives back the fuel |
| CarbonCalculator.CalculateOffsetCost | index.js:180-182 | one tonne costs the price; non-negative for non-negative inputs; invertible for a non-zero price |
| CarbonCalculator.DefaultOffsetCost | index.js:180-182 | with the default price, 1000 kg costs 25, the cost is 0.025 per kg, and costs add over masses |
| CarbonCalculator.GetEmissionLevel | index.js:184-189 | high iff co2 > 50, medium iff 20 < co2 ≤ 50, low iff co2 ≤ 20 |
| CarbonCalculator.EmissionLevelMonotonic | index.js:184-189 | a larger CO₂ never gives a lower level |
| CarbonCalculator.EmissionLevelBoundaries | index.js:184-189 | 50 is medium, 50.0001 high, 20 low, 20.0001 medium |
| CarbonCalculator.Recommendations | index.js:191-212 | 4 items above 30, 2 above 10, 1 otherwise; the sharing message is always last |
| CarbonCalculator.RecommendationsCases | index.js:191-212 | the list is exactly [shorter flights, optimise plan, buy offsets, share] above 30, [buy offsets, share] above 10, [share] otherwise |
| CarbonCalculator.RecommendationsMembership | index.js:194-207 | the two efficiency messages are present iff the figure exceeds 30, the offset message iff it exceeds 10 |
| CarbonCalculator.RecommendationsDistinct | index.js:191-212 | no message appears twice, so the sharing message appears only at the end |
| CarbonCalculator.GenerateRecommendations | index.js:191-212 | the list built by successive pushes is exactly `Recommendations` |
| CarbonCalculator.RecommendationsAccumulate | index.js:194-209 | for x ≤ y the list for x is a suffix of the list for y |
| CarbonAnalysis.ToUpperIsUlm | index.js:581-583 | a type label upper-cases to "ULM" iff it is "ulm" in some mix of cases |
| CarbonAnalysis.BurnRate | index.js:580-585 | 33 or 15 L/h; 33 whenever capacity ≥ 4, even for a ULM; 15 iff not ≥ 4 and the type is ULM or the capacity is known, non-zero and ≤ 2 |
| CarbonAnalysis.DefaultRate | index.js:580-585 | 3 seats, 0 seats or unknown capacity with a non-ULM type get 33 L/h |
| CarbonAnalysis.FuelEstimate | index.js:587-589 | fuel × 60 = rate × minutes; missing or zero duration gives 0; non-negative duration gives non-negative fuel |
| CarbonAnalysis.EstimateFlight | index.js:588-596 | co2 = fuel × factor, offset = co2 × 25 / 1000, level high iff co2 > 50 and low iff co2 ≤ 20 |
| CarbonAnalysis.AnalyzeFlight | index.js:578-605 | keeps the client's flight unchanged; as wired, fuel × 60 = 33 × minutes; co2, offset and level derived from that fuel |
| CarbonAnalysis.WithEstimate | index.js:598-604 | the spread keeps the flight and sets the four figures |
| CarbonAnalysis.AnalyzeAll | index.js:578 | one analysed flight per input flight, same order |
| CarbonAnalysis.ReduceIsSum | index.js:608 | the left-fold `reduce` from a seed equals the seed plus the sum of the field |
| CarbonAnalysis.OffsetSumIsPricedTotal | index.js:610-613 | the summed offsets equal the summed CO₂ × 25 / 1000 |
| CarbonAnalysis.BatchStats | index.js:608-613 | total flights = batch length; totals are the sums; avg × n = total for n > 0; an empty batch gives all-zero stats |
| CarbonAnalysis.AnalyzeBatch | index.js:578-628 | stats over the whole batch; offset = total × 25 / 1000; recommendations from the average; returned flights are the first min(n, 20) analysed flights in order |
| CarbonAnalysis.CarbonAnalysisRoute | index.js:572-634 | the client's error reaches the response unchanged: no club gives the no-club message, a query error the prefixed message; success iff club and query succeed; then the response is `AnalyzeBatch` of the client's enriched flights: n flights counted, min(n, 20) listed, each keeping its row's mapped fields and estimated at 33 L/h |
| CarbonAnalysis.RouteStats | index.js:607-628 | in a successful response the offset total is the CO₂ total × 25 / 1000, avg × n = total for n > 0 (all zero for no rows), and the recommendations are those for the average |
| CarbonAnalysis.RouteFlightFigures | index.js:578-605 | listed flight i is the analysis of row i as the client maps and enriches it, so its CO₂ is its estimated fuel × that row's factor; offset = CO₂ × 25 / 1000 and the level is that of its CO₂ |
| CarbonAnalysis.ClientHelpersAgree | fourfly-simple-sdk.js:280-286 | the client's CO₂ and offset helpers equal the server's on all inputs and defaults |
| CarbonAnalysis.ClientCo2Overwritten | index.js:598-604 | the analysed CO₂ does not depend on the client's fuel used, co2 or offset |
| CarbonAnalysis.UlmRowAtFourSeatRate | index.js:580-585 | a one-hour row whose aircraft type is "ULM" is estimated at 33 L through the handler, though the rule alone would give 15 |
| CarbonAnalysis.StatsNonNegative | index.js:608-613 | no negative durations or factors: total, average and offset total are non-negative |
| CarbonAnalysis.RuleExample | index.js:580-613 | 60/120/30 min on 4 seats, 2 seats, unknown, at 2.31: fuel 33/30/16.5, total 183.645, avg 61.215 (high), offsets 4.591125 |
| CarbonAnalysis.WiredExample | index.js:578-613 | the same durations through the handler: fuel 33/66/16.5 L, total 266.805, avg 88.935 |

## Left out

- HTTP routes, authentication, sessions, CORS, environment checks, page templates and `app.listen`: request/response plumbing and I/O.
- The Supabase client: the query, its pagination (`limit` 50, `offset`), date filters, ordering, and the `getAircraft` / `getMembers` / realtime / sign-in calls. The query's outcome is a parameter. `getAircraft` and `getMembers` repeat the club guard, which `HasClub` models once.
- The mutable `currentUser` / `currentClubId` fields: the current club is passed as a parameter.
- The `success` and `user` fields of the response, and the logging of errors.
- IEEE-754 doubles, NaN and `toFixed`: arithmetic is exact over `real`.
- `toUpperCase`: only ASCII letters are upper-cased; other characters are left as they are, so Unicode case mapping is not modelled.
- Seat capacity is an integer: a fractional capacity is not modelled.
- Pass-through fields (id, date, pilot and aircraft ids, destination, landings) are strings or integers. Their JavaScript types are opaque to the calculator.
