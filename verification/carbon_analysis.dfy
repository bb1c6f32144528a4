/** The carbon analysis of `/api/carbon-analysis`: each flight of
    `getFlightCarbonData` gets a burn rate, an estimated fuel volume, its CO2,
    offset cost and level; the whole batch is folded into statistics, the
    average drives the recommendations, and only the first 20 analysed flights
    are returned. HTTP, authentication and the JSON response are not modelled:
    the handler's result is a `Result` whose failure is the error message the
    handler would send. */
module CarbonAnalysis {
  import opened JsValues
  import opened CarbonCalculator
  import FourFlySdk

  /** Litres per hour of a four-seater, and the default. */
  const FourSeatRate: real := 33.0
  /** Litres per hour of an ultralight or a two-seater. */
  const LightRate: real := 15.0
  /** How many analysed flights the response lists. */
  const DisplayLimit: nat := 20

  /** The spellings whose upper-cased form is "ULM". */
  const UlmSpellings: set<string> := {"ULM", "ULm", "UlM", "Ulm", "uLM", "uLm", "ulM", "ulm"}

  function Min(a: nat, b: nat): (m: nat) { if a <= b then a else b }

  function Max(a: nat, b: nat): (m: nat) { if a <= b then b else a }

  /** Upper-casing gives 'U', 'L' or 'M' exactly for that letter in either case. */
  lemma UpperCharIs(c: char, u: char, l: char)
    requires (u, l) in {('U', 'u'), ('L', 'l'), ('M', 'm')}
    ensures UpperChar(c) == u <==> c == u || c == l
  {
  }

  /** A type label upper-cases to "ULM" exactly when it is "ulm" in some mix of cases. */
  lemma {:induction false} ToUpperIsUlm(s: string)
    ensures ToUpper(s) == "ULM" <==> s in UlmSpellings
  {
    if ToUpper(s) == "ULM" {
      UpperCharIs(s[0], 'U', 'u');
      UpperCharIs(s[1], 'L', 'l');
      UpperCharIs(s[2], 'M', 'm');
      assert s == [s[0], s[1], s[2]];
    }
    if s in UlmSpellings {
      assert |s| == 3;
      assert ToUpper(s) == [UpperChar(s[0]), UpperChar(s[1]), UpperChar(s[2])];
    }
  }

  /** Burn rate in litres per hour from the seat capacity and the type label.
      `capacity || null` makes 0 "unknown"; the four-seat test wins, then
      "ULM" (in any case) or a known capacity of at most 2 gives the light
      rate, and everything else (3 seats, unknown or 0 seats, any other type)
      falls back to the four-seat rate. */
  function BurnRate(capacity: Option<int>, aircraftType: Option<string>): (litersPerHour: real)
    ensures litersPerHour == FourSeatRate || litersPerHour == LightRate
    ensures capacity.Some? && capacity.value >= 4 ==> litersPerHour == FourSeatRate
    ensures litersPerHour == LightRate <==>
              && !(capacity.Some? && capacity.value >= 4)
              && (OrString(aircraftType, "") in UlmSpellings
                  || (capacity.Some? && capacity.value != 0 && capacity.value <= 2))
  {
    var seats := if capacity.Some? && capacity.value != 0 then capacity else None;
    var upperType := ToUpper(OrString(aircraftType, ""));
    var isFourSeats := seats.Some? && seats.value >= 4;
    var isUltralightOrTwoSeats := upperType == "ULM" || (seats.Some? && seats.value <= 2);
    ToUpperIsUlm(OrString(aircraftType, ""));
    if isFourSeats then FourSeatRate
    else if isUltralightOrTwoSeats then LightRate
    else FourSeatRate
  }

  /** The three-seat gap and the unknown capacity take the four-seat rate
      unless the type says ULM. */
  lemma DefaultRate(capacity: Option<int>, aircraftType: Option<string>)
    requires capacity.None? || capacity == Some(0) || capacity == Some(3)
    requires OrString(aircraftType, "") !in UlmSpellings
    ensures BurnRate(capacity, aircraftType) == FourSeatRate
  {
  }

  /** `litersPerHour * ((flight.duration || 0) / 60)`, the duration being in minutes. */
  function FuelEstimate(duration: Option<real>, capacity: Option<int>, aircraftType: Option<string>): (liters: real)
    ensures liters * 60.0 == BurnRate(capacity, aircraftType) * OrNumber(duration, 0.0)
    ensures duration.None? || duration == Some(0.0) ==> liters == 0.0
    ensures OrNumber(duration, 0.0) >= 0.0 ==> liters >= 0.0
  {
    var hours := OrNumber(duration, 0.0) / 60.0;
    BurnRate(capacity, aircraftType) * hours
  }

  /** The four figures the handler derives for one flight. */
  datatype Estimate = Estimate(fuelEstimated: real, co2Kg: real, offsetCost: real, emissionLevel: EmissionLevel)

  /** Fuel from duration and aircraft, then CO2, offset cost and level. */
  function EstimateFlight(duration: Option<real>, capacity: Option<int>, aircraftType: Option<string>, emissionFactor: real): (e: Estimate)
    ensures e.fuelEstimated == FuelEstimate(duration, capacity, aircraftType)
    ensures e.co2Kg == e.fuelEstimated * emissionFactor
    ensures e.offsetCost == e.co2Kg * 25.0 / 1000.0
    ensures e.emissionLevel == High <==> e.co2Kg > 50.0
    ensures e.emissionLevel == Low <==> e.co2Kg <= 20.0
  {
    var fuelEstimated := FuelEstimate(duration, capacity, aircraftType);
    var co2Kg := CalculateCO2(fuelEstimated, emissionFactor);
    Estimate(fuelEstimated, co2Kg, CalculateOffsetCost(co2Kg), GetEmissionLevel(co2Kg))
  }

  /** `{ ...flight, fuel_estimated, co2_kg, offset_cost, emission_level }`: every
      field of the client's flight, with the four figures set. The client's own
      `co2_kg` and `offset_cost` are overwritten, so only the flight is kept. */
  datatype AnalyzedFlight = AnalyzedFlight(
    flight: FourFlySdk.Flight,
    fuelEstimated: real,
    co2Kg: real,
    offsetCost: real,
    emissionLevel: EmissionLevel)

  /** The lambda of `flights.map(flight => { … })`. The client's flight has no
      `aircraft_capacity` and no `aircraft_type` property, so both reads give
      undefined and the burn rate is chosen from nothing. */
  function AnalyzeFlight(cf: FourFlySdk.CarbonFlight): (a: AnalyzedFlight)
    ensures a.flight == cf.flight
    ensures a.fuelEstimated * 60.0 == FourSeatRate * OrNumber(cf.flight.duration, 0.0)
    ensures a.co2Kg == a.fuelEstimated * cf.flight.emissionFactor
    ensures a.offsetCost == a.co2Kg * 25.0 / 1000.0
    ensures a.emissionLevel == GetEmissionLevel(a.co2Kg)
  {
    var e := EstimateFlight(cf.flight.duration, None, None, cf.flight.emissionFactor);
    assert BurnRate(None, None) == FourSeatRate;
    assert e.fuelEstimated * 60.0 == FourSeatRate * OrNumber(cf.flight.duration, 0.0);
    assert e.emissionLevel == GetEmissionLevel(e.co2Kg);
    WithEstimate(cf.flight, e)
  }

  /** The spread: the flight's fields plus the four figures. */
  function WithEstimate(f: FourFlySdk.Flight, e: Estimate): (a: AnalyzedFlight)
    ensures a.flight == f && a.fuelEstimated == e.fuelEstimated && a.co2Kg == e.co2Kg
    ensures a.offsetCost == e.offsetCost && a.emissionLevel == e.emissionLevel
  {
    AnalyzedFlight(f, e.fuelEstimated, e.co2Kg, e.offsetCost, e.emissionLevel)
  }

  /** `flights.map(…)`. */
  function AnalyzeAll(flights: seq<FourFlySdk.CarbonFlight>): (fs: seq<AnalyzedFlight>)
    ensures |fs| == |flights|
    ensures forall i :: 0 <= i < |flights| ==> fs[i] == AnalyzeFlight(flights[i])
  {
    seq(|flights|, i requires 0 <= i < |flights| => AnalyzeFlight(flights[i]))
  }

  function Co2Of(f: AnalyzedFlight): (co2Kg: real) { f.co2Kg }

  function OffsetCostOf(f: AnalyzedFlight): (cost: real) { f.offsetCost }

  /** `fs.reduce((sum, f) => sum + field(f), sum)`: a left fold. */
  function Reduce(fs: seq<AnalyzedFlight>, field: AnalyzedFlight -> real, sum: real): (total: real)
  {
    if fs == [] then sum else Reduce(fs[1..], field, sum + field(fs[0]))
  }

  /** The sum of a field over a batch. */
  function Sum(fs: seq<AnalyzedFlight>, field: AnalyzedFlight -> real): (total: real)
  {
    if fs == [] then 0.0 else field(fs[0]) + Sum(fs[1..], field)
  }

  /** The reduce adds exactly the field of every flight to its seed. */
  lemma {:induction false} ReduceIsSum(fs: seq<AnalyzedFlight>, field: AnalyzedFlight -> real, sum: real)
    ensures Reduce(fs, field, sum) == sum + Sum(fs, field)
  {
    if fs != [] {
      ReduceIsSum(fs[1..], field, sum + field(fs[0]));
    }
  }

  /** When each offset is priced from its own CO2 at the default price, the
      total offset is the total CO2 priced at once. */
  lemma {:induction false} OffsetSumIsPricedTotal(fs: seq<AnalyzedFlight>)
    requires forall i :: 0 <= i < |fs| ==> fs[i].offsetCost == fs[i].co2Kg * 25.0 / 1000.0
    ensures Sum(fs, OffsetCostOf) == Sum(fs, Co2Of) * 25.0 / 1000.0
  {
    if fs != [] {
      OffsetSumIsPricedTotal(fs[1..]);
    }
  }

  /** A sum of non-negative values is non-negative. */
  lemma {:induction false} SumNonNegative(fs: seq<AnalyzedFlight>, field: AnalyzedFlight -> real)
    requires forall i :: 0 <= i < |fs| ==> field(fs[i]) >= 0.0
    ensures Sum(fs, field) >= 0.0
  {
    if fs != [] {
      SumNonNegative(fs[1..], field);
    }
  }

  datatype Stats = Stats(totalFlights: nat, totalCo2: real, avgCo2: real, offsetCost: real)

  /** The two reduces and the guarded average over the whole batch. */
  function BatchStats(fs: seq<AnalyzedFlight>): (s: Stats)
    ensures s.totalFlights == |fs|
    ensures s.totalCo2 == Sum(fs, Co2Of) && s.offsetCost == Sum(fs, OffsetCostOf)
    ensures fs != [] ==> s.avgCo2 * |fs| as real == s.totalCo2
    ensures fs == [] ==> s == Stats(0, 0.0, 0.0, 0.0)
  {
    var totalCo2 := Reduce(fs, Co2Of, 0.0);
    var avgCo2 := totalCo2 / Max(|fs|, 1) as real;
    var totalOffsetCost := Reduce(fs, OffsetCostOf, 0.0);
    ReduceIsSum(fs, Co2Of, 0.0);
    ReduceIsSum(fs, OffsetCostOf, 0.0);
    Stats(|fs|, totalCo2, avgCo2, totalOffsetCost)
  }

  /** What the handler sends back, less `success` and `user`. */
  datatype Analysis = Analysis(stats: Stats, flights: seq<AnalyzedFlight>, recommendations: seq<string>)

  /** The body of the handler once the flights are fetched. */
  function AnalyzeBatch(flights: seq<FourFlySdk.CarbonFlight>): (r: Analysis)
    ensures r.stats.totalFlights == |flights|
    ensures r.stats.totalCo2 == Sum(AnalyzeAll(flights), Co2Of)
    ensures r.stats.offsetCost == r.stats.totalCo2 * 25.0 / 1000.0
    ensures flights != [] ==> r.stats.avgCo2 * |flights| as real == r.stats.totalCo2
    ensures flights == [] ==> r.stats == Stats(0, 0.0, 0.0, 0.0) && r.recommendations == [ShareFlights]
    ensures r.recommendations == Recommendations(r.stats.avgCo2)
    ensures |r.flights| == Min(|flights|, DisplayLimit)
    ensures forall i :: 0 <= i < |r.flights| ==> r.flights[i] == AnalyzeFlight(flights[i])
  {
    var analysisFlights := AnalyzeAll(flights);
    var stats := BatchStats(analysisFlights);
    OffsetSumIsPricedTotal(analysisFlights);
    Analysis(stats, analysisFlights[..Min(|analysisFlights|, DisplayLimit)], Recommendations(stats.avgCo2))
  }

  /** The handler: fetch through the client (the club guard and the query
      outcome), analyse, or answer with the error's message. */
  function CarbonAnalysisRoute(club: Option<string>, query: Result<seq<FourFlySdk.FlightRow>, string>): (r: Result<Analysis, string>)
    ensures !FourFlySdk.HasClub(club) ==> r == Failure(FourFlySdk.NoClubMessage)
    ensures FourFlySdk.HasClub(club) && query.Failure? ==>
              r == Failure(FourFlySdk.FlightsErrorPrefix + query.error)
    ensures FourFlySdk.GetFlights(club, query).Failure? ==> r == Failure(FourFlySdk.GetFlights(club, query).error)
    ensures r.Success? <==> FourFlySdk.HasClub(club) && query.Success?
    ensures r.Success? ==>
              && r.value.stats.totalFlights == |query.value|
              && |r.value.flights| == Min(|query.value|, DisplayLimit)
              && forall i :: 0 <= i < |r.value.flights| ==>
                   && r.value.flights[i].flight == FourFlySdk.MapFlight(query.value[i])
                   && r.value.flights[i].fuelEstimated * 60.0 == FourSeatRate * OrNumber(query.value[i].duration, 0.0)
    ensures r.Success? ==>
              && FourFlySdk.GetFlightCarbonData(club, query).Success?
              && r.value == AnalyzeBatch(FourFlySdk.GetFlightCarbonData(club, query).value)
  {
    match FourFlySdk.GetFlightCarbonData(club, query)
    case Failure(message) => Failure(message)
    case Success(flights) => Success(AnalyzeBatch(flights))
  }

  /** The totals of a successful response: the offset total is the CO2 total
      priced at 25 per tonne, the average times the row count is the total,
      and the recommendations are those for the average. */
  lemma RouteStats(club: Option<string>, query: Result<seq<FourFlySdk.FlightRow>, string>)
    requires CarbonAnalysisRoute(club, query).Success?
    ensures var a := CarbonAnalysisRoute(club, query).value;
            && a.stats.offsetCost == a.stats.totalCo2 * 25.0 / 1000.0
            && (query.value != [] ==> a.stats.avgCo2 * |query.value| as real == a.stats.totalCo2)
            && (query.value == [] ==> a.stats == Stats(0, 0.0, 0.0, 0.0))
            && a.recommendations == Recommendations(a.stats.avgCo2)
  {
    var cf := FourFlySdk.GetFlightCarbonData(club, query).value;
    assert CarbonAnalysisRoute(club, query).value == AnalyzeBatch(cf);
    assert |cf| == |query.value|;
  }

  /** The listed flights of a successful response: flight i is the analysis
      of row i as the client maps and enriches it (so its CO2 is its
      estimated fuel times that row's emission factor, by `AnalyzeFlight`),
      and its offset and level derive from that CO2. */
  lemma RouteFlightFigures(club: Option<string>, query: Result<seq<FourFlySdk.FlightRow>, string>, i: nat)
    requires CarbonAnalysisRoute(club, query).Success?
    requires i < |CarbonAnalysisRoute(club, query).value.flights|
    ensures var f := CarbonAnalysisRoute(club, query).value.flights[i];
            && f == AnalyzeFlight(FourFlySdk.Enrich(FourFlySdk.MapFlight(query.value[i])))
            && f.offsetCost == f.co2Kg * 25.0 / 1000.0
            && f.emissionLevel == GetEmissionLevel(f.co2Kg)
  {
    var cf := FourFlySdk.GetFlightCarbonData(club, query).value;
    assert cf[i] == FourFlySdk.Enrich(FourFlySdk.MapFlight(query.value[i]));
    assert CarbonAnalysisRoute(club, query).value.flights[i] == AnalyzeFlight(cf[i]);
  }

  /** The client's copies of `calculateCO2` and `calculateOffsetCost` agree
      with the server's on every input, defaults included. */
  lemma ClientHelpersAgree(fuelUsed: real, emissionFactor: real, co2Kg: real, pricePerTonne: real)
    ensures FourFlySdk.CalculateCO2(fuelUsed, emissionFactor) == CalculateCO2(fuelUsed, emissionFactor)
    ensures FourFlySdk.CalculateCO2(fuelUsed) == CalculateCO2(fuelUsed) == fuelUsed * 2.31
    ensures FourFlySdk.CalculateOffsetCost(co2Kg, pricePerTonne) == CalculateOffsetCost(co2Kg, pricePerTonne)
    ensures FourFlySdk.CalculateOffsetCost(co2Kg) == CalculateOffsetCost(co2Kg) == co2Kg * 25.0 / 1000.0
  {
  }

  /** The client's CO2 and offset cost, computed from the recorded refuels, do
      not reach the response: two flights that differ only in them analyse alike. */
  lemma ClientCo2Overwritten(cf: FourFlySdk.CarbonFlight, fuelUsed: real, co2Kg: real, offsetCost: real)
    ensures AnalyzeFlight(FourFlySdk.CarbonFlight(cf.flight.(fuelUsed := fuelUsed), co2Kg, offsetCost)).co2Kg
              == AnalyzeFlight(cf).co2Kg
  {
  }

  /** With no seat capacity and no type on the client's flights, a row whose
      aircraft is a ULM is still estimated at the four-seat rate. */
  lemma UlmRowAtFourSeatRate(club: Option<string>, row: FourFlySdk.FlightRow)
    requires FourFlySdk.HasClub(club)
    requires row.aircraft.Some? && row.aircraft.value.aircraftType == Some("ULM")
    requires row.duration == Some(60.0)
    ensures CarbonAnalysisRoute(club, Success([row])).Success?
    ensures CarbonAnalysisRoute(club, Success([row])).value.flights[0].fuelEstimated == FourSeatRate
    ensures FuelEstimate(row.duration, None, row.aircraft.value.aircraftType) == LightRate
  {
    assert "ULM" in UlmSpellings;
  }

  /** All statistics are non-negative when no flight has a negative duration
      or emission factor. */
  lemma {:induction false} StatsNonNegative(flights: seq<FourFlySdk.CarbonFlight>)
    requires forall i :: 0 <= i < |flights| ==>
               OrNumber(flights[i].flight.duration, 0.0) >= 0.0 && flights[i].flight.emissionFactor >= 0.0
    ensures AnalyzeBatch(flights).stats.totalCo2 >= 0.0
    ensures AnalyzeBatch(flights).stats.avgCo2 >= 0.0
    ensures AnalyzeBatch(flights).stats.offsetCost >= 0.0
  {
    var fs := AnalyzeAll(flights);
    forall i | 0 <= i < |fs| ensures Co2Of(fs[i]) >= 0.0 {
      assert fs[i] == AnalyzeFlight(flights[i]);
    }
    SumNonNegative(fs, Co2Of);
  }

  /** An example of the burn-rate rule: 60, 120 and 30 minutes on a
      four-seater, a two-seater and an aircraft of unknown capacity, all at
      2.31 kg per litre. */
  lemma RuleExample(f: FourFlySdk.Flight)
    ensures EstimateFlight(Some(60.0), Some(4), None, 2.31) == Estimate(33.0, 76.23, 1.90575, High)
    ensures EstimateFlight(Some(120.0), Some(2), None, 2.31) == Estimate(30.0, 69.3, 1.7325, High)
    ensures EstimateFlight(Some(30.0), None, None, 2.31) == Estimate(16.5, 38.115, 0.952875, Medium)
    ensures BatchStats([WithEstimate(f, Estimate(33.0, 76.23, 1.90575, High)),
                        WithEstimate(f, Estimate(30.0, 69.3, 1.7325, High)),
                        WithEstimate(f, Estimate(16.5, 38.115, 0.952875, Medium))])
            == Stats(3, 183.645, 61.215, 4.591125)
    ensures GetEmissionLevel(61.215) == High
  {
    var fs := [WithEstimate(f, Estimate(33.0, 76.23, 1.90575, High)),
               WithEstimate(f, Estimate(30.0, 69.3, 1.7325, High)),
               WithEstimate(f, Estimate(16.5, 38.115, 0.952875, Medium))];
    assert Sum(fs[2..], Co2Of) == 38.115 && Sum(fs[2..], OffsetCostOf) == 0.952875 by {
      assert fs[2..][1..] == [];
    }
    assert Sum(fs[1..], Co2Of) == 69.3 + 38.115 && Sum(fs[1..], OffsetCostOf) == 1.7325 + 0.952875 by {
      assert fs[1..][1..] == fs[2..];
    }
  }

  /** The same durations as the handler actually runs them: the capacities
      never reach it, so the two-seater burns at the four-seat rate. */
  lemma WiredExample(flights: seq<FourFlySdk.CarbonFlight>)
    requires |flights| == 3
    requires flights[0].flight.duration == Some(60.0)
    requires flights[1].flight.duration == Some(120.0)
    requires flights[2].flight.duration == Some(30.0)
    requires forall i :: 0 <= i < 3 ==> flights[i].flight.emissionFactor == 2.31
    ensures AnalyzeBatch(flights).flights[0].fuelEstimated == 33.0
    ensures AnalyzeBatch(flights).flights[1].fuelEstimated == 66.0
    ensures AnalyzeBatch(flights).flights[2].fuelEstimated == 16.5
    ensures AnalyzeBatch(flights).stats.totalCo2 == 266.805
    ensures AnalyzeBatch(flights).stats.avgCo2 == 88.935
  {
    var fs := AnalyzeAll(flights);
    assert fs[0].co2Kg == 76.23 && fs[1].co2Kg == 152.46 && fs[2].co2Kg == 38.115;
    assert Sum(fs[2..], Co2Of) == 38.115 by {
      assert fs[2..][1..] == [];
    }
    assert Sum(fs[1..], Co2Of) == 152.46 + 38.115 by {
      assert fs[1..][1..] == fs[2..];
    }
  }
}
