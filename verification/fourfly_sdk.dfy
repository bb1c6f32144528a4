/** The pure parts of the 4Fly client (`FourFlySimpleSDK`): the club guard and
    the row shaping of `getFlights`, its own CO2 and offset-cost helpers, and
    the enrichment map of `getFlightCarbonData`. The query itself is external:
    its outcome (rows or an error message) is a parameter. */
module FourFlySdk {
  import opened JsValues

  /** The emission factor used when the fuel type gives none (kg CO2 per litre). */
  const DefaultEmissionFactor: real := 2.31
  /** The offset price used when none is given (currency units per tonne). */
  const DefaultPricePerTonne: real := 25.0

  const NoClubMessage: string := "Utilisateur non connecté ou sans club"
  const FlightsErrorPrefix: string := "Erreur lors de la récupération des vols: "

  /** `fuel_types!fuel_type_id(name, emission_factor)` as joined by the query. */
  datatype FuelTypeJoin = FuelTypeJoin(name: Option<string>, emissionFactor: Option<real>)

  /** `aircraft:aircraftId(id, name, registration, type, fuel_types…)`. */
  datatype AircraftJoin = AircraftJoin(
    id: Option<string>,
    name: Option<string>,
    registration: Option<string>,
    aircraftType: Option<string>,
    fuelTypes: Option<FuelTypeJoin>)

  /** `users:userId(first_name, last_name)`. */
  datatype UserJoin = UserJoin(firstName: Option<string>, lastName: Option<string>)

  /** One row of the `flights` query, with its two joins. */
  datatype FlightRow = FlightRow(
    id: string,
    date: string,
    duration: Option<real>,
    userId: Option<string>,
    aircraftId: Option<string>,
    destination: Option<string>,
    fuelAddedBefore: Option<real>,
    fuelAddedAfter: Option<real>,
    landings: Option<int>,
    aircraft: Option<AircraftJoin>,
    users: Option<UserJoin>)

  /** The object `getFlights` returns per row. It has no aircraft type and no
      seat capacity: the row map never copies them. */
  datatype Flight = Flight(
    id: string,
    date: string,
    duration: Option<real>,
    pilotId: Option<string>,
    pilotName: string,
    aircraftId: Option<string>,
    aircraftName: string,
    aircraftRegistration: string,
    destination: Option<string>,
    fuelUsed: real,
    landings: Option<int>,
    emissionFactor: real)

  /** `{ ...flight, co2_kg, offset_cost }` from `getFlightCarbonData`. */
  datatype CarbonFlight = CarbonFlight(flight: Flight, co2Kg: real, offsetCost: real)

  /** The `!this.currentClubId` guard: null, undefined and "" mean "no club". */
  predicate HasClub(club: Option<string>)
  {
    club.Some? && club.value != ""
  }

  /** How a template literal renders a name column. Both name columns are
      selected by the query, so a missing name arrives as null (never
      undefined) and renders as "null". */
  function Interpolate(x: Option<string>): (s: string)
    ensures x.None? ==> s == "null"
    ensures x.Some? ==> s == x.value
  {
    if x.Some? then x.value else "null"
  }

  /** `fuel_used`: the two refuels, a missing or zero one counting as 0. */
  function FuelUsed(row: FlightRow): (liters: real)
    ensures row.fuelAddedBefore.None? ==> liters == OrNumber(row.fuelAddedAfter, 0.0)
    ensures row.fuelAddedAfter.None? ==> liters == OrNumber(row.fuelAddedBefore, 0.0)
    ensures row.fuelAddedBefore.Some? && row.fuelAddedAfter.Some? ==>
              liters == row.fuelAddedBefore.value + row.fuelAddedAfter.value
  {
    OrNumber(row.fuelAddedBefore, 0.0) + OrNumber(row.fuelAddedAfter, 0.0)
  }

  /** `flight.aircraft?.fuel_types?.emission_factor || 2.31`. */
  function EmissionFactor(row: FlightRow): (factor: real)
    ensures factor != 0.0
    ensures KnownFactor(row).Some? && KnownFactor(row).value != 0.0 ==> factor == KnownFactor(row).value
    ensures KnownFactor(row).None? || KnownFactor(row) == Some(0.0) ==> factor == DefaultEmissionFactor
  {
    OrNumber(KnownFactor(row), DefaultEmissionFactor)
  }

  /** The optional chain `flight.aircraft?.fuel_types?.emission_factor`. */
  function KnownFactor(row: FlightRow): (factor: Option<real>)
  {
    if row.aircraft.Some? && row.aircraft.value.fuelTypes.Some?
    then row.aircraft.value.fuelTypes.value.emissionFactor
    else None
  }

  /** The lambda of `data.map(flight => ({ … }))` in `getFlights`. */
  function MapFlight(row: FlightRow): (f: Flight)
    ensures f.id == row.id && f.date == row.date && f.duration == row.duration
    ensures f.pilotId == row.userId && f.aircraftId == row.aircraftId
    ensures f.destination == row.destination && f.landings == row.landings
    ensures f.fuelUsed == FuelUsed(row) && f.emissionFactor == EmissionFactor(row)
  {
    Flight(
      id := row.id,
      date := row.date,
      duration := row.duration,
      pilotId := row.userId,
      pilotName :=
        if row.users.Some?
        then Interpolate(row.users.value.firstName) + " " + Interpolate(row.users.value.lastName)
        else "N/A",
      aircraftId := row.aircraftId,
      aircraftName := if row.aircraft.Some? then OrString(row.aircraft.value.name, "Avion") else "Avion",
      aircraftRegistration :=
        if row.aircraft.Some? then OrString(row.aircraft.value.registration, "") else "",
      destination := row.destination,
      fuelUsed := FuelUsed(row),
      landings := row.landings,
      emissionFactor := EmissionFactor(row))
  }

  /** `getFlights`: the club guard, then the query outcome, then the row map. */
  function GetFlights(club: Option<string>, query: Result<seq<FlightRow>, string>): (r: Result<seq<Flight>, string>)
    ensures !HasClub(club) ==> r == Failure(NoClubMessage)
    ensures HasClub(club) && query.Failure? ==> r == Failure(FlightsErrorPrefix + query.error)
    ensures r.Success? <==> HasClub(club) && query.Success?
    ensures r.Success? ==>
              && |r.value| == |query.value|
              && forall i :: 0 <= i < |r.value| ==> r.value[i] == MapFlight(query.value[i])
  {
    if !HasClub(club) then Failure(NoClubMessage)
    else if query.Failure? then Failure(FlightsErrorPrefix + query.error)
    else Success(seq(|query.value|, i requires 0 <= i < |query.value| => MapFlight(query.value[i])))
  }

  /** `calculateCO2(fuelUsed, emissionFactor = 2.31)` of the client. */
  function CalculateCO2(fuelUsed: real, emissionFactor: real := DefaultEmissionFactor): (co2Kg: real)
    ensures fuelUsed >= 0.0 && emissionFactor >= 0.0 ==> co2Kg >= 0.0
    ensures emissionFactor != 0.0 ==> co2Kg / emissionFactor == fuelUsed
    ensures fuelUsed == 0.0 || emissionFactor == 0.0 ==> co2Kg == 0.0
  {
    fuelUsed * emissionFactor
  }

  /** `calculateOffsetCost(co2Kg, pricePerTonne = 25)` of the client. */
  function CalculateOffsetCost(co2Kg: real, pricePerTonne: real := DefaultPricePerTonne): (cost: real)
    ensures co2Kg == 1000.0 ==> cost == pricePerTonne
    ensures co2Kg >= 0.0 && pricePerTonne >= 0.0 ==> cost >= 0.0
    ensures pricePerTonne != 0.0 ==> cost * 1000.0 / pricePerTonne == co2Kg
  {
    (co2Kg / 1000.0) * pricePerTonne
  }

  /** The lambda of `flights.map(flight => { … })` in `getFlightCarbonData`. */
  function Enrich(f: Flight): (cf: CarbonFlight)
    ensures cf.flight == f
    ensures cf.co2Kg == f.fuelUsed * f.emissionFactor
    ensures cf.offsetCost == cf.co2Kg * 25.0 / 1000.0
  {
    var co2Kg := CalculateCO2(f.fuelUsed, f.emissionFactor);
    CarbonFlight(f, co2Kg, CalculateOffsetCost(co2Kg))
  }

  /** `getFlightCarbonData`: the flights of `getFlights`, each enriched, in order. */
  function GetFlightCarbonData(club: Option<string>, query: Result<seq<FlightRow>, string>): (r: Result<seq<CarbonFlight>, string>)
    ensures r.Success? <==> GetFlights(club, query).Success?
    ensures GetFlights(club, query).Failure? ==> r == Failure(GetFlights(club, query).error)
    ensures r.Success? ==>
              && GetFlights(club, query).Success?
              && |r.value| == |GetFlights(club, query).value|
              && forall i :: 0 <= i < |r.value| ==> r.value[i] == Enrich(GetFlights(club, query).value[i])
  {
    match GetFlights(club, query)
    case Failure(e) => Failure(e)
    case Success(flights) => Success(seq(|flights|, i requires 0 <= i < |flights| => Enrich(flights[i])))
  }

  /** With no current club the client throws instead of returning an empty list,
      whatever the query would have returned. */
  lemma NoClubFails(club: Option<string>, query: Result<seq<FlightRow>, string>)
    requires club.None? || club == Some("")
    ensures GetFlights(club, query) == Failure(NoClubMessage)
    ensures GetFlightCarbonData(club, query) == Failure(NoClubMessage)
    ensures GetFlights(club, query) != Success([])
  {
  }

  /** Enrichment keeps the length and order of its input and every field of
      each flight, and adds the CO2 of the recorded refuels and its offset cost. */
  lemma CarbonDataOfRows(club: Option<string>, rows: seq<FlightRow>, i: int)
    requires HasClub(club) && 0 <= i < |rows|
    ensures GetFlightCarbonData(club, Success(rows)).Success?
    ensures |GetFlightCarbonData(club, Success(rows)).value| == |rows|
    ensures GetFlightCarbonData(club, Success(rows)).value[i].flight == MapFlight(rows[i])
    ensures GetFlightCarbonData(club, Success(rows)).value[i].co2Kg
              == (OrNumber(rows[i].fuelAddedBefore, 0.0) + OrNumber(rows[i].fuelAddedAfter, 0.0)) * EmissionFactor(rows[i])
  {
  }

  /** The display-name defaults of the row map. */
  lemma DisplayDefaults(row: FlightRow)
    ensures row.users.None? ==> MapFlight(row).pilotName == "N/A"
    ensures row.users.Some? ==>
              MapFlight(row).pilotName == Interpolate(row.users.value.firstName) + " " + Interpolate(row.users.value.lastName)
    ensures row.users.Some? && row.users.value.firstName.Some? && row.users.value.lastName.Some? ==>
              MapFlight(row).pilotName == row.users.value.firstName.value + " " + row.users.value.lastName.value
    ensures row.aircraft.None? ==> MapFlight(row).aircraftName == "Avion" && MapFlight(row).aircraftRegistration == ""
    ensures row.aircraft.Some? && (row.aircraft.value.name.None? || row.aircraft.value.name == Some("")) ==>
              MapFlight(row).aircraftName == "Avion"
    ensures row.aircraft.Some? && row.aircraft.value.name.Some? && row.aircraft.value.name.value != "" ==>
              MapFlight(row).aircraftName == row.aircraft.value.name.value
    ensures row.aircraft.Some? && (row.aircraft.value.registration.None? || row.aircraft.value.registration == Some("")) ==>
              MapFlight(row).aircraftRegistration == ""
    ensures row.aircraft.Some? && row.aircraft.value.registration.Some? ==>
              MapFlight(row).aircraftRegistration == row.aircraft.value.registration.value
    ensures MapFlight(row).aircraftName != ""
  {
  }

  /** The aircraft type is selected by the query but dropped by the row map:
      two rows that differ only in it map to the same flight. */
  lemma AircraftTypeDropped(row: FlightRow, t: Option<string>)
    requires row.aircraft.Some?
    ensures MapFlight(row.(aircraft := Some(row.aircraft.value.(aircraftType := t)))) == MapFlight(row)
  {
  }

  /** A negative factor is not replaced by the default. */
  lemma NegativeFactorKept(row: FlightRow, k: real)
    requires k < 0.0
    requires row.aircraft.Some? && row.aircraft.value.fuelTypes.Some?
    requires row.aircraft.value.fuelTypes.value.emissionFactor == Some(k)
    ensures MapFlight(row).emissionFactor == k
  {
  }
}
