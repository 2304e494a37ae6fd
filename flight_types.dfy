/** The records of the flight search UI: what the user asks for (SearchCriteria),
    what an itinerary looks like (FlightResult) and the refinement panel's state
    (FilterOptions). Numbers the UI treats as JavaScript numbers are integers here. */
module FlightTypes {

  datatype Option<T> = None | Some(value: T)

  datatype TripType = OneWay | RoundTrip

  datatype FlightType = Direct | OneStop | TwoStops | Cheapest

  datatype WeekDay = Sunday | Monday | Tuesday | Wednesday | Thursday | Friday | Saturday

  datatype Stopover = Stopover(allowed: bool, maxDays: int)

  /** A search request. The optional fields of the TypeScript interface are Options. */
  datatype SearchCriteria = SearchCriteria(
    destination: string,
    origin: string,
    tripType: TripType,
    departureDate: string,
    returnDate: Option<string>,
    dateFlexibility: int,
    flightType: FlightType,
    maxBudget: int,
    tripDuration: Option<int>,
    durationFlexibility: Option<int>,
    blockedDays: seq<WeekDay>,
    preferredAirlines: seq<string>,
    blockedAirlines: seq<string>,
    mixedAirlines: bool,
    stopovers: Stopover)

  /** One end of a flight leg. */
  datatype Endpoint = Endpoint(airport: string, airportCode: string, time: string, date: string)

  /** One non-stop leg of an itinerary. */
  datatype FlightSegment = FlightSegment(
    airline: string,
    airlineCode: string,
    flightNumber: string,
    departure: Endpoint,
    arrival: Endpoint,
    duration: string,
    stops: int,
    aircraft: string)

  /** One bookable itinerary; `totalStops` and `isDirect` are stored, not derived. */
  datatype FlightResult = FlightResult(
    id: string,
    price: int,
    currency: string,
    totalDuration: string,
    segments: seq<FlightSegment>,
    isDirect: bool,
    totalStops: int,
    departureDate: string,
    returnDate: Option<string>,
    bookingUrl: string,
    airlineLogos: seq<string>,
    pricePerPerson: bool,
    cabinClass: string,
    refundable: bool,
    changeable: bool,
    baggageIncluded: bool)

  /** The refinement panel's filter state; the ranges are [low, high] pairs. */
  datatype FilterOptions = FilterOptions(
    priceRange: (int, int),
    durationRange: (int, int),
    maxStops: int,
    airlines: seq<string>,
    departureTimes: seq<string>,
    cabinClass: seq<string>)

  datatype PopularDestination = PopularDestination(name: string, code: string, country: string, image: string)

  datatype Airline = Airline(name: string, code: string, logo: string, rating: real)

  /** `flight.segments.map(segment => segment.airlineCode)`. */
  function AirlineCodes(f: FlightResult): (codes: seq<string>)
    ensures |codes| == |f.segments|
    ensures forall i :: 0 <= i < |codes| ==> codes[i] == f.segments[i].airlineCode
  {
    seq(|f.segments|, i requires 0 <= i < |f.segments| => f.segments[i].airlineCode)
  }

  /** `codes.some(airline => flightAirlines.includes(airline))`: some leg is flown by one of codes. */
  predicate FlownByAnyOf(f: FlightResult, codes: seq<string>)
  {
    exists a :: a in codes && a in AirlineCodes(f)
  }
}
