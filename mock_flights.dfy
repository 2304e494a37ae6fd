/** The static itinerary fixture the search runs against (mockFlights.ts),
    with the popular destinations and the airline list the search form offers. */
module MockFlights {
  import opened FlightTypes

  /** The ten sample itineraries, in the order the data file lists them. */
  function Flights(): seq<FlightResult>
  {
    [Itinerary1(), Itinerary2(), Itinerary3(), Itinerary4(), Itinerary5(), Itinerary6(), Itinerary7(), Itinerary8(), Itinerary9(), Itinerary10()]
  }

  function Itinerary1(): FlightResult
  {
    FlightResult("1", 450, "", "4h 30m",
      [
      FlightSegment("", "LY", "",
        Endpoint("", "", "08:00", ""),
        Endpoint("", "", "11:30", ""),
        "", 0, "")
      ],
      true, 0, "2025-02-15", None, "",
      [],
      true, "Economy", false, true, true)
  }

  function Itinerary2(): FlightResult
  {
    FlightResult("2", 380, "", "6h 15m",
      [
      FlightSegment("", "TK", "",
        Endpoint("", "", "14:30", ""),
        Endpoint("", "", "16:45", ""),
        "", 0, ""),
      FlightSegment("", "TK", "",
        Endpoint("", "", "18:30", ""),
        Endpoint("", "", "22:45", ""),
        "", 0, "")
      ],
      false, 1, "2025-02-15", None, "",
      [],
      true, "Economy", true, true, true)
  }

  function Itinerary3(): FlightResult
  {
    FlightResult("3", 520, "", "5h 45m",
      [
      FlightSegment("", "LH", "",
        Endpoint("", "", "06:15", ""),
        Endpoint("", "", "09:30", ""),
        "", 0, ""),
      FlightSegment("", "LH", "",
        Endpoint("", "", "11:45", ""),
        Endpoint("", "", "15:00", ""),
        "", 0, "")
      ],
      false, 1, "2025-02-15", None, "",
      [],
      true, "Economy", false, false, false)
  }

  function Itinerary4(): FlightResult
  {
    FlightResult("4", 650, "", "7h 20m",
      [
      FlightSegment("", "BA", "",
        Endpoint("", "", "12:00", ""),
        Endpoint("", "", "15:30", ""),
        "", 0, ""),
      FlightSegment("", "BA", "",
        Endpoint("", "", "17:45", ""),
        Endpoint("", "", "21:20", ""),
        "", 0, "")
      ],
      false, 1, "2025-02-15", None, "",
      [],
      true, "Economy", true, true, true)
  }

  function Itinerary5(): FlightResult
  {
    FlightResult("5", 320, "", "8h 45m",
      [
      FlightSegment("", "EK", "",
        Endpoint("", "", "03:30", ""),
        Endpoint("", "", "07:15", ""),
        "", 0, ""),
      FlightSegment("", "EK", "",
        Endpoint("", "", "09:30", ""),
        Endpoint("", "", "15:15", ""),
        "", 0, "")
      ],
      false, 1, "2025-02-15", None, "",
      [],
      true, "Economy", false, true, true)
  }

  function Itinerary6(): FlightResult
  {
    FlightResult("6", 750, "", "4h 15m",
      [
      FlightSegment("", "LY", "",
        Endpoint("", "", "22:00", ""),
        Endpoint("", "", "02:15", ""),
        "", 0, "")
      ],
      true, 0, "2025-02-15", None, "",
      [],
      true, "Business", true, true, true)
  }

  function Itinerary7(): FlightResult
  {
    FlightResult("7", 280, "", "9h 30m",
      [
      FlightSegment("", "QR", "",
        Endpoint("", "", "01:45", ""),
        Endpoint("", "", "05:30", ""),
        "", 0, ""),
      FlightSegment("", "QR", "",
        Endpoint("", "", "07:15", ""),
        Endpoint("", "", "13:15", ""),
        "", 0, "")
      ],
      false, 1, "2025-02-15", None, "",
      [],
      true, "Economy", true, true, true)
  }

  function Itinerary8(): FlightResult
  {
    FlightResult("8", 420, "", "6h 45m",
      [
      FlightSegment("", "AF", "",
        Endpoint("", "", "10:30", ""),
        Endpoint("", "", "14:15", ""),
        "", 0, ""),
      FlightSegment("", "AF", "",
        Endpoint("", "", "16:30", ""),
        Endpoint("", "", "19:15", ""),
        "", 0, "")
      ],
      false, 1, "2025-02-15", None, "",
      [],
      true, "Economy", false, true, false)
  }

  function Itinerary9(): FlightResult
  {
    FlightResult("9", 890, "", "4h 00m",
      [
      FlightSegment("", "LY", "",
        Endpoint("", "", "16:00", ""),
        Endpoint("", "", "20:00", ""),
        "", 0, "")
      ],
      true, 0, "2025-02-15", None, "",
      [],
      true, "First", true, true, true)
  }

  function Itinerary10(): FlightResult
  {
    FlightResult("10", 310, "", "10h 15m",
      [
      FlightSegment("", "AA", "",
        Endpoint("", "", "02:00", ""),
        Endpoint("", "", "05:30", ""),
        "", 0, ""),
      FlightSegment("", "AA", "",
        Endpoint("", "", "08:00", ""),
        Endpoint("", "", "11:15", ""),
        "", 0, "")
      ],
      false, 1, "2025-02-15", None, "",
      [],
      true, "Economy", false, false, false)
  }

  function PopularDestinations(): seq<PopularDestination>
  {
    [
      PopularDestination("תל אביב", "TLV", "ישראל", ""),
      PopularDestination("ניו יורק", "JFK", "ארה\"ב", ""),
      PopularDestination("לונדון", "LHR", "בריטניה", ""),
      PopularDestination("פריז", "CDG", "צרפת", ""),
      PopularDestination("רומא", "FCO", "איטליה", ""),
      PopularDestination("טוקיו", "NRT", "יפן", ""),
      PopularDestination("בנגקוק", "BKK", "תאילנד", ""),
      PopularDestination("דובאי", "DXB", "איחוד האמירויות", "")
    ]
  }

  /** The carriers listed by the preferred and blocked airline checkboxes. */
  function Airlines(): seq<Airline>
  {
    [
      Airline("אל על", "LY", "", 4.2),
      Airline("Turkish Airlines", "TK", "", 4.5),
      Airline("Lufthansa", "LH", "", 4.3),
      Airline("British Airways", "BA", "", 4.1),
      Airline("Air France", "AF", "", 4.0),
      Airline("Emirates", "EK", "", 4.6),
      Airline("Qatar Airways", "QR", "", 4.7),
      Airline("American Airlines", "AA", "", 3.8)
    ]
  }
}
