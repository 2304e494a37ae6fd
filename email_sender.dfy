/** The text handed to a search agent: the readable forms of the criteria fields, the date and
    stopover lines that appear only for truthy fields, and the mail subject. */
module EmailSender {
  import opened FlightTypes
  import opened Numerals
  import Seqs

  /** The value the form stores for a flight type. */
  function FlightTypeValue(ft: FlightType): string
  {
    match ft
    case Direct => "direct"
    case OneStop => "oneStop"
    case TwoStops => "twoStops"
    case Cheapest => "cheapest"
  }

  const DirectText: string := "טיסות ישירות בלבד"
  const OneStopText: string := "עד עצירה אחת"
  const TwoStopsText: string := "עד שתי עצירות"
  const CheapestText: string := "הכי זול (כל האפשרויות)"

  /** `getFlightTypeText`: the four known values get fixed texts, anything else is echoed. */
  function FlightTypeText(flightType: string): (r: string)
    ensures flightType == "direct" ==> r == DirectText
    ensures flightType == "oneStop" ==> r == OneStopText
    ensures flightType == "twoStops" ==> r == TwoStopsText
    ensures flightType == "cheapest" ==> r == CheapestText
    ensures flightType !in {"direct", "oneStop", "twoStops", "cheapest"} ==> r == flightType
  {
    if flightType == "direct" then DirectText
    else if flightType == "oneStop" then OneStopText
    else if flightType == "twoStops" then TwoStopsText
    else if flightType == "cheapest" then CheapestText
    else flightType
  }

  /** Every flight type the form can store is described, never echoed, and different types
      are described differently. */
  lemma FlightTypeTextDescribesEveryType(ft: FlightType, other: FlightType)
    ensures FlightTypeText(FlightTypeValue(ft)) in {DirectText, OneStopText, TwoStopsText, CheapestText}
    ensures FlightTypeText(FlightTypeValue(ft)) != FlightTypeValue(ft)
    ensures ft != other ==> FlightTypeText(FlightTypeValue(ft)) != FlightTypeText(FlightTypeValue(other))
  {
  }

  /** The Hebrew name of a week day. */
  function DayName(day: WeekDay): string
  {
    match day
    case Sunday => "ראשון"
    case Monday => "שני"
    case Tuesday => "שלישי"
    case Wednesday => "רביעי"
    case Thursday => "חמישי"
    case Friday => "שישי"
    case Saturday => "שבת"
  }

  /** Different days have different names, and no name holds a comma. */
  lemma DayNameInjective(a: WeekDay, b: WeekDay)
    ensures DayName(a) == DayName(b) ==> a == b
    ensures ',' !in DayName(a)
  {
  }

  function DayNames(days: seq<WeekDay>): (names: seq<string>)
    ensures |names| == |days|
    ensures forall i :: 0 <= i < |days| ==> names[i] == DayName(days[i])
  {
    seq(|days|, i requires 0 <= i < |days| => DayName(days[i]))
  }

  const NoDayLimitText: string := "אין מגבלות ימים"

  /** `getBlockedDaysText`: a fixed text when no day is blocked, else the day names in input
      order separated by ", ". */
  function BlockedDaysText(days: seq<WeekDay>): (r: string)
    ensures days == [] ==> r == NoDayLimitText
    ensures days != [] ==> r == Seqs.Join(DayNames(days), ", ")
  {
    if |days| == 0 then NoDayLimitText else Seqs.Join(DayNames(days), ", ")
  }

  /** The day names can be read back from the text, in order. */
  lemma {:induction false} BlockedDaysTextRoundTrip(days: seq<WeekDay>)
    requires days != []
    ensures Seqs.Split(BlockedDaysText(days), ", ") == DayNames(days)
  {
    var names := DayNames(days);
    forall i | 0 <= i < |names|
      ensures ", "[0] !in names[i]
    {
      DayNameInjective(days[i], days[i]);
    }
    Seqs.SplitJoin(names, ", ");
  }

  /** The text determines the blocked days, including their order and repetitions. */
  lemma BlockedDaysTextInjective(a: seq<WeekDay>, b: seq<WeekDay>)
    requires BlockedDaysText(a) == BlockedDaysText(b)
    ensures a == b
  {
    if a != [] {
      SomeBlockedDayIsNamed(a);
    }
    if b != [] {
      SomeBlockedDayIsNamed(b);
    }
    if a != [] && b != [] {
      BlockedDaysTextRoundTrip(a);
      BlockedDaysTextRoundTrip(b);
      forall i | 0 <= i < |a|
        ensures a[i] == b[i]
      {
        assert DayNames(a)[i] == DayNames(b)[i];
        DayNameInjective(a[i], b[i]);
      }
    }
  }

  /** A non-empty list of blocked days never reads as the no-limit text: it starts with a
      day name, and no day name starts the way that text does. */
  lemma SomeBlockedDayIsNamed(days: seq<WeekDay>)
    requires days != []
    ensures BlockedDaysText(days) != NoDayLimitText
  {
    var names := DayNames(days);
    assert names[0] == DayName(days[0]) && names[0] != [] && names[0][0] != NoDayLimitText[0];
    if |names| > 1 {
      assert Seqs.Join(names, ", ") == names[0] + ", " + Seqs.Join(names[1..], ", ");
    }
    assert Seqs.Join(names, ", ")[0] == names[0][0];
  }

  const AllAirlinesText: string := "כל חברות התעופה"

  /** `getAirlinesText`: a fixed text for no airline, else the codes separated by ", ". */
  function AirlinesText(codes: seq<string>): (r: string)
    ensures codes == [] ==> r == AllAirlinesText
    ensures codes != [] ==> r == Seqs.Join(codes, ", ")
  {
    if |codes| == 0 then AllAirlinesText else Seqs.Join(codes, ", ")
  }

  /** Codes without commas can be read back from the text. */
  lemma AirlinesTextRoundTrip(codes: seq<string>)
    requires codes != []
    requires forall i :: 0 <= i < |codes| ==> ',' !in codes[i]
    ensures Seqs.Split(AirlinesText(codes), ", ") == codes
  {
    Seqs.SplitJoin(codes, ", ");
  }

  /** The trip type as the prompt writes it. */
  function TripTypeText(t: TripType): (r: string)
    ensures r == "הלוך-חזור" <==> t == RoundTrip
    ensures t == OneWay ==> r == "חד כיוונית"
  {
    if t == RoundTrip then "הלוך-חזור" else "חד כיוונית"
  }

  /** A flag as the prompt writes it. */
  function YesNo(b: bool): (r: string)
    ensures r == "כן" <==> b
    ensures !b ==> r == "לא"
  {
    if b then "כן" else "לא"
  }

  // ---------------------------------------------------------------------------
  // Lines that appear only for a truthy field
  // ---------------------------------------------------------------------------

  /** JavaScript truthiness of an optional string and an optional number. */
  predicate TruthyText(s: Option<string>)
  {
    s.Some? && s.value != ""
  }

  predicate TruthyNumber(n: Option<int>)
  {
    n.Some? && n.value != 0
  }

  /** A line: its caption, then the value; absent fields give the empty line. */
  function Line(present: bool, caption: string, value: string): (r: string)
    requires caption != ""
    ensures r == "" <==> !present
    ensures present ==> r == caption + value
  {
    if present then caption + value else ""
  }

  /** The departure-date line, with the date formatted by the locale formatter. */
  function DepartureDateLine(c: SearchCriteria, formatDate: string -> string): (r: string)
    ensures r == "" <==> c.departureDate == ""
  {
    Line(c.departureDate != "", "* **תאריך יציאה:** ", formatDate(c.departureDate))
  }

  /** The return-date line. */
  function ReturnDateLine(c: SearchCriteria, formatDate: string -> string): (r: string)
    ensures r == "" <==> !TruthyText(c.returnDate)
  {
    Line(TruthyText(c.returnDate), "* **תאריך חזרה:** ",
         if c.returnDate.Some? then formatDate(c.returnDate.value) else "")
  }

  /** The stay-length line: absent for a missing or zero duration. */
  function TripDurationLine(c: SearchCriteria): (r: string)
    ensures r == "" <==> !TruthyNumber(c.tripDuration)
  {
    Line(TruthyNumber(c.tripDuration), "* **משך השהייה:** ",
         if c.tripDuration.Some? then IntToString(c.tripDuration.value) + " ימים" else "")
  }

  /** The flexibility line: absent for a missing or zero flexibility. */
  function DurationFlexibilityLine(c: SearchCriteria): (r: string)
    ensures r == "" <==> !TruthyNumber(c.durationFlexibility)
  {
    Line(TruthyNumber(c.durationFlexibility), "* **גמישות משך:** ±",
         if c.durationFlexibility.Some? then IntToString(c.durationFlexibility.value) + " ימים" else "")
  }

  /** The stopover-days line: present exactly when stopovers are allowed. */
  function StopoverDaysLine(c: SearchCriteria): (r: string)
    ensures r == "" <==> !c.stopovers.allowed
  {
    Line(c.stopovers.allowed, "* **מקסימום ימי עצירה:** ", IntToString(c.stopovers.maxDays) + " ימים")
  }

  /** A zero stay length is falsy: no line, exactly as if no length were given. */
  lemma ZeroTripDurationHasNoLine(c: SearchCriteria)
    ensures TripDurationLine(c.(tripDuration := Some(0))) == TripDurationLine(c.(tripDuration := None)) == ""
  {
  }

  /** The stay-length line shows the number of days, which can be read back from it. */
  lemma TripDurationLineShowsDays(c: SearchCriteria, n: nat)
    requires c.tripDuration == Some(n) && n != 0
    ensures var caption := "* **משך השהייה:** ";
      && TripDurationLine(c)[..|caption|] == caption
      && var digits := TripDurationLine(c)[|caption|..|TripDurationLine(c)| - |" ימים"|];
         AllDigits(digits) && DigitsValue(digits) == n
  {
    var caption := "* **משך השהייה:** ";
    var line := TripDurationLine(c);
    assert line == caption + NatToString(n) + " ימים";
    assert line[|caption|..|line| - |" ימים"|] == NatToString(n);
    NatToStringRoundTrip(n);
  }

  // ---------------------------------------------------------------------------
  // The mail subject
  // ---------------------------------------------------------------------------

  const SubjectPrefix: string := "חיפוש טיסות: "
  const RouteArrow: string := " → "

  /** The mailto subject: the prefix, the origin, an arrow and the destination. */
  function Subject(c: SearchCriteria): (r: string)
    ensures |r| == |SubjectPrefix| + |c.origin| + |RouteArrow| + |c.destination|
    ensures r[..|SubjectPrefix|] == SubjectPrefix
    ensures r[|SubjectPrefix|..|SubjectPrefix| + |c.origin|] == c.origin
    ensures r[|SubjectPrefix| + |c.origin|..|SubjectPrefix| + |c.origin| + |RouteArrow|] == RouteArrow
    ensures r[|r| - |c.destination|..] == c.destination
  {
    SubjectPrefix + c.origin + RouteArrow + c.destination
  }

  /** The subject names the route unambiguously when the origin holds no arrow. */
  lemma SubjectDeterminesRoute(c: SearchCriteria, d: SearchCriteria)
    requires '→' !in c.origin && '→' !in d.origin
    requires Subject(c) == Subject(d)
    ensures c.origin == d.origin && c.destination == d.destination
  {
    if |c.origin| < |d.origin| {
      ArrowAfterOrigin(c, d);
    } else if |d.origin| < |c.origin| {
      ArrowAfterOrigin(d, c);
    }
    assert |c.origin| == |d.origin|;
    assert c.origin == Subject(c)[|SubjectPrefix|..|SubjectPrefix| + |c.origin|];
    assert d.origin == Subject(d)[|SubjectPrefix|..|SubjectPrefix| + |d.origin|];
    assert |c.destination| == |d.destination|;
  }

  /** The arrow right after a shorter origin would have to fall inside the longer one. */
  lemma ArrowAfterOrigin(c: SearchCriteria, d: SearchCriteria)
    requires '→' !in d.origin
    requires |c.origin| < |d.origin|
    ensures Subject(c) != Subject(d)
  {
    var k := |SubjectPrefix| + |c.origin| + 1;
    assert Subject(c)[k] == '→';
    if |c.origin| + 1 < |d.origin| {
      assert Subject(d)[k] == d.origin[|c.origin| + 1];
    } else {
      assert Subject(d)[k] == ' ';
    }
  }
}
