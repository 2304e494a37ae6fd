/** The search page: the first-pass match of a submitted SearchCriteria against
    the itinerary fixture, and the view state that switches between the search
    form and the results. */
module AppContent {
  import opened FlightTypes
  import Seqs
  import MockFlights

  /** The predicate handed to `mockFlights.filter`: every check must pass.
      A zero budget is falsy in JavaScript and skips the budget check. */
  predicate Matches(c: SearchCriteria, f: FlightResult)
  {
    && !(c.maxBudget != 0 && f.price > c.maxBudget)
    && !(c.flightType == Direct && !f.isDirect)
    && !(c.flightType == OneStop && f.totalStops > 1)
    && !(c.flightType == TwoStops && f.totalStops > 2)
    && !(|c.preferredAirlines| > 0 && !FlownByAnyOf(f, c.preferredAirlines))
    && !(|c.blockedAirlines| > 0 && FlownByAnyOf(f, c.blockedAirlines))
  }

  function Matcher(c: SearchCriteria): FlightResult -> bool
  {
    f => Matches(c, f)
  }

  /** The first-pass match: the candidates that pass every check, in their original order. */
  function MatchFlights(c: SearchCriteria, candidates: seq<FlightResult>): (r: seq<FlightResult>)
    ensures forall f :: f in r ==> f in candidates
    ensures forall f :: f in r && c.maxBudget != 0 ==> f.price <= c.maxBudget
    ensures forall f :: f in r && c.flightType == Direct ==> f.isDirect
    ensures forall f :: f in r && c.flightType == OneStop ==> f.totalStops <= 1
    ensures forall f :: f in r && c.flightType == TwoStops ==> f.totalStops <= 2
    ensures forall f :: f in r && |c.preferredAirlines| > 0 ==>
      exists a :: a in c.preferredAirlines && a in AirlineCodes(f)
    ensures forall f :: f in r && |c.blockedAirlines| > 0 ==>
      forall a :: a in c.blockedAirlines ==> a !in AirlineCodes(f)
  {
    Seqs.Filter(Matcher(c), candidates)
  }

  /** The match is exactly the ordered selection of the candidates that pass:
      a subsequence of the input, keeping every copy of a passing itinerary and
      no copy of a failing one. */
  lemma MatchIsOrderedSelection(c: SearchCriteria, candidates: seq<FlightResult>)
    ensures Seqs.SubseqOf(MatchFlights(c, candidates), candidates)
    ensures forall f :: f in MatchFlights(c, candidates) <==> f in candidates && Matches(c, f)
    ensures forall f :: multiset(MatchFlights(c, candidates))[f] ==
                        if Matches(c, f) then multiset(candidates)[f] else 0
  {
    Seqs.FilterIsSubseq(Matcher(c), candidates);
    forall f ensures multiset(MatchFlights(c, candidates))[f] ==
      if Matches(c, f) then multiset(candidates)[f] else 0
    {
      Seqs.FilterMultiplicity(Matcher(c), candidates, f);
    }
  }

  /** An empty candidate list gives an empty result, whatever the criteria. */
  lemma MatchNoCandidates(c: SearchCriteria)
    ensures MatchFlights(c, []) == []
  {
  }

  /** With a zero budget the price of an itinerary never matters. */
  lemma ZeroBudgetIgnoresPrice(c: SearchCriteria, f: FlightResult, price: int)
    requires c.maxBudget == 0
    ensures Matches(c, f.(price := price)) == Matches(c, f)
  {
    assert AirlineCodes(f.(price := price)) == AirlineCodes(f);
  }

  /** 'cheapest' imposes no stop constraint: stops and directness never matter. */
  lemma CheapestIgnoresStops(c: SearchCriteria, f: FlightResult, stops: int, direct: bool)
    requires c.flightType == Cheapest
    ensures Matches(c, f.(totalStops := stops, isDirect := direct)) == Matches(c, f)
  {
    assert AirlineCodes(f.(totalStops := stops, isDirect := direct)) == AirlineCodes(f);
  }

  /** With a single wanted code, "flown by any of" is plain membership. */
  lemma FlownByOne(f: FlightResult, code: string)
    ensures FlownByAnyOf(f, [code]) <==> code in AirlineCodes(f)
  {
    if code in AirlineCodes(f) {
      assert code in [code];
    }
  }

  /** Criteria with the given budget, flight type and preferred airlines and no other constraint. */
  function Request(budget: int, flightType: FlightType, preferred: seq<string>): SearchCriteria
  {
    SearchCriteria("", "", RoundTrip, "", None, 0, flightType, budget, None, None,
                   [], preferred, [], false, Stopover(false, 0))
  }

  function Ids(flights: seq<FlightResult>): (ids: seq<string>)
    ensures |ids| == |flights|
    ensures forall i :: 0 <= i < |flights| ==> ids[i] == flights[i].id
  {
    seq(|flights|, i requires 0 <= i < |flights| => flights[i].id)
  }

  lemma IdsOfThree(a: FlightResult, b: FlightResult, c: FlightResult)
    ensures Ids([a, b, c]) == [a.id, b.id, c.id]
  {
  }

  /** The direct itineraries of the fixture cost 450, 750 and 890, so none fits a budget of 400. */
  lemma DirectUnder400IsEmpty()
    ensures MatchFlights(Request(400, Direct, []), MockFlights.Flights()) == []
  {
    var fl := MockFlights.Flights();
    var p := Matcher(Request(400, Direct, []));
    assert !p(fl[0]);
    assert !p(fl[1]);
    assert !p(fl[2]);
    assert !p(fl[3]);
    assert !p(fl[4]);
    assert !p(fl[5]);
    assert !p(fl[6]);
    assert !p(fl[7]);
    assert !p(fl[8]);
    assert !p(fl[9]);
    Seqs.FilterNone(p, fl);
  }

  function ElAlRequest(): SearchCriteria
  {
    Request(2000, Cheapest, ["LY"])
  }

  /** Preferring El Al ('LY') with a 2000 budget selects itineraries 1, 6 and 9 of the fixture, in that order. */
  lemma ElAlPreferredSelection()
    ensures MatchFlights(ElAlRequest(), MockFlights.Flights()) ==
            [MockFlights.Itinerary1(), MockFlights.Itinerary6(), MockFlights.Itinerary9()]
  {
    ElAlVerdictsFirstHalf();
    ElAlVerdictsSecondHalf();
    var fl := MockFlights.Flights();
    var p := Matcher(ElAlRequest());
    assert p(fl[0]) && !p(fl[1]) && !p(fl[2]) && !p(fl[3]) && !p(fl[4]);
    assert p(fl[5]) && !p(fl[6]) && !p(fl[7]) && p(fl[8]) && !p(fl[9]);
    KeepFirstSixthNinth(p, fl);
  }

  /** ... whose ids are '1', '6' and '9'. */
  lemma ElAlPreferredFindsThree()
    ensures Ids(MatchFlights(ElAlRequest(), MockFlights.Flights())) == ["1", "6", "9"]
  {
    ElAlPreferredSelection();
    var it1, it6, it9 := MockFlights.Itinerary1(), MockFlights.Itinerary6(), MockFlights.Itinerary9();
    assert it1.id == "1" && it6.id == "6" && it9.id == "9";
    IdsOfThree(it1, it6, it9);
  }

  /** The El Al request's verdict on the first five itineraries of the fixture. */
  lemma ElAlVerdictsFirstHalf()
    ensures Matches(ElAlRequest(), MockFlights.Itinerary1())
    ensures !Matches(ElAlRequest(), MockFlights.Itinerary2())
    ensures !Matches(ElAlRequest(), MockFlights.Itinerary3())
    ensures !Matches(ElAlRequest(), MockFlights.Itinerary4())
    ensures !Matches(ElAlRequest(), MockFlights.Itinerary5())
  {
    ElAlVerdict(MockFlights.Itinerary1());
    ElAlVerdict(MockFlights.Itinerary2());
    ElAlVerdict(MockFlights.Itinerary3());
    ElAlVerdict(MockFlights.Itinerary4());
    ElAlVerdict(MockFlights.Itinerary5());
  }

  /** The El Al request's verdict on the last five itineraries of the fixture. */
  lemma ElAlVerdictsSecondHalf()
    ensures Matches(ElAlRequest(), MockFlights.Itinerary6())
    ensures !Matches(ElAlRequest(), MockFlights.Itinerary7())
    ensures !Matches(ElAlRequest(), MockFlights.Itinerary8())
    ensures Matches(ElAlRequest(), MockFlights.Itinerary9())
    ensures !Matches(ElAlRequest(), MockFlights.Itinerary10())
  {
    ElAlVerdict(MockFlights.Itinerary6());
    ElAlVerdict(MockFlights.Itinerary7());
    ElAlVerdict(MockFlights.Itinerary8());
    ElAlVerdict(MockFlights.Itinerary9());
    ElAlVerdict(MockFlights.Itinerary10());
  }

  /** The El Al request's verdict on an affordable itinerary flown by a single carrier. */
  lemma ElAlVerdict(f: FlightResult)
    requires f.price <= 2000 && f.segments != []
    requires forall j :: 0 <= j < |f.segments| ==> f.segments[j].airlineCode == f.segments[0].airlineCode
    ensures Matches(ElAlRequest(), f) <==> f.segments[0].airlineCode == "LY"
  {
    FlownByOne(f, "LY");
    assert AirlineCodes(f)[0] == f.segments[0].airlineCode;
  }

  /** Filtering ten candidates of which exactly the first, sixth and ninth pass. */
  lemma KeepFirstSixthNinth(p: FlightResult -> bool, fl: seq<FlightResult>)
    requires |fl| == 10
    requires p(fl[0]) && !p(fl[1]) && !p(fl[2]) && !p(fl[3]) && !p(fl[4])
    requires p(fl[5]) && !p(fl[6]) && !p(fl[7]) && p(fl[8]) && !p(fl[9])
    ensures Seqs.Filter(p, fl) == [fl[0], fl[5], fl[8]]
  {
    var a, b, c := fl[..5], fl[5..8], fl[8..];
    assert fl == a + b + c;
    Seqs.FilterFirstOnly(p, a);
    Seqs.FilterFirstOnly(p, b);
    Seqs.FilterFirstOnly(p, c);
    Seqs.FilterAppend(p, a + b, c);
    Seqs.FilterAppend(p, a, b);
  }

  datatype View = FormView | ResultsView

  /** The page's state cells. Invariant: the form shows no criteria and no flights;
      the results show the match of the stored criteria against the fixture. */
  class AppState {
    var currentView: View
    var searchCriteria: Option<SearchCriteria>
    var isLoading: bool
    var flights: seq<FlightResult>

    ghost predicate Valid()
      reads this
    {
      && (currentView == FormView ==> searchCriteria == None && flights == [])
      && (currentView == ResultsView ==>
            searchCriteria.Some? && flights == MatchFlights(searchCriteria.value, MockFlights.Flights()))
    }

    constructor ()
      ensures Valid()
      ensures currentView == FormView && searchCriteria == None && !isLoading && flights == []
    {
      currentView := FormView;
      searchCriteria := None;
      isLoading := false;
      flights := [];
    }

    /** A search, taken as one atomic update once the simulated delay has elapsed. */
    method HandleSearch(criteria: SearchCriteria)
      modifies this
      ensures Valid()
      ensures currentView == ResultsView && !isLoading
      ensures searchCriteria == Some(criteria)
      ensures flights == MatchFlights(criteria, MockFlights.Flights())
    {
      searchCriteria := Some(criteria);
      isLoading := true;
      var filtered := MatchFlights(criteria, MockFlights.Flights());
      flights := filtered;
      isLoading := false;
      currentView := ResultsView;
    }

    /** Back to the form: criteria and results are discarded; the loading flag is left alone. */
    method HandleBackToSearch()
      modifies this
      ensures Valid()
      ensures currentView == FormView && searchCriteria == None && flights == []
      ensures isLoading == old(isLoading)
    {
      currentView := FormView;
      searchCriteria := None;
      flights := [];
    }
  }
}
