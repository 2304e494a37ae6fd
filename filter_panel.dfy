/** The refinement panel: every control hands the results page a new FilterOptions value
    built from the current one, and the airline and cabin choices offered are the distinct
    values found in the itineraries, in order of first appearance. */
module FilterPanel {
  import opened FlightTypes
  import Seqs
  import FlightResults

  /** The names of the six fields of FilterOptions. */
  datatype FieldKey = PriceRangeKey | DurationRangeKey | MaxStopsKey | AirlinesKey | DepartureTimesKey | CabinClassKey

  /** A field name paired with a value of that field's type. */
  datatype FieldValue =
    | PriceRange(range: (int, int))
    | DurationRange(range: (int, int))
    | MaxStops(stops: int)
    | Airlines(codes: seq<string>)
    | DepartureTimes(slots: seq<string>)
    | CabinClass(classes: seq<string>)

  function KeyOf(v: FieldValue): FieldKey
  {
    match v
    case PriceRange(_) => PriceRangeKey
    case DurationRange(_) => DurationRangeKey
    case MaxStops(_) => MaxStopsKey
    case Airlines(_) => AirlinesKey
    case DepartureTimes(_) => DepartureTimesKey
    case CabinClass(_) => CabinClassKey
  }

  /** `filters[key]`, tagged with its key. */
  function Field(filters: FilterOptions, key: FieldKey): (v: FieldValue)
    ensures KeyOf(v) == key
  {
    match key
    case PriceRangeKey => PriceRange(filters.priceRange)
    case DurationRangeKey => DurationRange(filters.durationRange)
    case MaxStopsKey => MaxStops(filters.maxStops)
    case AirlinesKey => Airlines(filters.airlines)
    case DepartureTimesKey => DepartureTimes(filters.departureTimes)
    case CabinClassKey => CabinClass(filters.cabinClass)
  }

  /** Reading every field back gives the filters themselves. */
  lemma FieldsDetermineFilters(a: FilterOptions, b: FilterOptions)
    requires forall key :: Field(a, key) == Field(b, key)
    ensures a == b
  {
    assert Field(a, PriceRangeKey) == Field(b, PriceRangeKey);
    assert Field(a, DurationRangeKey) == Field(b, DurationRangeKey);
    assert Field(a, MaxStopsKey) == Field(b, MaxStopsKey);
    assert Field(a, AirlinesKey) == Field(b, AirlinesKey);
    assert Field(a, DepartureTimesKey) == Field(b, DepartureTimesKey);
    assert Field(a, CabinClassKey) == Field(b, CabinClassKey);
  }

  /** `{...filters, [key]: value}`: the named field takes the new value, every other field is kept. */
  function UpdateFilter(filters: FilterOptions, v: FieldValue): (r: FilterOptions)
    ensures Field(r, KeyOf(v)) == v
    ensures forall key :: key != KeyOf(v) ==> Field(r, key) == Field(filters, key)
  {
    match v
    case PriceRange(range) => filters.(priceRange := range)
    case DurationRange(range) => filters.(durationRange := range)
    case MaxStops(stops) => filters.(maxStops := stops)
    case Airlines(codes) => filters.(airlines := codes)
    case DepartureTimes(slots) => filters.(departureTimes := slots)
    case CabinClass(classes) => filters.(cabinClass := classes)
  }

  /** A second update of the same field overrides the first. */
  lemma UpdateSameFieldTwice(filters: FilterOptions, v: FieldValue, w: FieldValue)
    requires KeyOf(v) == KeyOf(w)
    ensures UpdateFilter(UpdateFilter(filters, v), w) == UpdateFilter(filters, w)
  {
    var a, b := UpdateFilter(UpdateFilter(filters, v), w), UpdateFilter(filters, w);
    forall key ensures Field(a, key) == Field(b, key) {
    }
    FieldsDetermineFilters(a, b);
  }

  /** Updates of different fields commute. */
  lemma UpdatesOfDifferentFieldsCommute(filters: FilterOptions, v: FieldValue, w: FieldValue)
    requires KeyOf(v) != KeyOf(w)
    ensures UpdateFilter(UpdateFilter(filters, v), w) == UpdateFilter(UpdateFilter(filters, w), v)
  {
    var a, b := UpdateFilter(UpdateFilter(filters, v), w), UpdateFilter(UpdateFilter(filters, w), v);
    forall key ensures Field(a, key) == Field(b, key) {
    }
    FieldsDetermineFilters(a, b);
  }

  /** Writing back a field's current value changes nothing. */
  lemma UpdateWithCurrentValue(filters: FilterOptions, key: FieldKey)
    ensures UpdateFilter(filters, Field(filters, key)) == filters
  {
    var a := UpdateFilter(filters, Field(filters, key));
    forall k ensures Field(a, k) == Field(filters, k) {
    }
    FieldsDetermineFilters(a, filters);
  }

  /** "Clear all" hands back the results page's initial filters. */
  function ClearAllFilters(): (r: FilterOptions)
    ensures r == FlightResults.InitialFilters()
    ensures r.priceRange == (0, 2000) && r.durationRange == (0, 24) && r.maxStops == 2
    ensures r.airlines == [] && r.departureTimes == [] && r.cabinClass == []
  {
    FilterOptions((0, 2000), (0, 24), 2, [], [], [])
  }

  /** After "clear all" an itinerary is shown iff its price is within 0..2000, its parsed
      duration (if any) at most 24 hours and it has at most two stops. */
  lemma ClearedFiltersKeep(f: FlightResult)
    ensures FlightResults.Keep(ClearAllFilters(), f) <==>
      0 <= f.price <= 2000 && (FlightResults.DurationHours(f).None? || FlightResults.DurationHours(f).value <= 24) &&
      f.totalStops <= 2
  {
    FlightResults.InitialFiltersKeep(f);
  }

  // ---------------------------------------------------------------------------
  // The controls
  // ---------------------------------------------------------------------------

  /** The lower price slider: the upper bound is carried over. */
  function SetMinPrice(filters: FilterOptions, v: int): (r: FilterOptions)
    ensures r.priceRange == (v, filters.priceRange.1)
    ensures forall key :: key != PriceRangeKey ==> Field(r, key) == Field(filters, key)
  {
    UpdateFilter(filters, PriceRange((v, filters.priceRange.1)))
  }

  /** The upper price slider: the lower bound is carried over. */
  function SetMaxPrice(filters: FilterOptions, v: int): (r: FilterOptions)
    ensures r.priceRange == (filters.priceRange.0, v)
    ensures forall key :: key != PriceRangeKey ==> Field(r, key) == Field(filters, key)
  {
    UpdateFilter(filters, PriceRange((filters.priceRange.0, v)))
  }

  /** The lower duration slider: the upper bound is carried over. */
  function SetMinDuration(filters: FilterOptions, v: int): (r: FilterOptions)
    ensures r.durationRange == (v, filters.durationRange.1)
    ensures forall key :: key != DurationRangeKey ==> Field(r, key) == Field(filters, key)
  {
    UpdateFilter(filters, DurationRange((v, filters.durationRange.1)))
  }

  /** The upper duration slider: the lower bound is carried over. */
  function SetMaxDuration(filters: FilterOptions, v: int): (r: FilterOptions)
    ensures r.durationRange == (filters.durationRange.0, v)
    ensures forall key :: key != DurationRangeKey ==> Field(r, key) == Field(filters, key)
  {
    UpdateFilter(filters, DurationRange((filters.durationRange.0, v)))
  }

  /** The sliders do not keep min <= max: crossed price bounds are accepted, and then no
      itinerary is shown at all. */
  lemma CrossedPriceSlidersShowNothing(filters: FilterOptions, lo: int, hi: int, flights: seq<FlightResult>)
    requires hi < lo
    ensures SetMinPrice(SetMaxPrice(filters, hi), lo).priceRange == (lo, hi)
    ensures FlightResults.Refine(SetMinPrice(SetMaxPrice(filters, hi), lo), flights) == []
  {
    var g := SetMinPrice(SetMaxPrice(filters, hi), lo);
    Seqs.FilterNone(FlightResults.Keeper(g), flights);
  }

  /** The three stop buttons. */
  const StopChoices: seq<int> := [0, 1, 2]

  /** Pressing stop button `button` sets maxStops to its number and nothing else. */
  function PressStopsButton(filters: FilterOptions, button: nat): (r: FilterOptions)
    requires button < |StopChoices|
    ensures r.maxStops == button && 0 <= r.maxStops <= 2
    ensures forall key :: key != MaxStopsKey ==> Field(r, key) == Field(filters, key)
  {
    UpdateFilter(filters, MaxStops(StopChoices[button]))
  }

  /** An airline checkbox: checking appends the code, unchecking removes every copy of it. */
  function CheckAirline(filters: FilterOptions, code: string, checked: bool): (r: FilterOptions)
    ensures checked ==> r.airlines == filters.airlines + [code]
    ensures !checked ==> r.airlines == Seqs.Without(filters.airlines, code)
    ensures !checked ==> (code !in r.airlines &&
                          forall c :: c != code ==> (c in r.airlines <==> c in filters.airlines))
    ensures forall key :: key != AirlinesKey ==> Field(r, key) == Field(filters, key)
  {
    UpdateFilter(filters, Airlines(Seqs.Check(filters.airlines, code, checked)))
  }

  /** A cabin-class checkbox: checking appends the class, unchecking removes every copy of it. */
  function CheckCabinClass(filters: FilterOptions, cabin: string, checked: bool): (r: FilterOptions)
    ensures checked ==> r.cabinClass == filters.cabinClass + [cabin]
    ensures !checked ==> r.cabinClass == Seqs.Without(filters.cabinClass, cabin)
    ensures !checked ==> (cabin !in r.cabinClass &&
                          forall c :: c != cabin ==> (c in r.cabinClass <==> c in filters.cabinClass))
    ensures forall key :: key != CabinClassKey ==> Field(r, key) == Field(filters, key)
  {
    UpdateFilter(filters, CabinClass(Seqs.Check(filters.cabinClass, cabin, checked)))
  }

  /** The four departure-time slots. */
  const TimeSlots: seq<string> := ["morning", "afternoon", "evening", "night"]

  /** A departure-time button: a selected slot is removed, an unselected one appended. */
  function ToggleDepartureTime(filters: FilterOptions, slot: string): (r: FilterOptions)
    ensures (slot in r.departureTimes) == (slot !in filters.departureTimes)
    ensures slot !in filters.departureTimes ==> r.departureTimes == filters.departureTimes + [slot]
    ensures slot in filters.departureTimes ==>
      r.departureTimes == Seqs.Without(filters.departureTimes, slot)
    ensures forall s :: s != slot ==> (s in r.departureTimes <==> s in filters.departureTimes)
    ensures forall key :: key != DepartureTimesKey ==> Field(r, key) == Field(filters, key)
  {
    UpdateFilter(filters, DepartureTimes(Seqs.Toggle(filters.departureTimes, slot)))
  }

  /** Pressing a slot button twice restores the selection. */
  lemma ToggleDepartureTimeTwice(filters: FilterOptions, slot: string)
    requires slot !in filters.departureTimes
    ensures ToggleDepartureTime(ToggleDepartureTime(filters, slot), slot) == filters
  {
    Seqs.ToggleTwiceAbsent(filters.departureTimes, slot);
  }

  /** Cabin and departure-time choices are recorded but the results page never reads them. */
  lemma CabinAndTimeChoicesDoNotChangeResults(filters: FilterOptions, cabin: string, checked: bool,
                                              slot: string, flights: seq<FlightResult>)
    ensures FlightResults.Refine(CheckCabinClass(filters, cabin, checked), flights) ==
            FlightResults.Refine(filters, flights)
    ensures FlightResults.Refine(ToggleDepartureTime(filters, slot), flights) ==
            FlightResults.Refine(filters, flights)
  {
    var c := CheckCabinClass(filters, cabin, checked);
    assert c == filters.(cabinClass := c.cabinClass, departureTimes := c.departureTimes);
    FlightResults.RefineIgnoresCabinAndTimes(filters, flights, c.cabinClass, c.departureTimes);
    var t := ToggleDepartureTime(filters, slot);
    assert t == filters.(cabinClass := t.cabinClass, departureTimes := t.departureTimes);
    FlightResults.RefineIgnoresCabinAndTimes(filters, flights, t.cabinClass, t.departureTimes);
  }

  /** Checking one more airline while some are checked can only widen the results. */
  lemma CheckingAnAirlineWidens(filters: FilterOptions, code: string, f: FlightResult)
    requires |filters.airlines| > 0 && FlightResults.Keep(filters, f)
    ensures FlightResults.Keep(CheckAirline(filters, code, true), f)
  {
    var a :| a in filters.airlines && a in AirlineCodes(f);
    assert a in filters.airlines + [code];
  }

  /** Checking the first airline narrows the results to the itineraries flown by it. */
  lemma CheckingFirstAirlineNarrows(filters: FilterOptions, code: string, f: FlightResult)
    requires filters.airlines == []
    ensures FlightResults.Keep(CheckAirline(filters, code, true), f) <==>
            FlightResults.Keep(filters, f) && code in AirlineCodes(f)
  {
    assert filters.airlines + [code] == [code];
    if code in AirlineCodes(f) {
      assert code in [code];
    }
  }

  // ---------------------------------------------------------------------------
  // The choices offered
  // ---------------------------------------------------------------------------

  /** Every leg's airline code, itinerary by itinerary, leg by leg. */
  function SegmentCodes(flights: seq<FlightResult>): (codes: seq<string>)
  {
    if flights == [] then []
    else SegmentCodes(flights[..|flights| - 1]) + AirlineCodes(flights[|flights| - 1])
  }

  /** A code occurs among the legs' codes iff some itinerary has a leg with it. */
  lemma {:induction false} SegmentCodesMembership(flights: seq<FlightResult>, code: string)
    ensures code in SegmentCodes(flights) <==> exists f :: f in flights && code in AirlineCodes(f)
  {
    if flights != [] {
      var init, last := flights[..|flights| - 1], flights[|flights| - 1];
      assert flights == init + [last];
      SegmentCodesMembership(init, code);
      if code in SegmentCodes(flights) && code !in AirlineCodes(last) {
        var f :| f in init && code in AirlineCodes(f);
        assert f in flights;
      }
    }
  }

  /** The Set of codes, `add`ed leg by leg and listed with `Array.from`. */
  method GetAvailableAirlines(flights: seq<FlightResult>) returns (r: seq<string>)
    ensures r == Seqs.Dedup(SegmentCodes(flights))
  {
    var seen: set<string> := {};
    r := [];
    for i := 0 to |flights|
      invariant r == Seqs.Dedup(SegmentCodes(flights[..i]))
      invariant seen == set c | c in r
    {
      r, seen := AddEach(SegmentCodes(flights[..i]), r, seen, AirlineCodes(flights[i]));
      assert flights[..i + 1][..i] == flights[..i];
    }
    assert flights[..|flights|] == flights;
  }

  /** The inner `forEach`: each item is added to the Set, and listed if it is new. */
  method AddEach(ghost added: seq<string>, r0: seq<string>, seen0: set<string>, items: seq<string>)
    returns (r: seq<string>, seen: set<string>)
    requires r0 == Seqs.Dedup(added) && seen0 == set c | c in r0
    ensures r == Seqs.Dedup(added + items) && seen == set c | c in r
  {
    r, seen := r0, seen0;
    ghost var done := added;
    for j := 0 to |items|
      invariant done == added + items[..j]
      invariant r == Seqs.Dedup(done)
      invariant seen == set c | c in r
    {
      AddLast(done, items[j]);
      if items[j] !in seen {
        seen := seen + {items[j]};
        r := r + [items[j]];
      }
      done := done + [items[j]];
      assert items[..j + 1] == items[..j] + [items[j]];
    }
    assert items[..|items|] == items;
  }

  /** Adding one element to the Set: it is listed last unless it was seen before. */
  lemma AddLast<T(!new)>(xs: seq<T>, x: T)
    ensures Seqs.Dedup(xs + [x]) ==
      if x in Seqs.Dedup(xs) then Seqs.Dedup(xs) else Seqs.Dedup(xs) + [x]
  {
    assert (xs + [x])[..|xs|] == xs;
  }

  /** The airlines offered: every code flown by some leg, each once, in order of first appearance. */
  lemma AvailableAirlinesSpec(flights: seq<FlightResult>)
    ensures forall code :: code in Seqs.Dedup(SegmentCodes(flights)) <==>
      exists f :: f in flights && code in AirlineCodes(f)
    ensures Seqs.NoDuplicates(Seqs.Dedup(SegmentCodes(flights)))
    ensures forall i, j :: 0 <= i < j < |Seqs.Dedup(SegmentCodes(flights))| ==>
      Seqs.FirstIndex(SegmentCodes(flights), Seqs.Dedup(SegmentCodes(flights))[i]) <
      Seqs.FirstIndex(SegmentCodes(flights), Seqs.Dedup(SegmentCodes(flights))[j])
  {
    forall code ensures code in Seqs.Dedup(SegmentCodes(flights)) <==>
      exists f :: f in flights && code in AirlineCodes(f)
    {
      SegmentCodesMembership(flights, code);
    }
    Seqs.DedupFirstOccurrenceOrder(SegmentCodes(flights));
  }

  /** Every itinerary's cabin class, in order. */
  function CabinClasses(flights: seq<FlightResult>): (classes: seq<string>)
    ensures |classes| == |flights|
    ensures forall i :: 0 <= i < |flights| ==> classes[i] == flights[i].cabinClass
  {
    seq(|flights|, i requires 0 <= i < |flights| => flights[i].cabinClass)
  }

  /** The Set of cabin classes, `add`ed itinerary by itinerary and listed with `Array.from`. */
  method GetAvailableCabinClasses(flights: seq<FlightResult>) returns (r: seq<string>)
    ensures r == Seqs.Dedup(CabinClasses(flights))
  {
    var seen: set<string> := {};
    r := [];
    ghost var done: seq<string> := [];
    for i := 0 to |flights|
      invariant done == CabinClasses(flights)[..i]
      invariant r == Seqs.Dedup(done)
      invariant seen == set c | c in r
    {
      var cabin := flights[i].cabinClass;
      AddLast(done, cabin);
      if cabin !in seen {
        seen := seen + {cabin};
        r := r + [cabin];
      }
      done := done + [cabin];
      assert CabinClasses(flights)[..i + 1] == CabinClasses(flights)[..i] + [cabin];
    }
    assert CabinClasses(flights)[..|flights|] == CabinClasses(flights);
  }

  /** The cabin classes offered: each class some itinerary has, once, in order of first appearance. */
  lemma AvailableCabinClassesSpec(flights: seq<FlightResult>)
    ensures forall c :: c in Seqs.Dedup(CabinClasses(flights)) <==> exists f :: f in flights && f.cabinClass == c
    ensures Seqs.NoDuplicates(Seqs.Dedup(CabinClasses(flights)))
    ensures forall i, j :: 0 <= i < j < |Seqs.Dedup(CabinClasses(flights))| ==>
      Seqs.FirstIndex(CabinClasses(flights), Seqs.Dedup(CabinClasses(flights))[i]) <
      Seqs.FirstIndex(CabinClasses(flights), Seqs.Dedup(CabinClasses(flights))[j])
  {
    forall c ensures c in Seqs.Dedup(CabinClasses(flights)) <==> exists f :: f in flights && f.cabinClass == c
    {
      if c in CabinClasses(flights) {
        var k :| 0 <= k < |flights| && CabinClasses(flights)[k] == c;
        assert flights[k] in flights;
      }
      if exists f :: f in flights && f.cabinClass == c {
        var f :| f in flights && f.cabinClass == c;
        var k :| 0 <= k < |flights| && flights[k] == f;
        assert CabinClasses(flights)[k] == c;
      }
    }
    Seqs.DedupFirstOccurrenceOrder(CabinClasses(flights));
  }
}
