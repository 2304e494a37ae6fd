/** The results page: the refinement filter over the matched itineraries, the
    duration parse it relies on, and the sort by one of four keys in either
    direction, performed in place on a fresh array as `Array.prototype.sort` does. */
module FlightResults {
  import opened FlightTypes
  import opened Numerals
  import Seqs

  // ---------------------------------------------------------------------------
  // The duration parse: parseFloat(totalDuration.replace('h', '').replace('m', ''))
  // ---------------------------------------------------------------------------

  /** `s.replace(c, '')` with a one-character pattern: only the first occurrence goes. */
  function ReplaceFirst(s: string, c: char): (r: string)
    ensures c !in s ==> r == s
    ensures c in s ==> |r| == |s| - 1
  {
    if s == [] then []
    else if s[0] == c then s[1..]
    else
      assert c in s ==> c in s[1..];
      [s[0]] + ReplaceFirst(s[1..], c)
  }

  /** The occurrence removed is the first one: what precedes it and what follows it are kept. */
  lemma {:induction false} ReplaceFirstRemovesFirst(pre: string, c: char, post: string)
    requires c !in pre
    ensures ReplaceFirst(pre + [c] + post, c) == pre + post
  {
    var s := pre + [c] + post;
    if pre != [] {
      assert s[0] == pre[0] != c;
      assert s[1..] == pre[1..] + [c] + post;
      assert ReplaceFirst(s, c) == [pre[0]] + ReplaceFirst(pre[1..] + [c] + post, c);
      ReplaceFirstRemovesFirst(pre[1..], c, post);
      assert [pre[0]] + (pre[1..] + post) == pre + post;
    } else {
      assert s == [c] + post;
    }
  }

  /** The white space parseFloat skips before the number (the ASCII part of it). */
  predicate IsSpace(ch: char)
  {
    ch == ' ' || ch == '\t' || ch == '\n' || ch == '\r' || ch == '\U{B}' || ch == '\U{C}'
  }

  /** The text after the leading white space. */
  function SkipSpaces(s: string): (r: string)
    ensures |r| <= |s| && r == s[|s| - |r|..]
    ensures forall i :: 0 <= i < |s| - |r| ==> IsSpace(s[i])
    ensures r == [] || !IsSpace(r[0])
  {
    if s != [] && IsSpace(s[0]) then SkipSpaces(s[1..]) else s
  }

  /** The longest prefix made of decimal digits. */
  function LeadingDigits(s: string): (r: string)
    ensures |r| <= |s| && r == s[..|r|]
    ensures AllDigits(r)
    ensures |r| < |s| ==> !IsDigit(s[|r|])
  {
    if s != [] && IsDigit(s[0]) then [s[0]] + LeadingDigits(s[1..]) else []
  }

  /** parseFloat restricted to what the durations contain: white space, then a
      run of digits; no digits at all is NaN (None). */
  function ParseLeadingNumber(s: string): (r: Option<nat>)
    ensures r.None? <==> (SkipSpaces(s) == [] || !IsDigit(SkipSpaces(s)[0]))
  {
    var digits := LeadingDigits(SkipSpaces(s));
    if digits == [] then None else Some(DigitsValue(digits))
  }

  /** The hour count the results page filters and sorts by. */
  function DurationHours(f: FlightResult): Option<nat>
  {
    ParseLeadingNumber(ReplaceFirst(ReplaceFirst(f.totalDuration, 'h'), 'm'))
  }

  /** A duration written "<H>h <M>m" parses as H: the minutes never count. */
  lemma {:induction false} StandardDurationHours(f: FlightResult, hs: string, ms: string)
    requires hs != [] && AllDigits(hs) && AllDigits(ms)
    requires f.totalDuration == hs + "h " + ms + "m"
    ensures DurationHours(f) == Some(DigitsValue(hs))
  {
    HourMarkRemoved(hs, ms);
    MinuteMarkRemoved(hs, ms);
    HoursBeforeSpace(hs, ms);
  }

  lemma {:induction false} HourMarkRemoved(hs: string, ms: string)
    requires hs != [] && AllDigits(hs) && AllDigits(ms)
    ensures ReplaceFirst(hs + "h " + ms + "m", 'h') == hs + " " + ms + "m"
  {
    assert 'h' !in hs by {
      forall i | 0 <= i < |hs| ensures hs[i] != 'h' {
        assert IsDigit(hs[i]);
      }
    }
    ReplaceFirstRemovesFirst(hs, 'h', " " + ms + "m");
    assert hs + "h " + ms + "m" == hs + ['h'] + (" " + ms + "m");
    var spaced := hs + " " + ms;
    assert hs + (" " + ms + "m") == spaced + "m";
  }

  lemma {:induction false} MinuteMarkRemoved(hs: string, ms: string)
    requires AllDigits(hs) && AllDigits(ms)
    ensures ReplaceFirst(hs + " " + ms + "m", 'm') == hs + " " + ms
  {
    var spaced := hs + " " + ms;
    assert 'm' !in spaced by {
      forall i | 0 <= i < |spaced| ensures spaced[i] != 'm' {
        if i < |hs| {
          assert IsDigit(hs[i]);
        } else if i > |hs| {
          assert spaced[i] == ms[i - |hs| - 1] && IsDigit(ms[i - |hs| - 1]);
        }
      }
    }
    ReplaceFirstRemovesFirst(spaced, 'm', []);
    assert spaced + ['m'] + [] == spaced + "m";
  }

  lemma {:induction false} HoursBeforeSpace(hs: string, ms: string)
    requires hs != [] && AllDigits(hs)
    ensures ParseLeadingNumber(hs + " " + ms) == Some(DigitsValue(hs))
  {
    var spaced := hs + " " + ms;
    assert !IsSpace(spaced[0]) by {
      assert IsDigit(hs[0]);
    }
    LeadingDigitsOfPrefix(hs, " " + ms);
    assert spaced == hs + (" " + ms);
  }

  /** The digit run of a digit string followed by a non-digit is that digit string. */
  lemma {:induction false} LeadingDigitsOfPrefix(ds: string, rest: string)
    requires AllDigits(ds) && rest != [] && !IsDigit(rest[0])
    ensures LeadingDigits(ds + rest) == ds
  {
    if ds != [] {
      assert (ds + rest)[0] == ds[0] && (ds + rest)[1..] == ds[1..] + rest;
      LeadingDigitsOfPrefix(ds[1..], rest);
      assert [ds[0]] + ds[1..] == ds;
    } else {
      assert ds + rest == rest;
    }
  }

  /** "4h 30m" counts as 4 hours: the half hour is dropped. */
  lemma HalfHourDropped(f: FlightResult)
    requires f.totalDuration == "4h 30m"
    ensures DurationHours(f) == Some(4)
  {
    var hs, ms := "4", "30";
    assert hs != [] && AllDigits(hs) && AllDigits(ms) && f.totalDuration == hs + "h " + ms + "m" by {
      assert forall i :: 0 <= i < |ms| ==> IsDigit(ms[i]);
    }
    assert DigitsValue(hs) == 4 by {
      assert hs[..0] == "";
    }
    StandardDurationHours(f, hs, ms);
  }

  /** "10h 15m" counts as 10 hours: both hour digits are read. */
  lemma TwoDigitHours(f: FlightResult)
    requires f.totalDuration == "10h 15m"
    ensures DurationHours(f) == Some(10)
  {
    var hs, ms := "10", "15";
    assert hs != [] && AllDigits(hs) && AllDigits(ms) && f.totalDuration == hs + "h " + ms + "m" by {
      assert forall i :: 0 <= i < |ms| ==> IsDigit(ms[i]);
    }
    assert DigitsValue(hs) == 10 by {
      assert hs[..1] == "1" && "1"[..0] == "";
    }
    StandardDurationHours(f, hs, ms);
  }

  /** Without the space the hours and minutes run together: "<H>h<M>m" counts as
      the number HM, so "4h30m" would count as 430 hours. */
  lemma {:induction false} CompactDurationRunsTogether(f: FlightResult, hs: string, ms: string)
    requires hs != [] && AllDigits(hs) && AllDigits(ms)
    requires f.totalDuration == hs + "h" + ms + "m"
    ensures AllDigits(hs + ms) && DurationHours(f) == Some(DigitsValue(hs + ms))
  {
    var joined := hs + ms;
    assert AllDigits(joined) by {
      forall i | 0 <= i < |joined| ensures IsDigit(joined[i]) {
        if i >= |hs| {
          assert joined[i] == ms[i - |hs|];
        }
      }
    }
    var noHours := ReplaceFirst(f.totalDuration, 'h');
    assert noHours == joined + "m" by {
      assert 'h' !in hs by {
        forall i | 0 <= i < |hs| ensures hs[i] != 'h' {
          assert IsDigit(hs[i]);
        }
      }
      assert f.totalDuration == hs + ['h'] + (ms + "m");
      ReplaceFirstRemovesFirst(hs, 'h', ms + "m");
      assert hs + (ms + "m") == joined + "m";
    }
    var digits := ReplaceFirst(noHours, 'm');
    assert digits == joined by {
      assert 'm' !in joined by {
        forall i | 0 <= i < |joined| ensures joined[i] != 'm' {
          assert IsDigit(joined[i]);
        }
      }
      assert noHours == joined + ['m'] + [];
      ReplaceFirstRemovesFirst(joined, 'm', []);
      assert joined + [] == joined;
    }
    assert !IsSpace(joined[0]) by {
      assert IsDigit(joined[0]);
    }
    LeadingDigitsOfDigits(joined);
  }

  /** A digit string is its own digit run. */
  lemma {:induction false} LeadingDigitsOfDigits(ds: string)
    requires AllDigits(ds)
    ensures LeadingDigits(ds) == ds
  {
    if ds != [] {
      LeadingDigitsOfDigits(ds[1..]);
      assert [ds[0]] + ds[1..] == ds;
    }
  }

  // ---------------------------------------------------------------------------
  // The refinement filter
  // ---------------------------------------------------------------------------

  /** The filter state the results page starts with. */
  function InitialFilters(): FilterOptions
  {
    FilterOptions((0, 2000), (0, 24), 2, [], [], [])
  }

  /** The duration check: an unparsable duration (NaN) fails both comparisons and passes. */
  predicate DurationInRange(f: FlightResult, range: (int, int))
  {
    match DurationHours(f)
    case None => true
    case Some(h) => !(h < range.0 || h > range.1)
  }

  /** The predicate handed to `flights.filter` on the results page, checks in source order. */
  predicate Keep(filters: FilterOptions, f: FlightResult)
  {
    && !(f.price < filters.priceRange.0 || f.price > filters.priceRange.1)
    && DurationInRange(f, filters.durationRange)
    && !(f.totalStops > filters.maxStops)
    && !(|filters.airlines| > 0 && !FlownByAnyOf(f, filters.airlines))
  }

  function Keeper(filters: FilterOptions): FlightResult -> bool
  {
    f => Keep(filters, f)
  }

  /** The refined list: the itineraries inside every bound, in their original order. */
  function Refine(filters: FilterOptions, flights: seq<FlightResult>): (r: seq<FlightResult>)
    ensures forall f :: f in r ==> f in flights
    ensures forall f :: f in r ==> filters.priceRange.0 <= f.price <= filters.priceRange.1
    ensures forall f :: f in r && DurationHours(f).Some? ==>
      filters.durationRange.0 <= DurationHours(f).value <= filters.durationRange.1
    ensures forall f :: f in r ==> f.totalStops <= filters.maxStops
    ensures forall f :: f in r && |filters.airlines| > 0 ==>
      exists a :: a in filters.airlines && a in AirlineCodes(f)
  {
    Seqs.Filter(Keeper(filters), flights)
  }

  /** The refined list is exactly the ordered selection of the itineraries that pass. */
  lemma RefineIsOrderedSelection(filters: FilterOptions, flights: seq<FlightResult>)
    ensures Seqs.SubseqOf(Refine(filters, flights), flights)
    ensures forall f :: f in Refine(filters, flights) <==> f in flights && Keep(filters, f)
    ensures forall f :: multiset(Refine(filters, flights))[f] ==
                        (if Keep(filters, f) then multiset(flights)[f] else 0)
  {
    Seqs.FilterIsSubseq(Keeper(filters), flights);
    forall f ensures multiset(Refine(filters, flights))[f] ==
                     (if Keep(filters, f) then multiset(flights)[f] else 0)
    {
      Seqs.FilterMultiplicity(Keeper(filters), flights, f);
    }
  }

  /** An itinerary whose duration does not parse is never excluded by the duration range. */
  lemma UnparsedDurationIgnoresRange(filters: FilterOptions, f: FlightResult, range: (int, int))
    requires DurationHours(f).None?
    ensures Keep(filters.(durationRange := range), f) == Keep(filters, f)
  {
  }

  /** The airline list acts only as a required overlap: an itinerary passes exactly when it
      passes with no airline selected and, if airlines are selected, some leg is flown by one. */
  lemma AirlineFilterIsOverlap(filters: FilterOptions, f: FlightResult)
    ensures Keep(filters, f) <==>
      Keep(filters.(airlines := []), f) &&
      (|filters.airlines| == 0 || exists a :: a in filters.airlines && a in AirlineCodes(f))
  {
  }

  /** With the initial filters an itinerary is kept exactly when it costs 0..2000, takes at most
      24 hours (or has no readable duration) and stops at most twice, whatever its airlines. */
  lemma InitialFiltersKeep(f: FlightResult)
    ensures Keep(InitialFilters(), f) <==>
      0 <= f.price <= 2000 && (DurationHours(f).None? || DurationHours(f).value <= 24) && f.totalStops <= 2
  {
  }

  /** The cabin-class and departure-time selections never change the refined list. */
  lemma RefineIgnoresCabinAndTimes(filters: FilterOptions, flights: seq<FlightResult>,
                                   cabins: seq<string>, times: seq<string>)
    ensures Refine(filters.(cabinClass := cabins, departureTimes := times), flights) == Refine(filters, flights)
  {
    var other := filters.(cabinClass := cabins, departureTimes := times);
    forall i | 0 <= i < |flights|
      ensures Keeper(other)(flights[i]) == Keeper(filters)(flights[i])
    {
      assert Keep(other, flights[i]) == Keep(filters, flights[i]);
    }
    Seqs.FilterAgree(Keeper(other), Keeper(filters), flights);
  }

  // ---------------------------------------------------------------------------
  // Sorting
  // ---------------------------------------------------------------------------

  datatype SortOption = Price | Duration | Departure | AirlineName

  datatype SortDirection = Asc | Desc

  /** The direction toggle: 'asc' becomes 'desc' and the other way round. */
  function Flip(d: SortDirection): (r: SortDirection)
    ensures r != d
  {
    if d == Asc then Desc else Asc
  }

  lemma FlipTwice(d: SortDirection)
    ensures Flip(Flip(d)) == d
  {
  }

  /** A sort key: a number, or a string compared the way JavaScript compares strings. */
  datatype Key = Num(n: int) | Text(s: string)

  /** The keys that read the first leg, which the source dereferences unguarded. */
  predicate NeedsLeg(option: SortOption)
  {
    option == Departure || option == AirlineName
  }

  /** The first leg's departure time and airline name; an itinerary without legs makes the
      source throw, which KeysDefined below rules out, so the empty text here is never compared. */
  function FirstLegDepartureTime(f: FlightResult): string
  {
    if f.segments == [] then "" else f.segments[0].departure.time
  }

  function FirstLegAirline(f: FlightResult): string
  {
    if f.segments == [] then "" else f.segments[0].airline
  }

  /** The value the comparator reads from an itinerary. An unreadable duration (NaN)
      is taken as 0; the departure instant is compared as its "YYYY-MM-DD HH:MM" text. */
  function SortKey(option: SortOption, f: FlightResult): Key
  {
    match option
    case Price => Num(f.price)
    case Duration => Num(match DurationHours(f) case Some(h) => h case None => 0)
    case Departure => Text(f.departureDate + " " + FirstLegDepartureTime(f))
    case AirlineName => Text(FirstLegAirline(f))
  }

  /** Lexicographic order on strings: a proper prefix comes first. */
  predicate LexLe(a: string, b: string)
  {
    a == [] || (b != [] && (a[0] < b[0] || (a[0] == b[0] && LexLe(a[1..], b[1..]))))
  }

  lemma {:induction false} LexLeTotal(a: string, b: string)
    ensures LexLe(a, b) || LexLe(b, a)
  {
    if a != [] && b != [] && a[0] == b[0] {
      LexLeTotal(a[1..], b[1..]);
    }
  }

  lemma {:induction false} LexLeTransitive(a: string, b: string, c: string)
    requires LexLe(a, b) && LexLe(b, c)
    ensures LexLe(a, c)
  {
    if a != [] && b != [] && c != [] && a[0] == b[0] && b[0] == c[0] {
      LexLeTransitive(a[1..], b[1..], c[1..]);
    }
  }

  /** `x <= y` on keys; numbers before strings, a case that never arises for one sort option. */
  predicate KeyLe(x: Key, y: Key)
  {
    match (x, y)
    case (Num(m), Num(n)) => m <= n
    case (Text(s), Text(t)) => LexLe(s, t)
    case (Num(_), Text(_)) => true
    case (Text(_), Num(_)) => false
  }

  /** The comparator reads `segments[0]` for the departure and airline keys, and a sort of
      two or more itineraries compares every one of them, so each needs a first leg. */
  predicate KeysDefined(option: SortOption, s: seq<FlightResult>)
  {
    NeedsLeg(option) && |s| >= 2 ==> forall i :: 0 <= i < |s| ==> s[i].segments != []
  }

  /** x may precede y: the comparator (`a > b ? 1 : -1` ascending, `a < b ? 1 : -1`
      descending) does not ask for x to move behind y. */
  predicate InOrder(option: SortOption, dir: SortDirection, x: FlightResult, y: FlightResult)
  {
    if dir == Asc then KeyLe(SortKey(option, x), SortKey(option, y))
    else KeyLe(SortKey(option, y), SortKey(option, x))
  }

  function Precedes(option: SortOption, dir: SortDirection): (FlightResult, FlightResult) -> bool
  {
    (x, y) => InOrder(option, dir, x, y)
  }

  /** Every pair is ordered one way or the other. */
  ghost predicate Total<T(!new)>(le: (T, T) -> bool)
  {
    forall x, y :: le(x, y) || le(y, x)
  }

  /** The order chains. */
  ghost predicate Transitive<T(!new)>(le: (T, T) -> bool)
  {
    forall x, y, z :: le(x, y) && le(y, z) ==> le(x, z)
  }

  ghost predicate TotalPreorder<T(!new)>(le: (T, T) -> bool)
  {
    Total(le) && Transitive(le)
  }

  lemma PrecedesIsTotalPreorder(option: SortOption, dir: SortDirection)
    ensures TotalPreorder(Precedes(option, dir))
  {
    forall x, y ensures InOrder(option, dir, x, y) || InOrder(option, dir, y, x) {
      match (SortKey(option, x), SortKey(option, y))
      case (Text(s), Text(t)) => LexLeTotal(s, t);
      case _ =>
    }
    forall x, y, z | InOrder(option, dir, x, y) && InOrder(option, dir, y, z)
      ensures InOrder(option, dir, x, z)
    {
      match (SortKey(option, x), SortKey(option, y), SortKey(option, z))
      case (Text(s), Text(t), Text(u)) =>
        if dir == Asc { LexLeTransitive(s, t, u); } else { LexLeTransitive(u, t, s); }
      case _ =>
    }
  }

  /** Every itinerary may precede every later one. */
  predicate Sorted(option: SortOption, dir: SortDirection, s: seq<FlightResult>)
  {
    forall i, j :: 0 <= i < j < |s| ==> InOrder(option, dir, s[i], s[j])
  }

  /** `filtered.sort(comparator)` for the chosen key and direction. */
  method SortFlights(a: array<FlightResult>, option: SortOption, dir: SortDirection)
    requires KeysDefined(option, a[..])
    modifies a
    ensures Sorted(option, dir, a[..])
    ensures multiset(a[..]) == multiset(old(a[..]))
  {
    PrecedesIsTotalPreorder(option, dir);
    SortInPlace(a, Precedes(option, dir));
  }

  /** An insertion sort in place under any total preorder. */
  method SortInPlace<T(!new)>(a: array<T>, le: (T, T) -> bool)
    requires TotalPreorder(le)
    modifies a
    ensures forall i, j :: 0 <= i < j < a.Length ==> le(a[i], a[j])
    ensures multiset(a[..]) == multiset(old(a[..]))
  {
    var i := 0;
    while i < a.Length
      invariant 0 <= i <= a.Length
      invariant multiset(a[..]) == multiset(old(a[..]))
      invariant OrderedBelow(a[..], i, le)
    {
      InsertLast(a, i, le);
      i := i + 1;
    }
    AdjacentOrderChains(a[..], le);
  }

  /** The neighbours below index j are in order. */
  ghost predicate OrderedBelow<T(!new)>(s: seq<T>, j: nat, le: (T, T) -> bool)
    requires j <= |s|
  {
    forall k :: 0 < k < j ==> le(s[k - 1], s[k])
  }

  /** The neighbours from j up to index i are in order. */
  ghost predicate OrderedBetween<T(!new)>(s: seq<T>, j: nat, i: nat, le: (T, T) -> bool)
    requires i < |s|
  {
    forall k :: j < k <= i ==> le(s[k - 1], s[k])
  }

  /** One pass: a[i] is swapped down while it must move behind its left neighbour,
      after which a[..i + 1] is in order. */
  method InsertLast<T(!new)>(a: array<T>, i: nat, le: (T, T) -> bool)
    requires i < a.Length && Total(le)
    requires OrderedBelow(a[..], i, le)
    modifies a
    ensures OrderedBelow(a[..], i + 1, le)
    ensures multiset(a[..]) == multiset(old(a[..]))
  {
    var j := i;
    while j > 0 && !le(a[j - 1], a[j])
      invariant 0 <= j <= i
      invariant multiset(a[..]) == multiset(old(a[..]))
      invariant OrderedBelow(a[..], j, le) && OrderedBetween(a[..], j, i, le)
      invariant 0 < j < i ==> le(a[j - 1], a[j + 1])
    {
      SwapDown(a[..], j, i, le);
      a[j - 1], a[j] := a[j], a[j - 1];
      j := j - 1;
    }
  }

  /** Swapping an out-of-order pair (j - 1, j) moves the gap in the order one place down
      and keeps the elements. */
  lemma SwapDown<T(!new)>(s: seq<T>, j: nat, i: nat, le: (T, T) -> bool)
    requires 0 < j <= i < |s| && Total(le)
    requires OrderedBelow(s, j, le) && OrderedBetween(s, j, i, le)
    requires j < i ==> le(s[j - 1], s[j + 1])
    requires !le(s[j - 1], s[j])
    ensures var t := s[j - 1 := s[j]][j := s[j - 1]];
      && OrderedBelow(t, j - 1, le) && OrderedBetween(t, j - 1, i, le)
      && (1 < j ==> le(t[j - 2], t[j]))
      && multiset(t) == multiset(s)
  {
    assert le(s[j], s[j - 1]);
  }

  /** Order between neighbours is order throughout. */
  lemma {:induction false} AdjacentOrderChains<T(!new)>(s: seq<T>, le: (T, T) -> bool)
    requires Transitive(le)
    requires forall k :: 0 < k < |s| ==> le(s[k - 1], s[k])
    ensures forall i, j :: 0 <= i < j < |s| ==> le(s[i], s[j])
  {
    forall i, j | 0 <= i < j < |s|
      ensures le(s[i], s[j])
    {
      var k := i + 1;
      while k < j
        invariant i < k <= j
        invariant le(s[i], s[k])
      {
        k := k + 1;
      }
    }
  }

  /** The memoised list on the results page: the refinement, then the sort, on a fresh array. */
  method SortedAndFilteredFlights(flights: seq<FlightResult>, filters: FilterOptions,
                                  option: SortOption, dir: SortDirection)
    returns (r: seq<FlightResult>)
    requires KeysDefined(option, Refine(filters, flights))
    ensures Sorted(option, dir, r)
    ensures multiset(r) == multiset(Refine(filters, flights))
    ensures forall f :: f in r <==> f in flights && Keep(filters, f)
  {
    var filtered := Refine(filters, flights);
    var a := new FlightResult[|filtered|](i requires 0 <= i < |filtered| => filtered[i]);
    assert a[..] == filtered;
    SortFlights(a, option, dir);
    r := a[..];
    RefineIsOrderedSelection(filters, flights);
    assert forall f :: f in r <==> f in multiset(r);
  }

  /** Under price ascending the first itinerary shown is a cheapest one. */
  lemma FirstIsCheapest(s: seq<FlightResult>)
    requires Sorted(Price, Asc, s) && s != []
    ensures forall f :: f in s ==> s[0].price <= f.price
  {
    forall f | f in s
      ensures s[0].price <= f.price
    {
      var k :| 0 <= k < |s| && s[k] == f;
      if k > 0 {
        assert InOrder(Price, Asc, s[0], s[k]);
      }
    }
  }

  /** Under price descending the first itinerary shown is a dearest one. */
  lemma FirstIsDearest(s: seq<FlightResult>)
    requires Sorted(Price, Desc, s) && s != []
    ensures forall f :: f in s ==> f.price <= s[0].price
  {
    forall f | f in s
      ensures f.price <= s[0].price
    {
      var k :| 0 <= k < |s| && s[k] == f;
      if k > 0 {
        assert InOrder(Price, Desc, s[0], s[k]);
      }
    }
  }

  function Reverse<T>(s: seq<T>): (r: seq<T>)
    ensures |r| == |s|
    ensures forall i :: 0 <= i < |s| ==> r[i] == s[|s| - 1 - i]
  {
    seq(|s|, i requires 0 <= i < |s| => s[|s| - 1 - i])
  }

  /** Toggling the direction of a sorted list reverses it, up to the order of equal keys:
      the reversed list is sorted the other way. */
  lemma ReversedIsSortedTheOtherWay(option: SortOption, dir: SortDirection, s: seq<FlightResult>)
    requires Sorted(option, dir, s)
    ensures Sorted(option, Flip(dir), Reverse(s))
  {
    var r := Reverse(s);
    forall i, j | 0 <= i < j < |r|
      ensures InOrder(option, Flip(dir), r[i], r[j])
    {
      assert InOrder(option, dir, s[|s| - 1 - j], s[|s| - 1 - i]);
    }
  }

  /** The results page's own state cells over the itineraries it was given. */
  class ResultsPage {
    const flights: seq<FlightResult>
    var showFilters: bool
    var sortBy: SortOption
    var sortDirection: SortDirection
    var filters: FilterOptions

    /** Panel hidden, cheapest first, the initial filters. */
    constructor (flights: seq<FlightResult>)
      ensures this.flights == flights
      ensures !showFilters && sortBy == Price && sortDirection == Asc && filters == InitialFilters()
    {
      this.flights := flights;
      showFilters := false;
      sortBy := Price;
      sortDirection := Asc;
      filters := InitialFilters();
    }

    method ToggleSortDirection()
      modifies this
      ensures sortDirection == Flip(old(sortDirection))
      ensures sortBy == old(sortBy) && filters == old(filters) && showFilters == old(showFilters)
    {
      sortDirection := Flip(sortDirection);
    }

    /** The sort-key selector. */
    method SetSortBy(option: SortOption)
      modifies this
      ensures sortBy == option
      ensures sortDirection == old(sortDirection) && filters == old(filters) && showFilters == old(showFilters)
    {
      sortBy := option;
    }

    /** The filter panel's change callback. */
    method SetFilters(newFilters: FilterOptions)
      modifies this
      ensures filters == newFilters
      ensures sortBy == old(sortBy) && sortDirection == old(sortDirection) && showFilters == old(showFilters)
    {
      filters := newFilters;
    }

    /** The filter button shows or hides the panel. */
    method ToggleFilters()
      modifies this
      ensures showFilters == !old(showFilters)
      ensures sortBy == old(sortBy) && sortDirection == old(sortDirection) && filters == old(filters)
    {
      showFilters := !showFilters;
    }

    /** The list rendered: what SortedAndFilteredFlights makes of the current state. */
    method Displayed() returns (r: seq<FlightResult>)
      requires KeysDefined(sortBy, Refine(filters, flights))
      ensures Sorted(sortBy, sortDirection, r)
      ensures multiset(r) == multiset(Refine(filters, flights))
    {
      r := SortedAndFilteredFlights(flights, filters, sortBy, sortDirection);
    }
  }
}
