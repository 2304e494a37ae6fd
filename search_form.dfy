/** The four-step search form: a step counter bounded to 1..4, the form's values with their
    defaults, the required-field rules checked on submit, and the list controls that edit
    the values (blocked days, preferred and blocked airlines, the quick-pick destinations). */
module SearchForm {
  import opened FlightTypes
  import Seqs
  import MockFlights

  /** `steps.length`: basic details, dates, preferences, advanced. */
  const StepCount: int := 4

  /** `nextStep`: one step forward unless already at the last step. */
  function NextOf(step: int): (r: int)
    ensures 1 <= step <= StepCount ==> 1 <= r <= StepCount
    ensures r == step || (step < StepCount && r == step + 1)
    ensures 1 <= step < StepCount ==> r == step + 1
  {
    if step < StepCount then step + 1 else step
  }

  /** `prevStep`: one step back unless already at the first step. */
  function PrevOf(step: int): (r: int)
    ensures 1 <= step <= StepCount ==> 1 <= r <= StepCount
    ensures r == step || (step > 1 && r == step - 1)
    ensures 1 < step <= StepCount ==> r == step - 1
  {
    if step > 1 then step - 1 else step
  }

  /** A click on "next" (true) or "previous" (false). */
  function Run(step: int, clicks: seq<bool>): int
    decreases |clicks|
  {
    if clicks == [] then step
    else Run(if clicks[0] then NextOf(step) else PrevOf(step), clicks[1..])
  }

  /** However the buttons are pressed, the step stays within 1..4. */
  lemma {:induction false} RunStaysInRange(step: int, clicks: seq<bool>)
    requires 1 <= step <= StepCount
    ensures 1 <= Run(step, clicks) <= StepCount
    decreases |clicks|
  {
    if clicks != [] {
      RunStaysInRange(if clicks[0] then NextOf(step) else PrevOf(step), clicks[1..]);
    }
  }

  function Repeat(click: bool, n: nat): (r: seq<bool>)
    ensures |r| == n && forall i :: 0 <= i < n ==> r[i] == click
  {
    if n == 0 then [] else [click] + Repeat(click, n - 1)
  }

  /** n clicks on "next" reach step min(step + n, 4): the counter saturates at the last step. */
  lemma {:induction false} NextClicksSaturate(step: int, n: nat)
    requires 1 <= step <= StepCount
    ensures Run(step, Repeat(true, n)) == if step + n <= StepCount then step + n else StepCount
    decreases n
  {
    if n > 0 {
      assert Repeat(true, n)[1..] == Repeat(true, n - 1);
      NextClicksSaturate(NextOf(step), n - 1);
    }
  }

  /** n clicks on "previous" reach step max(step - n, 1): the counter saturates at the first step. */
  lemma {:induction false} PrevClicksSaturate(step: int, n: nat)
    requires 1 <= step <= StepCount
    ensures Run(step, Repeat(false, n)) == if step - n >= 1 then step - n else 1
    decreases n
  {
    if n > 0 {
      assert Repeat(false, n)[1..] == Repeat(false, n - 1);
      PrevClicksSaturate(PrevOf(step), n - 1);
    }
  }

  /** "previous" undoes "next" everywhere except at the last step. */
  lemma PrevUndoesNext(step: int)
    requires 1 <= step < StepCount
    ensures PrevOf(NextOf(step)) == step
  {
  }

  /** The right-hand button: "next" before the last step, the submit button at it. */
  datatype PrimaryButton = NextButton | SubmitButton

  function PrimaryButtonAt(step: int): (b: PrimaryButton)
    ensures b == SubmitButton <==> step >= StepCount
  {
    if step < StepCount then NextButton else SubmitButton
  }

  /** Within the form's range the search can be submitted only from step 4. */
  lemma SubmitOnlyAtLastStep(step: int)
    requires 1 <= step <= StepCount
    ensures PrimaryButtonAt(step) == SubmitButton <==> step == 4
  {
  }

  /** The "previous" button is disabled exactly at the first step, where it would do nothing. */
  predicate PrevDisabled(step: int)
  {
    step == 1
  }

  lemma PrevDisabledWhereIdle(step: int)
    requires 1 <= step <= StepCount
    ensures PrevDisabled(step) <==> PrevOf(step) == step
  {
  }

  /** The values the form opens with. An empty return date is a present but empty string. */
  function Defaults(): (c: SearchCriteria)
    ensures c.tripType == RoundTrip && c.flightType == Cheapest && c.maxBudget == 1000
    ensures c.blockedDays == [] && c.preferredAirlines == [] && c.blockedAirlines == []
    ensures c.origin == "" && c.destination == "" && c.departureDate == ""
  {
    SearchCriteria("", "", RoundTrip, "", Some(""), 1, Cheapest, 1000, Some(7), Some(2),
                   [], [], [], false, Stopover(false, 3))
  }

  /** The fields the form refuses to submit empty. */
  datatype RequiredField = OriginField | DestinationField | DepartureDateField | ReturnDateField

  /** The `required` rules: origin, destination and departure date always; the return date
      only for a round trip. A missing optional value counts as empty. */
  function MissingFields(c: SearchCriteria): (r: seq<RequiredField>)
    ensures OriginField in r <==> c.origin == ""
    ensures DestinationField in r <==> c.destination == ""
    ensures DepartureDateField in r <==> c.departureDate == ""
    ensures ReturnDateField in r <==> c.tripType == RoundTrip && (c.returnDate == None || c.returnDate == Some(""))
  {
    (if c.origin == "" then [OriginField] else [])
    + (if c.destination == "" then [DestinationField] else [])
    + (if c.departureDate == "" then [DepartureDateField] else [])
    + (if c.tripType == RoundTrip && (c.returnDate == None || c.returnDate == Some("")) then [ReturnDateField] else [])
  }

  predicate Submittable(c: SearchCriteria)
  {
    MissingFields(c) == []
  }

  /** A one-way trip never needs a return date. */
  lemma OneWayIgnoresReturnDate(c: SearchCriteria, d: Option<string>)
    requires c.tripType == OneWay
    ensures Submittable(c.(returnDate := d)) <==> Submittable(c)
  {
    if !Submittable(c) {
      assert MissingFields(c)[0] in MissingFields(c);
    }
    if !Submittable(c.(returnDate := d)) {
      assert MissingFields(c.(returnDate := d))[0] in MissingFields(c.(returnDate := d));
    }
  }

  /** The defaults cannot be submitted as they are: all four required fields are empty. */
  lemma DefaultsNeedAllFour()
    ensures MissingFields(Defaults()) == [OriginField, DestinationField, DepartureDateField, ReturnDateField]
  {
  }

  /** The blocked-day buttons: a blocked day is released, a free one appended. */
  function ToggleBlockedDay(c: SearchCriteria, day: WeekDay): (r: SearchCriteria)
    ensures (day in r.blockedDays) == (day !in c.blockedDays)
    ensures day !in c.blockedDays ==> r.blockedDays == c.blockedDays + [day]
    ensures day in c.blockedDays ==> r.blockedDays == Seqs.Without(c.blockedDays, day)
    ensures forall d :: d != day ==> (d in r.blockedDays <==> d in c.blockedDays)
    ensures r == c.(blockedDays := r.blockedDays)
  {
    c.(blockedDays := Seqs.Toggle(c.blockedDays, day))
  }

  /** A preferred-airline checkbox: checking appends the code, unchecking removes every copy. */
  function CheckPreferredAirline(c: SearchCriteria, code: string, checked: bool): (r: SearchCriteria)
    ensures checked ==> r.preferredAirlines == c.preferredAirlines + [code]
    ensures !checked ==> r.preferredAirlines == Seqs.Without(c.preferredAirlines, code)
    ensures !checked ==> (code !in r.preferredAirlines &&
                          forall a :: a != code ==> (a in r.preferredAirlines <==> a in c.preferredAirlines))
    ensures r == c.(preferredAirlines := r.preferredAirlines)
  {
    c.(preferredAirlines := Seqs.Check(c.preferredAirlines, code, checked))
  }

  /** A blocked-airline checkbox: checking appends the code, unchecking removes every copy. */
  function CheckBlockedAirline(c: SearchCriteria, code: string, checked: bool): (r: SearchCriteria)
    ensures checked ==> r.blockedAirlines == c.blockedAirlines + [code]
    ensures !checked ==> r.blockedAirlines == Seqs.Without(c.blockedAirlines, code)
    ensures !checked ==> (code !in r.blockedAirlines &&
                          forall a :: a != code ==> (a in r.blockedAirlines <==> a in c.blockedAirlines))
    ensures r == c.(blockedAirlines := r.blockedAirlines)
  {
    c.(blockedAirlines := Seqs.Check(c.blockedAirlines, code, checked))
  }

  /** Pressing a day button twice restores the blocked days. */
  lemma ToggleBlockedDayTwice(c: SearchCriteria, day: WeekDay)
    requires day !in c.blockedDays
    ensures ToggleBlockedDay(ToggleBlockedDay(c, day), day) == c
  {
    Seqs.ToggleTwiceAbsent(c.blockedDays, day);
  }

  /** The quick-pick buttons: the first four popular destinations. */
  function QuickPicks(): (r: seq<PopularDestination>)
    ensures |r| == 4
    ensures forall i :: 0 <= i < |r| ==> r[i] == MockFlights.PopularDestinations()[i]
  {
    MockFlights.PopularDestinations()[..4]
  }

  /** A quick-pick button writes the destination's name into the destination field, nothing else. */
  function QuickPick(c: SearchCriteria, button: nat): (r: SearchCriteria)
    requires button < |QuickPicks()|
    ensures r.destination == QuickPicks()[button].name
    ensures r == c.(destination := r.destination)
  {
    c.(destination := QuickPicks()[button].name)
  }

  /** The first quick pick fills in Tel Aviv. */
  lemma FirstQuickPickIsTelAviv(c: SearchCriteria)
    ensures QuickPick(c, 0).destination == "תל אביב"
  {
  }

  /** A quick pick satisfies the destination rule. */
  lemma QuickPickFillsDestination(c: SearchCriteria, button: nat)
    requires button < |QuickPicks()|
    ensures DestinationField !in MissingFields(QuickPick(c, button))
  {
    var names := ["תל אביב", "ניו יורק", "לונדון", "פריז"];
    assert forall k :: 0 <= k < 4 ==> QuickPicks()[k].name == names[k];
  }

  /** The form's state: the step counter and the values it holds. */
  class FormState {
    var currentStep: int
    var values: SearchCriteria

    ghost predicate Valid()
      reads this
    {
      1 <= currentStep <= StepCount
    }

    constructor ()
      ensures Valid()
      ensures currentStep == 1 && values == Defaults()
    {
      currentStep := 1;
      values := Defaults();
    }

    /** Moving forward never looks at the values and never validates them. */
    method NextStep()
      requires Valid()
      modifies this
      ensures Valid()
      ensures currentStep == NextOf(old(currentStep)) && values == old(values)
    {
      if currentStep < StepCount {
        currentStep := currentStep + 1;
      }
    }

    method PrevStep()
      requires Valid()
      modifies this
      ensures Valid()
      ensures currentStep == PrevOf(old(currentStep)) && values == old(values)
    {
      if currentStep > 1 {
        currentStep := currentStep - 1;
      }
    }

    /** `setValue('destination', dest.name)`; the step is not changed. */
    method PickDestination(button: nat)
      requires button < |QuickPicks()|
      modifies this
      ensures values == QuickPick(old(values), button) && currentStep == old(currentStep)
    {
      values := QuickPick(values, button);
    }

    method PressBlockedDay(day: WeekDay)
      modifies this
      ensures values == ToggleBlockedDay(old(values), day) && currentStep == old(currentStep)
    {
      values := ToggleBlockedDay(values, day);
    }

    method SetPreferredAirline(code: string, checked: bool)
      modifies this
      ensures values == CheckPreferredAirline(old(values), code, checked) && currentStep == old(currentStep)
    {
      values := CheckPreferredAirline(values, code, checked);
    }

    method SetBlockedAirline(code: string, checked: bool)
      modifies this
      ensures values == CheckBlockedAirline(old(values), code, checked) && currentStep == old(currentStep)
    {
      values := CheckBlockedAirline(values, code, checked);
    }

    /** The submit button, shown only at the last step and disabled while a search is loading:
        it hands on the values when the required rules pass. */
    method Submit(isLoading: bool) returns (r: Option<SearchCriteria>)
      requires currentStep == StepCount
      ensures r.Some? <==> !isLoading && Submittable(values)
      ensures r.Some? ==> r.value == values
    {
      if !isLoading && Submittable(values) {
        r := Some(values);
      } else {
        r := None;
      }
    }
  }
}
