# Flight search: a verified model of the search engine and its state machines

This project models the logic of a flight-search web application written in TypeScript and React.
A traveller fills in a four-step search form. The app then makes a first-pass match of those
criteria against a fixture of ten itineraries. A results page refines, sorts and re-sorts the
matches. A filter panel edits the refinement. Around these sit a translation provider with a
language button, the text handed to a search agent by mail, and a city map filtered by region.

Each piece takes the form the code has:

- The matching and refinement predicates, the text helpers and the list edits are functions over
  datatypes.
- The in-place sort of the refined list is a method on an array, proved sorted and a permutation.
- The loops that collect the distinct airlines and cabin classes into a `Set` are loops, proved
  against a first-occurrence deduplication.
- The React state cells of the search page, the results page, the form, the translation provider
  and the map are fields of classes whose methods are the setters and handlers.

Files:

- `seqs.dfy` (module `Seqs`): the array operations the code relies on. These are `filter`,
  removal of every copy, checkbox and toggle edits, `Array.from(new Set(...))` and `join`, with
  `Split` as the inverse of `join`.
- `flight_types.dfy`: the records of the type definitions.
- `numerals.dfy`: digit strings and `${n}`.
- `mock_flights.dfy`: the fixture.
- `app_content.dfy`, `flight_results.dfy`, `filter_panel.dfy`, `search_form.dfy`,
  `translation.dfy`, `language_toggle.dfy`, `email_sender.dfy` and `interactive_map.dfy`: one
  module per component.

JavaScript semantics are written out where they matter:

- A budget of 0 is falsy and turns the budget check off.
- `parseFloat` of a duration that does not start with a digit is NaN. NaN fails both range
  comparisons, so the itinerary passes the duration filter.
- `replace` with a string pattern removes only the first occurrence.
- The optional prompt lines appear only for truthy values, so a stay of 0 days gives no line.

## Model

| member | source | states |
|---|---|---|
| AppContent.MatchFlights | flight-search/src/components/AppContent.tsx:31-72 | every itinerary kept is a candidate. When the budget is non-zero it costs at most the budget. 'direct' keeps only direct itineraries, 'oneStop' at most one stop and 'twoStops' at most two. With preferred airlines, some leg is flown by one of them. With blocked airlines, no leg is flown by any of them |
| AppContent.MatchIsOrderedSelection | flight-search/src/components/AppContent.tsx:31-72 | the match is a subsequence of the candidates. It holds exactly the candidates passing every check, each with its original multiplicity |
| AppContent.MatchNoCandidates | flight-search/src/components/AppContent.tsx:31 | no candidates give an empty result |
| AppContent.ZeroBudgetIgnoresPrice | flight-search/src/components/AppContent.tsx:33-35 | with maxBudget 0 the price never affects the verdict |
| AppContent.CheapestIgnoresStops | flight-search/src/components/AppContent.tsx:37-47 | 'cheapest' imposes no constraint on stops or directness |
| AppContent.FlownByOne | flight-search/src/components/AppContent.tsx:50-58 | with one preferred code, the overlap test is membership of that code among the leg codes |
| AppContent.Ids | flight-search/src/data/mockFlights.ts:67 | the ids of a list, position by position |
| AppContent.IdsOfThree | flight-search/src/data/mockFlights.ts:67 | the ids of a three-element list |
| AppContent.DirectUnder400IsEmpty | flight-search/src/data/mockFlights.ts:65-585 | budget 400 with 'direct' matches nothing in the fixture. The direct itineraries cost 450, 750 and 890 |
| AppContent.ElAlPreferredSelection | flight-search/src/components/AppContent.tsx:31-72 | budget 2000, 'cheapest' and preferred ['LY'] select fixture itineraries 1, 6 and 9, in that order |
| AppContent.ElAlPreferredFindsThree | flight-search/src/data/mockFlights.ts:65-585 | the ids of that selection are '1', '6', '9' |
| AppContent.ElAlVerdictsFirstHalf | flight-search/src/data/mockFlights.ts:65-335 | the El Al request accepts itinerary 1 and rejects 2 to 5 |
| AppContent.ElAlVerdictsSecondHalf | flight-search/src/data/mockFlights.ts:336-585 | the El Al request accepts 6 and 9 and rejects 7, 8 and 10 |
| AppContent.ElAlVerdict | flight-search/src/components/AppContent.tsx:50-58 | an affordable itinerary flown by a single carrier matches the El Al request iff that carrier is 'LY' |
| AppContent.KeepFirstSixthNinth | flight-search/src/components/AppContent.tsx:31 | filtering ten items of which only the 1st, 6th and 9th pass gives exactly those three |
| AppContent.AppState.constructor | flight-search/src/components/AppContent.tsx:18-21 | the form is shown, with no criteria, not loading and no flights |
| AppContent.AppState.HandleSearch | flight-search/src/components/AppContent.tsx:23-77 | after a search the results view is shown, loading is off, the criteria are kept and the flights are the match against the fixture. The view invariant is kept |
| AppContent.AppState.HandleBackToSearch | flight-search/src/components/AppContent.tsx:104-108 | back to the form: criteria absent, flights empty, loading flag untouched |
| FlightTypes.AirlineCodes | flight-search/src/components/AppContent.tsx:51 | the leg airline codes, position by position |
| Numerals.DigitChar | flight-search/src/components/EmailSender.tsx:70 | the digit character of a value 0..9 |
| Numerals.NatToString | flight-search/src/components/EmailSender.tsx:70-71 | `${n}` is a non-empty digit string without leading zero |
| Numerals.NatToStringRoundTrip | flight-search/src/components/EmailSender.tsx:70-71 | reading back the digits written for n gives n |
| Numerals.IntToString | flight-search/src/components/EmailSender.tsx:85 | a negative number is written as '-' followed by the digits of its magnitude |
| Numerals.IntToStringInjective | flight-search/src/components/EmailSender.tsx:70-85 | different integers are written differently |
| FlightResults.ReplaceFirst | flight-search/src/components/FlightResults.tsx:54 | a text without the character is unchanged. Otherwise exactly one character goes |
| FlightResults.ReplaceFirstRemovesFirst | flight-search/src/components/FlightResults.tsx:54 | the character removed is the first occurrence. What precedes and follows it is kept |
| FlightResults.SkipSpaces | flight-search/src/components/FlightResults.tsx:54 | the suffix after the leading white space. It starts with a non-space or is empty |
| FlightResults.LeadingDigits | flight-search/src/components/FlightResults.tsx:54 | the longest all-digit prefix |
| FlightResults.ParseLeadingNumber | flight-search/src/components/FlightResults.tsx:54 | NaN exactly when the text after the white space does not start with a digit |
| FlightResults.StandardDurationHours | flight-search/src/components/FlightResults.tsx:54 | a duration "<H>h <M>m" parses as H |
| FlightResults.HourMarkRemoved | flight-search/src/components/FlightResults.tsx:54 | removing the first 'h' from "<H>h <M>m" leaves "<H> <M>m" |
| FlightResults.MinuteMarkRemoved | flight-search/src/components/FlightResults.tsx:54 | removing the first 'm' then leaves "<H> <M>" |
| FlightResults.HoursBeforeSpace | flight-search/src/components/FlightResults.tsx:54 | "<H> <M>" parses as H |
| FlightResults.LeadingDigitsOfPrefix | flight-search/src/components/FlightResults.tsx:54 | a digit string followed by a non-digit is its own digit run |
| FlightResults.LeadingDigitsOfDigits | flight-search/src/components/FlightResults.tsx:54 | a digit string is its own digit run |
| FlightResults.HalfHourDropped | flight-search/src/components/FlightResults.tsx:54-57 | "4h 30m" counts as 4 hours |
| FlightResults.TwoDigitHours | flight-search/src/components/FlightResults.tsx:54-57 | "10h 15m" counts as 10 hours |
| FlightResults.CompactDurationRunsTogether | flight-search/src/components/FlightResults.tsx:54 | without the space, "<H>h<M>m" parses as the number with digits H then M ("4h30m" is 430) |
| FlightResults.Refine | flight-search/src/components/FlightResults.tsx:47-76 | every itinerary kept is in the input. Its price is inside the price range, inclusive. A parsed duration is inside the duration range, inclusive. Its stops are at most maxStops. With airlines selected, some leg is flown by one of them |
| FlightResults.RefineIsOrderedSelection | flight-search/src/components/FlightResults.tsx:47-76 | the refined list is a subsequence of the input. It holds exactly the itineraries that pass, each with its original multiplicity |
| FlightResults.UnparsedDurationIgnoresRange | flight-search/src/components/FlightResults.tsx:54-57 | an itinerary whose duration parses to NaN is never excluded by the duration range |
| FlightResults.AirlineFilterIsOverlap | flight-search/src/components/FlightResults.tsx:65-73 | with airlines selected, an itinerary passes iff it passes the other checks and has a leg flown by a selected airline. An empty list imposes nothing |
| FlightResults.InitialFiltersKeep | flight-search/src/components/FlightResults.tsx:37-44 | under the initial filters an itinerary is kept iff it costs 0..2000, its duration is NaN or 0..24 hours, and it has at most 2 stops |
| FlightResults.RefineIgnoresCabinAndTimes | flight-search/src/components/FlightResults.tsx:47-76 | the cabin-class and departure-time fields never change the refined list |
| FlightResults.Flip | flight-search/src/components/FlightResults.tsx:113-115 | toggling always changes the direction |
| FlightResults.FlipTwice | flight-search/src/components/FlightResults.tsx:113-115 | toggling twice restores the direction |
| FlightResults.LexLeTotal | flight-search/src/components/FlightResults.tsx:91-97 | any two strings are comparable |
| FlightResults.LexLeTransitive | flight-search/src/components/FlightResults.tsx:91-97 | string order chains |
| FlightResults.PrecedesIsTotalPreorder | flight-search/src/components/FlightResults.tsx:79-108 | for every key and direction, the order the comparator induces is a total preorder |
| FlightResults.SortFlights | flight-search/src/components/FlightResults.tsx:79-108 | the array ends in the chosen order (non-decreasing key for 'asc', non-increasing for 'desc') and is a permutation of what it held |
| FlightResults.SortInPlace | flight-search/src/components/FlightResults.tsx:79 | an in-place sort under any total preorder: ordered and a permutation |
| FlightResults.InsertLast | flight-search/src/components/FlightResults.tsx:79 | one insertion pass extends the ordered prefix by one element and keeps the contents |
| FlightResults.SwapDown | flight-search/src/components/FlightResults.tsx:79 | swapping an out-of-order neighbour pair moves the gap in the order one place down and keeps the contents |
| FlightResults.AdjacentOrderChains | flight-search/src/components/FlightResults.tsx:79 | neighbours in order means every pair is in order |
| FlightResults.SortedAndFilteredFlights | flight-search/src/components/FlightResults.tsx:46-111 | the list shown is in the chosen order, is a permutation of the refined list, and holds exactly the input itineraries that pass. The input is a value and is not changed |
| FlightResults.FirstIsCheapest | flight-search/src/components/FlightResults.tsx:83-86 | sorted by price ascending, the first itinerary shown is a cheapest one |
| FlightResults.FirstIsDearest | flight-search/src/components/FlightResults.tsx:83-86 | sorted by price descending, the first one is a dearest one |
| FlightResults.Reverse | flight-search/src/components/FlightResults.tsx:103-107 | reversal, position by position |
| FlightResults.ReversedIsSortedTheOtherWay | flight-search/src/components/FlightResults.tsx:103-107 | a list sorted one way, reversed, is sorted the other way |
| FlightResults.ResultsPage.constructor | flight-search/src/components/FlightResults.tsx:34-44 | panel hidden, sorted by price ascending, the initial filters |
| FlightResults.ResultsPage.ToggleSortDirection | flight-search/src/components/FlightResults.tsx:113-115 | the direction flips; nothing else changes |
| FlightResults.ResultsPage.SetSortBy | flight-search/src/components/FlightResults.tsx:171 | the key changes; nothing else does |
| FlightResults.ResultsPage.SetFilters | flight-search/src/components/FlightResults.tsx:202 | the filters are replaced; nothing else changes |
| FlightResults.ResultsPage.ToggleFilters | flight-search/src/components/FlightResults.tsx:156 | the panel's visibility flips; nothing else changes |
| FlightResults.ResultsPage.Displayed | flight-search/src/components/FlightResults.tsx:46-111 | the list rendered for the current state is sorted by the current key and direction, and is a permutation of the refined list |
| FilterPanel.Field | flight-search/src/components/FilterPanel.tsx:22-24 | reading a field returns a value of that field |
| FilterPanel.FieldsDetermineFilters | flight-search/src/components/FilterPanel.tsx:22-24 | filters agreeing on every field are equal |
| FilterPanel.UpdateFilter | flight-search/src/components/FilterPanel.tsx:22-30 | the named field takes the new value and every other field is unchanged |
| FilterPanel.UpdateSameFieldTwice | flight-search/src/components/FilterPanel.tsx:22-30 | a second update of a field overrides the first |
| FilterPanel.UpdatesOfDifferentFieldsCommute | flight-search/src/components/FilterPanel.tsx:22-30 | updates of different fields commute |
| FilterPanel.UpdateWithCurrentValue | flight-search/src/components/FilterPanel.tsx:22-30 | writing back a field's value changes nothing |
| FilterPanel.ClearAllFilters | flight-search/src/components/FilterPanel.tsx:32-41 | the initial filters of the results page: [0,2000], [0,24], 2 and three empty lists |
| FilterPanel.ClearedFiltersKeep | flight-search/src/components/FilterPanel.tsx:32-41 | after clearing, an itinerary is shown iff it costs 0..2000, its duration is NaN or 0..24, and it has at most 2 stops |
| FilterPanel.SetMinPrice | flight-search/src/components/FilterPanel.tsx:103-106 | the lower price bound takes the value, the upper bound and every other field are kept |
| FilterPanel.SetMaxPrice | flight-search/src/components/FilterPanel.tsx:115-118 | the upper price bound takes the value, the lower bound and every other field are kept |
| FilterPanel.SetMinDuration | flight-search/src/components/FilterPanel.tsx:143-146 | the lower duration bound takes the value, the rest is kept |
| FilterPanel.SetMaxDuration | flight-search/src/components/FilterPanel.tsx:155-158 | the upper duration bound takes the value, the rest is kept |
| FilterPanel.CrossedPriceSlidersShowNothing | flight-search/src/components/FilterPanel.tsx:103-118 | min <= max is not enforced: crossed bounds are accepted and then no itinerary is shown |
| FilterPanel.PressStopsButton | flight-search/src/components/FilterPanel.tsx:172-175 | maxStops becomes the button's number, always 0, 1 or 2; nothing else changes |
| FilterPanel.CheckAirline | flight-search/src/components/FilterPanel.tsx:199-203 | checking appends the code. Unchecking gives `Without`: every copy removed, the other codes kept in order and multiplicity. Other fields unchanged |
| FilterPanel.CheckCabinClass | flight-search/src/components/FilterPanel.tsx:224-228 | the same for cabin classes, unchecking giving `Without` |
| FilterPanel.ToggleDepartureTime | flight-search/src/components/FilterPanel.tsx:252-256 | an unselected slot is appended. A selected one is removed by `Without`, which keeps the other slots in order and multiplicity. Other fields unchanged |
| FilterPanel.ToggleDepartureTimeTwice | flight-search/src/components/FilterPanel.tsx:252-256 | pressing an unselected slot twice restores the filters exactly |
| FilterPanel.CabinAndTimeChoicesDoNotChangeResults | flight-search/src/components/FlightResults.tsx:47-76 | cabin and departure-time choices never change the refined list |
| FilterPanel.CheckingAnAirlineWidens | flight-search/src/components/FilterPanel.tsx:199-203 | with airlines already checked, checking one more never hides an itinerary |
| FilterPanel.CheckingFirstAirlineNarrows | flight-search/src/components/FilterPanel.tsx:199-203 | checking the first airline keeps exactly the passing itineraries flown by it |
| FilterPanel.SegmentCodesMembership | flight-search/src/components/FilterPanel.tsx:45-49 | a code is among the legs' codes iff some itinerary has a leg with it |
| FilterPanel.GetAvailableAirlines | flight-search/src/components/FilterPanel.tsx:43-51 | the loops return the first-occurrence deduplication of all leg codes |
| FilterPanel.AddEach | flight-search/src/components/FilterPanel.tsx:46-48 | the inner loop extends the deduplication by one itinerary's codes and keeps the Set equal to the listed codes |
| FilterPanel.AddLast | flight-search/src/components/FilterPanel.tsx:47 | adding to the Set lists the value last unless it was seen |
| FilterPanel.AvailableAirlinesSpec | flight-search/src/components/FilterPanel.tsx:43-51 | every code flown by some leg is offered, nothing else; each once; in order of first appearance |
| FilterPanel.CabinClasses | flight-search/src/components/FilterPanel.tsx:55-56 | the cabin classes, itinerary by itinerary |
| FilterPanel.GetAvailableCabinClasses | flight-search/src/components/FilterPanel.tsx:53-59 | the loop returns the first-occurrence deduplication of the cabin classes |
| FilterPanel.AvailableCabinClassesSpec | flight-search/src/components/FilterPanel.tsx:53-59 | every class some itinerary has, once, in order of first appearance |
| SearchForm.NextOf | flight-search/src/components/FlightSearchForm.tsx:78-82 | one step forward below step 4, otherwise unchanged; stays within 1..4 |
| SearchForm.PrevOf | flight-search/src/components/FlightSearchForm.tsx:84-88 | one step back above step 1, otherwise unchanged; stays within 1..4 |
| SearchForm.RunStaysInRange | flight-search/src/components/FlightSearchForm.tsx:42-88 | any sequence of next and previous clicks keeps the step within 1..4 |
| SearchForm.Repeat | flight-search/src/components/FlightSearchForm.tsx:78-88 | n identical clicks |
| SearchForm.NextClicksSaturate | flight-search/src/components/FlightSearchForm.tsx:78-82 | n clicks on next reach min(step + n, 4) |
| SearchForm.PrevClicksSaturate | flight-search/src/components/FlightSearchForm.tsx:84-88 | n clicks on previous reach max(step - n, 1) |
| SearchForm.PrevUndoesNext | flight-search/src/components/FlightSearchForm.tsx:78-88 | below the last step, previous undoes next |
| SearchForm.PrimaryButtonAt | flight-search/src/components/FlightSearchForm.tsx:652-679 | the submit button is shown exactly from step 4 on |
| SearchForm.SubmitOnlyAtLastStep | flight-search/src/components/FlightSearchForm.tsx:652-679 | within 1..4, submit is offered only at step 4 |
| SearchForm.PrevDisabledWhereIdle | flight-search/src/components/FlightSearchForm.tsx:645 | previous is disabled exactly where it would do nothing |
| SearchForm.Defaults | flight-search/src/components/FlightSearchForm.tsx:46-65 | round trip, cheapest, budget 1000, empty lists and empty origin, destination and departure date |
| SearchForm.MissingFields | flight-search/src/components/FlightSearchForm.tsx:163-304 | origin, destination and departure date are missing iff empty. The return date is missing iff the trip is a round trip and it is absent or empty |
| SearchForm.OneWayIgnoresReturnDate | flight-search/src/components/FlightSearchForm.tsx:304 | for a one-way trip the return date never affects submittability |
| SearchForm.DefaultsNeedAllFour | flight-search/src/components/FlightSearchForm.tsx:46-65 | the defaults miss all four required fields |
| SearchForm.ToggleBlockedDay | flight-search/src/components/FlightSearchForm.tsx:469-475 | a free day is appended. A blocked one is released by `Without`, which keeps the other days in order and multiplicity, the order `BlockedDaysText` prints. Other fields unchanged |
| SearchForm.CheckPreferredAirline | flight-search/src/components/FlightSearchForm.tsx:507-513 | checking appends. Unchecking gives `Without`: every copy removed, the rest kept in order. Other fields unchanged |
| SearchForm.CheckBlockedAirline | flight-search/src/components/FlightSearchForm.tsx:539-545 | the same for blocked airlines, unchecking giving `Without` |
| SearchForm.ToggleBlockedDayTwice | flight-search/src/components/FlightSearchForm.tsx:469-475 | pressing a free day twice restores the values exactly |
| SearchForm.QuickPicks | flight-search/src/components/FlightSearchForm.tsx:200 | exactly four picks, the first four popular destinations in their order |
| SearchForm.QuickPick | flight-search/src/components/FlightSearchForm.tsx:204 | the destination becomes the pick's name; nothing else changes |
| SearchForm.FirstQuickPickIsTelAviv | flight-search/src/data/mockFlights.ts:3-9 | the first quick pick fills in Tel Aviv |
| SearchForm.QuickPickFillsDestination | flight-search/src/components/FlightSearchForm.tsx:187-204 | a quick pick always satisfies the destination rule |
| SearchForm.FormState.constructor | flight-search/src/components/FlightSearchForm.tsx:42-66 | step 1 with the defaults |
| SearchForm.FormState.NextStep | flight-search/src/components/FlightSearchForm.tsx:78-82 | the step advances as NextOf and the values are untouched; no validation gates it |
| SearchForm.FormState.PrevStep | flight-search/src/components/FlightSearchForm.tsx:84-88 | the step goes back as PrevOf and the values are untouched |
| SearchForm.FormState.PickDestination | flight-search/src/components/FlightSearchForm.tsx:204 | the quick pick applied; the step is unchanged |
| SearchForm.FormState.PressBlockedDay | flight-search/src/components/FlightSearchForm.tsx:469-475 | the day toggled; the step is unchanged |
| SearchForm.FormState.SetPreferredAirline | flight-search/src/components/FlightSearchForm.tsx:507-513 | the checkbox applied; the step is unchanged |
| SearchForm.FormState.SetBlockedAirline | flight-search/src/components/FlightSearchForm.tsx:539-545 | the checkbox applied; the step is unchanged |
| SearchForm.FormState.Submit | flight-search/src/components/FlightSearchForm.tsx:662-664 | at the last step the values are handed on iff no search is loading and the declared `required` rules pass (see Left out for fields not mounted at that step) |
| Translation.T | flight-search/src/contexts/TranslationContext.tsx:20-27 | a known key gives its entry in the current language. An unknown key gives the key itself |
| Translation.MissingKeyIsLanguageIndependent | flight-search/src/contexts/TranslationContext.tsx:22-25 | a missing key reads as itself in both languages |
| Translation.KnownKeyFollowsLanguage | flight-search/src/contexts/TranslationContext.tsx:26 | a key with different texts reads differently in the two languages |
| Translation.AddingEntryChangesOnlyItsKey | flight-search/src/contexts/TranslationContext.tsx:20-27 | adding an entry changes only what that key reads |
| Translation.DirectionOf | flight-search/src/contexts/TranslationContext.tsx:32 | right to left iff Hebrew |
| Translation.LanguageState.constructor | flight-search/src/contexts/TranslationContext.tsx:12-18 | Hebrew, right to left, `lang` 'he' |
| Translation.LanguageState.SetLanguage | flight-search/src/contexts/TranslationContext.tsx:29-33 | the language, the direction (rtl iff Hebrew) and the `lang` attribute are set together |
| Translation.LanguageState.Lookup | flight-search/src/contexts/TranslationContext.tsx:20-27 | the lookup in the current language, with the key as fallback |
| Translation.UseTranslation | flight-search/src/contexts/TranslationContext.tsx:49-54 | outside a provider the hook throws. Inside one it returns the provider's context |
| LanguageToggle.Toggled | flight-search/src/components/LanguageToggle.tsx:10 | a press always switches language |
| LanguageToggle.ToggleTwice | flight-search/src/components/LanguageToggle.tsx:10 | two presses restore the language |
| LanguageToggle.Label | flight-search/src/components/LanguageToggle.tsx:22 | 'EN' in Hebrew, 'עב' in English |
| LanguageToggle.LabelNamesTheOtherLanguage | flight-search/src/components/LanguageToggle.tsx:10-22 | the label names the language a press switches to, never the current one |
| LanguageToggle.ToggleLanguage | flight-search/src/components/LanguageToggle.tsx:9-11 | the provider's language becomes the other one, with direction and `lang` following |
| EmailSender.FlightTypeText | flight-search/src/components/EmailSender.tsx:23-31 | the four known flight types get their fixed texts. Any other value is echoed |
| EmailSender.FlightTypeTextDescribesEveryType | flight-search/src/components/EmailSender.tsx:23-31 | every stored flight type is described, never echoed, and distinct types are described differently |
| EmailSender.DayNameInjective | flight-search/src/components/EmailSender.tsx:36-44 | distinct days have distinct names, none holding a comma |
| EmailSender.DayNames | flight-search/src/components/EmailSender.tsx:46 | the day names, position by position |
| EmailSender.BlockedDaysText | flight-search/src/components/EmailSender.tsx:33-47 | no blocked day gives the no-limit text. Otherwise the day names in input order, separated by ", " |
| EmailSender.BlockedDaysTextRoundTrip | flight-search/src/components/EmailSender.tsx:46 | splitting the text at ", " gives back the day names |
| EmailSender.BlockedDaysTextInjective | flight-search/src/components/EmailSender.tsx:33-47 | the text determines the blocked days, with order and repetitions |
| EmailSender.SomeBlockedDayIsNamed | flight-search/src/components/EmailSender.tsx:34-46 | a non-empty list never reads as the no-limit text |
| EmailSender.AirlinesText | flight-search/src/components/EmailSender.tsx:49-52 | no airline gives the all-airlines text. Otherwise the codes separated by ", " |
| EmailSender.AirlinesTextRoundTrip | flight-search/src/components/EmailSender.tsx:51 | codes without commas are read back from the text |
| EmailSender.TripTypeText | flight-search/src/components/EmailSender.tsx:62 | 'הלוך-חזור' iff round trip, and 'חד כיוונית' for a one-way trip |
| EmailSender.YesNo | flight-search/src/components/EmailSender.tsx:81-84 | 'כן' iff the flag is set, and 'לא' when it is not |
| EmailSender.Line | flight-search/src/components/EmailSender.tsx:66-71 | an absent field gives the empty line, a present one its caption and value |
| EmailSender.DepartureDateLine | flight-search/src/components/EmailSender.tsx:66 | the line is empty iff the departure date is empty |
| EmailSender.ReturnDateLine | flight-search/src/components/EmailSender.tsx:68 | the line is empty iff the return date is absent or empty |
| EmailSender.TripDurationLine | flight-search/src/components/EmailSender.tsx:70 | the line is empty iff the stay length is absent or 0 |
| EmailSender.DurationFlexibilityLine | flight-search/src/components/EmailSender.tsx:71 | the line is empty iff the flexibility is absent or 0 |
| EmailSender.StopoverDaysLine | flight-search/src/components/EmailSender.tsx:85 | the line is empty iff stopovers are not allowed |
| EmailSender.ZeroTripDurationHasNoLine | flight-search/src/components/EmailSender.tsx:70 | a stay of 0 days gives no line, as a missing one does |
| EmailSender.TripDurationLineShowsDays | flight-search/src/components/EmailSender.tsx:70 | the stay line holds the caption and a digit string whose value is the stay length |
| EmailSender.Subject | flight-search/src/components/EmailSender.tsx:227 | the subject is the prefix, then the origin, then the arrow ' → ', then the destination, each fixed by position, with the total length |
| EmailSender.SubjectDeterminesRoute | flight-search/src/components/EmailSender.tsx:227 | when origins hold no arrow, equal subjects mean equal origins and destinations |
| EmailSender.ArrowAfterOrigin | flight-search/src/components/EmailSender.tsx:227 | origins of different lengths, the longer one without an arrow, give different subjects |
| InteractiveMap.RegionIdInjective | flight-search/src/components/InteractiveMap.tsx:22 | distinct regions have distinct ids, none of them 'all' |
| InteractiveMap.FilteredCities | flight-search/src/components/InteractiveMap.tsx:118-120 | 'all' shows the full list. Any other id shows the cities whose category equals it, in list order |
| InteractiveMap.RegionShowsItsCities | flight-search/src/components/InteractiveMap.tsx:120 | a region shows exactly the listed cities of that region, as a subsequence of the list |
| InteractiveMap.UnknownCategoryShowsNothing | flight-search/src/components/InteractiveMap.tsx:120 | an id naming no region shows no city |
| InteractiveMap.Find | flight-search/src/components/InteractiveMap.tsx:128 | nothing is found iff no category has the id. What is found is a listed category with that id |
| InteractiveMap.FindFirst | flight-search/src/components/InteractiveMap.tsx:128 | what is found is the first category with the id |
| InteractiveMap.RemoveFirst | flight-search/src/components/InteractiveMap.tsx:129 | a text starting with the pattern loses that prefix |
| InteractiveMap.RemoveFirstAbsent | flight-search/src/components/InteractiveMap.tsx:129 | a text without the pattern's first character is unchanged |
| InteractiveMap.CategoryIdsDistinct | flight-search/src/components/InteractiveMap.tsx:107-116 | no two category buttons share an id |
| InteractiveMap.CategoryColor | flight-search/src/components/InteractiveMap.tsx:127-130 | an id no button carries gives 'slate'. A button's id gives the colour `r` with that button's class equal to 'bg-' + `r`. The component defines this helper but never calls it; the buttons use the class directly (line 146) |
| InteractiveMap.CategoryColorOf | flight-search/src/components/InteractiveMap.tsx:127-130 | every colour class starts with 'bg-'. A known id gives its class without that prefix |
| InteractiveMap.UnknownCategoryIsSlate | flight-search/src/components/InteractiveMap.tsx:129 | an unknown id gives 'slate' |
| InteractiveMap.CenterIsJerusalem | flight-search/src/components/InteractiveMap.tsx:42-47 | the initial centre is the listed position of Jerusalem |
| InteractiveMap.MapState.constructor | flight-search/src/components/InteractiveMap.tsx:41-42 | category 'all', centred on Jerusalem |
| InteractiveMap.MapState.SelectCategory | flight-search/src/components/InteractiveMap.tsx:145 | the category changes and the centre is kept |
| InteractiveMap.MapState.Shown | flight-search/src/components/InteractiveMap.tsx:118-120 | only listed cities are shown |
| InteractiveMap.MapState.HandleCityClick | flight-search/src/components/InteractiveMap.tsx:122-125 | the clicked city is handed on and the map recentres on its coordinates; the category is kept |
| Seqs.Filter | flight-search/src/components/AppContent.tsx:31 | `filter` keeps exactly the elements that pass and never grows |
| Seqs.FilterIsSubseq | flight-search/src/components/FlightResults.tsx:47 | a filter's result is a subsequence of its input |
| Seqs.FilterMultiplicity | flight-search/src/components/FlightResults.tsx:47 | a filter keeps every copy of a passing element and none of another |
| Seqs.WithoutSpec | flight-search/src/components/FilterPanel.tsx:202 | removal deletes every copy of the value, keeps every other element with its multiplicity, and keeps the order |
| Seqs.Check | flight-search/src/components/FilterPanel.tsx:200-202 | checking appends. Unchecking gives `Without`, which leaves no copy and keeps the other values in order and multiplicity |
| Seqs.CheckThenUncheck | flight-search/src/components/FilterPanel.tsx:200-202 | checking then unchecking equals removing the value |
| Seqs.Toggle | flight-search/src/components/FilterPanel.tsx:253-255 | a present value is removed by `Without`, keeping the others in order and multiplicity. An absent one is appended |
| Seqs.ToggleTwiceMembership | flight-search/src/components/FilterPanel.tsx:253-255 | toggling twice restores every value's membership |
| Seqs.Dedup | flight-search/src/components/FilterPanel.tsx:44-50 | `Array.from(new Set(xs))` holds exactly the elements of xs, without duplicates |
| Seqs.DedupFirstOccurrenceOrder | flight-search/src/components/FilterPanel.tsx:44-50 | the distinct elements are listed in order of first occurrence |
| Seqs.Join | flight-search/src/components/EmailSender.tsx:46-51 | `join` of one item is that item, of none the empty string |
| Seqs.SplitJoin | flight-search/src/components/EmailSender.tsx:46-51 | splitting a join at the separator gives back the items when none holds the separator's first character |

## Left out

- Rendering, styling, animation, icons and `getSortIcon` are not modelled. They are presentation.
- The card component is not part of this model. It is presentation and number formatting.
- The 2-second delay and the delayed log in the search handler are left out. `AppState.HandleSearch` is the state after the delay, as one atomic update. The loading phase in between is not a separate step.
- Timers, `console` output, the clipboard, `alert`, `window.open`/mailto, `encodeURIComponent` and the resize event are left out.
- `document.documentElement.dir` and `lang` are fields of `LanguageState`.
- Leaflet (icons, tiles, markers, `setView`) is left out. Coordinates are reals that are only stored and compared.
- `onCitySelect` is modelled as the value `HandleCityClick` returns.
- The `airports` field of a city is left out, because no city sets it.
- `DepartureDateLine`, `ReturnDateLine`: the date formatter (`toLocaleDateString`) is a function parameter. The year line (`getFullYear`) and the min-date attributes are left out.
- The rest of the agent prompt is left out. That covers the fixed instructions, the origin and destination lines and the budget line, which only interpolate their values. `EmailSender` models the helpers and the conditional lines.
- The month lines are left out. `departureMonth` and `returnMonth` are not fields of `SearchCriteria`, so their lines are always empty.
- `ParseLeadingNumber` covers only the part of `parseFloat` the durations use: ASCII white space, then decimal digits. A sign, a decimal point, an exponent and "Infinity" are not read. An unreadable text is NaN (`None`).
- `SortKey`: for the duration key, a NaN duration sorts as 0. In the source every comparison with NaN is false, so the comparator is inconsistent there and the order depends on the engine.
- `SortKey`: the departure key compares `departureDate + ' ' + time` as text. The source builds `Date` objects instead. The two orders agree for the zero-padded "YYYY-MM-DD" and "HH:MM" forms the data uses.
- `SortFlights`: sorting by departure or airline requires every itinerary to have a leg, through `KeysDefined` (a list of at most one item is never compared). The source would throw on a missing leg.
- `SortFlights`: stability is not stated. The comparator never returns 0, so the order of equal keys is up to the engine. Sortedness and permutation are proved. The array sort is an insertion sort standing for the engine's sort.
- Strings are sequences of code points. JavaScript's UTF-16 code-unit order is the same order for the texts used here.
- Translation: the table is an abstract map from key to a Hebrew/English pair. Its 400 lines of entries are not transcribed. A key that exists only on `Object.prototype` (such as "constructor") would be found by the source's lookup; the map has no such keys.
- The mock data keeps only the fields the scenario lemmas read. Image URLs, logos, airport names and other display strings are empty. The ten itineraries keep their ids, prices, stops, directness, durations, cabin classes, dates and leg airline codes and times.
- FormState.Submit: applies the declared `required` rules of origin, destination and dates at submit. Those Controllers are rendered only at steps 1 and 2 (FlightSearchForm.tsx:147-304), and the form library very likely skips the rules of unmounted fields, so the program may hand on an empty origin from step 4. The library's code is not part of this model, so this was not settled.
- react-hook-form is left out: `handleSubmit`, `Controller`, `watch` and error display. `MissingFields` models the `required` rules, with an empty string or an absent value counting as missing.
- `FormState` does not model the quick-pick list beyond the first four popular destinations. It does not model the other inputs that write single fields through `Controller`.
- `SearchCriteria.blockedDays` is a list of `WeekDay` values. So the `undefined` that an unknown day string would produce in the day-name map cannot arise.
- `IntToString` writes integers only. Budgets, durations and stopover days are whole numbers in the form, and fractional values are not modelled.
- InteractiveMap: that each region button shows exactly its own group, in list order, is stated as membership plus subsequence (`RegionShowsItsCities`). The equation with the literal group is not proved, because unfolding the 47-city list is too costly for the solver.
