/** The language button: it switches between Hebrew and English and is labelled with the
    language it switches to. */
module LanguageToggle {
  import opened Translation

  /** `language === 'he' ? 'en' : 'he'`. */
  function Toggled(language: Language): (r: Language)
    ensures r != language
  {
    if language == He then En else He
  }

  /** Two presses give back the language the page started in. */
  lemma ToggleTwice(language: Language)
    ensures Toggled(Toggled(language)) == language
  {
  }

  /** The short name a language goes by on the button. */
  function ShortName(language: Language): string
  {
    match language
    case He => "עב"
    case En => "EN"
  }

  /** The button's label: 'EN' while the page is in Hebrew, 'עב' while it is in English. */
  function Label(language: Language): (r: string)
    ensures language == He ==> r == "EN"
    ensures language == En ==> r == "עב"
  {
    if language == He then "EN" else "עב"
  }

  /** The label always names the language a press switches to. */
  lemma LabelNamesTheOtherLanguage(language: Language)
    ensures Label(language) == ShortName(Toggled(language))
    ensures Label(language) != ShortName(language)
  {
  }

  /** A press: the provider's setter with the other language; direction and `lang` follow. */
  method ToggleLanguage(state: LanguageState)
    modifies state
    ensures state.language == Toggled(old(state.language))
    ensures state.Valid()
  {
    state.SetLanguage(Toggled(state.language));
  }
}
