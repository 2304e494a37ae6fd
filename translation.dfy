/** The translation provider: the current language, the page direction and `lang` attribute
    it keeps in step with it, and the key lookup that falls back to the key itself. */
module Translation {
  import opened FlightTypes

  datatype Language = He | En

  /** A table entry: the Hebrew and the English text of one key. */
  datatype Entry = Entry(he: string, en: string)

  /** The translation table, keyed by message key. */
  type Table = map<string, Entry>

  /** `translation[language]`. */
  function InLanguage(e: Entry, language: Language): string
  {
    if language == He then e.he else e.en
  }

  /** `t(key)`: the entry's text in the current language, or the key itself when the table
      has no entry for it. */
  function T(table: Table, language: Language, key: string): (r: string)
    ensures key in table ==> r == InLanguage(table[key], language)
    ensures key !in table ==> r == key
  {
    if key !in table then key else InLanguage(table[key], language)
  }

  /** A missing key reads the same in both languages. */
  lemma MissingKeyIsLanguageIndependent(table: Table, key: string)
    requires key !in table
    ensures T(table, He, key) == T(table, En, key) == key
  {
  }

  /** A key with different texts reads differently after a language switch. */
  lemma KnownKeyFollowsLanguage(table: Table, key: string)
    requires key in table && table[key].he != table[key].en
    ensures T(table, He, key) != T(table, En, key)
  {
  }

  /** Adding an entry for a key changes only what that key reads. */
  lemma AddingEntryChangesOnlyItsKey(table: Table, language: Language, key: string, e: Entry, other: string)
    requires other != key
    ensures T(table[key := e], language, key) == InLanguage(e, language)
    ensures T(table[key := e], language, other) == T(table, language, other)
  {
  }

  /** Text direction of the document. */
  datatype Direction = Rtl | Ltr

  /** Hebrew is written right to left, English left to right. */
  function DirectionOf(language: Language): (d: Direction)
    ensures d == Rtl <==> language == He
  {
    if language == He then Rtl else Ltr
  }

  /** The provider's language cell and the two document attributes it sets. */
  class LanguageState {
    var language: Language
    var dir: Direction
    var lang: Language

    /** The document attributes agree with the language. */
    ghost predicate Valid()
      reads this
    {
      dir == DirectionOf(language) && lang == language
    }

    /** Hebrew, right to left, `lang` 'he'. */
    constructor ()
      ensures Valid()
      ensures language == He && dir == Rtl && lang == He
    {
      language := He;
      dir := Rtl;
      lang := He;
    }

    /** `handleSetLanguage`: the language, then the direction, then the `lang` attribute. */
    method SetLanguage(l: Language)
      modifies this
      ensures Valid()
      ensures language == l && dir == DirectionOf(l) && lang == l
    {
      language := l;
      dir := if l == He then Rtl else Ltr;
      lang := l;
    }

    /** `t` bound to the current language. */
    function Lookup(table: Table, key: string): (r: string)
      reads this
      ensures key in table ==> r == InLanguage(table[key], language)
      ensures key !in table ==> r == key
    {
      T(table, language, key)
    }
  }

  /** What the context hands its consumers. */
  datatype Context = Context(language: Language, table: Table)

  /** The outcome of a hook call: a value, or the error it throws. */
  datatype Outcome<V> = Ok(value: V) | Thrown(message: string)

  /** `useTranslation`: the enclosing provider's context; outside any provider it throws. */
  function UseTranslation(enclosing: Option<Context>): (r: Outcome<Context>)
    ensures r.Thrown? <==> enclosing.None?
    ensures r.Ok? ==> r.value == enclosing.value
  {
    match enclosing
    case None => Thrown("useTranslation must be used within a TranslationProvider")
    case Some(c) => Ok(c)
  }
}
