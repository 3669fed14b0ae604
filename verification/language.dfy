/** The language provider (src/context/LanguageContext.tsx): the language
    chosen at start-up and the translation function `t`. */
module Language {
  import opened Wrappers
  import opened Locales

  /** `t` reads `translations[language]`; for a language that is neither a
      table nor an inherited property that is `undefined`, and reading a key
      from it throws. */
  datatype TranslateError = NoTableFor(language: string)

  /** The translation function of the default context, used outside the
      provider: every key stands for itself. */
  function DefaultTranslate(key: string): (r: string)
  {
    key
  }

  /** Outside the provider `t("language")` is "language", never "ru". */
  lemma DefaultTranslateLanguage()
    ensures DefaultTranslate("language") != "ru"
  {
  }

  /** The language the provider starts with: the stored value when there is
      a non-empty one, "ru" otherwise. The stored value is not checked
      against the languages that have a table. */
  function InitialLanguage(stored: Option<string>): (lang: string)
    ensures stored.Some? && stored.value != "" ==> lang == stored.value
    ensures stored.None? || stored.value == "" ==> lang == "ru"
    ensures lang != ""
  {
    if stored.Some? && stored.value != "" then stored.value else "ru"
  }

  predicate HasTable(lang: string) { lang == "ru" || lang == "en" }

  /** The properties the `translations` object inherits from
      `Object.prototype`. Indexing it with one of them yields the inherited
      function, or the prototype object itself for `__proto__`, never
      `undefined`. */
  const InheritedNames := ["constructor", "hasOwnProperty", "isPrototypeOf",
                           "propertyIsEnumerable", "toLocaleString", "toString", "valueOf",
                           "__defineGetter__", "__defineSetter__", "__lookupGetter__",
                           "__lookupSetter__", "__proto__"]

  predicate Inherited(lang: string) { lang in InheritedNames }

  /** A language `translations[lang]` yields an object for. */
  predicate Indexable(lang: string) { HasTable(lang) || Inherited(lang) }

  /** The string-valued keys of an inherited value: a function's `name`
      (`Object` for the constructor); the prototype object has none. */
  function InheritedTable(lang: string): (t: Table)
    requires Inherited(lang)
    ensures forall key :: key != "name" ==> Lookup(t, key).None?
    ensures lang != "__proto__" ==> Lookup(t, "name").Some?
  {
    if lang == "__proto__" then [] else [("name", if lang == "constructor" then "Object" else lang)]
  }

  /** `translations[lang]`. */
  function TableFor(lang: string): (t: Option<Table>)
    ensures t.Some? <==> Indexable(lang)
    ensures lang == "ru" ==> t == Some(Ru)
    ensures lang == "en" ==> t == Some(En)
    ensures Inherited(lang) ==> t == Some(InheritedTable(lang))
  {
    if lang == "ru" then Some(Ru)
    else if lang == "en" then Some(En)
    else if Inherited(lang) then Some(InheritedTable(lang))
    else None
  }

  /** A wording that `||` keeps: present and non-empty. */
  predicate Usable(w: Option<string>) { w.Some? && w.value != "" }

  /** `t(key)`: the current table's wording, failing that the Russian one,
      failing that the key itself. */
  function Translate(lang: string, key: string): (r: Result<string, TranslateError>)
    ensures r.Failure? <==> !Indexable(lang)
    ensures r.Success? && Usable(Lookup(TableFor(lang).value, key)) ==>
              r.value == Lookup(TableFor(lang).value, key).value
    ensures r.Success? && !Usable(Lookup(TableFor(lang).value, key)) && Usable(Lookup(Ru, key)) ==>
              r.value == Lookup(Ru, key).value
    ensures r.Success? && !Usable(Lookup(TableFor(lang).value, key)) && !Usable(Lookup(Ru, key)) ==>
              r.value == key
  {
    match TableFor(lang)
    case None => Failure(NoTableFor(lang))
    case Some(table) =>
      var own := Lookup(table, key);
      var ru := Lookup(Ru, key);
      if Usable(own) then Success(own.value)
      else if Usable(ru) then Success(ru.value)
      else Success(key)
  }

  /** For a key the tables list, `t` returns the current table's wording:
      neither fallback ever fires. */
  lemma TranslateListedKey(lang: string, i: nat)
    requires HasTable(lang) && i < |Ru|
    ensures var own := Lookup(TableFor(lang).value, Ru[i].0);
            own.Some? && Translate(lang, Ru[i].0) == Success(own.value)
  {
    ListedKeyTranslated(Ru[i].0);
  }

  /** For a key the tables do not list, `t` returns the key itself. */
  lemma TranslateUnlistedKey(lang: string, key: string)
    requires HasTable(lang)
    requires forall i :: 0 <= i < |Ru| ==> Ru[i].0 != key
    ensures Translate(lang, key) == Success(key)
  {
    TablesAgree();
    assert forall i :: 0 <= i < |En| ==> En[i].0 == Ru[i].0;
  }

  /** With an inherited name as the language, `t` falls back to the Russian
      wording for every listed key other than `name`. */
  lemma InheritedLanguageFallsBackToRussian(lang: string, i: nat)
    requires Inherited(lang) && i < |Ru| && Ru[i].0 != "name"
    ensures var ru := Lookup(Ru, Ru[i].0);
            ru.Some? && Translate(lang, Ru[i].0) == Success(ru.value)
  {
    ListedKeyTranslated(Ru[i].0);
  }

  /** With a language that has a table, `t` never yields the empty string
      for a non-empty key. */
  lemma TranslateNonEmpty(lang: string, key: string)
    requires HasTable(lang) && key != ""
    ensures Translate(lang, key).Success? && Translate(lang, key).value != ""
  {
  }

  /** `t("language")` is the word for "language", not a language code. */
  lemma TranslateLanguageKey(lang: string)
    requires HasTable(lang)
    ensures var r := Translate(lang, "language");
            r.Success? && !HasTable(r.value)
            && r.value == (if lang == "ru" then "Язык" else "Language")
  {
    LanguageEntries();
  }

  // ----- choosing between two wordings -----

  /** `t("language") === "ru" ? ruText : enText`, the test the pages use to
      pick a wording. */
  function ChooseText(lang: string, ruText: string, enText: string): (r: Result<string, TranslateError>)
    ensures r.Failure? <==> !Indexable(lang)
    ensures r.Success? ==> r.value == ruText || r.value == enText
  {
    match Translate(lang, "language")
    case Failure(e) => Failure(e)
    case Success(word) => Success(if word == "ru" then ruText else enText)
  }

  /** The test never holds: whatever the language, the English wording is
      shown, and every Russian branch guarded by it is unreachable. */
  lemma RussianBranchUnreachable(lang: string, ruText: string, enText: string)
    requires Indexable(lang)
    ensures ChooseText(lang, ruText, enText) == Success(enText)
  {
    if HasTable(lang) {
      TranslateLanguageKey(lang);
    } else {
      LanguageEntries();
      assert Lookup(InheritedTable(lang), "language").None?;
    }
  }

  /** The choice the pages evidently intend: by the language code itself. */
  function ChooseTextByCode(lang: string, ruText: string, enText: string): (r: string)
    ensures lang == "ru" ==> r == ruText
    ensures lang != "ru" ==> r == enText
  {
    if lang == "ru" then ruText else enText
  }

  /** With the corrected test, the Russian wording is shown exactly when the
      language is Russian. */
  lemma ChooseTextByCodeFollowsLanguage(lang: string, ruText: string, enText: string)
    requires ruText != enText
    ensures ChooseTextByCode(lang, ruText, enText) == ruText <==> lang == "ru"
  {
  }

  // ----- the stored language -----

  /** A stored value other than "ru", "en" or an inherited name becomes the
      language, and then every `t` call fails. */
  lemma UnknownStoredLanguageBreaksTranslate(stored: string, key: string)
    requires stored != "" && !Indexable(stored)
    ensures Translate(InitialLanguage(Some(stored)), key).Failure?
  {
  }

  /** The start-up choice with the stored value checked: only a language
      with a table is taken over, anything else falls back to "ru". */
  function InitialLanguageChecked(stored: Option<string>): (lang: string)
    ensures HasTable(lang)
    ensures stored.Some? && HasTable(stored.value) ==> lang == stored.value
    ensures !(stored.Some? && HasTable(stored.value)) ==> lang == "ru"
  {
    if stored.Some? && HasTable(stored.value) then stored.value else "ru"
  }

  /** With the checked choice, `t` never fails, and a valid stored value is
      honoured just as before. */
  lemma CheckedLanguageAlwaysTranslates(stored: Option<string>, key: string)
    ensures Translate(InitialLanguageChecked(stored), key).Success?
    ensures stored.Some? && HasTable(stored.value) ==>
              InitialLanguageChecked(stored) == InitialLanguage(stored)
  {
  }
}
