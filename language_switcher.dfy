/**
 * The language-switcher component. It shows the current language, offers
 * three choices and, on a choice, requests the language from the
 * translation service, shows it, and saves it in `localStorage`. The
 * request is not awaited and nothing is validated or rolled back.
 */
module Switcher {
  import opened Wrappers
  import opened TranslateState
  import AppStartup

  /** One entry of the switcher's menu. */
  datatype LanguageOption = LanguageOption(code: string, name: string)

  /** The menu: English, German, Bengali (the last name in Bengali script). */
  const Languages: seq<LanguageOption> := [
    LanguageOption("en", "English"),
    LanguageOption("de", "Deutsch"),
    LanguageOption("bn", "\U{09AC}\U{09BE}\U{0982}\U{09B2}\U{09BE}")
  ]

  function Codes(options: seq<LanguageOption>): (codes: seq<string>)
    ensures |codes| == |options|
    ensures forall i :: 0 <= i < |options| ==> codes[i] == options[i].code
  {
    seq(|options|, i requires 0 <= i < |options| => options[i].code)
  }

  /** The menu offers three distinct codes, exactly the browser languages
      startup accepts, in the same order. */
  lemma MenuMatchesStartup()
    ensures Codes(Languages) == AppStartup.BrowserLanguages
    ensures forall i, j :: 0 <= i < j < |Languages| ==> Languages[i].code != Languages[j].code
  {
  }

  /** The language shown when the component is created: the service's
      current language, else its default language, else English. */
  function InitialLang(currentLang: Option<string>, defaultLang: Option<string>): (r: string)
    ensures r != ""
    ensures Truthy(currentLang) ==> r == currentLang.value
    ensures !Truthy(currentLang) && Truthy(defaultLang) ==> r == defaultLang.value
    ensures !Truthy(currentLang) && !Truthy(defaultLang) ==> r == "en"
  {
    if Truthy(currentLang) then currentLang.value
    else if Truthy(defaultLang) then defaultLang.value
    else "en"
  }

  /** What a switch affects: the shown language, the store, and the
      language last requested from the service. */
  datatype SwitchState = SwitchState(currentLang: string, store: map<string, string>, usedLang: Option<string>)

  /** The effect of `switchLanguage(lang)` on that state, for any string. */
  function Switch(s: SwitchState, lang: string): (t: SwitchState)
    ensures t.currentLang == lang && t.usedLang == Some(lang)
    ensures SelectedLanguageKey in t.store && t.store[SelectedLanguageKey] == lang
    ensures t.store.Keys == s.store.Keys + {SelectedLanguageKey}
    ensures forall k :: k in s.store && k != SelectedLanguageKey ==> t.store[k] == s.store[k]
  {
    SwitchState(lang, s.store[SelectedLanguageKey := lang], Some(lang))
  }

  /** Switching twice to the same language ends where switching once does. */
  lemma SwitchIdempotent(s: SwitchState, lang: string)
    ensures Switch(Switch(s, lang), lang) == Switch(s, lang)
  {
  }

  /** Only the last of two switches is visible afterwards. */
  lemma LastSwitchWins(s: SwitchState, lang1: string, lang2: string)
    ensures Switch(Switch(s, lang1), lang2) == Switch(s, lang2)
  {
  }

  /** Persist then re-resolve: after a switch to a non-empty language, the
      next startup requests that language whatever the browser reports. */
  lemma SwitchThenStartup(s: SwitchState, lang: string, browserLang: Option<string>)
    requires lang != ""
    ensures AppStartup.ResolveStartup(Some(Switch(s, lang).store[SelectedLanguageKey]), browserLang) == lang
  {
  }

  /** A switch to the empty string is saved, but the next startup treats it
      as nothing saved and falls back to the browser choice. */
  lemma EmptySwitchThenStartup(s: SwitchState, browserLang: Option<string>)
    ensures AppStartup.ResolveStartup(Some(Switch(s, "").store[SelectedLanguageKey]), browserLang)
      == AppStartup.BrowserChoice(browserLang)
  {
  }

  class LanguageSwitcher {
    var currentLang: string
    const languages: seq<LanguageOption>
    const translate: TranslateService
    const storage: Storage

    constructor (translate: TranslateService, storage: Storage)
      ensures this.translate == translate && this.storage == storage
      ensures languages == Languages
      ensures currentLang == InitialLang(translate.currentLang, translate.defaultLang)
    {
      this.translate := translate;
      this.storage := storage;
      languages := Languages;
      currentLang := InitialLang(translate.currentLang, translate.defaultLang);
    }

    /** The switcher's state as the source sees it. */
    function State(): SwitchState
      reads this, translate, storage
    {
      SwitchState(currentLang, storage.items, translate.UsedLang())
    }

    /** `switchLanguage(lang)`: one `use` request, the shown language, the
        saved value; no membership check on `lang`. */
    method SwitchLanguage(lang: string)
      modifies this, translate, storage
      ensures State() == Switch(old(State()), lang)
      ensures translate.requests == old(translate.requests) + [lang]
      ensures translate.defaultLang == old(translate.defaultLang)
      ensures translate.currentLang == old(translate.currentLang)
    {
      translate.Use(lang);
      currentLang := lang;
      storage.SetItem(SelectedLanguageKey, lang);
    }
  }
}
