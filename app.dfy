/**
 * The root component (`App`): its constructor sets the default language,
 * and `ngOnInit` picks the language to request at startup by a first-match
 * chain: a saved choice, else a supported browser language, else English.
 */
module AppStartup {
  import opened Wrappers
  import opened TranslateState

  /** The language the application falls back to. */
  const DefaultLang: string := "en"

  /** The browser languages startup accepts. */
  const BrowserLanguages: seq<string> := ["en", "de", "bn"]

  /** The language taken when nothing is saved: the browser's language if
      it is one of the three accepted, otherwise English. */
  function BrowserChoice(browserLang: Option<string>): (r: string)
    ensures r in BrowserLanguages
    ensures Truthy(browserLang) && browserLang.value in BrowserLanguages ==> r == browserLang.value
    ensures !(browserLang.Some? && browserLang.value in BrowserLanguages) ==> r == DefaultLang
  {
    if Truthy(browserLang) && browserLang.value in BrowserLanguages then browserLang.value else DefaultLang
  }

  /** The language startup requests, given what `localStorage` holds under
      the selected-language key and what the browser reports. A non-empty
      saved value wins verbatim, supported or not. */
  function ResolveStartup(saved: Option<string>, browserLang: Option<string>): (r: string)
    ensures r != ""
    ensures Truthy(saved) ==> r == saved.value
    ensures !Truthy(saved) ==> r in BrowserLanguages
    ensures !Truthy(saved) && browserLang.Some? && browserLang.value in BrowserLanguages ==> r == browserLang.value
    ensures !Truthy(saved) && !(browserLang.Some? && browserLang.value in BrowserLanguages) ==> r == DefaultLang
  {
    if Truthy(saved) then saved.value else BrowserChoice(browserLang)
  }

  /** The saved choice is not checked against the supported set: a saved
      `fr` is requested even when the browser offers a supported language. */
  lemma SavedLanguageNotValidated(browserLang: Option<string>)
    ensures "fr" !in BrowserLanguages
    ensures ResolveStartup(Some("fr"), browserLang) == "fr"
  {
  }

  /** An empty saved string is falsy, so it counts as nothing saved. */
  lemma EmptySavedIsAbsent(browserLang: Option<string>)
    ensures ResolveStartup(Some(""), browserLang) == ResolveStartup(None, browserLang)
  {
  }

  class App {
    const translate: TranslateService
    const storage: Storage

    /** Sets English as the service's default language, before any
        resolution, and requests nothing. */
    constructor (translate: TranslateService, storage: Storage)
      modifies translate
      ensures this.translate == translate && this.storage == storage
      ensures translate.defaultLang == Some(DefaultLang)
      ensures translate.currentLang == old(translate.currentLang)
      ensures translate.requests == old(translate.requests)
    {
      this.translate := translate;
      this.storage := storage;
      translate.SetDefaultLang(DefaultLang);
    }

    /** Startup resolution: one `use` call with the resolved language; the
        store is only read. `browserLang` is what `getBrowserLang()` reports. */
    method NgOnInit(browserLang: Option<string>)
      modifies translate
      ensures translate.requests == old(translate.requests) + [ResolveStartup(storage.GetItem(SelectedLanguageKey), browserLang)]
      ensures translate.UsedLang() == Some(ResolveStartup(storage.GetItem(SelectedLanguageKey), browserLang))
      ensures translate.defaultLang == old(translate.defaultLang)
      ensures translate.currentLang == old(translate.currentLang)
      ensures storage.items == old(storage.items)
    {
      var savedLanguage := storage.GetItem(SelectedLanguageKey);
      if Truthy(savedLanguage) {
        translate.Use(savedLanguage.value);
      } else {
        var langToUse := if browserLang.Some? && browserLang.value != "" && browserLang.value in BrowserLanguages
          then browserLang.value else DefaultLang;
        translate.Use(langToUse);
      }
    }
  }
}
