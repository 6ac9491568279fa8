/**
 * Two sessions sharing one durable store: the user switches language in
 * the first, and the second starts with a fresh translation service.
 */
module Session {
  import opened Wrappers
  import opened TranslateState
  import opened AppStartup
  import opened Switcher

  /** After `switchLanguage(lang)` with a non-empty `lang`, the next
      session's startup requests `lang` and nothing else, whatever the
      browser reports, and sets English as its default. */
  method SwitchThenRestart(sw: LanguageSwitcher, lang: string, browserLang: Option<string>)
    returns (next: TranslateService)
    requires lang != ""
    modifies sw, sw.translate, sw.storage
    ensures fresh(next)
    ensures next.requests == [lang]
    ensures next.defaultLang == Some(DefaultLang)
    ensures sw.storage.GetItem(SelectedLanguageKey) == Some(lang)
  {
    sw.SwitchLanguage(lang);
    next := new TranslateService(None, None);
    var app := new App(next, sw.storage);
    app.NgOnInit(browserLang);
  }
}
