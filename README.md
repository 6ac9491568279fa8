# Language resolution and switching in i18n-app

This project models the language logic of the i18n-app Angular application. Three pieces are covered:

- **Startup resolution.** The root component `App` sets English as the translation service's default language. On `ngOnInit` it requests one language, chosen by a first-match chain:
  - the value saved in `localStorage` under `selectedLanguage`, used verbatim;
  - otherwise the browser language, if it is `en`, `de` or `bn`;
  - otherwise `en`.
- **The language switcher.** The `LanguageSwitcher` component shows a current language. Its initial value is the service's current language, else its default language, else `en`. A switch does three things:
  - it requests the new language from the service;
  - it shows the new language;
  - it saves the new language in `localStorage`.
- **The translation loader.** It builds the URL `./assets/i18n/<lang>.json?v=<clock>` for each language file.

ngx-translate's `TranslateService` is modelled as abstract state (`TranslateState.TranslateService`). Its fields are the default language, the activated language and the log of `use` requests. `localStorage` is modelled as a class holding a `map<string, string>` (`TranslateState.Storage`). JavaScript truthiness of a possibly missing string is `Truthy`: `null`, `undefined` and `""` are all false.

Modules: `Wrappers` (Option), `TranslateState` (the service and the store), `Decimal` (how a clock value is written into the URL), `TranslationLoader`, `AppStartup`, `Switcher` and `Session` (a switch followed by the next session's startup).

Behaviour of the code worth knowing:

- A saved language is used at startup without being checked against the supported set (`SavedLanguageNotValidated`).
- `switchLanguage` accepts any string, fires `use` without waiting for it and saves the choice unconditionally.
- The switcher that runs has no change-event subscription. A switch made in one switcher instance is not pushed to the others.

## Model

| member | source | states |
|---|---|---|
| AppStartup.App.constructor | src/app/app.ts:13-16 | the default language is `en` after construction, and nothing has been requested yet |
| AppStartup.BrowserChoice | src/app/app.ts:25-26 | a browser language in {en, de, bn} is taken as is; a missing, empty or unsupported one gives `en`; the result is always in {en, de, bn} |
| AppStartup.ResolveStartup | src/app/app.ts:20-27 | a non-empty saved value wins whatever the browser reports; otherwise the result is in {en, de, bn}: the browser language when it is supported, else `en`; the result is never empty |
| AppStartup.SavedLanguageNotValidated | src/app/app.ts:21-22 | an unsupported saved code (`fr`) is still requested; there is no supported-set check on that branch |
| AppStartup.EmptySavedIsAbsent | src/app/app.ts:21 | an empty saved string is treated exactly like no saved value |
| AppStartup.App.NgOnInit | src/app/app.ts:18-29 | startup makes exactly one `use` request, with the resolved language; the store and the default language are left unchanged |
| Switcher.MenuMatchesStartup | src/app/shared/components/language-switcher/language-switcher.ts:12-16 | the menu has three distinct codes, en, de and bn, which are the browser languages startup accepts |
| Switcher.InitialLang | src/app/shared/components/language-switcher/language-switcher.ts:19 | the shown language is the service's current language if truthy, else its default language if truthy, else `en`; it is never empty |
| Switcher.LanguageSwitcher.constructor | src/app/shared/components/language-switcher/language-switcher.ts:18-20 | a new switcher shows the fallback-chain language and offers the three-entry menu |
| Switcher.Switch | src/app/shared/components/language-switcher/language-switcher.ts:22-26 | for any string `l`, afterwards the shown language is `l`, the last requested language is `l`, the store maps `selectedLanguage` to `l`, and every other store key is unchanged |
| Switcher.LanguageSwitcher.SwitchLanguage | src/app/shared/components/language-switcher/language-switcher.ts:22-26 | the component's state moves as `Switch` says; exactly one `use(l)` request is added; the service's default and activated languages are unchanged |
| Switcher.SwitchIdempotent | src/app/shared/components/language-switcher/language-switcher.ts:22-26 | switching twice to the same language leaves the same state as switching once |
| Switcher.LastSwitchWins | src/app/shared/components/language-switcher/language-switcher.ts:22-26 | after two switches only the second is visible: shown, requested and saved language, and the rest of the store |
| Switcher.SwitchThenStartup | src/app/shared/components/language-switcher/language-switcher.ts:25 | after a switch to a non-empty `l`, the next startup resolution returns `l` whatever the browser reports |
| Switcher.EmptySwitchThenStartup | src/app/shared/components/language-switcher/language-switcher.ts:25 | after a switch to `""`, the next startup ignores the saved value and falls back to the browser choice |
| Session.SwitchThenRestart | src/app/app.ts:18-22 | a switch to non-empty `l`, then a new session on the same store: the new service's only request is `l`, and its default is `en` |
| TranslationLoader.GetTranslation | src/app/core/services/translation-loader.ts:7-10 | the request is a GET of a URL that starts with `./assets/i18n/`, has `lang` inserted verbatim next, then `.json?v=`, then exactly the clock value's canonical decimal numeral (`NatToDecimal`, no leading zero), whose digits parse back to the clock value |
| TranslationLoader.RequestDeterminesLanguageAndTime | src/app/core/services/translation-loader.ts:9 | the URL determines both the language and the clock value; two requests with equal URLs have equal language and clock value |
| TranslationLoader.RequestDistinguishesLanguage | src/app/core/services/translation-loader.ts:9 | at one clock value, distinct languages give distinct URLs |
| TranslationLoader.RequestDistinguishesTime | src/app/core/services/translation-loader.ts:8-9 | cache busting: for one language, distinct clock values give distinct URLs |
| Decimal.NatToDecimal | src/app/core/services/translation-loader.ts:9 | the clock value is written as a non-empty run of decimal digits with no leading zero |
| Decimal.DecimalRoundTrip | src/app/core/services/translation-loader.ts:9 | reading the written digits back gives the clock value |
| Decimal.NatToDecimalInjective | src/app/core/services/translation-loader.ts:8-9 | distinct clock values are written differently |
| TranslationLoader.TrailingDigitsAfterEquals | src/app/core/services/translation-loader.ts:9 | the clock digits are exactly the run of digits the URL ends with, because `=` comes before them |

## Left out

- ngx-translate internals. The model does not cover what `use` loads, when it activates a language, `onLangChange` events, key lookup or the missing-key fallback. `use` is modelled only as a recorded request, and the service's activated language (`currentLang`) is an input the model never changes.
- Asynchrony. The model does not cover load completion order, overlapping `use` calls or failed loads. The source does not await `use`, so no rollback or load-before-activate ordering is claimed.
- `HttpClient.get` and `Date.now()`. The clock value is a `nat` parameter, and the loader returns the request instead of performing it.
- TranslationLoader.GetTranslation: JavaScript writes numbers of 10^21 and above in exponent notation. The model writes every clock value in plain digits. Real `Date.now()` values are far below that bound.
- `localStorage` access is modelled as never throwing. In a browser, `getItem` and `setItem` can throw (a SecurityError when storage is blocked, a QuotaExceededError when it is full), and neither call site catches the error. A throwing `getItem` at startup would leave `ngOnInit` with no `use` request at all. A throwing `setItem` in `switchLanguage` would come after `use(lang)` and the shown-language update, leaving the switch half done and nothing saved. The contracts of `NgOnInit` and `SwitchLanguage` describe only the non-throwing runs.
- The browser language (`getBrowserLang()`) is a parameter of `NgOnInit`. `localStorage` is passed to the components instead of being a global.
- The documentation page (`src/app/pages/documentation/documentation.ts`) is not part of this model. Its switcher variant, with a change subscription and a deferred re-read, is display text, not the running component.
- `src/app/app.module.ts` and `src/app/app-routing.module.ts` are not part of this model. They are module wiring and a route table with no behaviour.
- The `title` signal of `App` is not modelled. It is presentation only.
