/**
 * Abstract state of the two collaborators the core talks to: the shared
 * ngx-translate `TranslateService` and the browser's `localStorage`.
 * Only the fields the core reads or writes are modelled; what the library
 * does with a requested language (fetching, activating, emitting change
 * events) is not.
 */
module TranslateState {
  import opened Wrappers

  /** The one `localStorage` key under which the chosen language is kept. */
  const SelectedLanguageKey: string := "selectedLanguage"

  /** JavaScript truthiness of a string that may be missing: `null`,
      `undefined` and the empty string are all false. */
  predicate Truthy(s: Option<string>) {
    s.Some? && s.value != ""
  }

  /** The translation service, shared by every component of the application. */
  class TranslateService {
    /** The fallback language set by `setDefaultLang`; `None` until then. */
    var defaultLang: Option<string>
    /** The language the library has activated; `None` until one is. */
    var currentLang: Option<string>
    /** Every language passed to `use`, oldest first. */
    var requests: seq<string>

    constructor (defaultLang: Option<string>, currentLang: Option<string>)
      ensures this.defaultLang == defaultLang && this.currentLang == currentLang
      ensures requests == []
    {
      this.defaultLang := defaultLang;
      this.currentLang := currentLang;
      requests := [];
    }

    /** The language most recently requested with `use`, if any. */
    function UsedLang(): Option<string>
      reads this
    {
      if requests == [] then None else Some(requests[|requests| - 1])
    }

    method SetDefaultLang(lang: string)
      modifies this
      ensures defaultLang == Some(lang)
      ensures currentLang == old(currentLang) && requests == old(requests)
    {
      defaultLang := Some(lang);
    }

    /** Requests `lang`. The library loads it asynchronously and the caller
        does not wait, so the request is all this records. */
    method Use(lang: string)
      modifies this
      ensures requests == old(requests) + [lang]
      ensures UsedLang() == Some(lang)
      ensures defaultLang == old(defaultLang) && currentLang == old(currentLang)
    {
      requests := requests + [lang];
    }
  }

  /** The browser's durable key/value store. */
  class Storage {
    var items: map<string, string>

    constructor (items: map<string, string>)
      ensures this.items == items
    {
      this.items := items;
    }

    /** `getItem`: the stored value, or `None` (JavaScript `null`). */
    function GetItem(key: string): Option<string>
      reads this
    {
      if key in items then Some(items[key]) else None
    }

    /** `setItem`: stores `value` under `key`, leaving every other key alone. */
    method SetItem(key: string, value: string)
      modifies this
      ensures GetItem(key) == Some(value)
      ensures forall k :: k != key ==> GetItem(k) == old(GetItem(k))
      ensures items == old(items)[key := value]
    {
      items := items[key := value];
    }
  }
}
