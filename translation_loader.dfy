/**
 * The translation loader handed to ngx-translate (`HttpLoaderFactory`).
 * For a language it issues one HTTP GET for that language's JSON file,
 * with the current clock value as a query parameter so that a cached copy
 * of an earlier response is never reused. The loader has no fields: the
 * request depends on the language and the clock value and nothing else,
 * which is why it is modelled as a function.
 */
module TranslationLoader {
  import opened Decimal

  /** Directory the translation files are served from. */
  const AssetPrefix: string := "./assets/i18n/"
  /** What follows the language code: the file extension and the cache-busting parameter. */
  const VersionQuery: string := ".json?v="

  /** The one effect of `getTranslation`: an HTTP GET of `url`. */
  datatype HttpRequest = HttpGet(url: string)

  /** `getTranslation(lang)` when the clock (`Date.now()`) reads `now`.
      The URL is the prefix, then `lang` verbatim, then `.json?v=`, then
      the canonical numeral of `now` (no leading zero), which parses back
      to `now`. */
  function GetTranslation(lang: string, now: nat): (req: HttpRequest)
    ensures |req.url| > |AssetPrefix| + |lang| + |VersionQuery|
    ensures req.url[..|AssetPrefix|] == AssetPrefix
    ensures req.url[|AssetPrefix|..|AssetPrefix| + |lang|] == lang
    ensures req.url[|AssetPrefix| + |lang|..|AssetPrefix| + |lang| + |VersionQuery|] == VersionQuery
    ensures IsDecimal(req.url[|AssetPrefix| + |lang| + |VersionQuery|..])
    ensures DecimalValue(req.url[|AssetPrefix| + |lang| + |VersionQuery|..]) == now
    ensures req.url[|AssetPrefix| + |lang| + |VersionQuery|..] == NatToDecimal(now)
    ensures req.url[|AssetPrefix| + |lang| + |VersionQuery|] == '0' ==> now == 0
  {
    DecimalRoundTrip(now);
    var url := AssetPrefix + lang + VersionQuery + NatToDecimal(now);
    assert url[|AssetPrefix| + |lang| + |VersionQuery|..] == NatToDecimal(now);
    HttpGet(url)
  }

  /** Length of the run of digits `s` ends with. */
  function TrailingDigits(s: string): (n: nat)
    ensures n <= |s|
  {
    if s == [] || !IsDigit(s[|s| - 1]) then 0 else 1 + TrailingDigits(s[..|s| - 1])
  }

  /** After a `=`, a run of digits is exactly the trailing digit run. */
  lemma {:induction false} TrailingDigitsAfterEquals(p: string, d: string)
    requires |p| > 0 && p[|p| - 1] == '='
    requires forall i :: 0 <= i < |d| ==> IsDigit(d[i])
    ensures TrailingDigits(p + d) == |d|
  {
    if d == [] {
      assert p + d == p;
    } else {
      var s := p + d;
      assert s[..|s| - 1] == p + d[..|d| - 1];
      TrailingDigitsAfterEquals(p, d[..|d| - 1]);
    }
  }

  /** A request URL determines both the language and the clock value it
      was built from: the clock digits are the URL's trailing digit run,
      and the language is what lies between the prefix and `.json?v=`. */
  lemma {:induction false} RequestDeterminesLanguageAndTime(lang1: string, now1: nat, lang2: string, now2: nat)
    requires GetTranslation(lang1, now1).url == GetTranslation(lang2, now2).url
    ensures lang1 == lang2 && now1 == now2
  {
    var url := GetTranslation(lang1, now1).url;
    var d1, d2 := NatToDecimal(now1), NatToDecimal(now2);
    assert url == (AssetPrefix + lang1 + VersionQuery) + d1;
    assert url == (AssetPrefix + lang2 + VersionQuery) + d2;
    TrailingDigitsAfterEquals(AssetPrefix + lang1 + VersionQuery, d1);
    TrailingDigitsAfterEquals(AssetPrefix + lang2 + VersionQuery, d2);
    assert lang1 == url[|AssetPrefix|..|AssetPrefix| + |lang1|];
    assert lang2 == url[|AssetPrefix|..|AssetPrefix| + |lang2|];
    assert d1 == url[|url| - |d1|..] == d2;
    if now1 != now2 {
      NatToDecimalInjective(now1, now2);
    }
  }

  /** At one clock value, different languages are fetched from different URLs. */
  lemma RequestDistinguishesLanguage(lang1: string, lang2: string, now: nat)
    requires lang1 != lang2
    ensures GetTranslation(lang1, now).url != GetTranslation(lang2, now).url
  {
  }

  /** Cache busting: for one language, requests made at different clock
      values use different URLs. */
  lemma RequestDistinguishesTime(lang: string, now1: nat, now2: nat)
    requires now1 != now2
    ensures GetTranslation(lang, now1).url != GetTranslation(lang, now2).url
  {
  }
}
