/**
 * The interface language: the supported codes, the initial choice from the
 * browser, the `lang` store with its setter, and dictionary lookup with an
 * English fallback.  Browser state (localStorage, the address bar's
 * `?lang=`, `navigator.language`) enters as values.
 */
module I18n {
  import opened Text

  /** `languages = ['en', 'es', 'ru', 'hy']`. */
  datatype Lang = En | Es | Ru | Hy {
    function Code(): string {
      match this
      case En => "en"
      case Es => "es"
      case Ru => "ru"
      case Hy => "hy"
    }
  }

  const Languages: seq<Lang> := [En, Es, Ru, Hy]

  /** `languages.includes(s)`, and which language it names. */
  function ParseLang(s: string): (r: Option<Lang>)
    ensures r.Some? ==> r.value.Code() == s
  {
    if s == "en" then Some(En)
    else if s == "es" then Some(Es)
    else if s == "ru" then Some(Ru)
    else if s == "hy" then Some(Hy)
    else None
  }

  /** Every language is listed and its code reads back; nothing else reads as a language. */
  lemma LangCodes(l: Lang, s: string)
    ensures l in Languages && ParseLang(l.Code()) == Some(l)
    ensures ParseLang(s).None? <==> s !in {"en", "es", "ru", "hy"}
  {
  }

  type Dict = map<string, string>

  /** The dictionaries (three of their keys; every language has the same keys). */
  function Dictionary(l: Lang): (d: Dict)
    ensures d.Keys == {"nav.login", "nav.flights", "hero.title"}
    ensures forall key :: key in d ==> d[key] != ""
  {
    match l
    case En => map["nav.login" := "Sign in", "nav.flights" := "Flights", "hero.title" := "Find the best flights"]
    case Es => map["nav.login" := "Iniciar sesión", "nav.flights" := "Vuelos",
                   "hero.title" := "Encuentra vuelos al mejor precio"]
    case Ru => map["nav.login" := "Войти", "nav.flights" := "Рейсы", "hero.title" := "Найдите лучшие авиабилеты"]
    case Hy => map["nav.login" := "Մուտք գործել", "nav.flights" := "Թռիչքներ",
                   "hero.title" := "Գտիր լավագույն ավիատոմսերը"]
  }

  /** `withFallback(d, fallback)[key]`: the entry of `d`, else that of `fallback`, else the key itself. */
  function WithFallback(d: Dict, fallback: Dict, key: string): (r: string)
    ensures r in d.Values || r in fallback.Values || r == key
    ensures key in d ==> r == d[key]
    ensures key !in d && key in fallback ==> r == fallback[key]
    ensures key !in d && key !in fallback ==> r == key
  {
    if key in d then d[key] else if key in fallback then fallback[key] else key
  }

  /** `$i18n[key]` while the language is `l`. */
  function Translate(l: Lang, key: string): (r: string)
    ensures key in Dictionary(l) ==> r == Dictionary(l)[key]
    ensures key !in Dictionary(l) && key in Dictionary(En) ==> r == Dictionary(En)[key]
    ensures key !in Dictionary(l) && key !in Dictionary(En) ==> r == key
  {
    WithFallback(Dictionary(l), Dictionary(En), key)
  }

  /** In English, a key gives its English text or, when English lacks it, itself. */
  lemma TranslateEnglish(key: string)
    ensures key in Dictionary(En) ==> Translate(En, key) == Dictionary(En)[key]
    ensures key !in Dictionary(En) ==> Translate(En, key) == key
  {
  }

  /** Every dictionary has the English keys, so a key English knows is shown in the current language. */
  lemma KnownKeysTranslate(l: Lang, key: string)
    requires key in Dictionary(En)
    ensures key in Dictionary(l) && Translate(l, key) == Dictionary(l)[key]
  {
  }

  /** A key no dictionary has is shown as itself, which makes missing entries visible. */
  lemma UnknownKeysEcho(l: Lang, key: string)
    requires key !in Dictionary(l) && key !in Dictionary(En)
    ensures Translate(l, key) == key
  {
  }

  /** `s.slice(0, 2)`. */
  function Prefix2(s: string): (r: string)
    ensures |r| == if |s| < 2 then |s| else 2
    ensures r == s[..|r|]
  {
    if |s| < 2 then s else s[..2]
  }

  /** A code that is present and names a language. */
  predicate Supported(v: Option<string>) {
    v.Some? && ParseLang(v.value).Some?
  }

  /**
   * `pickInitial`: the stored choice, else `?lang=`, else the first two
   * letters of the browser language (`'en'` when it has none), else `'es'`.
   * The last two are consulted only when there is a window.
   */
  function PickInitial(stored: Option<string>, hasWindow: bool, urlLang: Option<string>,
                       navigatorLanguage: Option<string>): (r: Lang)
    ensures Supported(stored) ==> r == ParseLang(stored.value).value
    ensures !Supported(stored) && hasWindow && Supported(urlLang) ==> r == ParseLang(urlLang.value).value
    ensures !Supported(stored) && !hasWindow ==> r == Es
    ensures !Supported(stored) && hasWindow && !Supported(urlLang) ==>
              var nav := Prefix2(OrDefault(navigatorLanguage, "en"));
              (ParseLang(nav).Some? ==> r.Code() == nav) && (ParseLang(nav).None? ==> r == Es)
    ensures r == Es || (Supported(stored) && r.Code() == stored.value)
            || (hasWindow && Supported(urlLang) && r.Code() == urlLang.value)
            || (hasWindow && r.Code() == Prefix2(OrDefault(navigatorLanguage, "en")))
  {
    if Supported(stored) then ParseLang(stored.value).value
    else if hasWindow && Supported(urlLang) then ParseLang(urlLang.value).value
    else if hasWindow && ParseLang(Prefix2(OrDefault(navigatorLanguage, "en"))).Some? then
      ParseLang(Prefix2(OrDefault(navigatorLanguage, "en"))).value
    else Es
  }

  /** A browser that reports no language counts as English, so `'es'` is reached only through an unsupported browser language. */
  lemma NavigatorDefaultsToEnglish(stored: Option<string>, urlLang: Option<string>)
    requires !Supported(stored) && !Supported(urlLang)
    ensures PickInitial(stored, true, urlLang, None) == En
    ensures PickInitial(stored, true, urlLang, Some("")) == En
  {
  }

  /** A regional browser tag picks its language by the two-letter prefix. */
  lemma NavigatorRegionalTag(l: Lang, region: string)
    ensures PickInitial(None, true, None, Some(l.Code() + region)) == l
  {
    assert Prefix2(l.Code() + region) == l.Code();
  }

  /** The `lang` store and the browser state `setLang` writes. */
  class LangStore {
    var lang: Lang
    /** localStorage's 'lang' item. */
    var stored: Option<string>
    /** The address bar's `?lang=` parameter. */
    var urlLang: Option<string>
    /** Whether the code runs in a browser. */
    const hasWindow: bool

    /** `writable<Lang>('es')`: the store starts in Spanish, before any detection. */
    constructor (hasWindow: bool, stored: Option<string>, urlLang: Option<string>)
      ensures lang == Es
      ensures this.hasWindow == hasWindow && this.stored == stored && this.urlLang == urlLang
    {
      this.hasWindow := hasWindow;
      this.stored := stored;
      this.urlLang := urlLang;
      lang := Es;
    }

    /** The load-time block: in a browser, set the store to the detected language. */
    method DetectInitial(navigatorLanguage: Option<string>)
      modifies this`lang
      ensures hasWindow ==> lang == PickInitial(stored, hasWindow, urlLang, navigatorLanguage)
      ensures !hasWindow ==> lang == old(lang)
    {
      if hasWindow {
        lang := PickInitial(stored, hasWindow, urlLang, navigatorLanguage);
      }
    }

    /**
     * `setLang`: an unsupported code changes nothing; a supported one
     * becomes the language and, in a browser whose storage accepts the
     * write, is also stored and put in the address bar.
     */
    method SetLang(code: string, storageWritable: bool)
      modifies this`lang, this`stored, this`urlLang
      ensures ParseLang(code).None? ==>
        lang == old(lang) && stored == old(stored) && urlLang == old(urlLang)
      ensures ParseLang(code).Some? ==> lang == ParseLang(code).value
      ensures ParseLang(code).Some? && hasWindow && storageWritable ==>
        stored == Some(code) && urlLang == Some(code)
      ensures !(hasWindow && storageWritable) ==> stored == old(stored) && urlLang == old(urlLang)
      ensures ParseLang(code).Some? && hasWindow && storageWritable ==>
        forall nav :: PickInitial(stored, hasWindow, urlLang, nav) == lang
    {
      var parsed := ParseLang(code);
      if parsed.None? {
        return;
      }
      lang := parsed.value;
      if hasWindow && storageWritable {
        stored := Some(code);
        urlLang := Some(code);
      }
    }

    /** `$i18n[key]`. */
    function Text(key: string): (r: string)
      reads this
      ensures key in Dictionary(En) ==> r == Dictionary(lang)[key]
    {
      Translate(lang, key)
    }
  }
}
