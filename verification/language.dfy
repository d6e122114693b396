/**
 * The language provider: it detects the browser's language, restores or
 * stores the choice under one localStorage key, and hands out the copy of
 * the current language. `localStorage` is a map field, the browser's
 * `navigator` values and the presence of `window` are parameters, and
 * React's effects are explicit methods run in the order React runs them.
 */
module Language {
  import opened Wrappers
  import opened Text

  /** `LanguageCode`. */
  datatype Lang = Es | En

  function Code(l: Lang): string
  {
    match l
    case Es => "es"
    case En => "en"
  }

  const StorageKey := "portafolio-language"

  /** `navigator.language || navigator.userLanguage || 'es'`. */
  function BrowserLanguageTag(language: Option<string>, userLanguage: Option<string>): (tag: string)
    ensures tag != ""
    ensures Truthy(language) ==> tag == language.value
    ensures !Truthy(language) && Truthy(userLanguage) ==> tag == userLanguage.value
    ensures !Truthy(language) && !Truthy(userLanguage) ==> tag == "es"
  {
    if Truthy(language) then language.value
    else if Truthy(userLanguage) then userLanguage.value
    else "es"
  }

  /**
   * `getBrowserLanguage`: English only for a browser tag starting with "en";
   * Spanish for "es", for anything else, and when there is no window.
   */
  function DetectLanguage(hasWindow: bool, language: Option<string>, userLanguage: Option<string>): (l: Lang)
    ensures l == En <==> hasWindow && StartsWith(BrowserLanguageTag(language, userLanguage), "en")
    ensures hasWindow && StartsWith(BrowserLanguageTag(language, userLanguage), "es") ==> l == Es
  {
    if !hasWindow then Es
    else
      var tag := BrowserLanguageTag(language, userLanguage);
      if StartsWith(tag, "es") then Es
      else if StartsWith(tag, "en") then En
      else Es
  }

  /** The saved value is used only when it is exactly "es" or "en". */
  function ParseStored(saved: Option<string>): (r: Option<Lang>)
    ensures r.Some? <==> saved == Some("es") || saved == Some("en")
    ensures r.Some? ==> saved == Some(Code(r.value))
  {
    if saved == Some("es") then Some(Es)
    else if saved == Some("en") then Some(En)
    else None
  }

  /** What is stored for a language reads back as that language. */
  lemma StoredCodeRoundTrip(l: Lang)
    ensures ParseStored(Some(Code(l))) == Some(l)
  {
  }

  /** The part of a `Translation` record this model keeps. */
  datatype Translation = Translation(languageName: string, filterAllLabel: string)

  /** `translations[language]`. */
  function TranslationFor(l: Lang): Translation
  {
    match l
    case Es => Translation("Español", "Todos")
    case En => Translation("English", "All")
  }

  /** `languageOptions`: the values and labels of the language selector. */
  const LanguageOptions: seq<(string, string)> := [("es", "Español"), ("en", "English")]

  /** What `useLanguage` throws outside the provider. */
  const OutsideProviderError := "useLanguage debe usarse dentro de LanguageProvider"

  /** `useLanguage`: the provider's value, or the error when there is no provider above. */
  function UseLanguage<C>(context: Option<C>): (r: Result<C, string>)
    ensures r.Success? <==> context.Some?
    ensures r.Success? ==> r.value == context.value
    ensures r.Failure? ==> r.error == OutsideProviderError
  {
    match context
    case Some(c) => Success(c)
    case None => Failure(OutsideProviderError)
  }

  /** The state of `LanguageProvider` together with the browser storage it uses. */
  class LanguageProvider {
    var language: Lang
    var isInitialized: bool
    /** `localStorage`. */
    var storage: map<string, string>
    /** `document.documentElement.lang`. */
    var documentLang: string

    /** The stored choice and the page's language both equal the current language. */
    ghost predicate Persisted()
      reads this
    {
      StorageKey in storage && storage[StorageKey] == Code(language) && documentLang == Code(language)
    }

    /** `localStorage.getItem(STORAGE_KEY)`. */
    function Saved(): Option<string>
      reads this
    {
      if StorageKey in storage then Some(storage[StorageKey]) else None
    }

    /** The first render: Spanish, not yet initialised, the browser's storage as it was. */
    constructor (browserStorage: map<string, string>, pageLang: string)
      ensures language == Es && !isInitialized
      ensures storage == browserStorage && documentLang == pageLang
    {
      language := Es;
      isInitialized := false;
      storage := browserStorage;
      documentLang := pageLang;
    }

    /** The mount effect: a valid saved value wins, otherwise the detected language is used and saved. */
    method InitEffect(hasWindow: bool, navigatorLanguage: Option<string>, userLanguage: Option<string>)
      modifies this
      ensures isInitialized
      ensures ParseStored(old(Saved())).Some? ==>
        language == ParseStored(old(Saved())).value && storage == old(storage)
      ensures ParseStored(old(Saved())).None? ==>
        && language == DetectLanguage(hasWindow, navigatorLanguage, userLanguage)
        && storage == old(storage)[StorageKey := Code(language)]
      ensures Persisted()
    {
      var saved := Saved();
      var stored := ParseStored(saved);
      if stored.Some? {
        language := stored.value;
        documentLang := Code(language);
      } else {
        var detected := DetectLanguage(hasWindow, navigatorLanguage, userLanguage);
        language := detected;
        documentLang := Code(detected);
        storage := storage[StorageKey := Code(detected)];
      }
      isInitialized := true;
    }

    /** The persist effect: nothing before initialisation, afterwards storage and page follow the language. */
    method PersistEffect()
      modifies this
      ensures language == old(language) && isInitialized == old(isInitialized)
      ensures !isInitialized ==> storage == old(storage) && documentLang == old(documentLang)
      ensures isInitialized ==> storage == old(storage)[StorageKey := Code(language)] && Persisted()
    {
      if !isInitialized {
        return;
      }
      storage := storage[StorageKey := Code(language)];
      documentLang := Code(language);
    }

    /** `setLanguage`: only the state changes; storage follows in the persist effect. */
    method SetLanguage(l: Lang)
      modifies this
      ensures language == l
      ensures isInitialized == old(isInitialized) && storage == old(storage) && documentLang == old(documentLang)
    {
      language := l;
    }

    /** Mounting the provider: the init effect, then the persist effect it triggers. */
    method Mount(hasWindow: bool, navigatorLanguage: Option<string>, userLanguage: Option<string>)
      modifies this
      ensures isInitialized && Persisted()
      ensures ParseStored(old(Saved())).Some? ==> language == ParseStored(old(Saved())).value
      ensures ParseStored(old(Saved())).None? ==>
        language == DetectLanguage(hasWindow, navigatorLanguage, userLanguage)
      ensures storage == old(storage)[StorageKey := Code(language)]
    {
      InitEffect(hasWindow, navigatorLanguage, userLanguage);
      PersistEffect();
    }

    /** A change of language after mounting: the state update, then the persist effect it triggers. */
    method ChangeLanguage(l: Lang)
      requires isInitialized
      modifies this
      ensures language == l && isInitialized && Persisted()
      ensures storage == old(storage)[StorageKey := Code(l)]
    {
      SetLanguage(l);
      PersistEffect();
    }

    /** `copy`: the translation record of the current language, named as the selector names it. */
    function Copy(): (t: Translation)
      reads this
      ensures t == TranslationFor(language)
      ensures exists i ::
        && 0 <= i < |LanguageOptions|
        && LanguageOptions[i].0 == Code(language)
        && t.languageName == LanguageOptions[i].1
    {
      assert LanguageOptions[0].0 == Code(Es) && LanguageOptions[1].0 == Code(En);
      TranslationFor(language)
    }
  }
}
