/**
 * The interface language (`LanguageContext`): three languages, a constant table of
 * translations per language, a current language that starts as Spanish, and a
 * lookup `t` that falls back to the key itself.
 */
module Language {
  import opened Wrappers

  /** `type Language = "en" | "es" | "ca"`. */
  datatype Lang = En | Es | Ca

  function Code(l: Lang): (c: string)
    ensures c == "en" || c == "es" || c == "ca"
  {
    match l
    case En => "en"
    case Es => "es"
    case Ca => "ca"
  }

  /** `Record<Language, Record<string, string>>`: one table per language. */
  datatype Translations = Translations(en: map<string, string>, es: map<string, string>, ca: map<string, string>)
  {
    function For(l: Lang): map<string, string> {
      match l
      case En => en
      case Es => es
      case Ca => ca
    }
  }

  /** `translations[lang][key] || key`: a present, non-empty entry, else the key. */
  function Translate(table: Translations, l: Lang, key: string): (r: string)
    ensures key in table.For(l) && table.For(l)[key] != "" ==> r == table.For(l)[key]
    ensures !(key in table.For(l) && table.For(l)[key] != "") ==> r == key
    ensures r == key || key in table.For(l)
  {
    var entries := table.For(l);
    if key in entries && entries[key] != "" then entries[key] else key
  }

  /** The state behind `LanguageProvider`. */
  class LanguageProvider {
    const translations: Translations
    var lang: Lang

    /** `useState<Language>("es")`. */
    constructor (table: Translations)
      ensures translations == table && lang == Es
    {
      translations := table;
      lang := Es;
    }

    /** `setLang`: only the table `t` reads from changes. */
    method SetLang(l: Lang)
      modifies this
      ensures lang == l
      ensures forall key :: T(key) == Translate(translations, l, key)
    {
      lang := l;
    }

    /** `t`: the lookup in the current language's table. */
    function T(key: string): (r: string)
      reads this
      ensures r == key || key in translations.For(lang)
      ensures key in translations.For(lang) && translations.For(lang)[key] != "" ==> r == translations.For(lang)[key]
    {
      Translate(translations, lang, key)
    }
  }

  const OutsideLanguage: string := "useLanguage must be used within a LanguageProvider"

  /** `useLanguage`: the provider in scope, or the error thrown outside one. */
  function UseLanguage(context: Option<LanguageProvider>): (r: Result<LanguageProvider, string>)
    ensures context.None? <==> r == Failure(OutsideLanguage)
    ensures context.Some? ==> r == Success(context.value)
  {
    UseContext(context, OutsideLanguage)
  }

  /** A key missing from every table is shown as itself in every language. */
  lemma MissingKeyShownVerbatim(table: Translations, key: string)
    requires key !in table.en && key !in table.es && key !in table.ca
    ensures forall l :: Translate(table, l, key) == key
  {
    forall l ensures Translate(table, l, key) == key {
      assert key !in table.For(l);
    }
  }

  /** A client: switching from Spanish to English and back reads the Spanish table again. */
  method SwitchBack(table: Translations, key: string)
  {
    var p := new LanguageProvider(table);
    ghost var spanish := p.T(key);
    p.SetLang(En);
    assert p.T(key) == Translate(table, En, key);
    p.SetLang(Es);
    assert p.T(key) == spanish;
  }
}
