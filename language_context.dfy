/**
 * The language provider: the current language ('en' or 'hi'), saved under a
 * `localStorage` key, and the translation function `t` with its fallback chain and
 * `{param}` substitution. The translation tables are a parameter; `Excerpt` holds a
 * few real entries for the worked examples.
 */
module LanguageContext {
  import opened Wrappers
  import opened Strings
  import opened Storage

  const LanguageKey: string := "pfa_language"
  const DefaultLanguage: string := "en"

  /** The keys of `LANGUAGES`. */
  const SupportedLanguages: set<string> := {"en", "hi"}

  /** Member names every JavaScript object inherits from `Object.prototype`; looking
      one of them up in `LANGUAGES` gives a truthy value. */
  const ObjectPrototypeMembers: set<string> := {
    "constructor", "hasOwnProperty", "isPrototypeOf", "propertyIsEnumerable",
    "toLocaleString", "toString", "valueOf", "__proto__",
    "__defineGetter__", "__defineSetter__", "__lookupGetter__", "__lookupSetter__"
  }

  /** The guard `LANGUAGES[code]` as written: truthy for the two own keys and for every
      inherited member name. */
  predicate IsLanguageKeyAsWritten(code: string) {
    code in SupportedLanguages || code in ObjectPrototypeMembers
  }

  /** The guard as intended: only a code that `LANGUAGES` defines. */
  predicate IsSupportedLanguage(code: string) {
    code in SupportedLanguages
  }

  /** The as-written guard lets "toString" through, and a provider holding it would
      report neither `isHindi` nor `isEnglish`. */
  lemma AsWrittenGuardAcceptsInheritedName()
    ensures IsLanguageKeyAsWritten("toString") && !IsSupportedLanguage("toString")
    ensures !IsHindi("toString") && !IsEnglish("toString")
  {
  }

  /** The intended guard accepts exactly 'en' and 'hi', and for those exactly one of
      `isHindi`/`isEnglish` holds. */
  lemma SupportedLanguagesHaveOneFlag(code: string)
    ensures IsSupportedLanguage(code) <==> code == "en" || code == "hi"
    ensures IsSupportedLanguage(code) ==> IsHindi(code) != IsEnglish(code)
    ensures !(IsHindi(code) && IsEnglish(code))
  {
  }

  /** `isHindi`. */
  predicate IsHindi(language: string) {
    language == "hi"
  }

  /** `isEnglish`. */
  predicate IsEnglish(language: string) {
    language == "en"
  }

  type Table = map<string, string>

  /** A truthy (present and non-empty) entry of the table for `language`. */
  function Entry(tables: map<string, Table>, language: string, key: string): Option<string> {
    if language in tables && key in tables[language] && tables[language][key] != "" then
      Some(tables[language][key])
    else None
  }

  /** `translations[language]?.[key] || translations.en[key] || key`: never empty for a
      non-empty key, and always one of the three candidates. */
  function Lookup(tables: map<string, Table>, language: string, key: string): (r: string)
    ensures key != "" ==> r != ""
    ensures r == key || Entry(tables, language, key) == Some(r) || Entry(tables, "en", key) == Some(r)
  {
    Entry(tables, language, key).GetOr(Entry(tables, "en", key).GetOr(key))
  }

  /** The placeholder a parameter name stands for in a translation: `{name}`. */
  function Placeholder(name: string): string {
    "{" + name + "}"
  }

  /** The `forEach` over the parameter names, in order: each replaces the first
      occurrence of its placeholder in the text produced so far. */
  function ApplyParams(text: string, params: seq<(string, string)>): string
    decreases params
  {
    if params == [] then text
    else ApplyParams(ReplaceFirst(text, Placeholder(params[0].0), params[0].1), params[1..])
  }

  /** `t(key, params)` inside a provider. */
  function Translate(tables: map<string, Table>, language: string, key: string,
                     params: seq<(string, string)>): string {
    ApplyParams(Lookup(tables, language, key), params)
  }

  /** `t` of the fallback returned outside a provider: parameters are ignored. */
  function FallbackTranslate(tables: map<string, Table>, key: string): (r: string)
    ensures r == key || Entry(tables, "en", key) == Some(r)
  {
    Entry(tables, "en", key).GetOr(key)
  }

  // The three levels of the fallback chain

  lemma LookupPrefersCurrentLanguage(tables: map<string, Table>, language: string, key: string)
    requires language in tables && key in tables[language] && tables[language][key] != ""
    ensures Lookup(tables, language, key) == tables[language][key]
  {
  }

  lemma LookupFallsBackToEnglish(tables: map<string, Table>, language: string, key: string)
    requires Entry(tables, language, key).None?
    requires "en" in tables && key in tables["en"] && tables["en"][key] != ""
    ensures Lookup(tables, language, key) == tables["en"][key]
  {
  }

  lemma LookupFallsBackToKey(tables: map<string, Table>, language: string, key: string)
    requires Entry(tables, language, key).None? && Entry(tables, "en", key).None?
    ensures Lookup(tables, language, key) == key
  {
  }

  /** Without parameters `t` returns the looked-up string unchanged, and outside a
      provider `t` behaves as an English provider's `t` without parameters, whatever
      parameters it is given. */
  lemma NoParamsAndFallback(tables: map<string, Table>, language: string, key: string,
                            params: seq<(string, string)>)
    ensures Translate(tables, language, key, []) == Lookup(tables, language, key)
    ensures FallbackTranslate(tables, key) == Translate(tables, "en", key, [])
  {
  }

  /** A text that contains none of the parameters' placeholders comes back unchanged:
      placeholders without a parameter stay, and parameters without a placeholder do
      nothing. */
  lemma {:induction false} ApplyParamsWithoutPlaceholders(text: string, params: seq<(string, string)>)
    requires forall k :: 0 <= k < |params| ==> IndexOf(text, Placeholder(params[k].0)).None?
    ensures ApplyParams(text, params) == text
  {
    if params != [] {
      ApplyParamsWithoutPlaceholders(text, params[1..]);
    }
  }

  /** The entries of the real tables used in the examples. The Hindi table has no
      'sosAlerts' entry, so that key falls back to English. */
  const EnglishExcerpt: Table := map[
    "navHome" := "Home", "navCommunity" := "Community", "navSOS" := "SOS", "navProfile" := "Profile",
    "sosAlerts" := "SOS Alerts", "joinedDaysAgo" := "Joined {days} days ago",
    "loggedOut" := "Logged out successfully"]
  const HindiExcerpt: Table := map[
    "navHome" := "होम", "navCommunity" := "कम्युनिटी", "navSOS" := "SOS", "navProfile" := "प्रोफाइल",
    "joinedDaysAgo" := "{days} दिन पहले जुड़े", "loggedOut" := "लॉग आउट हो गया"]
  const Excerpt: map<string, Table> := map["en" := EnglishExcerpt, "hi" := HindiExcerpt]

  /** `t('sosAlerts')` in Hindi falls back to the English string; an unknown key comes
      back as itself. */
  lemma HindiFallbackExample()
    ensures Translate(Excerpt, "hi", "sosAlerts", []) == "SOS Alerts"
    ensures Translate(Excerpt, "hi", "noSuchKey", []) == "noSuchKey"
  {
  }

  /** `t('joinedDaysAgo', {days})` in English, for any printed value of `days`. */
  lemma JoinedDaysInEnglish(days: string)
    ensures Translate(Excerpt, "en", "joinedDaysAgo", [("days", days)]) == "Joined " + days + " days ago"
  {
    var text := "Joined {days} days ago";
    assert Lookup(Excerpt, "en", "joinedDaysAgo") == text by {
      assert Excerpt["en"] == EnglishExcerpt;
      assert EnglishExcerpt["joinedDaysAgo"] == text;
    }
    ReplaceDaysExample(text, days, "Joined " + days + " days ago");
  }

  /** Substituting `{days}` in the English `joinedDaysAgo` string. */
  lemma ReplaceDaysExample(text: string, days: string, sentence: string)
    requires text == "Joined {days} days ago" && sentence == "Joined " + days + " days ago"
    ensures ApplyParams(text, [("days", days)]) == sentence
  {
    assert Placeholder("days") == "{days}";
    assert text == "Joined " + "{days}" + " days ago";
    ReplaceAfterPrefix("Joined ", "{days}", " days ago", days);
    OneParam(text, "days", days);
  }

  /** With one parameter, `t` replaces the first occurrence of its placeholder. */
  lemma OneParam(text: string, name: string, value: string)
    ensures ApplyParams(text, [(name, value)]) == ReplaceFirst(text, Placeholder(name), value)
  {
    assert [(name, value)][1..] == [];
  }

  /** The provider. Its language is always one the tables are meant to have. */
  class LanguageProvider {
    var language: string
    const tables: map<string, Table>
    const storage: LocalStorage

    ghost predicate Valid()
      reads this
    {
      IsSupportedLanguage(language)
    }

    /** `useState('en')`. */
    constructor (tables: map<string, Table>, storage: LocalStorage)
      ensures Valid() && language == DefaultLanguage
      ensures this.tables == tables && this.storage == storage
    {
      language := DefaultLanguage;
      this.tables := tables;
      this.storage := storage;
    }

    /** The mount-time effect: a saved language is adopted only if it is supported. */
    method LoadSavedLanguage()
      requires Valid()
      modifies this
      ensures Valid()
      ensures var saved := storage.GetItem(LanguageKey);
        language == if saved.Some? && saved.value != "" && IsSupportedLanguage(saved.value)
                    then saved.value else old(language)
    {
      var saved := storage.GetItem(LanguageKey);
      if saved.Some? && saved.value != "" && IsSupportedLanguage(saved.value) {
        language := saved.value;
      }
    }

    /** `changeLanguage`: a supported code sets both the language and storage; any other
        code changes neither. */
    method ChangeLanguage(code: string)
      requires Valid()
      modifies this, storage
      ensures Valid()
      ensures IsSupportedLanguage(code) ==>
        language == code && storage.items == old(storage.items)[LanguageKey := code]
      ensures !IsSupportedLanguage(code) ==>
        language == old(language) && storage.items == old(storage.items)
    {
      if IsSupportedLanguage(code) {
        language := code;
        storage.SetItem(LanguageKey, code);
      }
    }

    /** `t(key, params)`: the lookup, then one replacement per parameter, in order. */
    method T(key: string, params: seq<(string, string)>) returns (text: string)
      ensures text == Translate(tables, language, key, params)
    {
      text := Lookup(tables, language, key);
      ghost var looked := text;
      for i := 0 to |params|
        invariant ApplyParams(text, params[i..]) == ApplyParams(looked, params)
      {
        assert params[i..][1..] == params[i + 1..];
        text := ReplaceFirst(text, Placeholder(params[i].0), params[i].1);
      }
      assert params[|params|..] == [];
    }
  }
}
