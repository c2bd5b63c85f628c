/** The language switcher: a compact toggle button and a two-button default variant. */
module LanguageSwitcher {
  import opened LanguageContext

  /** `toggleLanguage`'s request: 'hi' from 'en', and 'en' from anything else. */
  function ToggledLanguage(language: string): (r: string)
    ensures IsSupportedLanguage(r)
    ensures language == "en" ==> r == "hi"
    ensures language != "en" ==> r == "en"
  {
    if language == "en" then "hi" else "en"
  }

  /** Toggling twice from a supported language returns to it. */
  lemma ToggleTwice(language: string)
    requires IsSupportedLanguage(language)
    ensures ToggledLanguage(ToggledLanguage(language)) == language
  {
  }

  /** The compact button's label names the language a press switches to. */
  function CompactLabel(language: string): (r: string)
    ensures r == (if ToggledLanguage(language) == "hi" then "हिंदी" else "EN")
  {
    if language == "en" then "हिंदी" else "EN"
  }

  datatype Button = EnglishButton | HindiButton

  /** The code each default-variant button requests. */
  function RequestedCode(b: Button): (r: string)
    ensures IsSupportedLanguage(r)
    ensures r == "en" <==> b == EnglishButton
    ensures r == "hi" <==> b == HindiButton
  {
    match b
    case EnglishButton => "en"
    case HindiButton => "hi"
  }

  /** A button is highlighted when it requests the current language. */
  predicate IsHighlighted(b: Button, language: string) {
    language == RequestedCode(b)
  }

  /** In a supported language exactly one button is highlighted, and pressing it
      requests the language already current. */
  lemma ExactlyOneHighlighted(language: string)
    requires IsSupportedLanguage(language)
    ensures IsHighlighted(EnglishButton, language) != IsHighlighted(HindiButton, language)
  {
  }

  /** Pressing the compact button. */
  method ToggleLanguage(provider: LanguageProvider)
    requires provider.Valid()
    modifies provider, provider.storage
    ensures provider.Valid()
    ensures provider.language == ToggledLanguage(old(provider.language))
    ensures provider.storage.items == old(provider.storage.items)[LanguageKey := provider.language]
  {
    provider.ChangeLanguage(ToggledLanguage(provider.language));
  }

  /** Pressing a default-variant button. */
  method PressButton(provider: LanguageProvider, b: Button)
    requires provider.Valid()
    modifies provider, provider.storage
    ensures provider.Valid() && provider.language == RequestedCode(b)
    ensures provider.storage.items == old(provider.storage.items)[LanguageKey := RequestedCode(b)]
  {
    provider.ChangeLanguage(RequestedCode(b));
  }
}
