/** The process-wide language table and its fallback to English
    (main.py:42-45, used at main.py:67, 163 and 283). */
module Locale {

  /** Display name handed to the language model, and the font the report is set in. */
  datatype LanguageConfig = LanguageConfig(name: string, font: string)

  const DEFAULT_LANGUAGE: string := "en"

  const LANGUAGE_MAP: map<string, LanguageConfig> :=
    map[
      "en" := LanguageConfig("English", "NotoSans"),
      "hi" := LanguageConfig("Hindi", "NotoSansDevanagari")
    ]

  /** `LANGUAGE_MAP.get(code, LANGUAGE_MAP["en"])`: an unknown code never fails,
      it resolves to the English entry. */
  function ResolveLanguage(code: string): (config: LanguageConfig)
    ensures config in LANGUAGE_MAP.Values
    ensures code in LANGUAGE_MAP ==> config == LANGUAGE_MAP[code]
    ensures code !in LANGUAGE_MAP ==> config == LANGUAGE_MAP[DEFAULT_LANGUAGE]
  {
    if code in LANGUAGE_MAP then LANGUAGE_MAP[code] else LANGUAGE_MAP[DEFAULT_LANGUAGE]
  }

  /** Every code other than "hi" yields English set in NotoSans; "hi" yields Hindi
      set in the Devanagari font. */
  lemma ResolveLanguageCases(code: string)
    ensures code != "hi" ==> ResolveLanguage(code) == LanguageConfig("English", "NotoSans")
    ensures code == "hi" ==> ResolveLanguage(code) == LanguageConfig("Hindi", "NotoSansDevanagari")
  {
  }
}
