/**
 * Interface translations: a lookup that falls back from the chosen language to English and
 * then to the key itself, and the current language the `t` helper reads.
 */
module Language {
  import opened Wrappers

  datatype Lang = Lang(code: string, name: string, nativeName: string)

  /** The ten languages offered in the settings, English first. */
  const Languages: seq<Lang> := [
    Lang("en", "English", "English"),
    Lang("es", "Spanish", "Español"),
    Lang("fr", "French", "Français"),
    Lang("de", "German", "Deutsch"),
    Lang("it", "Italian", "Italiano"),
    Lang("pt", "Portuguese", "Português"),
    Lang("ja", "Japanese", "日本語"),
    Lang("zh", "Chinese", "中文"),
    Lang("hi", "Hindi", "हिन्दी"),
    Lang("ar", "Arabic", "العربية")
  ]

  const English: Lang := Languages[0]

  /** The languages that have a table of their own. */
  const TableCodes: set<string> := {"en", "es", "fr", "hi"}

  /** Translation tables by language code, each from key to text. */
  type Tables = map<string, map<string, string>>

  /** The entry for `key` in `code`'s table, when there is a non-empty one. */
  function Entry(tables: Tables, code: string, key: string): (r: Option<string>)
    ensures r.Some? <==> code in tables && key in tables[code] && tables[code][key] != ""
    ensures r.Some? ==> r.value == tables[code][key]
  {
    if code in tables && key in tables[code] && tables[code][key] != "" then Some(tables[code][key]) else None
  }

  /** `getTranslation`: the language's own entry, else the English one, else the key. */
  function GetTranslation(tables: Tables, code: string, key: string): (r: string)
    ensures Entry(tables, code, key).Some? ==> r == Entry(tables, code, key).value
    ensures Entry(tables, code, key).None? && Entry(tables, "en", key).Some? ==> r == Entry(tables, "en", key).value
    ensures Entry(tables, code, key).None? && Entry(tables, "en", key).None? ==> r == key
    ensures r != ""  || key == ""
  {
    match Entry(tables, code, key)
    case Some(text) => text
    case None =>
      match Entry(tables, "en", key)
      case Some(text) => text
      case None => key
  }

  /** A language without a table of its own reads exactly like English. */
  lemma NoTableMeansEnglish(tables: Tables, code: string, key: string)
    requires code !in tables
    ensures GetTranslation(tables, code, key) == GetTranslation(tables, "en", key)
  {
  }

  /** The offered languages that have no table of their own. */
  const WithoutTable: seq<string> := ["de", "it", "pt", "ja", "zh", "ar"]

  /** With the shipped tables, German, Italian, Portuguese, Japanese, Chinese and Arabic read like English. */
  lemma ListedWithoutTableReadLikeEnglish(tables: Tables, key: string)
    requires tables.Keys == TableCodes
    ensures forall code :: code in WithoutTable ==> GetTranslation(tables, code, key) == GetTranslation(tables, "en", key)
  {
    forall code | code in WithoutTable
      ensures code !in tables
    {
      assert code[0] != 'e' && code[0] != 'f' && code[0] != 'h';
    }
  }

  /** Looking a key up is never left without text unless the key itself is empty. */
  lemma TranslationNeverEmpty(tables: Tables, code: string, key: string)
    requires key != ""
    ensures GetTranslation(tables, code, key) != ""
  {
  }

  class LanguageState {
    var language: Lang

    /** The stored language when there is one that reads back, English otherwise. */
    constructor(stored: Option<string>, readBack: string -> Option<Lang>)
      ensures stored.None? || stored == Some("") ==> language == English
      ensures stored.Some? && stored.value != "" ==> language == readBack(stored.value).GetOr(English)
    {
      if stored.Some? && stored.value != "" {
        language := readBack(stored.value).GetOr(English);
      } else {
        language := English;
      }
    }

    method SetLanguage(lang: Lang)
      modifies this
      ensures language == lang
    {
      language := lang;
    }

    /** `t(key)`: the translation in the current language. */
    function T(tables: Tables, key: string): (r: string)
      reads this
      ensures r == GetTranslation(tables, language.code, key)
    {
      GetTranslation(tables, language.code, key)
    }
  }
}
