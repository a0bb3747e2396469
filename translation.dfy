/** The dashboard's text lookup: a table of per-language dictionaries, the
    current language first, then English, then the key itself. */
module Translation {
  import opened Wrappers

  /** Language code to dictionary of key to text. */
  type Table = map<string, map<string, string>>

  /** A usable entry of a dictionary: present and non-empty (an empty text
      counts as missing, since the lookups are chained with `||`). */
  function Entry(dict: map<string, string>, key: string): (r: Option<string>)
    ensures r.Some? <==> key in dict && dict[key] != ""
    ensures r.Some? ==> r.value == dict[key]
  {
    if key in dict && dict[key] != "" then Some(dict[key]) else None
  }

  /** The text for `key` in `language`. None stands for the lookup failing
      outright: the current language, or English when it is needed, has no
      dictionary in the table. */
  function Translate(table: Table, language: string, key: string): (r: Option<string>)
    // fails only when a dictionary that is consulted is missing
    ensures r.None? <==>
      language !in table || (Entry(table[language], key).None? && "en" !in table)
    // the current language wins whenever it has a usable entry
    ensures language in table && Entry(table[language], key).Some? ==> r == Entry(table[language], key)
    // otherwise English, otherwise the key
    ensures language in table && Entry(table[language], key).None? && "en" in table ==>
      r == Some(if Entry(table["en"], key).Some? then table["en"][key] else key)
  {
    if language !in table then None
    else match Entry(table[language], key)
      case Some(text) => Some(text)
      case None =>
        if "en" !in table then None
        else match Entry(table["en"], key)
          case Some(text) => Some(text)
          case None => Some(key)
  }

  /** With an English dictionary and a known language the lookup always
      yields a text, and that text is empty only when the key is. */
  lemma TranslateTotal(table: Table, language: string, key: string)
    requires "en" in table && language in table
    ensures Translate(table, language, key).Some?
    ensures Translate(table, language, key).value == "" ==> key == ""
  {
  }
}
