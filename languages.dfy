/**
 * Languages and the case-insensitive lookup of a language by its code
 * (Internationalization.GetLanguageByLanguageCode).
 */
module Languages {
  import opened Wrappers

  /** A supported locale: its code ("en", "zh-cn", ...) and its display name. */
  datatype Language = Language(code: string, display: string)

  /**
   * The static AvailableLanguages table: every available language in list
   * order, and the three distinguished ones the lookup and the pinyin prompt use.
   */
  datatype Catalog = Catalog(available: seq<Language>, english: Language, chinese: Language, chineseTW: Language)

  /** Lower-casing of one character; only the ASCII letters A-Z change. */
  function LowerChar(c: char): char
  {
    if 'A' <= c <= 'Z' then (c as int - 'A' as int + 'a' as int) as char else c
  }

  /** String.ToLower, character by character. */
  function Lower(s: string): string
  {
    seq(|s|, i requires 0 <= i < |s| => LowerChar(s[i]))
  }

  /** Whether a language's code equals an already lower-cased code, ignoring case. */
  predicate Matches(language: Language, lowercase: string)
  {
    Lower(language.code) == lowercase
  }

  /** The index of the first language whose code matches, or None (FirstOrDefault). */
  function FirstMatch(languages: seq<Language>, lowercase: string): (r: Option<nat>)
    ensures r.None? <==> forall i :: 0 <= i < |languages| ==> !Matches(languages[i], lowercase)
    ensures r.Some? ==> r.value < |languages| && Matches(languages[r.value], lowercase)
    ensures r.Some? ==> forall j :: 0 <= j < r.value ==> !Matches(languages[j], lowercase)
  {
    if languages == [] then None
    else if Matches(languages[0], lowercase) then Some(0)
    else
      match FirstMatch(languages[1..], lowercase)
      case None => None
      case Some(k) => Some(k + 1)
  }

  /**
   * The first available language whose code equals languageCode ignoring case;
   * English when there is none.
   */
  function GetLanguageByLanguageCode(catalog: Catalog, languageCode: string): (r: Language)
    ensures (forall i :: 0 <= i < |catalog.available| ==> Lower(catalog.available[i].code) != Lower(languageCode))
            ==> r == catalog.english
    ensures forall i ::
              && 0 <= i < |catalog.available|
              && Lower(catalog.available[i].code) == Lower(languageCode)
              && (forall j :: 0 <= j < i ==> Lower(catalog.available[j].code) != Lower(languageCode))
              ==> r == catalog.available[i]
    ensures r == catalog.english || r in catalog.available
  {
    var lowercase := Lower(languageCode);
    match FirstMatch(catalog.available, lowercase)
    case None => catalog.english
    case Some(i) => catalog.available[i]
  }

  /** The lookup ignores the case of the code it is given. */
  lemma LookupIgnoresCase(catalog: Catalog, languageCode: string)
    ensures GetLanguageByLanguageCode(catalog, Lower(languageCode)) == GetLanguageByLanguageCode(catalog, languageCode)
  {
  }

  /**
   * Looking up the code of an available language, in any case, gives back that
   * language when no earlier language has the same code ignoring case.
   */
  lemma LookupOwnCode(catalog: Catalog, i: nat, languageCode: string)
    requires i < |catalog.available|
    requires Lower(languageCode) == Lower(catalog.available[i].code)
    requires forall j :: 0 <= j < i ==> Lower(catalog.available[j].code) != Lower(catalog.available[i].code)
    ensures GetLanguageByLanguageCode(catalog, languageCode) == catalog.available[i]
  {
  }
}
