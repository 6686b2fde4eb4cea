/** The recognition language: the locale tags offered in the language
    selector and their translation to the two-letter code the Whisper
    engine takes. */
module Language {

  /** The values of the language selector, in display order. */
  const LocaleTags: seq<string> := ["ru-RU", "en-US", "de-DE", "fr-FR", "es-ES"]

  /** The table from locale tag to Whisper language code. */
  const TagToCode: map<string, string> :=
    map["ru-RU" := "ru", "en-US" := "en", "de-DE" := "de", "fr-FR" := "fr", "es-ES" := "es"]

  /** The code the engine is asked to transcribe in: an offered tag
      yields its own language part, anything else falls back to English. */
  function WhisperLanguageCode(tag: string): (code: string)
    ensures tag in LocaleTags ==> code == tag[..2]
    ensures tag !in LocaleTags ==> code == "en"
    ensures code in {"ru", "en", "de", "fr", "es"}
  {
    if tag in TagToCode then TagToCode[tag] else "en"
  }

  /** The code is English exactly for "en-US" and for every unknown tag. */
  lemma EnglishIffDefaultOrEnUs(tag: string)
    ensures WhisperLanguageCode(tag) == "en" <==> tag == "en-US" || tag !in LocaleTags
  {
    if tag in LocaleTags {
      var k :| 0 <= k < |LocaleTags| && LocaleTags[k] == tag;
      assert k == 0 || k == 1 || k == 2 || k == 3 || k == 4;
    }
  }

  /** Distinct offered tags select distinct languages. */
  lemma OfferedTagsDistinguished(a: string, b: string)
    requires a in LocaleTags && b in LocaleTags && a != b
    ensures WhisperLanguageCode(a) != WhisperLanguageCode(b)
  {
    var i :| 0 <= i < |LocaleTags| && LocaleTags[i] == a;
    var j :| 0 <= j < |LocaleTags| && LocaleTags[j] == b;
    assert i == 0 || i == 1 || i == 2 || i == 3 || i == 4;
    assert j == 0 || j == 1 || j == 2 || j == 3 || j == 4;
  }
}
