/**
 * `useIdioma`: the interface language, taken from the browser's language tag (given here as the
 * parameter `language`, for `navigator.language`).
 */
module Idioma {
  import opened Text

  /** The languages the site is translated into. */
  const Soportados: seq<string> := ["es", "en", "fr", "de"]
  const PorDefecto: string := "es"

  /** `language.split("-")[0]`: the primary subtag, the text before the first "-". */
  function Subetiqueta(language: string): (lang: string)
    ensures lang == language[..FirstIndex(language, '-')]
    ensures '-' !in lang
  {
    SplitHead(language, '-');
    Split(language, '-')[0]
  }

  /** The primary subtag when it is supported exactly as written, otherwise "es". */
  function UseIdioma(language: string): (r: string)
    ensures r in Soportados
    ensures Subetiqueta(language) in Soportados ==> r == Subetiqueta(language)
    ensures Subetiqueta(language) !in Soportados ==> r == PorDefecto
  {
    var lang := Split(language, '-')[0];
    if lang in Soportados then lang else PorDefecto
  }

  /** Applying the choice to its own result changes nothing. */
  lemma UseIdiomaIdempotent(language: string)
    ensures UseIdioma(UseIdioma(language)) == UseIdioma(language)
  {
    var r := UseIdioma(language);
    assert '-' !in r by {
      assert r == "es" || r == "en" || r == "fr" || r == "de";
      assert r[0] != '-' && r[1] != '-';
    }
    SplitWithoutSeparator(r, '-');
  }

  /** A regional tag of a supported language selects that language: "fr-CA" gives "fr". */
  lemma RegionIgnored()
    ensures UseIdioma("fr-CA") == "fr"
  {
    SplitOnSeparator("fr", '-', "CA");
    assert "fr" + ['-'] + "CA" == "fr-CA";
  }

  /** The comparison is case-sensitive: "EN-US" is not recognised and gives "es". */
  lemma UpperCaseNotRecognised()
    ensures UseIdioma("EN-US") == PorDefecto
  {
    SplitOnSeparator("EN", '-', "US");
    assert "EN" + ['-'] + "US" == "EN-US";
    assert "EN" !in Soportados by {
      assert "EN"[0] != "es"[0] && "EN"[0] != "en"[0] && "EN"[0] != "fr"[0] && "EN"[0] != "de"[0];
    }
  }
}
