/**
 * The language catalog (`get_supported_languages`): a constant dictionary
 * from language code to English display name, `auto` first.
 */
module Languages {

  type Code = string

  /** The entries of the dictionary literal, in the order they are written. */
  const Catalog: seq<(Code, string)> := [
    ("auto", "Auto-detect"),
    ("en", "English"),
    ("es", "Spanish"),
    ("fr", "French"),
    ("de", "German"),
    ("it", "Italian"),
    ("pt", "Portuguese"),
    ("nl", "Dutch"),
    ("ja", "Japanese"),
    ("ko", "Korean"),
    ("zh", "Chinese"),
    ("ar", "Arabic"),
    ("ru", "Russian"),
    ("hi", "Hindi")
  ]

  /** No code occurs twice. */
  predicate DistinctKeys(pairs: seq<(Code, string)>)
  {
    forall i, j :: 0 <= i < j < |pairs| ==> pairs[i].0 != pairs[j].0
  }

  /**
   * The catalog as an insertion-ordered dictionary: fourteen entries with
   * distinct codes, the auto-detect sentinel first.
   */
  function SupportedLanguages(): (langs: seq<(Code, string)>)
    ensures |langs| == 14
    ensures langs[0] == ("auto", "Auto-detect")
    ensures DistinctKeys(langs)
  {
    Catalog
  }

  /**
   * The dictionary a Python dict display builds from `pairs`: entries are
   * inserted left to right, a repeated key keeping the last value.
   */
  function ToDict(pairs: seq<(Code, string)>): (d: map<Code, string>)
    ensures forall k :: k in d <==> exists i :: 0 <= i < |pairs| && pairs[i].0 == k
    ensures pairs != [] ==> pairs[|pairs| - 1].0 in d && d[pairs[|pairs| - 1].0] == pairs[|pairs| - 1].1
    decreases |pairs|
  {
    if pairs == [] then map[]
    else
      var init := pairs[..|pairs| - 1];
      var d := ToDict(init)[pairs[|pairs| - 1].0 := pairs[|pairs| - 1].1];
      assert forall i :: 0 <= i < |init| ==> init[i] == pairs[i];
      d
  }

  /** Dropping the last pair keeps the keys distinct, and the last key is not among the others. */
  lemma DistinctKeysInit(pairs: seq<(Code, string)>)
    requires pairs != [] && DistinctKeys(pairs)
    ensures DistinctKeys(pairs[..|pairs| - 1])
    ensures pairs[|pairs| - 1].0 !in ToDict(pairs[..|pairs| - 1])
  {
    var init := pairs[..|pairs| - 1];
    forall i | 0 <= i < |init| ensures init[i] == pairs[i] {
    }
  }

  /**
   * With distinct keys the dictionary has one entry per pair, maps every key
   * to its own value, and has no other keys.
   */
  lemma {:induction false} ToDictOfDistinctKeys(pairs: seq<(Code, string)>)
    requires DistinctKeys(pairs)
    ensures |ToDict(pairs)| == |pairs|
    ensures forall i :: 0 <= i < |pairs| ==> pairs[i].0 in ToDict(pairs) && ToDict(pairs)[pairs[i].0] == pairs[i].1
    ensures forall k :: k in ToDict(pairs) ==> exists i :: 0 <= i < |pairs| && pairs[i].0 == k
    decreases |pairs|
  {
    if pairs != [] {
      var init := pairs[..|pairs| - 1];
      DistinctKeysInit(pairs);
      ToDictOfDistinctKeys(init);
      forall i | 0 <= i < |pairs| ensures pairs[i].0 in ToDict(pairs) && ToDict(pairs)[pairs[i].0] == pairs[i].1 {
        if i < |pairs| - 1 {
          assert pairs[i] == init[i];
        }
      }
    }
  }

  /** The fourteen codes, as a set. */
  const Codes: set<Code> := {"auto", "en", "es", "fr", "de", "it", "pt", "nl", "ja", "ko", "zh", "ar", "ru", "hi"}

  /** Every code of the catalog is one of the fourteen, and each of them is listed. */
  lemma CatalogCodes()
    ensures forall i :: 0 <= i < |Catalog| ==> Catalog[i].0 in Codes
    ensures forall k :: k in Codes ==> exists i :: 0 <= i < |Catalog| && Catalog[i].0 == k
  {
    forall k | k in Codes ensures exists i :: 0 <= i < |Catalog| && Catalog[i].0 == k {
      if k == "auto" { assert Catalog[0].0 == k; }
      else if k == "en" { assert Catalog[1].0 == k; }
      else if k == "es" { assert Catalog[2].0 == k; }
      else if k == "fr" { assert Catalog[3].0 == k; }
      else if k == "de" { assert Catalog[4].0 == k; }
      else if k == "it" { assert Catalog[5].0 == k; }
      else if k == "pt" { assert Catalog[6].0 == k; }
      else if k == "nl" { assert Catalog[7].0 == k; }
      else if k == "ja" { assert Catalog[8].0 == k; }
      else if k == "ko" { assert Catalog[9].0 == k; }
      else if k == "zh" { assert Catalog[10].0 == k; }
      else if k == "ar" { assert Catalog[11].0 == k; }
      else if k == "ru" { assert Catalog[12].0 == k; }
      else { assert Catalog[13].0 == k; }
    }
  }

  /** Every key of the catalog's dictionary is one of the fourteen codes. */
  lemma CatalogKeysAmongCodes()
    ensures ToDict(SupportedLanguages()).Keys <= Codes
  {
    var langs := SupportedLanguages();
    ToDictOfDistinctKeys(langs);
    CatalogCodes();
    forall k | k in ToDict(langs) ensures k in Codes {
      var i :| 0 <= i < |langs| && langs[i].0 == k;
    }
  }

  /** The catalog's dictionary has exactly the fourteen codes as keys. */
  lemma CatalogKeys()
    ensures ToDict(SupportedLanguages()).Keys == Codes
  {
    ToDictOfDistinctKeys(SupportedLanguages());
    CatalogCodes();
    CatalogKeysAmongCodes();
  }

  /**
   * The dictionary the source returns has fourteen entries, each code mapped
   * to the name written beside it.
   */
  lemma CatalogDictionary()
    ensures |ToDict(SupportedLanguages())| == 14
    ensures forall i :: 0 <= i < |Catalog| ==> Catalog[i].0 in ToDict(SupportedLanguages()) && ToDict(SupportedLanguages())[Catalog[i].0] == Catalog[i].1
  {
    ToDictOfDistinctKeys(SupportedLanguages());
  }

  /** The sentinel `auto` is a key and names auto-detection. */
  lemma AutoDetectListed()
    ensures "auto" in ToDict(SupportedLanguages())
    ensures ToDict(SupportedLanguages())["auto"] == "Auto-detect"
  {
    ToDictOfDistinctKeys(SupportedLanguages());
  }
}
