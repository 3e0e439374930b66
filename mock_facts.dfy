/** Facts about a few literal spellings, kept apart from the tables so that
    the solver does not see their definitions while it evaluates them. */
module Spellings {
  import opened Text

  lemma HongKongLowered()
    ensures Trim(Lower("Hong Kong")) == "hong kong"
    ensures Trim(Lower("HONG KONG")) == "hong kong"
    ensures Trim(Lower(" hong kong ")) == "hong kong"
  {
    MixedCaseHongKong();
    UpperCaseHongKong();
    PaddedHongKong();
  }

  lemma MixedCaseHongKong()
    ensures Trim(Lower("Hong Kong")) == "hong kong"
  {
    assert Lower("Hong Kong") == "hong kong";
    TrimUnspaced("hong kong");
  }

  lemma UpperCaseHongKong()
    ensures Trim(Lower("HONG KONG")) == "hong kong"
  {
    assert Lower("HONG KONG") == "hong kong";
    TrimUnspaced("hong kong");
  }

  lemma PaddedHongKong()
    ensures Trim(Lower(" hong kong ")) == "hong kong"
  {
    PaddedIsLowerCase();
    PaddedTrim();
  }

  lemma PaddedIsLowerCase()
    ensures Lower(" hong kong ") == " hong kong "
  {
  }

  lemma PaddedTrim()
    ensures Trim(" hong kong ") == "hong kong"
  {
    var padded := " hong kong ";
    TrimPadded(padded);
    assert padded[1..|padded| - 1] == "hong kong";
  }

  lemma AbbreviationSpelling()
    ensures Trim(Lower("hk")) == "hk"
  {
    TrimLowerOfPlain("hk");
  }

  lemma PunctuationSpelling()
    ensures Trim(Lower("!!!")) == "!!!"
    ensures Slug("!!!") == ""
  {
    var s := "!!!";
    assert Lower(s) == s;
    TrimUnspaced(s);
    assert CollapseSpaces(s) == s by {
      assert TrimStart(s) == s;
    }
  }

  lemma ConstructorSpelling()
    ensures Trim(Lower("constructor")) == "constructor"
    ensures Slug("constructor") == "constructor"
  {
    TrimLowerOfPlain("constructor");
    SlugOfSlugChars("constructor");
  }

  lemma ConstructorBangSpelling()
    ensures Trim(Lower("constructor!")) == "constructor!"
    ensures Slug("constructor!") == "constructor"
  {
    TrimLowerOfPlain("constructor!");
    ConstructorBangSlug();
  }

  lemma ConstructorBangSlug()
    ensures Slug("constructor!") == "constructor"
  {
    assert "constructor!" == "constructor" + ['!'];
    SlugDropsTrailing("constructor", '!');
  }

  /** None of the three textual tests relates the first alert area of the
      tables to the name "constructor" or to a longer text. */
  lemma HongKongIslandUnrelatedToConstructor(shown: string)
    requires |shown| > 16
    ensures var area := Lower("Hong Kong Island");
      !Contains(area, Lower("constructor")) && !Contains(Lower("constructor"), area)
      && !Contains(area, shown)
  {
    HongKongIslandLowered();
    NotContained("hong kong island", "constructor");
    NotContained("constructor", "hong kong island");
    NotContained("hong kong island", shown);
  }

  lemma HongKongIslandLowered()
    ensures Lower("Hong Kong Island") == "hong kong island"
    ensures Lower("constructor") == "constructor"
  {
    LowerOfLowerCase("constructor");
  }
}

/** The service applied to the constant tables. */
module MockFacts {
  import opened Wrappers
  import opened Text
  import opened Entries
  import opened WeatherTypes
  import opened MockData
  import opened MockTables
  import opened WeatherService
  import opened Spellings

  lemma AliasAt(i: nat, key: string, target: string)
    requires i < |LocationMapping| && LocationMapping[i] == (key, target)
    ensures Lookup(LocationMapping, key) == Some(target)
  {
    AliasKeysDistinct();
    LookupAt(LocationMapping, i);
  }

  lemma AbbreviatedHongKong()
    ensures NormalizeLocation(LocationMapping, "hk") == "hong-kong"
  {
    AbbreviationSpelling();
    AliasAt(2, "hk", "hong-kong");
    NormalizeThroughAlias(LocationMapping, "hk", "hk", "hong-kong");
  }

  /** The alias table takes the spellings of Hong Kong to its key. */
  lemma HongKongSpellings()
    ensures NormalizeLocation(LocationMapping, "Hong Kong") == "hong-kong"
    ensures NormalizeLocation(LocationMapping, "HONG KONG") == "hong-kong"
    ensures NormalizeLocation(LocationMapping, " hong kong ") == "hong-kong"
    ensures NormalizeLocation(LocationMapping, "hk") == "hong-kong"
  {
    HongKongLowered();
    AliasAt(0, "hong kong", "hong-kong");
    NormalizeThroughAlias(LocationMapping, "Hong Kong", "hong kong", "hong-kong");
    NormalizeThroughAlias(LocationMapping, "HONG KONG", "hong kong", "hong-kong");
    NormalizeThroughAlias(LocationMapping, " hong kong ", "hong kong", "hong-kong");
    AbbreviatedHongKong();
  }

  /** A location spelled as an alias key always reaches a stored record, so
      the current-weather lookup takes its known-location branch. */
  lemma AliasedLocationsAreKnown(location: string)
    requires Trim(Lower(location)) in Keys(LocationMapping)
    ensures NormalizeLocation(LocationMapping, location) in Keys(MockWeatherData)
  {
    AliasKeysDistinct();
    AliasTargetsAreValid();
    var i :| 0 <= i < |LocationMapping| && Keys(LocationMapping)[i] == Trim(Lower(location));
    NormalizeAlias(LocationMapping, location, i);
  }

  lemma PunctuationIsNoAlias()
    ensures "!!!" !in Keys(LocationMapping)
  {
    AliasKeys();
    PunctuationUnlisted();
  }

  lemma PunctuationUnlisted()
    ensures "!!!" !in AliasKeyList
  {
    assert forall i :: 0 <= i < |AliasKeyList| ==> AliasKeyList[i][0] != '!';
  }

  lemma PunctuationNormalizesToEmpty()
    ensures NormalizeLocation(LocationMapping, "!!!") == ""
  {
    PunctuationSpelling();
    PunctuationIsNoAlias();
    NormalizeThroughSlug(LocationMapping, "!!!", "!!!");
  }

  /** A location made only of punctuation normalises to the empty key and
      receives every alert. */
  lemma PunctuationGetsAllAlerts()
    ensures GetWeatherAlerts(MockDataset, Some("!!!")) == MockWeatherAlerts
  {
    PunctuationNormalizesToEmpty();
    AlertsHaveAreas();
    AlertsEmptyKeyMatchesAll(MockDataset, "!!!");
  }
}
