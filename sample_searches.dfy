/**
  What a search over the sample catalogue shows. A query without spaces can
  only occur inside one space-separated stretch of a text, so a description
  is taken apart at spaces into short stretches, each lacking some letter of
  the query in both cases, and put back together one stretch at a time.
 */
module SampleSearches {
  import opened Wrappers
  import opened Sequences
  import opened Catalog
  import opened Listing

  /** On the sample catalogue, "kitchen" with "candle" shows nothing: neither kitchen product mentions a candle. */
  lemma KitchenCandleShowsNothing()
    ensures FilteredProducts(FetchProducts(), Some("kitchen"), "candle") == []
  {
    MockLabels();
    MockIdsAreOneToTwelve();
    MockKitchenLacksCandle();
    KitchenCandleShowsNothingIn(FetchProducts());
  }

  /**
    The kitchen-and-candle filter over twelve products numbered and labelled
    like the sample catalogue, whose two kitchen products do not match "candle".
   */
  lemma KitchenCandleShowsNothingIn(ps: seq<Product>)
    requires Ids(ps) == [1, 2, 3, 4, 5, 6, 7, 8, 9, 10, 11, 12]
    requires Labels(ps) == ["electronics", "furniture", "electronics", "clothing", "electronics", "kitchen", "accessories", "electronics", "kitchen", "fitness", "electronics", "home"]
    requires !MatchesSearch(ps[5], "candle") && !MatchesSearch(ps[8], "candle")
    ensures FilteredProducts(ps, Some("kitchen"), "candle") == []
  {
    KitchenCandleIn(ps);
    var r := FilteredProducts(ps, Some("kitchen"), "candle");
    forall p | p in ps && p.id in {6, 9} ensures !MatchesSearch(p, "candle") {
      var i :| 0 <= i < |ps| && ps[i] == p;
      assert Ids(ps)[i] == p.id;
    }
    assert forall p :: p !in r;
  }

  /** On the sample catalogue, "kitchen" with "candle" cannot show the candle set (product 12, in "home"). */
  lemma KitchenCandleExcludesCandleSet()
    ensures IsSubsequence(FilteredProducts(FetchProducts(), Some("kitchen"), "candle"),
                          FilteredProducts(FetchProducts(), Some("kitchen"), ""))
    ensures forall p :: p in FilteredProducts(FetchProducts(), Some("kitchen"), "candle") ==> p.id in {6, 9}
  {
    MockLabels();
    MockIdsAreOneToTwelve();
    KitchenCandleIn(FetchProducts());
  }

  /** The kitchen-and-candle filter over any twelve products numbered and labelled like the sample catalogue. */
  lemma KitchenCandleIn(ps: seq<Product>)
    requires Ids(ps) == [1, 2, 3, 4, 5, 6, 7, 8, 9, 10, 11, 12]
    requires Labels(ps) == ["electronics", "furniture", "electronics", "clothing", "electronics", "kitchen", "accessories", "electronics", "kitchen", "fitness", "electronics", "home"]
    ensures IsSubsequence(FilteredProducts(ps, Some("kitchen"), "candle"), FilteredProducts(ps, Some("kitchen"), ""))
    ensures forall p :: p in FilteredProducts(ps, Some("kitchen"), "candle") ==> p.id in {6, 9}
  {
    CategoryThenSearch(ps, Some("kitchen"), "candle");
    forall p | p in FilteredProducts(ps, Some("kitchen"), "candle") ensures p.id in {6, 9} {
      var i :| 0 <= i < |ps| && ps[i] == p;
      assert Labels(ps)[i] == "kitchen" && Ids(ps)[i] == p.id;
    }
  }


  /** The two kitchen products of the sample catalogue do not match "candle". */
  lemma MockKitchenLacksCandle()
    ensures |FetchProducts()| == 12
    ensures !MatchesSearch(FetchProducts()[5], "candle") && !MatchesSearch(FetchProducts()[8], "candle")
  {
    WaterBottleLacksCandle(FetchProducts()[5]);
    MugSetLacksCandle(FetchProducts()[8]);
  }

  /** Product 6, the water bottle, does not match "candle". */
  lemma WaterBottleLacksCandle(p: Product)
    requires p.name == "Stainless Steel Water Bottle"
    requires p.description == "Stay hydrated with this insulated stainless steel water bottle. Keeps drinks cold for 24 hours or hot for 12 hours."
    ensures !MatchesSearch(p, "candle")
  {
    CandleIsLowerCase();
    WaterBottleNameLacksCandle(p.name);
    WaterBottleCandleText9(p.description);
  }

  /** Product 9, the mug set, does not match "candle". */
  lemma MugSetLacksCandle(p: Product)
    requires p.name == "Ceramic Coffee Mug Set"
    requires p.description == "Enjoy your morning coffee with this set of 4 ceramic mugs. Microwave and dishwasher safe."
    ensures !MatchesSearch(p, "candle")
  {
    CandleIsLowerCase();
    MugSetNameLacksCandle(p.name);
    MugSetCandleText6(p.description);
  }

  /** The query "candle" is already in lower case. */
  lemma CandleIsLowerCase()
    ensures ToLower("candle") == "candle"
  {
  }

  /** The water bottle's name has no "c" in either case, so the lower-cased query does not occur in it. */
  lemma WaterBottleNameLacksCandle(s: string)
    requires s == "Stainless Steel Water Bottle"
    ensures !Includes(ToLower(s), ToLower("candle"))
  {
    CandleIsLowerCase();
    MissingLetterNoMatch(s, "candle", 0);
  }

  /** The mug set's name has no "l" in either case, so the lower-cased query does not occur in it. */
  lemma MugSetNameLacksCandle(s: string)
    requires s == "Ceramic Coffee Mug Set"
    ensures !Includes(ToLower(s), ToLower("candle"))
  {
    CandleIsLowerCase();
    MissingLetterNoMatch(s, "candle", 4);
  }

  /** The first 2 stretches of the water bottle's description, joined at a space. */
  lemma WaterBottleCandleTextJoin2()
    ensures "Stay hydrated with this" == "Stay hydrated" + " " + "with this"
  {
  }

  /** The first 2 stretches of the water bottle's description do not contain "candle" in any case. */
  lemma WaterBottleCandleText2(s: string)
    requires s == "Stay hydrated with this"
    ensures !Includes(ToLower(s), "candle")
  {
    var prev, chunk := "Stay hydrated", "with this";
    MissingLetterNoMatch(prev, "candle", 0);
    MissingLetterNoMatch(chunk, "candle", 0);
    WaterBottleCandleTextJoin2();
    SplitNoMatch(s, prev, chunk, "candle");
  }

  /** The first 3 stretches of the water bottle's description, joined at a space. */
  lemma WaterBottleCandleTextJoin3()
    ensures "Stay hydrated with this insulated" == "Stay hydrated with this" + " " + "insulated"
  {
  }

  /** The first 3 stretches of the water bottle's description do not contain "candle" in any case. */
  lemma WaterBottleCandleText3(s: string)
    requires s == "Stay hydrated with this insulated"
    ensures !Includes(ToLower(s), "candle")
  {
    var prev, chunk := "Stay hydrated with this", "insulated";
    WaterBottleCandleText2(prev);
    MissingLetterNoMatch(chunk, "candle", 0);
    WaterBottleCandleTextJoin3();
    SplitNoMatch(s, prev, chunk, "candle");
  }

  /** The first 4 stretches of the water bottle's description, joined at a space. */
  lemma WaterBottleCandleTextJoin4()
    ensures "Stay hydrated with this insulated stainless steel" == "Stay hydrated with this insulated" + " " + "stainless steel"
  {
  }

  /** The first 4 stretches of the water bottle's description do not contain "candle" in any case. */
  lemma WaterBottleCandleText4(s: string)
    requires s == "Stay hydrated with this insulated stainless steel"
    ensures !Includes(ToLower(s), "candle")
  {
    var prev, chunk := "Stay hydrated with this insulated", "stainless steel";
    WaterBottleCandleText3(prev);
    MissingLetterNoMatch(chunk, "candle", 0);
    WaterBottleCandleTextJoin4();
    SplitNoMatch(s, prev, chunk, "candle");
  }

  /** The first 5 stretches of the water bottle's description, joined at a space. */
  lemma WaterBottleCandleTextJoin5()
    ensures "Stay hydrated with this insulated stainless steel water bottle." == "Stay hydrated with this insulated stainless steel" + " " + "water bottle."
  {
  }

  /** The first 5 stretches of the water bottle's description do not contain "candle" in any case. */
  lemma WaterBottleCandleText5(s: string)
    requires s == "Stay hydrated with this insulated stainless steel water bottle."
    ensures !Includes(ToLower(s), "candle")
  {
    var prev, chunk := "Stay hydrated with this insulated stainless steel", "water bottle.";
    WaterBottleCandleText4(prev);
    MissingLetterNoMatch(chunk, "candle", 0);
    WaterBottleCandleTextJoin5();
    SplitNoMatch(s, prev, chunk, "candle");
  }

  /** The first 6 stretches of the water bottle's description, joined at a space. */
  lemma WaterBottleCandleTextJoin6()
    ensures "Stay hydrated with this insulated stainless steel water bottle. Keeps drinks" == "Stay hydrated with this insulated stainless steel water bottle." + " " + "Keeps drinks"
  {
  }

  /** The first 6 stretches of the water bottle's description do not contain "candle" in any case. */
  lemma WaterBottleCandleText6(s: string)
    requires s == "Stay hydrated with this insulated stainless steel water bottle. Keeps drinks"
    ensures !Includes(ToLower(s), "candle")
  {
    var prev, chunk := "Stay hydrated with this insulated stainless steel water bottle.", "Keeps drinks";
    WaterBottleCandleText5(prev);
    MissingLetterNoMatch(chunk, "candle", 0);
    WaterBottleCandleTextJoin6();
    SplitNoMatch(s, prev, chunk, "candle");
  }

  /** The first 7 stretches of the water bottle's description, joined at a space. */
  lemma WaterBottleCandleTextJoin7()
    ensures "Stay hydrated with this insulated stainless steel water bottle. Keeps drinks cold for 24" == "Stay hydrated with this insulated stainless steel water bottle. Keeps drinks" + " " + "cold for 24"
  {
  }

  /** The first 7 stretches of the water bottle's description do not contain "candle" in any case. */
  lemma WaterBottleCandleText7(s: string)
    requires s == "Stay hydrated with this insulated stainless steel water bottle. Keeps drinks cold for 24"
    ensures !Includes(ToLower(s), "candle")
  {
    var prev, chunk := "Stay hydrated with this insulated stainless steel water bottle. Keeps drinks", "cold for 24";
    WaterBottleCandleText6(prev);
    MissingLetterNoMatch(chunk, "candle", 1);
    WaterBottleCandleTextJoin7();
    SplitNoMatch(s, prev, chunk, "candle");
  }

  /** The first 8 stretches of the water bottle's description, joined at a space. */
  lemma WaterBottleCandleTextJoin8()
    ensures "Stay hydrated with this insulated stainless steel water bottle. Keeps drinks cold for 24 hours or hot for" == "Stay hydrated with this insulated stainless steel water bottle. Keeps drinks cold for 24" + " " + "hours or hot for"
  {
  }

  /** The first 8 stretches of the water bottle's description do not contain "candle" in any case. */
  lemma WaterBottleCandleText8(s: string)
    requires s == "Stay hydrated with this insulated stainless steel water bottle. Keeps drinks cold for 24 hours or hot for"
    ensures !Includes(ToLower(s), "candle")
  {
    var prev, chunk := "Stay hydrated with this insulated stainless steel water bottle. Keeps drinks cold for 24", "hours or hot for";
    WaterBottleCandleText7(prev);
    MissingLetterNoMatch(chunk, "candle", 0);
    WaterBottleCandleTextJoin8();
    SplitNoMatch(s, prev, chunk, "candle");
  }

  /** The first 9 stretches of the water bottle's description, joined at a space. */
  lemma WaterBottleCandleTextJoin9()
    ensures "Stay hydrated with this insulated stainless steel water bottle. Keeps drinks cold for 24 hours or hot for 12 hours." == "Stay hydrated with this insulated stainless steel water bottle. Keeps drinks cold for 24 hours or hot for" + " " + "12 hours."
  {
  }

  /** The first 9 stretches of the water bottle's description do not contain "candle" in any case. */
  lemma WaterBottleCandleText9(s: string)
    requires s == "Stay hydrated with this insulated stainless steel water bottle. Keeps drinks cold for 24 hours or hot for 12 hours."
    ensures !Includes(ToLower(s), "candle")
  {
    var prev, chunk := "Stay hydrated with this insulated stainless steel water bottle. Keeps drinks cold for 24 hours or hot for", "12 hours.";
    WaterBottleCandleText8(prev);
    MissingLetterNoMatch(chunk, "candle", 0);
    WaterBottleCandleTextJoin9();
    SplitNoMatch(s, prev, chunk, "candle");
  }


  /** The first 2 stretches of the mug set's description, joined at a space. */
  lemma MugSetCandleTextJoin2()
    ensures "Enjoy your morning coffee" == "Enjoy your" + " " + "morning coffee"
  {
  }

  /** The first 2 stretches of the mug set's description do not contain "candle" in any case. */
  lemma MugSetCandleText2(s: string)
    requires s == "Enjoy your morning coffee"
    ensures !Includes(ToLower(s), "candle")
  {
    var prev, chunk := "Enjoy your", "morning coffee";
    MissingLetterNoMatch(prev, "candle", 0);
    MissingLetterNoMatch(chunk, "candle", 1);
    MugSetCandleTextJoin2();
    SplitNoMatch(s, prev, chunk, "candle");
  }

  /** The first 3 stretches of the mug set's description, joined at a space. */
  lemma MugSetCandleTextJoin3()
    ensures "Enjoy your morning coffee with this set of" == "Enjoy your morning coffee" + " " + "with this set of"
  {
  }

  /** The first 3 stretches of the mug set's description do not contain "candle" in any case. */
  lemma MugSetCandleText3(s: string)
    requires s == "Enjoy your morning coffee with this set of"
    ensures !Includes(ToLower(s), "candle")
  {
    var prev, chunk := "Enjoy your morning coffee", "with this set of";
    MugSetCandleText2(prev);
    MissingLetterNoMatch(chunk, "candle", 0);
    MugSetCandleTextJoin3();
    SplitNoMatch(s, prev, chunk, "candle");
  }

  /** The first 4 stretches of the mug set's description, joined at a space. */
  lemma MugSetCandleTextJoin4()
    ensures "Enjoy your morning coffee with this set of 4 ceramic mugs." == "Enjoy your morning coffee with this set of" + " " + "4 ceramic mugs."
  {
  }

  /** The first 4 stretches of the mug set's description do not contain "candle" in any case. */
  lemma MugSetCandleText4(s: string)
    requires s == "Enjoy your morning coffee with this set of 4 ceramic mugs."
    ensures !Includes(ToLower(s), "candle")
  {
    var prev, chunk := "Enjoy your morning coffee with this set of", "4 ceramic mugs.";
    MugSetCandleText3(prev);
    MissingLetterNoMatch(chunk, "candle", 2);
    MugSetCandleTextJoin4();
    SplitNoMatch(s, prev, chunk, "candle");
  }

  /** The first 5 stretches of the mug set's description, joined at a space. */
  lemma MugSetCandleTextJoin5()
    ensures "Enjoy your morning coffee with this set of 4 ceramic mugs. Microwave and" == "Enjoy your morning coffee with this set of 4 ceramic mugs." + " " + "Microwave and"
  {
  }

  /** The first 5 stretches of the mug set's description do not contain "candle" in any case. */
  lemma MugSetCandleText5(s: string)
    requires s == "Enjoy your morning coffee with this set of 4 ceramic mugs. Microwave and"
    ensures !Includes(ToLower(s), "candle")
  {
    var prev, chunk := "Enjoy your morning coffee with this set of 4 ceramic mugs.", "Microwave and";
    MugSetCandleText4(prev);
    MissingLetterNoMatch(chunk, "candle", 4);
    MugSetCandleTextJoin5();
    SplitNoMatch(s, prev, chunk, "candle");
  }

  /** The first 6 stretches of the mug set's description, joined at a space. */
  lemma MugSetCandleTextJoin6()
    ensures "Enjoy your morning coffee with this set of 4 ceramic mugs. Microwave and dishwasher safe." == "Enjoy your morning coffee with this set of 4 ceramic mugs. Microwave and" + " " + "dishwasher safe."
  {
  }

  /** The first 6 stretches of the mug set's description do not contain "candle" in any case. */
  lemma MugSetCandleText6(s: string)
    requires s == "Enjoy your morning coffee with this set of 4 ceramic mugs. Microwave and dishwasher safe."
    ensures !Includes(ToLower(s), "candle")
  {
    var prev, chunk := "Enjoy your morning coffee with this set of 4 ceramic mugs. Microwave and", "dishwasher safe.";
    MugSetCandleText5(prev);
    MissingLetterNoMatch(chunk, "candle", 0);
    MugSetCandleTextJoin6();
    SplitNoMatch(s, prev, chunk, "candle");
  }
}
