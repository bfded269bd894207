/**
 * The food search route, in both copies of the router: the user's custom
 * foods first (only with a session, and only when searching the branded
 * database), then the hits of the chosen global database, cut to the limit.
 * The stores are abstract: their answers are parameters.
 */
module FoodSearch {
  import opened Wrappers
  import opened Lists
  import opened FoodSchema
  import opened FoodUtils
  import opened Foundation

  /** A row of the branded-food query, big integers already converted. */
  datatype BrandedRow = BrandedRow(
    code: Option<string>,
    productName: Option<string>,
    brands: Option<string>,
    categories: Option<string>,
    nutriscoreGrade: Option<string>,
    scansN: Option<real>,
    source: Option<FoodSource>)

  /** The row as a hit; a missing source reads as Branded. */
  function MapBrandedRow(row: BrandedRow): (r: FoodSearchResult)
    ensures r.code == row.code && r.productName == row.productName && r.brands == row.brands
    ensures r.categories == row.categories && r.nutriscoreGrade == row.nutriscoreGrade && r.scansN == row.scansN
    ensures row.source.None? ==> r.source == Branded
    ensures row.source.Some? ==> r.source == row.source.value
  {
    FoodSearchResult(row.code, row.productName, row.brands, row.categories, row.nutriscoreGrade, row.scansN,
                     Coalesce(row.source, Branded))
  }

  function MapBrandedRows(rows: seq<BrandedRow>): (r: seq<FoodSearchResult>)
    ensures |r| == |rows| && forall i :: 0 <= i < |rows| ==> r[i] == MapBrandedRow(rows[i])
  {
    seq(|rows|, i requires 0 <= i < |rows| => MapBrandedRow(rows[i]))
  }

  function MapCustomFoods(foods: seq<CustomFoodRecord>): (r: seq<FoodSearchResult>)
    ensures |r| == |foods| && forall i :: 0 <= i < |foods| ==> r[i] == MapCustomFoodToSearchResult(foods[i])
  {
    seq(|foods|, i requires 0 <= i < |foods| => MapCustomFoodToSearchResult(foods[i]))
  }

  function MapFoundationFoods(foods: seq<FoundationFood>): (r: seq<FoodSearchResult>)
    ensures |r| == |foods| && forall i :: 0 <= i < |foods| ==> r[i] == MapFoundationToSearchResult(foods[i])
  {
    seq(|foods|, i requires 0 <= i < |foods| => MapFoundationToSearchResult(foods[i]))
  }

  /** Whether the custom-food store is asked at all. */
  predicate QueriesCustomFoods(hasSession: bool, dataSource: DataSource)
  {
    hasSession && dataSource == BrandedData
  }

  /** The custom hits: the store's answer when it is asked, otherwise none. */
  function CustomHits(hasSession: bool, dataSource: DataSource, customFoods: seq<CustomFoodRecord>): seq<FoodSearchResult>
  {
    if QueriesCustomFoods(hasSession, dataSource) then MapCustomFoods(customFoods) else []
  }

  /** The global hits: the Foundation search, or the branded store's rows. */
  function GlobalHits(query: string, limit: int, dataSource: DataSource,
                      foundationFoods: seq<FoundationFood>, brandedRows: seq<BrandedRow>): seq<FoodSearchResult>
  {
    if dataSource == FoundationData then MapFoundationFoods(SearchFoundationFoods(foundationFoods, query, limit))
    else MapBrandedRows(brandedRows)
  }

  /**
   * The `search` procedure. `customFoods` is what the custom-food store answers
   * for the user and the query, `foundationFoods` the loaded Foundation list,
   * `brandedRows` what the branded query answers.
   */
  function Search(query: string, limit: int, dataSource: DataSource, hasSession: bool,
                  customFoods: seq<CustomFoodRecord>, foundationFoods: seq<FoundationFood>,
                  brandedRows: seq<BrandedRow>): (r: seq<FoodSearchResult>)
    ensures 0 <= limit ==> |r| <= limit
  {
    Take(CustomHits(hasSession, dataSource, customFoods)
         + GlobalHits(query, limit, dataSource, foundationFoods, brandedRows), limit)
  }

  /** Without a session, or when searching Foundation foods, the custom-food store has no say. */
  lemma SearchIgnoresCustomFoodsUnlessAsked(query: string, limit: int, dataSource: DataSource, hasSession: bool,
                                            c1: seq<CustomFoodRecord>, c2: seq<CustomFoodRecord>,
                                            foundationFoods: seq<FoundationFood>, brandedRows: seq<BrandedRow>)
    requires !QueriesCustomFoods(hasSession, dataSource)
    ensures Search(query, limit, dataSource, hasSession, c1, foundationFoods, brandedRows)
         == Search(query, limit, dataSource, hasSession, c2, foundationFoods, brandedRows)
    ensures forall i :: 0 <= i < |Search(query, limit, dataSource, hasSession, c1, foundationFoods, brandedRows)| ==>
      Search(query, limit, dataSource, hasSession, c1, foundationFoods, brandedRows)[i]
        == GlobalHits(query, limit, dataSource, foundationFoods, brandedRows)[i]
  {
    assert [] + GlobalHits(query, limit, dataSource, foundationFoods, brandedRows)
        == GlobalHits(query, limit, dataSource, foundationFoods, brandedRows);
  }

  /** Foundation mode draws only on the Foundation list, branded mode only on the branded store. */
  lemma SearchUsesOneGlobalStore(query: string, limit: int, dataSource: DataSource, hasSession: bool,
                                 customFoods: seq<CustomFoodRecord>,
                                 f1: seq<FoundationFood>, f2: seq<FoundationFood>,
                                 b1: seq<BrandedRow>, b2: seq<BrandedRow>)
    ensures dataSource == FoundationData ==>
      Search(query, limit, dataSource, hasSession, customFoods, f1, b1)
        == Search(query, limit, dataSource, hasSession, customFoods, f1, b2)
    ensures dataSource == BrandedData ==>
      Search(query, limit, dataSource, hasSession, customFoods, f1, b1)
        == Search(query, limit, dataSource, hasSession, customFoods, f2, b1)
  {
  }

  /**
   * The answer is the custom hits followed by the global hits, each group in
   * its own order, cut to the limit; once the custom hits fill the limit no
   * global hit is left.
   */
  lemma SearchCustomFirst(query: string, limit: int, dataSource: DataSource, hasSession: bool,
                          customFoods: seq<CustomFoodRecord>, foundationFoods: seq<FoundationFood>,
                          brandedRows: seq<BrandedRow>)
    ensures var r := Search(query, limit, dataSource, hasSession, customFoods, foundationFoods, brandedRows);
      var custom := CustomHits(hasSession, dataSource, customFoods);
      var global := GlobalHits(query, limit, dataSource, foundationFoods, brandedRows);
      && (forall i :: 0 <= i < |r| && i < |custom| ==> r[i] == custom[i])
      && (forall i :: |custom| <= i < |r| ==> r[i] == global[i - |custom|])
      && (0 <= limit <= |custom| ==> forall i :: 0 <= i < |r| ==> r[i] == custom[i])
      && (limit >= |custom| + |global| ==> r == custom + global)
  {
  }

  /** With a session and the branded database, every custom hit is the user's food as a "Custom" hit. */
  lemma SearchCustomHitsAreUserFoods(query: string, limit: int, hasSession: bool,
                                     customFoods: seq<CustomFoodRecord>, foundationFoods: seq<FoundationFood>,
                                     brandedRows: seq<BrandedRow>)
    requires hasSession
    ensures var r := Search(query, limit, BrandedData, hasSession, customFoods, foundationFoods, brandedRows);
      forall i :: 0 <= i < |r| && i < |customFoods| ==>
        && r[i].code == Some(customFoods[i].id) && r[i].source == User
        && r[i].categories == Some("Custom") && r[i].scansN == Some(0.0)
  {
  }

  /** Every Foundation hit is a Foundation food matching the query, best score first. */
  lemma SearchFoundationHitsMatch(query: string, limit: int, hasSession: bool,
                                  customFoods: seq<CustomFoodRecord>, foundationFoods: seq<FoundationFood>,
                                  brandedRows: seq<BrandedRow>)
    ensures var r := Search(query, limit, FoundationData, hasSession, customFoods, foundationFoods, brandedRows);
      forall i :: 0 <= i < |r| ==>
        r[i].source == Foundation
        && exists f :: f in foundationFoods && Score(f, Text.Lower(query)) > 0 && r[i] == MapFoundationToSearchResult(f)
  {
    var found := SearchFoundationFoods(foundationFoods, query, limit);
    SearchFoundationFoodsSpec(foundationFoods, query, limit);
    var r := Search(query, limit, FoundationData, hasSession, customFoods, foundationFoods, brandedRows);
    forall i | 0 <= i < |r|
      ensures exists f :: f in foundationFoods && Score(f, Text.Lower(query)) > 0 && r[i] == MapFoundationToSearchResult(f)
    {
      assert r[i] == MapFoundationToSearchResult(found[i]);
    }
  }

  // ---------------------------------------------------------------------------
  // The first router's search
  // ---------------------------------------------------------------------------

  /**
   * The first router's `search`: custom foods whenever there is a session,
   * whatever the database, then the rows of the global query, cut to the limit.
   */
  function LegacySearch(limit: int, hasSession: bool, customFoods: seq<CustomFoodRecord>,
                        globalRows: seq<FoodSearchResult>): (r: seq<FoodSearchResult>)
    ensures 0 <= limit ==> |r| <= limit
  {
    var custom := if hasSession then MapCustomFoods(customFoods) else [];
    Take(custom + globalRows, limit)
  }

  /**
   * The first router asks the custom store on every session, so with a session
   * and the branded database the two routers agree, and they differ only in
   * that gating otherwise.
   */
  lemma LegacySearchGatesOnSessionOnly(query: string, limit: int, dataSource: DataSource, hasSession: bool,
                                       customFoods: seq<CustomFoodRecord>, foundationFoods: seq<FoundationFood>,
                                       brandedRows: seq<BrandedRow>)
    ensures hasSession && dataSource == BrandedData ==>
      LegacySearch(limit, hasSession, customFoods, MapBrandedRows(brandedRows))
        == Search(query, limit, dataSource, hasSession, customFoods, foundationFoods, brandedRows)
    ensures hasSession ==> forall i :: 0 <= i < |LegacySearch(limit, hasSession, customFoods, [])| ==>
      LegacySearch(limit, hasSession, customFoods, [])[i].source == User
    ensures !hasSession ==>
      LegacySearch(limit, hasSession, customFoods, MapBrandedRows(brandedRows)) == Take(MapBrandedRows(brandedRows), limit)
  {
    assert [] + MapBrandedRows(brandedRows) == MapBrandedRows(brandedRows);
    assert MapCustomFoods(customFoods) + [] == MapCustomFoods(customFoods);
  }
}
