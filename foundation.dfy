/**
 * The USDA Foundation Foods store: a lazily loaded, cached list with an index
 * by FDC id, the ranked description search over it, and the mapping of a
 * Foundation food onto the search-result and product shapes.
 */
module Foundation {
  import opened Wrappers
  import opened Text
  import opened Lists
  import opened FoodSchema

  // ---------------------------------------------------------------------------
  // Search
  // ---------------------------------------------------------------------------

  /**
   * How well a food matches an already lower-cased query; the first rule that
   * applies decides: the description equals the query (100), starts with it
   * (80), holds it after or before a space (60), holds it anywhere (40), the
   * category holds it (20), otherwise 0.
   */
  function Score(food: FoundationFood, q: string): (s: int)
    ensures s == 0 || s == 20 || s == 40 || s == 60 || s == 80 || s == 100
  {
    var desc := Lower(food.description);
    if desc == q then 100
    else if StartsWith(desc, q) then 80
    else if Contains(desc, " " + q) || Contains(desc, q + " ") then 60
    else if Contains(desc, q) then 40
    else if food.foodCategory.Some? && Contains(Lower(food.foodCategory.value), q) then 20
    else 0
  }

  /**
   * A food scores above zero exactly when its description or its category
   * holds the query, both compared lower-cased.
   */
  lemma ScoreIsMatch(food: FoundationFood, query: string)
    ensures Score(food, Lower(query)) > 0 <==>
      || Contains(Lower(food.description), Lower(query))
      || (food.foodCategory.Some? && Contains(Lower(food.foodCategory.value), Lower(query)))
  {
    var desc := Lower(food.description);
    var q := Lower(query);
    if desc == q {
      ContainsSelf(desc);
    } else if Contains(desc, " " + q) {
      ContainsDropFirst(desc, ' ', q);
    } else if Contains(desc, q + " ") {
      ContainsDropLast(desc, q, ' ');
    }
  }

  /** The query is lower-cased first, so its case does not matter. */
  lemma ScoreIgnoresQueryCase(food: FoundationFood, query: string)
    ensures Score(food, Lower(Lower(query))) == Score(food, Lower(query))
  {
    LowerIdempotent(query);
  }

  /** A food with its score. */
  datatype Match = Match(food: FoundationFood, score: int)

  function ScoreAll(foods: seq<FoundationFood>, q: string): seq<Match>
  {
    seq(|foods|, i requires 0 <= i < |foods| => Match(foods[i], Score(foods[i], q)))
  }

  /** `filter(item => item.score > 0)`. */
  function Positive(ms: seq<Match>): seq<Match>
  {
    if ms == [] then []
    else (if ms[0].score > 0 then [ms[0]] else []) + Positive(ms[1..])
  }

  /** The matches with score exactly `s`, in order. */
  function WithScore(ms: seq<Match>, s: int): seq<Match>
  {
    if ms == [] then []
    else (if ms[0].score == s then [ms[0]] else []) + WithScore(ms[1..], s)
  }

  predicate SortedDesc(ms: seq<Match>)
  {
    forall i, j :: 0 <= i < j < |ms| ==> ms[i].score >= ms[j].score
  }

  /** Place `m` after every element scoring at least as much, so earlier equals stay first. */
  function Insert(m: Match, sorted: seq<Match>): seq<Match>
  {
    if sorted == [] then [m]
    else if sorted[0].score >= m.score then [sorted[0]] + Insert(m, sorted[1..])
    else [m] + sorted
  }

  /** `sort((a, b) => b.score - a.score)`: a stable sort by descending score. */
  function SortByScore(ms: seq<Match>): seq<Match>
  {
    if ms == [] then [] else Insert(ms[|ms| - 1], SortByScore(ms[..|ms| - 1]))
  }

  lemma {:induction false} InsertKeepsElements(m: Match, l: seq<Match>)
    ensures multiset(Insert(m, l)) == multiset(l) + multiset{m}
    ensures |Insert(m, l)| == |l| + 1
  {
    if l != [] && l[0].score >= m.score {
      InsertKeepsElements(m, l[1..]);
      assert l == [l[0]] + l[1..];
    }
  }

  lemma {:induction false} InsertKeepsSorted(m: Match, l: seq<Match>)
    requires SortedDesc(l)
    ensures SortedDesc(Insert(m, l))
  {
    if l != [] && l[0].score >= m.score {
      InsertKeepsSorted(m, l[1..]);
      InsertKeepsElements(m, l[1..]);
      var r := Insert(m, l[1..]);
      forall j | 0 <= j < |r|
        ensures l[0].score >= r[j].score
      {
        assert r[j] in multiset(r);
        assert r[j] == m || r[j] in multiset(l[1..]);
        if r[j] != m {
          var k :| 0 <= k < |l[1..]| && l[1..][k] == r[j];
          assert l[k + 1] == r[j];
        }
      }
    }
  }

  /** `SortByScore` is sorted by descending score and a permutation of its input. */
  lemma {:induction false} SortByScoreSortsAndPermutes(ms: seq<Match>)
    ensures SortedDesc(SortByScore(ms))
    ensures multiset(SortByScore(ms)) == multiset(ms)
    ensures |SortByScore(ms)| == |ms|
  {
    if ms != [] {
      var front := ms[..|ms| - 1];
      SortByScoreSortsAndPermutes(front);
      InsertKeepsSorted(ms[|ms| - 1], SortByScore(front));
      InsertKeepsElements(ms[|ms| - 1], SortByScore(front));
      assert ms == front + [ms[|ms| - 1]];
    }
  }

  lemma {:induction false} WithScoreAppend(a: seq<Match>, b: seq<Match>, s: int)
    ensures WithScore(a + b, s) == WithScore(a, s) + WithScore(b, s)
  {
    if a != [] {
      WithScoreAppend(a[1..], b, s);
      assert (a + b)[1..] == a[1..] + b;
    } else {
      assert a + b == b;
    }
  }

  lemma {:induction false} WithScoreOfLower(l: seq<Match>, s: int)
    requires forall i :: 0 <= i < |l| ==> l[i].score < s
    ensures WithScore(l, s) == []
  {
    if l != [] {
      WithScoreOfLower(l[1..], s);
    }
  }

  lemma {:induction false} InsertWithScore(m: Match, l: seq<Match>, s: int)
    requires SortedDesc(l)
    ensures WithScore(Insert(m, l), s) == WithScore(l, s) + (if m.score == s then [m] else [])
  {
    if l == [] {
    } else if l[0].score >= m.score {
      InsertWithScore(m, l[1..], s);
      assert ([l[0]] + Insert(m, l[1..]))[1..] == Insert(m, l[1..]);
    } else {
      assert ([m] + l)[1..] == l;
      if m.score == s {
        WithScoreOfLower(l, s);
      }
    }
  }

  /**
   * The sort is stable: the matches of any one score come out in the order
   * they went in.
   */
  lemma {:induction false} SortByScoreIsStable(ms: seq<Match>, s: int)
    ensures WithScore(SortByScore(ms), s) == WithScore(ms, s)
  {
    if ms != [] {
      var front := ms[..|ms| - 1];
      var last := ms[|ms| - 1];
      SortByScoreIsStable(front, s);
      SortByScoreSortsAndPermutes(front);
      InsertWithScore(last, SortByScore(front), s);
      assert ms == front + [last];
      WithScoreAppend(front, [last], s);
    }
  }

  function FoodsOf(ms: seq<Match>): (r: seq<FoundationFood>)
    ensures |r| == |ms| && forall i :: 0 <= i < |ms| ==> r[i] == ms[i].food
  {
    seq(|ms|, i requires 0 <= i < |ms| => ms[i].food)
  }

  /** The matches, best first, before the limit is applied. */
  function Ranked(foods: seq<FoundationFood>, query: string): seq<Match>
  {
    SortByScore(Positive(ScoreAll(foods, Lower(query))))
  }

  /**
   * `searchFoundationFoods(query, limit)` over the loaded foods: score, keep
   * the positive scores, sort by descending score, take `slice(0, limit)`.
   */
  function SearchFoundationFoods(foods: seq<FoundationFood>, query: string, limit: int): seq<FoundationFood>
  {
    FoodsOf(Take(Ranked(foods, query), limit))
  }

  /** Every match scores its own food and comes from the searched foods. */
  predicate Scored(ms: seq<Match>, foods: seq<FoundationFood>, q: string)
  {
    forall m :: m in ms ==> m.food in foods && m.score == Score(m.food, q) && m.score > 0
  }

  lemma {:induction false} PositiveScored(foods: seq<FoundationFood>, q: string, k: nat)
    requires k <= |foods|
    ensures Scored(Positive(ScoreAll(foods, q)[k..]), foods, q)
    ensures forall f :: f in foods[k..] && Score(f, q) > 0 ==> Match(f, Score(f, q)) in Positive(ScoreAll(foods, q)[k..])
    ensures |Positive(ScoreAll(foods, q)[k..])| <= |foods| - k
    decreases |foods| - k
  {
    var ms := ScoreAll(foods, q)[k..];
    if k < |foods| {
      PositiveScored(foods, q, k + 1);
      assert ms[1..] == ScoreAll(foods, q)[k + 1..];
      assert foods[k..] == [foods[k]] + foods[k + 1..];
    }
  }

  /** How many of the foods score above 0 against `q`. */
  function MatchCount(foods: seq<FoundationFood>, q: string): (r: nat)
    ensures r <= |foods|
  {
    if foods == [] then 0
    else (if Score(foods[0], q) > 0 then 1 else 0) + MatchCount(foods[1..], q)
  }

  lemma {:induction false} PositiveCount(foods: seq<FoundationFood>, q: string, k: nat)
    requires k <= |foods|
    ensures |Positive(ScoreAll(foods, q)[k..])| == MatchCount(foods[k..], q)
    decreases |foods| - k
  {
    if k < |foods| {
      PositiveCount(foods, q, k + 1);
      assert ScoreAll(foods, q)[k..][1..] == ScoreAll(foods, q)[k + 1..];
      assert foods[k..][1..] == foods[k + 1..];
    }
  }

  lemma RankedScored(foods: seq<FoundationFood>, query: string)
    ensures Scored(Ranked(foods, query), foods, Lower(query))
    ensures SortedDesc(Ranked(foods, query))
    ensures |Ranked(foods, query)| == MatchCount(foods, Lower(query))
    ensures forall f :: f in foods && Score(f, Lower(query)) > 0 ==> f in FoodsOf(Ranked(foods, query))
  {
    var q := Lower(query);
    var all := ScoreAll(foods, q);
    assert all[0..] == all;
    assert foods[0..] == foods;
    PositiveScored(foods, q, 0);
    PositiveCount(foods, q, 0);
    var p := Positive(all);
    SortByScoreSortsAndPermutes(p);
    var r := Ranked(foods, query);
    forall m | m in r
      ensures m in p
    {
      assert m in multiset(r);
    }
    forall f | f in foods && Score(f, q) > 0
      ensures f in FoodsOf(r)
    {
      var m := Match(f, Score(f, q));
      assert m in multiset(p);
      assert m in r;
      var i :| 0 <= i < |r| && r[i] == m;
      assert FoodsOf(r)[i] == f;
    }
  }

  /**
   * The search answers the first foods of the ranking: with a non-negative
   * limit, as many as the limit allows of those that match; each from the
   * searched list and matching the query, best score first; with a limit no
   * smaller than the list, every matching food is answered.
   */
  lemma SearchFoundationFoodsSpec(foods: seq<FoundationFood>, query: string, limit: int)
    ensures var r := SearchFoundationFoods(foods, query, limit);
      && r == FoodsOf(Ranked(foods, query))[..|r|]
      && (0 <= limit ==> |r| == if limit < MatchCount(foods, Lower(query)) then limit else MatchCount(foods, Lower(query)))
      && |r| <= |foods|
      && (forall i :: 0 <= i < |r| ==> r[i] in foods && Score(r[i], Lower(query)) > 0)
      && (forall i, j :: 0 <= i < j < |r| ==> Score(r[i], Lower(query)) >= Score(r[j], Lower(query)))
      && (limit >= |foods| ==> forall f :: f in foods && Score(f, Lower(query)) > 0 ==> f in r)
  {
    var ranked := Ranked(foods, query);
    RankedScored(foods, query);
    var taken := Take(ranked, limit);
    var r := SearchFoundationFoods(foods, query, limit);
    forall i | 0 <= i < |r|
      ensures r[i] in foods && Score(r[i], Lower(query)) == taken[i].score > 0
    {
      assert taken[i] == ranked[i];
      assert ranked[i] in ranked;
    }
    assert r == FoodsOf(ranked)[..|r|];
    if limit >= |foods| {
      TakeAll(ranked, limit);
    }
  }

  // ---------------------------------------------------------------------------
  // Cache and index
  // ---------------------------------------------------------------------------

  /** The records of the file that pass validation, in file order. */
  function Valids(file: seq<Option<FoundationFood>>): (r: seq<FoundationFood>)
    ensures |r| <= |file|
    ensures forall f :: f in r <==> Some(f) in file
  {
    if file == [] then []
    else (if file[0].Some? then [file[0].value] else []) + Valids(file[1..])
  }

  /** The index built by setting each food under its id in order, so a later duplicate wins. */
  function IdIndex(foods: seq<FoundationFood>): map<int, FoundationFood>
  {
    if foods == [] then map[]
    else IdIndex(foods[..|foods| - 1])[foods[|foods| - 1].fdcId := foods[|foods| - 1]]
  }

  /** The index holds exactly the ids of the foods, each under the last food with that id. */
  lemma {:induction false} IndexOfSpec(foods: seq<FoundationFood>, id: int)
    ensures id in IdIndex(foods) <==> exists i :: 0 <= i < |foods| && foods[i].fdcId == id
    ensures id in IdIndex(foods) ==>
      exists i :: 0 <= i < |foods| && IdIndex(foods)[id] == foods[i] && foods[i].fdcId == id
        && forall j :: i < j < |foods| ==> foods[j].fdcId != id
  {
    if foods != [] {
      var front := foods[..|foods| - 1];
      IndexOfSpec(front, id);
      if foods[|foods| - 1].fdcId != id {
        if id in IdIndex(front) {
          var i :| 0 <= i < |front| && IdIndex(front)[id] == front[i] && front[i].fdcId == id
            && forall j :: i < j < |front| ==> front[j].fdcId != id;
          assert foods[i] == front[i];
        }
        if exists i :: 0 <= i < |foods| && foods[i].fdcId == id {
          var i :| 0 <= i < |foods| && foods[i].fdcId == id;
          assert front[i] == foods[i];
        }
      }
    }
  }

  /** `getFoundationFoodById` over a loaded list: the indexed food, if any. */
  function FoodById(foods: seq<FoundationFood>, id: int): Option<FoundationFood>
  {
    var index := IdIndex(foods);
    if id in index then Some(index[id]) else None
  }

  /**
   * The module's cache and index over an abstract loader: `file` is what the
   * loader yields, `None` standing for a record that fails validation, and
   * `fileReads` counts how often the file has been read.
   */
  class FoundationStore {
    const file: seq<Option<FoundationFood>>
    var cache: Option<seq<FoundationFood>>
    var index: Option<map<int, FoundationFood>>
    var fileReads: nat

    /** The cache and the index are set and cleared together, and always reflect the file. */
    predicate Valid()
      reads this
    {
      && (cache.Some? <==> index.Some?)
      && (cache.Some? ==> cache.value == Valids(file) && index.value == IdIndex(cache.value))
    }

    constructor (file: seq<Option<FoundationFood>>)
      ensures Valid() && this.file == file
      ensures cache.None? && index.None? && fileReads == 0
    {
      this.file := file;
      cache := None;
      index := None;
      fileReads := 0;
    }

    /**
     * `loadFoundationFoods`: answers the cache when set; otherwise reads the
     * file once, keeps the valid records and builds the index.
     */
    method Load() returns (foods: seq<FoundationFood>)
      requires Valid()
      modifies this
      ensures Valid() && cache == Some(foods) && foods == Valids(file)
      ensures old(cache).Some? ==> fileReads == old(fileReads)
      ensures old(cache).None? ==> fileReads == old(fileReads) + 1
    {
      if cache.Some? {
        return cache.value;
      }
      fileReads := fileReads + 1;
      foods := Valids(file);
      cache := Some(foods);
      var idx: map<int, FoundationFood> := map[];
      var i := 0;
      while i < |foods|
        invariant 0 <= i <= |foods|
        invariant idx == IdIndex(foods[..i])
        invariant cache == Some(foods) && fileReads == old(fileReads) + 1
      {
        assert foods[..i + 1][..i] == foods[..i];
        idx := idx[foods[i].fdcId := foods[i]];
        i := i + 1;
      }
      assert foods[..|foods|] == foods;
      index := Some(idx);
    }

    /** `getFoundationFoodById`: loads first when there is no index. */
    method GetById(fdcId: int) returns (r: Option<FoundationFood>)
      requires Valid()
      modifies this
      ensures Valid() && index.Some?
      ensures r == FoodById(Valids(file), fdcId)
      ensures old(index).Some? ==> fileReads == old(fileReads)
    {
      if index.None? {
        var _ := Load();
      }
      var idx := index.value;
      r := if fdcId in idx then Some(idx[fdcId]) else None;
    }

    /** `searchFoundationFoods`: load, then rank. */
    method Search(query: string, limit: int) returns (r: seq<FoundationFood>)
      requires Valid()
      modifies this
      ensures Valid() && cache == Some(Valids(file))
      ensures r == SearchFoundationFoods(Valids(file), query, limit)
      ensures old(cache).Some? ==> fileReads == old(fileReads)
      ensures old(cache).None? ==> fileReads == old(fileReads) + 1
    {
      var foods := Load();
      r := SearchFoundationFoods(foods, query, limit);
    }

    /** `clearFoundationCache`: forget both the list and the index. */
    method Clear()
      modifies this
      ensures Valid() && cache.None? && index.None? && fileReads == old(fileReads)
    {
      cache := None;
      index := None;
    }

    /** `getFoundationFoodsCount`: the number of loaded foods, 0 before loading. */
    method Count() returns (n: nat)
      requires Valid()
      ensures cache.None? ==> n == 0
      ensures cache.Some? ==> n == |Valids(file)|
    {
      n := if cache.Some? then |cache.value| else 0;
    }
  }

  // ---------------------------------------------------------------------------
  // Mapping
  // ---------------------------------------------------------------------------

  /** `mapFoundationToSearchResult`: code is the decimal FDC id, source Foundation, no brand. */
  function MapFoundationToSearchResult(food: FoundationFood): (r: FoodSearchResult)
    ensures r.code == Some(IntToDecimal(food.fdcId)) && r.productName == Some(food.description)
    ensures r.brands.None? && r.nutriscoreGrade.None? && r.categories == food.foodCategory
    ensures r.scansN == Some(0.0) && r.source == Foundation
  {
    FoodSearchResult(Some(IntToDecimal(food.fdcId)), Some(food.description), None, food.foodCategory,
                     None, Some(0.0), Foundation)
  }

  /** The code of a Foundation hit parses back to its FDC id, which is how a logged item finds it again. */
  lemma FoundationCodeRoundTrip(food: FoundationFood)
    ensures ParseInt(MapFoundationToSearchResult(food).code.value) == Some(food.fdcId)
  {
    ParseIntOfDecimal(food.fdcId);
  }

  /** A nutrient as a nutriment: its name and unit, its amount as both the value and the per-100 g figure. */
  function NutrientToNutriment(n: FoundationNutrient): (r: Nutriment)
    ensures r.name == Some(n.name) && r.unit == Some(n.unitName)
    ensures r.value == r.per100g == Some(n.amount)
    ensures r.serving.None? && r.preparedValue.None? && r.prepared100g.None?
    ensures r.preparedServing.None? && r.preparedUnit.None?
  {
    Nutriment(Some(n.name), Some(n.amount), Some(n.amount), None, Some(n.unitName), None, None, None, None)
  }

  /** `/\s+/g` replaced by `-`: every run of whitespace becomes one hyphen. */
  function Hyphenate(s: string): (r: string)
    ensures forall i :: 0 <= i < |r| ==> !IsSpace(r[i])
    ensures |r| <= |s|
    decreases |s|
  {
    if s == [] then []
    else if IsSpace(s[0]) then "-" + Hyphenate(TrimStart(s[1..]))
    else [s[0]] + Hyphenate(s[1..])
  }

  /** A text without whitespace comes back unchanged. */
  lemma {:induction false} HyphenateWithoutSpace(s: string)
    requires forall i :: 0 <= i < |s| ==> !IsSpace(s[i])
    ensures Hyphenate(s) == s
  {
    if s != [] {
      HyphenateWithoutSpace(s[1..]);
    }
  }

  /**
   * Only whitespace turns into '-': once whitespace and '-' are dropped, the
   * hyphenated text and the original are the same text.
   */
  lemma {:induction false} HyphenateSqueezed(s: string)
    ensures Squeezed(Hyphenate(s)) == Squeezed(s)
    decreases |s|
  {
    if s == [] {
    } else if IsSpace(s[0]) {
      var rest := Hyphenate(TrimStart(s[1..]));
      HyphenateSqueezed(TrimStart(s[1..]));
      SqueezedTrimStart(s[1..]);
      assert ("-" + rest)[1..] == rest;
    } else {
      var rest := Hyphenate(s[1..]);
      HyphenateSqueezed(s[1..]);
      assert ([s[0]] + rest)[1..] == rest;
    }
  }

  /** The text with every whitespace character and every '-' dropped. */
  function Squeezed(s: string): (r: string)
    ensures |r| <= |s|
  {
    if s == [] then []
    else (if IsSpace(s[0]) || s[0] == '-' then [] else [s[0]]) + Squeezed(s[1..])
  }

  /** Dropping leading whitespace does not change what is left once whitespace and '-' are dropped. */
  lemma {:induction false} SqueezedTrimStart(s: string)
    ensures Squeezed(TrimStart(s)) == Squeezed(s)
  {
    if s != [] && IsSpace(s[0]) {
      SqueezedTrimStart(s[1..]);
    }
  }


  /** The serving label of the first portion, if the food has one. */
  function PrimaryPortion(food: FoundationFood): Option<FoundationPortion>
  {
    if food.foodPortions.Some? && |food.foodPortions.value| > 0 then Some(food.foodPortions.value[0]) else None
  }

  /** `mapFoundationToProduct`: a USDA product per 100 g with one nutriment per food nutrient. */
  function MapFoundationToProduct(food: FoundationFood): (p: FoodProduct)
    ensures p.code == Some(IntToDecimal(food.fdcId)) && p.source == Foundation
    ensures |p.nutriments| == |food.foodNutrients|
    ensures forall i :: 0 <= i < |p.nutriments| ==>
      && p.nutriments[i].name == Some(food.foodNutrients[i].name)
      && p.nutriments[i].value == p.nutriments[i].per100g == Some(food.foodNutrients[i].amount)
      && p.nutriments[i].unit == Some(food.foodNutrients[i].unitName)
    ensures p.quantity == Some("100g") && p.creator == "USDA"
    ensures food.foodCategory.None? ==> p.categoriesTags == []
    ensures food.foodCategory.Some? ==> |p.categoriesTags| == 1 && StartsWith(p.categoriesTags[0], "en:")
    ensures p.servingSize.Some? <==> PrimaryPortion(food).Some?
    ensures PrimaryPortion(food).Some? ==> var pp := PrimaryPortion(food).value;
      p.servingSize == Some(PortionLabel(Coalesce(OrElse(pp.amount, pp.value), 1.0), pp.measureUnitName, pp.gramWeight))
    ensures p.servingQuantity.Some? ==> p.servingQuantity.value != 0.0
  {
    var portion := PrimaryPortion(food);
    var servingSize := match portion
      case None => None
      case Some(pp) => Some(PortionLabel(Coalesce(OrElse(pp.amount, pp.value), 1.0), pp.measureUnitName, pp.gramWeight));
    var servingQuantity := if portion.Some? && portion.value.gramWeight != 0.0 then Some(portion.value.gramWeight) else None;
    var tags := match food.foodCategory
      case None => []
      case Some(c) => ["en:" + Hyphenate(Lower(c))];
    FoodProduct(
      code := Some(IntToDecimal(food.fdcId)),
      productName := [LocalizedText("en", food.description)],
      brands := None,
      brandsTags := [],
      categories := food.foodCategory,
      categoriesTags := tags,
      nutriments := seq(|food.foodNutrients|, i requires 0 <= i < |food.foodNutrients| => NutrientToNutriment(food.foodNutrients[i])),
      source := Foundation,
      completeness := 1.0,
      createdT := None,
      lastModifiedT := None,
      creator := "USDA",
      ecoscoreGrade := None,
      nutriscoreGrade := None,
      genericName := if food.scientificName.Some? && food.scientificName.value != "" then Some([LocalizedText("en", food.scientificName.value)]) else None,
      quantity := Some("100g"),
      servingQuantity := servingQuantity,
      servingSize := servingSize,
      additivesN := Some(0.0),
      countriesTags := ["en:united-states"],
      mainCountriesTags := ["en:united-states"],
      scansN := 0.0,
      uniqueScansN := 0.0)
  }

  /** The hit and the product of the same Foundation food agree on code, name, category and source. */
  lemma FoundationViewsAgree(food: FoundationFood)
    ensures var hit := MapFoundationToSearchResult(food);
      var p := MapFoundationToProduct(food);
      && hit.code == p.code && hit.categories == p.categories && hit.source == p.source
      && hit.productName == Some(p.productName[0].text) && hit.brands == p.brands
  {
  }
}
