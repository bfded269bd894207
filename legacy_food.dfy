/**
 * The first food router's `logFoods`: nutrients an item does not bring are
 * looked up (the user's custom food or the first branded row), their names
 * mapped through a short fixed table and a chain of substring tests, and
 * scaled to the portion taken as grams, or ounces when the unit is "oz".
 */
module LegacyFood {
  import opened Wrappers
  import opened Text
  import opened FoodSchema
  import opened FoodUtils
  import opened LogFoods

  /** The fixed name table applied to lower-cased nutriment names. */
  const LegacyKeyMapping: map<string, string> := map[
    "energy-kcal" := "energy_kcal", "proteins" := "protein", "carbohydrates" := "carbohydrate",
    "saturated-fat" := "saturatedFat", "trans-fat" := "transFat", "cholesterol" := "cholesterol",
    "vitamin-c" := "vitaminC", "vitamin-a" := "vitaminA", "vitamin-d" := "vitaminD",
    "vitamin-e" := "vitaminE", "vitamin-k" := "vitaminK", "vitamin-b6" := "vitaminB6",
    "vitamin-b12" := "vitaminB12", "pantothenic-acid" := "pantothenicAcid", "folic-acid" := "folate"
  ]

  /** The substring chain, in the order the tests are made. */
  const LegacyChain: seq<string> := ["fiber", "iron", "calcium", "potassium", "sodium", "magnesium", "zinc"]

  /** The first word of `chain` contained in `key`, if any. */
  function FirstContained(key: string, chain: seq<string>): (r: Option<nat>)
    ensures r.Some? ==>
      && r.value < |chain| && Contains(key, chain[r.value])
      && forall j :: 0 <= j < r.value ==> !Contains(key, chain[j])
    ensures r.None? ==> forall j :: 0 <= j < |chain| ==> !Contains(key, chain[j])
  {
    if chain == [] then None
    else if Contains(key, chain[0]) then Some(0)
    else match FirstContained(key, chain[1..])
      case None => None
      case Some(i) => Some(i + 1)
  }

  /**
   * The stored key for a lower-cased name: the table's entry when it has a
   * non-empty one, else the first chain word the name contains, else the name.
   */
  function LegacyKeyIn(mapping: map<string, string>, chain: seq<string>, key: string): string
  {
    if key in mapping && mapping[key] != "" then mapping[key]
    else match FirstContained(key, chain)
      case Some(i) => chain[i]
      case None => key
  }

  /** The table wins over the chain, the chain goes in order, and an unmatched name is kept. */
  lemma LegacyKeyPrecedence(mapping: map<string, string>, chain: seq<string>, key: string)
    ensures key in mapping && mapping[key] != "" ==> LegacyKeyIn(mapping, chain, key) == mapping[key]
    ensures !(key in mapping && mapping[key] != "") ==>
      forall i :: 0 <= i < |chain| && Contains(key, chain[i]) && (forall j :: 0 <= j < i ==> !Contains(key, chain[j])) ==>
        LegacyKeyIn(mapping, chain, key) == chain[i]
    ensures !(key in mapping && mapping[key] != "") && (forall j :: 0 <= j < |chain| ==> !Contains(key, chain[j])) ==>
      LegacyKeyIn(mapping, chain, key) == key
  {
    if !(key in mapping && mapping[key] != "") {
      forall i | 0 <= i < |chain| && Contains(key, chain[i]) && (forall j :: 0 <= j < i ==> !Contains(key, chain[j]))
        ensures LegacyKeyIn(mapping, chain, key) == chain[i]
      {
        var r := FirstContained(key, chain);
        assert r.Some?;
      }
    }
  }

  /** What one item contributes: its mapped key and its amount, unless it has no name or a zero amount. */
  function LegacyEntry(mapping: map<string, string>, chain: seq<string>, item: RawItem): (r: Option<(string, real)>)
    ensures r.Some? ==> r.value.1 != 0.0 && FieldsOf(item).name.Some? && FieldsOf(item).name.value != ""
  {
    var n := FieldsOf(item);
    var val := Coalesce(OrElse(n.per100g, n.value), 0.0);
    if n.name.None? || Lower(n.name.value) == "" || val == 0.0 then None
    else Some((LegacyKeyIn(mapping, chain, Lower(n.name.value)), val))
  }

  /** The base values built from the items in order, a later item overwriting an earlier one. */
  function LegacyValuesIn(mapping: map<string, string>, chain: seq<string>, items: seq<RawItem>): (r: map<string, real>)
    ensures forall k :: k in r ==> r[k] != 0.0
  {
    if items == [] then map[]
    else
      var m := LegacyValuesIn(mapping, chain, items[..|items| - 1]);
      match LegacyEntry(mapping, chain, items[|items| - 1])
      case None => m
      case Some(e) => m[e.0 := e.1]
  }

  /** Which key one item writes, if any. */
  function LegacyEntryKey(mapping: map<string, string>, chain: seq<string>, item: RawItem): Option<string>
  {
    match LegacyEntry(mapping, chain, item)
    case None => None
    case Some(e) => Some(e.0)
  }

  /** Last one wins: a key holds the amount of the last item that writes it. */
  lemma {:induction false} LegacyValuesLastWins(mapping: map<string, string>, chain: seq<string>, items: seq<RawItem>, i: nat)
    requires i < |items| && LegacyEntry(mapping, chain, items[i]).Some?
    requires forall j :: i < j < |items| ==> LegacyEntryKey(mapping, chain, items[j]) != LegacyEntryKey(mapping, chain, items[i])
    ensures LegacyEntry(mapping, chain, items[i]).value.0 in LegacyValuesIn(mapping, chain, items)
    ensures LegacyValuesIn(mapping, chain, items)[LegacyEntry(mapping, chain, items[i]).value.0]
         == LegacyEntry(mapping, chain, items[i]).value.1
  {
    var front := items[..|items| - 1];
    if i < |items| - 1 {
      assert front[i] == items[i];
      LegacyValuesLastWins(mapping, chain, front, i);
      assert LegacyEntryKey(mapping, chain, items[|items| - 1]) != LegacyEntryKey(mapping, chain, items[i]);
    }
  }

  /** A key is a base value only if some item writes it. */
  lemma {:induction false} LegacyKeysHaveWriters(mapping: map<string, string>, chain: seq<string>, items: seq<RawItem>, k: string)
    requires k in LegacyValuesIn(mapping, chain, items)
    ensures exists i :: 0 <= i < |items| && LegacyEntryKey(mapping, chain, items[i]) == Some(k)
  {
    var front := items[..|items| - 1];
    if LegacyEntryKey(mapping, chain, items[|items| - 1]) != Some(k) {
      LegacyKeysHaveWriters(mapping, chain, front, k);
      var i :| 0 <= i < |front| && LegacyEntryKey(mapping, chain, front[i]) == Some(k);
      assert items[i] == front[i];
    }
  }

  /** The `forEach` over the items, against a name table and a chain. */
  method CollectLegacyValues(mapping: map<string, string>, chain: seq<string>, items: seq<RawItem>)
    returns (baseValues: map<string, real>)
    ensures baseValues == LegacyValuesIn(mapping, chain, items)
  {
    baseValues := map[];
    var i := 0;
    while i < |items|
      invariant 0 <= i <= |items|
      invariant baseValues == LegacyValuesIn(mapping, chain, items[..i])
    {
      assert items[..i + 1][..i] == items[..i];
      var n := FieldsOf(items[i]);
      var val := Coalesce(OrElse(n.per100g, n.value), 0.0);
      if n.name.Some? && Lower(n.name.value) != "" {
        var key := LegacyKeyIn(mapping, chain, Lower(n.name.value));
        if val != 0.0 {
          baseValues := baseValues[key := val];
        }
      }
      i := i + 1;
    }
    assert items[..|items|] == items;
  }

  /** The portion factor: grams over 100, or ounces at 28.35 g when the unit is exactly "oz". */
  function LegacyFactor(quantity: real, unit: string): (r: real)
    ensures unit == "oz" ==> r == quantity * 28.35 / 100.0
    ensures unit != "oz" ==> r * 100.0 == quantity
  {
    if unit == "oz" then quantity * 28.35 / 100.0 else quantity / 100.0
  }

  /** What the lookup finds: nothing, a custom food's nutrient object, or a branded row's column. */
  datatype LegacyRawFood = NoFood | CustomObject(values: map<string, real>) | BrandedColumn(nutriments: RawNutriments)

  /** One element of the first router's input. */
  datatype LegacyLogInput = LegacyLogInput(
    date: string,
    foodName: string,
    foodBrand: Option<string>,
    foodCode: Option<string>,
    source: Option<FoodSource>,
    quantity: real,
    unit: string,
    nutrients: Option<map<string, real>>)

  /**
   * The lookup: only for an item that brings no nutrients and has both a code
   * and a source; "User" items of a signed-in user go to the custom store,
   * everything else to the branded store.
   */
  function LegacyLookup(item: LegacyLogInput, userId: Option<string>,
                        custom: (string, string) -> Option<map<string, real>>,
                        branded: string -> Option<RawNutriments>): LegacyRawFood
  {
    if |Coalesce(item.nutrients, map[])| != 0 || !Truthy(item.foodCode) || item.source.None? then NoFood
    else if item.source == Some(User) && Truthy(userId) then
      match custom(item.foodCode.value, userId.value)
      case None => NoFood
      case Some(values) => CustomObject(values)
    else
      match branded(item.foodCode.value)
      case None => NoFood
      case Some(raw) => BrandedColumn(raw)
  }

  /**
   * The base values as the router computes them: a custom food's nutrients
   * arrive as an object, which is not an array, so they yield none.
   */
  function LegacyBaseAsWritten(found: LegacyRawFood): (r: Option<map<string, real>>)
    ensures r.None? <==> found.NoFood? || (found.BrandedColumn? && found.nutriments.Falsy?)
    ensures found.CustomObject? ==> r == Some(map[])
  {
    match found
    case NoFood => None
    case CustomObject(_) => Some(map[])
    case BrandedColumn(raw) =>
      if raw.Falsy? then None else Some(LegacyValuesIn(LegacyKeyMapping, LegacyChain, RawItems(raw)))
  }

  /** The base values as intended: a custom food's nutrient object is used as it is. */
  function LegacyBase(found: LegacyRawFood): (r: Option<map<string, real>>)
    ensures r.None? <==> found.NoFood? || (found.BrandedColumn? && found.nutriments.Falsy?)
    ensures found.CustomObject? ==> r == Some(found.values)
  {
    match found
    case NoFood => None
    case CustomObject(values) => Some(values)
    case BrandedColumn(raw) =>
      if raw.Falsy? then None else Some(LegacyValuesIn(LegacyKeyMapping, LegacyChain, RawItems(raw)))
  }

  /** The nutrients logged from given base values. */
  function LegacyFinal(item: LegacyLogInput, base: Option<map<string, real>>): map<string, real>
  {
    match base
    case None => Coalesce(item.nutrients, map[])
    case Some(b) => Scaled(b, LegacyFactor(item.quantity, item.unit))
  }

  /** `item.foodBrand || null`: an empty brand is stored as null. */
  function LegacyBrand(brand: Option<string>): (r: Option<string>)
    ensures r.Some? <==> Truthy(brand)
    ensures r.Some? ==> r == brand
  {
    if Truthy(brand) then brand else None
  }

  /**
   * A signed-in user's custom food with nutrients, logged by code without
   * nutrients, is stored with none: the router's array test rejects the
   * nutrient object. With the object used as it is, the nutrients are kept.
   */
  lemma LegacyCustomFoodLosesNutrients(item: LegacyLogInput, userId: Option<string>,
                                       custom: (string, string) -> Option<map<string, real>>,
                                       branded: string -> Option<RawNutriments>)
    requires item.nutrients.None? && Truthy(item.foodCode) && item.source == Some(User) && Truthy(userId)
    requires custom(item.foodCode.value, userId.value).Some? && |custom(item.foodCode.value, userId.value).value| > 0
    ensures LegacyFinal(item, LegacyBaseAsWritten(LegacyLookup(item, userId, custom, branded))) == map[]
    ensures LegacyFinal(item, LegacyBase(LegacyLookup(item, userId, custom, branded))).Keys
         == custom(item.foodCode.value, userId.value).value.Keys
  {
  }

  /** The two readings differ only for a custom food. */
  lemma LegacyBaseAgreesOffCustom(found: LegacyRawFood)
    requires !found.CustomObject?
    ensures LegacyBase(found) == LegacyBaseAsWritten(found)
  {
  }

  /** The intended row for an item. */
  function LegacyRow(item: LegacyLogInput, userId: Option<string>,
                     custom: (string, string) -> Option<map<string, real>>,
                     branded: string -> Option<RawNutriments>): (row: DailyLogRow)
    ensures row.userId == Coalesce(userId, "") && row.foodBrand == LegacyBrand(item.foodBrand)
    ensures row.date == item.date && row.foodName == item.foodName
    ensures row.quantity == item.quantity && row.unit == item.unit
    ensures row.nutrients == LegacyFinal(item, LegacyBase(LegacyLookup(item, userId, custom, branded)))
  {
    DailyLogRow(Coalesce(userId, ""), item.date, item.foodName, LegacyBrand(item.foodBrand), item.quantity, item.unit,
                LegacyFinal(item, LegacyBase(LegacyLookup(item, userId, custom, branded))))
  }

  /** One item's nutrients, resolved as intended. */
  method LegacyResolveItem(item: LegacyLogInput, userId: Option<string>,
                           custom: (string, string) -> Option<map<string, real>>,
                           branded: string -> Option<RawNutriments>) returns (finalNutrients: map<string, real>)
    ensures finalNutrients == LegacyFinal(item, LegacyBase(LegacyLookup(item, userId, custom, branded)))
  {
    finalNutrients := Coalesce(item.nutrients, map[]);
    var found := LegacyLookup(item, userId, custom, branded);
    var baseValues: Option<map<string, real>> := None;
    match found {
      case NoFood =>
      case CustomObject(values) =>
        baseValues := Some(values);
      case BrandedColumn(raw) =>
        if !raw.Falsy? {
          var collected := CollectLegacyValues(LegacyKeyMapping, LegacyChain, RawItems(raw));
          baseValues := Some(collected);
        }
    }
    if baseValues.Some? {
      finalNutrients := ScaleNutrients(baseValues.value, LegacyFactor(item.quantity, item.unit));
    }
  }

  /** The first router's `logFoods`: one row per item in order, inserted only for a signed-in user. */
  method LegacyLogFoods(input: seq<LegacyLogInput>, userId: Option<string>,
                        custom: (string, string) -> Option<map<string, real>>,
                        branded: string -> Option<RawNutriments>)
    returns (logs: seq<DailyLogRow>, inserted: seq<DailyLogRow>)
    ensures |logs| == |input|
    ensures forall i :: 0 <= i < |input| ==> logs[i] == LegacyRow(input[i], userId, custom, branded)
    ensures inserted == (if Truthy(userId) then logs else [])
  {
    logs := [];
    var i := 0;
    while i < |input|
      invariant 0 <= i <= |input| && |logs| == i
      invariant forall j :: 0 <= j < i ==> logs[j] == LegacyRow(input[j], userId, custom, branded)
    {
      var item := input[i];
      var nutrients := LegacyResolveItem(item, userId, custom, branded);
      logs := logs + [DailyLogRow(Coalesce(userId, ""), item.date, item.foodName, LegacyBrand(item.foodBrand),
                                  item.quantity, item.unit, nutrients)];
      i := i + 1;
    }
    inserted := if Truthy(userId) then logs else [];
  }

  /**
   * Unlike the later router, an item without a source is never looked up, and
   * a "User" item without a session is looked up in the branded store.
   */
  lemma LegacyLookupGating(item: LegacyLogInput, userId: Option<string>,
                           custom: (string, string) -> Option<map<string, real>>,
                           branded: string -> Option<RawNutriments>)
    ensures item.source.None? ==> LegacyLookup(item, userId, custom, branded) == NoFood
    ensures item.nutrients.None? && Truthy(item.foodCode) && item.source == Some(User) && !Truthy(userId) ==>
      (LegacyLookup(item, userId, custom, branded).NoFood? <==> branded(item.foodCode.value).None?)
    ensures item.nutrients.Some? && |item.nutrients.value| > 0 ==>
      LegacyRow(item, userId, custom, branded).nutrients == item.nutrients.value
  {
  }

  /** Every stored base value is non-zero: a zero or missing amount is dropped, not stored as 0. */
  lemma LegacyZeroAmountsDropped(items: seq<RawItem>, k: string)
    requires k in LegacyValuesIn(LegacyKeyMapping, LegacyChain, items)
    ensures LegacyValuesIn(LegacyKeyMapping, LegacyChain, items)[k] != 0.0
  {
  }
}
