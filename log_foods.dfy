/**
 * The `logFoods` procedure: each logged item keeps the nutrients it brings
 * or, when it brings none and names a food code, has them resolved from the
 * user's custom food, the Foundation list or the branded database and scaled
 * to the logged portion; the rows are stored only for a signed-in user.
 */
module LogFoods {
  import opened Wrappers
  import opened Text
  import opened Registry
  import opened FoodSchema
  import opened FoodUtils
  import opened Foundation

  // ---------------------------------------------------------------------------
  // Foundation nutrients
  // ---------------------------------------------------------------------------

  /** The key a Foundation nutrient is filed under, if its name normalises to one. */
  function FoundationKeyIn(table: seq<Entry>, n: FoundationNutrient): (r: Option<string>)
    ensures r.Some? ==> r.value != ""
  {
    match NormalizeIn(table, n.name)
    case Some(k) => if k != "" then Some(k) else None
    case None => None
  }

  /** The flat map built from a food's nutrients in order, a later nutrient overwriting an earlier one. */
  function FoundationNutrientsIn(table: seq<Entry>, ns: seq<FoundationNutrient>): map<string, real>
  {
    if ns == [] then map[]
    else
      var m := FoundationNutrientsIn(table, ns[..|ns| - 1]);
      match FoundationKeyIn(table, ns[|ns| - 1])
      case None => m
      case Some(k) => m[k := ns[|ns| - 1].amount]
  }

  /** `extractFoundationNutrients(fdcId)` over the loaded list: `None` for an unknown id. */
  function FoundationNutrientsOf(foods: seq<FoundationFood>, fdcId: int): Option<map<string, real>>
  {
    match FoodById(foods, fdcId)
    case None => None
    case Some(food) => Some(FoundationNutrientsIn(NutrientRegistry, food.foodNutrients))
  }

  /** Last one wins: a key holds the amount of the last nutrient that normalises to it. */
  lemma {:induction false} FoundationNutrientsLastWins(table: seq<Entry>, ns: seq<FoundationNutrient>, i: nat)
    requires i < |ns| && FoundationKeyIn(table, ns[i]).Some?
    requires forall j :: i < j < |ns| ==> FoundationKeyIn(table, ns[j]) != FoundationKeyIn(table, ns[i])
    ensures FoundationKeyIn(table, ns[i]).value in FoundationNutrientsIn(table, ns)
    ensures FoundationNutrientsIn(table, ns)[FoundationKeyIn(table, ns[i]).value] == ns[i].amount
  {
    var front := ns[..|ns| - 1];
    if i < |ns| - 1 {
      assert front[i] == ns[i];
      FoundationNutrientsLastWins(table, front, i);
      assert FoundationKeyIn(table, ns[|ns| - 1]) != FoundationKeyIn(table, ns[i]);
    }
  }

  /** A key is in the map only if some nutrient normalises to it. */
  lemma {:induction false} FoundationKeysHaveNutrients(table: seq<Entry>, ns: seq<FoundationNutrient>, k: string)
    requires k in FoundationNutrientsIn(table, ns)
    ensures exists i :: 0 <= i < |ns| && FoundationKeyIn(table, ns[i]) == Some(k)
  {
    var front := ns[..|ns| - 1];
    if FoundationKeyIn(table, ns[|ns| - 1]) != Some(k) {
      FoundationKeysHaveNutrients(table, front, k);
      var i :| 0 <= i < |front| && FoundationKeyIn(table, front[i]) == Some(k);
      assert ns[i] == front[i];
    }
  }

  /** Every key of a Foundation food's map is a canonical key of the table or a fuzzy-fallback key. */
  lemma {:induction false} FoundationNutrientKeys(table: seq<Entry>, ns: seq<FoundationNutrient>)
    ensures forall k :: k in FoundationNutrientsIn(table, ns) ==>
      IsKeyIn(table, k) || k in {"fiber", "protein", "fat", "sugar", "carbohydrate"}
  {
    if ns != [] {
      FoundationNutrientKeys(table, ns[..|ns| - 1]);
      var n := Lower(Trim(ns[|ns| - 1].name));
      match FirstClaimIndex(table, n)
      case Some(i) =>
        assert IsKeyIn(table, table[i].0);
      case None =>
    }
  }

  /** Against the registry, every key of a Foundation food's map is a registry key. */
  lemma FoundationNutrientRegistryKeys(ns: seq<FoundationNutrient>)
    ensures forall k :: k in FoundationNutrientsIn(NutrientRegistry, ns) ==> IsKey(k)
  {
    FoundationNutrientKeys(NutrientRegistry, ns);
    FuzzyKeysAreKeys();
  }

  /** The loop of `extractFoundationNutrients`, against the entries of `table`. */
  method CollectFoundationNutrients(table: seq<Entry>, ns: seq<FoundationNutrient>) returns (nutrients: map<string, real>)
    ensures nutrients == FoundationNutrientsIn(table, ns)
  {
    nutrients := map[];
    var i := 0;
    while i < |ns|
      invariant 0 <= i <= |ns|
      invariant nutrients == FoundationNutrientsIn(table, ns[..i])
    {
      assert ns[..i + 1][..i] == ns[..i];
      var key := NormalizeOver(table, ns[i].name);
      if key.Some? && key.value != "" {
        nutrients := nutrients[key.value := ns[i].amount];
      }
      i := i + 1;
    }
    assert ns[..|ns|] == ns;
  }

  /** `extractFoundationNutrients`: look the food up in the store, then collect its nutrients. */
  method ExtractFoundationNutrients(store: FoundationStore, fdcId: int) returns (r: Option<map<string, real>>)
    requires store.Valid()
    modifies store
    ensures store.Valid()
    ensures r == FoundationNutrientsOf(Valids(store.file), fdcId)
  {
    var food := store.GetById(fdcId);
    if food.None? {
      return None;
    }
    var nutrients := CollectFoundationNutrients(NutrientRegistry, food.value.foodNutrients);
    return Some(nutrients);
  }

  // ---------------------------------------------------------------------------
  // Items
  // ---------------------------------------------------------------------------

  /** One element of the procedure's input. */
  datatype LogFoodInput = LogFoodInput(
    date: string,
    foodName: string,
    foodBrand: Option<string>,
    foodCode: Option<string>,
    source: Option<FoodSource>,
    dataSource: Option<DataSource>,
    quantity: real,
    unit: string,
    nutrients: Option<map<string, real>>)

  /** A stored daily-log row. */
  datatype DailyLogRow = DailyLogRow(
    userId: string,
    date: string,
    foodName: string,
    foodBrand: Option<string>,
    quantity: real,
    unit: string,
    nutrients: map<string, real>)

  /** A JavaScript truthiness test on an optional string: present and not empty. */
  predicate Truthy(s: Option<string>)
  {
    s.Some? && s.value != ""
  }

  /** Which store an item's nutrients are resolved from. */
  datatype Route = Supplied | CustomStore | FoundationList | BrandedStore

  /**
   * An item is resolved only when it brings no nutrients and names a food
   * code; a "User" item goes to the custom store only for a signed-in user,
   * otherwise a Foundation source or a Foundation search goes to the
   * Foundation list, and everything else to the branded store.
   */
  function RouteOf(item: LogFoodInput, userId: Option<string>): Route
  {
    if |Coalesce(item.nutrients, map[])| != 0 || !Truthy(item.foodCode) then Supplied
    else if item.source == Some(User) && Truthy(userId) then CustomStore
    else if item.source == Some(Foundation) || item.dataSource == Some(FoundationData) then FoundationList
    else BrandedStore
  }

  /**
   * The per-100 g nutrients found for a routed item. `custom(code, user)` is the
   * custom food's nutrient map (`None` when there is no such food or it has none),
   * `foods` the loaded Foundation list, `branded(code)` the nutriments column of
   * the first branded row (`None` when no row comes back).
   */
  function BaseNutrients(item: LogFoodInput, userId: Option<string>,
                         custom: (string, string) -> Option<map<string, real>>,
                         foods: seq<FoundationFood>,
                         branded: string -> Option<RawNutriments>): Option<map<string, real>>
  {
    match RouteOf(item, userId)
    case Supplied => None
    case CustomStore => custom(item.foodCode.value, userId.value)
    case FoundationList =>
      (match ParseInt(item.foodCode.value)
       case None => None
       case Some(fdcId) => FoundationNutrientsOf(foods, fdcId))
    case BrandedStore =>
      (match branded(item.foodCode.value)
       case None => None
       case Some(raw) => if raw.Falsy? then None else Some(ExtractedValues(raw)))
  }

  /** The nutrients logged for an item: those it brings, or the found ones scaled to the portion. */
  function ResolvedNutrients(item: LogFoodInput, userId: Option<string>,
                             custom: (string, string) -> Option<map<string, real>>,
                             foods: seq<FoundationFood>,
                             branded: string -> Option<RawNutriments>): map<string, real>
  {
    match BaseNutrients(item, userId, custom, foods, branded)
    case None => Coalesce(item.nutrients, map[])
    case Some(base) => Scaled(base, CalculateScalingFactor(item.quantity, item.unit))
  }

  /** The row logged for an item. */
  function LogRow(item: LogFoodInput, userId: Option<string>,
                  custom: (string, string) -> Option<map<string, real>>,
                  foods: seq<FoundationFood>,
                  branded: string -> Option<RawNutriments>): (row: DailyLogRow)
    ensures row.userId == Coalesce(userId, "") && row.date == item.date && row.foodName == item.foodName
    ensures row.foodBrand == item.foodBrand && row.quantity == item.quantity && row.unit == item.unit
  {
    DailyLogRow(Coalesce(userId, ""), item.date, item.foodName, item.foodBrand, item.quantity, item.unit,
                ResolvedNutrients(item, userId, custom, foods, branded))
  }

  /** The store lookup of one item, consulting the stores as the procedure does. */
  method FindBaseNutrients(item: LogFoodInput, userId: Option<string>,
                           custom: (string, string) -> Option<map<string, real>>,
                           store: FoundationStore,
                           branded: string -> Option<RawNutriments>) returns (baseNutrients: Option<map<string, real>>)
    requires store.Valid()
    modifies store
    ensures store.Valid()
    ensures baseNutrients == BaseNutrients(item, userId, custom, Valids(store.file), branded)
  {
    baseNutrients := None;
    if |Coalesce(item.nutrients, map[])| != 0 || !Truthy(item.foodCode) {
      return;
    }
    if item.source == Some(User) && Truthy(userId) {
      baseNutrients := custom(item.foodCode.value, userId.value);
    } else if item.source == Some(Foundation) || item.dataSource == Some(FoundationData) {
      assert RouteOf(item, userId) == FoundationList;
      var fdcId := ParseInt(item.foodCode.value);
      if fdcId.Some? {
        baseNutrients := ExtractFoundationNutrients(store, fdcId.value);
      }
    } else {
      assert RouteOf(item, userId) == BrandedStore;
      var row := branded(item.foodCode.value);
      if row.Some? && !row.value.Falsy? {
        var values := ExtractNutrientValues(row.value);
        baseNutrients := Some(values);
      }
    }
  }

  /** One item's nutrients: those it brings, or the found ones scaled to the portion. */
  method ResolveItem(item: LogFoodInput, userId: Option<string>,
                     custom: (string, string) -> Option<map<string, real>>,
                     store: FoundationStore,
                     branded: string -> Option<RawNutriments>) returns (finalNutrients: map<string, real>)
    requires store.Valid()
    modifies store
    ensures store.Valid()
    ensures finalNutrients == ResolvedNutrients(item, userId, custom, Valids(store.file), branded)
  {
    finalNutrients := Coalesce(item.nutrients, map[]);
    var baseNutrients := FindBaseNutrients(item, userId, custom, store, branded);
    if baseNutrients.Some? {
      var factor := CalculateScalingFactor(item.quantity, item.unit);
      finalNutrients := ScaleNutrients(baseNutrients.value, factor);
    }
  }

  /** The row logged for one item. */
  method LogItem(item: LogFoodInput, userId: Option<string>,
                 custom: (string, string) -> Option<map<string, real>>,
                 store: FoundationStore,
                 branded: string -> Option<RawNutriments>) returns (row: DailyLogRow)
    requires store.Valid()
    modifies store
    ensures store.Valid()
    ensures row == LogRow(item, userId, custom, Valids(store.file), branded)
  {
    var nutrients := ResolveItem(item, userId, custom, store, branded);
    row := DailyLogRow(Coalesce(userId, ""), item.date, item.foodName, item.foodBrand,
                       item.quantity, item.unit, nutrients);
  }

  /**
   * `logFoods`: one row per item, in input order; the rows are inserted
   * only for a signed-in user, and returned either way.
   */
  method LogFoodItems(input: seq<LogFoodInput>, userId: Option<string>,
                      custom: (string, string) -> Option<map<string, real>>,
                      store: FoundationStore,
                      branded: string -> Option<RawNutriments>)
    returns (logs: seq<DailyLogRow>, inserted: seq<DailyLogRow>)
    requires store.Valid()
    modifies store
    ensures store.Valid()
    ensures |logs| == |input|
    ensures forall i :: 0 <= i < |input| ==> logs[i] == LogRow(input[i], userId, custom, Valids(store.file), branded)
    ensures inserted == (if Truthy(userId) then logs else [])
  {
    logs := [];
    var i := 0;
    while i < |input|
      invariant 0 <= i <= |input| && store.Valid() && |logs| == i
      invariant forall j :: 0 <= j < i ==> logs[j] == LogRow(input[j], userId, custom, Valids(store.file), branded)
    {
      var row := LogItem(input[i], userId, custom, store, branded);
      logs := logs + [row];
      i := i + 1;
    }
    inserted := if Truthy(userId) then logs else [];
  }

  // ---------------------------------------------------------------------------
  // Properties
  // ---------------------------------------------------------------------------

  /** Nutrients an item brings are logged exactly as given, and no store is consulted. */
  lemma SuppliedNutrientsKept(item: LogFoodInput, userId: Option<string>,
                              custom: (string, string) -> Option<map<string, real>>,
                              foods: seq<FoundationFood>,
                              branded: string -> Option<RawNutriments>)
    requires item.nutrients.Some? && |item.nutrients.value| > 0
    ensures RouteOf(item, userId) == Supplied
    ensures ResolvedNutrients(item, userId, custom, foods, branded) == item.nutrients.value
  {
  }

  /** An item without a food code is logged with what it brings, or with nothing. */
  lemma NoCodeNoLookup(item: LogFoodInput, userId: Option<string>,
                       custom: (string, string) -> Option<map<string, real>>,
                       foods: seq<FoundationFood>,
                       branded: string -> Option<RawNutriments>)
    requires !Truthy(item.foodCode)
    ensures ResolvedNutrients(item, userId, custom, foods, branded) == Coalesce(item.nutrients, map[])
  {
  }

  /**
   * The custom store is asked only for a "User" item of a signed-in user;
   * without a session such an item falls through to the Foundation list or
   * the branded store, as its data source says.
   */
  lemma CustomStoreNeedsSession(item: LogFoodInput, userId: Option<string>)
    ensures RouteOf(item, userId) == CustomStore <==>
      RouteOf(item, userId) != Supplied && item.source == Some(User) && Truthy(userId)
    ensures RouteOf(item, userId) != Supplied && item.source == Some(User) && !Truthy(userId) ==>
      (RouteOf(item, userId) == FoundationList <==> item.dataSource == Some(FoundationData))
  {
  }

  /** A Foundation item whose code is not a number is logged with no nutrients. */
  lemma NonNumericCodeLogsNothing(item: LogFoodInput, userId: Option<string>,
                                  custom: (string, string) -> Option<map<string, real>>,
                                  foods: seq<FoundationFood>,
                                  branded: string -> Option<RawNutriments>)
    requires RouteOf(item, userId) == FoundationList && ParseInt(item.foodCode.value).None?
    ensures ResolvedNutrients(item, userId, custom, foods, branded) == map[]
  {
  }

  /** A branded row whose nutriments column is empty leaves the item with no nutrients. */
  lemma FalsyBrandedColumnLogsNothing(item: LogFoodInput, userId: Option<string>,
                                      custom: (string, string) -> Option<map<string, real>>,
                                      foods: seq<FoundationFood>,
                                      branded: string -> Option<RawNutriments>)
    requires RouteOf(item, userId) == BrandedStore
    requires branded(item.foodCode.value).None? || branded(item.foodCode.value) == Some(Falsy)
    ensures ResolvedNutrients(item, userId, custom, foods, branded) == map[]
  {
  }

  /** A Foundation item that brings no nutrients and carries a code goes to the Foundation list. */
  lemma FoundationItemRoute(item: LogFoodInput, userId: Option<string>)
    requires item.nutrients.None? && Truthy(item.foodCode) && item.source == Some(Foundation)
    ensures RouteOf(item, userId) == FoundationList
  {
  }

  /** A Foundation item whose code parses to a known id gets that food's nutrients. */
  lemma FoundationItemBase(food: FoundationFood, item: LogFoodInput, userId: Option<string>,
                           custom: (string, string) -> Option<map<string, real>>,
                           foods: seq<FoundationFood>,
                           branded: string -> Option<RawNutriments>)
    requires RouteOf(item, userId) == FoundationList
    requires ParseInt(item.foodCode.value) == Some(food.fdcId) && FoodById(foods, food.fdcId) == Some(food)
    ensures BaseNutrients(item, userId, custom, foods, branded)
         == Some(FoundationNutrientsIn(NutrientRegistry, food.foodNutrients))
  {
  }

  /** Whatever store answers, the item is logged with that answer scaled to the portion. */
  lemma FoundResolvesScaled(item: LogFoodInput, userId: Option<string>,
                            custom: (string, string) -> Option<map<string, real>>,
                            foods: seq<FoundationFood>,
                            branded: string -> Option<RawNutriments>)
    requires BaseNutrients(item, userId, custom, foods, branded).Some?
    ensures ResolvedNutrients(item, userId, custom, foods, branded)
         == Scaled(BaseNutrients(item, userId, custom, foods, branded).value,
                   CalculateScalingFactor(item.quantity, item.unit))
  {
  }

  /**
   * Logging a Foundation search hit by its code finds the food again: the
   * item gets that food's nutrients, scaled to the portion.
   */
  lemma FoundationHitResolves(food: FoundationFood, item: LogFoodInput, userId: Option<string>,
                              custom: (string, string) -> Option<map<string, real>>,
                              foods: seq<FoundationFood>,
                              branded: string -> Option<RawNutriments>)
    requires FoodById(foods, food.fdcId) == Some(food)
    requires item.foodCode == MapFoundationToSearchResult(food).code
    requires item.nutrients.None? && item.source == Some(Foundation)
    ensures ResolvedNutrients(item, userId, custom, foods, branded)
         == Scaled(FoundationNutrientsIn(NutrientRegistry, food.foodNutrients),
                   CalculateScalingFactor(item.quantity, item.unit))
  {
    FoundationCodeRoundTrip(food);
    FoundationItemRoute(item, userId);
    FoundationItemBase(food, item, userId, custom, foods, branded);
    FoundResolvesScaled(item, userId, custom, foods, branded);
  }
}
