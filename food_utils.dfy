/**
 * The food router's shared helpers: portion scaling, the reshaping of DuckDB's
 * nutriment structs, the flat per-100 g nutrient map extracted from them, the
 * big-integer scrubber applied to query rows, and the mapping of a user's
 * custom food onto the product and search-result shapes.
 */
module FoodUtils {
  import opened Wrappers
  import opened Text
  import opened Numeric
  import opened Registry
  import opened FoodSchema

  // ---------------------------------------------------------------------------
  // Portion scaling
  // ---------------------------------------------------------------------------

  /** `UNIT_TO_GRAMS`: grams per unit of a logged portion. */
  const UnitToGrams: map<string, real> := map[
    "g" := 1.0, "gram" := 1.0, "grams" := 1.0,
    "oz" := 28.35, "ounce" := 28.35, "ounces" := 28.35,
    "lb" := 453.592, "pound" := 453.592, "pounds" := 453.592,
    "kg" := 1000.0, "kilogram" := 1000.0,
    "ml" := 1.0,
    "cup" := 236.588, "tbsp" := 14.787, "tsp" := 4.929
  ]

  lemma UnitToGramsPositive()
    ensures PositiveFactors(UnitToGrams)
  {
  }

  /** Grams per unit of a normalised unit name; a unit the table lacks counts as one gram. */
  function GramsPerUnitIn(table: map<string, real>, u: string): (r: real)
    requires PositiveFactors(table)
    ensures r > 0.0
  {
    if u in table then table[u] else 1.0
  }

  /** The scaling factor against a grams-per-unit table, the unit lower-cased and trimmed first. */
  function ScalingFactorIn(table: map<string, real>, quantity: real, unit: string): (r: real)
    requires PositiveFactors(table)
    ensures 0.0 <= quantity <==> 0.0 <= r
    ensures r == 0.0 <==> quantity == 0.0
  {
    var grams := quantity * GramsPerUnitIn(table, Trim(Lower(unit)));
    assert 0.0 < quantity ==> 0.0 < grams;
    assert quantity < 0.0 ==> grams < 0.0;
    grams / 100.0
  }

  /**
   * `calculateScalingFactor`: how many multiples of 100 g the portion weighs,
   * since stored nutrients are per 100 g. Its sign is the quantity's.
   */
  function CalculateScalingFactor(quantity: real, unit: string): (r: real)
    ensures 0.0 <= quantity <==> 0.0 <= r
    ensures r == 0.0 <==> quantity == 0.0
  {
    UnitToGramsPositive();
    ScalingFactorIn(UnitToGrams, quantity, unit)
  }

  /** A unit the table does not know weighs one gram, so the factor is `quantity / 100`. */
  lemma ScalingFactorUnknownUnit(table: map<string, real>, quantity: real, unit: string)
    requires PositiveFactors(table) && Trim(Lower(unit)) !in table
    ensures ScalingFactorIn(table, quantity, unit) == quantity / 100.0
  {
    var g := GramsPerUnitIn(table, Trim(Lower(unit)));
    assert g == 1.0;
    assert quantity * g == quantity;
  }

  /** The factor is linear in the quantity. */
  lemma ScalingFactorLinear(table: map<string, real>, q1: real, q2: real, unit: string)
    requires PositiveFactors(table)
    ensures ScalingFactorIn(table, q1 + q2, unit)
         == ScalingFactorIn(table, q1, unit) + ScalingFactorIn(table, q2, unit)
  {
    var g := GramsPerUnitIn(table, Trim(Lower(unit)));
    assert (q1 + q2) * g == q1 * g + q2 * g;
  }

  /** The unit is compared lower-cased and trimmed, so cleaning it beforehand changes nothing. */
  lemma {:induction false} ScalingFactorIgnoresCaseAndPadding(table: map<string, real>, quantity: real, unit: string)
    requires PositiveFactors(table)
    ensures ScalingFactorIn(table, quantity, Lower(Trim(unit))) == ScalingFactorIn(table, quantity, unit)
  {
    CleanUnitNormalizes(unit);
  }

  lemma CleanUnitNormalizes(unit: string)
    ensures Trim(Lower(Lower(Trim(unit)))) == Trim(Lower(unit))
  {
    var clean := Lower(Trim(unit));
    calc {
      Trim(Lower(clean));
      { LowerTrimCommute(clean); }
      Lower(Trim(clean));
      { CleanIdempotent(unit); }
      clean;
      { LowerTrimCommute(unit); }
      Trim(Lower(unit));
    }
  }

  /** 100 g of a food is exactly one stored portion. */
  lemma ScalingFactorOfHundredGrams()
    ensures CalculateScalingFactor(100.0, "g") == 1.0
  {
    UnitToGramsPositive();
    GramIsClean();
    assert GramsPerUnitIn(UnitToGrams, Trim(Lower("g"))) == 1.0;
  }

  lemma GramIsClean()
    ensures Trim(Lower("g")) == "g" && "g" in UnitToGrams && UnitToGrams["g"] == 1.0
  {
    CleanWord("g");
    GramEntry();
  }

  lemma GramEntry()
    ensures "g" in UnitToGrams && UnitToGrams["g"] == 1.0
  {
  }

  /** One scaled amount: `Number((value * factor).toFixed(2))`. */
  function ScaledAmount(value: real, factor: real): real
  {
    ToFixed2(value * factor)
  }

  /** The `scaleNutrients` result: every value multiplied and rounded to hundredths. */
  function Scaled(nutrients: map<string, real>, factor: real): map<string, real>
  {
    map k | k in nutrients :: ScaledAmount(nutrients[k], factor)
  }

  /** `scaleNutrients`: one pass over the entries of the map. */
  method ScaleNutrients(nutrients: map<string, real>, factor: real) returns (scaled: map<string, real>)
    ensures scaled == Scaled(nutrients, factor)
  {
    scaled := map[];
    var todo := nutrients.Keys;
    while todo != {}
      invariant todo <= nutrients.Keys
      invariant scaled.Keys == nutrients.Keys - todo
      invariant forall k :: k in scaled ==> scaled[k] == ScaledAmount(nutrients[k], factor)
      decreases todo
    {
      var k :| k in todo;
      scaled := scaled[k := ScaledAmount(nutrients[k], factor)];
      todo := todo - {k};
    }
    assert scaled.Keys == Scaled(nutrients, factor).Keys;
    assert forall k :: k in scaled ==> scaled[k] == Scaled(nutrients, factor)[k];
  }

  /**
   * Scaling keeps the nutrients, rounds each product to hundredths within half
   * a hundredth, and never flips a sign.
   */
  lemma ScaledKeepsNutrients(nutrients: map<string, real>, factor: real, k: string)
    requires k in nutrients
    ensures Scaled(nutrients, factor).Keys == nutrients.Keys
    ensures -FixedLimit < nutrients[k] * factor < FixedLimit ==>
      IsCents(Scaled(nutrients, factor)[k])
      && -0.005 <= Scaled(nutrients, factor)[k] - nutrients[k] * factor <= 0.005
    ensures 0.0 <= nutrients[k] * factor ==> 0.0 <= Scaled(nutrients, factor)[k]
  {
  }

  /** Scaling an already scaled map by 1 gives it back. */
  lemma ScaleByOneIdempotent(nutrients: map<string, real>, factor: real)
    ensures Scaled(Scaled(nutrients, factor), 1.0) == Scaled(nutrients, factor)
  {
    var s := Scaled(nutrients, factor);
    forall k | k in s
      ensures ToFixed2(s[k] * 1.0) == s[k]
    {
      ToFixed2Idempotent(nutrients[k] * factor);
    }
  }

  // ---------------------------------------------------------------------------
  // DuckDB nutriment structs
  // ---------------------------------------------------------------------------

  /** The fields a DuckDB nutriment struct may carry; absent and `null` are both `None`. */
  datatype RawFields = RawFields(
    name: Option<string>,
    value: Option<real>,
    per100g: Option<real>,
    serving: Option<real>,
    unit: Option<string>,
    preparedValue: Option<real>,
    prepared100g: Option<real>,
    preparedServing: Option<real>,
    preparedUnit: Option<string>)

  /** An item is the struct itself or a struct wrapped as `{ entries: {...} }`. */
  datatype RawItem = Bare(fields: RawFields) | Wrapped(entries: RawFields)

  /** The shapes the nutriments column arrives in. */
  datatype RawNutriments =
    | Falsy                              // null, undefined, 0, "" ...
    | ItemList(items: seq<RawItem>)      // an array of items
    | ItemsWrapper(wrapped: seq<RawItem>) // `{ items: [...] }`
    | OtherValue                         // any other truthy value

  function FieldsOf(item: RawItem): RawFields
  {
    match item
    case Bare(f) => f
    case Wrapped(f) => f
  }

  /** `n` carries the numbers and units of `d` unchanged. */
  predicate CopiesFields(n: Nutriment, d: RawFields)
  {
    && n.value == d.value && n.per100g == d.per100g && n.serving == d.serving && n.unit == d.unit
    && n.preparedValue == d.preparedValue && n.prepared100g == d.prepared100g
    && n.preparedServing == d.preparedServing && n.preparedUnit == d.preparedUnit
  }

  /** The nutriment named `name` with the numbers and units of `d`. */
  function WithFields(name: Option<string>, d: RawFields): (n: Nutriment)
    ensures n.name == name && CopiesFields(n, d)
  {
    Nutriment(name, d.value, d.per100g, d.serving, d.unit,
              d.preparedValue, d.prepared100g, d.preparedServing, d.preparedUnit)
  }

  /** One item mapped to a `Nutriment`: the name normalised, the numbers and units copied. */
  function ParseItem(item: RawItem): (n: Nutriment)
    ensures n.name == Normalize(Coalesce(FieldsOf(item).name, ""))
    ensures n.name.Some? ==> IsKey(n.name.value)
    ensures CopiesFields(n, FieldsOf(item))
  {
    NormalizeYieldsKey(Coalesce(FieldsOf(item).name, ""));
    WithFields(Normalize(Coalesce(FieldsOf(item).name, "")), FieldsOf(item))
  }

  /** `parseNutrimentsFromDuckDB`: the item array, in order, or `None` for any other shape. */
  function ParseNutrimentsFromDuckDB(raw: RawNutriments): (r: Option<seq<Nutriment>>)
    ensures r.None? <==> raw.Falsy? || raw.OtherValue?
  {
    match raw
    case Falsy => None
    case OtherValue => None
    case ItemList(items) => Some(seq(|items|, i requires 0 <= i < |items| => ParseItem(items[i])))
    case ItemsWrapper(items) => Some(seq(|items|, i requires 0 <= i < |items| => ParseItem(items[i])))
  }

  /** The items of an array-shaped column, wrapped or not. */
  function RawItems(raw: RawNutriments): seq<RawItem>
  {
    match raw
    case ItemList(items) => items
    case ItemsWrapper(items) => items
    case _ => []
  }

  /**
   * Parsing keeps the items one for one and in order; the `{ items }` wrapper
   * parses like the bare array.
   */
  lemma ParsedItemsInOrder(raw: RawNutriments)
    requires ParseNutrimentsFromDuckDB(raw).Some?
    ensures |ParseNutrimentsFromDuckDB(raw).value| == |RawItems(raw)|
    ensures forall i :: 0 <= i < |RawItems(raw)| ==>
      ParseNutrimentsFromDuckDB(raw).value[i] == ParseItem(RawItems(raw)[i])
    ensures ParseNutrimentsFromDuckDB(ItemList(RawItems(raw))) == ParseNutrimentsFromDuckDB(raw)
  {
  }

  /** Every name parsing gives is a canonical key. */
  lemma ParsedNamesAreKeys(raw: RawNutriments)
    requires ParseNutrimentsFromDuckDB(raw).Some?
    ensures forall n :: n in ParseNutrimentsFromDuckDB(raw).value && n.name.Some? ==> IsKey(n.name.value)
  {
    var r := ParseNutrimentsFromDuckDB(raw).value;
    ParsedItemsInOrder(raw);
    forall n | n in r && n.name.Some?
      ensures IsKey(n.name.value)
    {
      var i :| 0 <= i < |r| && r[i] == n;
      assert n == ParseItem(RawItems(raw)[i]);
    }
  }

  // ---------------------------------------------------------------------------
  // Flat nutrient values
  // ---------------------------------------------------------------------------

  /**
   * What one parsed nutriment contributes to the flat map built against
   * `table`: its canonical key and its per-100 g amount (falling back to
   * `value`, then 0) converted to the table's unit for that key.
   */
  function ExtractEntryIn(table: seq<Entry>, n: Nutriment): (r: Option<(string, real)>)
    ensures r.Some? ==> IsKeyIn(table, r.value.0) && n.name.Some?
  {
    if n.name.None? || n.name.value == "" then None
    else
      match NormalizeIn(table, n.name.value)
      case None => None
      case Some(key) =>
        match LookupIn(table, key)
        case None => None
        case Some(meta) =>
          var raw := Coalesce(OrElse(n.per100g, n.value), 0.0);
          var converted := ConvertNutrientValue(Some(raw), n.unit, Some(meta.unit));
          Some((key, converted.value))
  }

  /** The flat map built from the nutriments in order, a later one overwriting an earlier one. */
  function ExtractAllIn(table: seq<Entry>, ps: seq<Nutriment>): map<string, real>
  {
    if ps == [] then map[]
    else
      var m := ExtractAllIn(table, ps[..|ps| - 1]);
      match ExtractEntryIn(table, ps[|ps| - 1])
      case None => m
      case Some(e) => m[e.0 := e.1]
  }

  /** `extractNutrientValues(nutriments)` as a value: `{}` when the column does not parse. */
  function ExtractedValues(raw: RawNutriments): map<string, real>
  {
    match ParseNutrimentsFromDuckDB(raw)
    case None => map[]
    case Some(ps) => ExtractAllIn(NutrientRegistry, ps)
  }

  /** `extractNutrientValues`: parse the column, then one pass over the parsed nutriments. */
  method ExtractNutrientValues(raw: RawNutriments) returns (result: map<string, real>)
    ensures result == ExtractedValues(raw)
  {
    var parsed := ParseNutrimentsFromDuckDB(raw);
    if parsed.None? {
      return map[];
    }
    result := ExtractOver(NutrientRegistry, parsed.value);
  }

  /** The loop of `extractNutrientValues`, against the entries of `table`. */
  method ExtractOver(table: seq<Entry>, ps: seq<Nutriment>) returns (result: map<string, real>)
    ensures result == ExtractAllIn(table, ps)
  {
    result := map[];
    var i := 0;
    while i < |ps|
      invariant 0 <= i <= |ps|
      invariant result == ExtractAllIn(table, ps[..i])
    {
      assert ps[..i + 1][..i] == ps[..i];
      var entry := ExtractOne(table, ps[i]);
      if entry.Some? {
        result := result[entry.value.0 := entry.value.1];
      }
      i := i + 1;
    }
    assert ps[..|ps|] == ps;
  }

  /** The body of that loop for one nutriment: the key it writes and the converted amount. */
  method ExtractOne(table: seq<Entry>, n: Nutriment) returns (entry: Option<(string, real)>)
    ensures entry == ExtractEntryIn(table, n)
  {
    entry := None;
    if n.name.Some? && n.name.value != "" {
      var key := NormalizeIn(table, n.name.value);
      if key.Some? {
        var metadata := LookupIn(table, key.value);
        if metadata.Some? {
          var rawValue := Coalesce(OrElse(n.per100g, n.value), 0.0);
          var converted := ConvertNutrientValue(Some(rawValue), n.unit, Some(metadata.value.unit));
          if converted.Some? {
            entry := Some((key.value, converted.value));
          }
        }
      }
    }
  }

  /** Every key of the flat map is a canonical key of the table. */
  lemma {:induction false} ExtractedKeysAreKeys(table: seq<Entry>, ps: seq<Nutriment>)
    ensures forall k :: k in ExtractAllIn(table, ps) ==> IsKeyIn(table, k)
  {
    if ps != [] {
      ExtractedKeysAreKeys(table, ps[..|ps| - 1]);
    }
  }

  /** Which key one nutriment writes, if any. */
  function EntryKey(table: seq<Entry>, n: Nutriment): Option<string>
  {
    match ExtractEntryIn(table, n)
    case None => None
    case Some(e) => Some(e.0)
  }

  /**
   * Last one wins: the value under a key is the one from the last nutriment
   * that writes that key.
   */
  lemma {:induction false} ExtractLastWins(table: seq<Entry>, ps: seq<Nutriment>, i: nat)
    requires i < |ps| && ExtractEntryIn(table, ps[i]).Some?
    requires forall j :: i < j < |ps| ==> EntryKey(table, ps[j]) != EntryKey(table, ps[i])
    ensures ExtractEntryIn(table, ps[i]).value.0 in ExtractAllIn(table, ps)
    ensures ExtractAllIn(table, ps)[ExtractEntryIn(table, ps[i]).value.0] == ExtractEntryIn(table, ps[i]).value.1
  {
    var front := ps[..|ps| - 1];
    if i < |ps| - 1 {
      assert front[i] == ps[i];
      ExtractLastWins(table, front, i);
      assert EntryKey(table, ps[|ps| - 1]) != EntryKey(table, ps[i]);
    }
  }

  /** A key is in the flat map only if some nutriment writes it. */
  lemma {:induction false} ExtractedKeysHaveWriters(table: seq<Entry>, ps: seq<Nutriment>, k: string)
    requires k in ExtractAllIn(table, ps)
    ensures exists i :: 0 <= i < |ps| && EntryKey(table, ps[i]) == Some(k)
  {
    var front := ps[..|ps| - 1];
    if EntryKey(table, ps[|ps| - 1]) != Some(k) {
      ExtractedKeysHaveWriters(table, front, k);
      var i :| 0 <= i < |front| && EntryKey(table, front[i]) == Some(k);
      assert ps[i] == front[i];
    }
  }

  /**
   * A nutriment already in the table's unit for its key (or with no unit)
   * keeps its amount, the per-100 g figure taking precedence over the plain value.
   */
  lemma ExtractPrefersPer100g(table: seq<Entry>, n: Nutriment, key: string, meta: NutrientMeta)
    requires n.name.Some? && n.name.value != ""
    requires NormalizeIn(table, n.name.value) == Some(key) && LookupIn(table, key) == Some(meta)
    requires n.unit.None? || n.unit == Some(meta.unit)
    ensures n.per100g.Some? ==> ExtractEntryIn(table, n) == Some((key, n.per100g.value))
    ensures n.per100g.None? && n.value.Some? ==> ExtractEntryIn(table, n) == Some((key, n.value.value))
    ensures n.per100g.None? && n.value.None? ==> ExtractEntryIn(table, n) == Some((key, 0.0))
  {
  }

  // ---------------------------------------------------------------------------
  // Big integers
  // ---------------------------------------------------------------------------

  /** A JavaScript value as the DuckDB client returns it. */
  datatype JsValue =
    | JsNull
    | JsUndefined
    | JsBool(b: bool)
    | JsNumber(n: real)
    | JsBigInt(i: int)
    | JsString(s: string)
    | JsArray(elems: seq<JsValue>)
    | JsObject(props: seq<(string, JsValue)>)

  /** Some `bigint` occurs anywhere inside the value. */
  predicate HasBigInt(v: JsValue)
  {
    match v
    case JsBigInt(_) => true
    case JsArray(elems) => exists i :: 0 <= i < |elems| && HasBigInt(elems[i])
    case JsObject(props) => exists i :: 0 <= i < |props| && HasBigInt(props[i].1)
    case _ => false
  }

  /** `convertBigIntsToNumbers` as a value: every `bigint` replaced by the number it denotes. */
  function BigIntsConverted(v: JsValue): (r: JsValue)
    ensures r.JsArray? <==> v.JsArray?
    ensures r.JsObject? <==> v.JsObject?
    ensures v.JsArray? ==> |r.elems| == |v.elems|
    ensures v.JsObject? ==>
      && |r.props| == |v.props|
      && forall i :: 0 <= i < |v.props| ==> r.props[i].0 == v.props[i].0
  {
    match v
    case JsBigInt(i) => JsNumber(i as real)
    case JsArray(elems) => JsArray(seq(|elems|, i requires 0 <= i < |elems| => BigIntsConverted(elems[i])))
    case JsObject(props) =>
      JsObject(seq(|props|, i requires 0 <= i < |props| => (props[i].0, BigIntsConverted(props[i].1))))
    case _ => v
  }

  /** `convertBigIntsToNumbers`: a recursive walk over arrays and plain objects. */
  method ConvertBigIntsToNumbers(v: JsValue) returns (r: JsValue)
    ensures r == BigIntsConverted(v)
    decreases v
  {
    match v {
      case JsBigInt(i) =>
        return JsNumber(i as real);
      case JsArray(elems) =>
        var out: seq<JsValue> := [];
        var i := 0;
        while i < |elems|
          invariant 0 <= i <= |elems|
          invariant |out| == i
          invariant forall j :: 0 <= j < i ==> out[j] == BigIntsConverted(elems[j])
        {
          var e := ConvertBigIntsToNumbers(elems[i]);
          out := out + [e];
          i := i + 1;
        }
        return JsArray(out);
      case JsObject(props) =>
        var out: seq<(string, JsValue)> := [];
        var i := 0;
        while i < |props|
          invariant 0 <= i <= |props|
          invariant |out| == i
          invariant forall j :: 0 <= j < i ==> out[j] == (props[j].0, BigIntsConverted(props[j].1))
        {
          var e := ConvertBigIntsToNumbers(props[i].1);
          out := out + [(props[i].0, e)];
          i := i + 1;
        }
        return JsObject(out);
      case _ =>
        return v;
    }
  }

  /** After conversion no `bigint` is left anywhere. */
  lemma {:induction false} ConvertedHasNoBigInt(v: JsValue)
    ensures !HasBigInt(BigIntsConverted(v))
    decreases v
  {
    match v
    case JsArray(elems) =>
      var r := BigIntsConverted(v);
      forall i | 0 <= i < |elems|
        ensures !HasBigInt(r.elems[i])
      {
        ConvertedHasNoBigInt(elems[i]);
      }
    case JsObject(props) =>
      var r := BigIntsConverted(v);
      forall i | 0 <= i < |props|
        ensures !HasBigInt(r.props[i].1)
      {
        ConvertedHasNoBigInt(props[i].1);
      }
    case _ =>
  }

  /** A value with no `bigint` inside is returned as it is; so conversion is idempotent. */
  lemma {:induction false} ConvertWithoutBigIntIsIdentity(v: JsValue)
    requires !HasBigInt(v)
    ensures BigIntsConverted(v) == v
    decreases v
  {
    match v
    case JsArray(elems) =>
      var r := BigIntsConverted(v);
      forall i | 0 <= i < |elems|
        ensures r.elems[i] == elems[i]
      {
        ConvertWithoutBigIntIsIdentity(elems[i]);
      }
      assert r.elems == elems;
    case JsObject(props) =>
      var r := BigIntsConverted(v);
      forall i | 0 <= i < |props|
        ensures r.props[i] == props[i]
      {
        assert !HasBigInt(props[i].1);
        ConvertWithoutBigIntIsIdentity(props[i].1);
      }
      assert r.props == props;
    case _ =>
  }

  lemma ConvertIdempotent(v: JsValue)
    ensures BigIntsConverted(BigIntsConverted(v)) == BigIntsConverted(v)
  {
    ConvertedHasNoBigInt(v);
    ConvertWithoutBigIntIsIdentity(BigIntsConverted(v));
  }

  // ---------------------------------------------------------------------------
  // Custom foods
  // ---------------------------------------------------------------------------

  /**
   * A custom food with its nutrient map (entries in insertion order) and its
   * timestamps in milliseconds since the epoch.
   */
  datatype CustomFoodFullRecord = CustomFoodFullRecord(
    id: string,
    name: string,
    brand: Option<string>,
    nutriments: Option<seq<(string, real)>>,
    createdAtMs: real,
    updatedAtMs: Option<real>)

  function CustomNutriment(entry: (string, real)): (n: Nutriment)
    ensures n.name == Normalize(entry.0) && (n.name.Some? ==> IsKey(n.name.value))
    ensures n.value == n.per100g == Some(entry.1)
    ensures n.serving.None? && n.unit.None?
    ensures n.preparedValue.None? && n.prepared100g.None? && n.preparedServing.None? && n.preparedUnit.None?
  {
    NormalizeYieldsKey(entry.0);
    Nutriment(Normalize(entry.0), Some(entry.1), Some(entry.1), None, None, None, None, None, None)
  }

  /** `mapCustomFoodToProduct`: a user-sourced product with the food's nutrients per 100 g. */
  function MapCustomFoodToProduct(food: CustomFoodFullRecord): (p: FoodProduct)
    ensures p.code == Some(food.id) && p.source == User
    ensures p.productName == [LocalizedText("en", food.name)]
    ensures food.nutriments.None? ==> p.nutriments == []
    ensures food.nutriments.Some? ==> |p.nutriments| == |food.nutriments.value|
    ensures forall i :: 0 <= i < |p.nutriments| ==>
      && p.nutriments[i].per100g == p.nutriments[i].value == Some(food.nutriments.value[i].1)
      && p.nutriments[i].name == Normalize(food.nutriments.value[i].0)
      && (p.nutriments[i].name.Some? ==> IsKey(p.nutriments[i].name.value))
      && p.nutriments[i].unit.None? && p.nutriments[i].serving.None?
    ensures p.brands == food.brand && p.categories == Some("Custom") && p.creator == "User"
    ensures p.ecoscoreGrade == Some("unknown") && p.nutriscoreGrade == Some("unknown")
    ensures p.completeness == 1.0 && p.scansN == 0.0 && p.uniqueScansN == 0.0
    ensures p.createdT == Some(food.createdAtMs / 1000.0)
    ensures p.lastModifiedT.Some? <==> food.updatedAtMs.Some?
    ensures food.updatedAtMs.Some? ==> p.lastModifiedT == Some(food.updatedAtMs.value / 1000.0)
    ensures p.brandsTags == [] && p.categoriesTags == [] && p.countriesTags == [] && p.mainCountriesTags == []
    ensures p.genericName.None? && p.quantity.None? && p.servingQuantity.None? && p.servingSize.None?
    ensures p.additivesN.None?
  {
    var ns := match food.nutriments
      case None => []
      case Some(es) => seq(|es|, i requires 0 <= i < |es| => CustomNutriment(es[i]));
    FoodProduct(
      code := Some(food.id),
      productName := [LocalizedText("en", food.name)],
      brands := food.brand,
      brandsTags := [],
      categories := Some("Custom"),
      categoriesTags := [],
      nutriments := ns,
      source := User,
      completeness := 1.0,
      createdT := Some(food.createdAtMs / 1000.0),
      lastModifiedT := match food.updatedAtMs case None => None case Some(t) => Some(t / 1000.0),
      creator := "User",
      ecoscoreGrade := Some("unknown"),
      nutriscoreGrade := Some("unknown"),
      genericName := None,
      quantity := None,
      servingQuantity := None,
      servingSize := None,
      additivesN := None,
      countriesTags := [],
      mainCountriesTags := [],
      scansN := 0.0,
      uniqueScansN := 0.0)
  }

  /** `mapCustomFoodToSearchResult`: a user-sourced hit in the "Custom" category. */
  function MapCustomFoodToSearchResult(food: CustomFoodRecord): (r: FoodSearchResult)
    ensures r.code == Some(food.id) && r.productName == Some(food.name) && r.brands == food.brand
    ensures r.source == User && r.scansN == Some(0.0)
    ensures r.categories == Some("Custom") && r.nutriscoreGrade == Some("unknown")
  {
    FoodSearchResult(Some(food.id), Some(food.name), food.brand, Some("Custom"), Some("unknown"), Some(0.0), User)
  }

  /** The search hit and the product of the same custom food agree on what both show. */
  lemma CustomFoodViewsAgree(food: CustomFoodFullRecord)
    ensures var hit := MapCustomFoodToSearchResult(CustomFoodRecord(food.id, food.name, food.brand));
      var p := MapCustomFoodToProduct(food);
      && hit.code == p.code && hit.brands == p.brands && hit.categories == p.categories
      && hit.source == p.source && hit.nutriscoreGrade == p.nutriscoreGrade
      && hit.productName == Some(p.productName[0].text)
  {
  }
}
