/**
 * The food-details view's nutrient list: each nutriment scaled to the chosen
 * serving, labelled and converted to its registry unit; the macro split and
 * the calorie figure read off that list.
 */
module FoodNutrients {
  import opened Wrappers
  import opened Registry
  import opened FoodSchema
  import opened RegistryFacts

  /** One row of the list. */
  datatype DisplayNutrient = DisplayNutrient(
    key: Option<string>,
    name: string,
    value: real,
    unit: string,
    baseValue: real)

  /** `a || d` on an optional string: the string when present and not empty, else `d`. */
  function OrText(a: Option<string>, d: string): (r: string)
    ensures a.Some? && a.value != "" ==> r == a.value
    ensures a.None? || a.value == "" ==> r == d
  {
    if a.Some? && a.value != "" then a.value else d
  }

  /** `servingSize / 100`. */
  function ServingFactor(servingSize: real): (r: real)
    ensures r * 100.0 == servingSize
  {
    servingSize / 100.0
  }

  /**
   * One nutriment as a row, against the entries of `table` and the unit
   * factors `conversions`: its name is a key only when it literally is a key
   * of the table; the unit is the registry unit, else its own, else "g"; the
   * value is the per-100 g amount scaled and converted to that unit.
   */
  function DisplayOfIn(table: seq<Entry>, conversions: map<string, real>, n: Nutriment, factor: real): (d: DisplayNutrient)
    requires PositiveFactors(conversions)
    ensures d.baseValue == Coalesce(OrElse(n.per100g, n.value), 0.0)
    ensures d.key.Some? <==> n.name.Some? && IsKeyIn(table, n.name.value)
    ensures d.key.Some? ==> d.key == n.name
    ensures d.unit != ""
    ensures d.value == ShownValue(conversions, d.baseValue, factor, OrText(n.unit, "g"), d.unit)
    ensures d.key.None? ==> d.unit == OrText(n.unit, "g") && d.name == OrText(n.name, "Unknown")
    ensures d.key.Some? && LookupIn(table, d.key.value).value.unit != "" ==> d.unit == LookupIn(table, d.key.value).value.unit
  {
    var rawValue := Coalesce(OrElse(n.per100g, n.value), 0.0);
    var key := if n.name.Some? && IsKeyIn(table, n.name.value) then n.name else None;
    var metadata := if key.Some? then LookupIn(table, key.value) else None;
    var targetUnit := if metadata.Some? && metadata.value.unit != "" then metadata.value.unit else OrText(n.unit, "g");
    var name := if metadata.Some? && metadata.value.displayLabel != "" then metadata.value.displayLabel else OrText(n.name, "Unknown");
    DisplayNutrient(key, name, ShownValue(conversions, rawValue, factor, OrText(n.unit, "g"), targetUnit), targetUnit, rawValue)
  }

  /** `nutriments.map(...)`: one row per nutriment, in order. */
  function Rows(table: seq<Entry>, conversions: map<string, real>, ns: seq<Nutriment>, factor: real): (r: seq<DisplayNutrient>)
    requires PositiveFactors(conversions)
    ensures |r| == |ns|
    ensures forall i :: 0 <= i < |ns| ==> r[i] == DisplayOfIn(table, conversions, ns[i], factor)
  {
    seq(|ns|, i requires 0 <= i < |ns| => DisplayOfIn(table, conversions, ns[i], factor))
  }

  /**
   * The shown value of a per-100 g amount scaled by `factor`: rescaled by the ratio of the unit
   * factors when the nutriment's unit and the shown unit differ and both are
   * known, the scaled amount itself otherwise.
   */
  function ShownValue(conversions: map<string, real>, base: real, factor: real, fromUnit: string, toUnit: string): (r: real)
    requires PositiveFactors(conversions)
    requires fromUnit != "" && toUnit != ""
    ensures fromUnit != toUnit && FactorIn(conversions, fromUnit).Some? && FactorIn(conversions, toUnit).Some? ==>
      r == Rescale(base * factor, FactorIn(conversions, fromUnit).value, FactorIn(conversions, toUnit).value)
    ensures fromUnit == toUnit || FactorIn(conversions, fromUnit).None? || FactorIn(conversions, toUnit).None? ==>
      r == base * factor
  {
    var scaled := base * factor;
    if fromUnit != toUnit && FactorIn(conversions, fromUnit).Some? && FactorIn(conversions, toUnit).Some? then
      ConvertScalesIn(conversions, scaled, fromUnit, toUnit);
      Coalesce(ConvertIn(conversions, Some(scaled), Some(fromUnit), Some(toUnit)), scaled)
    else
      Coalesce(ConvertIn(conversions, Some(scaled), Some(fromUnit), Some(toUnit)), scaled)
  }

  /** `.filter(n => n.baseValue !== 0)`: the rows whose base value is not zero, in order. */
  function NonZero(ds: seq<DisplayNutrient>): (r: seq<DisplayNutrient>)
    ensures |r| <= |ds|
  {
    if ds == [] then []
    else (if ds[0].baseValue != 0.0 then [ds[0]] else []) + NonZero(ds[1..])
  }

  /** The filter keeps a row exactly when it is one of the rows and its base value is not zero. */
  lemma {:induction false} NonZeroSpec(ds: seq<DisplayNutrient>)
    ensures forall d :: d in NonZero(ds) <==> d in ds && d.baseValue != 0.0
  {
    if ds != [] {
      NonZeroSpec(ds[1..]);
      assert ds == [ds[0]] + ds[1..];
    }
  }

  /**
   * The filter keeps order and multiplicity: it works row by row, so the
   * filtered rows of a concatenation are the filtered rows of each part, in
   * order.
   */
  lemma {:induction false} NonZeroAppend(a: seq<DisplayNutrient>, b: seq<DisplayNutrient>)
    ensures NonZero(a + b) == NonZero(a) + NonZero(b)
    decreases |a|
  {
    if a != [] {
      assert (a + b)[1..] == a[1..] + b;
      NonZeroAppend(a[1..], b);
      assert a + b == [a[0]] + (a[1..] + b);
    } else {
      assert a + b == b;
    }
  }

  /** A single row is kept exactly when its base value is not zero. */
  lemma NonZeroSingle(d: DisplayNutrient)
    ensures NonZero([d]) == (if d.baseValue != 0.0 then [d] else [])
  {
    assert [d][1..] == [];
  }

  /** The rows of the nutriments in order, those with a zero base value dropped. */
  function DisplayList(table: seq<Entry>, conversions: map<string, real>, ns: seq<Nutriment>, factor: real): (r: seq<DisplayNutrient>)
    requires PositiveFactors(conversions)
  {
    NonZero(Rows(table, conversions, ns, factor))
  }

  /** The `nutrients` list against the registry and its conversion table: none without a food. */
  function FoodNutrientList(food: Option<FoodProduct>, servingSize: real): seq<DisplayNutrient>
  {
    BaseConversionsPositive();
    if food.None? then [] else DisplayList(NutrientRegistry, BaseConversions, food.value.nutriments, ServingFactor(servingSize))
  }

  /** The list holds exactly the rows of the nutriments whose base value is not zero. */
  lemma DisplayListSpec(table: seq<Entry>, conversions: map<string, real>, ns: seq<Nutriment>, factor: real)
    requires PositiveFactors(conversions)
    ensures |DisplayList(table, conversions, ns, factor)| <= |ns|
    ensures forall d :: d in DisplayList(table, conversions, ns, factor) <==>
      d.baseValue != 0.0 && exists i :: 0 <= i < |ns| && d == DisplayOfIn(table, conversions, ns[i], factor)
  {
    NonZeroSpec(Rows(table, conversions, ns, factor));
  }

  /**
   * The list keeps the nutriments' order: the list of a concatenation is the
   * lists of its parts, one after the other.
   */
  lemma DisplayListAppend(table: seq<Entry>, conversions: map<string, real>, ns: seq<Nutriment>, ms: seq<Nutriment>, factor: real)
    requires PositiveFactors(conversions)
    ensures DisplayList(table, conversions, ns + ms, factor)
      == DisplayList(table, conversions, ns, factor) + DisplayList(table, conversions, ms, factor)
  {
    var a, b := Rows(table, conversions, ns, factor), Rows(table, conversions, ms, factor);
    var ab := Rows(table, conversions, ns + ms, factor);
    assert ab == a + b by {
      forall i | 0 <= i < |ab| ensures ab[i] == (a + b)[i] {
        if i < |ns| {
          assert (ns + ms)[i] == ns[i];
        } else {
          assert (ns + ms)[i] == ms[i - |ns|];
        }
      }
    }
    NonZeroAppend(a, b);
  }

  /** `nutrients.find(n => n.key === key)?.value || 0`. */
  function FindValue(ds: seq<DisplayNutrient>, key: string): (r: real)
  {
    if ds == [] then 0.0
    else if ds[0].key == Some(key) then ds[0].value
    else FindValue(ds[1..], key)
  }

  /** The value read for a key is the first row carrying it, or 0 when none does. */
  lemma {:induction false} FindValueIsFirst(ds: seq<DisplayNutrient>, key: string)
    ensures (forall i :: 0 <= i < |ds| ==> ds[i].key != Some(key)) ==> FindValue(ds, key) == 0.0
    ensures forall i :: 0 <= i < |ds| && ds[i].key == Some(key) && (forall j :: 0 <= j < i ==> ds[j].key != Some(key)) ==>
      FindValue(ds, key) == ds[i].value
  {
    if ds != [] {
      FindValueIsFirst(ds[1..], key);
      forall i | 0 <= i < |ds| && ds[i].key == Some(key) && (forall j :: 0 <= j < i ==> ds[j].key != Some(key))
        ensures FindValue(ds, key) == ds[i].value
      {
        if i > 0 {
          assert ds[0].key != Some(key);
          assert ds[1..][i - 1] == ds[i];
          assert forall j :: 0 <= j < i - 1 ==> ds[1..][j] == ds[j + 1];
        }
      }
      if forall i :: 0 <= i < |ds| ==> ds[i].key != Some(key) {
        assert ds[0].key != Some(key);
        assert forall i :: 0 <= i < |ds[1..]| ==> ds[1..][i] == ds[i + 1];
      }
    }
  }

  /** A slice of the macro chart. */
  datatype MacroSlice = MacroSlice(name: string, value: real)

  /** The chart's slices in their fixed order, before filtering. */
  function MacroCandidates(ds: seq<DisplayNutrient>): seq<MacroSlice>
  {
    [MacroSlice("Protein", FindValue(ds, "protein")),
     MacroSlice("Carbs", FindValue(ds, "carbohydrate")),
     MacroSlice("Fat", FindValue(ds, "fat"))]
  }

  /** `macroData`: nothing when all three are 0, else the positive slices in order. */
  function MacroData(ds: seq<DisplayNutrient>): seq<MacroSlice>
  {
    Shown(MacroCandidates(ds))
  }

  /** The slices of a chart of three candidates: none when all are 0, else the positive ones in order. */
  function Shown(c: seq<MacroSlice>): seq<MacroSlice>
    requires |c| == 3
  {
    if c[0].value == 0.0 && c[1].value == 0.0 && c[2].value == 0.0 then []
    else
      (if c[0].value > 0.0 then [c[0]] else [])
      + (if c[1].value > 0.0 then [c[1]] else [])
      + (if c[2].value > 0.0 then [c[2]] else [])
  }

  /**
   * A slice is shown exactly when its value is positive, the slices keep the
   * order Protein, Carbs, Fat, and the chart is empty exactly when no macro is positive.
   */
  lemma MacroDataSpec(ds: seq<DisplayNutrient>)
    ensures forall s :: s in MacroCandidates(ds) ==> (s in MacroData(ds) <==> s.value > 0.0)
    ensures forall s :: s in MacroData(ds) ==> s in MacroCandidates(ds)
    ensures forall i, j :: 0 <= i < j < |MacroData(ds)| ==>
      MacroRank(MacroData(ds)[i].name) < MacroRank(MacroData(ds)[j].name)
    ensures MacroData(ds) == [] <==> forall s :: s in MacroCandidates(ds) ==> s.value <= 0.0
  {
    var c := MacroCandidates(ds);
    assert MacroRank(c[0].name) == 0 && MacroRank(c[1].name) == 1 && MacroRank(c[2].name) == 2;
    ShownSpec(c);
  }

  /** `Shown` on three candidates whose names are in chart order. */
  lemma ShownSpec(c: seq<MacroSlice>)
    requires |c| == 3 && MacroRank(c[0].name) < MacroRank(c[1].name) < MacroRank(c[2].name)
    ensures forall s :: s in c ==> (s in Shown(c) <==> s.value > 0.0)
    ensures forall s :: s in Shown(c) ==> s in c
    ensures forall i, j :: 0 <= i < j < |Shown(c)| ==> MacroRank(Shown(c)[i].name) < MacroRank(Shown(c)[j].name)
    ensures Shown(c) == [] <==> forall s :: s in c ==> s.value <= 0.0
  {
    var p, q, f := c[0], c[1], c[2];
    assert c == [p, q, f];
    if p.value == 0.0 && q.value == 0.0 && f.value == 0.0 {
      assert Shown(c) == [];
    } else if p.value > 0.0 {
      if q.value > 0.0 {
        if f.value > 0.0 { assert Shown(c) == [p, q, f]; } else { assert Shown(c) == [p, q]; }
      } else {
        if f.value > 0.0 { assert Shown(c) == [p, f]; } else { assert Shown(c) == [p]; }
      }
    } else {
      if q.value > 0.0 {
        if f.value > 0.0 { assert Shown(c) == [q, f]; } else { assert Shown(c) == [q]; }
      } else {
        if f.value > 0.0 { assert Shown(c) == [f]; } else { assert Shown(c) == []; }
      }
    }
  }

  /** The chart's order of the macro names. */
  function MacroRank(name: string): int
  {
    if name == "Protein" then 0 else if name == "Carbs" then 1 else 2
  }

  /** `calories`: the value of the first energy row, or 0. */
  function Calories(ds: seq<DisplayNutrient>): real
  {
    FindValue(ds, "energy")
  }
}
