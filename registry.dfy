/**
 * The canonical nutrient registry: an ordered table of nutrients, the name
 * normaliser that maps any source's nutrient name onto a canonical key, the
 * unit converter built on one table of multiplicative factors, and the lookup
 * of a nutrient's clinical baseline in a nested metrics record.
 */
module Registry {
  import opened Wrappers
  import opened Text

  datatype Category = Macro | Vitamin | Mineral | Other | AminoAcid

  /** One registry entry's metadata; `displayLabel` is the human-readable label. */
  datatype NutrientMeta = NutrientMeta(
    displayLabel: string,
    unit: string,
    clinicalPath: string,
    aliases: seq<string>,
    category: Category,
    parent: Option<string>)

  /** A canonical key with its metadata; the table keeps declaration order. */
  type Entry = (string, NutrientMeta)

  /** ENERGY */
  const EnergyGroup: seq<Entry> := [
    ("energy", NutrientMeta("Energy", "kcal", "tee", ["energy", "energy-kcal", "Energy", "Energy-kcal", "energy_kCal"], Macro, None))
  ]

  /** CARBOHYDRATE GROUP */
  const CarbohydrateGroup: seq<Entry> := [
    ("carbohydrate", NutrientMeta("Carbohydrate", "g", "nutrients.carbohydrate.total", ["carbohydrates", "carbohydrates_100g", "Carbohydrate, by difference", "Carbohydrate, by summation", "carbohydrate"], Macro, None)),
    ("starch", NutrientMeta("Starch", "g", "nutrients.carbohydrate.starch", ["starch", "Starch"], Macro, Some("carbohydrate"))),
    ("fiber", NutrientMeta("Dietary Fiber", "g", "nutrients.carbohydrate.fiber.total", ["fiber", "Fiber, total dietary", "Total dietary fiber (AOAC 2011.25)", "fiber_total"], Macro, Some("carbohydrate"))),
    ("fiber_soluble", NutrientMeta("Soluble Fiber", "g", "nutrients.carbohydrate.fiber.soluble", ["fiber_soluble", "Fiber, soluble"], Macro, Some("fiber"))),
    ("fiber_insoluble", NutrientMeta("Insoluble Fiber", "g", "nutrients.carbohydrate.fiber.insoluble", ["fiber_insoluble", "Fiber, insoluble"], Macro, Some("fiber"))),
    ("sugar", NutrientMeta("Total Sugars", "g", "nutrients.carbohydrate.sugar.total", ["sugars", "Sugars, Total", "Total Sugars", "sugars_100g"], Macro, Some("carbohydrate"))),
    ("sugar_added", NutrientMeta("Added Sugars", "g", "nutrients.carbohydrate.sugar.added", ["added_sugar", "added sugars", "Sugars, added", "sugars_added", "addedSugar"], Macro, Some("sugar"))),
    ("sugar_alcohol", NutrientMeta("Sugar Alcohol", "g", "nutrients.carbohydrate.sugar.alcohol", ["sugar_alcohol", "Sugar alcohols"], Macro, Some("sugar"))),
    ("fructose", NutrientMeta("Fructose", "g", "nutrients.carbohydrate.sugar.fructose", ["fructose", "Fructose"], Macro, Some("sugar"))),
    ("sucrose", NutrientMeta("Sucrose", "g", "nutrients.carbohydrate.sugar.sucrose", ["sucrose", "Sucrose"], Macro, Some("sugar"))),
    ("glucose", NutrientMeta("Glucose", "g", "nutrients.carbohydrate.sugar.glucose", ["glucose", "Glucose"], Macro, Some("sugar"))),
    ("lactose", NutrientMeta("Lactose", "g", "nutrients.carbohydrate.sugar.lactose", ["lactose", "Lactose"], Macro, Some("sugar"))),
    ("maltose", NutrientMeta("Maltose", "g", "nutrients.carbohydrate.sugar.maltose", ["maltose", "Maltose"], Macro, Some("sugar"))),
    ("galactose", NutrientMeta("Galactose", "g", "nutrients.carbohydrate.sugar.galactose", ["galactose", "Galactose"], Macro, Some("sugar")))
  ]

  /** PROTEIN GROUP */
  const ProteinGroup: seq<Entry> := [
    ("protein", NutrientMeta("Protein", "g", "nutrients.protein.total", ["protein", "proteins", "Protein"], Macro, None)),
    ("alanine", NutrientMeta("Alanine", "g", "nutrients.protein.alanine", ["alanine", "Alanine"], AminoAcid, Some("protein"))),
    ("arginine", NutrientMeta("Arginine", "g", "nutrients.protein.arginine", ["arginine", "Arginine"], AminoAcid, Some("protein"))),
    ("aspartic_acid", NutrientMeta("Aspartic Acid", "g", "nutrients.protein.asparticAcid", ["aspartic_acid", "Aspartic acid", "asparticacid"], AminoAcid, Some("protein"))),
    ("cystine", NutrientMeta("Cystine", "g", "nutrients.protein.cystine", ["cystine", "Cystine"], AminoAcid, Some("protein"))),
    ("glutamic_acid", NutrientMeta("Glutamic Acid", "g", "nutrients.protein.glutamicAcid", ["glutamic_acid", "Glutamic acid", "glutamicacid"], AminoAcid, Some("protein"))),
    ("glutamine", NutrientMeta("Glutamine", "g", "nutrients.protein.glutamine", ["glutamine", "Glutamine"], AminoAcid, Some("protein"))),
    ("glycine", NutrientMeta("Glycine", "g", "nutrients.protein.glycine", ["glycine", "Glycine"], AminoAcid, Some("protein"))),
    ("histidine", NutrientMeta("Histidine", "g", "nutrients.protein.histidine", ["histidine", "Histidine"], AminoAcid, Some("protein"))),
    ("hydroxyproline", NutrientMeta("Hydroxyproline", "g", "nutrients.protein.hydroxyproline", ["hydroxyproline", "Hydroxyproline"], AminoAcid, Some("protein"))),
    ("isoleucine", NutrientMeta("Isoleucine", "g", "nutrients.protein.isoleucine", ["isoleucine", "Isoleucine"], AminoAcid, Some("protein"))),
    ("leucine", NutrientMeta("Leucine", "g", "nutrients.protein.leucine", ["leucine", "Leucine"], AminoAcid, Some("protein"))),
    ("lysine", NutrientMeta("Lysine", "g", "nutrients.protein.lysine", ["lysine", "Lysine"], AminoAcid, Some("protein"))),
    ("methionine", NutrientMeta("Methionine", "g", "nutrients.protein.methionine", ["methionine", "Methionine"], AminoAcid, Some("protein"))),
    ("phenylalanine", NutrientMeta("Phenylalanine", "g", "nutrients.protein.phenylalanine", ["phenylalanine", "Phenylalanine"], AminoAcid, Some("protein"))),
    ("proline", NutrientMeta("Proline", "g", "nutrients.protein.proline", ["proline", "Proline"], AminoAcid, Some("protein"))),
    ("serine", NutrientMeta("Serine", "g", "nutrients.protein.serine", ["serine", "Serine"], AminoAcid, Some("protein"))),
    ("threonine", NutrientMeta("Threonine", "g", "nutrients.protein.threonine", ["threonine", "Threonine"], AminoAcid, Some("protein"))),
    ("tryptophan", NutrientMeta("Tryptophan", "g", "nutrients.protein.tryptophan", ["tryptophan", "Tryptophan"], AminoAcid, Some("protein"))),
    ("tyrosine", NutrientMeta("Tyrosine", "g", "nutrients.protein.tyrosine", ["tyrosine", "Tyrosine"], AminoAcid, Some("protein"))),
    ("valine", NutrientMeta("Valine", "g", "nutrients.protein.valine", ["valine", "Valine"], AminoAcid, Some("protein")))
  ]

  /** FAT GROUP */
  const FatGroup: seq<Entry> := [
    ("fat", NutrientMeta("Total Fat", "g", "nutrients.fat.total", ["fat", "Total lipid (fat)", "Total fat (NLEA)", "total fat", "FAT"], Macro, None)),
    ("fat_saturated", NutrientMeta("Saturated Fat", "g", "nutrients.fat.saturated", ["fat_saturated", "Fatty acids, total saturated", "saturated-fat", "saturated fat"], Macro, Some("fat"))),
    ("fat_trans", NutrientMeta("Trans Fat", "g", "nutrients.fat.trans", ["fat_trans", "Fatty acids, total trans", "trans-fat", "trans fat"], Macro, Some("fat"))),
    ("fat_monounsaturated", NutrientMeta("Monounsaturated Fat", "g", "nutrients.fat.monounsaturated", ["fat_monounsaturated", "Fatty acids, total monounsaturated", "monounsaturated"], Macro, Some("fat"))),
    ("fat_polyunsaturated", NutrientMeta("Polyunsaturated Fat", "g", "nutrients.fat.polyunsaturated", ["fat_polyunsaturated", "Fatty acids, total polyunsaturated", "polyunsaturated"], Macro, Some("fat"))),
    ("omega3", NutrientMeta("Omega-3", "g", "nutrients.fat.omega3", ["omega3", "omega-3", "alpha-linolenic", "PUFA 18:3 n-3 c,c,c (ALA)", "PUFA 20:5 n-3 (EPA)", "PUFA 22:6 n-3 (DHA)"], Macro, Some("fat"))),
    ("omega6", NutrientMeta("Omega-6", "g", "nutrients.fat.omega6", ["omega6", "omega-6", "linoleic", "PUFA 18:2 n-6 c,c", "PUFA 20:4 n-6"], Macro, Some("fat"))),
    ("cholesterol", NutrientMeta("Cholesterol", "mg", "nutrients.fat.cholesterol", ["cholesterol", "Cholesterol"], Macro, Some("fat")))
  ]

  /** WATER */
  const WaterGroup: seq<Entry> := [
    ("water", NutrientMeta("Water", "ml", "nutrients.water", ["water", "Water"], Macro, None))
  ]

  /** VITAMINS */
  const VitaminGroup: seq<Entry> := [
    ("vitamin_a", NutrientMeta("Vitamin A", "mcg", "nutrients.vitaminA", ["vitamin-a", "Vitamin A, RAE", "Vitamin A"], Vitamin, None)),
    ("vitamin_c", NutrientMeta("Vitamin C", "mg", "nutrients.vitaminC", ["vitamin-c", "Vitamin C, total ascorbic acid", "Vitamin C", "VITAMIN C"], Vitamin, None)),
    ("vitamin_d", NutrientMeta("Vitamin D", "mcg", "nutrients.vitaminD", ["vitamin-d", "Vitamin D (D2 + D3)", "Vitamin D"], Vitamin, None)),
    ("vitamin_e", NutrientMeta("Vitamin E", "mg", "nutrients.vitaminE", ["vitamin-e", "Vitamin E (alpha-tocopherol)", "Vitamin E"], Vitamin, None)),
    ("vitamin_k", NutrientMeta("Vitamin K", "mcg", "nutrients.vitaminK", ["vitamin-k", "Vitamin K (phylloquinone)", "Vitamin K", "VITAMIN K"], Vitamin, None)),
    ("thiamin", NutrientMeta("Thiamin (B1)", "mg", "nutrients.thiamin", ["thiamin", "Thiamin"], Vitamin, None)),
    ("riboflavin", NutrientMeta("Riboflavin (B2)", "mg", "nutrients.riboflavin", ["riboflavin", "Riboflavin"], Vitamin, None)),
    ("niacin", NutrientMeta("Niacin (B3)", "mg", "nutrients.niacin", ["niacin", "Niacin"], Vitamin, None)),
    ("vitamin_b6", NutrientMeta("Vitamin B6", "mg", "nutrients.vitaminB6", ["vitamin-b6", "Vitamin B-6"], Vitamin, None)),
    ("folate", NutrientMeta("Folate", "mcg", "nutrients.folate", ["folate", "folic-acid", "Folate, total"], Vitamin, None)),
    ("vitamin_b12", NutrientMeta("Vitamin B12", "mcg", "nutrients.vitaminB12", ["vitamin-b12", "Vitamin B-12"], Vitamin, None)),
    ("choline", NutrientMeta("Choline", "g", "nutrients.choline", ["choline", "Choline, total"], Vitamin, None)),
    ("pantothenic_acid", NutrientMeta("Pantothenic Acid", "mg", "nutrients.pantothenicAcid", ["pantothenic-acid", "Pantothenic acid"], Vitamin, None)),
    ("biotin", NutrientMeta("Biotin", "mcg", "nutrients.biotin", ["biotin", "Biotin"], Vitamin, None))
  ]

  /** MINERALS */
  const MineralGroup: seq<Entry> := [
    ("calcium", NutrientMeta("Calcium", "mg", "nutrients.calcium", ["calcium", "Calcium, Ca"], Mineral, None)),
    ("chloride", NutrientMeta("Chloride", "g", "nutrients.chloride", ["chloride", "Chloride, Cl"], Mineral, None)),
    ("chromium", NutrientMeta("Chromium", "mcg", "nutrients.chromium", ["chromium", "Chromium, Cr"], Mineral, None)),
    ("copper", NutrientMeta("Copper", "mcg", "nutrients.copper", ["copper", "Copper, Cu"], Mineral, None)),
    ("fluoride", NutrientMeta("Fluoride", "mg", "nutrients.fluoride", ["fluoride", "Fluoride, F"], Mineral, None)),
    ("iodine", NutrientMeta("Iodine", "mcg", "nutrients.iodine", ["iodine", "Iodine, I"], Mineral, None)),
    ("iron", NutrientMeta("Iron", "mg", "nutrients.iron", ["iron", "Iron, Fe"], Mineral, None)),
    ("magnesium", NutrientMeta("Magnesium", "mg", "nutrients.magnesium", ["magnesium", "Magnesium, Mg"], Mineral, None)),
    ("manganese", NutrientMeta("Manganese", "mg", "nutrients.manganese", ["manganese", "Manganese, Mn"], Mineral, None)),
    ("molybdenum", NutrientMeta("Molybdenum", "mcg", "nutrients.molybdenum", ["molybdenum", "Molybdenum, Mo"], Mineral, None)),
    ("phosphorus", NutrientMeta("Phosphorus", "mg", "nutrients.phosphorus", ["phosphorus", "Phosphorus, P"], Mineral, None)),
    ("potassium", NutrientMeta("Potassium", "mg", "nutrients.potassium", ["potassium", "Potassium, K"], Mineral, None)),
    ("selenium", NutrientMeta("Selenium", "mcg", "nutrients.selenium", ["selenium", "Selenium, Se"], Mineral, None)),
    ("sodium", NutrientMeta("Sodium", "mg", "nutrients.sodium", ["sodium", "Sodium, Na"], Mineral, None)),
    ("zinc", NutrientMeta("Zinc", "mg", "nutrients.zinc", ["zinc", "Zinc, Zn"], Mineral, None))
  ]

  /** OTHERS / CAROTENOIDS */
  const CarotenoidGroup: seq<Entry> := [
    ("beta_carotene", NutrientMeta("Beta-carotene", "mcg", "nutrients.vitaminA", ["beta-carotene", "Carotene, beta", "Beta-carotene"], Vitamin, None)),
    ("lycopene", NutrientMeta("Lycopene", "mcg", "nutrients.other.lycopene", ["lycopene", "Lycopene"], Other, None)),
    ("lutein_zeaxanthin", NutrientMeta("Lutein + Zeaxanthin", "mcg", "nutrients.other.luteinZeaxanthin", ["lutein_zeaxanthin", "Lutein + zeaxanthin", "Lutein + Zeaxanthin"], Other, None))
  ]
  /** The whole registry, in declaration order. */
  const NutrientRegistry: seq<Entry> :=
    EnergyGroup + CarbohydrateGroup + ProteinGroup + FatGroup + WaterGroup
    + VitaminGroup + MineralGroup + CarotenoidGroup

  /** `k` is the canonical key of some entry of `table`. */
  predicate IsKeyIn(table: seq<Entry>, k: string)
  {
    exists i :: 0 <= i < |table| && table[i].0 == k
  }

  /** `k` is a canonical key of the registry. */
  predicate IsKey(k: string)
  {
    IsKeyIn(NutrientRegistry, k)
  }

  /** The metadata of the first entry of `table` whose key is `k`; `None` for an unknown key. */
  function LookupIn(table: seq<Entry>, k: string): (r: Option<NutrientMeta>)
    ensures r.Some? <==> IsKeyIn(table, k)
    ensures r.Some? ==> exists i :: 0 <= i < |table| && table[i] == (k, r.value)
  {
    if table == [] then None
    else if table[0].0 == k then
      assert table[0] == (k, table[0].1);
      Some(table[0].1)
    else
      var r := LookupIn(table[1..], k);
      assert forall i :: 0 < i < |table| ==> table[i] == table[1..][i - 1];
      r
  }

  /** `NUTRIENT_REGISTRY[k]`, an own-property lookup. */
  function Lookup(k: string): Option<NutrientMeta>
  {
    LookupIn(NutrientRegistry, k)
  }

  // ---------------------------------------------------------------------------
  // Name normalisation
  // ---------------------------------------------------------------------------

  /** Some alias of the list lower-cases to `name`. */
  predicate AliasLowersTo(aliases: seq<string>, name: string)
  {
    exists a :: a in aliases && Lower(a) == name
  }

  /** The exact pass's test on one entry: the key itself, or a lower-cased alias, equals `name`. */
  predicate Claims(e: Entry, name: string)
  {
    e.0 == name || AliasLowersTo(e.1.aliases, name)
  }

  /** Index of the first entry of `table` claiming `name`, if any. */
  function FirstClaimIndex(table: seq<Entry>, name: string): (r: Option<nat>)
    ensures r.Some? ==> r.value < |table| && Claims(table[r.value], name)
    ensures r.Some? ==> forall j :: 0 <= j < r.value ==> !Claims(table[j], name)
    ensures r.None? ==> forall j :: 0 <= j < |table| ==> !Claims(table[j], name)
  {
    if table == [] then None
    else if Claims(table[0], name) then Some(0)
    else
      match FirstClaimIndex(table[1..], name)
      case None => None
      case Some(i) => Some(i + 1)
  }

  /** The fuzzy fallback, consulted only when no entry claims the lower-cased, trimmed name. */
  function Fuzzy(n: string): (r: Option<string>)
    ensures r.Some? ==> Contains(n, r.value)
    ensures r.Some? ==> r.value in {"fiber", "protein", "fat", "sugar", "carbohydrate"}
  {
    if Contains(n, "fiber") then Some("fiber")
    else if Contains(n, "protein") then Some("protein")
    else if Contains(n, "fat") && !Contains(n, "saturated") && !Contains(n, "trans") then Some("fat")
    else if Contains(n, "sugar") && !Contains(n, "added") && !Contains(n, "alcohol") then Some("sugar")
    else if Contains(n, "carbohydrate") then Some("carbohydrate")
    else None
  }

  /** The normaliser over an arbitrary table: exact pass in table order, then the fuzzy fallback. */
  function NormalizeIn(table: seq<Entry>, name: string): (r: Option<string>)
  {
    var n := Lower(Trim(name));
    match FirstClaimIndex(table, n)
    case Some(i) => Some(table[i].0)
    case None => Fuzzy(n)
  }

  /** `normalizeToCanonicalKey(name)`. */
  function Normalize(name: string): Option<string>
  {
    NormalizeIn(NutrientRegistry, name)
  }

  /** The keys the fuzzy fallback can return are registry keys. */
  lemma FuzzyKeysAreKeys()
    ensures IsKey("fiber") && IsKey("protein") && IsKey("fat") && IsKey("sugar") && IsKey("carbohydrate")
  {
    assert NutrientRegistry[1].0 == "carbohydrate";
    assert NutrientRegistry[3].0 == "fiber";
    assert NutrientRegistry[6].0 == "sugar";
    assert NutrientRegistry[15].0 == "protein";
    assert NutrientRegistry[36].0 == "fat";
  }

  /** The normaliser answers a registry key or nothing. */
  lemma NormalizeYieldsKey(name: string)
    ensures Normalize(name).Some? ==> IsKey(Normalize(name).value)
  {
    var n := Lower(Trim(name));
    match FirstClaimIndex(NutrientRegistry, n)
    case Some(i) =>
    case None => FuzzyKeysAreKeys();
  }

  /** First match wins: the first entry claiming the cleaned-up name decides the result. */
  lemma {:induction false} FirstClaimDecides(table: seq<Entry>, name: string, i: nat)
    requires i < |table| && Claims(table[i], Lower(Trim(name)))
    requires forall j :: 0 <= j < i ==> !Claims(table[j], Lower(Trim(name)))
    ensures NormalizeIn(table, name) == Some(table[i].0)
  {
    var r := FirstClaimIndex(table, Lower(Trim(name)));
    assert r.Some?;
    assert r.value == i;
  }

  /** The fuzzy fallback is consulted only when no entry claims the cleaned-up name. */
  lemma FuzzyOnlyWithoutClaim(table: seq<Entry>, name: string)
    requires forall j :: 0 <= j < |table| ==> !Claims(table[j], Lower(Trim(name)))
    ensures NormalizeIn(table, name) == Fuzzy(Lower(Trim(name)))
  {
  }

  /** Input is lower-cased and trimmed first, so cleaning it beforehand changes nothing. */
  lemma NormalizeIgnoresCaseAndPadding(table: seq<Entry>, name: string)
    ensures NormalizeIn(table, name) == NormalizeIn(table, Lower(Trim(name)))
  {
    CleanIdempotent(name);
  }

  /**
   * `normalizeToCanonicalKey`: lower-case and trim the name, return the first
   * entry whose key or lower-cased alias equals it, else the fuzzy fallback.
   */
  method NormalizeToCanonicalKey(name: string) returns (r: Option<string>)
    ensures r == Normalize(name)
  {
    r := NormalizeOver(NutrientRegistry, name);
  }

  /** The loop of `normalizeToCanonicalKey`, over the entries of `table` in order. */
  method NormalizeOver(table: seq<Entry>, name: string) returns (r: Option<string>)
    ensures r == NormalizeIn(table, name)
  {
    var lowerName := Trim(Lower(name));
    LowerTrimCommute(name);
    var i := 0;
    while i < |table|
      invariant 0 <= i <= |table|
      invariant forall j :: 0 <= j < i ==> !Claims(table[j], lowerName)
    {
      var entry := table[i];
      if entry.0 == lowerName || (exists a :: a in entry.1.aliases && Lower(a) == lowerName) {
        assert FirstClaimIndex(table, lowerName) == Some(i);
        return Some(entry.0);
      }
      i := i + 1;
    }
    return Fuzzy(lowerName);
  }

  // ---------------------------------------------------------------------------
  // Unit conversion
  // ---------------------------------------------------------------------------

  /** `BASE_CONVERSIONS`: grams (mass) or millilitres (volume) per unit. */
  const BaseConversions: map<string, real> := map[
    "g" := 1.0, "gram" := 1.0, "grams" := 1.0,
    "mg" := 0.001, "milligram" := 0.001, "milligrams" := 0.001,
    "mcg" := 0.000001, "microgram" := 0.000001, "micrograms" := 0.000001,
    "\U{00C2}\U{00B5}g" := 0.000001,
    "kg" := 1000.0, "kilogram" := 1000.0,
    "oz" := 28.35, "ounce" := 28.35, "ounces" := 28.35,
    "lb" := 453.592, "pound" := 453.592, "pounds" := 453.592,
    "ml" := 1.0, "milliliter" := 1.0, "milliliters" := 1.0,
    "l" := 1000.0, "liter" := 1000.0, "liters" := 1000.0,
    "cup" := 236.588, "tbsp" := 14.787, "tsp" := 4.929
  ]

  /** A unit string JavaScript treats as false: `null`, `undefined` or empty. */
  predicate UnitMissing(u: Option<string>)
  {
    u.None? || u.value == ""
  }

  /** Every factor of `table` is positive. */
  predicate PositiveFactors(table: map<string, real>)
  {
    forall u :: u in table ==> table[u] > 0.0
  }

  /** Every factor of the conversion table is positive. */
  lemma BaseConversionsPositive()
    ensures PositiveFactors(BaseConversions)
  {
  }

  /** The factor `table` gives a unit, after lower-casing and trimming it. */
  function FactorIn(table: map<string, real>, u: string): (r: Option<real>)
    requires PositiveFactors(table)
    ensures r.Some? ==> r.value > 0.0
  {
    var k := Trim(Lower(u));
    if k in table then Some(table[k]) else None
  }

  /** The factor the converter uses for a unit. */
  function FactorOf(u: string): Option<real>
  {
    BaseConversionsPositive();
    FactorIn(BaseConversions, u)
  }

  /** The converter over an arbitrary factor table. */
  function ConvertIn(table: map<string, real>, value: Option<real>, fromUnit: Option<string>, toUnit: Option<string>): (r: Option<real>)
    requires PositiveFactors(table)
    ensures r.Some? <==> value.Some?
    ensures (UnitMissing(fromUnit) || UnitMissing(toUnit) || fromUnit == toUnit) ==> r == value
    ensures fromUnit.Some? && FactorIn(table, fromUnit.value).None? ==> r == value
    ensures toUnit.Some? && FactorIn(table, toUnit.value).None? ==> r == value
  {
    if value.None? || UnitMissing(fromUnit) || UnitMissing(toUnit) then value
    else if fromUnit.value == toUnit.value then value
    else
      var fromFactor := FactorIn(table, fromUnit.value);
      var toFactor := FactorIn(table, toUnit.value);
      if fromFactor.None? || toFactor.None? then value
      else Some(Rescale(value.value, fromFactor.value, toFactor.value))
  }

  /** `value * fromFactor / toFactor`: to the base unit, then to the target unit. */
  function Rescale(value: real, fromFactor: real, toFactor: real): real
    requires toFactor > 0.0
  {
    value * fromFactor / toFactor
  }

  /**
   * `convertNutrientValue`: best-effort conversion, returning the value
   * unchanged whenever a conversion cannot be made: no value, a missing or
   * empty unit, the same unit text, or a unit the table does not know.
   */
  function ConvertNutrientValue(value: Option<real>, fromUnit: Option<string>, toUnit: Option<string>): (r: Option<real>)
    ensures r.Some? <==> value.Some?
    ensures (UnitMissing(fromUnit) || UnitMissing(toUnit) || fromUnit == toUnit) ==> r == value
    ensures fromUnit.Some? && FactorOf(fromUnit.value).None? ==> r == value
    ensures toUnit.Some? && FactorOf(toUnit.value).None? ==> r == value
  {
    BaseConversionsPositive();
    ConvertIn(BaseConversions, value, fromUnit, toUnit)
  }

  // ---------------------------------------------------------------------------
  // Clinical baseline lookup
  // ---------------------------------------------------------------------------

  /** A node of the clinical metrics record: a number, a nested record, or anything else. */
  datatype Metric = Num(n: real) | Record(fields: map<string, Metric>) | NullValue

  /** The metrics record itself (`DRIMetrics`), a record at the root. */
  type Metrics = map<string, Metric>

  /** Follow `parts` one segment at a time; `None` as soon as a segment is missing or the node is not a record. */
  function Walk(current: Metric, parts: seq<string>): (r: Option<Metric>)
    ensures parts == [] ==> r == Some(current)
    ensures parts != [] && !(current.Record? && parts[0] in current.fields) ==> r.None?
  {
    if parts == [] then Some(current)
    else if current.Record? && parts[0] in current.fields then Walk(current.fields[parts[0]], parts[1..])
    else None
  }

  /** `current?.recommended ?? null` on the node the walk reached. */
  function Recommended(node: Option<Metric>): Option<real>
  {
    if node.Some? && node.value.Record? && "recommended" in node.value.fields
       && node.value.fields["recommended"].Num?
    then Some(node.value.fields["recommended"].n)
    else None
  }

  /** `metrics.tee`, the total energy expenditure. */
  function Tee(metrics: Metrics): Option<real>
  {
    if "tee" in metrics && metrics["tee"].Num? then Some(metrics["tee"].n) else None
  }

  /** The value `getClinicalValue(metrics, key)` returns, as a specification. */
  function ClinicalValue(metrics: Metrics, key: string): Option<real>
  {
    match Lookup(key)
    case None => None
    case Some(meta) =>
      if meta.clinicalPath == "" then None
      else if meta.clinicalPath == "tee" then Tee(metrics)
      else Recommended(Walk(Record(metrics), Split(meta.clinicalPath, '.')))
  }

  /**
   * `getClinicalValue`: walk the entry's dotted `clinicalPath` through the
   * metrics record, one segment per iteration.
   */
  method GetClinicalValue(metrics: Metrics, key: string) returns (r: Option<real>)
    ensures r == ClinicalValue(metrics, key)
  {
    var metadata := Lookup(key);
    if metadata.None? {
      return None;
    }
    r := ReadClinicalPath(metrics, metadata.value.clinicalPath);
  }

  /** Follows one registry path through the clinical record, segment by segment. */
  method ReadClinicalPath(metrics: Metrics, path: string) returns (r: Option<real>)
    ensures path == "" ==> r.None?
    ensures path == "tee" ==> r == Tee(metrics)
    ensures path != "" && path != "tee" ==> r == Recommended(Walk(Record(metrics), Split(path, '.')))
  {
    if path == "" {
      return None;
    }
    if path == "tee" {
      return Tee(metrics);
    }
    var parts := Split(path, '.');
    var current := Record(metrics);
    var i := 0;
    while i < |parts|
      invariant 0 <= i <= |parts|
      invariant Walk(Record(metrics), parts) == Walk(current, parts[i..])
    {
      var part := parts[i];
      if current.Record? && part in current.fields {
        current := current.fields[part];
      } else {
        return None;
      }
      i := i + 1;
    }
    return Recommended(Some(current));
  }
}
