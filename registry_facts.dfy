/**
 * Facts about the registry's data: where its parent links lead, what the
 * normaliser answers for known names, how the unit table converts, and what
 * the clinical lookup finds in a sample metrics record.
 */
module RegistryFacts {
  import opened Wrappers
  import opened Text
  import opened Registry

  // ---------------------------------------------------------------------------
  // Parent links
  // ---------------------------------------------------------------------------

  /** Every declared parent in `g` is one of `keys` (with no keys: no entry of `g` has a parent). */
  predicate ParentsWithin(g: seq<Entry>, keys: set<string>)
  {
    forall i :: 0 <= i < |g| && g[i].1.parent.Some? ==> g[i].1.parent.value in keys
  }

  /** Carbohydrate-group entries hang under carbohydrate, fiber or sugar. */
  lemma CarbohydrateGroupParents()
    ensures ParentsWithin(CarbohydrateGroup, {"carbohydrate", "fiber", "sugar"})
  {
  }

  /** Every amino acid hangs under protein. */
  lemma ProteinGroupParents()
    ensures ParentsWithin(ProteinGroup, {"protein"})
  {
  }

  /** Fat-group entries hang under fat. */
  lemma FatGroupParents()
    ensures ParentsWithin(FatGroup, {"fat"})
  {
  }

  /** Energy, water, vitamins, minerals and carotenoids have no parent. */
  lemma OtherGroupsAreRoots()
    ensures ParentsWithin(EnergyGroup, {}) && ParentsWithin(WaterGroup, {})
    ensures ParentsWithin(VitaminGroup, {})
    ensures ParentsWithin(MineralGroup, {})
    ensures ParentsWithin(CarotenoidGroup, {})
  {
  }

  /** Parents of two tables within some keys are, in the joined table, within any set holding both. */
  lemma ParentsWithinConcat(a: seq<Entry>, b: seq<Entry>, ka: set<string>, kb: set<string>, keys: set<string>)
    requires ParentsWithin(a, ka) && ParentsWithin(b, kb) && ka <= keys && kb <= keys
    ensures ParentsWithin(a + b, keys)
  {
    forall i | 0 <= i < |a + b| && (a + b)[i].1.parent.Some?
      ensures (a + b)[i].1.parent.value in keys
    {
      if i < |a| {
        assert (a + b)[i] == a[i];
      } else {
        assert (a + b)[i] == b[i - |a|];
      }
    }
  }

  /** A table whose parents are within `keys` gives each of its entries a parent among them. */
  lemma ParentOfMember(g: seq<Entry>, keys: set<string>, e: Entry)
    requires ParentsWithin(g, keys) && e in g && e.1.parent.Some?
    ensures e.1.parent.value in keys
  {
    var i :| 0 <= i < |g| && g[i] == e;
  }

  /** Every declared parent is one of five keys. */
  lemma ParentsAmongFive()
    ensures ParentsWithin(NutrientRegistry, {"carbohydrate", "fiber", "sugar", "protein", "fat"})
  {
    var five := {"carbohydrate", "fiber", "sugar", "protein", "fat"};
    var none: set<string> := {};
    CarbohydrateGroupParents();
    ProteinGroupParents();
    FatGroupParents();
    OtherGroupsAreRoots();
    var g := EnergyGroup;
    ParentsWithinConcat(g, CarbohydrateGroup, none, {"carbohydrate", "fiber", "sugar"}, five);
    g := g + CarbohydrateGroup;
    ParentsWithinConcat(g, ProteinGroup, five, {"protein"}, five);
    g := g + ProteinGroup;
    ParentsWithinConcat(g, FatGroup, five, {"fat"}, five);
    g := g + FatGroup;
    ParentsWithinConcat(g, WaterGroup, five, none, five);
    g := g + WaterGroup;
    ParentsWithinConcat(g, VitaminGroup, five, none, five);
    g := g + VitaminGroup;
    ParentsWithinConcat(g, MineralGroup, five, none, five);
    g := g + MineralGroup;
    ParentsWithinConcat(g, CarotenoidGroup, five, none, five);
    g := g + CarotenoidGroup;
  }

  /** The first entry keyed `k` is the one `Lookup(k)` finds. */
  lemma {:induction false} LookupFirst(table: seq<Entry>, i: nat, k: string)
    requires i < |table| && table[i].0 == k
    requires forall j :: 0 <= j < i ==> table[j].0 != k
    ensures LookupIn(table, k) == Some(table[i].1)
    decreases i
  {
    if i > 0 {
      assert table[0].0 != k;
      LookupFirst(table[1..], i - 1, k);
    }
  }

  lemma LookupCarbohydrate()
    ensures Lookup("carbohydrate") == Some(NutrientRegistry[1].1)
  {
    LookupFirst(NutrientRegistry, 1, "carbohydrate");
  }

  lemma LookupFiber()
    ensures Lookup("fiber") == Some(NutrientRegistry[3].1)
  {
    forall j | 0 <= j < 3 ensures NutrientRegistry[j].0 != "fiber" {
    }
    LookupFirst(NutrientRegistry, 3, "fiber");
  }

  lemma LookupSugar()
    ensures Lookup("sugar") == Some(NutrientRegistry[6].1)
  {
    forall j | 0 <= j < 6 ensures NutrientRegistry[j].0 != "sugar" {
    }
    LookupFirst(NutrientRegistry, 6, "sugar");
  }

  lemma LookupProtein()
    ensures Lookup("protein") == Some(NutrientRegistry[15].1)
  {
    forall j | 0 <= j < 15 ensures NutrientRegistry[j].0 != "protein" {
    }
    LookupFirst(NutrientRegistry, 15, "protein");
  }

  lemma LookupFat()
    ensures Lookup("fat") == Some(NutrientRegistry[36].1)
  {
    forall j | 0 <= j < 36 ensures NutrientRegistry[j].0 != "fat" {
    }
    LookupFirst(NutrientRegistry, 36, "fat");
  }

  /**
   * Every parent names a registry entry, and parent chains have at most two
   * edges: a parent is a root or hangs directly under carbohydrate, a root
   * (as in sugar_added, then sugar, then carbohydrate).
   */
  lemma ParentChainsAtMostTwo()
    ensures forall e :: e in NutrientRegistry && e.1.parent.Some? ==>
      var p := Lookup(e.1.parent.value);
      && p.Some?
      && (p.value.parent.None? || p.value.parent == Some("carbohydrate"))
    ensures Lookup("carbohydrate").Some? && Lookup("carbohydrate").value.parent.None?
  {
    var five := {"carbohydrate", "fiber", "sugar", "protein", "fat"};
    ParentsAmongFive();
    forall p | p in five
      ensures ShortParent(p)
    {
      ParentLookup(p);
    }
    ParentsShort(NutrientRegistry, five);
    CarbohydrateIsRoot();
  }

  /** `p` names a registry entry that is a root or hangs directly under carbohydrate. */
  predicate ShortParent(p: string)
  {
    var q := Lookup(p);
    q.Some? && (q.value.parent.None? || q.value.parent == Some("carbohydrate"))
  }

  /** When every allowed parent is short, so is every parent declared in `g`. */
  lemma ParentsShort(g: seq<Entry>, keys: set<string>)
    requires ParentsWithin(g, keys) && forall p :: p in keys ==> ShortParent(p)
    ensures forall e :: e in g && e.1.parent.Some? ==> ShortParent(e.1.parent.value)
  {
    forall e | e in g && e.1.parent.Some?
      ensures ShortParent(e.1.parent.value)
    {
      ParentOfMember(g, keys, e);
    }
  }

  lemma CarbohydrateIsRoot()
    ensures Lookup("carbohydrate").Some? && Lookup("carbohydrate").value.parent.None?
  {
    LookupCarbohydrate();
  }

  lemma FiberUnderCarbohydrate()
    ensures Lookup("fiber").Some? && Lookup("fiber").value.parent == Some("carbohydrate")
  {
    LookupFiber();
    FiberAtThree();
    FiberEntry();
  }

  lemma FiberAtThree()
    ensures NutrientRegistry[3] == CarbohydrateGroup[2]
  {
  }

  lemma FiberEntry()
    ensures CarbohydrateGroup[2].1.parent == Some("carbohydrate")
  {
  }

  lemma SugarUnderCarbohydrate()
    ensures Lookup("sugar").Some? && Lookup("sugar").value.parent == Some("carbohydrate")
  {
    LookupSugar();
    SugarAtSix();
    SugarEntry();
  }

  lemma SugarAtSix()
    ensures NutrientRegistry[6] == CarbohydrateGroup[5]
  {
  }

  lemma SugarEntry()
    ensures CarbohydrateGroup[5].1.parent == Some("carbohydrate")
  {
  }

  lemma ProteinIsRoot()
    ensures Lookup("protein").Some? && Lookup("protein").value.parent.None?
  {
    LookupProtein();
  }

  lemma FatIsRoot()
    ensures Lookup("fat").Some? && Lookup("fat").value.parent.None?
  {
    LookupFat();
  }

  /** The five parents are registry entries; fiber and sugar hang under carbohydrate, the rest are roots. */
  lemma ParentLookup(p: string)
    requires p in {"carbohydrate", "fiber", "sugar", "protein", "fat"}
    ensures Lookup(p).Some?
    ensures Lookup(p).value.parent.None? || Lookup(p).value.parent == Some("carbohydrate")
  {
    if p == "carbohydrate" {
      CarbohydrateIsRoot();
    } else if p == "fiber" {
      FiberUnderCarbohydrate();
    } else if p == "sugar" {
      SugarUnderCarbohydrate();
    } else if p == "protein" {
      ProteinIsRoot();
    } else {
      FatIsRoot();
    }
  }

  // ---------------------------------------------------------------------------
  // The normaliser on known names
  // ---------------------------------------------------------------------------

  /** A clean key that no earlier entry claims normalises to itself. */
  lemma KeyNormalizesToItself(table: seq<Entry>, i: nat)
    requires i < |table| && Lower(Trim(table[i].0)) == table[i].0
    requires forall j :: 0 <= j < i ==> !Claims(table[j], table[i].0)
    ensures NormalizeIn(table, table[i].0) == Some(table[i].0)
  {
    FirstClaimDecides(table, table[i].0, i);
  }

  /** An unpadded alias of an entry that no earlier entry claims normalises to that entry's key. */
  lemma AliasNormalizesToKey(table: seq<Entry>, i: nat, a: string)
    requires i < |table| && a in table[i].1.aliases && Trim(a) == a
    requires forall j :: 0 <= j < i ==> !Claims(table[j], Lower(a))
    ensures NormalizeIn(table, a) == Some(table[i].0)
  {
    assert Claims(table[i], Lower(Trim(a)));
    FirstClaimDecides(table, a, i);
  }

  /** No key or alias of `g` starts with a letter that lower-cases to `c`. */
  predicate AvoidsInitial(g: seq<Entry>, c: char)
  {
    forall j :: 0 <= j < |g| ==>
      InitialAvoids(g[j].0, c) && forall a :: a in g[j].1.aliases ==> InitialAvoids(a, c)
  }

  predicate InitialAvoids(a: string, c: char)
  {
    a == [] || LowerChar(a[0]) != c
  }

  /** Entries whose keys and aliases avoid the initial `c` claim no name starting with `c`. */
  lemma AvoidsInitialNoClaim(g: seq<Entry>, c: char, name: string)
    requires AvoidsInitial(g, c) && LowerChar(c) == c && name != [] && name[0] == c
    ensures forall j :: 0 <= j < |g| ==> !Claims(g[j], name)
  {
    forall j | 0 <= j < |g| ensures !Claims(g[j], name) {
      forall a | a in g[j].1.aliases ensures Lower(a) != name {
        assert InitialAvoids(a, c);
        if a != [] {
          assert Lower(a)[0] == LowerChar(a[0]);
        }
      }
    }
  }

  lemma AvoidsInitialConcat(a: seq<Entry>, b: seq<Entry>, c: char)
    requires AvoidsInitial(a, c) && AvoidsInitial(b, c)
    ensures AvoidsInitial(a + b, c)
  {
    forall j | 0 <= j < |a + b|
      ensures InitialAvoids((a + b)[j].0, c) && forall x :: x in (a + b)[j].1.aliases ==> InitialAvoids(x, c)
    {
      if j < |a| {
        assert (a + b)[j] == a[j];
      } else {
        assert (a + b)[j] == b[j - |a|];
      }
    }
  }

  lemma EnergyGroupAvoidsP()
    ensures AvoidsInitial(EnergyGroup, 'p')
  {
  }

  lemma CarbohydrateGroupAvoidsP()
    ensures AvoidsInitial(CarbohydrateGroup, 'p')
  {
  }

  lemma RegistryBeforeProtein()
    ensures NutrientRegistry[..15] == EnergyGroup + CarbohydrateGroup
  {
  }

  /** No entry before the protein group claims "protein": none of their names starts with 'p'. */
  lemma NoClaimBeforeProtein()
    ensures forall j :: 0 <= j < 15 ==> !Claims(NutrientRegistry[j], "protein")
  {
    EnergyGroupAvoidsP();
    CarbohydrateGroupAvoidsP();
    AvoidsInitialConcat(EnergyGroup, CarbohydrateGroup, 'p');
    RegistryBeforeProtein();
    AvoidsInitialNoClaim(NutrientRegistry[..15], 'p', "protein");
    forall j | 0 <= j < 15 ensures !Claims(NutrientRegistry[j], "protein") {
      assert NutrientRegistry[..15][j] == NutrientRegistry[j];
    }
  }

  lemma ProteinIsAlias()
    ensures "Protein" in NutrientRegistry[15].1.aliases && NutrientRegistry[15].0 == "protein"
  {
    ProteinPathTextAt();
  }

  /** "Protein" names protein. */
  lemma ProteinAlias()
    ensures Normalize("Protein") == Some("protein")
  {
    NoClaimBeforeProtein();
    ProteinIsAlias();
    CleanProtein();
    AliasNormalizesToKey(NutrientRegistry, 15, "Protein");
  }

  lemma CleanProtein()
    ensures Lower("Protein") == "protein" && Trim("Protein") == "Protein"
  {
    TrimStartUnpadded("Protein");
  }

  /** "Energy", "Energy-kcal" and "energy_kCal" all name energy. */
  lemma EnergyAliases()
    ensures Normalize("Energy") == Some("energy")
    ensures Normalize("Energy-kcal") == Some("energy")
    ensures Normalize("energy_kCal") == Some("energy")
  {
    EnergyAlias("Energy");
    EnergyAlias("Energy-kcal");
    EnergyAlias("energy_kCal");
  }

  lemma EnergyAlias(a: string)
    requires a in {"Energy", "Energy-kcal", "energy_kCal"}
    ensures Normalize(a) == Some("energy")
  {
    assert a in NutrientRegistry[0].1.aliases;
    UnpaddedAlias(a);
    AliasNormalizesToKey(NutrientRegistry, 0, a);
  }

  lemma UnpaddedAlias(a: string)
    requires a in {"Energy", "Energy-kcal", "energy_kCal"}
    ensures Trim(a) == a
  {
    TrimStartUnpadded(a);
  }

  // ---------------------------------------------------------------------------
  // Unit conversion
  // ---------------------------------------------------------------------------

  /** Between two different known units the value is scaled by the ratio of their factors. */
  lemma ConvertScalesIn(table: map<string, real>, v: real, a: string, b: string)
    requires PositiveFactors(table)
    requires a != "" && b != "" && a != b && FactorIn(table, a).Some? && FactorIn(table, b).Some?
    ensures ConvertIn(table, Some(v), Some(a), Some(b)) == Some(Rescale(v, FactorIn(table, a).value, FactorIn(table, b).value))
  {
  }

  /** With positive factors, converting between two known units and back gives the value back. */
  lemma ConvertRoundTripIn(table: map<string, real>, v: real, a: string, b: string)
    requires PositiveFactors(table)
    requires a != "" && b != "" && FactorIn(table, a).Some? && FactorIn(table, b).Some?
    ensures ConvertIn(table, ConvertIn(table, Some(v), Some(a), Some(b)), Some(b), Some(a)) == Some(v)
  {
    if a != b {
      var fa := FactorIn(table, a).value;
      var fb := FactorIn(table, b).value;
      ConvertScalesIn(table, v, a, b);
      ConvertScalesIn(table, Rescale(v, fa, fb), b, a);
      ScaleBack(v, fa, fb);
    }
  }

  /** Converting between two known units and back gives the value back, in exact arithmetic. */
  lemma ConvertRoundTrip(v: real, a: string, b: string)
    requires a != "" && b != "" && FactorOf(a).Some? && FactorOf(b).Some?
    ensures ConvertNutrientValue(ConvertNutrientValue(Some(v), Some(a), Some(b)), Some(b), Some(a)) == Some(v)
  {
    BaseConversionsPositive();
    ConvertRoundTripIn(BaseConversions, v, a, b);
  }

  lemma ScaleBack(v: real, fa: real, fb: real)
    requires fa > 0.0 && fb > 0.0
    ensures Rescale(Rescale(v, fa, fb), fb, fa) == v
  {
    var w := v * fa / fb;
    assert w * fb == v * fa;
  }

  /** Between two different known units of the conversion table the value is rescaled by their factors. */
  lemma ConvertScales(v: real, a: string, b: string)
    requires a != "" && b != "" && a != b && FactorOf(a).Some? && FactorOf(b).Some?
    ensures ConvertNutrientValue(Some(v), Some(a), Some(b)) == Some(Rescale(v, FactorOf(a).value, FactorOf(b).value))
  {
    BaseConversionsPositive();
    ConvertScalesIn(BaseConversions, v, a, b);
  }

  /** A unit already lower-case and unpadded is looked up as written. */
  lemma FactorOfEntry(u: string, f: real)
    requires Trim(Lower(u)) == u && u in BaseConversions && BaseConversions[u] == f
    ensures FactorOf(u) == Some(f)
  {
  }

  /** The conversion table's entries for grams, kilograms, milligrams, millilitres and litres. */
  lemma UnitEntries()
    ensures "g" in BaseConversions && BaseConversions["g"] == 1.0
    ensures "kg" in BaseConversions && BaseConversions["kg"] == 1000.0
    ensures "mg" in BaseConversions && BaseConversions["mg"] == 0.001
    ensures "ml" in BaseConversions && BaseConversions["ml"] == 1.0
    ensures "l" in BaseConversions && BaseConversions["l"] == 1000.0
  {
  }

  lemma GramFactor()
    ensures FactorOf("g") == Some(1.0)
  {
    CleanWord("g");
    UnitEntries();
    FactorOfEntry("g", 1.0);
  }

  lemma KilogramFactor()
    ensures FactorOf("kg") == Some(1000.0)
  {
    CleanWord("kg");
    UnitEntries();
    FactorOfEntry("kg", 1000.0);
  }

  lemma MilligramFactor()
    ensures FactorOf("mg") == Some(0.001)
  {
    CleanWord("mg");
    UnitEntries();
    FactorOfEntry("mg", 0.001);
  }

  lemma MillilitreFactor()
    ensures FactorOf("ml") == Some(1.0)
  {
    CleanWord("ml");
    UnitEntries();
    FactorOfEntry("ml", 1.0);
  }

  lemma LitreFactor()
    ensures FactorOf("l") == Some(1000.0)
  {
    CleanWord("l");
    UnitEntries();
    FactorOfEntry("l", 1000.0);
  }

  lemma FactorsOfGrams()
    ensures FactorOf("g") == Some(1.0) && FactorOf("kg") == Some(1000.0) && FactorOf("mg") == Some(0.001)
  {
    GramFactor();
    KilogramFactor();
    MilligramFactor();
  }

  lemma FactorsOfVolumes()
    ensures FactorOf("ml") == Some(1.0) && FactorOf("l") == Some(1000.0)
  {
    MillilitreFactor();
    LitreFactor();
  }

  /** Between two different units with known factors, the converter rescales by those factors. */
  lemma ConvertByFactors(v: real, a: string, b: string, fa: real, fb: real)
    requires a != "" && b != "" && a != b && FactorOf(a) == Some(fa) && FactorOf(b) == Some(fb)
    ensures fb > 0.0 && ConvertNutrientValue(Some(v), Some(a), Some(b)) == Some(Rescale(v, fa, fb))
  {
    ConvertScales(v, a, b);
  }

  /** kg to g multiplies by 1000. */
  lemma KilogramsToGrams(v: real)
    ensures ConvertNutrientValue(Some(v), Some("kg"), Some("g")) == Some(Rescale(v, 1000.0, 1.0))
  {
    KilogramFactor();
    GramFactor();
    ConvertByFactors(v, "kg", "g", 1000.0, 1.0);
  }

  /** mg to g multiplies by 0.001. */
  lemma MilligramsToGrams(v: real)
    ensures ConvertNutrientValue(Some(v), Some("mg"), Some("g")) == Some(Rescale(v, 0.001, 1.0))
  {
    MilligramFactor();
    GramFactor();
    ConvertByFactors(v, "mg", "g", 0.001, 1.0);
  }

  /** Mass and volume share one table: g to ml keeps the value only because both factors are 1. */
  lemma GramsToMillilitres(v: real)
    ensures ConvertNutrientValue(Some(v), Some("g"), Some("ml")) == Some(Rescale(v, 1.0, 1.0))
  {
    GramFactor();
    MillilitreFactor();
    ConvertByFactors(v, "g", "ml", 1.0, 1.0);
  }

  /** With no separation of mass and volume, g to l divides by 1000. */
  lemma GramsToLitres(v: real)
    ensures ConvertNutrientValue(Some(v), Some("g"), Some("l")) == Some(Rescale(v, 1.0, 1000.0))
  {
    GramFactor();
    LitreFactor();
    ConvertByFactors(v, "g", "l", 1.0, 1000.0);
  }

  // ---------------------------------------------------------------------------
  // The clinical lookup on a sample record
  // ---------------------------------------------------------------------------

  /** A metrics record shaped like the clinical calculator's output. */
  const SampleMetrics: Metrics := map[
    "nutrients" := Record(map[
      "carbohydrate" := Record(map[
        "total" := Record(map["recommended" := Num(300.0)]),
        "fiber" := Record(map["total" := Record(map["recommended" := Num(38.0)]), "soluble" := Record(map["recommended" := Num(5.0)])]),
        "sugar" := Record(map["total" := Record(map["recommended" := Num(50.0)]), "added" := Record(map["recommended" := Num(25.0)])])
      ]),
      "protein" := Record(map["total" := Record(map["recommended" := Num(150.0)])]),
      "fat" := Record(map["total" := Record(map["recommended" := Num(100.0)])])
    ])
  ]

  lemma SplitThree(a: string, b: string, c: string)
    requires '.' !in a && '.' !in b && '.' !in c
    ensures Split(a + ['.'] + (b + ['.'] + c), '.') == [a, b, c]
  {
    SplitCons(a, '.', b + ['.'] + c);
    SplitCons(b, '.', c);
  }

  lemma SplitFour(a: string, b: string, c: string, d: string)
    requires '.' !in a && '.' !in b && '.' !in c && '.' !in d
    ensures Split(a + ['.'] + (b + ['.'] + (c + ['.'] + d)), '.') == [a, b, c, d]
  {
    SplitCons(a, '.', b + ['.'] + (c + ['.'] + d));
    SplitThree(b, c, d);
  }

  lemma NoDots()
    ensures '.' !in "nutrients" && '.' !in "carbohydrate" && '.' !in "total"
    ensures '.' !in "fiber" && '.' !in "soluble" && '.' !in "sugar" && '.' !in "added"
    ensures '.' !in "protein"
  {
  }

  /** Carbohydrate's path leads to 300 in the sample record. */
  lemma ClinicalCarbohydrate()
    ensures ClinicalValue(SampleMetrics, "carbohydrate") == Some(300.0)
  {
    CarbohydratePath();
    CarbohydrateWalk();
  }

  lemma LookupSolubleFiber()
    ensures Lookup("fiber_soluble") == Some(NutrientRegistry[4].1)
  {
    forall j | 0 <= j < 4 ensures NutrientRegistry[j].0 != "fiber_soluble" {
    }
    LookupFirst(NutrientRegistry, 4, "fiber_soluble");
  }

  /** Soluble fiber's four-segment path leads to 5 in the sample record. */
  lemma ClinicalSolubleFiber()
    ensures ClinicalValue(SampleMetrics, "fiber_soluble") == Some(5.0)
  {
    SolubleFiberPath();
    SolubleFiberWalk();
  }

  lemma LookupAddedSugar()
    ensures Lookup("sugar_added") == Some(NutrientRegistry[7].1)
  {
    forall j | 0 <= j < 7 ensures NutrientRegistry[j].0 != "sugar_added" {
    }
    LookupFirst(NutrientRegistry, 7, "sugar_added");
  }

  /** Added sugar's path leads to 25 in the sample record. */
  lemma ClinicalAddedSugar()
    ensures ClinicalValue(SampleMetrics, "sugar_added") == Some(25.0)
  {
    AddedSugarPath();
    AddedSugarWalk();
  }

  /** Energy's path is "tee": its baseline is the record's total energy expenditure. */
  lemma ClinicalEnergyIsTee(metrics: Metrics)
    ensures ClinicalValue(metrics, "energy") == Tee(metrics)
  {
    LookupFirst(NutrientRegistry, 0, "energy");
  }

  /** A missing segment anywhere on the path gives no baseline rather than an error. */
  lemma ClinicalMissingSegment(metrics: Metrics)
    requires "nutrients" !in metrics
    ensures ClinicalValue(metrics, "carbohydrate") == None
  {
    CarbohydratePath();
  }

  lemma CarbohydratePathText()
    ensures NutrientRegistry[1].1.clinicalPath == "nutrients" + ['.'] + ("carbohydrate" + ['.'] + "total")
  {
    CarbohydratePathTextAt();
    CarbohydratePathTextEntry();
  }

  lemma CarbohydratePathTextAt()
    ensures NutrientRegistry[1] == CarbohydrateGroup[0]
  {
  }

  lemma CarbohydratePathTextEntry()
    ensures CarbohydrateGroup[0].1.clinicalPath == "nutrients" + ['.'] + ("carbohydrate" + ['.'] + "total")
  {
  }

  lemma CarbohydratePath()
    ensures Lookup("carbohydrate").Some?
    ensures Split(Lookup("carbohydrate").value.clinicalPath, '.') == ["nutrients", "carbohydrate", "total"]
  {
    LookupCarbohydrate();
    CarbohydratePathText();
    NoDots();
    SplitThree("nutrients", "carbohydrate", "total");
  }

  lemma CarbohydrateWalk()
    ensures Recommended(Walk(Record(SampleMetrics), ["nutrients", "carbohydrate", "total"])) == Some(300.0)
  {
  }

  lemma SolubleFiberPathText()
    ensures NutrientRegistry[4].1.clinicalPath == "nutrients" + ['.'] + ("carbohydrate" + ['.'] + ("fiber" + ['.'] + "soluble"))
  {
    SolubleFiberPathTextAt();
    SolubleFiberPathTextEntry();
  }

  lemma SolubleFiberPathTextAt()
    ensures NutrientRegistry[4] == CarbohydrateGroup[3]
  {
  }

  lemma SolubleFiberPathTextEntry()
    ensures CarbohydrateGroup[3].1.clinicalPath == "nutrients" + ['.'] + ("carbohydrate" + ['.'] + ("fiber" + ['.'] + "soluble"))
  {
  }

  lemma SolubleFiberPath()
    ensures Lookup("fiber_soluble").Some?
    ensures Split(Lookup("fiber_soluble").value.clinicalPath, '.') == ["nutrients", "carbohydrate", "fiber", "soluble"]
  {
    LookupSolubleFiber();
    SolubleFiberPathText();
    NoDots();
    SplitFour("nutrients", "carbohydrate", "fiber", "soluble");
  }

  lemma SolubleFiberWalk()
    ensures Recommended(Walk(Record(SampleMetrics), ["nutrients", "carbohydrate", "fiber", "soluble"])) == Some(5.0)
  {
  }

  lemma AddedSugarPathText()
    ensures NutrientRegistry[7].1.clinicalPath == "nutrients" + ['.'] + ("carbohydrate" + ['.'] + ("sugar" + ['.'] + "added"))
  {
    AddedSugarPathTextAt();
    AddedSugarPathTextEntry();
  }

  lemma AddedSugarPathTextAt()
    ensures NutrientRegistry[7] == CarbohydrateGroup[6]
  {
  }

  lemma AddedSugarPathTextEntry()
    ensures CarbohydrateGroup[6].1.clinicalPath == "nutrients" + ['.'] + ("carbohydrate" + ['.'] + ("sugar" + ['.'] + "added"))
  {
  }

  lemma AddedSugarPath()
    ensures Lookup("sugar_added").Some?
    ensures Split(Lookup("sugar_added").value.clinicalPath, '.') == ["nutrients", "carbohydrate", "sugar", "added"]
  {
    LookupAddedSugar();
    AddedSugarPathText();
    NoDots();
    SplitFour("nutrients", "carbohydrate", "sugar", "added");
  }

  lemma AddedSugarWalk()
    ensures Recommended(Walk(Record(SampleMetrics), ["nutrients", "carbohydrate", "sugar", "added"])) == Some(25.0)
  {
  }

  /** Fiber's four-segment path leads to 38 in the sample record. */
  lemma ClinicalFiber()
    ensures ClinicalValue(SampleMetrics, "fiber") == Some(38.0)
  {
    FiberPath();
    FiberWalk();
  }

  lemma FiberPathText()
    ensures NutrientRegistry[3].1.clinicalPath == "nutrients" + ['.'] + ("carbohydrate" + ['.'] + ("fiber" + ['.'] + "total"))
  {
    FiberPathTextAt();
    FiberPathTextEntry();
  }

  lemma FiberPathTextAt()
    ensures NutrientRegistry[3] == CarbohydrateGroup[2]
  {
  }

  lemma FiberPathTextEntry()
    ensures CarbohydrateGroup[2].1.clinicalPath == "nutrients" + ['.'] + ("carbohydrate" + ['.'] + ("fiber" + ['.'] + "total"))
  {
  }

  lemma FiberPath()
    ensures Lookup("fiber").Some?
    ensures Split(Lookup("fiber").value.clinicalPath, '.') == ["nutrients", "carbohydrate", "fiber", "total"]
  {
    LookupFiber();
    FiberPathText();
    NoDots();
    SplitFour("nutrients", "carbohydrate", "fiber", "total");
  }

  lemma FiberWalk()
    ensures Recommended(Walk(Record(SampleMetrics), ["nutrients", "carbohydrate", "fiber", "total"])) == Some(38.0)
  {
  }

  /** Protein's path leads to 150 in the sample record. */
  lemma ClinicalProtein()
    ensures ClinicalValue(SampleMetrics, "protein") == Some(150.0)
  {
    ProteinPath();
    ProteinWalk();
  }

  lemma ProteinPathText()
    ensures NutrientRegistry[15].1.clinicalPath == "nutrients" + ['.'] + ("protein" + ['.'] + "total")
  {
    ProteinPathTextAt();
    ProteinPathTextEntry();
  }

  lemma ProteinPathTextAt()
    ensures NutrientRegistry[15] == ProteinGroup[0]
  {
  }

  lemma ProteinPathTextEntry()
    ensures ProteinGroup[0].1.clinicalPath == "nutrients" + ['.'] + ("protein" + ['.'] + "total")
  {
  }

  lemma ProteinPath()
    ensures Lookup("protein").Some?
    ensures Split(Lookup("protein").value.clinicalPath, '.') == ["nutrients", "protein", "total"]
  {
    LookupProtein();
    ProteinPathText();
    NoDots();
    SplitThree("nutrients", "protein", "total");
  }

  lemma ProteinWalk()
    ensures Recommended(Walk(Record(SampleMetrics), ["nutrients", "protein", "total"])) == Some(150.0)
  {
  }
}
