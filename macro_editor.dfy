/**
 * The macro-ratio editor: an energy goal and, for carbohydrate, protein and
 * fat, a gram amount and a share of the energy in percent. Editing one figure
 * re-derives the others (`syncMacros`); opening the editor derives the
 * starting figures from the goals and the clinical baseline.
 */
module MacroEditor {
  import opened Wrappers
  import opened Numeric
  import opened Registry
  import opened Goals

  datatype MacroField = Carbs | Protein | Fat

  /** A macro's grams and its percentage of the energy. */
  datatype MacroAmount = MacroAmount(g: real, pct: real)

  /** The editor's state. */
  datatype MacroState = MacroState(energy: real, carbs: MacroAmount, protein: MacroAmount, fat: MacroAmount)

  /** Which figure was edited: a gram amount, a percentage, or the energy. */
  datatype SyncBase = Grams | Percent | Energy

  /** The state the editor starts with before it is first opened. */
  const DefaultState: MacroState := MacroState(2000.0, MacroAmount(0.0, 50.0), MacroAmount(0.0, 20.0), MacroAmount(0.0, 30.0))

  function Of(s: MacroState, f: MacroField): MacroAmount
  {
    match f
    case Carbs => s.carbs
    case Protein => s.protein
    case Fat => s.fat
  }

  function With(s: MacroState, f: MacroField, m: MacroAmount): (r: MacroState)
    ensures Of(r, f) == m && r.energy == s.energy
    ensures forall h :: h != f ==> Of(r, h) == Of(s, h)
  {
    match f
    case Carbs => s.(carbs := m)
    case Protein => s.(protein := m)
    case Fat => s.(fat := m)
  }

  /** Kilocalories per gram: 9 for fat, 4 for carbohydrate and protein. */
  function KcalPerGram(f: MacroField): (r: real)
    ensures r > 0.0
  {
    if f == Fat then 9.0 else 4.0
  }

  /** The two fields other than `f`, in the order carbs, protein, fat. */
  function Others(f: MacroField): (r: (MacroField, MacroField))
    ensures r.0 != f && r.1 != f && r.0 != r.1
  {
    match f
    case Carbs => (Protein, Fat)
    case Protein => (Carbs, Fat)
    case Fat => (Carbs, Protein)
  }

  /** `Math.round(energy * (pct / 100) / kcal)`: the grams that supply `pct` percent of the energy. */
  function GramsFor(energy: real, pct: real, f: MacroField): real
  {
    MathRound(energy * (pct / 100.0) / KcalPerGram(f)) as real
  }

  /** `Math.round(g * kcal / energy * 100)`: the percentage of the energy that `g` grams supply. */
  function PctFor(g: real, f: MacroField, energy: real): real
    requires energy != 0.0
  {
    MathRound(g * KcalPerGram(f) / energy * 100.0) as real
  }

  /**
   * The new percentage of the first other field after `changed` was set to
   * `changedPct`: its old share of the old others' total applied to what is
   * left, or half of what is left (rounded down) when the old others were 0.
   */
  function FirstOtherPct(previous: MacroState, changed: MacroField, changedPct: real): real
  {
    var o0 := Others(changed).0;
    var o1 := Others(changed).1;
    var remaining := 100.0 - changedPct;
    var total := Of(previous, o0).pct + Of(previous, o1).pct;
    if total > 0.0 then ProportionalShare(Of(previous, o0).pct, total, remaining)
    else Floor(remaining / 2.0) as real
  }

  /** `Math.round(part / total * remaining)`. */
  function ProportionalShare(part: real, total: real, remaining: real): real
    requires total > 0.0
  {
    MathRound(part / total * remaining) as real
  }

  predicate IsWhole(x: real)
  {
    x.Floor as real == x
  }

  /**
   * With a whole percentage between 0 and 100 and no negative old share, the
   * first other field gets between 0 and what is left.
   */
  lemma FirstOtherWithinRemaining(previous: MacroState, changed: MacroField, changedPct: real)
    requires IsWhole(changedPct) && 0.0 <= changedPct <= 100.0
    requires Of(previous, Others(changed).0).pct >= 0.0 && Of(previous, Others(changed).1).pct >= 0.0
    ensures 0.0 <= FirstOtherPct(previous, changed, changedPct) <= 100.0 - changedPct
  {
    var o0 := Others(changed).0;
    var o1 := Others(changed).1;
    var remaining := 100.0 - changedPct;
    var a := Of(previous, o0).pct;
    var total := a + Of(previous, o1).pct;
    var n := 100 - changedPct.Floor;
    assert n as real == remaining;
    if total > 0.0 {
      ShareWithinRemaining(a, total, remaining);
    } else {
      var r := Floor(remaining / 2.0);
      assert FirstOtherPct(previous, changed, changedPct) == r as real;
      assert (r as real) <= remaining / 2.0 < (r as real) + 1.0;
      assert 0 <= r <= n;
    }
  }

  /** A share of at most the whole of a whole, non-negative remainder, rounded, stays within it. */
  lemma ShareWithinRemaining(part: real, total: real, remaining: real)
    requires 0.0 <= part <= total && total > 0.0 && IsWhole(remaining) && remaining >= 0.0
    ensures 0.0 <= ProportionalShare(part, total, remaining) <= remaining
  {
    var s := part / total;
    RatioWithinOne(part, total);
    RoundedShareWithin(s, remaining);
    ShareIsRoundedScale(part, total, remaining, s);
  }

  /** The share is the rounded scaling of the remainder by the ratio `s` of part to total. */
  lemma ShareIsRoundedScale(part: real, total: real, remaining: real, s: real)
    requires total > 0.0 && s == part / total
    ensures ProportionalShare(part, total, remaining) == MathRound(s * remaining) as real
  {
    assert ProportionalShare(part, total, remaining) == MathRound(part / total * remaining) as real;
    RoundOfEqual(s * remaining, part / total * remaining);
  }

  /** Rounding equal values gives equal results. */
  lemma RoundOfEqual(x: real, y: real)
    requires x == y
    ensures MathRound(x) == MathRound(y)
  {
  }

  /** A ratio between 0 and 1 of a whole, non-negative amount, rounded, stays between 0 and the amount. */
  lemma RoundedShareWithin(s: real, amount: real)
    requires 0.0 <= s <= 1.0 && IsWhole(amount) && amount >= 0.0
    ensures 0.0 <= MathRound(s * amount) as real <= amount
  {
    ScaledWithin(s, amount);
    RoundWithinWhole(s * amount, amount);
  }

  /** A part of a positive whole is between 0 and 1 of it. */
  lemma RatioWithinOne(part: real, total: real)
    requires 0.0 <= part <= total && total > 0.0
    ensures 0.0 <= part / total <= 1.0
  {
    var s := part / total;
    assert s * total == part;
    if s > 1.0 {
      MulMonotone(1.0, s, total);
      assert false;
    }
    if s < 0.0 {
      MulMonotone(s, 0.0, total);
      assert false;
    }
  }

  /** Scaling a non-negative amount by a ratio between 0 and 1 stays between 0 and the amount. */
  lemma ScaledWithin(s: real, amount: real)
    requires 0.0 <= s <= 1.0 && amount >= 0.0
    ensures 0.0 <= s * amount <= amount
  {
    MulMonotone(0.0, s, amount);
    MulMonotone(s, 1.0, amount);
  }

  /** Rounding a value between 0 and a whole bound stays between 0 and the bound. */
  lemma RoundWithinWhole(y: real, bound: real)
    requires 0.0 <= y <= bound && IsWhole(bound)
    ensures 0.0 <= MathRound(y) as real <= bound
  {
    var r := MathRound(y);
    var n := bound.Floor;
    assert r as real <= n as real + 0.5;
    assert r <= n;
  }

  lemma MulMonotone(x: real, y: real, c: real)
    requires x <= y && c >= 0.0
    ensures x * c <= y * c
  {
    assert y * c - x * c == (y - x) * c;
  }

  /**
   * The rebalancing step of a percentage edit: `changed` keeps its new
   * percentage, the first other field gets its share of what is left and the
   * second the rest; grams and energy are left as they are.
   */
  method Rebalance(values: MacroState, changed: MacroField, previous: MacroState) returns (next: MacroState)
    ensures next.energy == values.energy
    ensures forall f :: Of(next, f).g == Of(values, f).g
    ensures Of(next, changed).pct == Of(values, changed).pct
    ensures Of(next, Others(changed).0).pct == FirstOtherPct(previous, changed, Of(values, changed).pct)
    ensures next.carbs.pct + next.protein.pct + next.fat.pct == 100.0
    ensures
      && IsWhole(Of(values, changed).pct) && 0.0 <= Of(values, changed).pct <= 100.0
      && Of(previous, Others(changed).0).pct >= 0.0 && Of(previous, Others(changed).1).pct >= 0.0
      ==> forall f :: 0.0 <= Of(next, f).pct <= 100.0
  {
    next := values;
    var o0 := Others(changed).0;
    var o1 := Others(changed).1;
    var changedVal := Of(next, changed).pct;
    var remaining := 100.0 - changedVal;
    var currentOthersTotal := Of(previous, o0).pct + Of(previous, o1).pct;
    var first: real;
    if currentOthersTotal > 0.0 {
      first := ProportionalShare(Of(previous, o0).pct, currentOthersTotal, remaining);
    } else {
      first := Floor(remaining / 2.0) as real;
    }
    assert first == FirstOtherPct(previous, changed, changedVal);
    next := With(next, o0, MacroAmount(Of(next, o0).g, first));
    next := With(next, o1, MacroAmount(Of(next, o1).g, 100.0 - changedVal - Of(next, o0).pct));
    assert Of(next, o0).pct == first;
    assert Of(next, changed).pct + Of(next, o0).pct + Of(next, o1).pct == 100.0;
    assert next.carbs.pct + next.protein.pct + next.fat.pct == 100.0 by {
      match changed
      case Carbs =>
      case Protein =>
      case Fat =>
    }
    if IsWhole(changedVal) && 0.0 <= changedVal <= 100.0 && Of(previous, o0).pct >= 0.0 && Of(previous, o1).pct >= 0.0 {
      FirstOtherWithinRemaining(previous, changed, changedVal);
      forall f
        ensures 0.0 <= Of(next, f).pct <= 100.0
      {
        if f != changed && f != o0 {
          assert f == o1;
        }
      }
    }
  }

  /**
   * `syncMacros(base, values, changedField)`, with `previous` the state the
   * editor showed when the edit was made. The energy never changes. A gram
   * edit recomputes every percentage from the grams; a percentage or energy
   * edit recomputes every gram amount from the percentages, and a percentage
   * edit first rebalances the other two percentages so that the three add up
   * to 100, the second absorbing the rounding.
   */
  method SyncMacros(base: SyncBase, values: MacroState, changedField: Option<MacroField>, previous: MacroState)
    returns (next: MacroState)
    requires base == Grams ==> values.energy != 0.0
    ensures next.energy == values.energy
    ensures base == Grams ==>
      forall f :: Of(next, f).g == Of(values, f).g && Of(next, f).pct == PctFor(Of(values, f).g, f, values.energy)
    ensures base != Grams ==> forall f :: Of(next, f).g == GramsFor(values.energy, Of(next, f).pct, f)
    ensures base == Energy || (base == Percent && changedField.None?) ==>
      forall f :: Of(next, f).pct == Of(values, f).pct
    ensures base == Percent && changedField.Some? ==>
      var f := changedField.value;
      && Of(next, f).pct == Of(values, f).pct
      && Of(next, Others(f).0).pct == FirstOtherPct(previous, f, Of(values, f).pct)
      && next.carbs.pct + next.protein.pct + next.fat.pct == 100.0
    ensures
      && base == Percent && changedField.Some? && IsWhole(Of(values, changedField.value).pct)
      && 0.0 <= Of(values, changedField.value).pct <= 100.0
      && Of(previous, Others(changedField.value).0).pct >= 0.0
      && Of(previous, Others(changedField.value).1).pct >= 0.0
      ==> forall f :: 0.0 <= Of(next, f).pct <= 100.0
  {
    next := values;
    var energy := next.energy;
    if base == Energy || base == Percent {
      if base == Percent && changedField.Some? {
        next := Rebalance(next, changedField.value, previous);
      }
      ghost var rebalanced := next;
      next := next.(carbs := next.carbs.(g := GramsFor(energy, next.carbs.pct, Carbs)));
      next := next.(protein := next.protein.(g := GramsFor(energy, next.protein.pct, Protein)));
      next := next.(fat := next.fat.(g := GramsFor(energy, next.fat.pct, Fat)));
      assert forall f :: Of(next, f).pct == Of(rebalanced, f).pct;
    } else if base == Grams {
      next := next.(carbs := next.carbs.(pct := PctFor(next.carbs.g, Carbs, energy)));
      next := next.(protein := next.protein.(pct := PctFor(next.protein.g, Protein, energy)));
      next := next.(fat := next.fat.(pct := PctFor(next.fat.g, Fat, energy)));
    }
  }

  /**
   * Percent to grams and back: for a whole percentage and an energy above
   * 100 times the macro's kilocalories per gram, the rounded grams give the
   * same percentage back.
   */
  lemma PercentGramsRoundTrip(energy: real, pct: real, f: MacroField)
    requires IsWhole(pct) && energy > 100.0 * KcalPerGram(f)
    ensures PctFor(GramsFor(energy, pct, f), f, energy) == pct
  {
    var k := KcalPerGram(f);
    var g := GramsFor(energy, pct, f);
    assert -0.5 < g - energy * (pct / 100.0) / k <= 0.5;
    PercentError(energy, pct, k, g);
    NearWholeRounds(g * k / energy * 100.0, pct);
  }

  /** Grams within a half of the exact amount give a percentage within a half of `pct`. */
  lemma PercentError(energy: real, pct: real, k: real, g: real)
    requires k > 0.0 && energy > 100.0 * k
    requires -0.5 < g - energy * (pct / 100.0) / k <= 0.5
    ensures -0.5 < g * k / energy * 100.0 - pct < 0.5
  {
    var x := energy * (pct / 100.0) / k;
    RatioBelowOne(k, energy);
    ScaledErrorBound(g - x, k * 100.0 / energy);
    RescaleError(energy, pct, k, g);
  }

  /** Below-100 % ratio: `k * 100 / energy` lies strictly between 0 and 1 when `energy > 100 k`. */
  lemma RatioBelowOne(k: real, energy: real)
    requires k > 0.0 && energy > 100.0 * k
    ensures 0.0 < k * 100.0 / energy < 1.0
  {
    var c := k * 100.0 / energy;
    assert c * energy == k * 100.0;
    if c >= 1.0 {
      MulMonotone(1.0, c, energy);
      assert false;
    }
    if c <= 0.0 {
      MulMonotone(c, 0.0, energy);
      assert false;
    }
  }

  /** Converting grams back to percent scales the grams' rounding error by `k * 100 / energy`. */
  lemma RescaleError(energy: real, pct: real, k: real, g: real)
    requires energy > 0.0 && k > 0.0
    ensures g * k / energy * 100.0 - pct == (g - energy * (pct / 100.0) / k) * (k * 100.0 / energy)
  {
    var x := energy * (pct / 100.0) / k;
    assert x * k == energy * (pct / 100.0);
    assert x * k / energy == pct / 100.0;
    assert x * k / energy * 100.0 == pct;
    assert (g - x) * (k * 100.0 / energy) == g * k / energy * 100.0 - x * k / energy * 100.0;
  }

  /** A number less than a half away from a whole number rounds to it. */
  lemma NearWholeRounds(y: real, w: real)
    requires IsWhole(w) && -0.5 < y - w < 0.5
    ensures MathRound(y) as real == w
  {
    var r := MathRound(y);
    assert w - 1.0 < r as real < w + 1.0;
    assert r == w.Floor;
  }

  /** A rounding error of at most a half, shrunk by a factor below 1, stays below a half. */
  lemma ScaledErrorBound(e: real, c: real)
    requires -0.5 < e <= 0.5 && 0.0 < c < 1.0
    ensures -0.5 < e * c < 0.5
  {
    if e >= 0.0 {
      assert e * c <= e * 1.0;
    } else {
      assert (-e) * c <= (-e) * 1.0;
    }
  }

  // ---------------------------------------------------------------------------
  // Opening the editor
  // ---------------------------------------------------------------------------

  /** `goals[key]?.target`. */
  function GoalTarget(goals: map<string, Goal>, key: string): Option<real>
  {
    if key in goals then goals[key].target else None
  }

  /** The energy the editor opens with: the energy goal's target, else the metrics' TEE. */
  function OpeningEnergy(goals: map<string, Goal>, metrics: Metrics): Option<real>
  {
    OrElse(GoalTarget(goals, "energy"), Tee(metrics))
  }

  /** The grams a macro opens with: its goal's target, else its clinical baseline, else 0. */
  function OpeningGrams(goals: map<string, Goal>, metrics: Metrics, key: string): real
  {
    Coalesce(OrElse(GoalTarget(goals, key), ClinicalValue(metrics, key)), 0.0)
  }

  function FieldKey(f: MacroField): string
  {
    match f
    case Carbs => "carbohydrate"
    case Protein => "protein"
    case Fat => "fat"
  }

  /**
   * The state set when the editor opens: the opening grams of each macro with
   * the percentage of the opening energy they supply.
   */
  function InitialState(goals: map<string, Goal>, metrics: Metrics): (s: MacroState)
    requires OpeningEnergy(goals, metrics).Some? && OpeningEnergy(goals, metrics).value != 0.0
    ensures s.energy == OpeningEnergy(goals, metrics).value
    ensures forall f :: Of(s, f).g == OpeningGrams(goals, metrics, FieldKey(f))
  {
    var e := OpeningEnergy(goals, metrics).value;
    var c := OpeningGrams(goals, metrics, "carbohydrate");
    var p := OpeningGrams(goals, metrics, "protein");
    var f := OpeningGrams(goals, metrics, "fat");
    MacroState(e, MacroAmount(c, PctFor(c, Carbs, e)), MacroAmount(p, PctFor(p, Protein, e)), MacroAmount(f, PctFor(f, Fat, e)))
  }

  /**
   * The opening percentages are the ones a gram edit would compute, so
   * re-entering an opening gram amount changes nothing.
   */
  lemma InitialStateIsGramSynced(goals: map<string, Goal>, metrics: Metrics)
    requires OpeningEnergy(goals, metrics).Some? && OpeningEnergy(goals, metrics).value != 0.0
    ensures var s := InitialState(goals, metrics);
      forall f :: Of(s, f).pct == PctFor(Of(s, f).g, f, s.energy)
  {
    var s := InitialState(goals, metrics);
    forall f
      ensures Of(s, f).pct == PctFor(Of(s, f).g, f, s.energy)
    {
      match f
      case Carbs =>
      case Protein =>
      case Fat =>
    }
  }
}
