/**
 * The nutrition-goal hook: a per-user overlay of goals on top of the
 * clinical baselines, with a parent/children hierarchy derived from the
 * registry, a five-rule validation, and an upward propagation that raises
 * ancestor targets so that a child never exceeds its parent.
 */
module Goals {
  import opened Wrappers
  import opened Registry

  /** A user goal; each field may be absent. */
  datatype Goal = Goal(target: Option<real>, min: Option<real>, max: Option<real>)

  const EmptyGoal := Goal(None, None, None)

  // ---------------------------------------------------------------------------
  // Hierarchy derived from the registry
  // ---------------------------------------------------------------------------

  /** `if (meta.parent)`: the entry names a parent (a non-empty string). */
  predicate HasParent(e: Entry)
  {
    e.1.parent.Some? && e.1.parent.value != ""
  }

  /** `PARENT_MAP` after the `forEach` over `table`: child key to parent key. */
  function ParentMapOf(table: seq<Entry>): map<string, string>
  {
    if table == [] then map[]
    else
      var m := ParentMapOf(table[..|table| - 1]);
      var e := table[|table| - 1];
      if HasParent(e) then m[e.0 := e.1.parent.value] else m
  }

  /** `HIERARCHY` after the `forEach` over `table`: parent key to its children, appended in table order. */
  function HierarchyOf(table: seq<Entry>): map<string, seq<string>>
  {
    if table == [] then map[]
    else
      var h := HierarchyOf(table[..|table| - 1]);
      var e := table[|table| - 1];
      if HasParent(e) then
        var p := e.1.parent.value;
        h[p := (if p in h then h[p] else []) + [e.0]]
      else h
  }

  /** Reference definition: the keys of the entries of `table` naming `p` as parent, in table order. */
  function ChildrenOf(table: seq<Entry>, p: string): (r: seq<string>)
    ensures |r| <= |table|
  {
    if table == [] then []
    else (if HasParent(table[0]) && table[0].1.parent.value == p then [table[0].0] else [])
         + ChildrenOf(table[1..], p)
  }

  const ParentMap: map<string, string> := ParentMapOf(NutrientRegistry)
  const Hierarchy: map<string, seq<string>> := HierarchyOf(NutrientRegistry)

  /** The `forEach` that fills `PARENT_MAP` and `HIERARCHY`, one entry at a time. */
  method BuildHierarchy(table: seq<Entry>) returns (parentMap: map<string, string>, hierarchy: map<string, seq<string>>)
    ensures parentMap == ParentMapOf(table)
    ensures hierarchy == HierarchyOf(table)
  {
    parentMap := map[];
    hierarchy := map[];
    var i := 0;
    while i < |table|
      invariant 0 <= i <= |table|
      invariant parentMap == ParentMapOf(table[..i])
      invariant hierarchy == HierarchyOf(table[..i])
    {
      var (key, meta) := table[i];
      assert table[..i + 1][..i] == table[..i];
      if meta.parent.Some? && meta.parent.value != "" {
        var parent := meta.parent.value;
        parentMap := parentMap[key := parent];
        if parent !in hierarchy {
          hierarchy := hierarchy[parent := []];
        }
        hierarchy := hierarchy[parent := hierarchy[parent] + [key]];
      }
      i := i + 1;
    }
    assert table[..i] == table;
  }

  lemma {:induction false} ChildrenOfAppend(table: seq<Entry>, e: Entry, p: string)
    ensures ChildrenOf(table + [e], p)
            == ChildrenOf(table, p) + (if HasParent(e) && e.1.parent.value == p then [e.0] else [])
    decreases |table|
  {
    if table == [] {
      assert [e][1..] == [];
    } else {
      assert (table + [e])[1..] == table[1..] + [e];
      ChildrenOfAppend(table[1..], e, p);
    }
  }

  /** `HIERARCHY[p]` lists exactly the children declaring `p`, in registry order, and exists iff there is one. */
  lemma {:induction false} HierarchyIsChildren(table: seq<Entry>, p: string)
    ensures p in HierarchyOf(table) <==> ChildrenOf(table, p) != []
    ensures p in HierarchyOf(table) ==> HierarchyOf(table)[p] == ChildrenOf(table, p)
    decreases |table|
  {
    if table != [] {
      var front := table[..|table| - 1];
      var e := table[|table| - 1];
      assert table == front + [e];
      HierarchyIsChildren(front, p);
      ChildrenOfAppend(front, e, p);
    }
  }

  /** No two entries share a key. */
  predicate KeysDistinct(table: seq<Entry>)
  {
    forall i, j :: 0 <= i < j < |table| ==> table[i].0 != table[j].0
  }

  /** With distinct keys, `PARENT_MAP[c] == p` iff entry `c` declares parent `p`. */
  lemma {:induction false} ParentMapIsDeclaredParent(table: seq<Entry>, c: string)
    requires KeysDistinct(table)
    ensures c in ParentMapOf(table) <==> exists i :: 0 <= i < |table| && table[i].0 == c && HasParent(table[i])
    ensures forall i :: 0 <= i < |table| && table[i].0 == c && HasParent(table[i])
                        ==> ParentMapOf(table)[c] == table[i].1.parent.value
    decreases |table|
  {
    if table != [] {
      var front := table[..|table| - 1];
      var e := table[|table| - 1];
      assert forall i :: 0 <= i < |front| ==> front[i] == table[i];
      ParentMapIsDeclaredParent(front, c);
      if c in ParentMapOf(table) && !(e.0 == c && HasParent(e)) {
        var i :| 0 <= i < |front| && front[i].0 == c && HasParent(front[i]);
        assert table[i] == front[i];
      }
    }
  }

  // ---------------------------------------------------------------------------
  // Validation
  // ---------------------------------------------------------------------------

  /** The message `validateGoal` returns, with the figures it quotes. */
  datatype ValidationError =
    | MinAboveMax
    | TargetBelowMin
    | TargetAboveMax
    | ExceedsParent(parent: string, parentTarget: real)
    | BelowChild(child: string, childTarget: real)

  /** The custom target stored for `k`, if any (`currentGoals[k]?.target`). */
  function CustomTarget(goals: map<string, Goal>, k: string): Option<real>
  {
    if k in goals then goals[k].target else None
  }

  /** The parent `PARENT_MAP[key]` when it is truthy. */
  function ParentOf(parentMap: map<string, string>, key: string): Option<string>
  {
    if key in parentMap && parentMap[key] != "" then Some(parentMap[key]) else None
  }

  /** Rule 1 passes: no positive bound pair with the minimum above the maximum. */
  predicate MinMaxConsistent(g: Goal)
  {
    g.min.None? || g.max.None? || g.min.value <= g.max.value || (g.min.value <= 0.0 && g.max.value <= 0.0)
  }

  /** Rule 2 passes: a positive target is at least the minimum. */
  predicate TargetAtLeastMin(g: Goal)
  {
    g.target.Some? && g.min.Some? && g.target.value > 0.0 ==> g.min.value <= g.target.value
  }

  /** Rule 3 passes: the target is at most a positive maximum. */
  predicate TargetAtMostMax(g: Goal)
  {
    g.target.Some? && g.max.Some? && g.max.value > 0.0 ==> g.target.value <= g.max.value
  }

  /**
   * The local rules (1-3) of `validateGoal`, first failure wins: each error is
   * reported exactly when its rule fails and every earlier rule passes.
   */
  function LocalCheck(g: Goal): (r: Option<ValidationError>)
    ensures r.None? <==> MinMaxConsistent(g) && TargetAtLeastMin(g) && TargetAtMostMax(g)
    ensures r == Some(MinAboveMax) <==> !MinMaxConsistent(g)
    ensures r == Some(TargetBelowMin) <==> MinMaxConsistent(g) && !TargetAtLeastMin(g)
    ensures r == Some(TargetAboveMax) <==> MinMaxConsistent(g) && TargetAtLeastMin(g) && !TargetAtMostMax(g)
  {
    if g.min.Some? && g.max.Some? && g.min.value > g.max.value && (g.min.value > 0.0 || g.max.value > 0.0) then
      Some(MinAboveMax)
    else if g.target.Some? && g.min.Some? && g.target.value < g.min.value && g.target.value > 0.0 then
      Some(TargetBelowMin)
    else if g.target.Some? && g.max.Some? && g.target.value > g.max.value && g.max.value > 0.0 then
      Some(TargetAboveMax)
    else None
  }

  /** Rule 4 passes: no parent with a custom target below the new target. */
  predicate WithinParent(parentMap: map<string, string>, key: string, g: Goal, current: map<string, Goal>)
  {
    var parent := ParentOf(parentMap, key);
    (parent.Some? && CustomTarget(current, parent.value).Some? && g.target.Some?) ==>
      g.target.value <= CustomTarget(current, parent.value).value
  }

  /** The first child, in `children` order, whose custom target exceeds `t`. */
  function FirstChildAbove(children: seq<string>, goals: map<string, Goal>, t: real): (r: Option<(string, real)>)
    ensures r.Some? ==> exists i :: 0 <= i < |children| && children[i] == r.value.0
                          && CustomTarget(goals, children[i]) == Some(r.value.1) && r.value.1 > t
                          && forall j :: 0 <= j < i ==> !(CustomTarget(goals, children[j]).Some?
                                                          && CustomTarget(goals, children[j]).value > t)
    ensures r.None? ==> forall c :: c in children && CustomTarget(goals, c).Some? ==> CustomTarget(goals, c).value <= t
  {
    if children == [] then None
    else
      var ct := CustomTarget(goals, children[0]);
      if ct.Some? && t < ct.value then Some((children[0], ct.value))
      else
        var r := FirstChildAbove(children[1..], goals, t);
        if r.Some? then
          var i :| 0 <= i < |children[1..]| && children[1..][i] == r.value.0
                   && CustomTarget(goals, children[1..][i]) == Some(r.value.1) && r.value.1 > t
                   && forall j :: 0 <= j < i ==> !(CustomTarget(goals, children[1..][j]).Some?
                                                   && CustomTarget(goals, children[1..][j]).value > t);
          assert children[i + 1] == r.value.0;
          r
        else r
  }

  /**
   * `validateGoal(key, newGoal, currentGoals)`: `None` when the goal is
   * acceptable, otherwise the first rule it breaks.
   */
  function ValidateGoal(parentMap: map<string, string>, hierarchy: map<string, seq<string>>,
                        key: string, g: Goal, current: map<string, Goal>): (r: Option<ValidationError>)
    ensures LocalCheck(g).Some? ==> r == LocalCheck(g)
    ensures LocalCheck(g).None? && !WithinParent(parentMap, key, g, current) ==> r.Some? && r.value.ExceedsParent?
    ensures r.Some? && r.value.ExceedsParent? ==>
              LocalCheck(g).None? && ParentOf(parentMap, key) == Some(r.value.parent)
              && CustomTarget(current, r.value.parent) == Some(r.value.parentTarget)
              && g.target.Some? && g.target.value > r.value.parentTarget
    ensures r.Some? && r.value.BelowChild? ==>
              LocalCheck(g).None? && WithinParent(parentMap, key, g, current)
              && key in hierarchy && r.value.child in hierarchy[key] && g.target.Some?
              && FirstChildAbove(hierarchy[key], current, g.target.value) == Some((r.value.child, r.value.childTarget))
              && CustomTarget(current, r.value.child) == Some(r.value.childTarget)
              && g.target.value < r.value.childTarget
    ensures (LocalCheck(g).None? && WithinParent(parentMap, key, g, current) && key in hierarchy && g.target.Some?
             && FirstChildAbove(hierarchy[key], current, g.target.value).Some?) ==> r.Some? && r.value.BelowChild?
    ensures r.None? ==> LocalCheck(g).None? && WithinParent(parentMap, key, g, current)
    ensures r.None? && g.target.Some? && key in hierarchy ==>
              forall c :: c in hierarchy[key] && CustomTarget(current, c).Some?
                          ==> CustomTarget(current, c).value <= g.target.value
  {
    var local := LocalCheck(g);
    if local.Some? then local
    else
      var parent := ParentOf(parentMap, key);
      if parent.Some? && CustomTarget(current, parent.value).Some? && g.target.Some?
         && g.target.value > CustomTarget(current, parent.value).value
      then Some(ExceedsParent(parent.value, CustomTarget(current, parent.value).value))
      else if key in hierarchy && g.target.Some? then
        match FirstChildAbove(hierarchy[key], current, g.target.value)
        case Some((c, ct)) => Some(BelowChild(c, ct))
        case None => None
      else None
  }

  // ---------------------------------------------------------------------------
  // Propagation
  // ---------------------------------------------------------------------------

  /** A toast the hook shows: the rejection message, or one upward raise. */
  datatype Notice =
    | Rejected(error: ValidationError)
    | Raised(parent: string, child: string, newTarget: real)

  /** The parents (values of the parent map) whose target is not yet `t`. */
  function Unsettled(parentMap: map<string, string>, goals: map<string, Goal>, t: real): set<string>
  {
    set k | k in parentMap.Values && CustomTarget(goals, k) != Some(t)
  }

  /**
   * The clinical baseline of each key, `getClinicalValue(metrics, key)`; the
   * walk only reads it, so it is taken as a function of the key.
   */
  type Baseline = string -> Option<real>

  /** The target the walk compares against: the custom one, else the clinical baseline. */
  function EffectiveTarget(baseline: Baseline, goals: map<string, Goal>, k: string): Option<real>
  {
    if CustomTarget(goals, k).Some? then CustomTarget(goals, k) else baseline(k)
  }

  /** The goal stored for `k`, or `{}` (`nextGoals[k] || {}`). */
  function GoalOrEmpty(goals: map<string, Goal>, k: string): Goal
  {
    if k in goals then goals[k] else EmptyGoal
  }

  /**
   * The `while` loop of `updateGoal` from `cur` upward, as a specification:
   * the new goals and the notices shown, in order.
   */
  function Propagate(parentMap: map<string, string>, baseline: Baseline, goals: map<string, Goal>,
                     cur: string, t: real): (r: (map<string, Goal>, seq<Notice>))
    requires CustomTarget(goals, cur) == Some(t)
    decreases Unsettled(parentMap, goals, t)
  {
    match ParentOf(parentMap, cur)
    case None => (goals, [])
    case Some(p) =>
      var pt := EffectiveTarget(baseline, goals, p);
      if pt.Some? && t > pt.value then
        var next := goals[p := GoalOrEmpty(goals, p).(target := Some(t))];
        assert Unsettled(parentMap, next, t) < Unsettled(parentMap, goals, t) by {
          assert p in parentMap.Values && p in Unsettled(parentMap, goals, t);
          assert p !in Unsettled(parentMap, next, t);
        }
        var rest := Propagate(parentMap, baseline, next, p, t);
        (rest.0, [Raised(p, cur, t)] + rest.1)
      else (goals, [])
  }

  /** One raising step of the walk: the parent of `cur` gets target `t`, and the walk continues from it. */
  lemma PropagateRaises(parentMap: map<string, string>, baseline: Baseline, goals: map<string, Goal>,
                        cur: string, t: real, p: string)
    requires CustomTarget(goals, cur) == Some(t) && ParentOf(parentMap, cur) == Some(p)
    requires EffectiveTarget(baseline, goals, p).Some? && t > EffectiveTarget(baseline, goals, p).value
    ensures var next := goals[p := GoalOrEmpty(goals, p).(target := Some(t))];
            var rest := Propagate(parentMap, baseline, next, p, t);
            Propagate(parentMap, baseline, goals, cur, t) == (rest.0, [Raised(p, cur, t)] + rest.1)
            && Unsettled(parentMap, next, t) < Unsettled(parentMap, goals, t)
  {
    var next := goals[p := GoalOrEmpty(goals, p).(target := Some(t))];
    assert p in parentMap.Values && p in Unsettled(parentMap, goals, t);
    assert p !in Unsettled(parentMap, next, t);
  }

  /** The walk stops at `cur` when its parent's effective target is absent or at least `t`. */
  lemma PropagateStops(parentMap: map<string, string>, baseline: Baseline, goals: map<string, Goal>,
                       cur: string, t: real, p: string)
    requires CustomTarget(goals, cur) == Some(t) && ParentOf(parentMap, cur) == Some(p)
    requires !(EffectiveTarget(baseline, goals, p).Some? && t > EffectiveTarget(baseline, goals, p).value)
    ensures Propagate(parentMap, baseline, goals, cur, t) == (goals, [])
  {
  }

  /** What an accepted `updateGoal(key, newGoal)` leaves: the goals and the notices. */
  function AcceptedUpdate(parentMap: map<string, string>, baseline: Baseline, goals: map<string, Goal>,
                          key: string, newGoal: Goal): (map<string, Goal>, seq<Notice>)
  {
    var next := goals[key := newGoal];
    if newGoal.target.None? then (next, [])
    else Propagate(parentMap, baseline, next, key, newGoal.target.value)
  }

  /** The keys a sequence of notices reports as raised. */
  function RaisedKeys(ns: seq<Notice>): set<string>
  {
    set i | 0 <= i < |ns| && ns[i].Raised? :: ns[i].parent
  }

  /**
   * The notices of a walk form the parent chain from `cur`: each raises the
   * parent of the key the previous one raised, to target `t`, and no key is
   * raised twice.
   */
  lemma {:induction false} PropagateNoticesFollowChain(parentMap: map<string, string>, baseline: Baseline,
                                                      goals: map<string, Goal>, cur: string, t: real)
    requires CustomTarget(goals, cur) == Some(t)
    ensures var ns := Propagate(parentMap, baseline, goals, cur, t).1;
            (forall i :: 0 <= i < |ns| ==>
               ns[i].Raised? && ns[i].newTarget == t && ParentOf(parentMap, ns[i].child) == Some(ns[i].parent))
            && (ns != [] ==> ns[0].child == cur)
            && (forall i :: 0 <= i < |ns| - 1 ==> ns[i + 1].child == ns[i].parent)
            && (forall i, j :: 0 <= i < j < |ns| ==> ns[i].parent != ns[j].parent)
            && (forall i :: 0 <= i < |ns| ==> ns[i].parent in Unsettled(parentMap, goals, t))
    decreases Unsettled(parentMap, goals, t)
  {
    match ParentOf(parentMap, cur)
    case None =>
    case Some(p) =>
      var pt := EffectiveTarget(baseline, goals, p);
      if pt.Some? && t > pt.value {
        PropagateRaises(parentMap, baseline, goals, cur, t, p);
        var next := goals[p := GoalOrEmpty(goals, p).(target := Some(t))];
        PropagateNoticesFollowChain(parentMap, baseline, next, p, t);
        var rest := Propagate(parentMap, baseline, next, p, t).1;
        var ns := Propagate(parentMap, baseline, goals, cur, t).1;
        assert ns == [Raised(p, cur, t)] + rest;
        forall i | 0 <= i < |rest|
          ensures rest[i].parent != p && rest[i].parent in Unsettled(parentMap, goals, t)
        {
          assert p !in Unsettled(parentMap, next, t);
        }
      }
  }

  lemma RaisedKeysCons(n: Notice, ns: seq<Notice>)
    requires n.Raised?
    ensures RaisedKeys([n] + ns) == {n.parent} + RaisedKeys(ns)
  {
    var all := [n] + ns;
    forall k | k in RaisedKeys(all) ensures k in {n.parent} + RaisedKeys(ns) {
      var i :| 0 <= i < |all| && all[i].Raised? && all[i].parent == k;
      if i > 0 { assert ns[i - 1] == all[i]; }
    }
    forall k | k in RaisedKeys(ns) ensures k in RaisedKeys(all) {
      var i :| 0 <= i < |ns| && ns[i].Raised? && ns[i].parent == k;
      assert all[i + 1] == ns[i];
    }
    assert all[0] == n;
  }

  /** Keys the walk does not raise keep their goal, or stay absent. */
  lemma {:induction false} PropagateKeepsOthers(parentMap: map<string, string>, baseline: Baseline,
                                               goals: map<string, Goal>, cur: string, t: real, k: string)
    requires CustomTarget(goals, cur) == Some(t)
    ensures var r := Propagate(parentMap, baseline, goals, cur, t);
            k !in RaisedKeys(r.1) ==> (k in r.0 <==> k in goals) && (k in goals ==> r.0[k] == goals[k])
    decreases Unsettled(parentMap, goals, t)
  {
    match ParentOf(parentMap, cur)
    case None =>
    case Some(p) =>
      var pt := EffectiveTarget(baseline, goals, p);
      if pt.Some? && t > pt.value {
        PropagateRaises(parentMap, baseline, goals, cur, t, p);
        var next := goals[p := GoalOrEmpty(goals, p).(target := Some(t))];
        PropagateKeepsOthers(parentMap, baseline, next, p, t, k);
        var rest := Propagate(parentMap, baseline, next, p, t);
        RaisedKeysCons(Raised(p, cur, t), rest.1);
      }
  }

  /**
   * Each raised key keeps its min and max and gets target `t`; its effective
   * target before the update was below `t`.
   */
  lemma {:induction false} PropagateRaisedGoals(parentMap: map<string, string>, baseline: Baseline,
                                               goals: map<string, Goal>, cur: string, t: real, k: string)
    requires CustomTarget(goals, cur) == Some(t)
    ensures var r := Propagate(parentMap, baseline, goals, cur, t);
            k in RaisedKeys(r.1) ==>
              k in r.0 && r.0[k] == GoalOrEmpty(goals, k).(target := Some(t))
              && EffectiveTarget(baseline, goals, k).Some? && EffectiveTarget(baseline, goals, k).value < t
    decreases Unsettled(parentMap, goals, t)
  {
    match ParentOf(parentMap, cur)
    case None =>
    case Some(p) =>
      var pt := EffectiveTarget(baseline, goals, p);
      if pt.Some? && t > pt.value {
        PropagateRaises(parentMap, baseline, goals, cur, t, p);
        var next := goals[p := GoalOrEmpty(goals, p).(target := Some(t))];
        var rest := Propagate(parentMap, baseline, next, p, t);
        RaisedKeysCons(Raised(p, cur, t), rest.1);
        if k == p {
          PropagateNoticesFollowChain(parentMap, baseline, next, p, t);
          assert p !in Unsettled(parentMap, next, t);
          assert k !in RaisedKeys(rest.1);
          PropagateKeepsOthers(parentMap, baseline, next, p, t, k);
        } else {
          PropagateRaisedGoals(parentMap, baseline, next, p, t, k);
          assert GoalOrEmpty(next, k) == GoalOrEmpty(goals, k);
          assert CustomTarget(next, k) == CustomTarget(goals, k);
        }
      }
  }

  /** During propagation targets only increase: a key that had a target keeps one at least as large. */
  lemma PropagateOnlyRaises(parentMap: map<string, string>, baseline: Baseline,
                            goals: map<string, Goal>, cur: string, t: real, k: string)
    requires CustomTarget(goals, cur) == Some(t) && CustomTarget(goals, k).Some?
    ensures var after := Propagate(parentMap, baseline, goals, cur, t).0;
            CustomTarget(after, k).Some? && CustomTarget(after, k).value >= CustomTarget(goals, k).value
  {
    PropagateKeepsOthers(parentMap, baseline, goals, cur, t, k);
    PropagateRaisedGoals(parentMap, baseline, goals, cur, t, k);
  }

  /** The key the walk stopped at: the last raised key, or `cur` when none was raised. */
  function LastRaised(cur: string, ns: seq<Notice>): string
  {
    if ns != [] && ns[|ns| - 1].Raised? then ns[|ns| - 1].parent else cur
  }

  /**
   * Where the walk ends: at a root, or below a parent whose effective target
   * (custom, else clinical) is absent or already at least `t`.
   */
  lemma {:induction false} PropagateEndsSettled(parentMap: map<string, string>, baseline: Baseline,
                                               goals: map<string, Goal>, cur: string, t: real)
    requires CustomTarget(goals, cur) == Some(t)
    ensures var r := Propagate(parentMap, baseline, goals, cur, t);
            var last := LastRaised(cur, r.1);
            CustomTarget(r.0, last) == Some(t)
            && (ParentOf(parentMap, last).None?
                || var pt := EffectiveTarget(baseline, r.0, ParentOf(parentMap, last).value);
                   pt.None? || pt.value >= t)
    decreases Unsettled(parentMap, goals, t)
  {
    match ParentOf(parentMap, cur)
    case None =>
    case Some(p) =>
      var pt := EffectiveTarget(baseline, goals, p);
      if pt.Some? && t > pt.value {
        PropagateRaises(parentMap, baseline, goals, cur, t, p);
        var next := goals[p := GoalOrEmpty(goals, p).(target := Some(t))];
        PropagateEndsSettled(parentMap, baseline, next, p, t);
        PropagateNoticesFollowChain(parentMap, baseline, next, p, t);
        var rest := Propagate(parentMap, baseline, next, p, t).1;
        assert Propagate(parentMap, baseline, goals, cur, t).1 == [Raised(p, cur, t)] + rest;
        assert LastRaised(cur, [Raised(p, cur, t)] + rest) == LastRaised(p, rest);
      }
  }

  /**
   * Because validation rejects a target above the parent's custom target, an
   * accepted update never raises a direct parent that has a custom target.
   */
  lemma CustomParentIsNeverRaised(parentMap: map<string, string>, hierarchy: map<string, seq<string>>,
                                  baseline: Baseline, goals: map<string, Goal>, key: string, newGoal: Goal, p: string)
    requires ValidateGoal(parentMap, hierarchy, key, newGoal, goals).None?
    requires ParentOf(parentMap, key) == Some(p) && CustomTarget(goals, p).Some? && p != key
    ensures AcceptedUpdate(parentMap, baseline, goals, key, newGoal).1 == []
  {
    if newGoal.target.Some? {
      var next := goals[key := newGoal];
      assert CustomTarget(next, p) == CustomTarget(goals, p);
      PropagateStops(parentMap, baseline, next, key, newGoal.target.value, p);
    }
  }

  /** What the loop of `updateGoal` returns from a state: the notices so far, then the rest of the walk. */
  function WalkResult(parentMap: map<string, string>, baseline: Baseline, goals: map<string, Goal>,
                      notices: seq<Notice>, cur: string, t: real): (map<string, Goal>, seq<Notice>)
    requires CustomTarget(goals, cur) == Some(t)
  {
    var r := Propagate(parentMap, baseline, goals, cur, t);
    (r.0, notices + r.1)
  }

  /** Before the loop, what is left to do is the whole accepted update. */
  lemma WalkStarts(parentMap: map<string, string>, baseline: Baseline, goals: map<string, Goal>, key: string, newGoal: Goal)
    ensures newGoal.target.Some? ==>
      WalkResult(parentMap, baseline, goals[key := newGoal], [], key, newGoal.target.value)
      == AcceptedUpdate(parentMap, baseline, goals, key, newGoal)
  {
    if newGoal.target.Some? {
      var r := Propagate(parentMap, baseline, goals[key := newGoal], key, newGoal.target.value);
      assert [] + r.1 == r.1;
    }
  }

  /** A raising iteration moves one notice from the rest of the walk to the notices shown. */
  lemma WalkRaises(parentMap: map<string, string>, baseline: Baseline, goals: map<string, Goal>,
                   notices: seq<Notice>, cur: string, t: real, p: string)
    requires CustomTarget(goals, cur) == Some(t) && ParentOf(parentMap, cur) == Some(p)
    requires EffectiveTarget(baseline, goals, p).Some? && t > EffectiveTarget(baseline, goals, p).value
    ensures var next := goals[p := GoalOrEmpty(goals, p).(target := Some(t))];
            WalkResult(parentMap, baseline, next, notices + [Raised(p, cur, t)], p, t)
            == WalkResult(parentMap, baseline, goals, notices, cur, t)
            && Unsettled(parentMap, next, t) < Unsettled(parentMap, goals, t)
  {
    PropagateRaises(parentMap, baseline, goals, cur, t, p);
    var next := goals[p := GoalOrEmpty(goals, p).(target := Some(t))];
    var rest := Propagate(parentMap, baseline, next, p, t);
    assert notices + ([Raised(p, cur, t)] + rest.1) == (notices + [Raised(p, cur, t)]) + rest.1;
  }

  /** A stopping iteration leaves the goals and notices as they are. */
  lemma WalkStops(parentMap: map<string, string>, baseline: Baseline, goals: map<string, Goal>,
                  notices: seq<Notice>, cur: string, t: real, p: string)
    requires CustomTarget(goals, cur) == Some(t) && ParentOf(parentMap, cur) == Some(p)
    requires !(EffectiveTarget(baseline, goals, p).Some? && t > EffectiveTarget(baseline, goals, p).value)
    ensures WalkResult(parentMap, baseline, goals, notices, cur, t) == (goals, notices)
  {
    PropagateStops(parentMap, baseline, goals, cur, t, p);
    assert notices + [] == notices;
  }

  /** At a key with no parent the walk is over. */
  lemma WalkEndsAtRoot(parentMap: map<string, string>, baseline: Baseline, goals: map<string, Goal>,
                       notices: seq<Notice>, cur: string, t: real)
    requires CustomTarget(goals, cur) == Some(t) && ParentOf(parentMap, cur).None?
    ensures WalkResult(parentMap, baseline, goals, notices, cur, t) == (goals, notices)
  {
    assert notices + [] == notices;
  }

  /**
   * The goal state of `useNutritionGoals`: the overlay map, the metrics and the clinical baseline it
   * falls back on, and the snapshots handed to the persistence mutation.
   */
  class GoalBook {
    const metrics: Metrics
    const baseline: Baseline
    const parentMap: map<string, string>
    const hierarchy: map<string, seq<string>>
    var goals: map<string, Goal>
    var persisted: seq<map<string, Goal>>

    constructor (metrics: Metrics, initialGoals: map<string, Goal>)
      ensures this.metrics == metrics && goals == initialGoals && persisted == []
      ensures forall k :: baseline(k) == ClinicalValue(metrics, k)
      ensures parentMap == ParentMap && hierarchy == Hierarchy
    {
      this.metrics := metrics;
      baseline := k => ClinicalValue(metrics, k);
      parentMap := ParentMap;
      hierarchy := Hierarchy;
      goals := initialGoals;
      persisted := [];
    }

    /**
     * `updateGoal(key, newGoal)`: validate against the current goals; on
     * success store the goal, raise ancestors as needed, set and persist the
     * new goals.
     */
    method UpdateGoal(key: string, newGoal: Goal) returns (accepted: bool, notices: seq<Notice>)
      modifies this
      ensures var err := ValidateGoal(parentMap, hierarchy, key, newGoal, old(goals));
              accepted <==> err.None?
      ensures !accepted ==> goals == old(goals) && persisted == old(persisted)
                            && notices == [Rejected(ValidateGoal(parentMap, hierarchy, key, newGoal, old(goals)).value)]
      ensures accepted ==> (goals, notices) == AcceptedUpdate(parentMap, baseline, old(goals), key, newGoal)
                           && persisted == old(persisted) + [goals]
    {
      var error := ValidateGoal(parentMap, hierarchy, key, newGoal, goals);
      if error.Some? {
        return false, [Rejected(error.value)];
      }
      var nextGoals := goals[key := newGoal];
      notices := [];
      var currentKey := key;
      ghost var result := AcceptedUpdate(parentMap, baseline, goals, key, newGoal);
      WalkStarts(parentMap, baseline, goals, key, newGoal);
      while currentKey in parentMap && parentMap[currentKey] != ""
        invariant goals == old(goals) && persisted == old(persisted)
        invariant currentKey in nextGoals && CustomTarget(nextGoals, currentKey) == newGoal.target
        invariant newGoal.target.None? ==> nextGoals == goals[key := newGoal] && notices == []
        invariant newGoal.target.Some? ==> WalkResult(parentMap, baseline, nextGoals, notices, currentKey, newGoal.target.value) == result
        decreases if newGoal.target.None? then {} else Unsettled(parentMap, nextGoals, newGoal.target.value)
      {
        var parentKey := parentMap[currentKey];
        var childTarget := nextGoals[currentKey].target;
        if childTarget.None? {
          break;
        }
        var parentGoal := if parentKey in nextGoals then nextGoals[parentKey] else EmptyGoal;
        var currentParentTarget := parentGoal.target;
        if currentParentTarget.None? {
          currentParentTarget := baseline(parentKey);
        }
        if currentParentTarget.Some? && childTarget.value > currentParentTarget.value {
          WalkRaises(parentMap, baseline, nextGoals, notices, currentKey, childTarget.value, parentKey);
          nextGoals := nextGoals[parentKey := parentGoal.(target := childTarget)];
          notices := notices + [Raised(parentKey, currentKey, childTarget.value)];
          currentKey := parentKey;
        } else {
          WalkStops(parentMap, baseline, nextGoals, notices, currentKey, childTarget.value, parentKey);
          break;
        }
      }
      if newGoal.target.Some? && !(currentKey in parentMap && parentMap[currentKey] != "") {
        WalkEndsAtRoot(parentMap, baseline, nextGoals, notices, currentKey, newGoal.target.value);
      }
      goals := nextGoals;
      persisted := persisted + [nextGoals];
      accepted := true;
    }

    /**
     * `applyMacroRatios`: overwrite the four macro goals with bare targets,
     * without validation or propagation, then set and persist the goals.
     */
    method ApplyMacroRatios(energy: real, carbs: real, protein: real, fat: real)
      modifies this
      ensures goals == old(goals)["energy" := Goal(Some(energy), None, None)]
                                 ["carbohydrate" := Goal(Some(carbs), None, None)]
                                 ["protein" := Goal(Some(protein), None, None)]
                                 ["fat" := Goal(Some(fat), None, None)]
      ensures persisted == old(persisted) + [goals]
    {
      goals := goals["energy" := Goal(Some(energy), None, None)]
                    ["carbohydrate" := Goal(Some(carbs), None, None)]
                    ["protein" := Goal(Some(protein), None, None)]
                    ["fat" := Goal(Some(fat), None, None)];
      persisted := persisted + [goals];
    }
  }
}
