/**
 * Target resolution for a nutrient name: the user's own goal when it sets a
 * target, otherwise the clinical baseline from the DRI metrics.
 */
module ResolvedTargets {
  import opened Wrappers
  import opened Registry
  import opened Goals

  /** `customGoals?.[key]`: the user's goal for a key, if any. */
  function CustomGoal(customGoals: Option<map<string, Goal>>, key: string): (r: Option<Goal>)
    ensures r.Some? <==> customGoals.Some? && key in customGoals.value
  {
    if customGoals.Some? && key in customGoals.value then Some(customGoals.value[key]) else None
  }

  /** `customGoals?.[key]?.target`. */
  function CustomTarget(customGoals: Option<map<string, Goal>>, key: string): Option<real>
  {
    match CustomGoal(customGoals, key)
    case None => None
    case Some(g) => g.target
  }

  /**
   * `resolveTarget(name)`: nothing without metrics or for a name that does not
   * normalise; otherwise the custom target when one is set (0 included), else
   * the clinical baseline.
   */
  function ResolveTarget(metrics: Option<Metrics>, customGoals: Option<map<string, Goal>>, name: string): (r: Option<real>)
    ensures metrics.None? || Normalize(name).None? ==> r.None?
    ensures metrics.Some? && Normalize(name).Some? ==>
      var key := Normalize(name).value;
      && (CustomTarget(customGoals, key).Some? ==> r == CustomTarget(customGoals, key))
      && (CustomTarget(customGoals, key).None? ==> r == ClinicalValue(metrics.value, key))
  {
    if metrics.None? then None
    else match Normalize(name)
      case None => None
      case Some(key) =>
        var custom := CustomTarget(customGoals, key);
        if custom.Some? then custom else ClinicalValue(metrics.value, key)
  }

  /**
   * `resolveGoal(name)`: the target as custom ?? clinical, the bounds taken
   * from the custom goal alone.
   */
  function ResolveGoal(metrics: Option<Metrics>, customGoals: Option<map<string, Goal>>, name: string): (r: Option<Goal>)
    ensures r.Some? <==> metrics.Some? && Normalize(name).Some?
    ensures r.Some? ==>
      var custom := CustomGoal(customGoals, Normalize(name).value);
      && (custom.None? ==> r.value.min.None? && r.value.max.None?)
      && (custom.Some? ==> r.value.min == custom.value.min && r.value.max == custom.value.max)
  {
    if metrics.None? then None
    else match Normalize(name)
      case None => None
      case Some(key) =>
        var custom := CustomGoal(customGoals, key);
        Some(Goal(OrElse(CustomTarget(customGoals, key), ClinicalValue(metrics.value, key)),
                  if custom.Some? then custom.value.min else None,
                  if custom.Some? then custom.value.max else None))
  }

  /** The two resolvers agree: whenever a goal is resolved, its target is the resolved target. */
  lemma ResolversAgree(metrics: Option<Metrics>, customGoals: Option<map<string, Goal>>, name: string)
    ensures ResolveTarget(metrics, customGoals, name).Some? ==> ResolveGoal(metrics, customGoals, name).Some?
    ensures ResolveGoal(metrics, customGoals, name).Some? ==>
      ResolveGoal(metrics, customGoals, name).value.target == ResolveTarget(metrics, customGoals, name)
  {
  }
}
