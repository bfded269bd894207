# Leafy nutrient resolution and goal engine, in Dafny

This project models the part of the Leafy nutrition tracker that sits between the
database calls and the React user interface. That part:

- names nutrients;
- converts their units;
- scales them to a logged quantity;
- sums them per day;
- merges search results;
- resolves and validates nutrient goals.

Each part is stated as Dafny definitions, and properties of those definitions are proved.

- **Registry** (`registry.dfy`, `registry_facts.dfy`).
  - The canonical nutrient table is an ordered sequence of `(key, metadata)` entries, in declaration order.
  - The name normaliser does a first-match pass over keys and aliases, then a fixed-order substring fallback.
  - The unit converter uses one table of multiplicative factors and never fails.
  - The clinical-baseline lookup walks a dotted path through a metrics tree.
  - `RegistryFacts` holds the facts about the concrete table: parent chains, sample alias and unit examples, and the sample metrics of the registry check script.
- **Goal hierarchy** (`goals.dfy`).
  - The parent map and child lists are derived from the table.
  - Validation has five rules, and the first failure wins.
  - `GoalBook`, a class holding the goal overlay, runs the upward propagation loop of `updateGoal`.
  - The propagation is also stated as a recursive function. Termination, frame and notice properties are proved about it.
  - The walk reads the clinical baseline only through a function of the key (`Baseline`). `GoalBook` fixes it to `ClinicalValue(metrics, ·)` when it is built, so the propagation facts hold for any baseline.
- **Extraction and scaling** (`food_utils.dfy`, `log_foods.dfy`, `legacy_food.dfy`, `daily_nutrition.dfy`).
  - Covers unwrapping of database row shapes, extraction to registry keys and units, the per-100 g scaling factor, and rounding to hundredths.
  - Covers the per-item dispatch of both `logFoods` routers and the daily totals.
- **Search** (`foundation.ts` as `foundation.dfy`, both `search.ts` routers as `search.dfy`).
  - Foundation search scores, filters, stable-sorts and truncates.
  - A load-once cache and index is a class over an abstract file.
  - Both routers merge custom results first, then global results, then truncate.
- **Client derivations** (`resolved_targets.dfy`, `food_nutrients.dfy`, `macro_editor.dfy`).
  - Target resolution.
  - The per-serving nutrient list, macro split and calories.
  - The macro percentage rebalancer and the editor's opening state.

Numbers are exact reals. `Math.round`, `Math.floor` and `Number(x.toFixed(2))` are rounding functions over reals (`numeric.dfy`).
Lower-casing and trimming cover ASCII only (`text.dfy`).
Database, file and network access become function parameters or fields that hold the data they would return.

## Model

| member | source | states |
|---|---|---|
| Registry.LookupIn | packages/api/src/lib/nutrients/registry.ts:815-816 | a key's metadata is found exactly when the key is in the table, and it is that entry's metadata |
| Registry.FirstClaimIndex | packages/api/src/lib/nutrients/registry.ts:714-721 | the index found is the first entry whose key or lower-cased alias equals the name; none is found only when no entry claims it |
| Registry.Fuzzy | packages/api/src/lib/nutrients/registry.ts:724-740 | the substring fallback only answers one of fiber, protein, fat, sugar, carbohydrate, and only when the name contains that word |
| Registry.FuzzyKeysAreKeys | packages/api/src/lib/nutrients/registry.ts:724-740 | each of the five fallback answers is a key of the table |
| Registry.NormalizeYieldsKey | packages/api/src/lib/nutrients/registry.ts:708-743 | whatever the normaliser returns is a registry key |
| Registry.FirstClaimDecides | packages/api/src/lib/nutrients/registry.ts:711-721 | the first entry, in declaration order, whose key or alias matches the lower-cased trimmed name decides the result |
| Registry.FuzzyOnlyWithoutClaim | packages/api/src/lib/nutrients/registry.ts:714-740 | the substring fallback is consulted only when no entry claims the name, and then it alone decides |
| Registry.NormalizeIgnoresCaseAndPadding | packages/api/src/lib/nutrients/registry.ts:711 | normalising a name gives the same result as normalising its lower-cased, trimmed form |
| Registry.NormalizeToCanonicalKey | packages/api/src/lib/nutrients/registry.ts:708-743 | the early-return search loop over the registry returns exactly the normaliser's result |
| Registry.NormalizeOver | packages/api/src/lib/nutrients/registry.ts:711-742 | the same loop over any table returns the first claim's key, else the fallback |
| Registry.BaseConversionsPositive | packages/api/src/lib/nutrients/registry.ts:746-778 | every factor of the conversion table is positive |
| Registry.FactorIn | packages/api/src/lib/nutrients/registry.ts:790-794 | a unit found after lower-casing and trimming has a positive factor |
| Registry.ConvertIn | packages/api/src/lib/nutrients/registry.ts:783-806 | the converter yields a value exactly when given one; it returns the value unchanged when either unit is missing or empty, when the raw units are equal, or when either unit is unknown |
| Registry.ConvertNutrientValue | packages/api/src/lib/nutrients/registry.ts:783-806 | the same fail-soft cases over the registry's own factor table |
| Registry.Walk | packages/api/src/lib/nutrients/registry.ts:824-834 | an empty path yields the node itself; a missing segment or a non-record node yields nothing rather than failing |
| Registry.GetClinicalValue | packages/api/src/lib/nutrients/registry.ts:811-816 | returns exactly the clinical value of the key, none for an unknown key |
| Registry.ReadClinicalPath | packages/api/src/lib/nutrients/registry.ts:818-837 | an empty path gives none, "tee" gives the total energy expenditure, and the loop that walks any other path segment by segment returns exactly the recommended value at the end of the walk |
| RegistryFacts.CarbohydrateGroupParents | packages/api/src/lib/nutrients/registry.ts:47-175 | every parent in the carbohydrate group is carbohydrate, fiber or sugar |
| RegistryFacts.ProteinGroupParents | packages/api/src/lib/nutrients/registry.ts:177-344 | every parent in the protein group is protein |
| RegistryFacts.FatGroupParents | packages/api/src/lib/nutrients/registry.ts:346-446 | every parent in the fat group is fat |
| RegistryFacts.OtherGroupsAreRoots | packages/api/src/lib/nutrients/registry.ts:448-700 | energy, water, vitamins, minerals and carotenoids declare no parent |
| RegistryFacts.ParentsAmongFive | packages/api/src/lib/nutrients/registry.ts:37-700 | every declared parent is one of carbohydrate, fiber, sugar, protein, fat |
| RegistryFacts.LookupFirst | packages/api/src/lib/nutrients/registry.ts:815-816 | looking up a key gives the metadata of its first entry in the table |
| RegistryFacts.LookupCarbohydrate | packages/api/src/lib/nutrients/registry.ts:48-59 | carbohydrate's metadata is its table entry |
| RegistryFacts.LookupFiber | packages/api/src/lib/nutrients/registry.ts:69-81 | fiber's metadata is its table entry |
| RegistryFacts.LookupSugar | packages/api/src/lib/nutrients/registry.ts:98-105 | sugar's metadata is its table entry |
| RegistryFacts.LookupProtein | packages/api/src/lib/nutrients/registry.ts:178-184 | protein's metadata is its table entry |
| RegistryFacts.LookupFat | packages/api/src/lib/nutrients/registry.ts:347-359 | fat's metadata is its table entry |
| RegistryFacts.ParentLookup | packages/api/src/lib/nutrients/registry.ts:48-105 | each of the five parents is a key, and is a root or has parent carbohydrate |
| RegistryFacts.ParentChainsAtMostTwo | packages/api/src/lib/nutrients/registry.ts:67-175 | every declared parent names an existing entry, whose own parent is absent or carbohydrate, which is a root; so chains are acyclic with at most two edges |
| RegistryFacts.KeyNormalizesToItself | packages/api/src/lib/nutrients/registry.ts:714-720 | a lower-case, unpadded key that no earlier entry claims normalises to itself |
| RegistryFacts.AliasNormalizesToKey | packages/api/src/lib/nutrients/registry.ts:714-721 | an unpadded alias of an entry that no earlier entry claims normalises to that entry's key |
| RegistryFacts.EnergyAliases | apps/nextjs/verify_registry.ts:10-12 | "Energy", "Energy-kcal" and "energy_kCal" normalise to energy |
| RegistryFacts.ProteinAlias | apps/nextjs/verify_registry.ts:13 | "Protein" normalises to protein |
| RegistryFacts.NoClaimBeforeProtein | packages/api/src/lib/nutrients/registry.ts:714-720 | no entry before protein claims the name "protein", so the first-match pass reaches the protein entry |
| RegistryFacts.AvoidsInitialNoClaim | packages/api/src/lib/nutrients/registry.ts:714-720 | entries none of whose keys or aliases starts with a letter lower-casing to c claim no name starting with c |
| RegistryFacts.EnergyAlias | packages/api/src/lib/nutrients/registry.ts:39-45 | each of those three aliases normalises to energy |
| RegistryFacts.UnpaddedAlias | packages/api/src/lib/nutrients/registry.ts:44 | those aliases carry no surrounding white space |
| RegistryFacts.ConvertScalesIn | packages/api/src/lib/nutrients/registry.ts:803-805 | with two distinct known units the result is value times the source factor over the target factor |
| RegistryFacts.ConvertRoundTripIn | packages/api/src/lib/nutrients/registry.ts:783-806 | converting from a to b and back gives the value back, for any table of positive factors |
| RegistryFacts.ConvertRoundTrip | packages/api/src/lib/nutrients/registry.ts:783-806 | the round trip through the registry's factor table gives the value back |
| RegistryFacts.ScaleBack | packages/api/src/lib/nutrients/registry.ts:803-805 | rescaling by two positive factors and back is the identity |
| RegistryFacts.ConvertScales | packages/api/src/lib/nutrients/registry.ts:803-805 | the registry converter multiplies by the source factor and divides by the target factor |
| RegistryFacts.FactorOfEntry | packages/api/src/lib/nutrients/registry.ts:790-794 | a lower-case, unpadded unit that is a key of the table has that entry as its factor |
| RegistryFacts.FactorsOfGrams | packages/api/src/lib/nutrients/registry.ts:748-759 | g, kg and mg have factors 1, 1000 and 0.001 |
| RegistryFacts.FactorsOfVolumes | packages/api/src/lib/nutrients/registry.ts:767-773 | ml and l have factors 1 and 1000 |
| RegistryFacts.ConvertByFactors | packages/api/src/lib/nutrients/registry.ts:796-805 | between two distinct units whose factors are known, the result is the value times the source factor over the target factor |
| RegistryFacts.KilogramsToGrams | packages/api/src/lib/nutrients/registry.ts:746-759 | kg to g rescales by the factors 1000 and 1, i.e. multiplies by 1000 |
| RegistryFacts.MilligramsToGrams | packages/api/src/lib/nutrients/registry.ts:746-759 | mg to g rescales by the factors 0.001 and 1, i.e. multiplies by 0.001 |
| RegistryFacts.GramsToMillilitres | packages/api/src/lib/nutrients/registry.ts:746-773 | g to ml rescales by 1 and 1 (value kept), since mass and volume are not separated |
| RegistryFacts.GramsToLitres | packages/api/src/lib/nutrients/registry.ts:746-773 | g to l rescales by the factors 1 and 1000, i.e. divides by 1000 |
| RegistryFacts.SplitThree | packages/api/src/lib/nutrients/registry.ts:825 | a three-segment dotted path splits into its segments |
| RegistryFacts.SplitFour | packages/api/src/lib/nutrients/registry.ts:825 | a four-segment dotted path splits into its segments |
| RegistryFacts.NoDots | packages/api/src/lib/nutrients/registry.ts:51 | the path segments used by the examples contain no dot |
| RegistryFacts.CarbohydratePathText | packages/api/src/lib/nutrients/registry.ts:51 | carbohydrate's clinical path is nutrients.carbohydrate.total |
| RegistryFacts.CarbohydratePath | packages/api/src/lib/nutrients/registry.ts:825 | that path splits into nutrients, carbohydrate, total |
| RegistryFacts.CarbohydrateWalk | apps/nextjs/verify_registry.ts:29-38 | walking that path through the sample metrics reaches recommended 300 |
| RegistryFacts.ClinicalCarbohydrate | apps/nextjs/verify_registry.ts:42 | the clinical value of carbohydrate in the sample metrics is 300 |
| RegistryFacts.LookupSolubleFiber | packages/api/src/lib/nutrients/registry.ts:82-89 | fiber_soluble's metadata is its table entry |
| RegistryFacts.SolubleFiberPathText | packages/api/src/lib/nutrients/registry.ts:85 | fiber_soluble's clinical path is nutrients.carbohydrate.fiber.soluble |
| RegistryFacts.SolubleFiberPath | packages/api/src/lib/nutrients/registry.ts:825 | that path splits into its four segments |
| RegistryFacts.SolubleFiberWalk | apps/nextjs/verify_registry.ts:29-38 | walking it through the sample metrics reaches recommended 5 |
| RegistryFacts.ClinicalSolubleFiber | apps/nextjs/verify_registry.ts:44 | the clinical value of fiber_soluble in the sample metrics is 5 |
| RegistryFacts.LookupAddedSugar | packages/api/src/lib/nutrients/registry.ts:106-119 | sugar_added's metadata is its table entry |
| RegistryFacts.AddedSugarPathText | packages/api/src/lib/nutrients/registry.ts:109 | sugar_added's clinical path is nutrients.carbohydrate.sugar.added |
| RegistryFacts.AddedSugarPath | packages/api/src/lib/nutrients/registry.ts:825 | that path splits into its four segments |
| RegistryFacts.AddedSugarWalk | apps/nextjs/verify_registry.ts:29-38 | walking it through the sample metrics reaches recommended 25 |
| RegistryFacts.ClinicalAddedSugar | apps/nextjs/verify_registry.ts:45 | the clinical value of sugar_added in the sample metrics is 25 |
| RegistryFacts.FiberPathText | packages/api/src/lib/nutrients/registry.ts:72 | fiber's clinical path is nutrients.carbohydrate.fiber.total |
| RegistryFacts.FiberPath | packages/api/src/lib/nutrients/registry.ts:825 | that path splits into its four segments |
| RegistryFacts.FiberWalk | apps/nextjs/verify_registry.ts:29-38 | walking it through the sample metrics reaches recommended 38 |
| RegistryFacts.ClinicalFiber | apps/nextjs/verify_registry.ts:43 | the clinical value of fiber in the sample metrics is 38 |
| RegistryFacts.ProteinPathText | packages/api/src/lib/nutrients/registry.ts:181 | protein's clinical path is nutrients.protein.total |
| RegistryFacts.ProteinPath | packages/api/src/lib/nutrients/registry.ts:825 | that path splits into nutrients, protein, total |
| RegistryFacts.ProteinWalk | apps/nextjs/verify_registry.ts:29-38 | walking it through the sample metrics reaches recommended 150 |
| RegistryFacts.ClinicalProtein | apps/nextjs/verify_registry.ts:46 | the clinical value of protein in the sample metrics is 150 |
| RegistryFacts.ClinicalEnergyIsTee | packages/api/src/lib/nutrients/registry.ts:821-822 | energy's clinical value is the metrics' tee, whatever the metrics |
| RegistryFacts.ClinicalMissingSegment | packages/api/src/lib/nutrients/registry.ts:828-834 | metrics without a nutrients record give no carbohydrate baseline, rather than an error |
| Goals.ChildrenOf | src/app/_hooks/use-nutrition-goals.ts:23-31 | a parent's children are at most as many as the table's entries |
| Goals.BuildHierarchy | src/app/_hooks/use-nutrition-goals.ts:20-31 | the forEach loop fills exactly the parent map and the hierarchy derived from the table |
| Goals.ChildrenOfAppend | src/app/_hooks/use-nutrition-goals.ts:25-28 | appending an entry adds its key to its parent's child list, after the earlier children |
| Goals.HierarchyIsChildren | src/app/_hooks/use-nutrition-goals.ts:27-28 | a key has a hierarchy entry exactly when it has children, and the entry lists them in table order |
| Goals.ParentMapIsDeclaredParent | src/app/_hooks/use-nutrition-goals.ts:25-26 | with distinct keys, a key is in the parent map exactly when its entry declares a parent, and maps to that parent |
| Goals.LocalCheck | src/app/_hooks/use-nutrition-goals.ts:58-76 | first failure wins: no error exactly when all three rules pass; min-above-max exactly when rule 1 fails; target-below-min exactly when rule 1 passes and rule 2 fails; target-above-max exactly when rules 1-2 pass and rule 3 fails |
| Goals.FirstChildAbove | src/app/_hooks/use-nutrition-goals.ts:91-104 | the child reported is the first in hierarchy order whose custom target exceeds the new target; none is reported only when no child's custom target does |
| Goals.ValidateGoal | src/app/_hooks/use-nutrition-goals.ts:51-107 | local failures come first; with the local rules passing, a parent failure is reported exactly when the target exceeds the parent's custom target; a child failure only when the parent rule passes, and it names the first child in hierarchy order whose custom target exceeds the target; a passing goal stays within its parent's custom target and above every child's custom target |
| Goals.PropagateRaises | src/app/_hooks/use-nutrition-goals.ts:135-143 | when the parent's effective target is below the child's, the parent is raised to it with its min and max kept, a notice is emitted, and the walk continues from the parent |
| Goals.PropagateStops | src/app/_hooks/use-nutrition-goals.ts:125-146 | when the parent's effective target is absent or at least the child's, the walk stops and changes nothing |
| Goals.WalkRaises | src/app/_hooks/use-nutrition-goals.ts:135-143 | a raising iteration moves one notice from the rest of the walk to the notices shown, keeps the final result, and settles one more parent |
| Goals.WalkStops | src/app/_hooks/use-nutrition-goals.ts:125-146 | a stopping iteration (the parent's effective target absent or at least the child's) ends the walk with the goals and notices as they are |
| Goals.PropagateNoticesFollowChain | src/app/_hooks/use-nutrition-goals.ts:119-147 | the notices follow the parent chain from the updated key, all to the new target, and no key is raised twice |
| Goals.PropagateKeepsOthers | src/app/_hooks/use-nutrition-goals.ts:116-147 | a key that is not raised keeps its goal, or stays absent |
| Goals.PropagateRaisedGoals | src/app/_hooks/use-nutrition-goals.ts:127-139 | a raised key keeps its min and max and gets the new target, and its effective target was below it |
| Goals.PropagateOnlyRaises | src/app/_hooks/use-nutrition-goals.ts:135-139 | propagation never lowers a custom target |
| Goals.PropagateEndsSettled | src/app/_hooks/use-nutrition-goals.ts:120-147 | the walk ends at a root, or below a parent whose effective target is absent or at least the new target |
| Goals.CustomParentIsNeverRaised | src/app/_hooks/use-nutrition-goals.ts:78-88 | after a passing validation, a direct parent that has a custom target is never raised, so no notice is emitted |
| Goals.GoalBook.constructor | src/app/_hooks/use-nutrition-goals.ts:33-37 | the book starts with the given metrics and goals, a baseline that is the clinical value of each key in those metrics, the derived parent map and hierarchy, and nothing persisted |
| Goals.GoalBook.UpdateGoal | src/app/_hooks/use-nutrition-goals.ts:109-152 | a rejected update returns false with the validation message and changes nothing; an accepted one replaces the goal at the key, runs the propagation loop, and sets and persists exactly the propagated goals |
| Goals.GoalBook.ApplyMacroRatios | src/app/_hooks/use-nutrition-goals.ts:154-169 | exactly energy, carbohydrate, protein and fat are overwritten with bare targets; every other key is unchanged; the result is persisted |
| FoodUtils.UnitToGramsPositive | src/server/api/routers/food.utils.ts:22-38 | every grams-per-unit factor is positive |
| FoodUtils.GramsPerUnitIn | src/server/api/routers/food.utils.ts:45-46 | grams per unit are positive, since an unknown unit counts as 1 |
| FoodUtils.ScalingFactorIn | src/server/api/routers/food.utils.ts:44-49 | the factor has the sign of the quantity and is zero exactly for a zero quantity |
| FoodUtils.CalculateScalingFactor | src/server/api/routers/food.utils.ts:44-49 | the same over the grams table |
| FoodUtils.ScalingFactorUnknownUnit | src/server/api/routers/food.utils.ts:46-48 | an unknown unit gives quantity over 100 |
| FoodUtils.ScalingFactorLinear | src/server/api/routers/food.utils.ts:47-48 | the factor is additive in the quantity |
| FoodUtils.ScalingFactorIgnoresCaseAndPadding | src/server/api/routers/food.utils.ts:45 | the unit is lower-cased and trimmed first |
| FoodUtils.CleanUnitNormalizes | src/server/api/routers/food.utils.ts:45 | cleaning a cleaned unit changes nothing |
| FoodUtils.ScalingFactorOfHundredGrams | src/server/api/routers/food.utils.ts:44-49 | 100 g gives factor 1 |
| FoodUtils.ScaleNutrients | src/server/api/routers/food.utils.ts:54-63 | the loop produces the map of every value times the factor, rounded to hundredths |
| FoodUtils.ScaledKeepsNutrients | src/server/api/routers/food.utils.ts:58-62 | scaling keeps the key set; each value is within half a hundredth of value times factor, is a whole number of hundredths, and keeps its sign |
| FoodUtils.ScaleByOneIdempotent | src/server/api/routers/food.utils.ts:60 | scaling an already scaled map by 1 changes nothing |
| FoodUtils.ParseItem | src/server/api/routers/food.utils.ts:90-121 | a parsed item's name is the normaliser's answer for the row's name (the empty name when absent), so a registry key or absent; value, per-100 g, serving, unit and the four prepared fields are the row's own |
| FoodUtils.ParseNutrimentsFromDuckDB | src/server/api/routers/food.utils.ts:69-88 | parsing fails exactly for a falsy value or a non-array after unwrapping items |
| FoodUtils.ParsedItemsInOrder | src/server/api/routers/food.utils.ts:86-122 | a parsed list has one item per row, in order, each being that row parsed; a wrapped list parses like the bare one |
| FoodUtils.ParsedNamesAreKeys | src/server/api/routers/food.utils.ts:98-108 | every name in a parsed list is a registry key |
| FoodUtils.ExtractEntryIn | src/server/api/routers/food.utils.ts:138-153 | an extracted entry comes from a named nutriment and its key is a registry key |
| FoodUtils.ExtractNutrientValues | src/server/api/routers/food.utils.ts:129-157 | the loop returns exactly the extraction of the parsed rows, and the empty map when parsing fails |
| FoodUtils.ExtractOver | src/server/api/routers/food.utils.ts:135-156 | the loop over parsed nutriments returns exactly the extraction specification |
| FoodUtils.ExtractOne | src/server/api/routers/food.utils.ts:138-153 | one nutriment yields the canonical key and converted per-100 g amount of the extraction specification, or nothing when its name is empty or not in the table |
| FoodUtils.ExtractedKeysAreKeys | src/server/api/routers/food.utils.ts:138-142 | every extracted key is a registry key |
| FoodUtils.ExtractLastWins | src/server/api/routers/food.utils.ts:137-154 | an entry that no later entry overwrites determines the value stored under its key |
| FoodUtils.ExtractedKeysHaveWriters | src/server/api/routers/food.utils.ts:137-154 | every extracted key was written by some input entry |
| FoodUtils.ExtractPrefersPer100g | src/server/api/routers/food.utils.ts:144-152 | the value taken is the per-100 g value, else the plain value, else 0, converted to the registry unit |
| FoodUtils.BigIntsConverted | src/server/api/routers/food.utils.ts:163-185 | arrays stay arrays of the same length, and objects stay objects with the same keys in the same order |
| FoodUtils.ConvertBigIntsToNumbers | src/server/api/routers/food.utils.ts:163-185 | the recursive conversion with its per-key loop returns exactly the specified conversion |
| FoodUtils.ConvertedHasNoBigInt | src/server/api/routers/food.utils.ts:168-181 | no bigint remains anywhere in the result |
| FoodUtils.ConvertWithoutBigIntIsIdentity | src/server/api/routers/food.utils.ts:164-184 | a value without bigints is returned as it is |
| FoodUtils.ConvertIdempotent | src/server/api/routers/food.utils.ts:163-185 | converting twice is converting once |
| FoodUtils.CustomNutriment | src/server/api/routers/food.utils.ts:210-220 | a stored custom entry becomes a nutriment named by the normaliser (a registry key or absent), with value and per-100 g the stored number, and serving, unit and every prepared field null |
| FoodUtils.MapCustomFoodToProduct | src/server/api/routers/food.utils.ts:206-258 | the product has the food's id, name and brand, source and creator User, category "Custom", eco- and nutri-score "unknown", completeness 1, scans 0, created time in seconds and, exactly when there is one, the modified time in seconds; empty tag lists and null generic name, quantity, serving and additive count; one nutriment per stored entry, in order, with the normalised name, value and per-100 g the stored number, and null unit and serving; no stored map gives no nutriments |
| FoodUtils.MapCustomFoodToSearchResult | src/server/api/routers/food.utils.ts:263-275 | the hit has code = id, the name and brand, category "Custom", nutri-score "unknown", scans 0 and source User |
| FoodUtils.CustomFoodViewsAgree | src/server/api/routers/food.utils.ts:206-275 | the search hit and the product of a custom food agree on code, name, brand, category, grade and source |
| Foundation.Score | src/server/api/routers/food/foundation.ts:93-122 | a score is one of 0, 20, 40, 60, 80, 100 |
| Foundation.ScoreIsMatch | src/server/api/routers/food/foundation.ts:93-120 | a food scores above zero exactly when its description or its category contains the query, ignoring case |
| Foundation.ScoreIgnoresQueryCase | src/server/api/routers/food/foundation.ts:88 | the query is lower-cased once, and lower-casing it again changes no score |
| Foundation.InsertKeepsElements | src/server/api/routers/food/foundation.ts:125 | inserting adds exactly the new match |
| Foundation.InsertKeepsSorted | src/server/api/routers/food/foundation.ts:125 | inserting into a descending list keeps it descending |
| Foundation.SortByScoreSortsAndPermutes | src/server/api/routers/food/foundation.ts:125 | the sort returns a permutation of its input in non-increasing score order |
| Foundation.WithScoreAppend | src/server/api/routers/food/foundation.ts:125 | the matches of one score in a concatenation are those of each part, in order |
| Foundation.WithScoreOfLower | src/server/api/routers/food/foundation.ts:125 | a list of lower scores has no match of a given score |
| Foundation.InsertWithScore | src/server/api/routers/food/foundation.ts:125 | inserting places a new match after the equal-scored matches already there |
| Foundation.SortByScoreIsStable | src/server/api/routers/food/foundation.ts:125 | the sort is stable: equal scores keep dataset order |
| Foundation.FoodsOf | src/server/api/routers/food/foundation.ts:127 | the foods are those of the matches, in order |
| Foundation.PositiveScored | src/server/api/routers/food/foundation.ts:91-124 | filtering keeps exactly the foods with a positive score, with their scores |
| Foundation.RankedScored | src/server/api/routers/food/foundation.ts:87-125 | the ranked list holds exactly the positively scored foods, as many entries as there are such foods, in non-increasing score order |
| Foundation.MatchCount | src/server/api/routers/food/foundation.ts:124 | the number of positively scoring foods is at most the number of foods |
| Foundation.SearchFoundationFoodsSpec | src/server/api/routers/food/foundation.ts:83-130 | the answer is a prefix of the ranking; with a non-negative limit its length is the smaller of the limit and the number of matching foods; all from the dataset with a positive score, in non-increasing score order; with a large enough limit every match appears |
| Foundation.Valids | src/server/api/routers/food/foundation.ts:40-47 | the cache holds exactly the records that parsed |
| Foundation.IndexOfSpec | src/server/api/routers/food/foundation.ts:50-53 | an id is indexed exactly when some food has it, and maps to the last food with that id |
| Foundation.FoundationStore.constructor | src/server/api/routers/food/foundation.ts:19-22 | the store starts with no cache and no index |
| Foundation.FoundationStore.Load | src/server/api/routers/food/foundation.ts:28-61 | the foods are the parsed records; the file is read only when nothing is cached, and cache and index are then both set |
| Foundation.FoundationStore.GetById | src/server/api/routers/food/foundation.ts:66-73 | the lookup loads on first use and returns the indexed food; no reread once indexed |
| Foundation.FoundationStore.Search | src/server/api/routers/food/foundation.ts:83-130 | the search loads first, so the cache then holds the valid records, the file is read only when nothing was cached, and the answer is the specified ranking |
| Foundation.FoundationStore.Clear | src/server/api/routers/food/foundation.ts:255-258 | cache and index are both reset |
| Foundation.FoundationStore.Count | src/server/api/routers/food/foundation.ts:263-265 | the count is 0 when nothing is loaded, else the number of cached foods |
| Foundation.MapFoundationToSearchResult | src/server/api/routers/food/foundation.ts:139-151 | code is the decimal fdcId, brands and grade are null, category is the food's, scans 0, source Foundation |
| Foundation.FoundationCodeRoundTrip | src/server/api/routers/food/logFoods.ts:71 | parsing a foundation hit's code gives back its fdcId |
| Foundation.NutrientToNutriment | src/server/api/routers/food/foundation.ts:156-170 | name and unit are the nutrient's; value and per-100 g are its amount; the other fields are null |
| Foundation.Hyphenate | src/server/api/routers/food/foundation.ts:198 | the category tag text holds no white space and is no longer than the description |
| Foundation.HyphenateWithoutSpace | src/server/api/routers/food/foundation.ts:198 | a text without white space comes back unchanged |
| Foundation.HyphenateSqueezed | src/server/api/routers/food/foundation.ts:198 | only white space is replaced: with white space and '-' dropped, the result and the input are the same text |
| Foundation.MapFoundationToProduct | src/server/api/routers/food/foundation.ts:175-245 | the product has the fdcId as code, source Foundation and creator USDA; one nutriment per food nutrient, in order, with value = per-100 g = amount and the nutrient's unit; quantity 100g; one en: category tag exactly when there is a category; a serving size exactly when there is a portion, made of the portion's amount (else value, else 1), unit name and gram weight |
| Foundation.FoundationViewsAgree | src/server/api/routers/food/foundation.ts:139-245 | the search hit and the product of a foundation food agree on code, name, brand, category and source |
| FoodSearch.MapBrandedRow | src/server/api/routers/food/search.ts:57-65 | a branded row's fields are copied and a missing source becomes Branded |
| FoodSearch.MapBrandedRows | packages/api/src/router/food/search.ts:29-40 | every row is mapped, in order |
| FoodSearch.MapCustomFoods | src/server/api/routers/food/search.ts:104 | every custom food is mapped, in order |
| FoodSearch.MapFoundationFoods | src/server/api/routers/food/search.ts:72-75 | every foundation food is mapped, in order |
| FoodSearch.Search | src/server/api/routers/food/search.ts:83-119 | the result never holds more than limit hits |
| FoodSearch.SearchIgnoresCustomFoodsUnlessAsked | src/server/api/routers/food/search.ts:91-105 | without a session or outside branded mode the custom foods do not matter and no hit comes from them |
| FoodSearch.SearchUsesOneGlobalStore | src/server/api/routers/food/search.ts:110-116 | foundation mode takes global hits only from the foundation store, branded mode only from the branded store |
| FoodSearch.SearchCustomFirst | packages/api/src/router/food/search.ts:82 | custom hits come first and global hits after, each in its own order; when custom hits reach limit no global hit appears; with room for all, the result is their concatenation |
| FoodSearch.SearchCustomHitsAreUserFoods | src/server/api/routers/food/search.ts:26-36 | in branded mode with a session, the leading hits are user foods with category Custom and scans 0 |
| FoodSearch.SearchFoundationHitsMatch | packages/api/src/router/food/search.ts:74-80 | in foundation mode every non-custom hit maps a foundation food that matches the query |
| FoodSearch.LegacySearch | src/server/api/routers/food.ts:9-107 | the older search never returns more than limit hits |
| FoodSearch.LegacySearchGatesOnSessionOnly | src/server/api/routers/food.ts:18-41 | the older search reads custom foods whenever there is a session, whatever the data source, and agrees with the newer one in branded mode |
| LogFoods.FoundationKeyIn | src/server/api/routers/food/logFoods.ts:30-31 | a foundation nutrient's key, when it has one, is not empty |
| LogFoods.FoundationNutrientsLastWins | src/server/api/routers/food/logFoods.ts:28-34 | a nutrient that no later one overwrites determines the amount under its key |
| LogFoods.FoundationKeysHaveNutrients | src/server/api/routers/food/logFoods.ts:28-34 | every key of the result comes from some nutrient of the food |
| LogFoods.FoundationNutrientKeys | src/server/api/routers/food/logFoods.ts:30-32 | every key of the result is a key the normaliser produces |
| LogFoods.FoundationNutrientRegistryKeys | src/server/api/routers/food/logFoods.ts:30-32 | over the registry, every key is a registry key |
| LogFoods.CollectFoundationNutrients | src/server/api/routers/food/logFoods.ts:27-35 | the loop fills exactly the specified nutrient map |
| LogFoods.ExtractFoundationNutrients | src/server/api/routers/food/logFoods.ts:21-36 | an unknown food gives null, a known one its nutrient map |
| LogFoods.LogRow | src/server/api/routers/food/logFoods.ts:98-106 | the row copies date, name, brand, quantity and unit, and the user id or the empty string |
| LogFoods.FindBaseNutrients | src/server/api/routers/food/logFoods.ts:53-90 | the dispatch returns exactly the specified base nutrients |
| LogFoods.ResolveItem | src/server/api/routers/food/logFoods.ts:49-96 | an item's final nutrients are exactly the specified resolution |
| LogFoods.LogItem | src/server/api/routers/food/logFoods.ts:48-107 | an item's row is exactly the specified row |
| LogFoods.LogFoodItems | src/server/api/routers/food/logFoods.ts:41-115 | one row per input item, in order; rows are inserted only when there is a user id |
| LogFoods.SuppliedNutrientsKept | src/server/api/routers/food/logFoods.ts:49-52 | non-empty supplied nutrients are stored unchanged |
| LogFoods.NoCodeNoLookup | src/server/api/routers/food/logFoods.ts:52 | without a food code nothing is looked up |
| LogFoods.CustomStoreNeedsSession | src/server/api/routers/food/logFoods.ts:56-70 | the custom store is used exactly for User items with a session; a User item without one falls through to the other stores |
| LogFoods.NonNumericCodeLogsNothing | src/server/api/routers/food/logFoods.ts:71-75 | a non-numeric foundation code looks nothing up and stores no nutrients |
| LogFoods.FalsyBrandedColumnLogsNothing | src/server/api/routers/food/logFoods.ts:84-89 | a missing or falsy branded nutriments column stores no nutrients |
| LogFoods.FoundationItemRoute | src/server/api/routers/food/logFoods.ts:67-70 | a Foundation item with a code and no nutrients goes to the foundation store |
| LogFoods.FoundationItemBase | src/server/api/routers/food/logFoods.ts:71-74 | a parsed fdcId of a stored food gives that food's nutrient map |
| LogFoods.FoundResolvesScaled | src/server/api/routers/food/logFoods.ts:92-95 | found base nutrients are stored scaled by the quantity's factor |
| LogFoods.FoundationHitResolves | src/server/api/routers/food/logFoods.ts:71-95 | logging a foundation search hit stores its nutrients scaled by the quantity's factor |
| DailyNutrition.Decode | src/server/api/routers/food/getDailyNutrition.ts:24-27 | a null column decodes to nothing, an object column to itself, a text column to its parsed map |
| DailyNutrition.TotalsAreSums | src/server/api/routers/food/getDailyNutrition.ts:22-34 | a key is in the totals exactly when some log mentions it, and its total is the sum over logs with non-numbers counted as 0 |
| DailyNutrition.SumOfAppend | src/server/api/routers/food/getDailyNutrition.ts:23-33 | sums over a concatenation add up |
| DailyNutrition.TotalsOfConcatenation | src/server/api/routers/food.ts:304-316 | the totals of two batches of logs add up key by key |
| DailyNutrition.TotalsNonNegative | src/server/api/routers/food/getDailyNutrition.ts:31 | non-negative contributions give non-negative totals |
| DailyNutrition.SumNonNegative | src/server/api/routers/food/getDailyNutrition.ts:31 | the same for the sum specification |
| DailyNutrition.AddEntries | src/server/api/routers/food/getDailyNutrition.ts:30-32 | the inner loop adds one log's entries exactly as specified |
| DailyNutrition.GetDailyNutrition | src/server/api/routers/food/getDailyNutrition.ts:10-37 | no session gives null; otherwise the totals of all logs, and an empty map when there are no logs |
| LegacyFood.FirstContained | src/server/api/routers/food.ts:248-254 | the match found is the first substring of the chain the name contains; none is found only when it contains none |
| LegacyFood.LegacyKeyPrecedence | src/server/api/routers/food.ts:243-255 | the explicit table wins, then the first contained word of the chain, else the lower-cased name |
| LegacyFood.LegacyEntry | src/server/api/routers/food.ts:210-257 | an entry is kept only with a non-empty name and a non-zero value |
| LegacyFood.LegacyValuesIn | src/server/api/routers/food.ts:207-258 | no stored value is zero |
| LegacyFood.LegacyValuesLastWins | src/server/api/routers/food.ts:208-258 | an entry that no later one overwrites determines the value under its key |
| LegacyFood.LegacyKeysHaveWriters | src/server/api/routers/food.ts:208-258 | every stored key was written by some entry |
| LegacyFood.CollectLegacyValues | src/server/api/routers/food.ts:207-259 | the forEach loop fills exactly the specified values |
| LegacyFood.LegacyFactor | src/server/api/routers/food.ts:263-264 | oz gives quantity times 28.35 over 100; every other unit gives quantity over 100 |
| LegacyFood.LegacyBrand | src/server/api/routers/food.ts:277 | the brand is kept only when it is truthy |
| LegacyFood.LegacyBaseAsWritten | src/server/api/routers/food.ts:162-207 | as written, nothing found or a falsy column gives no base values, and a custom food's nutrient object gives an empty base |
| LegacyFood.LegacyBase | src/server/api/routers/food.ts:162-207 | corrected: the same, except that a custom food's nutrient object is the base as it is |
| LegacyFood.LegacyCustomFoodLosesNutrients | src/server/api/routers/food.ts:164-207 | as written, a custom food with stored nutrients is logged with none; the corrected base logs its keys |
| LegacyFood.LegacyBaseAgreesOffCustom | src/server/api/routers/food.ts:174-207 | the corrected base differs from the original only for custom foods |
| LegacyFood.LegacyRow | src/server/api/routers/food.ts:273-281 | the row copies date, name, quantity and unit, the truthy brand and the user id or the empty string; its nutrients are those resolved with the corrected base (see "## Findings") |
| LegacyFood.LegacyResolveItem | src/server/api/routers/food.ts:154-271 | an item's final nutrients are exactly the specified resolution, with the corrected base (see "## Findings") |
| LegacyFood.LegacyLogFoods | src/server/api/routers/food.ts:148-289 | one row per input item, in order, resolved with the corrected base (see "## Findings"); rows are inserted only when there is a user id |
| LegacyFood.LegacyLookupGating | src/server/api/routers/food.ts:154-182 | no source means no lookup; a User item without a session finds nothing; supplied nutrients are kept |
| LegacyFood.LegacyZeroAmountsDropped | src/server/api/routers/food.ts:257 | zero values are never stored |
| ResolvedTargets.CustomGoal | apps/nextjs/src/app/_hooks/use-resolved-targets.ts:40 | a custom goal is found exactly when the goals exist and hold the key |
| ResolvedTargets.ResolveTarget | apps/nextjs/src/app/_hooks/use-resolved-targets.ts:17-31 | missing metrics or an unknown name give null; a defined custom target wins, zero included; else the clinical baseline |
| ResolvedTargets.ResolveGoal | apps/nextjs/src/app/_hooks/use-resolved-targets.ts:33-49 | a goal is returned exactly with metrics and a known name; its target is the custom one, else the clinical one, and its min and max come only from the custom goal |
| ResolvedTargets.ResolversAgree | apps/nextjs/src/app/_hooks/use-resolved-targets.ts:17-49 | a resolved target implies a resolved goal, and the goal's target is the resolved target |
| FoodNutrients.OrText | apps/nextjs/src/app/_hooks/use-food-nutrients.ts:34 | a present, non-empty text wins over the default |
| FoodNutrients.ServingFactor | apps/nextjs/src/app/_hooks/use-food-nutrients.ts:18 | the factor is the serving size over 100 |
| FoodNutrients.DisplayOfIn | apps/nextjs/src/app/_hooks/use-food-nutrients.ts:24-50 | the base value is per-100 g, else value, else 0; a key is set exactly when the raw name is literally a registry key; the unit is the registry unit, else the raw unit, else g, and never empty; the value is the scaled base converted from the raw unit (else g) to the shown unit |
| FoodNutrients.Rows | apps/nextjs/src/app/_hooks/use-food-nutrients.ts:23-51 | one row per nutriment, the i-th row being the i-th nutriment's |
| FoodNutrients.ShownValue | apps/nextjs/src/app/_hooks/use-food-nutrients.ts:35-47 | between two different units the conversion table knows, the scaled amount times the source factor over the target factor; with the same unit or an unknown one, the scaled amount itself |
| FoodNutrients.NonZeroSpec | apps/nextjs/src/app/_hooks/use-food-nutrients.ts:52-57 | the filter keeps a row exactly when it is one of the rows and its base value is not 0 |
| FoodNutrients.NonZero | apps/nextjs/src/app/_hooks/use-food-nutrients.ts:52-57 | the filtered rows are no more than the rows |
| FoodNutrients.NonZeroAppend | apps/nextjs/src/app/_hooks/use-food-nutrients.ts:52-57 | the filter works row by row and keeps order: filtering a concatenation gives the filtered parts, one after the other |
| FoodNutrients.NonZeroSingle | apps/nextjs/src/app/_hooks/use-food-nutrients.ts:52-57 | a single row is kept exactly when its base value is not 0 |
| FoodNutrients.DisplayListSpec | apps/nextjs/src/app/_hooks/use-food-nutrients.ts:20-58 | the list is no longer than the nutriments and holds exactly the rows of nutriments whose base value is not 0 |
| FoodNutrients.DisplayListAppend | apps/nextjs/src/app/_hooks/use-food-nutrients.ts:20-58 | the list follows the nutriments' order: the list of a concatenation of nutriments is the lists of the parts, one after the other |
| FoodNutrients.FindValueIsFirst | apps/nextjs/src/app/_hooks/use-food-nutrients.ts:61-62 | the value found is the first entry's with that key, else 0 |
| FoodNutrients.MacroDataSpec | apps/nextjs/src/app/_hooks/use-food-nutrients.ts:60-75 | the split keeps exactly the positive slices of protein, carbs, fat in that order, and is empty when none is positive |
| FoodNutrients.ShownSpec | apps/nextjs/src/app/_hooks/use-food-nutrients.ts:68-74 | of three candidates in chart order, a slice is shown exactly when positive, the shown slices keep that order, and none is shown exactly when none is positive |
| MacroEditor.With | apps/nextjs/src/app/_components/nutrition/macro-editor.tsx:88-96 | setting one field's amounts changes that field only |
| MacroEditor.KcalPerGram | apps/nextjs/src/app/_components/nutrition/macro-editor.tsx:99-105 | kcal per gram is positive |
| MacroEditor.Others | apps/nextjs/src/app/_components/nutrition/macro-editor.tsx:77-79 | the two other fields differ from the edited one and from each other |
| MacroEditor.FirstOtherWithinRemaining | apps/nextjs/src/app/_components/nutrition/macro-editor.tsx:84-94 | the first other field's new percentage lies between 0 and what remains after the edited one |
| MacroEditor.ShareWithinRemaining | apps/nextjs/src/app/_components/nutrition/macro-editor.tsx:88-91 | a rounded proportional share of a whole remainder stays within it |
| MacroEditor.Rebalance | apps/nextjs/src/app/_components/nutrition/macro-editor.tsx:76-97 | the edited percentage is kept, the first other gets its proportional share, the three sum to exactly 100, and all stay within 0 to 100 for a whole edit in range |
| MacroEditor.SyncMacros | apps/nextjs/src/app/_components/nutrition/macro-editor.tsx:67-109 | energy never changes; in gram mode the grams are kept and each percentage is derived from them; otherwise the grams are derived from the percentages; energy mode keeps the percentages; a percentage edit rebalances them to 100 |
| MacroEditor.PercentGramsRoundTrip | apps/nextjs/src/app/_components/nutrition/macro-editor.tsx:99-105 | for a whole percentage and a large enough energy, deriving grams and then the percentage gives it back |
| MacroEditor.InitialState | apps/nextjs/src/app/_components/nutrition/macro-editor.tsx:47-63 | the opening energy is the energy goal, else tee; each opening gram amount is the goal, else the baseline, else 0 |
| MacroEditor.InitialStateIsGramSynced | apps/nextjs/src/app/_components/nutrition/macro-editor.tsx:58-63 | each opening percentage is the one gram mode derives from its gram amount |
| Numeric.MathRound | apps/nextjs/src/app/_components/nutrition/macro-editor.tsx:60-62 | the rounded integer is within one half of its argument |
| Numeric.RoundCents | src/server/api/routers/food.utils.ts:60 | a non-negative number rounds to a whole number of hundredths, non-negative and within half a hundredth |
| Numeric.ToFixed2 | src/server/api/routers/food.utils.ts:60 | the result is a whole number of hundredths within half a hundredth and of the same sign, and huge numbers are left as they are |
| Numeric.ToFixed2Idempotent | src/server/api/routers/food.utils.ts:60 | rounding to hundredths twice is rounding once |
| Lists.Take | src/server/api/routers/food/search.ts:118 | slice(0, limit) keeps a prefix of the clamped length |
| Lists.SliceEnd | src/server/api/routers/food/search.ts:118 | the end index of slice(0, end): end itself clamped to the length, or the length plus a negative end, never below 0 |
| Text.SplitJoin | packages/api/src/lib/nutrients/registry.ts:825 | joining the dotted segments gives the path back |
| Text.ParseIntOfDecimal | src/server/api/routers/food/logFoods.ts:71 | parsing an integer's decimal text gives the integer back |

## Left out

- Database, DuckDB, SQL and tRPC plumbing are not modelled.
  - Custom-food, branded-row and foundation-file lookups are parameters: functions or sequences that hold what the query would return.
  - SQL `LIKE`/`ILIKE` filtering and ordering are not modelled. The custom and branded search results arrive already filtered.
- `Promise.all` concurrency in both `logFoods` routers is sequential here. The items are independent, so only their order matters.
- `JSON.parse` of a text nutrients column is abstract: the column carries its parsed map.
- NaN appears only where the source maps it to 0 (the daily totals): a non-numeric amount is `None` and counts as 0.
- IEEE floating point is not modelled: numbers are exact reals, and `toFixed(2)` and `Math.round` are rounding functions over reals.
- Lower-casing and trimming are ASCII only. Unicode case mapping is not modelled, and the mis-encoded `"Âµg"` factor key is an opaque string.
- Prototype-inherited keys (`"constructor"` and the like) in plain-object lookups are not modelled. Every lookup is an own-property lookup.
- Two expectations of `apps/nextjs/verify_registry.ts` are not adopted, because that script targets another registry variant:
  - "Sugar alcohols" → alcohol;
  - an unknown name → null.
- The concrete "Fiber, soluble" → fiber_soluble example is not proved. Evaluating the normaliser over that literal is too costly for the verifier. `RegistryFacts.AliasNormalizesToKey` covers every alias, given that no earlier entry claims it (see below).
- Goals.ParentMapIsDeclaredParent: assumes the table's keys are distinct (an object literal cannot repeat a key). This is not proved for the concrete table.
- MacroEditor.SyncMacros: requires a non-zero energy in gram mode. The source divides by energy there, and a zero energy gives NaN or Infinity, which is not modelled.
- MacroEditor.SyncMacros: returns a fresh state. The source's shallow copy also writes through to the nested objects it shares with its input, and that aliasing is not modelled.
- MacroEditor.InitialState: requires a present, non-zero opening energy, for the same reason.
- LegacyFood.LegacyFactor: only "oz" differs from grams. Every other unit, "serving" included, is treated as grams, as in the source.
- React state, toasts, mutations, dashboards, dialogs and the other UI are not modelled. `GoalBook` records each set of goals it persists in a `persisted` sequence instead.
- The clinical DRI formulas are not modelled: metrics are an input tree.
- The read-by-id routes, profile and goal persistence routes and the zod schemas are not modelled, except as datatype shapes.
- RegistryFacts.KeyNormalizesToItself: keeps its premise that no earlier entry claims the key. That premise is not proved for the concrete registry. Evaluating the lower-casing of every earlier alias against every key is too costly for the verifier.
- RegistryFacts.AliasNormalizesToKey: keeps its premise that no earlier entry claims the lower-cased alias, for the same reason.
- FoodUtils.ParseNutrimentsFromDuckDB: a `null` item, or an item whose `entries` is `null`, makes the source throw a TypeError when it reads `data.name` (src/server/api/routers/food.utils.ts:91-100). Items here are values, so that exception is not modelled.
- DailyNutrition.Decode: `JSON.parse` throws on a malformed text column (src/server/api/routers/food/getDailyNutrition.ts:25-27). The text column here carries its parsed map, so that exception is not modelled.
- FoodUtils.ConvertBigIntsToNumbers: any non-array object, a `Date` included, is rebuilt from its own enumerable keys into a plain object (src/server/api/routers/food.utils.ts:176-181). Values here are JSON-shaped only, so such objects are not modelled.
- LegacyFood.CollectLegacyValues: a `null` element of the nutriments array makes the source throw a TypeError, because it reads `nItem.entries` first (src/server/api/routers/food.ts:208-210). Items here are values, so that exception is not modelled.
- Foundation.MapFoundationToProduct: the source formats the serving size as the text "amount unit (gramsg)" (src/server/api/routers/food/foundation.ts:184). Here it is a structured `PortionLabel` of the same three parts, so number-to-text formatting is not modelled. The serving quantity is likewise the gram weight as a number, not its text.
- The foundation file's parse step is the abstract list of records that did or did not parse. The file read and `safeParse` are not modelled.

## Findings

| source | as written | input that shows it | evidently intended | confidence | as-written member | corrected member |
|---|---|---|---|---|---|---|
| src/server/api/routers/food.ts:164-207 | the custom food's stored nutriments object is wrapped as `rawFood.nutriments` and then read only as an array (or an `{items}` wrapper), so the object is never read | a User item with a session, no supplied nutrients, and a custom food whose stored nutriments are `{protein: 10}` is logged with `{}` (LegacyFood.LegacyCustomFoodLosesNutrients) | the stored map is used as the base nutrients, as the newer router does at src/server/api/routers/food/logFoods.ts:62-64 | not executed | LegacyFood.LegacyBaseAsWritten | LegacyFood.LegacyBase |
