/**
 * The daily totals (`getDailyNutrition`, in both routers): the nutrient maps
 * of a user's logs for a day, summed key by key.
 */
module DailyNutrition {
  import opened Wrappers

  /**
   * A stored nutrients column: SQL null, a decoded object, or JSON text
   * carrying what `JSON.parse` makes of it (`None` for a JSON null). Each value
   * is what `Number(val)` gives: a number, or `None` for NaN.
   */
  datatype NutrientsColumn =
    | NullColumn
    | ObjectColumn(entries: map<string, Option<real>>)
    | TextColumn(decoded: Option<map<string, Option<real>>>)

  /** The column as an object, or `None` when it is falsy. */
  function Decode(col: NutrientsColumn): (r: Option<map<string, Option<real>>>)
    ensures col.NullColumn? ==> r.None?
    ensures col.ObjectColumn? ==> r == Some(col.entries)
    ensures col.TextColumn? ==> r == col.decoded
  {
    match col
    case NullColumn => None
    case ObjectColumn(entries) => Some(entries)
    case TextColumn(decoded) => decoded
  }

  /** `Number(val) || 0`: NaN counts as zero. */
  function AsAmount(v: Option<real>): real
  {
    Coalesce(v, 0.0)
  }

  /** `totals[key] ?? 0`. */
  function Get(totals: map<string, real>, k: string): real
  {
    if k in totals then totals[k] else 0.0
  }

  /** The running totals after adding one log's nutrients. */
  function AddLog(totals: map<string, real>, nuts: Option<map<string, Option<real>>>): map<string, real>
  {
    match nuts
    case None => totals
    case Some(m) => map k | k in totals.Keys + m.Keys :: if k in m then Get(totals, k) + AsAmount(m[k]) else totals[k]
  }

  /** The totals after the logs in order. */
  function Totals(logs: seq<NutrientsColumn>): map<string, real>
  {
    if logs == [] then map[]
    else AddLog(Totals(logs[..|logs| - 1]), Decode(logs[|logs| - 1]))
  }

  /** What one log contributes to a key: its amount, or 0 when it does not have the key. */
  function Contribution(col: NutrientsColumn, k: string): real
  {
    match Decode(col)
    case None => 0.0
    case Some(m) => if k in m then AsAmount(m[k]) else 0.0
  }

  /** A log mentions a key. */
  predicate Mentions(col: NutrientsColumn, k: string)
  {
    Decode(col).Some? && k in Decode(col).value
  }

  /** The sum of the contributions of the logs to a key. */
  function SumOf(logs: seq<NutrientsColumn>, k: string): real
  {
    if logs == [] then 0.0 else SumOf(logs[..|logs| - 1], k) + Contribution(logs[|logs| - 1], k)
  }

  /**
   * The totals hold exactly the keys some log mentions, and each key's total
   * is the sum of what every log contributes to it.
   */
  lemma {:induction false} TotalsAreSums(logs: seq<NutrientsColumn>, k: string)
    ensures k in Totals(logs) <==> exists i :: 0 <= i < |logs| && Mentions(logs[i], k)
    ensures Get(Totals(logs), k) == SumOf(logs, k)
  {
    if logs != [] {
      var front := logs[..|logs| - 1];
      TotalsAreSums(front, k);
      if exists i :: 0 <= i < |front| && Mentions(front[i], k) {
        var i :| 0 <= i < |front| && Mentions(front[i], k);
        assert logs[i] == front[i];
      }
      if exists i :: 0 <= i < |logs| && Mentions(logs[i], k) {
        var i :| 0 <= i < |logs| && Mentions(logs[i], k);
        if i < |front| {
          assert front[i] == logs[i];
        }
      }
    }
  }

  /** Sums split over concatenation. */
  lemma {:induction false} SumOfAppend(a: seq<NutrientsColumn>, b: seq<NutrientsColumn>, k: string)
    ensures SumOf(a + b, k) == SumOf(a, k) + SumOf(b, k)
  {
    if b != [] {
      assert (a + b)[..|a + b| - 1] == a + b[..|b| - 1];
      SumOfAppend(a, b[..|b| - 1], k);
    } else {
      assert a + b == a;
    }
  }

  /**
   * The totals of two batches of logs, read one after the other, are the sums
   * of the two batches' totals: the order in which logs arrive does not matter
   * beyond the batch split.
   */
  lemma TotalsOfConcatenation(a: seq<NutrientsColumn>, b: seq<NutrientsColumn>, k: string)
    ensures Get(Totals(a + b), k) == Get(Totals(a), k) + Get(Totals(b), k)
  {
    TotalsAreSums(a + b, k);
    TotalsAreSums(a, k);
    TotalsAreSums(b, k);
    SumOfAppend(a, b, k);
  }

  /** With no negative amount logged, no total is negative. */
  lemma {:induction false} TotalsNonNegative(logs: seq<NutrientsColumn>, k: string)
    requires forall i :: 0 <= i < |logs| ==> Contribution(logs[i], k) >= 0.0
    ensures Get(Totals(logs), k) >= 0.0
  {
    TotalsAreSums(logs, k);
    SumNonNegative(logs, k);
  }

  lemma {:induction false} SumNonNegative(logs: seq<NutrientsColumn>, k: string)
    requires forall i :: 0 <= i < |logs| ==> Contribution(logs[i], k) >= 0.0
    ensures SumOf(logs, k) >= 0.0
  {
    if logs != [] {
      SumNonNegative(logs[..|logs| - 1], k);
      assert Contribution(logs[|logs| - 1], k) >= 0.0;
    }
  }

  /** One log's entries added to the running totals, key by key. */
  method AddEntries(totals: map<string, real>, m: map<string, Option<real>>) returns (r: map<string, real>)
    ensures r == AddLog(totals, Some(m))
  {
    r := totals;
    var todo := m.Keys;
    while todo != {}
      invariant todo <= m.Keys
      invariant r.Keys == totals.Keys + (m.Keys - todo)
      invariant forall k :: k in r ==> r[k] == if k in m && k !in todo then Get(totals, k) + AsAmount(m[k]) else totals[k]
      decreases todo
    {
      var k :| k in todo;
      var current := if k in r then r[k] else 0.0;
      r := r[k := current + AsAmount(m[k])];
      todo := todo - {k};
    }
    assert r.Keys == AddLog(totals, Some(m)).Keys;
    assert forall k :: k in r ==> r[k] == AddLog(totals, Some(m))[k];
  }

  /** `getDailyNutrition`: `None` without a session, otherwise the totals of the day's logs. */
  method GetDailyNutrition(hasSession: bool, logs: seq<NutrientsColumn>) returns (r: Option<map<string, real>>)
    ensures !hasSession ==> r.None?
    ensures hasSession ==> r == Some(Totals(logs))
  {
    if !hasSession {
      return None;
    }
    var totals: map<string, real> := map[];
    var i := 0;
    while i < |logs|
      invariant 0 <= i <= |logs|
      invariant totals == Totals(logs[..i])
    {
      assert logs[..i + 1][..i] == logs[..i];
      var nuts := Decode(logs[i]);
      if nuts.Some? {
        totals := AddEntries(totals, nuts.value);
      }
      i := i + 1;
    }
    assert logs[..|logs|] == logs;
    return Some(totals);
  }
}
