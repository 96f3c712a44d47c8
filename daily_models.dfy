/** The per-day traffic records returned by the GitHub traffic API, and the
    LINQ aggregates (Sum, Max) the trends page computes over them. */
module DailyModels {

  /** One day of view traffic. `day` is a calendar day counted from a fixed
      epoch (days since 1970-01-01); only its order matters here. */
  datatype DailyViews = DailyViews(day: int, totalViews: nat, totalUniqueViews: nat)

  /** One day of clone traffic. */
  datatype DailyClones = DailyClones(day: int, totalClones: nat, totalUniqueClones: nat)

  // Projections, passed where the source passes a selector lambda (`x => x.Day`).
  function ViewsDay(v: DailyViews): int { v.day }
  function TotalViews(v: DailyViews): nat { v.totalViews }
  function TotalUniqueViews(v: DailyViews): nat { v.totalUniqueViews }
  function ClonesDay(c: DailyClones): int { c.day }
  function TotalClones(c: DailyClones): nat { c.totalClones }
  function TotalUniqueClones(c: DailyClones): nat { c.totalUniqueClones }

  /** `s.Sum(f)`: the sum of a selector over a sequence. No term exceeds it. */
  function SumOf<T>(s: seq<T>, f: T -> nat): (r: nat)
    ensures forall i :: 0 <= i < |s| ==> f(s[i]) <= r
  {
    if s == [] then 0
    else
      var rest := SumOf(s[1..], f);
      assert forall i :: 1 <= i < |s| ==> s[i] == s[1..][i - 1];
      f(s[0]) + rest
  }

  /** Every element's selected counter is zero. */
  ghost predicate AllZero<T>(s: seq<T>, f: T -> nat)
  {
    forall i :: 0 <= i < |s| ==> f(s[i]) == 0
  }

  /** A sum of counters is zero exactly when every counter is zero. */
  lemma {:induction false} SumOfZero<T>(s: seq<T>, f: T -> nat)
    ensures SumOf(s, f) == 0 <==> AllZero(s, f)
  {
    if s != [] {
      SumOfZero(s[1..], f);
      assert forall i :: 1 <= i < |s| ==> s[i] == s[1..][i - 1];
    }
  }

  /** `s.Max(f)`: the largest value of a selector. Like Enumerable.Max it
      is defined on non-empty sequences only; the result is an upper bound
      that some element attains. */
  function MaxOf<T>(s: seq<T>, f: T -> nat): (r: nat)
    requires s != []
    ensures forall i :: 0 <= i < |s| ==> f(s[i]) <= r
    ensures exists i :: 0 <= i < |s| && f(s[i]) == r
  {
    if |s| == 1 then f(s[0])
    else
      var rest := MaxOf(s[1..], f);
      assert forall i :: 1 <= i < |s| ==> s[i] == s[1..][i - 1];
      if f(s[0]) >= rest then f(s[0]) else rest
  }
}
