/** The engine as the Python code writes it: a double loop over
    `combinations(range(n), 2)` that adds each pair's contribution to `con`
    and `dis` in place, then divides. Its result is the functional `Total` /
    `Gamma` of the engine.
 */
module Accumulate {
  import opened Results
  import opened Engine

  /** The double loop `for i in range(n): for j in range(i+1, n)`, adding the
      contribution of pair `(i, j)` to the running sums. */
  method SumInOrder(P: seq<seq<Tally>>, n: nat) returns (con: real, dis: real)
    requires Square(P, n)
    ensures Tally(con, dis) == SumPairs(P, n)
  {
    con, dis := 0.0, 0.0;
    var i := 0;
    while i < n
      invariant 0 <= i <= n
      invariant Tally(con, dis) == RowsSum(P, n, i)
    {
      var j := i + 1;
      while j < n
        invariant i < j <= n
        invariant Tally(con, dis) == Plus(RowsSum(P, n, i), RowSum(P, n, i, j))
      {
        con, dis := con + P[i][j].con, dis + P[i][j].dis;
        j := j + 1;
      }
      i := i + 1;
    }
  }

  /** One run of the engine: accumulate, then divide unless both sums are 0. */
  method Correlate(s: Setup, a: seq<int>, b: seq<int>) returns (con: real, dis: real, r: Option<real>)
    requires Fits(s, a, b)
    ensures Tally(con, dis) == Total(s, a, b)
    ensures r.None? <==> con + dis == 0.0
    ensures r.Some? ==> r.value * (con + dis) == con - dis
    ensures r == Gamma(s, a, b)
  {
    con, dis := SumInOrder(PairTable(s, a, b), |a|);
    if con + dis == 0.0 {
      r := None;
    } else {
      r := Some((con - dis) / (con + dis));
    }
  }
}
