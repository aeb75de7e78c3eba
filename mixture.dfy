/**
 * The multi-destination mixture aggregator of the hardmax forecaster
 * (`infer_from_start`).
 *
 * The destination and beta arguments are brought to lists of a common length
 * L, the destination weights default to all ones and are divided by their sum,
 * and the occupancy tables of the destinations, each scaled by its weight, are
 * added into one (T+1) x S table. `FromStart` is the value-level
 * specification; `InferFromStart` is the accumulate-in-place procedure proved
 * to compute it.
 */
module Mixture {
  import opened Wrappers
  import opened Propagator

  /** A caller may pass one value or a list of values (a destination, a beta). */
  datatype OneOrMany<X> = One(x: X) | Many(xs: seq<X>)

  /** Why a forecast is not produced. */
  datatype InferError =
    | EmptyTrajectory        // `infer` was given no observations
    | BetaLengthMismatch     // there is not one beta per destination
    | WeightLengthMismatch   // there is not one destination probability per destination
    | StateOutOfRange        // the start state does not index the occupancy table
    | UndefinedWeights       // the destination probabilities sum to 0 and cannot be divided by it

  /** The full table with the betas and normalised weights used, or only the row at T. */
  datatype Forecast =
    | Full(P: seq<seq<real>>, betas: seq<real>, weights: seq<real>)
    | Final(row: seq<real>)

  /** The action-probability table of a destination under a beta. */
  type Policy = (nat, real) -> Table

  /** A single value becomes n copies of itself; a list is kept as given. */
  function Broadcast<X>(v: OneOrMany<X>, n: nat): seq<X> {
    match v
    case One(x) => seq(n, _ => x)
    case Many(xs) => xs
  }

  /** The list form of an argument, without extension. */
  function Unpack<X>(v: OneOrMany<X>): seq<X> {
    Broadcast(v, 1)
  }

  /** The forecast horizon; by default the number of rows plus columns of the grid. */
  function Horizon(env: Env, horizon: Option<nat>): nat {
    match horizon
    case Some(T) => T
    case None => env.rows + env.cols
  }

  /** The destination probabilities as given, or one for every destination. */
  function RawWeights(destProbs: Option<seq<real>>, n: nat): seq<real> {
    match destProbs
    case Some(p) => p
    case None => seq(n, _ => 1.0)
  }

  /** The destination probabilities divided by their sum: proportional to the
      input and, for a non-empty input, summing to 1. */
  function Normalize(p: seq<real>): (w: seq<real>)
    requires p != [] ==> Sum(p) != 0.0
    ensures |w| == |p|
    ensures forall i :: 0 <= i < |p| ==> w[i] * Sum(p) == p[i]
    ensures p != [] ==> Sum(w) == 1.0
  {
    if p == [] then []
    else
      var inv := Reciprocal(Sum(p));
      SumScale(p, inv);
      ScaleVec(p, inv)
  }

  /** The multiplicative inverse of a non-zero x. */
  function Reciprocal(x: real): (r: real)
    requires x != 0.0
    ensures r * x == 1.0
  {
    1.0 / x
  }

  /** The cached table when one is supplied, otherwise the policy's table. */
  function TableFor(cached: Option<Table>, policy: Policy, dest: nat, beta: real): Table {
    match cached
    case Some(ap) => ap
    case None => policy(dest, beta)
  }

  /** The table used for each destination. */
  function DestTables(cached: Option<Table>, policy: Policy, dests: seq<nat>, betas: seq<real>): (tabs: seq<Table>)
    requires |dests| == |betas|
    ensures |tabs| == |dests|
  {
    seq(|dests|, i requires 0 <= i < |dests| => TableFor(cached, policy, dests[i], betas[i]))
  }

  /** Every table the aggregator may use is S x A. */
  ghost predicate ValidSources(env: Env, cached: Option<Table>, policy: Policy) {
    match cached
    case Some(ap) => ValidTable(env, ap)
    case None => forall d, b :: ValidTable(env, policy(d, b))
  }

  /** Every table the aggregator may use is conserving. */
  ghost predicate ConservingSources(env: Env, cached: Option<Table>, policy: Policy)
    requires ValidEnv(env) && ValidSources(env, cached, policy)
  {
    match cached
    case Some(ap) => Conserving(env, ap)
    case None => forall d, b :: Conserving(env, policy(d, b))
  }

  /** Every table the aggregator may use is non-negative. */
  ghost predicate NonNegativeSources(env: Env, cached: Option<Table>, policy: Policy)
    requires ValidSources(env, cached, policy)
  {
    match cached
    case Some(ap) => NonNegativeTable(env, ap)
    case None => forall d, b :: NonNegativeTable(env, policy(d, b))
  }

  predicate ValidTables(env: Env, tabs: seq<Table>) {
    forall k :: 0 <= k < |tabs| ==> ValidTable(env, tabs[k])
  }

  lemma DestTablesValid(env: Env, cached: Option<Table>, policy: Policy, dests: seq<nat>, betas: seq<real>)
    requires ValidSources(env, cached, policy) && |dests| == |betas|
    ensures ValidTables(env, DestTables(cached, policy, dests, betas))
  {
  }

  function ZeroTable(rows: nat, cols: nat): (X: seq<seq<real>>)
    ensures Shaped(X, rows, cols)
  {
    seq(rows, _ => Zeros(cols))
  }

  /** A table with another table, scaled by w, added into it entry by entry. */
  function MixIn(prev: seq<seq<real>>, table: seq<seq<real>>, w: real): (X: seq<seq<real>>)
    requires |table| == |prev| && forall t :: 0 <= t < |prev| ==> |table[t]| == |prev[t]|
    ensures |X| == |prev| && forall t :: 0 <= t < |prev| ==> |X[t]| == |prev[t]|
  {
    seq(|prev|, t requires 0 <= t < |prev| => AddVec(prev[t], ScaleVec(table[t], w)))
  }

  /** The weighted sum of the occupancy tables of the first i destinations, in
      the order in which the source adds them into its accumulator. */
  function Accumulate(env: Env, tabs: seq<Table>, weights: seq<real>, init: nat, T: nat, i: nat): (P: seq<seq<real>>)
    requires ValidEnv(env) && ValidTables(env, tabs)
    requires |tabs| == |weights| && i <= |tabs| && (i > 0 ==> init < env.S)
    ensures Shaped(P, T + 1, env.S)
  {
    if i == 0 then ZeroTable(T + 1, env.S)
    else
      MixIn(Accumulate(env, tabs, weights, init, T, i - 1), Rollout(env, tabs[i - 1], init, T), weights[i - 1])
  }

  /** The value-level meaning of `infer_from_start`. */
  function FromStart(env: Env, init: nat, dests: OneOrMany<nat>, horizon: Option<nat>,
                     destProbs: Option<seq<real>>, betas: OneOrMany<real>, cached: Option<Table>,
                     verboseReturn: bool, policy: Policy): (r: Result<Forecast, InferError>)
    requires ValidEnv(env) && ValidSources(env, cached, policy)
    ensures var L := |Unpack(dests)|;
      r.Ok? <==>
        && |Broadcast(betas, L)| == L
        && |RawWeights(destProbs, L)| == L
        && (L > 0 ==> init < env.S && Sum(RawWeights(destProbs, L)) != 0.0)
    ensures var L := |Unpack(dests)|;
      && (r == Err(BetaLengthMismatch) <==> |Broadcast(betas, L)| != L)
      && (r == Err(WeightLengthMismatch) <==> |Broadcast(betas, L)| == L && |RawWeights(destProbs, L)| != L)
      && (r == Err(StateOutOfRange) <==>
            |Broadcast(betas, L)| == L && |RawWeights(destProbs, L)| == L && L > 0 && init >= env.S)
      && r != Err(EmptyTrajectory)
    ensures r.Ok? ==> (r.value.Full? <==> verboseReturn)
    ensures r.Ok? && r.value.Final? ==> |r.value.row| == env.S
    ensures r.Ok? && r.value.Full? ==>
      var L := |Unpack(dests)|;
      && Shaped(r.value.P, Horizon(env, horizon) + 1, env.S)
      && r.value.betas == Broadcast(betas, L)
      && |r.value.weights| == L
      && (L > 0 ==> Sum(r.value.weights) == 1.0)
  {
    var T := Horizon(env, horizon);
    var ds := Unpack(dests);
    var L := |ds|;
    var bs := Broadcast(betas, L);
    if |bs| != L then Err(BetaLengthMismatch)
    else
      var probs := RawWeights(destProbs, L);
      if |probs| != L then Err(WeightLengthMismatch)
      else if L > 0 && init >= env.S then Err(StateOutOfRange)
      else if L > 0 && Sum(probs) == 0.0 then Err(UndefinedWeights)
      else
        var weights := Normalize(probs);
        var tabs := DestTables(cached, policy, ds, bs);
        DestTablesValid(env, cached, policy, ds, bs);
        var P := Accumulate(env, tabs, weights, init, T, L);
        Ok(if verboseReturn then Full(P, bs, weights) else Final(P[T]))
  }

  // ---------------------------------------------------------------------------
  // Properties of the accumulated mixture
  // ---------------------------------------------------------------------------

  /** Entry (t, j) of the mixture grows, with destination i, by that
      destination's occupancy at (t, j) times its weight. */
  lemma AccumulateAt(env: Env, tabs: seq<Table>, weights: seq<real>, init: nat, T: nat, i: nat, t: nat, j: nat)
    requires ValidEnv(env) && ValidTables(env, tabs)
    requires |tabs| == |weights| && 0 < i <= |tabs| && init < env.S && t <= T && j < env.S
    ensures Accumulate(env, tabs, weights, init, T, i)[t][j]
         == Accumulate(env, tabs, weights, init, T, i - 1)[t][j] + Occupancy(env, tabs[i - 1], init, t)[j] * weights[i - 1]
  {
  }

  /** With conserving tables, row t of the mixture of the first i destinations
      carries exactly the total weight of those destinations. */
  lemma {:induction false} AccumulateMass(env: Env, tabs: seq<Table>, weights: seq<real>, init: nat, T: nat, i: nat, t: nat)
    requires ValidEnv(env) && ValidTables(env, tabs)
    requires forall k :: 0 <= k < |tabs| ==> Conserving(env, tabs[k])
    requires |tabs| == |weights| && i <= |tabs| && init < env.S && t <= T
    ensures Sum(Accumulate(env, tabs, weights, init, T, i)[t]) == Sum(weights[..i])
  {
    if i == 0 {
      SumZeros(env.S);
    } else {
      var prev := Accumulate(env, tabs, weights, init, T, i - 1);
      var row := Occupancy(env, tabs[i - 1], init, t);
      assert Accumulate(env, tabs, weights, init, T, i)[t] == AddVec(prev[t], ScaleVec(row, weights[i - 1]));
      AccumulateMass(env, tabs, weights, init, T, i - 1, t);
      SumAdd(prev[t], ScaleVec(row, weights[i - 1]));
      SumScale(row, weights[i - 1]);
      OccupancySumsToOne(env, tabs[i - 1], init, t);
      SumPrefixStep(weights, i - 1);
    }
  }

  /** With non-negative tables and weights, every entry of the mixture is non-negative. */
  lemma {:induction false} AccumulateNonNegative(env: Env, tabs: seq<Table>, weights: seq<real>, init: nat, T: nat, i: nat, t: nat)
    requires ValidEnv(env) && ValidTables(env, tabs)
    requires forall k :: 0 <= k < |tabs| ==> NonNegativeTable(env, tabs[k])
    requires NonNegative(weights)
    requires |tabs| == |weights| && i <= |tabs| && init < env.S && t <= T
    ensures NonNegative(Accumulate(env, tabs, weights, init, T, i)[t])
  {
    if i > 0 {
      var here := Accumulate(env, tabs, weights, init, T, i)[t];
      var prev := Accumulate(env, tabs, weights, init, T, i - 1)[t];
      var row := Occupancy(env, tabs[i - 1], init, t);
      AccumulateNonNegative(env, tabs, weights, init, T, i - 1, t);
      OccupancyNonNegative(env, tabs[i - 1], init, t);
      forall j | 0 <= j < env.S
        ensures here[j] >= 0.0
      {
        AccumulateAt(env, tabs, weights, init, T, i, t, j);
        assert prev[j] >= 0.0 && row[j] >= 0.0 && weights[i - 1] >= 0.0;
        assert row[j] * weights[i - 1] >= 0.0;
      }
    }
  }

  /** The first t+1 rows of the horizon-T mixture are the horizon-t mixture. */
  lemma {:induction false} AccumulatePrefix(env: Env, tabs: seq<Table>, weights: seq<real>, init: nat, t: nat, T: nat, i: nat)
    requires ValidEnv(env) && ValidTables(env, tabs)
    requires |tabs| == |weights| && i <= |tabs| && (i > 0 ==> init < env.S) && t <= T
    ensures Accumulate(env, tabs, weights, init, T, i)[..t + 1] == Accumulate(env, tabs, weights, init, t, i)
  {
    if i > 0 {
      AccumulatePrefix(env, tabs, weights, init, t, T, i - 1);
      var long := Accumulate(env, tabs, weights, init, T, i - 1);
      var short := Accumulate(env, tabs, weights, init, t, i - 1);
      forall u | 0 <= u <= t
        ensures long[u] == short[u]
      {
        assert long[..t + 1][u] == long[u];
      }
    }
  }

  /** Row 0 of the mixture holds, at the start state, the total weight of the
      destinations mixed so far, and nothing elsewhere. */
  lemma {:induction false} AccumulateStart(env: Env, tabs: seq<Table>, weights: seq<real>, init: nat, T: nat, i: nat)
    requires ValidEnv(env) && ValidTables(env, tabs)
    requires |tabs| == |weights| && i <= |tabs| && init < env.S
    ensures Accumulate(env, tabs, weights, init, T, i)[0] == ScaleVec(OneHot(env.S, init), Sum(weights[..i]))
  {
    if i > 0 {
      AccumulateStart(env, tabs, weights, init, T, i - 1);
      SumPrefixStep(weights, i - 1);
      var prev := Accumulate(env, tabs, weights, init, T, i - 1)[0];
      var here := Accumulate(env, tabs, weights, init, T, i)[0];
      var start := OneHot(env.S, init);
      var target := ScaleVec(start, Sum(weights[..i]));
      var w, c := weights[i - 1], Sum(weights[..i - 1]);
      forall j | 0 <= j < env.S
        ensures here[j] == target[j]
      {
        AccumulateAt(env, tabs, weights, init, T, i, 0, j);
        assert here[j] == prev[j] + start[j] * w;
        if j == init {
          assert here[j] == 1.0 * c + 1.0 * w;
        } else {
          assert here[j] == 0.0 * c + 0.0 * w;
        }
      }
    }
  }

  // ---------------------------------------------------------------------------
  // Properties of `infer_from_start`
  // ---------------------------------------------------------------------------

  /** With conserving tables, every row of a successful forecast over at least
      one destination sums to 1. */
  lemma FromStartSumsToOne(env: Env, init: nat, dests: OneOrMany<nat>, horizon: Option<nat>,
                           destProbs: Option<seq<real>>, betas: OneOrMany<real>, cached: Option<Table>,
                           verboseReturn: bool, policy: Policy)
    requires ValidEnv(env) && ValidSources(env, cached, policy) && ConservingSources(env, cached, policy)
    requires |Unpack(dests)| > 0
    requires FromStart(env, init, dests, horizon, destProbs, betas, cached, verboseReturn, policy).Ok?
    ensures match FromStart(env, init, dests, horizon, destProbs, betas, cached, verboseReturn, policy).value
      case Full(P, _, _) => forall t :: 0 <= t < |P| ==> Sum(P[t]) == 1.0
      case Final(row) => Sum(row) == 1.0
  {
    var T := Horizon(env, horizon);
    var ds := Unpack(dests);
    var L := |ds|;
    var bs := Broadcast(betas, L);
    var weights := Normalize(RawWeights(destProbs, L));
    var tabs := DestTables(cached, policy, ds, bs);
    DestTablesValid(env, cached, policy, ds, bs);
    assert weights[..L] == weights;
    forall t | 0 <= t <= T
      ensures Sum(Accumulate(env, tabs, weights, init, T, L)[t]) == 1.0
    {
      AccumulateMass(env, tabs, weights, init, T, L, t);
    }
  }

  lemma ScaleNonNegative(v: seq<real>, c: real)
    requires NonNegative(v) && c >= 0.0
    ensures NonNegative(ScaleVec(v, c))
  {
    var r := ScaleVec(v, c);
    forall i | 0 <= i < |v|
      ensures r[i] >= 0.0
    {
      assert r[i] == v[i] * c;
    }
  }

  /** Non-negative destination probabilities give non-negative weights. */
  lemma NormalizeNonNegative(p: seq<real>)
    requires p != [] && Sum(p) != 0.0 && NonNegative(p)
    ensures NonNegative(Normalize(p))
  {
    SumNonNegative(p);
    var total, w := Sum(p), Normalize(p);
    var inv := Reciprocal(total);
    assert inv > 0.0;
    assert w == ScaleVec(p, inv);
    ScaleNonNegative(p, inv);
  }

  /** With non-negative tables and non-negative (or default) destination
      probabilities, every entry of a successful forecast is non-negative. */
  lemma FromStartNonNegative(env: Env, init: nat, dests: OneOrMany<nat>, horizon: Option<nat>,
                             destProbs: Option<seq<real>>, betas: OneOrMany<real>, cached: Option<Table>,
                             verboseReturn: bool, policy: Policy)
    requires ValidEnv(env) && ValidSources(env, cached, policy) && NonNegativeSources(env, cached, policy)
    requires destProbs.Some? ==> NonNegative(destProbs.value)
    requires FromStart(env, init, dests, horizon, destProbs, betas, cached, verboseReturn, policy).Ok?
    ensures match FromStart(env, init, dests, horizon, destProbs, betas, cached, verboseReturn, policy).value
      case Full(P, _, _) => forall t :: 0 <= t < |P| ==> NonNegative(P[t])
      case Final(row) => NonNegative(row)
  {
    var T := Horizon(env, horizon);
    var ds := Unpack(dests);
    var L := |ds|;
    var bs := Broadcast(betas, L);
    var probs := RawWeights(destProbs, L);
    var weights := Normalize(probs);
    var tabs := DestTables(cached, policy, ds, bs);
    DestTablesValid(env, cached, policy, ds, bs);
    if L == 0 {
      forall t | 0 <= t <= T
        ensures NonNegative(Accumulate(env, tabs, weights, init, T, L)[t])
      {
      }
    } else {
      NormalizeNonNegative(probs);
      forall t | 0 <= t <= T
        ensures NonNegative(Accumulate(env, tabs, weights, init, T, L)[t])
      {
        AccumulateNonNegative(env, tabs, weights, init, T, L, t);
      }
    }
  }

  /** Over at least one destination, the horizon-0 forecast is one-hot at the
      start state. */
  lemma FromStartBaseCase(env: Env, init: nat, dests: OneOrMany<nat>, destProbs: Option<seq<real>>,
                          betas: OneOrMany<real>, cached: Option<Table>, policy: Policy)
    requires ValidEnv(env) && ValidSources(env, cached, policy)
    requires |Unpack(dests)| > 0
    requires FromStart(env, init, dests, Some(0), destProbs, betas, cached, false, policy).Ok?
    ensures FromStart(env, init, dests, Some(0), destProbs, betas, cached, false, policy).value.row == OneHot(env.S, init)
  {
    var ds := Unpack(dests);
    var L := |ds|;
    var bs := Broadcast(betas, L);
    var weights := Normalize(RawWeights(destProbs, L));
    var tabs := DestTables(cached, policy, ds, bs);
    DestTablesValid(env, cached, policy, ds, bs);
    assert weights[..L] == weights;
    AccumulateStart(env, tabs, weights, init, 0, L);
    var row := Accumulate(env, tabs, weights, init, 0, L)[0];
    forall j | 0 <= j < env.S
      ensures row[j] == OneHot(env.S, init)[j]
    {
      assert row[j] == OneHot(env.S, init)[j] * 1.0;
    }
  }

  /** Row t of the verbose horizon-T table is the non-verbose horizon-t forecast. */
  lemma VerboseRowsAreFinalRows(env: Env, init: nat, dests: OneOrMany<nat>, T: nat, t: nat,
                                destProbs: Option<seq<real>>, betas: OneOrMany<real>, cached: Option<Table>,
                                policy: Policy)
    requires ValidEnv(env) && ValidSources(env, cached, policy) && t <= T
    requires FromStart(env, init, dests, Some(T), destProbs, betas, cached, true, policy).Ok?
    ensures FromStart(env, init, dests, Some(t), destProbs, betas, cached, false, policy).Ok?
    ensures FromStart(env, init, dests, Some(T), destProbs, betas, cached, true, policy).value.P[t]
         == FromStart(env, init, dests, Some(t), destProbs, betas, cached, false, policy).value.row
  {
    var ds := Unpack(dests);
    var L := |ds|;
    var bs := Broadcast(betas, L);
    var weights := Normalize(RawWeights(destProbs, L));
    var tabs := DestTables(cached, policy, ds, bs);
    DestTablesValid(env, cached, policy, ds, bs);
    AccumulatePrefix(env, tabs, weights, init, t, T, L);
    var long := Accumulate(env, tabs, weights, init, T, L);
    assert long[..t + 1][t] == long[t];
  }

  /** Mixing one table twice, with weights a and b, is mixing it once with weight a + b. */
  lemma MixTwice(env: Env, ap: Table, init: nat, T: nat, a: real, b: real)
    requires ValidEnv(env) && ValidTable(env, ap) && init < env.S
    ensures Accumulate(env, [ap, ap], [a, b], init, T, 2) == Accumulate(env, [ap], [a + b], init, T, 1)
  {
    var twice, once := Accumulate(env, [ap, ap], [a, b], init, T, 2), Accumulate(env, [ap], [a + b], init, T, 1);
    forall t | 0 <= t <= T
      ensures twice[t] == once[t]
    {
      var row2, row1 := twice[t], once[t];
      forall j | 0 <= j < env.S
        ensures row2[j] == row1[j]
      {
        MixTwiceAt(env, ap, init, T, a, b, t, j);
      }
    }
  }

  lemma MixTwiceAt(env: Env, ap: Table, init: nat, T: nat, a: real, b: real, t: nat, j: nat)
    requires ValidEnv(env) && ValidTable(env, ap) && init < env.S && t <= T && j < env.S
    ensures Accumulate(env, [ap, ap], [a, b], init, T, 2)[t][j] == Accumulate(env, [ap], [a + b], init, T, 1)[t][j]
  {
    AccumulateAt(env, [ap, ap], [a, b], init, T, 2, t, j);
    AccumulateAt(env, [ap, ap], [a, b], init, T, 1, t, j);
    AccumulateAt(env, [ap], [a + b], init, T, 1, t, j);
    var x := Occupancy(env, ap, init, t)[j];
    assert x * a + x * b == x * (a + b);
  }

  /** Two weights with a non-zero sum normalise to a pair summing to 1. */
  lemma NormalizePair(w1: real, w2: real)
    requires w1 + w2 != 0.0
    ensures Sum([w1, w2]) == w1 + w2
    ensures var w := Normalize([w1, w2]); w[0] + w[1] == 1.0
  {
    assert Sum([w1]) == w1 by {
      assert [w1][..0] == [];
    }
    assert [w1, w2][..1] == [w1];
    var w := Normalize([w1, w2]);
    assert w[..1] == [w[0]];
    assert w[..1][..0] == [];
  }

  /** Scaling the destination probabilities by any non-zero c leaves the
      weights unchanged: only the ratios between the probabilities matter. */
  lemma NormalizeScaleInvariant(p: seq<real>, c: real)
    requires p != [] && Sum(p) != 0.0 && c != 0.0
    ensures Sum(ScaleVec(p, c)) != 0.0
    ensures Normalize(ScaleVec(p, c)) == Normalize(p)
  {
    var q, s := ScaleVec(p, c), Sum(p);
    SumScale(p, c);
    ReciprocalOfProduct(s, c);
    ScaleTwice(p, c, Reciprocal(s * c), Reciprocal(s));
    assert q != [] && Sum(q) == s * c;
    assert Normalize(q) == ScaleVec(q, Reciprocal(Sum(q)));
    assert Normalize(p) == ScaleVec(p, Reciprocal(s));
  }

  /** c / (s * c) is 1 / s. */
  lemma ReciprocalOfProduct(s: real, c: real)
    requires s != 0.0 && c != 0.0
    ensures s * c != 0.0 && c * Reciprocal(s * c) == Reciprocal(s)
  {
  }

  /** Scaling by c and then by r is scaling by c * r. */
  lemma ScaleTwice(p: seq<real>, c: real, r: real, rc: real)
    requires c * r == rc
    ensures ScaleVec(ScaleVec(p, c), r) == ScaleVec(p, rc)
  {
    var once, twice, direct := ScaleVec(p, c), ScaleVec(ScaleVec(p, c), r), ScaleVec(p, rc);
    forall i | 0 <= i < |p|
      ensures twice[i] == direct[i]
    {
      assert twice[i] == (p[i] * c) * r;
      assert (p[i] * c) * r == p[i] * (c * r);
    }
  }

  /** Listing a destination twice with the same beta and weights w1, w2 forecasts
      the same table as listing it once. */
  lemma DuplicateDestination(env: Env, init: nat, d: nat, horizon: Option<nat>, w1: real, w2: real,
                             beta: real, cached: Option<Table>, verboseReturn: bool, policy: Policy)
    requires ValidEnv(env) && ValidSources(env, cached, policy) && init < env.S
    requires w1 + w2 != 0.0
    ensures var twice := FromStart(env, init, Many([d, d]), horizon, Some([w1, w2]), One(beta), cached, verboseReturn, policy);
            var once := FromStart(env, init, One(d), horizon, None, One(beta), cached, verboseReturn, policy);
            && twice.Ok? && once.Ok?
            && (if verboseReturn then twice.value.P == once.value.P else twice == once)
  {
    var T := Horizon(env, horizon);
    var ap := TableFor(cached, policy, d, beta);
    NormalizePair(w1, w2);
    assert Sum([1.0]) == 1.0 by {
      assert [1.0][..0] == [];
    }
    var w2s, w1s := Normalize([w1, w2]), Normalize([1.0]);
    assert w1s == [w2s[0] + w2s[1]];
    assert Unpack(Many([d, d])) == [d, d];
    assert Broadcast(One(beta), 2) == [beta, beta];
    assert Unpack(One(d)) == [d];
    assert Broadcast(One(beta), 1) == [beta];
    assert RawWeights(None, 1) == [1.0];
    assert DestTables(cached, policy, [d, d], [beta, beta]) == [ap, ap];
    assert DestTables(cached, policy, [d], [beta]) == [ap];
    MixTwice(env, ap, init, T, w2s[0], w2s[1]);
    assert w2s == [w2s[0], w2s[1]];
  }

  /** When no destination probabilities are supplied, the weights are uniform. */
  lemma DefaultWeightsUniform(env: Env, init: nat, dests: OneOrMany<nat>, horizon: Option<nat>,
                              betas: OneOrMany<real>, cached: Option<Table>, policy: Policy)
    requires ValidEnv(env) && ValidSources(env, cached, policy)
    requires FromStart(env, init, dests, horizon, None, betas, cached, true, policy).Ok?
    ensures var L := |Unpack(dests)|;
      var weights := FromStart(env, init, dests, horizon, None, betas, cached, true, policy).value.weights;
      |weights| == L && forall i :: 0 <= i < L ==> weights[i] == 1.0 / L as real
  {
    var L := |Unpack(dests)|;
    SumConstant(L, 1.0);
  }

  // ---------------------------------------------------------------------------
  // The imperative aggregator
  // ---------------------------------------------------------------------------

  /** Multiplies every entry of X by c in place (`np.multiply(X, c, out=X)`). */
  method ScaleInPlace(X: array2<real>, c: real)
    modifies X
    ensures forall t, s :: 0 <= t < X.Length0 && 0 <= s < X.Length1 ==> X[t, s] == old(X[t, s]) * c
  {
    for t := 0 to X.Length0
      invariant forall u, s :: 0 <= u < t && 0 <= s < X.Length1 ==> X[u, s] == old(X[u, s]) * c
      invariant forall u, s :: t <= u < X.Length0 && 0 <= s < X.Length1 ==> X[u, s] == old(X[u, s])
    {
      for s := 0 to X.Length1
        invariant forall u, j :: 0 <= u < t && 0 <= j < X.Length1 ==> X[u, j] == old(X[u, j]) * c
        invariant forall j :: 0 <= j < s ==> X[t, j] == old(X[t, j]) * c
        invariant forall u, j :: t <= u < X.Length0 && 0 <= j < X.Length1 && (u > t || j >= s) ==> X[u, j] == old(X[u, j])
      {
        X[t, s] := X[t, s] * c;
      }
    }
  }

  /** Adds D into P entry by entry (`np.add(P, D, out=P)`). */
  method AddInto(P: array2<real>, D: array2<real>)
    requires P != D && P.Length0 == D.Length0 && P.Length1 == D.Length1
    modifies P
    ensures forall t, s :: 0 <= t < P.Length0 && 0 <= s < P.Length1 ==> P[t, s] == old(P[t, s]) + D[t, s]
  {
    for t := 0 to P.Length0
      invariant forall u, s :: 0 <= u < t && 0 <= s < P.Length1 ==> P[u, s] == old(P[u, s]) + D[u, s]
      invariant forall u, s :: t <= u < P.Length0 && 0 <= s < P.Length1 ==> P[u, s] == old(P[u, s])
    {
      for s := 0 to P.Length1
        invariant forall u, j :: 0 <= u < t && 0 <= j < P.Length1 ==> P[u, j] == old(P[u, j]) + D[u, j]
        invariant forall j :: 0 <= j < s ==> P[t, j] == old(P[t, j]) + D[t, j]
        invariant forall u, j :: t <= u < P.Length0 && 0 <= j < P.Length1 && (u > t || j >= s) ==> P[u, j] == old(P[u, j])
      {
        P[t, s] := P[t, s] + D[t, s];
      }
    }
  }

  /** The contents of a two-dimensional array as a sequence of rows. */
  function Snapshot(P: array2<real>): (X: seq<seq<real>>)
    reads P
    ensures Shaped(X, P.Length0, P.Length1)
  {
    seq(P.Length0, t requires 0 <= t < P.Length0 reads P =>
      seq(P.Length1, s requires 0 <= s < P.Length1 reads P => P[t, s]))
  }

  lemma SnapshotIs(P: array2<real>, X: seq<seq<real>>)
    requires Shaped(X, P.Length0, P.Length1)
    requires forall t, s :: 0 <= t < P.Length0 && 0 <= s < P.Length1 ==> P[t, s] == X[t][s]
    ensures Snapshot(P) == X
  {
    var Y := Snapshot(P);
    forall t | 0 <= t < P.Length0
      ensures Y[t] == X[t]
    {
      var got, want := Y[t], X[t];
      forall s | 0 <= s < P.Length1
        ensures got[s] == want[s]
      {
      }
    }
  }

  /** One pass of the accumulation loop: the destination's occupancy table,
      scaled by its weight, is added into P. */
  method AddDestination(env: Env, ap: Table, init: nat, T: nat, w: real, P: array2<real>)
    requires ValidEnv(env) && ValidTable(env, ap) && init < env.S
    requires P.Length0 == T + 1 && P.Length1 == env.S
    modifies P
    ensures Snapshot(P) == MixIn(old(Snapshot(P)), Rollout(env, ap, init, T), w)
  {
    ghost var before := Snapshot(P);
    ghost var after := MixIn(before, Rollout(env, ap, init, T), w);
    var D := InferSimple(env, ap, init, T);
    ScaleInPlace(D, w);
    AddInto(P, D);
    forall t, s | 0 <= t <= T && 0 <= s < env.S
      ensures P[t, s] == after[t][s]
    {
      assert before[t][s] == old(P[t, s]);
    }
    SnapshotIs(P, after);
  }

  /** The accumulation loop: a zero (T+1) x S array into which every
      destination's occupancy table, scaled by its weight, is added in turn. */
  method MixDestinations(env: Env, init: nat, T: nat, ds: seq<nat>, bs: seq<real>, weights: seq<real>,
                         cached: Option<Table>, policy: Policy) returns (P: array2<real>)
    requires ValidEnv(env) && ValidSources(env, cached, policy)
    requires |ds| == |bs| == |weights| && (|ds| > 0 ==> init < env.S)
    ensures fresh(P)
    ensures Snapshot(P) == Accumulate(env, DestTables(cached, policy, ds, bs), weights, init, T, |ds|)
  {
    ghost var tabs := DestTables(cached, policy, ds, bs);
    DestTablesValid(env, cached, policy, ds, bs);
    P := new real[T + 1, env.S]((_, _) => 0.0);
    SnapshotIs(P, ZeroTable(T + 1, env.S));
    for i := 0 to |ds|
      invariant fresh(P)
      invariant Snapshot(P) == Accumulate(env, tabs, weights, init, T, i)
    {
      var ap := TableFor(cached, policy, ds[i], bs[i]);
      assert ap == tabs[i];
      AddDestination(env, ap, init, T, weights[i], P);
    }
  }

  /** `infer_from_start`: checks the argument lengths, normalises the weights and
      accumulates each destination's scaled occupancy table into one array. */
  method InferFromStart(env: Env, init: nat, dests: OneOrMany<nat>, horizon: Option<nat>,
                        destProbs: Option<seq<real>>, betas: OneOrMany<real>, cached: Option<Table>,
                        verboseReturn: bool, policy: Policy) returns (r: Result<Forecast, InferError>)
    requires ValidEnv(env) && ValidSources(env, cached, policy)
    ensures r == FromStart(env, init, dests, horizon, destProbs, betas, cached, verboseReturn, policy)
  {
    var T := Horizon(env, horizon);
    var ds := Unpack(dests);
    var L := |ds|;
    var bs := Broadcast(betas, L);
    if |bs| != L {
      return Err(BetaLengthMismatch);
    }
    var probs := RawWeights(destProbs, L);
    if |probs| != L {
      return Err(WeightLengthMismatch);
    }
    if L > 0 && init >= env.S {
      return Err(StateOutOfRange);
    }
    if L > 0 && Sum(probs) == 0.0 {
      return Err(UndefinedWeights);
    }
    var weights := Normalize(probs);
    var P := MixDestinations(env, init, T, ds, bs, weights, cached, policy);
    var table := Snapshot(P);
    r := Ok(if verboseReturn then Full(table, bs, weights) else Final(table[T]));
  }
}
