/**
 * The occupancy propagator of the hardmax forecaster (`infer_simple`).
 *
 * Starting from all mass on one state, each timestep pushes the mass of every
 * state s along its (action, next state) neighbour pairs, weighted by the
 * action-probability table entry of (s, action). The specification functions
 * below follow the order in which the loops of the source add contributions,
 * so that the imperative `InferSimple` can be proved against them directly.
 */
module Propagator {

  /** What the propagator needs of the grid world: state and action counts, the
      neighbour pairs of every state, and the grid dimensions. */
  datatype Env = Env(S: nat, A: nat, neighbors: seq<seq<(nat, nat)>>, rows: nat, cols: nat)

  /** An S x A action-probability table. */
  type Table = seq<seq<real>>

  predicate ValidEnv(env: Env) {
    && |env.neighbors| == env.S
    && forall s, k :: 0 <= s < env.S && 0 <= k < |env.neighbors[s]| ==>
         env.neighbors[s][k].0 < env.A && env.neighbors[s][k].1 < env.S
  }

  predicate ValidTable(env: Env, ap: Table) {
    |ap| == env.S && forall s :: 0 <= s < env.S ==> |ap[s]| == env.A
  }

  /** A matrix with the given number of rows, each of the given length. */
  predicate Shaped(X: seq<seq<real>>, rows: nat, cols: nat) {
    |X| == rows && forall t :: 0 <= t < rows ==> |X[t]| == cols
  }

  function Zeros(n: nat): seq<real> {
    seq(n, _ => 0.0)
  }

  function OneHot(n: nat, i: nat): seq<real>
    requires i < n
  {
    seq(n, j => if j == i then 1.0 else 0.0)
  }

  /** Left-to-right sum of a vector. */
  function Sum(v: seq<real>): real {
    if |v| == 0 then 0.0 else Sum(v[..|v| - 1]) + v[|v| - 1]
  }

  predicate NonNegative(v: seq<real>) {
    forall i :: 0 <= i < |v| ==> v[i] >= 0.0
  }

  predicate NonNegativeTable(env: Env, ap: Table)
    requires ValidTable(env, ap)
  {
    forall s, a :: 0 <= s < env.S && 0 <= a < env.A ==> ap[s][a] >= 0.0
  }

  function AddAt(v: seq<real>, i: nat, x: real): seq<real>
    requires i < |v|
  {
    v[i := v[i] + x]
  }

  /** The action of the k-th neighbour pair of state s. */
  function Action(env: Env, s: nat, k: nat): (a: nat)
    requires ValidEnv(env) && s < env.S && k < |env.neighbors[s]|
    ensures a < env.A
  {
    env.neighbors[s][k].0
  }

  /** The next state of the k-th neighbour pair of state s. */
  function Target(env: Env, s: nat, k: nat): (next: nat)
    requires ValidEnv(env) && s < env.S && k < |env.neighbors[s]|
    ensures next < env.S
  {
    env.neighbors[s][k].1
  }

  /** Mass that state s, holding m, sends along its k-th neighbour pair:
      m times the probability of that pair's action. */
  function Flow(env: Env, ap: Table, s: nat, m: real, k: nat): real
    requires ValidEnv(env) && ValidTable(env, ap) && s < env.S && k < |env.neighbors[s]|
  {
    m * ap[s][Action(env, s, k)]
  }

  // ---------------------------------------------------------------------------
  // Push-style specification of one timestep
  // ---------------------------------------------------------------------------

  /** `acc` after state s, holding mass m, has pushed m * ap[s][a] to s' for
      each of its first k neighbour pairs (a, s'). */
  function PushPairs(env: Env, ap: Table, acc: seq<real>, s: nat, m: real, k: nat): (r: seq<real>)
    requires ValidEnv(env) && ValidTable(env, ap)
    requires s < env.S && |acc| == env.S && k <= |env.neighbors[s]|
    ensures |r| == env.S
    decreases k
  {
    if k == 0 then acc
    else
      AddAt(PushPairs(env, ap, acc, s, m, k - 1), Target(env, s, k - 1), Flow(env, ap, s, m, k - 1))
  }

  /** The next distribution after the states 0 .. n-1 of `p` have pushed their mass. */
  function PushStates(env: Env, ap: Table, p: seq<real>, n: nat): (r: seq<real>)
    requires ValidEnv(env) && ValidTable(env, ap)
    requires |p| == env.S && n <= env.S
    ensures |r| == env.S
  {
    if n == 0 then Zeros(env.S)
    else PushPairs(env, ap, PushStates(env, ap, p, n - 1), n - 1, p[n - 1], |env.neighbors[n - 1]|)
  }

  /** One timestep of propagation. */
  function Step(env: Env, ap: Table, p: seq<real>): (r: seq<real>)
    requires ValidEnv(env) && ValidTable(env, ap) && |p| == env.S
    ensures |r| == env.S
  {
    PushStates(env, ap, p, env.S)
  }

  /** The occupancy distribution at timestep t, starting one-hot at `init`. */
  function Occupancy(env: Env, ap: Table, init: nat, t: nat): (r: seq<real>)
    requires ValidEnv(env) && ValidTable(env, ap) && init < env.S
    ensures |r| == env.S
  {
    if t == 0 then OneHot(env.S, init)
    else Step(env, ap, Occupancy(env, ap, init, t - 1))
  }

  /** The (T+1) x S table of occupancy distributions for timesteps 0 .. T. */
  function Rollout(env: Env, ap: Table, init: nat, T: nat): (r: seq<seq<real>>)
    requires ValidEnv(env) && ValidTable(env, ap) && init < env.S
    ensures Shaped(r, T + 1, env.S)
  {
    seq(T + 1, t requires 0 <= t <= T => Occupancy(env, ap, init, t))
  }

  // ---------------------------------------------------------------------------
  // Pull-style reference definition
  // ---------------------------------------------------------------------------

  /** Mass that state s, holding m, sends to j along its first k neighbour pairs. */
  function PairInflow(env: Env, ap: Table, s: nat, m: real, k: nat, j: nat): real
    requires ValidEnv(env) && ValidTable(env, ap)
    requires s < env.S && k <= |env.neighbors[s]|
  {
    if k == 0 then 0.0
    else
      PairInflow(env, ap, s, m, k - 1, j) + (if Target(env, s, k - 1) == j then Flow(env, ap, s, m, k - 1) else 0.0)
  }

  /** Mass that the states 0 .. n-1 of p send to j. */
  function StatesInflow(env: Env, ap: Table, p: seq<real>, n: nat, j: nat): real
    requires ValidEnv(env) && ValidTable(env, ap)
    requires |p| == env.S && n <= env.S
  {
    if n == 0 then 0.0
    else StatesInflow(env, ap, p, n - 1, j) + PairInflow(env, ap, n - 1, p[n - 1], |env.neighbors[n - 1]|, j)
  }

  /** Sum over all s and all pairs (a, j) of neighbors[s] of p[s] * ap[s][a]. */
  function Inflow(env: Env, ap: Table, p: seq<real>, j: nat): real
    requires ValidEnv(env) && ValidTable(env, ap) && |p| == env.S
  {
    StatesInflow(env, ap, p, env.S, j)
  }

  lemma {:induction false} PushPairsAt(env: Env, ap: Table, acc: seq<real>, s: nat, m: real, k: nat, j: nat)
    requires ValidEnv(env) && ValidTable(env, ap)
    requires s < env.S && |acc| == env.S && k <= |env.neighbors[s]| && j < env.S
    ensures PushPairs(env, ap, acc, s, m, k)[j] == acc[j] + PairInflow(env, ap, s, m, k, j)
  {
    if k > 0 {
      PushPairsAt(env, ap, acc, s, m, k - 1, j);
    }
  }

  lemma {:induction false} PushStatesAt(env: Env, ap: Table, p: seq<real>, n: nat, j: nat)
    requires ValidEnv(env) && ValidTable(env, ap)
    requires |p| == env.S && n <= env.S && j < env.S
    ensures PushStates(env, ap, p, n)[j] == StatesInflow(env, ap, p, n, j)
  {
    if n > 0 {
      PushStatesAt(env, ap, p, n - 1, j);
      PushPairsAt(env, ap, PushStates(env, ap, p, n - 1), n - 1, p[n - 1], |env.neighbors[n - 1]|, j);
    }
  }

  /** The push-style update agrees, entry by entry, with the per-target sum. */
  lemma StepIsInflow(env: Env, ap: Table, p: seq<real>)
    requires ValidEnv(env) && ValidTable(env, ap) && |p| == env.S
    ensures forall j :: 0 <= j < env.S ==> Step(env, ap, p)[j] == Inflow(env, ap, p, j)
  {
    forall j | 0 <= j < env.S
      ensures Step(env, ap, p)[j] == Inflow(env, ap, p, j)
    {
      PushStatesAt(env, ap, p, env.S, j);
    }
  }

  /** Row t+1 of a run is obtained from row t by the per-target sum. */
  lemma OccupancyRecurrence(env: Env, ap: Table, init: nat, t: nat, j: nat)
    requires ValidEnv(env) && ValidTable(env, ap) && init < env.S && j < env.S
    ensures Occupancy(env, ap, init, t + 1)[j] == Inflow(env, ap, Occupancy(env, ap, init, t), j)
  {
    StepIsInflow(env, ap, Occupancy(env, ap, init, t));
  }

  // ---------------------------------------------------------------------------
  // Skipping states without mass
  // ---------------------------------------------------------------------------

  /** A state with zero mass adds nothing, so skipping it leaves the row unchanged. */
  lemma {:induction false} PushPairsZeroMass(env: Env, ap: Table, acc: seq<real>, s: nat, k: nat)
    requires ValidEnv(env) && ValidTable(env, ap)
    requires s < env.S && |acc| == env.S && k <= |env.neighbors[s]|
    ensures PushPairs(env, ap, acc, s, 0.0, k) == acc
  {
    if k > 0 {
      PushPairsZeroMass(env, ap, acc, s, k - 1);
    }
  }

  // ---------------------------------------------------------------------------
  // Mass: what a step keeps, conservation, non-negativity
  // ---------------------------------------------------------------------------

  /** Total action probability of state s over its first k neighbour pairs. */
  function OutWeight(env: Env, ap: Table, s: nat, k: nat): real
    requires ValidEnv(env) && ValidTable(env, ap)
    requires s < env.S && k <= |env.neighbors[s]|
  {
    if k == 0 then 0.0
    else OutWeight(env, ap, s, k - 1) + ap[s][Action(env, s, k - 1)]
  }

  /** Total action probability of state s over all its neighbour pairs. */
  function Leaving(env: Env, ap: Table, s: nat): real
    requires ValidEnv(env) && ValidTable(env, ap) && s < env.S
  {
    OutWeight(env, ap, s, |env.neighbors[s]|)
  }

  /** Sum over s < n of p[s] times the total action probability of s. */
  function Emitted(env: Env, ap: Table, p: seq<real>, n: nat): real
    requires ValidEnv(env) && ValidTable(env, ap)
    requires |p| == env.S && n <= env.S
  {
    if n == 0 then 0.0
    else Emitted(env, ap, p, n - 1) + p[n - 1] * Leaving(env, ap, n - 1)
  }

  /** The action probabilities over the neighbour pairs of every state sum to 1. */
  predicate Conserving(env: Env, ap: Table)
    requires ValidEnv(env) && ValidTable(env, ap)
  {
    forall s :: 0 <= s < env.S ==> Leaving(env, ap, s) == 1.0
  }

  lemma {:induction false} SumAddAt(v: seq<real>, i: nat, x: real)
    requires i < |v|
    ensures Sum(AddAt(v, i, x)) == Sum(v) + x
  {
    var n := |v|;
    if i == n - 1 {
      assert AddAt(v, i, x)[..n - 1] == v[..n - 1];
    } else {
      assert AddAt(v, i, x)[..n - 1] == AddAt(v[..n - 1], i, x);
      SumAddAt(v[..n - 1], i, x);
    }
  }

  lemma {:induction false} SumZeros(n: nat)
    ensures Sum(Zeros(n)) == 0.0
  {
    if n > 0 {
      assert Zeros(n)[..n - 1] == Zeros(n - 1);
      SumZeros(n - 1);
    }
  }

  lemma {:induction false} SumOneHot(n: nat, i: nat)
    requires i < n
    ensures Sum(OneHot(n, i)) == 1.0
  {
    if i == n - 1 {
      assert OneHot(n, i)[..n - 1] == Zeros(n - 1);
      SumZeros(n - 1);
    } else {
      assert OneHot(n, i)[..n - 1] == OneHot(n - 1, i);
      SumOneHot(n - 1, i);
    }
  }

  /** Entry-wise product of a vector with a constant. */
  function ScaleVec(v: seq<real>, c: real): (r: seq<real>)
    ensures |r| == |v|
  {
    seq(|v|, i requires 0 <= i < |v| => v[i] * c)
  }

  /** Entry-wise sum of two vectors of the same length. */
  function AddVec(u: seq<real>, v: seq<real>): (r: seq<real>)
    requires |u| == |v|
    ensures |r| == |u|
  {
    seq(|u|, i requires 0 <= i < |u| => u[i] + v[i])
  }

  lemma {:induction false} SumScale(v: seq<real>, c: real)
    ensures Sum(ScaleVec(v, c)) == Sum(v) * c
  {
    var n := |v|;
    if n > 0 {
      var front, scaledFront := ScaleVec(v, c)[..n - 1], ScaleVec(v[..n - 1], c);
      forall i | 0 <= i < n - 1
        ensures front[i] == scaledFront[i]
      {
        assert v[..n - 1][i] == v[i];
      }
      assert front == scaledFront;
      SumScale(v[..n - 1], c);
      assert (Sum(v[..n - 1]) + v[n - 1]) * c == Sum(v[..n - 1]) * c + v[n - 1] * c;
    }
  }

  lemma {:induction false} SumAdd(u: seq<real>, v: seq<real>)
    requires |u| == |v|
    ensures Sum(AddVec(u, v)) == Sum(u) + Sum(v)
  {
    var n := |u|;
    if n > 0 {
      assert AddVec(u, v)[..n - 1] == AddVec(u[..n - 1], v[..n - 1]);
      SumAdd(u[..n - 1], v[..n - 1]);
    }
  }

  lemma {:induction false} SumConstant(n: nat, c: real)
    ensures Sum(seq(n, _ => c)) == n as real * c
  {
    if n > 0 {
      assert seq(n, _ => c)[..n - 1] == seq(n - 1, _ => c);
      SumConstant(n - 1, c);
    }
  }

  lemma {:induction false} SumNonNegative(v: seq<real>)
    requires NonNegative(v)
    ensures Sum(v) >= 0.0
  {
    if |v| > 0 {
      SumNonNegative(v[..|v| - 1]);
    }
  }

  lemma SumPrefixStep(v: seq<real>, i: nat)
    requires i < |v|
    ensures Sum(v[..i + 1]) == Sum(v[..i]) + v[i]
  {
    assert v[..i + 1][..i] == v[..i];
  }

  /** Mass that state s, holding m, sends along its first k neighbour pairs. */
  function Pushed(env: Env, ap: Table, s: nat, m: real, k: nat): real
    requires ValidEnv(env) && ValidTable(env, ap)
    requires s < env.S && k <= |env.neighbors[s]|
  {
    if k == 0 then 0.0
    else Pushed(env, ap, s, m, k - 1) + Flow(env, ap, s, m, k - 1)
  }

  lemma {:induction false} PushedIsScaled(env: Env, ap: Table, s: nat, m: real, k: nat)
    requires ValidEnv(env) && ValidTable(env, ap)
    requires s < env.S && k <= |env.neighbors[s]|
    ensures Pushed(env, ap, s, m, k) == m * OutWeight(env, ap, s, k)
  {
    if k > 0 {
      PushedIsScaled(env, ap, s, m, k - 1);
    }
  }

  lemma {:induction false} PushPairsMass(env: Env, ap: Table, acc: seq<real>, s: nat, m: real, k: nat)
    requires ValidEnv(env) && ValidTable(env, ap)
    requires s < env.S && |acc| == env.S && k <= |env.neighbors[s]|
    ensures Sum(PushPairs(env, ap, acc, s, m, k)) == Sum(acc) + Pushed(env, ap, s, m, k)
  {
    if k > 0 {
      PushPairsMass(env, ap, acc, s, m, k - 1);
      SumAddAt(PushPairs(env, ap, acc, s, m, k - 1), Target(env, s, k - 1), Flow(env, ap, s, m, k - 1));
    }
  }

  lemma {:induction false} PushStatesMass(env: Env, ap: Table, p: seq<real>, n: nat)
    requires ValidEnv(env) && ValidTable(env, ap)
    requires |p| == env.S && n <= env.S
    ensures Sum(PushStates(env, ap, p, n)) == Emitted(env, ap, p, n)
  {
    if n == 0 {
      SumZeros(env.S);
    } else {
      var prev, s, k := PushStates(env, ap, p, n - 1), n - 1, |env.neighbors[n - 1]|;
      assert PushStates(env, ap, p, n) == PushPairs(env, ap, prev, s, p[s], k);
      PushStatesMass(env, ap, p, s);
      PushPairsMass(env, ap, prev, s, p[s], k);
      PushedIsScaled(env, ap, s, p[s], k);
    }
  }

  /** Without any premise on the table, a step keeps exactly the mass that the
      action probabilities of the neighbour pairs let through. */
  lemma StepMass(env: Env, ap: Table, p: seq<real>)
    requires ValidEnv(env) && ValidTable(env, ap) && |p| == env.S
    ensures Sum(Step(env, ap, p)) == Emitted(env, ap, p, env.S)
  {
    PushStatesMass(env, ap, p, env.S);
  }

  lemma {:induction false} EmittedConserving(env: Env, ap: Table, p: seq<real>, n: nat)
    requires ValidEnv(env) && ValidTable(env, ap) && Conserving(env, ap)
    requires |p| == env.S && n <= env.S
    ensures Emitted(env, ap, p, n) == Sum(p[..n])
  {
    if n > 0 {
      EmittedConserving(env, ap, p, n - 1);
      assert p[..n][..n - 1] == p[..n - 1];
    }
  }

  /** When the table is conserving, a step neither creates nor loses mass. */
  lemma StepConservesMass(env: Env, ap: Table, p: seq<real>)
    requires ValidEnv(env) && ValidTable(env, ap) && Conserving(env, ap) && |p| == env.S
    ensures Sum(Step(env, ap, p)) == Sum(p)
  {
    StepMass(env, ap, p);
    EmittedConserving(env, ap, p, env.S);
    assert p[..env.S] == p;
  }

  /** Every row of a run with a conserving table sums to 1. */
  lemma {:induction false} OccupancySumsToOne(env: Env, ap: Table, init: nat, t: nat)
    requires ValidEnv(env) && ValidTable(env, ap) && Conserving(env, ap) && init < env.S
    ensures Sum(Occupancy(env, ap, init, t)) == 1.0
  {
    if t == 0 {
      SumOneHot(env.S, init);
    } else {
      OccupancySumsToOne(env, ap, init, t - 1);
      StepConservesMass(env, ap, Occupancy(env, ap, init, t - 1));
    }
  }

  lemma {:induction false} PushPairsNonNegative(env: Env, ap: Table, acc: seq<real>, s: nat, m: real, k: nat)
    requires ValidEnv(env) && ValidTable(env, ap) && NonNegativeTable(env, ap)
    requires s < env.S && |acc| == env.S && k <= |env.neighbors[s]|
    requires NonNegative(acc) && m >= 0.0
    ensures NonNegative(PushPairs(env, ap, acc, s, m, k))
  {
    if k > 0 {
      PushPairsNonNegative(env, ap, acc, s, m, k - 1);
      assert Flow(env, ap, s, m, k - 1) >= 0.0;
    }
  }

  lemma {:induction false} PushStatesNonNegative(env: Env, ap: Table, p: seq<real>, n: nat)
    requires ValidEnv(env) && ValidTable(env, ap) && NonNegativeTable(env, ap)
    requires |p| == env.S && n <= env.S && NonNegative(p)
    ensures NonNegative(PushStates(env, ap, p, n))
  {
    if n > 0 {
      PushStatesNonNegative(env, ap, p, n - 1);
      PushPairsNonNegative(env, ap, PushStates(env, ap, p, n - 1), n - 1, p[n - 1], |env.neighbors[n - 1]|);
    }
  }

  /** With a non-negative table every entry of every row is non-negative. */
  lemma {:induction false} OccupancyNonNegative(env: Env, ap: Table, init: nat, t: nat)
    requires ValidEnv(env) && ValidTable(env, ap) && NonNegativeTable(env, ap) && init < env.S
    ensures NonNegative(Occupancy(env, ap, init, t))
  {
    if t > 0 {
      OccupancyNonNegative(env, ap, init, t - 1);
      PushStatesNonNegative(env, ap, Occupancy(env, ap, init, t - 1), env.S);
    }
  }

  lemma {:induction false} OutWeightUniform(env: Env, ap: Table, s: nat, k: nat, c: real)
    requires ValidEnv(env) && ValidTable(env, ap)
    requires s < env.S && k <= |env.neighbors[s]|
    requires forall a :: 0 <= a < env.A ==> ap[s][a] == c
    ensures OutWeight(env, ap, s, k) == k as real * c
  {
    if k > 0 {
      OutWeightUniform(env, ap, s, k - 1, c);
    }
  }

  lemma {:induction false} EmittedOneHot(env: Env, ap: Table, init: nat, n: nat)
    requires ValidEnv(env) && ValidTable(env, ap) && init < env.S && n <= env.S
    ensures Emitted(env, ap, OneHot(env.S, init), n) == if init < n then Leaving(env, ap, init) else 0.0
  {
    if n > 0 {
      EmittedOneHot(env, ap, init, n - 1);
    }
  }

  /** Under a table whose every entry is c, the first step from `init` keeps
      mass (number of neighbour pairs of init) * c; with c = 1/A and four
      neighbour pairs that is 4/A, which is not 1 in general. */
  lemma UniformFirstStepMass(env: Env, ap: Table, init: nat, c: real)
    requires ValidEnv(env) && ValidTable(env, ap) && init < env.S
    requires forall s, a :: 0 <= s < env.S && 0 <= a < env.A ==> ap[s][a] == c
    ensures Sum(Occupancy(env, ap, init, 1)) == |env.neighbors[init]| as real * c
  {
    assert Occupancy(env, ap, init, 0) == OneHot(env.S, init);
    StepMass(env, ap, OneHot(env.S, init));
    EmittedOneHot(env, ap, init, env.S);
    OutWeightUniform(env, ap, init, |env.neighbors[init]|, c);
  }

  // ---------------------------------------------------------------------------
  // Shape, base case and prefix relation between horizons
  // ---------------------------------------------------------------------------

  /** Row 0 of every run is one-hot at `init`. */
  lemma RolloutStartsOneHot(env: Env, ap: Table, init: nat, T: nat)
    requires ValidEnv(env) && ValidTable(env, ap) && init < env.S
    ensures Rollout(env, ap, init, T)[0][init] == 1.0
    ensures forall s :: 0 <= s < env.S && s != init ==> Rollout(env, ap, init, T)[0][s] == 0.0
  {
  }

  /** The first t+1 rows of a horizon-T run are the horizon-t run, and its last
      row is the distribution at t. */
  lemma RolloutPrefix(env: Env, ap: Table, init: nat, t: nat, T: nat)
    requires ValidEnv(env) && ValidTable(env, ap) && init < env.S && t <= T
    ensures Rollout(env, ap, init, T)[..t + 1] == Rollout(env, ap, init, t)
    ensures Rollout(env, ap, init, T)[t] == Rollout(env, ap, init, t)[t]
  {
  }

  // ---------------------------------------------------------------------------
  // The imperative propagator
  // ---------------------------------------------------------------------------

  /** Adds the contributions of state s, holding mass m, to row t of P along
      all neighbour pairs of s (`P_prime[s_prime] += P[s] * action_prob[s, a]`). */
  method PushState(env: Env, ap: Table, P: array2<real>, t: nat, s: nat, m: real, ghost before: seq<real>)
    requires ValidEnv(env) && ValidTable(env, ap)
    requires s < env.S && t < P.Length0 && P.Length1 == env.S && |before| == env.S
    requires forall j :: 0 <= j < env.S ==> P[t, j] == before[j]
    modifies P
    ensures forall j :: 0 <= j < env.S ==> P[t, j] == PushPairs(env, ap, before, s, m, |env.neighbors[s]|)[j]
    ensures forall u, j :: 0 <= u < P.Length0 && u != t && 0 <= j < P.Length1 ==> P[u, j] == old(P[u, j])
  {
    var nbrs := env.neighbors[s];
    for k := 0 to |nbrs|
      invariant forall j :: 0 <= j < env.S ==> P[t, j] == PushPairs(env, ap, before, s, m, k)[j]
      invariant forall u, j :: 0 <= u < P.Length0 && u != t && 0 <= j < P.Length1 ==> P[u, j] == old(P[u, j])
    {
      var (a, next) := nbrs[k];
      P[t, next] := P[t, next] + m * ap[s][a];
    }
  }

  /** Fills the zeroed row t of P from row t-1, skipping states without mass. */
  method StepRow(env: Env, ap: Table, P: array2<real>, t: nat, ghost prev: seq<real>)
    requires ValidEnv(env) && ValidTable(env, ap)
    requires 1 <= t < P.Length0 && P.Length1 == env.S && |prev| == env.S
    requires forall j :: 0 <= j < env.S ==> P[t - 1, j] == prev[j]
    requires forall j :: 0 <= j < env.S ==> P[t, j] == 0.0
    modifies P
    ensures forall j :: 0 <= j < env.S ==> P[t, j] == Step(env, ap, prev)[j]
    ensures forall u, j :: 0 <= u < P.Length0 && u != t && 0 <= j < P.Length1 ==> P[u, j] == old(P[u, j])
  {
    for s := 0 to env.S
      invariant forall j :: 0 <= j < env.S ==> P[t, j] == PushStates(env, ap, prev, s)[j]
      invariant forall u, j :: 0 <= u < P.Length0 && u != t && 0 <= j < P.Length1 ==> P[u, j] == old(P[u, j])
    {
      var m := P[t - 1, s];
      ghost var before := PushStates(env, ap, prev, s);
      if m != 0.0 {
        PushState(env, ap, P, t, s, m, before);
      } else {
        PushPairsZeroMass(env, ap, before, s, |env.neighbors[s]|);
      }
    }
  }

  /** Builds the (T+1) x S occupancy table: a zeroed array, row 0 one-hot at
      `init`, and each later row pushed from the one before. */
  method InferSimple(env: Env, ap: Table, init: nat, T: nat) returns (P: array2<real>)
    requires ValidEnv(env) && ValidTable(env, ap) && init < env.S
    ensures fresh(P) && P.Length0 == T + 1 && P.Length1 == env.S
    ensures forall t, s :: 0 <= t <= T && 0 <= s < env.S ==> P[t, s] == Occupancy(env, ap, init, t)[s]
  {
    P := new real[T + 1, env.S]((_, _) => 0.0);
    P[0, init] := 1.0;
    for t := 1 to T + 1
      invariant forall u, j :: 0 <= u < t && 0 <= j < env.S ==> P[u, j] == Occupancy(env, ap, init, u)[j]
      invariant forall u, j :: t <= u <= T && 0 <= j < env.S ==> P[u, j] == 0.0
    {
      ghost var prev := Occupancy(env, ap, init, t - 1);
      StepRow(env, ap, P, t, prev);
      assert Occupancy(env, ap, init, t) == Step(env, ap, prev);
    }
  }
}
