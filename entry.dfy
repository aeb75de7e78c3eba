/**
 * The entry point of the hardmax forecaster (`infer`).
 *
 * From a non-empty trajectory of (state, action) observations, the start state
 * is the transition of the last observation. The betas are either the ones
 * supplied by the caller, in which case no destination probabilities are passed
 * on, or come, together with destination probabilities, from one of two
 * estimators chosen by the `hmm` flag. The forecast itself is the one of
 * `infer_from_start`.
 */
module Entry {
  import opened Wrappers
  import opened Propagator
  import opened Mixture

  /** A (state, action) pair of the observed trajectory. */
  type Observation = (nat, nat)

  /** The environment's deterministic transition from a state under an action. */
  type Transition = (nat, nat) -> nat

  /** An external estimator of (destination probabilities, betas) from a
      trajectory and a list of destinations. */
  type Estimator = (seq<Observation>, seq<nat>) -> (seq<real>, seq<real>)

  /** What `infer` hands on to `infer_from_start`. */
  datatype Plan = Plan(start: nat, dests: seq<nat>, destProbs: Option<seq<real>>, betas: OneOrMany<real>)

  /** The observation the forecast starts from. */
  function Last(traj: seq<Observation>): Observation
    requires traj != []
  {
    traj[|traj| - 1]
  }

  /** The estimator the `hmm` flag selects. */
  function Chosen(hmm: bool, plain: Estimator, hmmEst: Estimator): Estimator {
    if hmm then hmmEst else plain
  }

  /** The argument preparation of `infer`. */
  function Dispatch(traj: seq<Observation>, dests: OneOrMany<nat>, betas: Option<OneOrMany<real>>,
                    hmm: bool, transition: Transition, plain: Estimator, hmmEst: Estimator): (r: Result<Plan, InferError>)
    ensures r.Err? <==> traj == []
    ensures r.Err? ==> r.error == EmptyTrajectory
    ensures r.Ok? ==> r.value.start == transition(Last(traj).0, Last(traj).1) && r.value.dests == Unpack(dests)
    ensures r.Ok? && betas.Some? ==> r.value.destProbs.None? && r.value.betas == Many(Unpack(betas.value))
    ensures r.Ok? && betas.None? ==>
      var estimate := Chosen(hmm, plain, hmmEst)(traj, Unpack(dests));
      r.value.destProbs == Some(estimate.0) && r.value.betas == Many(estimate.1)
  {
    if traj == [] then Err(EmptyTrajectory)
    else
      var (state, action) := Last(traj);
      var start := transition(state, action);
      var destList := Unpack(dests);
      match betas
      case Some(b) => Ok(Plan(start, destList, None, Many(Unpack(b))))
      case None =>
        var (probs, bs) := Chosen(hmm, plain, hmmEst)(traj, destList);
        Ok(Plan(start, destList, Some(probs), Many(bs)))
  }

  /** The value-level meaning of `infer`. */
  function Outcome(env: Env, traj: seq<Observation>, dests: OneOrMany<nat>, horizon: Option<nat>,
                   betas: Option<OneOrMany<real>>, hmm: bool, transition: Transition,
                   plain: Estimator, hmmEst: Estimator, cached: Option<Table>, verboseReturn: bool,
                   policy: Policy): (r: Result<Forecast, InferError>)
    requires ValidEnv(env) && ValidSources(env, cached, policy)
    ensures r == Err(EmptyTrajectory) <==> traj == []
  {
    match Dispatch(traj, dests, betas, hmm, transition, plain, hmmEst)
    case Err(e) => Err(e)
    case Ok(plan) =>
      FromStart(env, plan.start, Many(plan.dests), horizon, plan.destProbs, plan.betas, cached, verboseReturn, policy)
  }

  /** `infer`: prepares the arguments and runs the mixture aggregator. It
      composes the same two stages as `Outcome`; it exists only to run the
      imperative `InferFromStart` in place of its value-level meaning. */
  method Infer(env: Env, traj: seq<Observation>, dests: OneOrMany<nat>, horizon: Option<nat>,
               betas: Option<OneOrMany<real>>, hmm: bool, transition: Transition,
               plain: Estimator, hmmEst: Estimator, cached: Option<Table>, verboseReturn: bool,
               policy: Policy) returns (r: Result<Forecast, InferError>)
    requires ValidEnv(env) && ValidSources(env, cached, policy)
    ensures r == Outcome(env, traj, dests, horizon, betas, hmm, transition, plain, hmmEst, cached, verboseReturn, policy)
  {
    var prepared := Dispatch(traj, dests, betas, hmm, transition, plain, hmmEst);
    match prepared
    case Err(e) =>
      r := Err(e);
    case Ok(plan) =>
      r := InferFromStart(env, plan.start, Many(plan.dests), horizon, plan.destProbs, plan.betas,
                          cached, verboseReturn, policy);
  }

  /** The argument preparation of `infer` as its documentation describes it: a
      supplied beta is passed on unchanged, so that a single beta is spread over
      every destination by `infer_from_start` instead of being wrapped into a
      one-element list. */
  function DispatchIntended(traj: seq<Observation>, dests: OneOrMany<nat>, betas: Option<OneOrMany<real>>,
                            hmm: bool, transition: Transition, plain: Estimator, hmmEst: Estimator): (r: Result<Plan, InferError>)
    ensures r.Err? <==> traj == []
    ensures betas.None? ==> r == Dispatch(traj, dests, betas, hmm, transition, plain, hmmEst)
    ensures betas.Some? && betas.value.Many? ==> r == Dispatch(traj, dests, betas, hmm, transition, plain, hmmEst)
    ensures r.Ok? && betas.Some? ==>
      && r.value.start == transition(Last(traj).0, Last(traj).1)
      && r.value.dests == Unpack(dests)
      && r.value.destProbs.None?
      && r.value.betas == betas.value
  {
    var prepared := Dispatch(traj, dests, betas, hmm, transition, plain, hmmEst);
    if prepared.Ok? && betas.Some? then Ok(prepared.value.(betas := betas.value)) else prepared
  }

  /** The meaning of `infer` with the intended argument preparation. */
  function OutcomeIntended(env: Env, traj: seq<Observation>, dests: OneOrMany<nat>, horizon: Option<nat>,
                           betas: Option<OneOrMany<real>>, hmm: bool, transition: Transition,
                           plain: Estimator, hmmEst: Estimator, cached: Option<Table>, verboseReturn: bool,
                           policy: Policy): (r: Result<Forecast, InferError>)
    requires ValidEnv(env) && ValidSources(env, cached, policy)
    ensures r == Err(EmptyTrajectory) <==> traj == []
    ensures betas.None? ==>
      r == Outcome(env, traj, dests, horizon, betas, hmm, transition, plain, hmmEst, cached, verboseReturn, policy)
  {
    match DispatchIntended(traj, dests, betas, hmm, transition, plain, hmmEst)
    case Err(e) => Err(e)
    case Ok(plan) =>
      FromStart(env, plan.start, Many(plan.dests), horizon, plan.destProbs, plan.betas, cached, verboseReturn, policy)
  }

  /** With the intended preparation, a single supplied beta never fails the beta
      length check, and forecasts exactly as one copy of it per destination. */
  lemma ScalarBetaSpreadsOverDestinations(env: Env, traj: seq<Observation>, dests: OneOrMany<nat>, horizon: Option<nat>,
                                          beta: real, hmm: bool, transition: Transition,
                                          plain: Estimator, hmmEst: Estimator, cached: Option<Table>,
                                          verboseReturn: bool, policy: Policy)
    requires ValidEnv(env) && ValidSources(env, cached, policy)
    requires traj != []
    ensures var r := OutcomeIntended(env, traj, dests, horizon, Some(One(beta)), hmm, transition, plain, hmmEst,
                                     cached, verboseReturn, policy);
      && r != Err(BetaLengthMismatch)
      && r == OutcomeIntended(env, traj, dests, horizon, Some(Many(seq(|Unpack(dests)|, _ => beta))), hmm,
                              transition, plain, hmmEst, cached, verboseReturn, policy)
  {
    var L := |Unpack(dests)|;
    var copies := seq(L, _ => beta);
    var plan1 := DispatchIntended(traj, dests, Some(One(beta)), hmm, transition, plain, hmmEst).value;
    var plan2 := DispatchIntended(traj, dests, Some(Many(copies)), hmm, transition, plain, hmmEst).value;
    assert plan1.start == plan2.start && plan1.dests == plan2.dests && plan1.destProbs == plan2.destProbs;
    assert Unpack(Many(plan1.dests)) == Unpack(dests);
    assert Broadcast(One(beta), L) == copies == Broadcast(Many(copies), L);
  }

  // ---------------------------------------------------------------------------
  // Properties of `infer`
  // ---------------------------------------------------------------------------

  /** With betas supplied, neither estimator matters and only the last
      observation of the trajectory does. */
  lemma SuppliedBetasIgnoreEstimators(env: Env, traj1: seq<Observation>, traj2: seq<Observation>,
                                      dests: OneOrMany<nat>, horizon: Option<nat>, betas: OneOrMany<real>,
                                      hmm1: bool, hmm2: bool, transition: Transition,
                                      plain1: Estimator, hmmEst1: Estimator, plain2: Estimator, hmmEst2: Estimator,
                                      cached: Option<Table>, verboseReturn: bool, policy: Policy)
    requires ValidEnv(env) && ValidSources(env, cached, policy)
    requires traj1 != [] && traj2 != [] && Last(traj1) == Last(traj2)
    ensures Outcome(env, traj1, dests, horizon, Some(betas), hmm1, transition, plain1, hmmEst1, cached, verboseReturn, policy)
         == Outcome(env, traj2, dests, horizon, Some(betas), hmm2, transition, plain2, hmmEst2, cached, verboseReturn, policy)
  {
    var r1 := Dispatch(traj1, dests, Some(betas), hmm1, transition, plain1, hmmEst1);
    var r2 := Dispatch(traj2, dests, Some(betas), hmm2, transition, plain2, hmmEst2);
    assert r1 == r2;
  }

  /** With betas supplied, a successful forecast weighs every destination
      equally. */
  lemma SuppliedBetasUniformWeights(env: Env, traj: seq<Observation>, dests: OneOrMany<nat>, horizon: Option<nat>,
                                    betas: OneOrMany<real>, hmm: bool, transition: Transition,
                                    plain: Estimator, hmmEst: Estimator, cached: Option<Table>, policy: Policy)
    requires ValidEnv(env) && ValidSources(env, cached, policy)
    requires Outcome(env, traj, dests, horizon, Some(betas), hmm, transition, plain, hmmEst, cached, true, policy).Ok?
    ensures var L := |Unpack(dests)|;
      var weights := Outcome(env, traj, dests, horizon, Some(betas), hmm, transition, plain, hmmEst, cached, true, policy).value.weights;
      |weights| == L && forall i :: 0 <= i < L ==> weights[i] == 1.0 / L as real
  {
    var plan := Dispatch(traj, dests, Some(betas), hmm, transition, plain, hmmEst).value;
    assert Unpack(Many(plan.dests)) == Unpack(dests);
    DefaultWeightsUniform(env, plan.start, Many(plan.dests), horizon, plan.betas, cached, policy);
  }

  /** A single supplied beta is kept as a one-element list, so it only fits a
      single destination; over any other number of destinations the beta length
      check fails. */
  lemma ScalarBetaNeedsOneDestination(env: Env, traj: seq<Observation>, dests: OneOrMany<nat>, horizon: Option<nat>,
                                      beta: real, hmm: bool, transition: Transition,
                                      plain: Estimator, hmmEst: Estimator, cached: Option<Table>,
                                      verboseReturn: bool, policy: Policy)
    requires ValidEnv(env) && ValidSources(env, cached, policy)
    requires traj != []
    ensures var r := Outcome(env, traj, dests, horizon, Some(One(beta)), hmm, transition, plain, hmmEst, cached, verboseReturn, policy);
      r == Err(BetaLengthMismatch) <==> |Unpack(dests)| != 1
  {
    var plan := Dispatch(traj, dests, Some(One(beta)), hmm, transition, plain, hmmEst).value;
    assert Unpack(One(beta)) == [beta];
    assert Unpack(Many(plan.dests)) == Unpack(dests);
  }

  /** When the estimator is used, its betas must come one per destination. */
  lemma EstimatedBetasLength(env: Env, traj: seq<Observation>, dests: OneOrMany<nat>, horizon: Option<nat>,
                             hmm: bool, transition: Transition, plain: Estimator, hmmEst: Estimator,
                             cached: Option<Table>, verboseReturn: bool, policy: Policy)
    requires ValidEnv(env) && ValidSources(env, cached, policy)
    requires traj != []
    ensures var r := Outcome(env, traj, dests, horizon, None, hmm, transition, plain, hmmEst, cached, verboseReturn, policy);
      r == Err(BetaLengthMismatch) <==> |Chosen(hmm, plain, hmmEst)(traj, Unpack(dests)).1| != |Unpack(dests)|
  {
    var plan := Dispatch(traj, dests, None, hmm, transition, plain, hmmEst).value;
    assert Unpack(Many(plan.dests)) == Unpack(dests);
  }

  /** Over the zero horizon, a successful non-verbose forecast over at least one
      destination is one-hot at the transition of the last observation. */
  lemma StartsAtLastTransition(env: Env, traj: seq<Observation>, dests: OneOrMany<nat>,
                               betas: Option<OneOrMany<real>>, hmm: bool, transition: Transition,
                               plain: Estimator, hmmEst: Estimator, cached: Option<Table>, policy: Policy)
    requires ValidEnv(env) && ValidSources(env, cached, policy)
    requires |Unpack(dests)| > 0
    requires Outcome(env, traj, dests, Some(0), betas, hmm, transition, plain, hmmEst, cached, false, policy).Ok?
    ensures Outcome(env, traj, dests, Some(0), betas, hmm, transition, plain, hmmEst, cached, false, policy).value.row
         == OneHot(env.S, transition(Last(traj).0, Last(traj).1))
  {
    var plan := Dispatch(traj, dests, betas, hmm, transition, plain, hmmEst).value;
    assert Unpack(Many(plan.dests)) == Unpack(dests);
    FromStartBaseCase(env, plan.start, Many(plan.dests), plan.destProbs, plan.betas, cached, policy);
  }

  /** With conserving tables, every row of a successful forecast over at least
      one destination sums to 1. */
  lemma OutcomeSumsToOne(env: Env, traj: seq<Observation>, dests: OneOrMany<nat>, horizon: Option<nat>,
                         betas: Option<OneOrMany<real>>, hmm: bool, transition: Transition,
                         plain: Estimator, hmmEst: Estimator, cached: Option<Table>, verboseReturn: bool,
                         policy: Policy)
    requires ValidEnv(env) && ValidSources(env, cached, policy) && ConservingSources(env, cached, policy)
    requires |Unpack(dests)| > 0
    requires Outcome(env, traj, dests, horizon, betas, hmm, transition, plain, hmmEst, cached, verboseReturn, policy).Ok?
    ensures match Outcome(env, traj, dests, horizon, betas, hmm, transition, plain, hmmEst, cached, verboseReturn, policy).value
      case Full(P, _, _) => forall t :: 0 <= t < |P| ==> Sum(P[t]) == 1.0
      case Final(row) => Sum(row) == 1.0
  {
    var plan := Dispatch(traj, dests, betas, hmm, transition, plain, hmmEst).value;
    assert Unpack(Many(plan.dests)) == Unpack(dests);
    FromStartSumsToOne(env, plan.start, Many(plan.dests), horizon, plan.destProbs, plan.betas, cached, verboseReturn, policy);
  }
}
