/**
 * The trajectory record the master accumulates. The class behind it
 * (`Rollout` of the anyrl library) is not part of this model: its fields and
 * derived values below are what the accumulator relies on, stated as
 * assumptions about that library.
 */
module Rollouts {
  import opened Common

  /** A recurrent state of the policy for one environment. */
  type RecState = seq<real>

  /** The per-step auxiliary info slot: a dictionary, always empty here. */
  type Info = map<string, string>

  /** What the policy returns for one environment: its action and new recurrent state. */
  datatype ModelOut = ModelOut(actions: seq<bool>, states: RecState)

  datatype Rollout = Rollout(
    observations: seq<Obs>,
    modelOuts: seq<ModelOut>,
    rewards: seq<real>,
    startState: RecState,
    prevSteps: int,
    prevReward: real,
    endTime: real,
    infos: seq<Info>)

  function Sum(xs: seq<real>): real
  {
    if xs == [] then 0.0 else Sum(xs[..|xs| - 1]) + xs[|xs| - 1]
  }

  lemma SumAppend(xs: seq<real>, x: real)
    ensures Sum(xs + [x]) == Sum(xs) + x
  {
    assert (xs + [x])[..|xs|] == xs;
  }

  /** `num_steps`: one step per recorded reward. */
  function NumSteps(r: Rollout): nat
  {
    |r.rewards|
  }

  /** `total_reward`: the reward carried in plus the rewards recorded. */
  function TotalReward(r: Rollout): real
  {
    r.prevReward + Sum(r.rewards)
  }

  /** `total_steps`: the steps carried in plus the steps recorded. */
  function TotalSteps(r: Rollout): int
  {
    r.prevSteps + NumSteps(r)
  }

  /** `step_model_outs`: `model_outs[:num_steps]`, Python's clamping slice. */
  function StepModelOuts(r: Rollout): seq<ModelOut>
  {
    if NumSteps(r) <= |r.modelOuts| then r.modelOuts[..NumSteps(r)] else r.modelOuts
  }

  /** `trunc_end`: the rollout holds a model output past its last reward. */
  predicate TruncEnd(r: Rollout)
  {
    |r.modelOuts| > NumSteps(r)
  }

  /** `empty_rollout`: nothing recorded yet. */
  function EmptyRollout(startState: RecState, prevSteps: int, prevReward: real): Rollout
  {
    Rollout([], [], [], startState, prevSteps, prevReward, 0.0, [])
  }
}
