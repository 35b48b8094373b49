/**
 * What the master's `RemoteRoller` (master/qwop_master/roller.py) does to its
 * caches, one handler at a time, as functions of the caches before and the
 * batch of state messages just read. The class in roller.dfy runs these same
 * steps in place; the lemmas here say what each handler achieves.
 *
 * Each handler is a left fold over the batch (or over the dictionary's keys):
 * the value after a prefix of the batch is what the source's loop holds after
 * that many iterations.
 */
module RollerSpec {
  import opened Common
  import opened Rollouts
  import opened Connection

  /**
   * The two caches: `_current_rollouts`, a dictionary whose insertion order
   * is kept in `order`, and `_completed_rollouts`.
   */
  datatype Caches = Caches(order: seq<EnvId>, current: map<EnvId, Rollout>, completed: seq<Rollout>)

  predicate Distinct(s: seq<EnvId>)
  {
    forall i, j :: 0 <= i < j < |s| ==> s[i] != s[j]
  }

  /** The dictionary's key order lists each key of the map exactly once. */
  ghost predicate KeysAgree(c: Caches)
  {
    Distinct(c.order) && forall k :: k in c.order <==> k in c.current
  }

  /**
   * A partial rollout between two iterations: one observation and one model
   * output per step taken, and more of each than rewards, since the reward
   * for the last action has not arrived yet (`trunc_end`).
   */
  predicate Open(r: Rollout)
  {
    |r.observations| == |r.modelOuts| > NumSteps(r)
  }

  /** What every iteration of `rollouts` preserves. */
  ghost predicate Invariant(c: Caches)
  {
    KeysAgree(c) && forall k :: k in c.current ==> Open(c.current[k])
  }

  lemma FrontMembers(s: seq<EnvId>)
    requires |s| > 0
    ensures forall y :: y in s <==> y in Front(s) || y == Last(s)
    ensures Distinct(s) ==> Distinct(Front(s)) && Last(s) !in Front(s)
  {
    assert s == Front(s) + [Last(s)];
  }

  /** `del d[x]` seen on the key order: x leaves it, the rest keep their order. */
  function Remove(s: seq<EnvId>, x: EnvId): (r: seq<EnvId>)
    ensures forall y :: y in r <==> y in s && y != x
    ensures Distinct(s) ==> Distinct(r)
    ensures x !in s ==> r == s
  {
    if s == [] then []
    else
      FrontMembers(s);
      var p := Remove(Front(s), x);
      if Last(s) == x then p else p + [Last(s)]
  }

  /** Removing from a concatenation removes from each part: the keys around x keep their order. */
  lemma {:induction false} RemoveConcat(s: seq<EnvId>, t: seq<EnvId>, x: EnvId)
    ensures Remove(s + t, x) == Remove(s, x) + Remove(t, x)
    decreases |t|
  {
    if t == [] {
      assert s + t == s;
    } else {
      assert Front(s + t) == s + Front(t) && Last(s + t) == Last(t);
      RemoveConcat(s, Front(t), x);
    }
  }

  /** With x listed once, removing it leaves the keys before it followed by the keys after it. */
  lemma RemoveOnce(a: seq<EnvId>, x: EnvId, b: seq<EnvId>)
    requires x !in a && x !in b
    ensures Remove(a + [x] + b, x) == a + b
  {
    RemoveConcat(a + [x], b, x);
    RemoveConcat(a, [x], x);
    assert Front([x]) == [];
  }

  // ---------------------------------------------------------------------
  // The batch, message by message
  // ---------------------------------------------------------------------

  /** How many messages of the batch come from environment k. */
  function Count(batch: seq<StateMsg>, k: EnvId): nat
  {
    if batch == [] then 0 else Count(Front(batch), k) + (if Last(batch).envId == k then 1 else 0)
  }

  /** The environments that sent a message flagged as the start of an episode. */
  function NewIds(batch: seq<StateMsg>): set<EnvId>
  {
    if batch == [] then {} else NewIds(Front(batch)) + (if Last(batch).isNew then {Last(batch).envId} else {})
  }

  /** The cumulative reward in k's last message of the batch, if it sent one. */
  function LastRew(batch: seq<StateMsg>, k: EnvId): (o: Option<real>)
    ensures o.None? <==> Count(batch, k) == 0
  {
    if batch == [] then None
    else if Last(batch).envId == k then Some(Last(batch).rew)
    else LastRew(Front(batch), k)
  }

  /** k's observations in the batch, in order. */
  function ObsOf(batch: seq<StateMsg>, k: EnvId): (o: seq<Obs>)
    ensures |o| == Count(batch, k)
  {
    if batch == [] then []
    else ObsOf(Front(batch), k) + (if Last(batch).envId == k then [Last(batch).obs] else [])
  }

  /** The model outputs for k's messages, in order (`outs` is aligned with the batch). */
  function OutsOf(batch: seq<StateMsg>, outs: seq<ModelOut>, k: EnvId): (o: seq<ModelOut>)
    requires |outs| == |batch|
    ensures |o| == Count(batch, k)
  {
    if batch == [] then []
    else OutsOf(Front(batch), Front(outs), k) + (if Last(batch).envId == k then [Last(outs)] else [])
  }

  /** The position of k's first message in the batch. */
  function FirstIndex(batch: seq<StateMsg>, k: EnvId): (i: nat)
    requires Count(batch, k) > 0
    ensures i < |batch| && batch[i].envId == k
    ensures Count(batch[..i], k) == 0
  {
    if Count(Front(batch), k) > 0 then
      var i := FirstIndex(Front(batch), k);
      assert Front(batch)[..i] == batch[..i];
      i
    else
      assert batch[..|batch| - 1] == Front(batch);
      |batch| - 1
  }

  // ---------------------------------------------------------------------
  // _handle_news
  // ---------------------------------------------------------------------

  /** An episode ends: the last action earns nothing, and the rollout is stamped. */
  function CloseEpisode(r: Rollout, now: real): Rollout
  {
    r.(rewards := r.rewards + [0.0], endTime := now)
  }

  function NewsStep(c: Caches, m: StateMsg, now: real): Caches
  {
    if m.isNew && m.envId in c.current then
      Caches(Remove(c.order, m.envId), c.current - {m.envId},
             c.completed + [CloseEpisode(c.current[m.envId], now)])
    else c
  }

  /** The caches after `_handle_news` has gone through the batch. */
  function AfterNews(c: Caches, batch: seq<StateMsg>, now: real): Caches
  {
    if batch == [] then c else NewsStep(AfterNews(c, Front(batch), now), Last(batch), now)
  }

  /**
   * The environments whose rollout the batch closes, in the order it closes
   * them: those active at the start with a message flagged new.
   */
  function ClosedOrder(active: set<EnvId>, batch: seq<StateMsg>): seq<EnvId>
  {
    if batch == [] then []
    else
      var p := ClosedOrder(active, Front(batch));
      var m := Last(batch);
      if m.isNew && m.envId in active && m.envId !in p then p + [m.envId] else p
  }

  lemma {:induction false} ClosedOrderMembers(active: set<EnvId>, batch: seq<StateMsg>)
    ensures forall k :: k in ClosedOrder(active, batch) <==> k in active && k in NewIds(batch)
    ensures Distinct(ClosedOrder(active, batch))
  {
    if batch != [] {
      ClosedOrderMembers(active, Front(batch));
    }
  }

  /** The closed rollouts, in closing order. */
  function CloseAll(current: map<EnvId, Rollout>, ids: seq<EnvId>, now: real): (rs: seq<Rollout>)
    requires forall k :: k in ids ==> k in current
    ensures |rs| == |ids|
  {
    seq(|ids|, i requires 0 <= i < |ids| => CloseEpisode(current[ids[i]], now))
  }

  /**
   * `_handle_news`: an environment that starts a new episode takes its
   * active rollout, if any, out of the active ones and into the completed
   * ones, closed; nothing else changes.
   */
  lemma {:induction false} NewsEffect(c: Caches, batch: seq<StateMsg>, now: real)
    ensures forall k :: k in ClosedOrder(c.current.Keys, batch) ==> k in c.current
    ensures AfterNews(c, batch, now).current == c.current - NewIds(batch)
    ensures AfterNews(c, batch, now).completed ==
            c.completed + CloseAll(c.current, ClosedOrder(c.current.Keys, batch), now)
    ensures KeysAgree(c) ==> KeysAgree(AfterNews(c, batch, now))
  {
    ClosedOrderMembers(c.current.Keys, batch);
    if batch != [] {
      var p := Front(batch);
      var m := Last(batch);
      NewsEffect(c, p, now);
      ClosedOrderMembers(c.current.Keys, p);
      var cp := AfterNews(c, p, now);
      var ids := ClosedOrder(c.current.Keys, p);
      if m.isNew && m.envId in cp.current {
        assert m.envId in c.current && m.envId !in ids;
        var ids' := ids + [m.envId];
        assert ClosedOrder(c.current.Keys, batch) == ids';
        assert CloseAll(c.current, ids', now) ==
               CloseAll(c.current, ids, now) + [CloseEpisode(c.current[m.envId], now)];
        assert cp.current - {m.envId} == c.current - NewIds(batch);
      } else {
        assert ClosedOrder(c.current.Keys, batch) == ids;
        assert cp.current == c.current - NewIds(batch);
      }
    }
  }

  // ---------------------------------------------------------------------
  // _handle_rewards
  // ---------------------------------------------------------------------

  /**
   * A cumulative reward arrives: the last action earned the difference
   * between it and what the rollout has collected so far.
   */
  function CreditReward(r: Rollout, cumulative: real): (r': Rollout)
    ensures TotalReward(r') == cumulative
    ensures |r'.rewards| == |r.rewards| + 1 && r'.rewards[..|r.rewards|] == r.rewards
    ensures r' == r.(rewards := r'.rewards)
  {
    SumAppend(r.rewards, cumulative - TotalReward(r));
    var r' := r.(rewards := r.rewards + [cumulative - TotalReward(r)]);
    assert r'.rewards[..|r.rewards|] == r.rewards;
    r'
  }

  function RewardStep(current: map<EnvId, Rollout>, m: StateMsg): map<EnvId, Rollout>
  {
    if m.envId in current then current[m.envId := CreditReward(current[m.envId], m.rew)] else current
  }

  /** The active rollouts after `_handle_rewards` has gone through the batch. */
  function AfterRewards(current: map<EnvId, Rollout>, batch: seq<StateMsg>): map<EnvId, Rollout>
  {
    if batch == [] then current else RewardStep(AfterRewards(current, Front(batch)), Last(batch))
  }

  /**
   * `_handle_rewards`: the set of active rollouts stays the same; each one
   * gains one reward per message of its environment, keeps what it had, and
   * afterwards its total reward is the cumulative reward of the environment's
   * last message. Rollouts of environments that sent nothing are untouched,
   * and messages of inactive environments are dropped.
   */
  lemma {:induction false} RewardsEffect(current: map<EnvId, Rollout>, batch: seq<StateMsg>)
    ensures AfterRewards(current, batch).Keys == current.Keys
    ensures forall k :: k in current ==>
              var r := current[k];
              var r' := AfterRewards(current, batch)[k];
              && r' == r.(rewards := r'.rewards)
              && |r'.rewards| == |r.rewards| + Count(batch, k)
              && r'.rewards[..|r.rewards|] == r.rewards
              && (LastRew(batch, k).Some? ==> TotalReward(r') == LastRew(batch, k).value)
              && (LastRew(batch, k).None? ==> r' == r)
  {
    if batch != [] {
      var p := Front(batch);
      var m := Last(batch);
      RewardsEffect(current, p);
      var cp := AfterRewards(current, p);
      forall k | k in current
        ensures var r := current[k];
                var r' := AfterRewards(current, batch)[k];
                && r' == r.(rewards := r'.rewards)
                && |r'.rewards| == |r.rewards| + Count(batch, k)
                && r'.rewards[..|r.rewards|] == r.rewards
                && (LastRew(batch, k).Some? ==> TotalReward(r') == LastRew(batch, k).value)
                && (LastRew(batch, k).None? ==> r' == r)
      {
        if k == m.envId {
          var r := current[k];
          var rp := cp[k];
          var r' := CreditReward(rp, m.rew);
          assert AfterRewards(current, batch)[k] == r';
          assert r'.rewards[..|r.rewards|] == rp.rewards[..|r.rewards|];
        }
      }
    }
  }

  // ---------------------------------------------------------------------
  // _state_batch
  // ---------------------------------------------------------------------

  /**
   * The recurrent state the model starts from for environment k: the state
   * after the last rewarded step of its rollout, the rollout's start state if
   * no step is rewarded yet, the model's initial state if k has no rollout.
   */
  function SlotState(current: map<EnvId, Rollout>, k: EnvId, initial: RecState): RecState
  {
    if k in current then
      var r := current[k];
      if |StepModelOuts(r)| > 0 then Last(StepModelOuts(r)).states else r.startState
    else initial
  }

  /** The environment ids of a batch, in order. */
  function EnvIds(batch: seq<StateMsg>): (ids: seq<EnvId>)
    ensures |ids| == |batch|
  {
    seq(|batch|, i requires 0 <= i < |batch| => batch[i].envId)
  }

  /** `_state_batch`: one slot per environment id, in order. */
  function SlotStates(current: map<EnvId, Rollout>, ids: seq<EnvId>, initial: RecState): (s: seq<RecState>)
    ensures |s| == |ids|
  {
    seq(|ids|, i requires 0 <= i < |ids| => SlotState(current, ids[i], initial))
  }

  /**
   * Once the reward for its last action is in, an environment with one
   * unrewarded step continues from the state its last model output produced.
   */
  lemma SlotContinues(current: map<EnvId, Rollout>, batch: seq<StateMsg>, k: EnvId, initial: RecState)
    requires k in current && |current[k].modelOuts| == NumSteps(current[k]) + 1
    requires Count(batch, k) > 0
    ensures SlotState(AfterRewards(current, batch), k, initial) == Last(current[k].modelOuts).states
  {
    RewardsEffect(current, batch);
    var r' := AfterRewards(current, batch)[k];
    assert r'.modelOuts == current[k].modelOuts;
    assert StepModelOuts(r') == r'.modelOuts;
  }

  /** An environment without an active rollout starts from the model's initial state. */
  lemma SlotOfNewcomer(current: map<EnvId, Rollout>, batch: seq<StateMsg>, k: EnvId, initial: RecState)
    requires k !in current
    ensures SlotState(AfterRewards(current, batch), k, initial) == initial
  {
    RewardsEffect(current, batch);
  }

  // ---------------------------------------------------------------------
  // _handle_step_taken
  // ---------------------------------------------------------------------

  /** A rollout after more steps: observations and model outputs appended, stamped. */
  function Grown(r: Rollout, obs: seq<Obs>, outs: seq<ModelOut>, now: real): Rollout
  {
    r.(endTime := now, observations := r.observations + obs, modelOuts := r.modelOuts + outs)
  }

  /** One message's step, keyed by its environment (an unknown one gets a new rollout). */
  function TakeStep(c: Caches, m: StateMsg, start: RecState, out: ModelOut, now: real): Caches
  {
    var known := m.envId in c.current;
    var base := if known then c.current[m.envId] else EmptyRollout(start, 0, 0.0);
    Caches(if known then c.order else c.order + [m.envId],
           c.current[m.envId := Grown(base, [m.obs], [out], now)],
           c.completed)
  }

  /** The caches after `_handle_step_taken`; `starts` and `outs` are aligned with the batch. */
  function AfterSteps(c: Caches, batch: seq<StateMsg>, starts: seq<RecState>, outs: seq<ModelOut>, now: real): Caches
    requires |starts| == |batch| && |outs| == |batch|
  {
    if batch == [] then c
    else TakeStep(AfterSteps(c, Front(batch), Front(starts), Front(outs), now),
                  Last(batch), Last(starts), Last(outs), now)
  }

  /**
   * The rollout k's steps are appended to: its active one, or a new one from
   * the start state of k's first message.
   */
  function Base(current: map<EnvId, Rollout>, batch: seq<StateMsg>, starts: seq<RecState>, k: EnvId): Rollout
    requires |starts| == |batch| && (k in current || Count(batch, k) > 0)
  {
    if k in current then current[k] else EmptyRollout(starts[FirstIndex(batch, k)], 0, 0.0)
  }

  /** The keys, the key order and the completed rollouts under `_handle_step_taken`. */
  lemma {:induction false} StepsKeys(c: Caches, batch: seq<StateMsg>, starts: seq<RecState>,
                                     outs: seq<ModelOut>, now: real)
    requires |starts| == |batch| && |outs| == |batch|
    ensures AfterSteps(c, batch, starts, outs, now).completed == c.completed
    ensures forall k :: k in AfterSteps(c, batch, starts, outs, now).current <==> k in c.current || Count(batch, k) > 0
    ensures |AfterSteps(c, batch, starts, outs, now).order| >= |c.order|
    ensures AfterSteps(c, batch, starts, outs, now).order[..|c.order|] == c.order
    ensures KeysAgree(c) ==> KeysAgree(AfterSteps(c, batch, starts, outs, now))
  {
    if batch != [] {
      var p, sp, op := Front(batch), Front(starts), Front(outs);
      var m := Last(batch);
      StepsKeys(c, p, sp, op, now);
      var cp := AfterSteps(c, p, sp, op, now);
      var c' := AfterSteps(c, batch, starts, outs, now);
      assert c' == TakeStep(cp, m, Last(starts), Last(outs), now);
      assert c'.order[..|c.order|] == cp.order[..|c.order|];
      if KeysAgree(c) {
        TakeStepKeysAgree(cp, m, Last(starts), Last(outs), now);
      }
    }
  }

  /** One step keeps the key order in step with the dictionary. */
  lemma TakeStepKeysAgree(c: Caches, m: StateMsg, start: RecState, out: ModelOut, now: real)
    requires KeysAgree(c)
    ensures KeysAgree(TakeStep(c, m, start, out, now))
  {
    if m.envId !in c.current {
      assert forall i :: 0 <= i < |c.order| ==> c.order[i] in c.current;
    }
  }

  /** Rollouts of environments absent from the batch are untouched. */
  lemma {:induction false} StepsUntouched(c: Caches, batch: seq<StateMsg>, starts: seq<RecState>,
                                          outs: seq<ModelOut>, now: real, k: EnvId)
    requires |starts| == |batch| && |outs| == |batch|
    requires k in c.current && Count(batch, k) == 0
    ensures k in AfterSteps(c, batch, starts, outs, now).current
    ensures AfterSteps(c, batch, starts, outs, now).current[k] == c.current[k]
  {
    if batch != [] {
      StepsUntouched(c, Front(batch), Front(starts), Front(outs), now, k);
    }
  }

  lemma GrownTwice(r: Rollout, o1: seq<Obs>, u1: seq<ModelOut>, o2: seq<Obs>, u2: seq<ModelOut>, now: real)
    ensures Grown(Grown(r, o1, u1, now), o2, u2, now) == Grown(r, o1 + o2, u1 + u2, now)
  {
    assert r.observations + o1 + o2 == r.observations + (o1 + o2);
    assert r.modelOuts + u1 + u2 == r.modelOuts + (u1 + u2);
  }

  /** The step of the batch's last message, on k's rollout. */
  lemma StepLast(c: Caches, batch: seq<StateMsg>, starts: seq<RecState>, outs: seq<ModelOut>, now: real)
    requires |starts| == |batch| && |outs| == |batch| && |batch| > 0
    ensures var cp := AfterSteps(c, Front(batch), Front(starts), Front(outs), now);
            var m := Last(batch);
            && AfterSteps(c, batch, starts, outs, now).current ==
               cp.current[m.envId := Grown(if m.envId in cp.current then cp.current[m.envId]
                                           else EmptyRollout(Last(starts), 0, 0.0),
                                           [m.obs], [Last(outs)], now)]
            && ObsOf(batch, m.envId) == ObsOf(Front(batch), m.envId) + [m.obs]
            && OutsOf(batch, outs, m.envId) == OutsOf(Front(batch), Front(outs), m.envId) + [Last(outs)]
  {
  }

  /** An environment of the batch: its rollout grows by its messages, in order. */
  lemma {:induction false} StepsGrow(c: Caches, batch: seq<StateMsg>, starts: seq<RecState>,
                                     outs: seq<ModelOut>, now: real, k: EnvId)
    requires |starts| == |batch| && |outs| == |batch|
    requires Count(batch, k) > 0
    ensures k in AfterSteps(c, batch, starts, outs, now).current
    ensures AfterSteps(c, batch, starts, outs, now).current[k] ==
            Grown(Base(c.current, batch, starts, k), ObsOf(batch, k), OutsOf(batch, outs, k), now)
  {
    var p, sp, op := Front(batch), Front(starts), Front(outs);
    if Last(batch).envId != k {
      StepsGrow(c, p, sp, op, now, k);
      StepOther(c, batch, starts, outs, now, k);
    } else if Count(p, k) > 0 {
      StepsGrow(c, p, sp, op, now, k);
      StepAgain(c, batch, starts, outs, now);
    } else {
      StepFirst(c, batch, starts, outs, now);
    }
  }

  /** The batch's last message is not k's: k's rollout is as after the rest. */
  lemma StepOther(c: Caches, batch: seq<StateMsg>, starts: seq<RecState>,
                  outs: seq<ModelOut>, now: real, k: EnvId)
    requires |starts| == |batch| && |outs| == |batch| && |batch| > 0
    requires Last(batch).envId != k && Count(Front(batch), k) > 0
    requires k in AfterSteps(c, Front(batch), Front(starts), Front(outs), now).current
    requires AfterSteps(c, Front(batch), Front(starts), Front(outs), now).current[k] ==
             Grown(Base(c.current, Front(batch), Front(starts), k), ObsOf(Front(batch), k),
                   OutsOf(Front(batch), Front(outs), k), now)
    ensures k in AfterSteps(c, batch, starts, outs, now).current
    ensures AfterSteps(c, batch, starts, outs, now).current[k] ==
            Grown(Base(c.current, batch, starts, k), ObsOf(batch, k), OutsOf(batch, outs, k), now)
  {
    assert Base(c.current, batch, starts, k) == Base(c.current, Front(batch), Front(starts), k);
  }

  /** The batch's last message is k's, and k already stepped earlier in the batch. */
  lemma StepAgain(c: Caches, batch: seq<StateMsg>, starts: seq<RecState>, outs: seq<ModelOut>, now: real)
    requires |starts| == |batch| && |outs| == |batch| && |batch| > 0
    requires Count(Front(batch), Last(batch).envId) > 0
    requires Last(batch).envId in AfterSteps(c, Front(batch), Front(starts), Front(outs), now).current
    requires AfterSteps(c, Front(batch), Front(starts), Front(outs), now).current[Last(batch).envId] ==
             Grown(Base(c.current, Front(batch), Front(starts), Last(batch).envId),
                   ObsOf(Front(batch), Last(batch).envId), OutsOf(Front(batch), Front(outs), Last(batch).envId), now)
    ensures Last(batch).envId in AfterSteps(c, batch, starts, outs, now).current
    ensures AfterSteps(c, batch, starts, outs, now).current[Last(batch).envId] ==
            Grown(Base(c.current, batch, starts, Last(batch).envId), ObsOf(batch, Last(batch).envId),
                  OutsOf(batch, outs, Last(batch).envId), now)
  {
    var k := Last(batch).envId;
    var p, sp, op := Front(batch), Front(starts), Front(outs);
    StepLast(c, batch, starts, outs, now);
    var b := Base(c.current, p, sp, k);
    assert Base(c.current, batch, starts, k) == b;
    GrownTwice(b, ObsOf(p, k), OutsOf(p, op, k), [Last(batch).obs], [Last(outs)], now);
  }

  /** The batch's last message is k's first. */
  lemma StepFirst(c: Caches, batch: seq<StateMsg>, starts: seq<RecState>, outs: seq<ModelOut>, now: real)
    requires |starts| == |batch| && |outs| == |batch| && |batch| > 0
    requires Count(Front(batch), Last(batch).envId) == 0
    ensures Last(batch).envId in AfterSteps(c, batch, starts, outs, now).current
    ensures AfterSteps(c, batch, starts, outs, now).current[Last(batch).envId] ==
            Grown(Base(c.current, batch, starts, Last(batch).envId), ObsOf(batch, Last(batch).envId),
                  OutsOf(batch, outs, Last(batch).envId), now)
  {
    var k := Last(batch).envId;
    var p, sp, op := Front(batch), Front(starts), Front(outs);
    var cp := AfterSteps(c, p, sp, op, now);
    StepLast(c, batch, starts, outs, now);
    StepsKeys(c, p, sp, op, now);
    assert ObsOf(p, k) == [] && OutsOf(p, op, k) == [];
    assert ObsOf(batch, k) == [Last(batch).obs] && OutsOf(batch, outs, k) == [Last(outs)];
    if k in c.current {
      StepsUntouched(c, p, sp, op, now, k);
      assert cp.current[k] == c.current[k] == Base(c.current, batch, starts, k);
    } else {
      assert k !in cp.current;
      assert FirstIndex(batch, k) == |batch| - 1;
      assert Base(c.current, batch, starts, k) == EmptyRollout(Last(starts), 0, 0.0);
    }
  }

  // ---------------------------------------------------------------------
  // _remove_timeouts
  // ---------------------------------------------------------------------

  /** A rollout nobody has stepped for longer than the timeout. */
  predicate Expired(r: Rollout, timeout: real, now: real)
  {
    r.endTime + timeout < now
  }

  function DropIfExpired(c: Caches, k: EnvId, timeout: real, now: real): Caches
  {
    if k in c.current && Expired(c.current[k], timeout, now) then
      c.(order := Remove(c.order, k), current := c.current - {k})
    else c
  }

  /** The caches after `_remove_timeouts` has gone through a snapshot of the keys. */
  function AfterTimeouts(c: Caches, keys: seq<EnvId>, timeout: real, now: real): Caches
  {
    if keys == [] then c else DropIfExpired(AfterTimeouts(c, Front(keys), timeout, now), Last(keys), timeout, now)
  }

  lemma {:induction false} TimeoutsEffect(c: Caches, keys: seq<EnvId>, timeout: real, now: real)
    ensures AfterTimeouts(c, keys, timeout, now).completed == c.completed
    ensures AfterTimeouts(c, keys, timeout, now).current ==
            map k | k in c.current && !(k in keys && Expired(c.current[k], timeout, now)) :: c.current[k]
    ensures KeysAgree(c) ==> KeysAgree(AfterTimeouts(c, keys, timeout, now))
  {
    if keys != [] {
      FrontMembers(keys);
      TimeoutsEffect(c, Front(keys), timeout, now);
    }
  }

  /**
   * `_remove_timeouts`: exactly the expired rollouts leave the active ones,
   * the others stay as they were.
   */
  lemma TimeoutsExact(c: Caches, timeout: real, now: real)
    requires KeysAgree(c)
    ensures AfterTimeouts(c, c.order, timeout, now).current ==
            map k | k in c.current && !Expired(c.current[k], timeout, now) :: c.current[k]
    ensures KeysAgree(AfterTimeouts(c, c.order, timeout, now))
    ensures AfterTimeouts(c, c.order, timeout, now).completed == c.completed
  {
    TimeoutsEffect(c, c.order, timeout, now);
  }

  // ---------------------------------------------------------------------
  // _has_enough_rollouts and _extract_usable_rollouts
  // ---------------------------------------------------------------------

  /** The active rollouts that have reached the minimum horizon, in key order. */
  function ReadyRollouts(keys: seq<EnvId>, current: map<EnvId, Rollout>, minHorizon: int): (rs: seq<Rollout>)
    requires forall k :: k in keys ==> k in current
    ensures |rs| <= |keys|
    ensures forall i :: 0 <= i < |rs| ==> NumSteps(rs[i]) >= minHorizon
  {
    if keys == [] then []
    else
      FrontMembers(keys);
      var p := ReadyRollouts(Front(keys), current, minHorizon);
      var r := current[Last(keys)];
      if NumSteps(r) >= minHorizon then p + [r] else p
  }

  /** The environments whose active rollout has reached the minimum horizon. */
  ghost function ReadySet(current: map<EnvId, Rollout>, minHorizon: int): set<EnvId>
  {
    set k | k in current && NumSteps(current[k]) >= minHorizon
  }

  lemma {:induction false} ReadyCountOf(keys: seq<EnvId>, current: map<EnvId, Rollout>, minHorizon: int)
    requires Distinct(keys) && forall k :: k in keys ==> k in current
    ensures |ReadyRollouts(keys, current, minHorizon)| ==
            |set k | k in keys && k in current && NumSteps(current[k]) >= minHorizon|
  {
    if keys != [] {
      FrontMembers(keys);
      ReadyCountOf(Front(keys), current, minHorizon);
      var x := Last(keys);
      var before := set k | k in Front(keys) && k in current && NumSteps(current[k]) >= minHorizon;
      var after := set k | k in keys && k in current && NumSteps(current[k]) >= minHorizon;
      if NumSteps(current[x]) >= minHorizon {
        assert after == before + {x};
      } else {
        assert after == before;
      }
    }
  }

  /**
   * The loop of `_has_enough_rollouts` counts, besides the completed
   * rollouts, exactly the environments whose active rollout has reached the
   * minimum horizon.
   */
  lemma ReadyCount(c: Caches, minHorizon: int)
    requires KeysAgree(c)
    ensures |ReadyRollouts(c.order, c.current, minHorizon)| == |ReadySet(c.current, minHorizon)|
  {
    ReadyCountOf(c.order, c.current, minHorizon);
    assert (set k | k in c.order && k in c.current && NumSteps(c.current[k]) >= minHorizon) ==
           ReadySet(c.current, minHorizon);
  }

  /** `_has_enough_rollouts` as evidently intended: compare the count with `min_rollouts` itself. */
  function EnoughRollouts(c: Caches, minHorizon: int, minRollouts: int): bool
    requires forall k :: k in c.order ==> k in c.current
  {
    |c.completed| + |ReadyRollouts(c.order, c.current, minHorizon)| >= minRollouts
  }

  /** With the keys in order, "enough" means enough completed or ready rollouts. */
  lemma EnoughMeansCount(c: Caches, minHorizon: int, minRollouts: int)
    requires KeysAgree(c)
    ensures EnoughRollouts(c, minHorizon, minRollouts) <==>
            |c.completed| + |ReadySet(c.current, minHorizon)| >= minRollouts
  {
    ReadyCount(c, minHorizon);
  }

  /**
   * What stays of a ready rollout: a fresh rollout that carries its totals
   * forward and starts from the state after its last rewarded step, holding
   * the last observation and model output, whose reward is still to come.
   */
  function Continuation(r: Rollout, now: real): (c: Rollout)
    requires Open(r) && NumSteps(r) >= 1
    ensures Open(c) && NumSteps(c) == 0
    ensures c.startState == r.modelOuts[NumSteps(r) - 1].states
    ensures c.observations == [Last(r.observations)] && c.modelOuts == [Last(r.modelOuts)]
    ensures TotalSteps(c) == TotalSteps(r) && TotalReward(c) == TotalReward(r)
    ensures c.endTime == now && c.infos == []
  {
    var start := EmptyRollout(Last(StepModelOuts(r)).states, TotalSteps(r), TotalReward(r));
    start.(observations := start.observations + [Last(r.observations)],
           modelOuts := start.modelOuts + [Last(r.modelOuts)],
           endTime := now)
  }

  /** An active rollout after extraction. */
  function Refreshed(r: Rollout, minHorizon: int, now: real): Rollout
    requires Open(r) && minHorizon >= 1
  {
    if NumSteps(r) >= minHorizon then Continuation(r, now) else r
  }

  /** The info slots anyrl expects: one empty dictionary per step. */
  function WithEmptyInfos(r: Rollout): Rollout
  {
    r.(infos := seq(NumSteps(r), _ => map[]))
  }

  function StampInfos(rs: seq<Rollout>): (out: seq<Rollout>)
    ensures |out| == |rs|
  {
    seq(|rs|, i requires 0 <= i < |rs| => WithEmptyInfos(rs[i]))
  }

  /** What `_extract_usable_rollouts` returns: the completed rollouts, then the ready ones. */
  function Usable(c: Caches, minHorizon: int): seq<Rollout>
    requires forall k :: k in c.order ==> k in c.current
  {
    StampInfos(c.completed + ReadyRollouts(c.order, c.current, minHorizon))
  }

  /** The caches `_extract_usable_rollouts` leaves behind. */
  ghost function AfterExtraction(c: Caches, minHorizon: int, now: real): Caches
    requires Invariant(c) && minHorizon >= 1
  {
    Caches(c.order, map k | k in c.current :: Refreshed(c.current[k], minHorizon, now), [])
  }

  /** The active rollouts once the loop of extraction has gone through the keys in `done`. */
  ghost predicate RefreshedUpTo(c: Caches, cur: map<EnvId, Rollout>, done: seq<EnvId>, minHorizon: int, now: real)
    requires Invariant(c) && minHorizon >= 1
  {
    && cur.Keys == c.current.Keys
    && forall k :: k in c.current ==>
         cur[k] == if k in done then Refreshed(c.current[k], minHorizon, now) else c.current[k]
  }

  /** One more key of the extraction loop: the ready list and the refreshed map grow together. */
  lemma RefreshStep(c: Caches, cur: map<EnvId, Rollout>, i: nat, minHorizon: int, now: real)
    requires Invariant(c) && minHorizon >= 1 && i < |c.order|
    requires RefreshedUpTo(c, cur, c.order[..i], minHorizon, now)
    ensures c.order[i] in cur && cur[c.order[i]] == c.current[c.order[i]]
    ensures RefreshedUpTo(c, cur[c.order[i] := Refreshed(cur[c.order[i]], minHorizon, now)],
                          c.order[..i + 1], minHorizon, now)
    ensures ReadyRollouts(c.order[..i + 1], c.current, minHorizon) ==
            ReadyRollouts(c.order[..i], c.current, minHorizon) +
            (if NumSteps(c.current[c.order[i]]) >= minHorizon then [c.current[c.order[i]]] else [])
  {
    var key := c.order[i];
    assert c.order[..i + 1] == c.order[..i] + [key];
    assert Front(c.order[..i + 1]) == c.order[..i];
    assert key !in c.order[..i];
  }

  /** Once the loop has gone through every key, the map is the one extraction leaves. */
  lemma RefreshedAll(c: Caches, cur: map<EnvId, Rollout>, minHorizon: int, now: real)
    requires Invariant(c) && minHorizon >= 1
    requires RefreshedUpTo(c, cur, c.order[..|c.order|], minHorizon, now)
    ensures cur == AfterExtraction(c, minHorizon, now).current
  {
    assert c.order[..|c.order|] == c.order;
  }

  /**
   * `_extract_usable_rollouts` hands back as many rollouts as
   * `_has_enough_rollouts` counted, each with one empty info per step, the
   * ready ones ending in a model output (the `trunc_end` assertion holds).
   */
  lemma UsableRollouts(c: Caches, minHorizon: int)
    requires Invariant(c)
    ensures |Usable(c, minHorizon)| == |c.completed| + |ReadySet(c.current, minHorizon)|
    ensures forall i :: 0 <= i < |Usable(c, minHorizon)| ==>
              var r := Usable(c, minHorizon)[i];
              |r.infos| == NumSteps(r) && forall j :: 0 <= j < |r.infos| ==> r.infos[j] == map[]
    ensures forall r :: r in ReadyRollouts(c.order, c.current, minHorizon) ==>
              NumSteps(r) >= minHorizon && TruncEnd(r)
  {
    ReadyCount(c, minHorizon);
    ReadyMembers(c.order, c.current, minHorizon);
  }

  /**
   * After extraction no rollout is completed or ready, the invariant still
   * holds, and every environment keeps an active rollout with its totals.
   */
  lemma ExtractionKeepsInvariant(c: Caches, minHorizon: int, now: real)
    requires Invariant(c) && minHorizon >= 1
    ensures Invariant(AfterExtraction(c, minHorizon, now))
    ensures var c' := AfterExtraction(c, minHorizon, now);
            && c'.completed == []
            && c'.current.Keys == c.current.Keys
            && (forall k :: k in c'.current ==>
                  NumSteps(c'.current[k]) < minHorizon
                  && TotalSteps(c'.current[k]) == TotalSteps(c.current[k])
                  && TotalReward(c'.current[k]) == TotalReward(c.current[k]))
  {
  }

  lemma {:induction false} ReadyMembers(keys: seq<EnvId>, current: map<EnvId, Rollout>, minHorizon: int)
    requires forall k :: k in keys ==> k in current
    ensures forall r :: r in ReadyRollouts(keys, current, minHorizon) ==>
              exists k :: k in keys && current[k] == r
  {
    if keys != [] {
      FrontMembers(keys);
      ReadyMembers(Front(keys), current, minHorizon);
    }
  }

  // ---------------------------------------------------------------------
  // One iteration of `rollouts`
  // ---------------------------------------------------------------------

  /**
   * The clock as one iteration reads it: when `_handle_news` stamps the
   * rollouts it closes, when `_handle_step_taken` stamps the rollouts it
   * steps, and when `_remove_timeouts` compares with the stamps.
   */
  datatype Ticks = Ticks(news: real, steps: real, check: real)

  /**
   * The caches after one iteration on a batch, with `outs` the model's
   * outputs for the batch, `initial` the model's initial recurrent state and
   * `t` the clock readings.
   */
  function Iterate(c: Caches, batch: seq<StateMsg>, outs: seq<ModelOut>, initial: RecState,
                   t: Ticks, timeout: real): Caches
    requires |outs| == |batch|
  {
    var c1 := AfterNews(c, batch, t.news);
    var c2 := c1.(current := AfterRewards(c1.current, batch));
    var c3 := AfterSteps(c2, batch, SlotStates(c2.current, EnvIds(batch), initial), outs, t.steps);
    AfterTimeouts(c3, c3.order, timeout, t.check)
  }

  /** Rewards then steps keep every rollout open. */
  lemma RewardsThenSteps(c1: Caches, batch: seq<StateMsg>, starts: seq<RecState>, outs: seq<ModelOut>,
                         now: real, k: EnvId)
    requires |starts| == |batch| && |outs| == |batch|
    requires forall j :: j in c1.current ==> Open(c1.current[j])
    requires k in AfterSteps(c1.(current := AfterRewards(c1.current, batch)), batch, starts, outs, now).current
    ensures Open(AfterSteps(c1.(current := AfterRewards(c1.current, batch)), batch, starts, outs, now).current[k])
  {
    var c2 := c1.(current := AfterRewards(c1.current, batch));
    RewardsEffect(c1.current, batch);
    StepsKeys(c2, batch, starts, outs, now);
    if Count(batch, k) == 0 {
      StepsUntouched(c2, batch, starts, outs, now, k);
    } else {
      StepsGrow(c2, batch, starts, outs, now, k);
    }
  }

  /**
   * Every iteration of `rollouts` keeps the invariant: the key order lists
   * the active environments once each, and every active rollout is open.
   * With a non-negative timeout, every environment that sent a state has an
   * active rollout afterwards, and no completed rollout is lost.
   */
  lemma IterationKeepsInvariant(c: Caches, batch: seq<StateMsg>, outs: seq<ModelOut>, initial: RecState,
                                t: Ticks, timeout: real)
    requires Invariant(c) && |outs| == |batch|
    ensures Invariant(Iterate(c, batch, outs, initial, t, timeout))
    ensures timeout >= t.check - t.steps ==>
              forall k :: Count(batch, k) > 0 ==> k in Iterate(c, batch, outs, initial, t, timeout).current
    ensures |Iterate(c, batch, outs, initial, t, timeout).completed| >= |c.completed|
    ensures Iterate(c, batch, outs, initial, t, timeout).completed[..|c.completed|] == c.completed
  {
    var c1 := AfterNews(c, batch, t.news);
    NewsEffect(c, batch, t.news);
    var c2 := c1.(current := AfterRewards(c1.current, batch));
    RewardsEffect(c1.current, batch);
    var starts := SlotStates(c2.current, EnvIds(batch), initial);
    var c3 := AfterSteps(c2, batch, starts, outs, t.steps);
    StepsKeys(c2, batch, starts, outs, t.steps);
    forall k | k in c3.current
      ensures Open(c3.current[k])
    {
      RewardsThenSteps(c1, batch, starts, outs, t.steps, k);
    }
    TimeoutsExact(c3, timeout, t.check);
    if timeout >= t.check - t.steps {
      forall k | Count(batch, k) > 0
        ensures k in Iterate(c, batch, outs, initial, t, timeout).current
      {
        StepsGrow(c2, batch, starts, outs, t.steps, k);
      }
    }
    assert (c.completed + CloseAll(c.current, ClosedOrder(c.current.Keys, batch), t.news))[..|c.completed|] == c.completed;
  }

  /**
   * One environment sends three states, each read as a batch of its own:
   * cumulative rewards 1.0 and 3.0, then the start of a new episode. The
   * first state opens the rollout without crediting anything, so the
   * closed rollout holds the rewards 3.0 (the whole cumulative reward so
   * far) and 0.0 (the episode's last action), and the environment's active
   * rollout is a new one that starts at the third state.
   */
  lemma ThreeStatesScenario(o1: Obs, o2: Obs, o3: Obs, u: ModelOut, s: RecState, now: real, timeout: real)
    requires timeout >= 0.0
    ensures var c0 := Caches([], map[], []);
            var c1 := Iterate(c0, [StateMsg("A", o1, 1.0, false)], [u], s, Ticks(now, now, now), timeout);
            var c2 := Iterate(c1, [StateMsg("A", o2, 3.0, false)], [u], s, Ticks(now, now, now), timeout);
            var c3 := Iterate(c2, [StateMsg("A", o3, 0.0, true)], [u], s, Ticks(now, now, now), timeout);
            && |c3.completed| == 1
            && c3.completed[0].rewards == [3.0, 0.0]
            && c3.completed[0].observations == [o1, o2]
            && "A" in c3.current && c3.current["A"].observations == [o3] && c3.current["A"].rewards == []
  {
    var m1, m2, m3 := StateMsg("A", o1, 1.0, false), StateMsg("A", o2, 3.0, false), StateMsg("A", o3, 0.0, true);
    var r1 := Grown(EmptyRollout(s, 0, 0.0), [o1], [u], now);
    var r2 := Grown(CreditReward(r1, 3.0), [o2], [u], now);
    var t := Ticks(now, now, now);
    var c1 := Iterate(Caches([], map[], []), [m1], [u], s, t, timeout);
    ScenarioOpen(o1, u, s, now, timeout);
    assert c1 == Caches(["A"], map["A" := r1], []);
    var c2 := Iterate(c1, [m2], [u], s, t, timeout);
    ScenarioCredit(o1, o2, u, s, now, timeout);
    assert c2 == Caches(["A"], map["A" := r2], []);
    ScenarioClose(r2, o3, u, s, now, timeout);
    assert CloseEpisode(r2, now).rewards == [3.0, 0.0];
    var r3 := Grown(EmptyRollout(s, 0, 0.0), [o3], [u], now);
    assert r3.observations == [o3] && r3.rewards == [];
  }

  /** The first state of the scenario opens the rollout and credits nothing. */
  lemma ScenarioOpen(o1: Obs, u: ModelOut, s: RecState, now: real, timeout: real)
    requires timeout >= 0.0
    ensures Iterate(Caches([], map[], []), [StateMsg("A", o1, 1.0, false)], [u], s, Ticks(now, now, now), timeout)
            == Caches(["A"], map["A" := Grown(EmptyRollout(s, 0, 0.0), [o1], [u], now)], [])
  {
    var m1 := StateMsg("A", o1, 1.0, false);
    var c0 := Caches([], map[], []);
    assert Front([m1]) == [] && Front([u]) == [] && Front(["A"]) == [];
    assert AfterNews(c0, [m1], now) == c0;
    assert AfterRewards(map[], [m1]) == map[];
    var r1 := Grown(EmptyRollout(s, 0, 0.0), [o1], [u], now);
    var k1 := Caches(["A"], map["A" := r1], []);
    assert AfterSteps(c0, [m1], SlotStates(map[], EnvIds([m1]), s), [u], now) == k1;
    assert !Expired(r1, timeout, now);
    assert AfterTimeouts(k1, ["A"], timeout, now) == DropIfExpired(AfterTimeouts(k1, [], timeout, now), "A", timeout, now);
  }

  /** The second state credits its whole cumulative reward and grows the rollout. */
  lemma ScenarioCredit(o1: Obs, o2: Obs, u: ModelOut, s: RecState, now: real, timeout: real)
    requires timeout >= 0.0
    ensures var r1 := Grown(EmptyRollout(s, 0, 0.0), [o1], [u], now);
            Iterate(Caches(["A"], map["A" := r1], []), [StateMsg("A", o2, 3.0, false)], [u], s, Ticks(now, now, now), timeout)
            == Caches(["A"], map["A" := Grown(CreditReward(r1, 3.0), [o2], [u], now)], [])
    ensures var r1 := Grown(EmptyRollout(s, 0, 0.0), [o1], [u], now);
            Grown(CreditReward(r1, 3.0), [o2], [u], now).rewards == [3.0] &&
            Grown(CreditReward(r1, 3.0), [o2], [u], now).observations == [o1, o2]
  {
    var m2 := StateMsg("A", o2, 3.0, false);
    var r1 := Grown(EmptyRollout(s, 0, 0.0), [o1], [u], now);
    assert r1.rewards == [] && TotalReward(r1) == 0.0;
    assert CreditReward(r1, 3.0).rewards == [3.0];
    var c1 := Caches(["A"], map["A" := r1], []);
    assert Front([m2]) == [] && Front([u]) == [] && Front(["A"]) == [];
    var r2 := Grown(CreditReward(r1, 3.0), [o2], [u], now);
    var k2 := Caches(["A"], map["A" := r2], []);
    assert AfterNews(c1, [m2], now) == c1;
    assert AfterRewards(c1.current, [m2]) == map["A" := CreditReward(r1, 3.0)];
    assert SlotStates(map["A" := CreditReward(r1, 3.0)], EnvIds([m2]), s) == [u.states];
    assert AfterSteps(c1.(current := map["A" := CreditReward(r1, 3.0)]), [m2], [u.states], [u], now) == k2;
    assert !Expired(r2, timeout, now);
    assert AfterTimeouts(k2, ["A"], timeout, now) == DropIfExpired(AfterTimeouts(k2, [], timeout, now), "A", timeout, now);
  }

  /** An episode-start state closes the environment's rollout, whatever it holds, and opens a new one. */
  lemma ScenarioClose(r: Rollout, o3: Obs, u: ModelOut, s: RecState, now: real, timeout: real)
    requires timeout >= 0.0
    ensures Iterate(Caches(["A"], map["A" := r], []), [StateMsg("A", o3, 0.0, true)], [u], s, Ticks(now, now, now), timeout)
            == Caches(["A"], map["A" := Grown(EmptyRollout(s, 0, 0.0), [o3], [u], now)], [CloseEpisode(r, now)])
  {
    var m3 := StateMsg("A", o3, 0.0, true);
    var c2 := Caches(["A"], map["A" := r], []);
    assert Front([m3]) == [] && Front([u]) == [] && Front(["A"]) == [];
    var k3 := Caches([], map[], [CloseEpisode(r, now)]);
    assert AfterNews(c2, [m3], now) == k3;
    assert AfterRewards(map[], [m3]) == map[];
    assert EnvIds([m3]) == ["A"];
    assert SlotStates(map[], ["A"], s) == [s];
    var r3 := Grown(EmptyRollout(s, 0, 0.0), [o3], [u], now);
    var k4 := Caches(["A"], map["A" := r3], k3.completed);
    assert AfterSteps(k3, [m3], [s], [u], now) == k4;
    SoleRolloutKept(r3, k3.completed, timeout, now);
  }

  /** A lone rollout stepped at the time of the check survives `_remove_timeouts`. */
  lemma SoleRolloutKept(r: Rollout, done: seq<Rollout>, timeout: real, now: real)
    requires timeout >= 0.0 && r.endTime == now
    ensures AfterTimeouts(Caches(["A"], map["A" := r], done), ["A"], timeout, now) == Caches(["A"], map["A" := r], done)
  {
    var k := Caches(["A"], map["A" := r], done);
    assert Front(["A"]) == [] && Last(["A"]) == "A";
    assert !Expired(r, timeout, now);
  }
}
