/**
 * Two places where master/qwop_master/roller.py does not do what its own
 * docstrings and the other handlers say, modelled as written next to the intended behaviour that the
 * rest of the model uses (RollerSpec.EnoughRollouts, RollerSpec.AfterSteps).
 */
module RollerAsWritten {
  import opened Common
  import opened Rollouts
  import opened Connection
  import opened RollerSpec

  const LenOfInt := "TypeError: object of type 'int' has no len()"
  const KeyError := "KeyError"

  // ---------------------------------------------------------------------
  // _has_enough_rollouts
  // ---------------------------------------------------------------------

  /**
   * `_has_enough_rollouts` as written: the count is compared with
   * `len(self.min_rollouts)`, and `min_rollouts` is an integer, so the call
   * raises whatever the caches hold.
   */
  function HasEnoughAsWritten(c: Caches, minHorizon: int, minRollouts: int): (r: Result<bool, string>)
    requires forall k :: k in c.order ==> k in c.current
    ensures r.Err?
  {
    var counted := |c.completed| + |ReadyRollouts(c.order, c.current, minHorizon)|;
    Err(LenOfInt)
  }

  /**
   * The discrepancy: with one completed rollout and `min_rollouts` 1 the
   * intended check says there are enough, while the code as written raises,
   * so `rollouts()` never returns a batch.
   */
  lemma HasEnoughDiscrepancy(c: Caches, minHorizon: int)
    requires KeysAgree(c) && |c.completed| == 1
    ensures EnoughRollouts(c, minHorizon, 1)
    ensures HasEnoughAsWritten(c, minHorizon, 1) == Err(LenOfInt)
  {
  }

  // ---------------------------------------------------------------------
  // _handle_step_taken
  // ---------------------------------------------------------------------

  /** The keys the dictionary ends up holding: environment ids, or batch positions. */
  datatype Key = Env(id: EnvId) | Index(i: int)

  /**
   * One iteration of `_handle_step_taken` as written: the membership test
   * asks about the environment id, but the rollout is stored and fetched
   * under the message's position in the batch.
   */
  function StepAsWritten(cur: map<Key, Rollout>, m: StateMsg, i: nat, start: RecState, out: ModelOut,
                         now: real): Result<map<Key, Rollout>, string>
  {
    var cur1 := if Env(m.envId) !in cur then cur[Index(i) := EmptyRollout(start, 0, 0.0)] else cur;
    if Index(i) !in cur1 then Err(KeyError)
    else Ok(cur1[Index(i) := Grown(cur1[Index(i)], [m.obs], [out], now)])
  }

  function StepsAsWritten(cur: map<Key, Rollout>, batch: seq<StateMsg>, starts: seq<RecState>,
                          outs: seq<ModelOut>, now: real): Result<map<Key, Rollout>, string>
    requires |starts| == |batch| && |outs| == |batch|
  {
    if batch == [] then Ok(cur)
    else match StepsAsWritten(cur, Front(batch), Front(starts), Front(outs), now)
      case Err(e) => Err(e)
      case Ok(cp) => StepAsWritten(cp, Last(batch), |batch| - 1, Last(starts), Last(outs), now)
  }

  /** Only positions are ever stored, so no key is an environment id. */
  predicate PositionKeyed(cur: map<Key, Rollout>)
  {
    forall k :: k in cur ==> k.Index?
  }

  /** The single-step rollout the code as written stores for message i. */
  function FreshAt(batch: seq<StateMsg>, starts: seq<RecState>, outs: seq<ModelOut>, now: real, i: nat): Rollout
    requires |starts| == |batch| && |outs| == |batch| && i < |batch|
  {
    Grown(EmptyRollout(starts[i], 0, 0.0), [batch[i].obs], [outs[i]], now)
  }

  /** The positions of a batch of n messages, as dictionary keys. */
  function Positions(n: nat): set<Key>
  {
    set i | 0 <= i < n :: Index(i)
  }

  /**
   * The dictionary the code as written leaves: every position of the batch
   * holds a fresh single-step rollout, every other key keeps its rollout.
   */
  function Restarted(cur: map<Key, Rollout>, batch: seq<StateMsg>, starts: seq<RecState>,
                     outs: seq<ModelOut>, now: real): map<Key, Rollout>
    requires |starts| == |batch| && |outs| == |batch|
  {
    map k | k in cur.Keys + Positions(|batch|) ::
      if k.Index? && 0 <= k.i < |batch| then FreshAt(batch, starts, outs, now, k.i) else cur[k]
  }

  lemma RestartedLast(cur: map<Key, Rollout>, batch: seq<StateMsg>, starts: seq<RecState>,
                      outs: seq<ModelOut>, now: real)
    requires |starts| == |batch| && |outs| == |batch| && batch != []
    ensures Restarted(cur, batch, starts, outs, now) ==
            Restarted(cur, Front(batch), Front(starts), Front(outs), now)[Index(|batch| - 1) := FreshAt(batch, starts, outs, now, |batch| - 1)]
  {
    var n := |batch| - 1;
    var lhs := Restarted(cur, batch, starts, outs, now);
    var rhs := Restarted(cur, Front(batch), Front(starts), Front(outs), now)[Index(n) := FreshAt(batch, starts, outs, now, n)];
    assert Positions(n + 1) == Positions(n) + {Index(n)};
    forall k | k in lhs
      ensures k in rhs && lhs[k] == rhs[k]
    {
      if k.Index? && 0 <= k.i < n {
        assert FreshAt(Front(batch), Front(starts), Front(outs), now, k.i) == FreshAt(batch, starts, outs, now, k.i);
      }
    }
    assert lhs.Keys == rhs.Keys;
  }

  /**
   * The discrepancy, for every batch: on a dictionary the code itself
   * filled, each message's step lands in a brand-new rollout under its
   * position, holding that single observation. Histories never grow, no
   * reward is ever credited (the other handlers look the environment id up
   * and never find it), and no rollout reaches a positive horizon.
   */
  lemma {:induction false} StepsAsWrittenRestart(cur: map<Key, Rollout>, batch: seq<StateMsg>,
                                                 starts: seq<RecState>, outs: seq<ModelOut>, now: real)
    requires |starts| == |batch| && |outs| == |batch|
    requires PositionKeyed(cur)
    ensures StepsAsWritten(cur, batch, starts, outs, now) == Ok(Restarted(cur, batch, starts, outs, now))
    ensures PositionKeyed(Restarted(cur, batch, starts, outs, now))
  {
    if batch != [] {
      var n := |batch| - 1;
      StepsAsWrittenRestart(cur, Front(batch), Front(starts), Front(outs), now);
      var cp := Restarted(cur, Front(batch), Front(starts), Front(outs), now);
      StepAsWrittenFresh(cp, Last(batch), n, Last(starts), Last(outs), now);
      RestartedLast(cur, batch, starts, outs, now);
    } else {
      assert Positions(0) == {};
      assert Restarted(cur, batch, starts, outs, now) == cur;
    }
  }

  /** On a position-keyed dictionary, one step always opens a fresh rollout under its position. */
  lemma StepAsWrittenFresh(cur: map<Key, Rollout>, m: StateMsg, i: nat, start: RecState, out: ModelOut, now: real)
    requires PositionKeyed(cur)
    ensures StepAsWritten(cur, m, i, start, out, now) == Ok(cur[Index(i) := Grown(EmptyRollout(start, 0, 0.0), [m.obs], [out], now)])
  {
    assert Env(m.envId) !in cur;
    var e := EmptyRollout(start, 0, 0.0);
    var g := Grown(e, [m.obs], [out], now);
    assert cur[Index(i) := e][Index(i) := g] == cur[Index(i) := g];
  }

  /** What the exact dictionary means, key by key. */
  lemma RestartedKeys(cur: map<Key, Rollout>, batch: seq<StateMsg>, starts: seq<RecState>,
                      outs: seq<ModelOut>, now: real)
    requires |starts| == |batch| && |outs| == |batch|
    ensures forall i :: 0 <= i < |batch| ==>
              Index(i) in Restarted(cur, batch, starts, outs, now) &&
              Restarted(cur, batch, starts, outs, now)[Index(i)].observations == [batch[i].obs] &&
              Restarted(cur, batch, starts, outs, now)[Index(i)].rewards == []
    ensures forall k :: k in cur && !(k.Index? && 0 <= k.i < |batch|) ==>
              k in Restarted(cur, batch, starts, outs, now) && Restarted(cur, batch, starts, outs, now)[k] == cur[k]
    ensures forall id :: Env(id) in Restarted(cur, batch, starts, outs, now) <==> Env(id) in cur
  {
    forall i | 0 <= i < |batch|
      ensures Index(i) in Positions(|batch|)
    {
    }
  }

  /**
   * The same environment stepped in two consecutive batches: as written,
   * the second batch's rollout holds only the second observation; keyed by
   * environment, as intended, the rollout holds both, in order.
   */
  lemma HistoryLost(o1: Obs, o2: Obs, u1: ModelOut, u2: ModelOut, s: RecState, now: real)
    ensures var m1 := StateMsg("a", o1, 0.0, false);
            var m2 := StateMsg("a", o2, 0.0, false);
            var w1 := StepsAsWritten(map[], [m1], [s], [u1], now);
            && w1.Ok?
            && var w2 := StepsAsWritten(w1.value, [m2], [s], [u2], now);
            && w2.Ok? && w2.value[Index(0)].observations == [o2]
            && Env("a") !in w2.value
    ensures var m1 := StateMsg("a", o1, 0.0, false);
            var m2 := StateMsg("a", o2, 0.0, false);
            var c := AfterSteps(AfterSteps(Caches([], map[], []), [m1], [s], [u1], now), [m2], [s], [u2], now);
            "a" in c.current && c.current["a"].observations == [o1, o2]
  {
    var m1 := StateMsg("a", o1, 0.0, false);
    var m2 := StateMsg("a", o2, 0.0, false);
    StepsAsWrittenRestart(map[], [m1], [s], [u1], now);
    var w1 := StepsAsWritten(map[], [m1], [s], [u1], now).value;
    StepsAsWrittenRestart(w1, [m2], [s], [u2], now);
    var c1 := AfterSteps(Caches([], map[], []), [m1], [s], [u1], now);
    StepsGrow(Caches([], map[], []), [m1], [s], [u1], now, "a");
    assert ObsOf([m1], "a") == ObsOf([], "a") + [o1];
    StepsGrow(c1, [m2], [s], [u2], now, "a");
    assert ObsOf([m2], "a") == ObsOf([], "a") + [o2];
  }
}
