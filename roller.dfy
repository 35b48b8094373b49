/**
 * The master's `RemoteRoller` (master/qwop_master/roller.py): it drains
 * batches of state messages from its connection, runs the policy on each
 * batch, and accumulates per-environment trajectories until enough of them
 * are usable. Each handler updates the two caches in place and is proved to
 * end in the state its counterpart in RollerSpec describes.
 */
module Roller {
  import opened Common
  import opened Rollouts
  import opened Connection
  import opened RollerSpec

  /** The policy: a batched step over observations and recurrent states, and its initial state. */
  datatype Model = Model(step: (seq<Obs>, seq<RecState>) -> seq<ModelOut>, initial: RecState)

  /** The policy answers every batch with one output per observation. */
  ghost predicate Batched(model: Model)
  {
    forall obs, states :: |model.step(obs, states)| == |obs|
  }

  function Observations(batch: seq<StateMsg>): (obs: seq<Obs>)
    ensures |obs| == |batch|
  {
    seq(|batch|, i requires 0 <= i < |batch| => batch[i].obs)
  }

  function Actions(outs: seq<ModelOut>): (acts: seq<seq<bool>>)
    ensures |acts| == |outs|
  {
    seq(|outs|, i requires 0 <= i < |outs| => outs[i].actions)
  }

  /** `model.step` on a batch, from the states `_state_batch` picks once news and rewards are handled. */
  function Outputs(model: Model, c: Caches, batch: seq<StateMsg>, t: Ticks): seq<ModelOut>
  {
    model.step(Observations(batch),
               SlotStates(AfterRewards(AfterNews(c, batch, t.news).current, batch), EnvIds(batch), model.initial))
  }

  /**
   * The caches after one iteration of `rollouts` per batch; the i-th batch
   * is stepped with the clock's readings `clock[i]`.
   */
  ghost function Run(model: Model, c: Caches, batches: seq<seq<StateMsg>>, clock: seq<Ticks>, timeout: real): Caches
    requires Batched(model) && |batches| <= |clock|
  {
    if batches == [] then c
    else
      var c' := Run(model, c, Front(batches), clock, timeout);
      var t := clock[|batches| - 1];
      Iterate(c', Last(batches), Outputs(model, c', Last(batches), t), model.initial, t, timeout)
  }

  /** One more iteration: the fold on the batches so far, then `Iterate` on the next batch. */
  lemma RunAppend(model: Model, c: Caches, batches: seq<seq<StateMsg>>, clock: seq<Ticks>, timeout: real,
                  b: seq<StateMsg>)
    requires Batched(model) && |batches| < |clock|
    ensures var c' := Run(model, c, batches, clock, timeout);
            var t := clock[|batches|];
            Run(model, c, batches + [b], clock, timeout) == Iterate(c', b, Outputs(model, c', b, t), model.initial, t, timeout)
  {
    assert Front(batches + [b]) == batches;
  }

  /** Any number of iterations keep the invariant and never lose a completed rollout. */
  lemma {:induction false} RunKeepsInvariant(model: Model, c: Caches, batches: seq<seq<StateMsg>>,
                                             clock: seq<Ticks>, timeout: real)
    requires Batched(model) && |batches| <= |clock| && Invariant(c)
    ensures Invariant(Run(model, c, batches, clock, timeout))
    ensures |Run(model, c, batches, clock, timeout).completed| >= |c.completed|
    ensures Run(model, c, batches, clock, timeout).completed[..|c.completed|] == c.completed
  {
    if batches != [] {
      var c' := Run(model, c, Front(batches), clock, timeout);
      RunKeepsInvariant(model, c, Front(batches), clock, timeout);
      var b, t := Last(batches), clock[|batches| - 1];
      IterationKeepsInvariant(c', b, Outputs(model, c', b, t), model.initial, t, timeout);
      var c'' := Run(model, c, batches, clock, timeout);
      assert c''.completed[..|c.completed|] == c''.completed[..|c'.completed|][..|c.completed|];
    }
  }

  /** `_has_enough_rollouts` on any caches; false when a listed key has no rollout. */
  ghost predicate Reached(c: Caches, minHorizon: int, minRollouts: int)
  {
    (forall k :: k in c.order ==> k in c.current) && EnoughRollouts(c, minHorizon, minRollouts)
  }

  /** Each batch was stepped while the caches reached so far did not yet have enough rollouts. */
  ghost predicate SteppedWhileShort(model: Model, c: Caches, batches: seq<seq<StateMsg>>, clock: seq<Ticks>,
                                    timeout: real, minHorizon: int, minRollouts: int)
    requires Batched(model) && |batches| <= |clock|
  {
    batches == [] ||
    (SteppedWhileShort(model, c, Front(batches), clock, timeout, minHorizon, minRollouts)
     && !Reached(Run(model, c, Front(batches), clock, timeout), minHorizon, minRollouts))
  }

  lemma SteppedWhileShortAppend(model: Model, c: Caches, batches: seq<seq<StateMsg>>, clock: seq<Ticks>,
                                timeout: real, minHorizon: int, minRollouts: int, b: seq<StateMsg>)
    requires Batched(model) && |batches| < |clock|
    requires SteppedWhileShort(model, c, batches, clock, timeout, minHorizon, minRollouts)
    requires !Reached(Run(model, c, batches, clock, timeout), minHorizon, minRollouts)
    ensures SteppedWhileShort(model, c, batches + [b], clock, timeout, minHorizon, minRollouts)
  {
    assert Front(batches + [b]) == batches;
  }

  /** The messages of the listener's first n deliveries, in order. */
  function Delivered(feed: seq<seq<StateMsg>>, n: nat): seq<StateMsg>
    requires n <= |feed|
  {
    if n == 0 then [] else Delivered(feed, n - 1) + feed[n - 1]
  }

  /** Fewer deliveries hold a prefix of the messages of more. */
  lemma {:induction false} DeliveredPrefix(feed: seq<seq<StateMsg>>, i: nat, j: nat)
    requires i <= j <= |feed|
    ensures Delivered(feed, i) <= Delivered(feed, j)
  {
    if i < j {
      DeliveredPrefix(feed, i, j - 1);
      assert Delivered(feed, j - 1) <= Delivered(feed, j);
    }
  }

  /** What has been read so far is a prefix of everything the connection will ever hand over. */
  lemma ConsumedPrefix(pending: seq<StateMsg>, feed: seq<seq<StateMsg>>, fi: nat,
                       consumed: seq<StateMsg>, rest: seq<StateMsg>)
    requires fi <= |feed| && consumed + rest == pending + Delivered(feed, fi)
    ensures consumed <= pending + Delivered(feed, |feed|)
    ensures fi == |feed| ==> |pending + Delivered(feed, |feed|)| == |consumed| + |rest|
  {
    DeliveredPrefix(feed, fi, |feed|);
    assert consumed == (pending + Delivered(feed, fi))[..|consumed|];
    assert pending + Delivered(feed, fi) <= pending + Delivered(feed, |feed|);
  }

  class RemoteRoller {
    const model: Model
    const conn: Conn
    const minRollouts: int
    const minHorizon: int
    const minStepBatch: int
    const timeout: real

    /** `_current_rollouts`: its keys in insertion order, and the map itself. */
    var order: seq<EnvId>
    var current: map<EnvId, Rollout>
    /** `_completed_rollouts`. */
    var completed: seq<Rollout>

    function State(): Caches
      reads this
    {
      Caches(order, current, completed)
    }

    ghost predicate Valid()
      reads this
    {
      Invariant(State()) && minHorizon >= 1 && Batched(model)
    }

    /** Both caches start empty. */
    constructor (model: Model, conn: Conn, minRollouts: int := 64, minHorizon: int := 16,
                 minStepBatch: int := 1, timeout: real := 300.0)
      requires minHorizon >= 1 && Batched(model)
      ensures Valid()
      ensures this.model == model && this.conn == conn
      ensures this.minRollouts == minRollouts && this.minHorizon == minHorizon
      ensures this.minStepBatch == minStepBatch && this.timeout == timeout
      ensures State() == Caches([], map[], [])
    {
      this.model := model;
      this.conn := conn;
      this.minRollouts := minRollouts;
      this.minHorizon := minHorizon;
      this.minStepBatch := minStepBatch;
      this.timeout := timeout;
      order := [];
      current := map[];
      completed := [];
    }

    /** `_has_enough_rollouts`, counting against `min_rollouts` itself. */
    method HasEnoughRollouts() returns (b: bool)
      requires Valid()
      ensures b == EnoughRollouts(State(), minHorizon, minRollouts)
    {
      var numRollouts := |completed|;
      for i := 0 to |order|
        invariant numRollouts == |completed| + |ReadyRollouts(order[..i], current, minHorizon)|
      {
        assert Front(order[..i + 1]) == order[..i] && Last(order[..i + 1]) == order[i];
        if NumSteps(current[order[i]]) >= minHorizon {
          numRollouts := numRollouts + 1;
        }
      }
      assert order[..|order|] == order;
      b := numRollouts >= minRollouts;
    }

    /** `_handle_news`: close the rollout of every environment that starts over. */
    method HandleNews(batch: seq<StateMsg>, now: real)
      modifies this
      ensures State() == AfterNews(old(State()), batch, now)
    {
      for i := 0 to |batch|
        invariant State() == AfterNews(old(State()), batch[..i], now)
      {
        assert Front(batch[..i + 1]) == batch[..i];
        var m := batch[i];
        if m.isNew && m.envId in current {
          var rollout := current[m.envId];
          rollout := rollout.(rewards := rollout.rewards + [0.0]);
          rollout := rollout.(endTime := now);
          completed := completed + [rollout];
          current := current - {m.envId};
          order := Remove(order, m.envId);
        }
      }
      assert batch[..|batch|] == batch;
    }

    /** `_handle_rewards`: credit each active rollout the difference in cumulative reward. */
    method HandleRewards(batch: seq<StateMsg>)
      modifies this
      ensures State() == old(State()).(current := AfterRewards(old(current), batch))
    {
      for i := 0 to |batch|
        invariant State() == old(State()).(current := AfterRewards(old(current), batch[..i]))
      {
        assert Front(batch[..i + 1]) == batch[..i];
        var m := batch[i];
        if m.envId in current {
          var rollout := current[m.envId];
          var diff := m.rew - TotalReward(rollout);
          current := current[m.envId := CreditReward(rollout, m.rew)];
          assert current[m.envId].rewards == rollout.rewards + [diff];
        }
      }
      assert batch[..|batch|] == batch;
    }

    /** `_state_batch`: the recurrent state each environment of the batch continues from. */
    method StateBatch(ids: seq<EnvId>) returns (states: seq<RecState>)
      ensures states == SlotStates(current, ids, model.initial)
    {
      states := seq(|ids|, _ => model.initial);
      for i := 0 to |ids|
        invariant |states| == |ids|
        invariant forall j :: 0 <= j < i ==> states[j] == SlotState(current, ids[j], model.initial)
        invariant forall j :: i <= j < |ids| ==> states[j] == model.initial
      {
        if ids[i] in current {
          var rollout := current[ids[i]];
          if |StepModelOuts(rollout)| > 0 {
            states := states[i := Last(StepModelOuts(rollout)).states];
          } else {
            states := states[i := rollout.startState];
          }
        }
      }
    }

    /** `_handle_step_taken`, keyed by environment id. */
    method HandleStepTaken(batch: seq<StateMsg>, starts: seq<RecState>, outs: seq<ModelOut>, now: real)
      requires |starts| == |batch| && |outs| == |batch|
      modifies this
      ensures State() == AfterSteps(old(State()), batch, starts, outs, now)
    {
      for i := 0 to |batch|
        invariant State() == AfterSteps(old(State()), batch[..i], starts[..i], outs[..i], now)
      {
        assert Front(batch[..i + 1]) == batch[..i];
        assert Front(starts[..i + 1]) == starts[..i];
        assert Front(outs[..i + 1]) == outs[..i];
        var envId := batch[i].envId;
        var reduced := outs[i];
        if envId !in current {
          current := current[envId := EmptyRollout(starts[i], 0, 0.0)];
          order := order + [envId];
        }
        var rollout := current[envId];
        rollout := rollout.(endTime := now);
        rollout := rollout.(observations := rollout.observations + [batch[i].obs]);
        rollout := rollout.(modelOuts := rollout.modelOuts + [reduced]);
        current := current[envId := rollout];
      }
      assert batch[..|batch|] == batch && starts[..|starts|] == starts && outs[..|outs|] == outs;
    }

    /** `_remove_timeouts`, over a snapshot of the keys. */
    method RemoveTimeouts(now: real)
      modifies this
      ensures State() == AfterTimeouts(old(State()), old(order), timeout, now)
    {
      var keys := order;
      for i := 0 to |keys|
        invariant State() == AfterTimeouts(old(State()), keys[..i], timeout, now)
      {
        assert Front(keys[..i + 1]) == keys[..i];
        var key := keys[i];
        if key in current && current[key].endTime + timeout < now {
          current := current - {key};
          order := Remove(order, key);
        }
      }
      assert keys[..|keys|] == keys;
    }

    /**
     * `_extract_usable_rollouts`: hand over the completed rollouts and the
     * ready active ones, replacing each ready one by its continuation.
     */
    method ExtractUsableRollouts(now: real) returns (res: seq<Rollout>)
      requires Valid()
      modifies this
      ensures Valid()
      ensures res == Usable(old(State()), minHorizon)
      ensures State() == AfterExtraction(old(State()), minHorizon, now)
      ensures EnoughRollouts(old(State()), minHorizon, minRollouts) ==> |res| >= minRollouts
      ensures completed == [] && forall k :: k in current ==> NumSteps(current[k]) < minHorizon
      ensures forall i :: 0 <= i < |res| ==>
                |res[i].infos| == NumSteps(res[i]) && forall j :: 0 <= j < |res[i].infos| ==> res[i].infos[j] == map[]
    {
      ghost var c0 := State();
      res := completed;
      completed := [];
      var ready, rollouts := RefreshReady(State(), minHorizon, now);
      res := res + ready;
      current := rollouts;
      assert State() == AfterExtraction(c0, minHorizon, now);
      res := StampAll(res);
      assert res == Usable(c0, minHorizon);
      ExtractionKeepsInvariant(c0, minHorizon, now);
      UsableRollouts(c0, minHorizon);
      EnoughMeansCount(c0, minHorizon, minRollouts);
    }

    /**
     * `rollouts`: step the environments batch by batch until enough
     * rollouts are usable, then extract them. The listener's deliveries
     * between two reads of the connection are the elements of `feed`, the
     * clock's readings in each iteration are the elements of `clock`, and
     * `extractAt` is the reading taken by the extraction; the source keeps
     * waiting when no more messages come, which is the result `None` here.
     * `batches` are the state buffers the policy was run on, in order, and
     * `before` the caches the extraction starts from.
     */
    method Rollouts(feed: seq<seq<StateMsg>>, clock: seq<Ticks>, extractAt: real)
      returns (result: Option<seq<Rollout>>, batches: seq<seq<StateMsg>>, ghost before: Caches)
      requires Valid()
      modifies this, conn
      ensures Valid()
      ensures |batches| <= |clock|
      ensures forall b :: b in batches ==> |b| >= minStepBatch
      ensures Flatten(batches) <= old(conn.pending) + Delivered(feed, |feed|)
      ensures SteppedWhileShort(model, old(State()), batches, clock, timeout, minHorizon, minRollouts)
      ensures result.None? ==> State() == Run(model, old(State()), batches, clock, timeout)
      ensures result.None? ==> !EnoughRollouts(State(), minHorizon, minRollouts)
      ensures result.None? ==>
                |batches| == |clock| || |old(conn.pending) + Delivered(feed, |feed|)| < |Flatten(batches)| + minStepBatch
      ensures result.Some? ==> before == Run(model, old(State()), batches, clock, timeout)
      ensures result.Some? ==> Invariant(before) && EnoughRollouts(before, minHorizon, minRollouts)
      ensures result.Some? ==> result.value == Usable(before, minHorizon)
      ensures result.Some? ==> State() == AfterExtraction(before, minHorizon, extractAt)
      ensures result.Some? ==> |result.value| >= minRollouts
      ensures result.Some? ==> completed == [] && forall k :: k in current ==> NumSteps(current[k]) < minHorizon
      ensures result.Some? ==> forall i :: 0 <= i < |result.value| ==>
                var r := result.value[i];
                |r.infos| == NumSteps(r) && forall j :: 0 <= j < |r.infos| ==> r.infos[j] == map[]
    {
      var enough;
      enough, batches := StepUntilEnough(feed, clock);
      before := State();
      if !enough {
        return None, batches, before;
      }
      var rs := ExtractUsableRollouts(extractAt);
      result := Some(rs);
    }

    /**
     * The `while not self._has_enough_rollouts()` loop of `rollouts`. It
     * steps batches only while the caches do not have enough rollouts, and
     * stops early, with `enough` false, only when the clock readings run
     * out or the remaining messages cannot fill a batch. The messages it
     * stepped are a prefix of what the connection held and was then
     * delivered.
     */
    method StepUntilEnough(feed: seq<seq<StateMsg>>, clock: seq<Ticks>)
      returns (enough: bool, batches: seq<seq<StateMsg>>)
      requires Valid()
      modifies this, conn
      ensures Valid()
      ensures |batches| <= |clock| && forall b :: b in batches ==> |b| >= minStepBatch
      ensures Flatten(batches) <= old(conn.pending) + Delivered(feed, |feed|)
      ensures State() == Run(model, old(State()), batches, clock, timeout)
      ensures enough == EnoughRollouts(State(), minHorizon, minRollouts)
      ensures SteppedWhileShort(model, old(State()), batches, clock, timeout, minHorizon, minRollouts)
      ensures !enough ==>
                |batches| == |clock| || |old(conn.pending) + Delivered(feed, |feed|)| < |Flatten(batches)| + minStepBatch
    {
      ghost var s0, p0 := State(), conn.pending;
      var fi := 0;
      batches := [];
      enough := HasEnoughRollouts();
      while !enough && |batches| < |clock|
        invariant Valid()
        invariant fi <= |feed| && |batches| <= |clock|
        invariant forall b :: b in batches ==> |b| >= minStepBatch
        invariant State() == Run(model, s0, batches, clock, timeout)
        invariant Flatten(batches) + conn.pending == p0 + Delivered(feed, fi)
        invariant enough == EnoughRollouts(State(), minHorizon, minRollouts)
        invariant SteppedWhileShort(model, s0, batches, clock, timeout, minHorizon, minRollouts)
        decreases |clock| - |batches|
      {
        var ti := |batches|;
        var t := clock[ti];
        var stateBuffer;
        stateBuffer, fi := ReadAndStep(feed, fi, t, Flatten(batches), p0, s0, batches, clock);
        if |stateBuffer| < minStepBatch {
          ConsumedPrefix(p0, feed, fi, Flatten(batches), stateBuffer);
          return;
        }
        FlattenAppend(batches, stateBuffer);
        batches := batches + [stateBuffer];
        enough := HasEnoughRollouts();
      }
      ConsumedPrefix(p0, feed, fi, Flatten(batches), conn.pending);
    }

    /**
     * One pass of the loop of `rollouts`: read a batch of at least
     * `min_step_batch` messages and step it. When the deliveries run out
     * first, nothing is stepped.
     */
    method ReadAndStep(feed: seq<seq<StateMsg>>, fi: nat, t: Ticks, ghost consumed: seq<StateMsg>, ghost sent: seq<StateMsg>,
                       ghost start: Caches, ghost batches: seq<seq<StateMsg>>, ghost clock: seq<Ticks>)
      returns (stateBuffer: seq<StateMsg>, fi': nat)
      requires Valid() && fi <= |feed| && consumed + conn.pending == sent + Delivered(feed, fi)
      requires |batches| < |clock| && t == clock[|batches|] && State() == Run(model, start, batches, clock, timeout)
      requires SteppedWhileShort(model, start, batches, clock, timeout, minHorizon, minRollouts)
      requires !EnoughRollouts(State(), minHorizon, minRollouts)
      modifies this, conn
      ensures Valid()
      ensures fi <= fi' <= |feed| && conn.pending == []
      ensures consumed + stateBuffer == sent + Delivered(feed, fi')
      ensures |stateBuffer| < minStepBatch ==> fi' == |feed| && State() == old(State())
      ensures |stateBuffer| >= minStepBatch ==>
                State() == Run(model, start, batches + [stateBuffer], clock, timeout)
                && SteppedWhileShort(model, start, batches + [stateBuffer], clock, timeout, minHorizon, minRollouts)
    {
      stateBuffer, fi' := ReadBatch(feed, fi, consumed, sent);
      if |stateBuffer| >= minStepBatch {
        SteppedWhileShortAppend(model, start, batches, clock, timeout, minHorizon, minRollouts, stateBuffer);
        var _ := StepBatch(stateBuffer, t);
        RunAppend(model, start, batches, clock, timeout, stateBuffer);
      }
    }

    /**
     * The body of the loop of `rollouts` once a batch is read: episode
     * boundaries, rewards, the policy, steps, actions out, timeouts. The
     * caches become `Iterate` of the old ones on the policy's outputs, which
     * are returned; the connection's pending buffer is left alone.
     */
    method StepBatch(stateBuffer: seq<StateMsg>, t: Ticks) returns (outputs: seq<ModelOut>)
      requires Valid()
      modifies this, conn
      ensures Valid()
      ensures outputs == Outputs(model, old(State()), stateBuffer, t)
      ensures |outputs| == |stateBuffer|
      ensures State() == Iterate(old(State()), stateBuffer, outputs, model.initial, t, timeout)
      ensures conn.pending == old(conn.pending)
      ensures |completed| >= |old(completed)| && completed[..|old(completed)|] == old(completed)
      ensures timeout >= t.check - t.steps ==> forall k :: Count(stateBuffer, k) > 0 ==> k in current
    {
      ghost var c := State();
      var envIds := EnvIds(stateBuffer);
      HandleNews(stateBuffer, t.news);
      HandleRewards(stateBuffer);
      var states := StateBatch(envIds);
      outputs := model.step(Observations(stateBuffer), states);
      HandleStepTaken(stateBuffer, states, outputs, t.steps);
      conn.SendActions(envIds, Actions(outputs));
      RemoveTimeouts(t.check);
      assert State() == Iterate(c, stateBuffer, outputs, model.initial, t, timeout);
      IterationKeepsInvariant(c, stateBuffer, outputs, model.initial, t, timeout);
    }

    /**
     * The reads of one iteration of `rollouts`: `read_states`, then more
     * reads while fewer than `min_step_batch` messages are in. The source
     * keeps reading; here the reads stop when the deliveries run out, with
     * a buffer still too small. A delivery past the first is read only
     * while the buffer is still short, so the last one read found fewer
     * than `min_step_batch` messages before it. `consumed` is what earlier
     * iterations took.
     */
    method ReadBatch(feed: seq<seq<StateMsg>>, fi: nat, ghost consumed: seq<StateMsg>, ghost sent: seq<StateMsg>)
      returns (stateBuffer: seq<StateMsg>, fi': nat)
      requires fi <= |feed| && consumed + conn.pending == sent + Delivered(feed, fi)
      modifies conn
      ensures fi <= fi' <= |feed| && conn.pending == []
      ensures consumed + stateBuffer == sent + Delivered(feed, fi')
      ensures |stateBuffer| < minStepBatch ==> fi' == |feed|
      ensures fi' >= fi + 2 ==> |feed[fi' - 1]| <= |stateBuffer| && |stateBuffer| - |feed[fi' - 1]| < minStepBatch
    {
      ghost var pending := conn.pending;
      stateBuffer := Poll(feed, fi);
      fi' := fi;
      if fi' < |feed| {
        ConcatAssoc(consumed, pending, feed[fi']);
        fi' := fi' + 1;
      }
      while |stateBuffer| < minStepBatch && fi' < |feed|
        invariant fi <= fi' <= |feed| && conn.pending == []
        invariant consumed + stateBuffer == sent + Delivered(feed, fi')
        invariant fi' >= fi + 2 ==> |feed[fi' - 1]| <= |stateBuffer| && |stateBuffer| - |feed[fi' - 1]| < minStepBatch
        decreases |feed| - fi'
      {
        var more := Poll(feed, fi');
        ConcatAssoc(consumed, stateBuffer, more);
        fi' := fi' + 1;
        stateBuffer := stateBuffer + more;
      }
    }

    /** One `read_states` after the listener has delivered its next batch, if any. */
    method Poll(feed: seq<seq<StateMsg>>, fi: nat) returns (msgs: seq<StateMsg>)
      modifies conn
      ensures msgs == old(conn.pending) + (if fi < |feed| then feed[fi] else [])
      ensures conn.pending == []
    {
      if fi < |feed| {
        conn.Deliver(feed[fi]);
      }
      msgs := conn.ReadStates();
    }
  }

  /**
   * The loop of `_extract_usable_rollouts` over a snapshot of the keys: the
   * ready rollouts in key order, and the active map with each ready one
   * replaced by its continuation.
   */
  method RefreshReady(c: Caches, minHorizon: int, now: real) returns (ready: seq<Rollout>, rollouts: map<EnvId, Rollout>)
    requires Invariant(c) && minHorizon >= 1
    ensures ready == ReadyRollouts(c.order, c.current, minHorizon)
    ensures rollouts == AfterExtraction(c, minHorizon, now).current
  {
    ready := [];
    rollouts := c.current;
    for i := 0 to |c.order|
      invariant ready == ReadyRollouts(c.order[..i], c.current, minHorizon)
      invariant RefreshedUpTo(c, rollouts, c.order[..i], minHorizon, now)
    {
      ready, rollouts := RefreshKey(c, ready, rollouts, i, minHorizon, now);
    }
    assert c.order[..|c.order|] == c.order;
    RefreshedAll(c, rollouts, minHorizon, now);
  }

  /** One key of that loop: a ready rollout is handed over and continued. */
  method RefreshKey(c: Caches, ready: seq<Rollout>, rollouts: map<EnvId, Rollout>, i: nat, minHorizon: int, now: real)
    returns (ready': seq<Rollout>, rollouts': map<EnvId, Rollout>)
    requires Invariant(c) && minHorizon >= 1 && i < |c.order|
    requires ready == ReadyRollouts(c.order[..i], c.current, minHorizon)
    requires RefreshedUpTo(c, rollouts, c.order[..i], minHorizon, now)
    ensures ready' == ReadyRollouts(c.order[..i + 1], c.current, minHorizon)
    ensures RefreshedUpTo(c, rollouts', c.order[..i + 1], minHorizon, now)
  {
    RefreshStep(c, rollouts, i, minHorizon, now);
    var key := c.order[i];
    var rollout := rollouts[key];
    if NumSteps(rollout) >= minHorizon {
      assert TruncEnd(rollout);
      ready' := ready + [rollout];
      var newRollout := ContinueRollout(rollout, now);
      rollouts' := rollouts[key := newRollout];
    } else {
      ready' := ready;
      rollouts' := rollouts;
      assert rollouts == rollouts[key := Refreshed(rollout, minHorizon, now)];
    }
  }

  /** The continuation of a ready rollout, built as the source builds it. */
  method ContinueRollout(rollout: Rollout, now: real) returns (newRollout: Rollout)
    requires Open(rollout) && NumSteps(rollout) >= 1
    ensures newRollout == Continuation(rollout, now)
  {
    newRollout := EmptyRollout(Last(StepModelOuts(rollout)).states, TotalSteps(rollout), TotalReward(rollout));
    newRollout := newRollout.(observations := newRollout.observations + [Last(rollout.observations)]);
    newRollout := newRollout.(modelOuts := newRollout.modelOuts + [Last(rollout.modelOuts)]);
    newRollout := newRollout.(endTime := now);
  }

  /** The closing loop of `_extract_usable_rollouts`: one empty info per step. */
  method StampAll(rs: seq<Rollout>) returns (res: seq<Rollout>)
    ensures res == StampInfos(rs)
  {
    res := rs;
    for j := 0 to |res|
      invariant |res| == |rs|
      invariant forall t :: 0 <= t < j ==> res[t] == WithEmptyInfos(rs[t])
      invariant forall t :: j <= t < |res| ==> res[t] == rs[t]
    {
      res := res[j := res[j].(infos := seq(NumSteps(res[j]), _ => map[]))];
    }
  }
}
