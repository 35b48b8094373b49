/**
 * The episode bookkeeping of the worker's `RunEnvironment` loop
 * (worker/main.go): which states are flagged as the first of an episode, and
 * the step counter that forces a reset past the timestep limit. The browser,
 * the bus and the action received are left out; what the loop needs of them
 * is whether the game reported the episode done after each step.
 */
module Worker {

  /** The loop variables `newEpisode` and `timesteps`. */
  datatype Counter = Counter(newEpisode: bool, timesteps: int)

  /** Their values before the first iteration. */
  const Start: Counter := Counter(true, 0)

  /**
   * The end of one iteration: count the step, treat the episode as done once
   * the count passes the limit, then reset or carry on.
   */
  function Advance(c: Counter, done: bool, limit: int): Counter
  {
    var t := c.timesteps + 1;
    if done || t > limit then Counter(true, 0) else Counter(false, t)
  }

  /**
   * The counter at the head of each iteration, given what the game reported
   * after each step: element k holds before step k, the last one after all.
   */
  function Heads(limit: int, dones: seq<bool>): (h: seq<Counter>)
    ensures |h| == |dones| + 1 && h[0] == Start
    ensures forall k :: 0 <= k < |dones| ==> h[k + 1] == Advance(h[k], dones[k], limit)
  {
    if dones == [] then [Start]
    else
      var p := Heads(limit, dones[..|dones| - 1]);
      assert forall k :: 0 <= k < |dones| - 1 ==> dones[..|dones| - 1][k] == dones[k];
      p + [Advance(p[|p| - 1], dones[|dones| - 1], limit)]
  }

  /** A state is flagged new exactly when no step has been counted in its episode. */
  lemma {:induction false} FlagMeansFresh(limit: int, dones: seq<bool>, k: nat)
    requires k <= |dones|
    ensures Heads(limit, dones)[k].newEpisode <==> Heads(limit, dones)[k].timesteps == 0
    ensures Heads(limit, dones)[k].timesteps >= 0
  {
    if k > 0 {
      FlagMeansFresh(limit, dones, k - 1);
    }
  }

  /** With a non-negative limit the counter never passes it. */
  lemma {:induction false} CounterBounded(limit: int, dones: seq<bool>, k: nat)
    requires limit >= 0 && k <= |dones|
    ensures 0 <= Heads(limit, dones)[k].timesteps <= limit
  {
    if k > 0 {
      CounterBounded(limit, dones, k - 1);
    }
  }

  /** Inside one episode the counter grows by one per state. */
  lemma {:induction false} CounterCountsEpisode(limit: int, dones: seq<bool>, i: nat, j: nat)
    requires i <= j <= |dones|
    requires forall k :: i < k <= j ==> !Heads(limit, dones)[k].newEpisode
    ensures Heads(limit, dones)[j].timesteps == Heads(limit, dones)[i].timesteps + (j - i)
    decreases j - i
  {
    if i < j {
      CounterCountsEpisode(limit, dones, i, j - 1);
    }
  }

  /**
   * No episode is longer than `limit + 1` states: after a state flagged new,
   * at most `limit` further states go by before the next flagged one.
   */
  lemma EpisodeBounded(limit: int, dones: seq<bool>, i: nat, j: nat)
    requires limit >= 0 && i <= j <= |dones|
    requires forall k :: i < k <= j ==> !Heads(limit, dones)[k].newEpisode
    ensures j - i <= limit
  {
    CounterCountsEpisode(limit, dones, i, j);
    CounterBounded(limit, dones, j);
    FlagMeansFresh(limit, dones, i);
  }

  /** No state in (i, j] of `flags` is flagged new. */
  predicate QuietRun(flags: seq<bool>, i: int, j: int)
    requires 0 <= i <= j < |flags|
  {
    forall k :: i < k <= j ==> !flags[k]
  }

  /** The flags of the first states, read off the counters: no quiet run longer than `limit`. */
  lemma FlagsBounded(limit: int, dones: seq<bool>, flags: seq<bool>)
    requires limit >= 0 && |flags| <= |dones|
    requires forall k :: 0 <= k < |flags| ==> flags[k] == Heads(limit, dones)[k].newEpisode
    ensures forall i, j :: 0 <= i <= j < |flags| && QuietRun(flags, i, j) ==> j - i <= limit
  {
    forall i, j | 0 <= i <= j < |flags| && QuietRun(flags, i, j)
      ensures j - i <= limit
    {
      EpisodeBounded(limit, dones, i, j);
    }
  }

  /**
   * The loop of `RunEnvironment`, one iteration per reported step: each
   * iteration first sends a state carrying `newEpisode` (recorded in
   * `flags`), then counts the step and resets or carries on.
   */
  method RunEnvironment(limit: int, dones: seq<bool>) returns (flags: seq<bool>, last: Counter)
    ensures |flags| == |dones|
    ensures forall k :: 0 <= k < |flags| ==> flags[k] == Heads(limit, dones)[k].newEpisode
    ensures last == Heads(limit, dones)[|dones|]
    ensures |flags| > 0 ==> flags[0]
    ensures forall k :: 0 <= k < |flags| - 1 ==>
              (flags[k + 1] <==> dones[k] || Heads(limit, dones)[k].timesteps + 1 > limit)
    ensures limit >= 0 ==> 0 <= last.timesteps <= limit
    ensures limit >= 0 ==> forall i, j :: 0 <= i <= j < |flags| && QuietRun(flags, i, j) ==> j - i <= limit
  {
    var newEpisode := true;
    var timesteps := 0;
    flags := [];
    ghost var h := Heads(limit, dones);
    for k := 0 to |dones|
      invariant |flags| == k
      invariant Counter(newEpisode, timesteps) == h[k]
      invariant forall i :: 0 <= i < k ==> flags[i] == h[i].newEpisode
      invariant limit >= 0 ==> 0 <= timesteps <= limit
    {
      flags := flags + [newEpisode];
      var done := dones[k];
      timesteps := timesteps + 1;
      if timesteps > limit {
        done := true;
      }
      if done {
        newEpisode := true;
        timesteps := 0;
      } else {
        newEpisode := false;
      }
    }
    last := Counter(newEpisode, timesteps);
    if limit >= 0 {
      FlagsBounded(limit, dones, flags);
    }
  }
}
