# qwop-ai in Dafny

qwop-ai trains an agent to play the browser game QWOP. Workers (Go) each
drive one game in headless Chrome. Every step, a worker publishes a state on
a Redis topic: the screenshot bytes, a new-episode flag and the score text.
It then waits for a four-button action on its own action topic. The master
(Python) drains the states, runs the policy on them in batches, and
accumulates per-environment trajectories ("rollouts") until enough of them
are usable for training.

This project models:

- the master's `RemoteRoller`: a class over its two caches, `order`/`current`
  (the `_current_rollouts` dictionary with its insertion order) and
  `completed` (roller.dfy). Each handler is proved against a left fold in
  RollerSpec (roller_spec.dfy). Lemmas then say what each fold achieves, and
  that every iteration keeps the invariant: the keys are listed once each,
  and every active rollout has as many observations as model outputs, and at
  least one more model output than rewards.
- two defects of roller.py, modelled as written beside the intended
  behaviour (roller_as_written.dfy).
- the anyrl `Rollout` record the accumulator relies on (rollout.dfy). That
  library is not part of this model. Its fields and the derived values
  `num_steps`, `total_reward`, `total_steps`, `step_model_outs`, `trunc_end`
  and `empty_rollout` are stated there as assumptions.
- the master's `Conn`: a pending buffer drained atomically (connection.dfy).
- the worker's wire formats (comms.dfy, env.dfy): the action payload
  decoder, the topic names and the environment id, the button literal sent
  to the game, the observation byte layout and the state payload framing.
- the worker's episode counter in `RunEnvironment` (worker_loop.dfy).

With both defects under "## Findings" corrected (the caches keyed by
env_id, the count compared with min_rollouts), one environment that sends
three states (cumulative rewards 1.0 and 3.0, then an episode start) goes
as follows:

- The first state only opens the rollout. The second state is credited
  against a total of 0, so the closed rollout holds the rewards `[3.0, 0.0]`
  and the first two observations (`RollerSpec.ThreeStatesScenario`).
- `_handle_step_taken` then opens a new rollout at the episode-start state,
  so the environment stays active.

## Model

| member | source | states |
|---|---|---|
| Comms.DecodeAction | worker/comms.go:76-84 | a payload decodes if and only if it is 4 bytes long; any other length gives exactly the error "invalid payload size"; button i is pressed iff byte i is not '0' |
| Comms.ActionRoundTrip | worker/comms.go:79-84 | decoding the '1'/'0' encoding of any four-button action gives back that action |
| Comms.PayloadRoundTrip | worker/comms.go:79-84 | on a four-byte payload of '0'/'1' characters, encoding the decoded action gives back the payload |
| Comms.ReceiveAct | worker/comms.go:62-87 | replies that are not messages are skipped; the first message or error alone decides the result; running out of replies is "action timeout exceeded" |
| Comms.Hex | worker/comms.go:29 | `%x` yields at least one digit, all lower-case hexadecimal |
| Comms.EnvIdOf | worker/comms.go:29 | the `%12x` id of a draw below 16^12 is exactly 12 characters long and holds no ':'; it is the draw's hexadecimal digits, at most 12 of them, padded on the left with spaces |
| Comms.EnvIdRoundTrip | worker/comms.go:29 | the number drawn can be read back from its id |
| Comms.EnvIdInjective | worker/comms.go:29-59 | different draws give different ids, and different state topics under any prefix |
| Comms.TopicsDisjoint | worker/comms.go:35-59 | a worker's action topic is never a state topic, whatever the ids |
| Comms.LastSegment | master/scripts/watch_envs.py:19 | `split(':')[-1]` is the suffix of the topic that holds no ':' and is either the whole topic or preceded by a ':', that is, all the text after the last ':' |
| Comms.StateTopicNamesEnv | master/scripts/watch_envs.py:19 | the text after the last ':' of a state topic is exactly the worker's id, whatever the prefix, and it parses back to the number drawn |
| Env.ButtonString | worker/env.go:51-62 | the literal is "[" + the buttons' "true"/"false" joined by ", " + "]"; it reads back as the buttons; it holds n-1 separators for n buttons, and none trails |
| Env.OpenButtons | worker/env.go:52-60 | the loop writes "[" followed by the buttons' literals, each but the first preceded by ", " |
| Env.ButtonsClosed | worker/env.go:51-62 | the closed literal parses back as the buttons, holds n-1 commas and ends its last literal in 'e' before the "]" |
| Env.JoinedRoundTrip | worker/env.go:51-62 | the joined literals of any button list parse back as that list |
| Env.JoinedCommas | worker/env.go:53-55 | the separator is written only between literals: n buttons give n-1 commas |
| Env.BracketedList | worker/env.go:51-62 | the bracketed literal parses back as the buttons and keeps the comma count |
| Env.Observation | worker/env.go:103-110 | the observation of a size-by-size image has 3·size² bytes |
| Env.PixelIndex | worker/env.go:103-109 | the index (y·size + x)·3 + c of channel c of pixel (x, y) lies inside the observation |
| Env.PixelAt | worker/env.go:106-107 | the byte at that index is the high byte of that channel |
| Env.Observe | worker/env.go:103-110 | the nested loop produces the row-major RGB observation; every pixel's channel is its 16-bit value shifted right by 8 |
| Env.ObservationComplete | worker/env.go:103-110 | a buffer of 3·size² correct bytes is the observation, pixel by pixel |
| Env.StateForEnv | worker/env.go:136-152 | a screenshot error is returned first, then a score error; on success the payload is the observation, one flag byte (1 iff new episode) and the score text, and it splits back into those three |
| Worker.Heads | worker/main.go:104-137 | the counter starts at (new episode, 0 steps), and each step moves it by the loop's update |
| Worker.FlagMeansFresh | worker/main.go:130-137 | a state is flagged new exactly when its episode has counted no step |
| Worker.CounterBounded | worker/main.go:126-137 | with a non-negative limit, the counter stays between 0 and the limit at every loop head |
| Worker.CounterCountsEpisode | worker/main.go:126-137 | inside one episode the counter grows by one per state |
| Worker.EpisodeBounded | worker/main.go:104-137 | between two states flagged new, at most `limit` further states go by |
| Worker.FlagsBounded | worker/main.go:104-137 | no run of unflagged states in the flags is longer than the limit |
| Worker.RunEnvironment | worker/main.go:104-138 | the first state is flagged new; a state is flagged new iff the step before it reported done or passed the limit; the counter stays within the limit; no episode is longer than the limit allows |
| Connection.Conn.constructor | master/qwop_master/conn.py:14-19 | a new connection has nothing pending |
| Connection.Conn.ReadStates | master/qwop_master/conn.py:21-37 | hands back everything pending, in arrival order, and leaves the buffer empty |
| Connection.Conn.SendActions | master/qwop_master/conn.py:39-48 | leaves the pending buffer as it was |
| Connection.Conn.Deliver | master/qwop_master/conn.py:15-17 | the listener's messages are appended after what is pending |
| Connection.DrainTwice | master/qwop_master/conn.py:34-37 | two drains with no delivery in between: the second one is empty |
| RollerSpec.Remove | master/qwop_master/roller.py:112 | deleting a key takes it out of the key order and keeps the other keys distinct; deleting a key that is not listed changes nothing |
| RollerSpec.RemoveConcat | master/qwop_master/roller.py:112 | deleting a key from the order of two runs of keys deletes it from each run: the keys around it keep their order |
| RollerSpec.RemoveOnce | master/qwop_master/roller.py:112 | deleting a key listed once leaves the keys before it followed by the keys after it |
| RollerSpec.ClosedOrderMembers | master/qwop_master/roller.py:105-106 | the batch closes exactly the active environments that sent a message flagged new, each once |
| RollerSpec.NewsEffect | master/qwop_master/roller.py:105-112 | the active rollouts lose exactly the environments flagged new; completed grows by their rollouts, each with a trailing 0 reward and stamped, in closing order; the key order stays in step with the keys |
| RollerSpec.CreditReward | master/qwop_master/roller.py:121-123 | crediting a cumulative reward appends one reward and keeps the rest; the rollout's total reward is then the cumulative reward |
| RollerSpec.RewardsEffect | master/qwop_master/roller.py:119-123 | the active environments stay the same; each rollout gains one reward per message of its environment, keeps its earlier rewards and fields, and its total becomes the last cumulative reward received; inactive environments are ignored |
| RollerSpec.SlotStates | master/qwop_master/roller.py:148-156 | one recurrent state per environment id |
| RollerSpec.SlotContinues | master/qwop_master/roller.py:150-153 | once its reward is in, an environment continues from the state its last model output produced |
| RollerSpec.SlotOfNewcomer | master/qwop_master/roller.py:148-150 | an environment without a rollout starts from the model's initial state |
| RollerSpec.StepsKeys | master/qwop_master/roller.py:129-136 | afterwards the active environments are the earlier ones plus those of the batch; new ones join the end of the key order; completed is untouched |
| RollerSpec.StepsUntouched | master/qwop_master/roller.py:129-136 | rollouts of environments absent from the batch are unchanged |
| RollerSpec.StepsGrow | master/qwop_master/roller.py:129-136 | an environment's rollout (its active one, or a new one from the start state of its first message) gets its observations and model outputs from the batch appended in order, and is stamped |
| RollerSpec.TimeoutsEffect | master/qwop_master/roller.py:162-164 | going through a snapshot of keys removes exactly the listed keys whose rollout is expired; nothing is added to completed |
| RollerSpec.TimeoutsExact | master/qwop_master/roller.py:162-164 | `_remove_timeouts` keeps exactly the rollouts with end_time + timeout >= now, unchanged, and never adds to completed |
| RollerSpec.ReadyRollouts | master/qwop_master/roller.py:74-76 | every rollout counted as ready has at least min_horizon steps |
| RollerSpec.ReadyCount | master/qwop_master/roller.py:73-76 | the loop counts exactly the environments whose active rollout has at least min_horizon steps |
| RollerSpec.EnoughMeansCount | master/qwop_master/roller.py:73-77 | "enough" means completed plus ready rollouts reach min_rollouts |
| RollerSpec.Continuation | master/qwop_master/roller.py:90-95 | the continuation starts from the state after the last rewarded step; it carries total steps and total reward forward; it holds exactly the last observation and model output and no reward; it is stamped |
| RollerSpec.UsableRollouts | master/qwop_master/roller.py:84-98 | extraction returns completed plus ready rollouts, each with one empty info per step; every ready rollout ends in a model output (`trunc_end` holds) |
| RollerSpec.ExtractionKeepsInvariant | master/qwop_master/roller.py:84-96 | afterwards nothing is completed or ready, every environment keeps an active rollout with the same totals, and the invariant holds |
| RollerSpec.IterationKeepsInvariant | master/qwop_master/roller.py:54-65 | one iteration keeps the invariant; completed rollouts are never lost; when the timeout is at least the time between the step stamp and the timeout check, every environment that sent a state has an active rollout afterwards |
| RollerSpec.ThreeStatesScenario | master/qwop_master/roller.py:101-136 | cumulative rewards 1.0, 3.0, then an episode start close a rollout with rewards [3.0, 0.0] and the first two observations, and open a new one at the third state |
| Roller.RemoteRoller.constructor | master/qwop_master/roller.py:16-46 | both caches start empty and the parameters are kept as given (their defaults are 64, 16, 1 and 300) |
| Roller.RemoteRoller.HasEnoughRollouts | master/qwop_master/roller.py:68-77 | the loop over the rollouts decides `EnoughRollouts` (compared with min_rollouts itself) |
| Roller.RemoteRoller.HandleNews | master/qwop_master/roller.py:101-112 | the loop ends in the state `AfterNews` describes |
| Roller.RemoteRoller.HandleRewards | master/qwop_master/roller.py:114-123 | the loop changes only the active rollouts, as `AfterRewards` describes |
| Roller.RemoteRoller.StateBatch | master/qwop_master/roller.py:144-156 | the loop fills one slot per id, as `SlotStates` describes |
| Roller.RemoteRoller.HandleStepTaken | master/qwop_master/roller.py:125-136 | the loop, keyed by environment id, ends in the state `AfterSteps` describes |
| Roller.RemoteRoller.RemoveTimeouts | master/qwop_master/roller.py:158-164 | the loop over a snapshot of the keys ends in the state `AfterTimeouts` describes |
| Roller.RefreshReady | master/qwop_master/roller.py:84-96 | the loop over the keys collects exactly the ready rollouts, in key order, and leaves the map `AfterExtraction` describes |
| Roller.RemoteRoller.ExtractUsableRollouts | master/qwop_master/roller.py:79-99 | returns `Usable` of the caches before, at least min_rollouts of them when there were enough, each with one empty info per step; leaves the caches `AfterExtraction` describes, with nothing completed or ready and the invariant kept |
| Roller.RemoteRoller.StepBatch | master/qwop_master/roller.py:54-65 | returns the model's outputs on the batch's observations and slot states; the new caches are `Iterate` of the old ones; the pending buffer is unchanged; the invariant and the completed rollouts are kept; when the timeout covers the gap between the step stamp and the check, every environment of the batch stays active |
| Roller.RemoteRoller.Poll | master/qwop_master/roller.py:50-53 | one read returns what was pending plus the listener's next delivery, and empties the buffer |
| Roller.RemoteRoller.Rollouts | master/qwop_master/roller.py:48-66 | returns the batches the policy was run on: at most one per clock reading, each of at least min_step_batch messages, together a prefix of the pending messages followed by the deliveries; each batch was stepped while the caches reached before it did not yet have enough rollouts; the caches reached are `Run` of the starting caches over those batches; `None` comes only when those caches do not have enough and either every clock reading was used or the messages left cannot fill another batch; a returned result is exactly `Usable` of those caches, which had enough rollouts, and holds at least min_rollouts rollouts with one empty info per step; the caches are then `AfterExtraction` of those, with nothing completed or ready |
| Roller.RemoteRoller.StepUntilEnough | master/qwop_master/roller.py:48-65 | the loop steps batches of at least min_step_batch messages, taken in order from the pending messages and the deliveries; the caches are `Run` of the starting ones over those batches; each batch was stepped while the caches before it did not have enough rollouts, so the loop stops at the first batch count that reaches enough; `enough` is whether the final caches have enough, and it is false only when every clock reading was used or the messages left cannot fill another batch |
| Roller.RemoteRoller.ReadAndStep | master/qwop_master/roller.py:49-65 | one pass, entered only while the caches do not have enough rollouts, reads a buffer and, when it reaches min_step_batch, advances the caches by one more batch of `Run`, stepped from caches that were short; otherwise the deliveries are used up and the caches are untouched |
| Roller.RemoteRoller.ReadBatch | master/qwop_master/roller.py:49-52 | reads until the buffer holds min_step_batch messages or the deliveries run out; a delivery past the first is read only while the buffer is still short of min_step_batch; the buffer is what was pending followed by the deliveries read, in order, and the connection is left empty |
| Roller.RunKeepsInvariant | master/qwop_master/roller.py:47-65 | any number of iterations keep the invariant and never lose or reorder a completed rollout |
| Roller.ContinueRollout | master/qwop_master/roller.py:90-95 | builds exactly the `Continuation` of the rollout |
| Roller.StampAll | master/qwop_master/roller.py:97-98 | gives every rollout one empty info per step |
| RollerAsWritten.HasEnoughAsWritten | master/qwop_master/roller.py:77 | as written the check always raises TypeError |
| RollerAsWritten.HasEnoughDiscrepancy | master/qwop_master/roller.py:77 | with one completed rollout and min_rollouts 1, the intended check says enough, but the code as written raises |
| RollerAsWritten.StepsAsWrittenRestart | master/qwop_master/roller.py:129-136 | as written, on a dictionary the code filled, the result is exactly `Restarted`: each message's step lands in a new single-observation rollout under its batch position, and the other keys keep their rollouts |
| RollerAsWritten.RestartedKeys | master/qwop_master/roller.py:129-136 | as written every batch position holds a rollout with just that message's observation and no reward; every other key keeps its rollout; no environment id gains a rollout |
| RollerAsWritten.HistoryLost | master/qwop_master/roller.py:131-133 | one environment stepped in two batches: as written the rollout holds only the second observation; keyed by environment it holds both, in order |

## Left out

- Redis, Chrome and HTTP I/O. Publishing, subscribing, page evaluation and process management are foreign calls. Their results are inputs here: the replies to `ReceiveAct`, the screenshot and score results of `StateForEnv`, and the done flags of `RunEnvironment`.
- Concurrency. The goroutines and the lock in conn.py are left out. `read_states` is one atomic step. The background listener is a TODO in conn.py. `Connection.Conn.Deliver` stands in for it, and the sequence of its deliveries is an input of `Rollouts`.
- The master-side payload decoder is not in the repository. The decoded messages are `StateMsg` values, and `Env.SplitState` states how a payload would be taken apart.
- Time. `time.time()`, the sleeps and all deadlines are left out. `Rollouts` takes the clock readings as an input: three per iteration (`Ticks`: the stamp of `_handle_news`, the stamp of `_handle_step_taken` and the time `_remove_timeouts` compares with) and one for the extraction. Readings are not required to increase. `ReceiveAct`'s deadline is the end of its list of replies.
- RollerSpec.Ticks: `_handle_news` and `_handle_step_taken` call `time.time()` once per rollout they stamp; the model uses one reading per handler, so rollouts stamped by the same handler in one iteration carry the same end time. Likewise `_remove_timeouts` reads the clock once per key (roller.py:163) and extraction once per continuation (roller.py:95); the model uses one reading for each, `Ticks.check` and the extraction's reading.
- Roller.RemoteRoller.Rollouts: the source waits forever for messages. Here it returns `None` when the deliveries or the clock readings run out; a buffer still short of min_step_batch at that point has been read but is never stepped.
- Floating point. The score's `%f` text is opaque bytes, and rewards are `real`.
- PNG and base64 decoding. The decoded image is a function from pixel to 16-bit colour.
- Randomness. The number behind an environment id is an input.
- The policy model is opaque: a batched step function and an initial recurrent state. Roller.RemoteRoller.constructor requires that the step gives one output per observation, which `reduce_model_outs` relies on.
- Roller.RemoteRoller.constructor requires `min_horizon >= 1`. With `min_horizon <= 0`, extraction takes `step_model_outs[-1]` of a rollout with no steps. That raises IndexError, which the model does not reproduce.
- anyrl internals. `empty_rollout`, `reduce_model_outs`, `reduce_states`, `inject_state` and the Rollout properties are assumed as stated in rollout.dfy. `trunc_end` is assumed to mean "holds a model output past its last reward". The `end_time` of `empty_rollout` is a placeholder 0.0; every rollout created this way is stamped before it is read.
- `_send_actions` only forwards to `Conn.send_actions`, whose body is a TODO. StepBatch calls it and nothing changes.
- Error wrapping (`essentials.AddCtx`/`AddCtxTo`) adds context to an error's text. The model returns the bare error text.
- The worker's `EnvID` getter, `Close`, `ResetEnv`, `WaitForEnv`, the game's JavaScript and the diagnostic scripts are not part of this model. watch_envs.py is used only as the reader of the state topic.
- Python dictionaries hold references to rollouts that the handlers mutate in place. The model holds rollouts as values. No rollout is shared between the two caches when it is mutated, so no aliasing is lost.

## Findings

| source | as written | input that shows it | evidently intended | confidence | as-written member | corrected member |
|---|---|---|---|---|---|---|
| master/qwop_master/roller.py:77 | `num_rollouts >= len(self.min_rollouts)` calls `len` on an integer, which raises TypeError, so `rollouts()` never returns | any call, e.g. one completed rollout with `min_rollouts=1` | `num_rollouts >= self.min_rollouts` | not executed | RollerAsWritten.HasEnoughDiscrepancy | RollerSpec.EnoughMeansCount |
| master/qwop_master/roller.py:132-133 | the new rollout is stored and fetched under the batch position `i`, while the membership test at line 131 uses `env_id`, so every step opens a fresh single-step rollout and no history grows | environment "a" stepped in two consecutive single-message batches | store and fetch under `env_id`, as lines 106, 120 and 150 do | not executed | RollerAsWritten.HistoryLost | RollerSpec.StepsGrow |
