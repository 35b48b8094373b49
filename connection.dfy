/**
 * The master's connection to the workers (master/qwop_master/conn.py): a
 * buffer of decoded state messages that the consumer drains in one step.
 */
module Connection {
  import opened Common

  /** A decoded state message, as the dictionaries `read_states` returns. */
  datatype StateMsg = StateMsg(envId: EnvId, obs: Obs, rew: real, isNew: bool)

  class Conn {
    /** `_pending_messages`: received and not yet drained, oldest first. */
    var pending: seq<StateMsg>

    /** A new connection has nothing pending. */
    constructor (redisAddr: string)
      ensures pending == []
    {
      pending := [];
    }

    /**
     * `read_states`: hand back everything pending, in arrival order, and
     * leave the buffer empty. The lock makes this one atomic step.
     */
    method ReadStates() returns (res: seq<StateMsg>)
      modifies this
      ensures res == old(pending)
      ensures pending == []
    {
      res := pending;
      pending := [];
    }

    /** `send_actions`: its body is still to be written, so it changes nothing. */
    method SendActions(envIds: seq<EnvId>, actions: seq<seq<bool>>)
      ensures pending == old(pending)
    {
    }

    /**
     * What the background listener does with a batch of messages it
     * decoded: append them, under the lock, after what is pending.
     */
    method Deliver(msgs: seq<StateMsg>)
      modifies this
      ensures pending == old(pending) + msgs
    {
      pending := pending + msgs;
    }
  }

  /** Two drains with no delivery in between: the second one is empty. */
  method DrainTwice(c: Conn) returns (first: seq<StateMsg>, second: seq<StateMsg>)
    modifies c
    ensures first == old(c.pending)
    ensures second == []
    ensures c.pending == []
  {
    first := c.ReadStates();
    second := c.ReadStates();
  }
}
