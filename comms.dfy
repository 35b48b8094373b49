/**
 * The worker's side of the message bus (worker/comms.go): the names of the
 * two pub/sub topics of a session, the random environment id they end in,
 * and the decoding of the four-button action a master publishes.
 */
module Comms {
  import opened Common

  /** The four QWOP buttons (Q, W, O, P), as Go's `[4]bool`. */
  type Action = a: seq<bool> | |a| == 4 witness [false, false, false, false]

  const ZeroChar: byte := 48  // '0'
  const OneChar: byte := 49   // '1'

  const InvalidPayloadSize := "invalid payload size"
  const ActionTimeoutExceeded := "action timeout exceeded"

  // ---------------------------------------------------------------------
  // Action payloads
  // ---------------------------------------------------------------------

  /**
   * The payload check and conversion of `ReceiveAct`: exactly four bytes,
   * and a button is pressed unless its byte is the character '0' (so any
   * other byte, not only '1', presses it).
   */
  function DecodeAction(payload: seq<byte>): (r: Result<Action, string>)
    ensures |payload| != 4 <==> r == Err(InvalidPayloadSize)
    ensures |payload| == 4 ==> r.Ok?
    ensures r.Ok? ==> forall i :: 0 <= i < 4 ==> (r.value[i] <==> payload[i] != ZeroChar)
  {
    if |payload| != 4 then Err(InvalidPayloadSize)
    else Ok([payload[0] != ZeroChar, payload[1] != ZeroChar,
             payload[2] != ZeroChar, payload[3] != ZeroChar])
  }

  /** The wire form of an action that `DecodeAction` expects: one '1' or '0' per button, no separator. */
  function EncodeAction(a: seq<bool>): (s: seq<byte>)
    ensures |s| == |a|
    ensures forall i :: 0 <= i < |a| ==> (s[i] == OneChar <==> a[i])
    ensures forall i :: 0 <= i < |a| ==> (s[i] == ZeroChar <==> !a[i])
  {
    if a == [] then [] else EncodeAction(a[..|a| - 1]) + [if a[|a| - 1] then OneChar else ZeroChar]
  }

  /** A payload made only of '0' and '1' characters, as the master sends. */
  predicate Canonical(payload: seq<byte>)
  {
    forall i :: 0 <= i < |payload| ==> payload[i] == ZeroChar || payload[i] == OneChar
  }

  /** Decoding undoes encoding for every action. */
  lemma ActionRoundTrip(a: Action)
    ensures DecodeAction(EncodeAction(a)) == Ok(a)
  {
    var r := DecodeAction(EncodeAction(a));
    assert r.value == a;
  }

  /** On a canonical four-byte payload, encoding undoes decoding. */
  lemma PayloadRoundTrip(payload: seq<byte>)
    requires |payload| == 4 && Canonical(payload)
    ensures DecodeAction(payload).Ok?
    ensures EncodeAction(DecodeAction(payload).value) == payload
  {
    var s := EncodeAction(DecodeAction(payload).value);
    assert forall i :: 0 <= i < 4 ==> s[i] == payload[i];
  }

  // ---------------------------------------------------------------------
  // Receiving an action
  // ---------------------------------------------------------------------

  /** What one call of `ReceiveTimeout` on the action subscription hands back. */
  datatype Received =
    | Message(payload: seq<byte>)  // a *redis.Message
    | Control                      // any other reply: a subscription notice, a pong
    | Failure(reason: string)      // the error of the call itself

  /**
   * `Session.ReceiveAct`: skip replies that are not messages; the first
   * message alone decides the result, and an error ends the wait. The items
   * are the replies that arrive before the deadline: running out of them is
   * the deadline passing.
   */
  method ReceiveAct(items: seq<Received>) returns (r: Result<Action, string>)
    ensures (forall j :: 0 <= j < |items| ==> items[j].Control?) ==> r == Err(ActionTimeoutExceeded)
    ensures forall k :: 0 <= k < |items| && !items[k].Control? &&
                        (forall j :: 0 <= j < k ==> items[j].Control?) ==>
              r == (if items[k].Failure? then Err(items[k].reason) else DecodeAction(items[k].payload))
  {
    var i := 0;
    while i < |items|
      invariant 0 <= i <= |items|
      invariant forall j :: 0 <= j < i ==> items[j].Control?
    {
      match items[i]
      case Failure(reason) =>
        return Err(reason);
      case Message(payload) =>
        return DecodeAction(payload);
      case Control =>
        i := i + 1;
    }
    return Err(ActionTimeoutExceeded);
  }

  // ---------------------------------------------------------------------
  // Topics and environment ids
  // ---------------------------------------------------------------------

  /** The topic a worker subscribes to for its actions. */
  function ActTopic(prefix: string, envId: EnvId): string
  {
    prefix + ":act:" + envId
  }

  /** The topic a worker publishes its states on. */
  function StateTopic(prefix: string, envId: EnvId): string
  {
    prefix + ":state:" + envId
  }

  /** The bound passed to `rand.Intn`: 16^12, so ids have at most 12 hex digits. */
  const EnvIdSpace: nat := 0x1_0000_0000_0000

  function Pow16(k: nat): (p: nat)
    ensures p >= 1
  {
    if k == 0 then 1 else 16 * Pow16(k - 1)
  }

  /** A lower-case hexadecimal digit. */
  function HexDigit(d: nat): char
    requires d < 16
  {
    if d < 10 then ('0' as int + d) as char else ('a' as int + d - 10) as char
  }

  /** Go's `%x` of a non-negative number: lower-case digits, no leading zeros. */
  function Hex(n: nat): (s: string)
    ensures |s| >= 1
    ensures forall i :: 0 <= i < |s| ==> ('0' <= s[i] <= '9') || ('a' <= s[i] <= 'f')
    decreases n
  {
    if n < 16 then [HexDigit(n)] else Hex(n / 16) + [HexDigit(n % 16)]
  }

  lemma {:induction false} HexFits(n: nat, k: nat)
    requires 1 <= k && n < Pow16(k)
    ensures |Hex(n)| <= k
    decreases k
  {
    if n >= 16 {
      assert k >= 2;
      assert n / 16 < Pow16(k - 1);
      HexFits(n / 16, k - 1);
    }
  }

  /** `fmt.Sprintf("%12x", n)`: the hex digits, left-padded with spaces to 12. */
  function EnvIdOf(n: nat): (id: EnvId)
    requires n < EnvIdSpace
    ensures |id| == 12
    ensures ':' !in id
    ensures |Hex(n)| <= 12 && id[12 - |Hex(n)|..] == Hex(n)
    ensures forall i :: 0 <= i < 12 - |Hex(n)| ==> id[i] == ' '
  {
    assert Pow16(12) == EnvIdSpace;
    HexFits(n, 12);
    var h := Hex(n);
    seq(12 - |h|, _ => ' ') + h
  }

  /** The value of a hex digit (the inverse of HexDigit). */
  function DigitValue(c: char): nat
  {
    if '0' <= c <= '9' then (c as int - '0' as int) as nat
    else if 'a' <= c <= 'f' then (c as int - 'a' as int + 10) as nat
    else 0
  }

  /** The value of a string of hex digits. */
  function HexValue(s: string): nat
  {
    if s == [] then 0 else HexValue(s[..|s| - 1]) * 16 + DigitValue(s[|s| - 1])
  }

  /** Leading spaces dropped. */
  function TrimLeft(s: string): (t: string)
    ensures |t| <= |s| && t == s[|s| - |t|..]
  {
    if s != [] && s[0] == ' ' then TrimLeft(s[1..]) else s
  }

  /** Reading an environment id back as the number it was formatted from. */
  function ParseEnvId(id: EnvId): nat
  {
    HexValue(TrimLeft(id))
  }

  lemma {:induction false} HexValueOfHex(n: nat)
    ensures HexValue(Hex(n)) == n
    decreases n
  {
    var h := Hex(n);
    if n < 16 {
      assert h[..0] == [];
    } else {
      HexValueOfHex(n / 16);
      assert h[..|h| - 1] == Hex(n / 16);
    }
  }

  lemma {:induction false} TrimPadding(k: nat, h: string)
    requires h != [] && h[0] != ' '
    ensures TrimLeft(seq(k, _ => ' ') + h) == h
    decreases k
  {
    if k > 0 {
      assert (seq(k, _ => ' ') + h)[1..] == seq(k - 1, _ => ' ') + h;
      TrimPadding(k - 1, h);
    } else {
      assert seq(k, _ => ' ') + h == h;
    }
  }

  /** Formatting an id loses nothing: the number can be read back from it. */
  lemma EnvIdRoundTrip(n: nat)
    requires n < EnvIdSpace
    ensures ParseEnvId(EnvIdOf(n)) == n
  {
    assert Pow16(12) == EnvIdSpace;
    HexFits(n, 12);
    var h := Hex(n);
    TrimPadding(12 - |h|, h);
    HexValueOfHex(n);
  }

  /** Different draws of `rand.Intn` give different ids, hence different topics. */
  lemma EnvIdInjective(prefix: string, n: nat, m: nat)
    requires n < EnvIdSpace && m < EnvIdSpace && n != m
    ensures EnvIdOf(n) != EnvIdOf(m)
    ensures StateTopic(prefix, EnvIdOf(n)) != StateTopic(prefix, EnvIdOf(m))
  {
    EnvIdRoundTrip(n);
    EnvIdRoundTrip(m);
    assert StateTopic(prefix, EnvIdOf(n))[|prefix| + 7..] == EnvIdOf(n);
    assert StateTopic(prefix, EnvIdOf(m))[|prefix| + 7..] == EnvIdOf(m);
  }

  /** A worker's action topic is never anybody's state topic. */
  lemma TopicsDisjoint(prefix: string, a: EnvId, b: EnvId)
    ensures ActTopic(prefix, a) != StateTopic(prefix, b)
  {
    assert ActTopic(prefix, a)[|prefix| + 1] == 'a';
    assert StateTopic(prefix, b)[|prefix| + 1] == 's';
  }

  /** Python's `s.split(':')[-1]`: the text after the last ':', or all of s. */
  function LastSegment(s: string): (t: string)
    ensures ':' !in t
    ensures |t| <= |s| && t == s[|s| - |t|..]
    ensures t == s || s[|s| - |t| - 1] == ':'
  {
    if s == [] then []
    else if s[|s| - 1] == ':' then []
    else LastSegment(s[..|s| - 1]) + [s[|s| - 1]]
  }

  lemma {:induction false} LastSegmentAfterColon(u: string, t: string)
    requires ':' !in t
    ensures LastSegment(u + [':'] + t) == t
    decreases |t|
  {
    var s := u + [':'] + t;
    if t == [] {
      assert s[|s| - 1] == ':';
    } else {
      assert s[..|s| - 1] == u + [':'] + t[..|t| - 1];
      LastSegmentAfterColon(u, t[..|t| - 1]);
      assert t == t[..|t| - 1] + [t[|t| - 1]];
    }
  }

  /**
   * A listener that takes the text after the last ':' of a state topic gets
   * back exactly the worker's id, whatever the prefix holds.
   */
  lemma StateTopicNamesEnv(prefix: string, n: nat)
    requires n < EnvIdSpace
    ensures LastSegment(StateTopic(prefix, EnvIdOf(n))) == EnvIdOf(n)
    ensures ParseEnvId(LastSegment(StateTopic(prefix, EnvIdOf(n)))) == n
  {
    var id := EnvIdOf(n);
    assert StateTopic(prefix, id) == (prefix + ":state") + [':'] + id;
    LastSegmentAfterColon(prefix + ":state", id);
    EnvIdRoundTrip(n);
  }
}
