/** Types shared by the worker (Go) and master (Python) halves of the model. */
module Common {

  /** An unsigned 8-bit value, as Go's `byte` and the bytes of a Redis payload. */
  newtype byte = x: int | 0 <= x < 256

  /** An environment id: the text after the last ':' of a state topic. */
  type EnvId = string

  /** A raw observation as it travels on the wire: row-major RGB bytes. */
  type Obs = seq<byte>

  datatype Option<+T> = None | Some(value: T)

  datatype Result<+T, +E> = Ok(value: T) | Err(error: E)

  /** Python's `s[-1]`. */
  function Last<T>(s: seq<T>): T
    requires |s| > 0
  {
    s[|s| - 1]
  }

  /** Everything but the last element. */
  function Front<T>(s: seq<T>): seq<T>
    requires |s| > 0
  {
    s[..|s| - 1]
  }

  /** A non-empty sequence is its front followed by its last element. */
  lemma FrontLast<T>(s: seq<T>)
    requires |s| > 0
    ensures Front(s) + [Last(s)] == s
  {
  }

  lemma ConcatAssoc<T>(a: seq<T>, b: seq<T>, c: seq<T>)
    ensures (a + b) + c == a + (b + c)
  {
  }

  /** The sequences of `s` one after another, as repeated `list.extend` builds them. */
  function Flatten<T>(s: seq<seq<T>>): (f: seq<T>)
  {
    if s == [] then [] else Flatten(Front(s)) + Last(s)
  }

  lemma FlattenAppend<T>(s: seq<seq<T>>, x: seq<T>)
    ensures Flatten(s + [x]) == Flatten(s) + x
  {
    assert Front(s + [x]) == s;
  }
}
