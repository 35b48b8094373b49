/**
 * The worker's environment encoding (worker/env.go): the button array
 * literal handed to the game, the observation byte layout, and the framing
 * of the state payload published to the master. The browser calls around
 * them are inputs here.
 */
module Env {
  import opened Common

  // ---------------------------------------------------------------------
  // The button literal of StepEnv
  // ---------------------------------------------------------------------

  function Literal(b: bool): string
  {
    if b then "true" else "false"
  }

  /** The literals of the buttons, separated by ", ". */
  function Joined(a: seq<bool>): string
  {
    if a == [] then ""
    else if |a| == 1 then Literal(a[0])
    else Joined(a[..|a| - 1]) + ", " + Literal(a[|a| - 1])
  }

  predicate HasSuffix(t: string, x: string)
  {
    |x| <= |t| && t[|t| - |x|..] == x
  }

  /** How the game reads the list back: the inverse of the literal. */
  function ParseButtons(s: string): Option<seq<bool>>
  {
    if |s| >= 2 && s[0] == '[' && s[|s| - 1] == ']' then ParseItems(s[1..|s| - 1]) else None
  }

  function ParseItems(t: string): Option<seq<bool>>
    decreases |t|
  {
    if t == [] then Some([])
    else if !HasSuffix(t, "true") && !HasSuffix(t, "false") then None
    else
      var b := HasSuffix(t, "true");
      var rest := t[..|t| - |Literal(b)|];
      if rest == [] then Some([b])
      else if !HasSuffix(rest, ", ") then None
      else match ParseItems(rest[..|rest| - 2])
        case Some(bs) => if bs == [] then None else Some(bs + [b])
        case None => None
  }

  lemma LiteralEnd(b: bool, u: string)
    ensures HasSuffix(u + Literal(b), "true") == b
    ensures HasSuffix(u + Literal(b), "false") == !b
    ensures (u + Literal(b))[..|u|] == u
  {
    var t := u + Literal(b);
    if b {
      assert t[|t| - 4..] == "true";
      if |t| >= 5 {
        assert t[|t| - 5..][1] == 't';
      }
    } else {
      assert t[|t| - 5..] == "false";
      assert t[|t| - 4..] == "alse";
    }
  }

  /** A literal holds no comma. */
  lemma LiteralCommas(b: bool)
    ensures multiset(Literal(b))[','] == 0
  {
    if b {
      assert multiset(Literal(b)) == multiset{'t', 'r', 'u', 'e'};
    } else {
      assert multiset(Literal(b)) == multiset{'f', 'a', 'l', 's', 'e'};
    }
  }

  /** One more literal after a non-empty list extends what is read back. */
  lemma ParseNext(u: string, init: seq<bool>, b: bool)
    requires ParseItems(u) == Some(init) && init != []
    ensures ParseItems(u + ", " + Literal(b)) == Some(init + [b])
  {
    var w := u + ", ";
    var t := w + Literal(b);
    LiteralEnd(b, w);
    assert t != [];
    var rest := t[..|t| - |Literal(b)|];
    assert rest == w;
    assert HasSuffix(rest, ", ");
    assert rest[..|rest| - 2] == u;
  }

  lemma ParseSingle(b: bool)
    ensures ParseItems(Literal(b)) == Some([b])
  {
    var t := Literal(b);
    LiteralEnd(b, "");
    assert "" + t == t;
    assert t[..|t| - |Literal(b)|] == [];
  }

  lemma JoinedLast(a: seq<bool>)
    requires |a| >= 2
    ensures Joined(a) == Joined(Front(a)) + ", " + Literal(Last(a))
    ensures Front(a) != [] && Front(a) + [Last(a)] == a
  {
    FrontLast(a);
  }

  /** Every list of buttons reads back as those buttons. */
  lemma {:induction false} JoinedRoundTrip(a: seq<bool>)
    ensures ParseItems(Joined(a)) == Some(a)
    decreases |a|
  {
    if a == [] {
    } else if |a| == 1 {
      assert Joined(a) == Literal(a[0]);
      ParseSingle(a[0]);
      assert [a[0]] == a;
    } else {
      JoinedRoundTrip(Front(a));
      JoinedLast(a);
      ParseNext(Joined(Front(a)), Front(a), Last(a));
    }
  }

  /** The literal of n >= 1 buttons holds n - 1 separators, so none trails. */
  lemma {:induction false} JoinedCommas(a: seq<bool>)
    ensures multiset(Joined(a))[','] == if a == [] then 0 else |a| - 1
    decreases |a|
  {
    if |a| == 1 {
      LiteralCommas(a[0]);
    } else if |a| >= 2 {
      JoinedCommas(a[..|a| - 1]);
      LiteralCommas(a[|a| - 1]);
      assert multiset(", ")[','] == 1;
    }
  }

  /** The bracketed list keeps the round trip and the separator count. */
  lemma BracketedList(a: seq<bool>)
    ensures ParseButtons("[" + Joined(a) + "]") == Some(a)
    ensures multiset("[" + Joined(a) + "]")[','] == if a == [] then 0 else |a| - 1
  {
    var s := "[" + Joined(a) + "]";
    JoinedRoundTrip(a);
    assert s[1..|s| - 1] == Joined(a);
    JoinedCommas(a);
    assert multiset(s) == multiset("[") + multiset(Joined(a)) + multiset("]");
  }

  lemma JoinedEnd(a: seq<bool>)
    requires a != []
    ensures Joined(a)[|Joined(a)| - 1] == 'e'
  {
  }

  /** What the loop writes before the literal of button i. */
  function Separator(i: nat): string
  {
    if i == 0 then "" else ", "
  }

  /** The literal list of the first i + 1 buttons extends that of the first i. */
  lemma JoinedStep(a: seq<bool>, i: nat)
    requires i < |a|
    ensures Joined(a[..i + 1]) == Joined(a[..i]) + Separator(i) + Literal(a[i])
  {
    var p := a[..i + 1];
    assert Front(p) == a[..i] && Last(p) == a[i];
    if i > 0 {
      JoinedLast(p);
    } else {
      assert Joined(a[..i]) == "";
    }
  }

  /** One pass of the `buttonStr` loop extends the literal by one button. */
  lemma ButtonStep(action: seq<bool>, i: nat, s: string, s': string)
    requires i < |action| && s == "[" + Joined(action[..i])
    requires s' == s + Separator(i) + Literal(action[i])
    ensures s' == "[" + Joined(action[..i + 1])
  {
    JoinedStep(action, i);
    ConcatAssoc("[", Joined(action[..i]), Separator(i));
    ConcatAssoc("[", Joined(action[..i]) + Separator(i), Literal(action[i]));
  }

  /** The body of the `buttonStr` loop for button i. */
  method AppendButton(s: string, i: nat, act: bool) returns (s': string)
    ensures s' == s + Separator(i) + Literal(act)
  {
    s' := s;
    if i > 0 {
      s' := s' + ", ";
    }
    if act {
      s' := s' + "true";
    } else {
      s' := s' + "false";
    }
  }

  /**
   * The `buttonStr` loop of `StepEnv`: "[" then each button's literal, with
   * ", " before every one but the first, then "]".
   */
  method ButtonString(action: seq<bool>) returns (s: string)
    ensures s == "[" + Joined(action) + "]"
    ensures ParseButtons(s) == Some(action)
    ensures multiset(s)[','] == if action == [] then 0 else |action| - 1
    ensures action != [] ==> s[|s| - 2] == 'e'
  {
    s := OpenButtons(action);
    s := s + "]";
    ButtonsClosed(action, s);
  }

  /** The loop of `buttonStr`: "[" followed by every button's literal. */
  method OpenButtons(action: seq<bool>) returns (s: string)
    ensures s == "[" + Joined(action)
  {
    s := "[";
    assert s == "[" + Joined(action[..0]);
    for i := 0 to |action|
      invariant s == "[" + Joined(action[..i])
    {
      ghost var before := s;
      s := AppendButton(s, i, action[i]);
      ButtonStep(action, i, before, s);
    }
    assert action[..|action|] == action;
  }

  /** The closed literal reads back as the buttons, with n - 1 commas and no trailing one. */
  lemma ButtonsClosed(action: seq<bool>, s: string)
    requires s == "[" + Joined(action) + "]"
    ensures ParseButtons(s) == Some(action)
    ensures multiset(s)[','] == if action == [] then 0 else |action| - 1
    ensures action != [] ==> s[|s| - 2] == 'e'
  {
    BracketedList(action);
    if action != [] {
      JoinedEnd(action);
    }
  }

  // ---------------------------------------------------------------------
  // The observation bytes of ObserveEnv
  // ---------------------------------------------------------------------

  /** A 16-bit colour channel, as `color.Color.RGBA` returns it. */
  type uint16 = x: int | 0 <= x < 0x1_0000

  datatype Color = Color(r: uint16, g: uint16, b: uint16)

  /** The decoded screenshot: the colour of pixel (x, y). */
  type Image = (int, int) -> Color

  function Channel(c: Color, k: nat): uint16
    requires k < 3
  {
    if k == 0 then c.r else if k == 1 then c.g else c.b
  }

  /** `byte(v >> 8)`: the high byte of a 16-bit channel value. */
  function High(v: uint16): byte
  {
    (v / 256) as byte
  }

  /** Byte j of a row-major RGB observation of side `size`. */
  function ByteAt(image: Image, size: nat, j: nat): byte
  {
    if size == 0 then 0
    else
      var p := j / 3;
      High(Channel(image(p % size, p / size), j % 3))
  }

  /** The whole observation, byte by byte. */
  function Observation(image: Image, size: nat): (o: Obs)
    ensures |o| == 3 * size * size
  {
    seq(3 * size * size, j requires 0 <= j => ByteAt(image, size, j))
  }

  /** Where channel c of pixel (x, y) lands. */
  function PixelIndex(size: nat, x: nat, y: nat, c: nat): (j: nat)
    requires x < size && y < size && c < 3
    ensures j < 3 * size * size
  {
    PixelBound(size, x, y, c);
    (y * size + x) * 3 + c
  }

  lemma PixelBound(size: nat, x: nat, y: nat, c: nat)
    requires x < size && y < size && c < 3
    ensures (y * size + x) * 3 + c < 3 * size * size
  {
    var q := y * size + x;
    assert y * size <= (size - 1) * size by { MulLeft(y, size - 1, size); }
    assert (size - 1) * size == size * size - size;
    assert q < size * size;
    assert q * 3 + c < size * size * 3;
    assert size * size * 3 == 3 * size * size;
  }

  lemma MulLeft(a: nat, b: nat, k: nat)
    requires a <= b
    ensures a * k <= b * k
  {
  }

  lemma DivModUnique(q: int, d: int, a: int, b: int)
    requires 0 < d && 0 <= b < d && 0 <= a && q == a * d + b
    ensures q / d == a && q % d == b
  {
    var a', b' := q / d, q % d;
    assert q == a' * d + b';
    if a' > a {
      assert (a' - a) * d >= d by { MulLeft(1, a' - a, d); }
      assert false;
    } else if a' < a {
      assert (a - a') * d >= d by { MulLeft(1, a - a', d); }
      assert false;
    }
  }

  lemma PixelAt(image: Image, size: nat, x: nat, y: nat, c: nat)
    requires x < size && y < size && c < 3
    ensures ByteAt(image, size, PixelIndex(size, x, y, c)) == High(Channel(image(x, y), c))
  {
    var q := y * size + x;
    DivModUnique(q * 3 + c, 3, q, c);
    DivModUnique(q, size, y, x);
  }

  /** Appending pixel (x, y) to a correct prefix of the observation keeps it correct. */
  lemma AppendPixel(image: Image, size: nat, x: nat, y: nat, data: Obs)
    requires x < size && y < size && |data| == (y * size + x) * 3
    requires forall j :: 0 <= j < |data| ==> data[j] == ByteAt(image, size, j)
    ensures var c := image(x, y);
            var next := data + [High(c.r), High(c.g), High(c.b)];
            forall j :: 0 <= j < |next| ==> next[j] == ByteAt(image, size, j)
  {
    PixelAt(image, size, x, y, 0);
    PixelAt(image, size, x, y, 1);
    PixelAt(image, size, x, y, 2);
  }

  /**
   * The pixel loop of `ObserveEnv`: rows top to bottom, pixels left to
   * right, three bytes (R, G, B) per pixel, each the high byte of the
   * 16-bit channel.
   */
  method Observe(image: Image, size: nat) returns (data: Obs)
    ensures data == Observation(image, size)
    ensures forall x, y, c :: 0 <= x < size && 0 <= y < size && 0 <= c < 3 ==>
              data[PixelIndex(size, x, y, c)] == High(Channel(image(x, y), c))
  {
    data := [];
    var y, p := 0, 0;
    while y < size
      invariant 0 <= y <= size
      invariant p == y * size && |data| == p * 3
      invariant forall j :: 0 <= j < |data| ==> data[j] == ByteAt(image, size, j)
    {
      var x := 0;
      while x < size
        invariant 0 <= x <= size
        invariant p == y * size + x && |data| == p * 3
        invariant forall j :: 0 <= j < |data| ==> data[j] == ByteAt(image, size, j)
      {
        var color := image(x, y);
        AppendPixel(image, size, x, y, data);
        data := data + [High(color.r), High(color.g), High(color.b)];
        x, p := x + 1, p + 1;
      }
      assert (y + 1) * size == y * size + size;
      y := y + 1;
    }
    ObservationComplete(image, size, data);
  }

  lemma ObservationComplete(image: Image, size: nat, data: Obs)
    requires |data| == size * size * 3
    requires forall j :: 0 <= j < |data| ==> data[j] == ByteAt(image, size, j)
    ensures data == Observation(image, size)
    ensures forall x, y, c :: 0 <= x < size && 0 <= y < size && 0 <= c < 3 ==>
              data[PixelIndex(size, x, y, c)] == High(Channel(image(x, y), c))
  {
    assert size * size * 3 == 3 * size * size;
    assert data == Observation(image, size);
    forall x, y, c | 0 <= x < size && 0 <= y < size && 0 <= c < 3
      ensures data[PixelIndex(size, x, y, c)] == High(Channel(image(x, y), c))
    {
      var j := PixelIndex(size, x, y, c);
      assert j < |data|;
      PixelAt(image, size, x, y, c);
      assert data[j] == ByteAt(image, size, j);
    }
  }

  // ---------------------------------------------------------------------
  // The state payload of StateForEnv
  // ---------------------------------------------------------------------

  /** A state payload taken apart: observation, episode flag, score text. */
  datatype Frame = Frame(observation: Obs, newEpisode: bool, score: seq<byte>)

  /** The master's reading of a payload whose observation has `obsLen` bytes. */
  function SplitState(payload: seq<byte>, obsLen: nat): Option<Frame>
  {
    if |payload| < obsLen + 1 then None
    else Some(Frame(payload[..obsLen], payload[obsLen] != 0, payload[obsLen + 1..]))
  }

  /**
   * `StateForEnv`: the observation, one flag byte (1 on the first state of
   * an episode, else 0), then the score text. A failed screenshot or score
   * read is the result's error; the score is not read after a failed
   * screenshot.
   */
  method StateForEnv(screenshot: Result<Image, string>, newEpisode: bool, size: nat,
                     score: Result<seq<byte>, string>)
      returns (r: Result<seq<byte>, string>)
    ensures screenshot.Err? ==> r == Err(screenshot.error)
    ensures screenshot.Ok? && score.Err? ==> r == Err(score.error)
    ensures screenshot.Ok? && score.Ok? ==>
              && r.Ok?
              && |r.value| == 3 * size * size + 1 + |score.value|
              && r.value[..3 * size * size] == Observation(screenshot.value, size)
              && r.value[3 * size * size] == (if newEpisode then 1 else 0)
              && SplitState(r.value, 3 * size * size)
                 == Some(Frame(Observation(screenshot.value, size), newEpisode, score.value))
  {
    if screenshot.Err? {
      return Err(screenshot.error);
    }
    var payload := Observe(screenshot.value, size);
    if newEpisode {
      payload := payload + [1];
    } else {
      payload := payload + [0];
    }
    if score.Err? {
      return Err(score.error);
    }
    payload := payload + score.value;
    r := Ok(payload);
    var n := 3 * size * size;
    assert payload[..n] == Observation(screenshot.value, size);
    assert payload[n + 1..] == score.value;
  }
}
