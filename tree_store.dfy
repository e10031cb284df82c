/** The shared tree store: one mutable cell holding the gesture strength, the uploaded
    textures and the readiness flag, each overwritten only by its own setter. */
module Store {
  import opened Types

  /** One setter call on the store, with its argument. */
  datatype Event =
    | SetStrength(val: real)
    | AddTexture(texture: Texture)
    | SetReady(ready: bool)

  /** The store's state before any setter runs: assembled tree, no photos, camera not live. */
  function Initial(): TreeState
  {
    TreeState(0.0, [], false)
  }

  /** The state after one setter call: the setter's own field is replaced (the texture
      list by a copy of the old one with the texture on its end), the others are kept. */
  function Apply(s: TreeState, e: Event): TreeState
  {
    match e
    case SetStrength(v) => s.(interactionStrength := v)
    case AddTexture(t) => s.(userTextures := s.userTextures + [t])
    case SetReady(b) => s.(isVisionReady := b)
  }

  /** The state after a sequence of setter calls, in call order. */
  function Run(s: TreeState, es: seq<Event>): TreeState
    decreases |es|
  {
    if es == [] then s else Run(Apply(s, es[0]), es[1..])
  }

  /** The textures appended by a sequence of setter calls, in call order. */
  function AddedTextures(es: seq<Event>): seq<Texture>
    decreases |es|
  {
    if es == [] then []
    else (if es[0].AddTexture? then [es[0].texture] else []) + AddedTextures(es[1..])
  }

  /** The setter calls that append the given textures one after another. */
  function Appends(ts: seq<Texture>): seq<Event>
    decreases |ts|
  {
    if ts == [] then [] else [AddTexture(ts[0])] + Appends(ts[1..])
  }

  /** The n-th of those calls appends the n-th texture. */
  lemma {:induction false} AppendsAt(ts: seq<Texture>, n: nat)
    requires n < |ts|
    ensures |Appends(ts)| == |ts| && Appends(ts)[n] == AddTexture(ts[n])
    decreases |ts|
  {
    if n == 0 {
      AppendsLength(ts);
    } else {
      AppendsAt(ts[1..], n - 1);
    }
  }

  /** One call per texture. */
  lemma {:induction false} AppendsLength(ts: seq<Texture>)
    ensures |Appends(ts)| == |ts|
    decreases |ts|
  {
    if ts != [] {
      AppendsLength(ts[1..]);
    }
  }

  /** The strength lies in [0, 1]. */
  predicate StrengthInRange(s: TreeState)
  {
    0.0 <= s.interactionStrength <= 1.0
  }

  /** A strength write, if this call is one, lies in [0, 1]. */
  predicate StrengthWriteInRange(e: Event)
  {
    e.SetStrength? ==> 0.0 <= e.val <= 1.0
  }

  /** A readiness write, if this call is one, sets readiness to `true`. */
  predicate ReadyWriteTrue(e: Event)
  {
    e.SetReady? ==> e.ready
  }

  /** A setter call of the kind the program makes: a strength in [0, 1] (from the gesture
      estimator) or a readiness of `true`; texture appends are unconstrained. */
  predicate Admissible(e: Event)
  {
    StrengthWriteInRange(e) && ReadyWriteTrue(e)
  }

  /** Running two call sequences one after the other is running their concatenation. */
  lemma {:induction false} RunConcat(s: TreeState, a: seq<Event>, b: seq<Event>)
    ensures Run(s, a + b) == Run(Run(s, a), b)
    decreases |a|
  {
    if a == [] {
      assert a + b == b;
    } else {
      assert (a + b)[1..] == a[1..] + b;
      RunConcat(Apply(s, a[0]), a[1..], b);
    }
  }

  /** Texture lists only grow at the end: the old list is a prefix of the new one, and what
      follows it is exactly the appended textures, in call order. */
  lemma {:induction false} RunTextures(s: TreeState, es: seq<Event>)
    ensures Run(s, es).userTextures == s.userTextures + AddedTextures(es)
    decreases |es|
  {
    if es != [] {
      RunTextures(Apply(s, es[0]), es[1..]);
    }
  }

  /** After N appends the list holds the old textures followed by the N new ones in call
      order, and the strength and readiness are untouched. */
  lemma {:induction false} RunAppends(s: TreeState, ts: seq<Texture>)
    ensures Run(s, Appends(ts)) == s.(userTextures := s.userTextures + ts)
    decreases |ts|
  {
    if ts != [] {
      var es := Appends(ts);
      assert es == [AddTexture(ts[0])] + Appends(ts[1..]);
      assert es[0] == AddTexture(ts[0]) && es[1..] == Appends(ts[1..]);
      var s1 := Apply(s, AddTexture(ts[0]));
      RunAppends(s1, ts[1..]);
      assert s1.userTextures + ts[1..] == s.userTextures + ts;
    }
  }

  /** The store never clamps, yet if every strength written lies in [0, 1] the stored
      strength stays in [0, 1]. */
  lemma {:induction false} RunKeepsStrengthInRange(s: TreeState, es: seq<Event>)
    requires StrengthInRange(s)
    requires forall i :: 0 <= i < |es| ==> StrengthWriteInRange(es[i])
    ensures StrengthInRange(Run(s, es))
    decreases |es|
  {
    if es != [] {
      RunKeepsStrengthInRange(Apply(s, es[0]), es[1..]);
    }
  }

  /** If readiness is only ever set to `true`, it never goes back to `false`. */
  lemma {:induction false} RunKeepsReady(s: TreeState, es: seq<Event>)
    requires s.isVisionReady
    requires forall i :: 0 <= i < |es| ==> ReadyWriteTrue(es[i])
    ensures Run(s, es).isVisionReady
    decreases |es|
  {
    if es != [] {
      RunKeepsReady(Apply(s, es[0]), es[1..]);
    }
  }

  /** Along any run of the program's setter calls from the initial state, the strength is
      always in [0, 1], and once readiness is observed it holds at every later point. */
  lemma ProgramRunInvariants(es: seq<Event>, i: nat, j: nat)
    requires forall k :: 0 <= k < |es| ==> Admissible(es[k])
    requires i <= j <= |es|
    ensures StrengthInRange(Run(Initial(), es[..j]))
    ensures Run(Initial(), es[..i]).isVisionReady ==> Run(Initial(), es[..j]).isVisionReady
  {
    RunKeepsStrengthInRange(Initial(), es[..j]);
    assert es[..j] == es[..i] + es[i..j];
    RunConcat(Initial(), es[..i], es[i..j]);
    if Run(Initial(), es[..i]).isVisionReady {
      RunKeepsReady(Run(Initial(), es[..i]), es[i..j]);
    }
  }

  /** The store object shared by the gesture estimator, the uploader and the renderers. */
  class TreeStore {
    var interactionStrength: real
    var userTextures: seq<Texture>
    var isVisionReady: bool

    /** The store's fields as one value. */
    function State(): TreeState
      reads this
    {
      TreeState(interactionStrength, userTextures, isVisionReady)
    }

    constructor ()
      ensures State() == Initial()
    {
      interactionStrength := 0.0;
      userTextures := [];
      isVisionReady := false;
    }

    /** Overwrites the strength with `val`, whatever it is; the store does not clamp. */
    method SetInteractionStrength(val: real)
      modifies this
      ensures interactionStrength == val
      ensures userTextures == old(userTextures) && isVisionReady == old(isVisionReady)
      ensures State() == Apply(old(State()), SetStrength(val))
    {
      interactionStrength := val;
    }

    /** Replaces the texture list by a copy of it with `texture` on the end. */
    method AddUserTexture(texture: Texture)
      modifies this
      ensures |userTextures| == |old(userTextures)| + 1
      ensures userTextures[..|old(userTextures)|] == old(userTextures)
      ensures userTextures[|userTextures| - 1] == texture
      ensures interactionStrength == old(interactionStrength) && isVisionReady == old(isVisionReady)
      ensures State() == Apply(old(State()), AddTexture(texture))
    {
      userTextures := userTextures + [texture];
    }

    /** Overwrites the readiness flag with `ready`. */
    method SetVisionReady(ready: bool)
      modifies this
      ensures isVisionReady == ready
      ensures interactionStrength == old(interactionStrength) && userTextures == old(userTextures)
      ensures State() == Apply(old(State()), SetReady(ready))
    {
      isVisionReady := ready;
    }
  }
}
