/** Sequences of the events the sphere reacts to (key presses, key releases
    and rendered frames) and what holds after any number of them. */
module Runs {
  import opened Motion

  datatype Event = KeyDown(key: string) | KeyUp(key: string) | Frame(dt: real)

  function Apply(s: PlayerState, e: Event): PlayerState {
    match e
    case KeyDown(k) => OnKeyDown(s, k)
    case KeyUp(k) => OnKeyUp(s, k)
    case Frame(dt) => FrameStep(s, dt)
  }

  function Run(s: PlayerState, es: seq<Event>): PlayerState
    decreases |es|
  {
    if es == [] then s else Run(Apply(s, es[0]), es[1..])
  }

  /** A press of the space bar (after lower-casing). */
  predicate IsJump(e: Event) {
    e.KeyDown? && ToLower(e.key) == JumpKey
  }

  /** Frames only, of the given lengths, with no key event between them. */
  function Frames(dts: seq<real>): (es: seq<Event>)
    ensures |es| == |dts|
    ensures forall i :: 0 <= i < |dts| ==> es[i] == Frame(dts[i])
  {
    if dts == [] then [] else [Frame(dts[0])] + Frames(dts[1..])
  }

  function Total(dts: seq<real>): real {
    if dts == [] then 0.0 else dts[0] + Total(dts[1..])
  }

  lemma {:induction false} RunAppend(s: PlayerState, es: seq<Event>, e: Event)
    ensures Run(s, es + [e]) == Apply(Run(s, es), e)
    decreases |es|
  {
    if es == [] {
      assert es + [e] == [e];
    } else {
      assert (es + [e])[1..] == es[1..] + [e];
      RunAppend(Apply(s, es[0]), es[1..], e);
    }
  }

  /** Both handlers and the frame step keep the invariant, so it holds after
      any sequence of events. */
  lemma {:induction false} RunKeepsInvariant(s: PlayerState, es: seq<Event>)
    requires Inv(s)
    ensures Inv(Run(s, es))
    decreases |es|
  {
    if es != [] {
      RunKeepsInvariant(Apply(s, es[0]), es[1..]);
    }
  }

  /** From scene creation on: the sphere is never below the ground, and a
      grounded sphere rests at ground height with no vertical velocity. */
  lemma ReachableInvariant(es: seq<Event>)
    ensures var r := Run(Initial, es);
      r.y >= GroundY && (r.isGrounded ==> r.y == GroundY && r.velocityY == 0.0) &&
      r.keys.Keys == KeyNames
  {
    RunKeepsInvariant(Initial, es);
  }

  /** After every rendered frame, grounded holds exactly at ground height. */
  lemma SettledAfterFrame(s: PlayerState, es: seq<Event>, dt: real)
    requires Inv(s)
    ensures var r := Run(s, es + [Frame(dt)]); r.isGrounded <==> r.y == GroundY
  {
    RunAppend(s, es, Frame(dt));
    RunKeepsInvariant(s, es);
  }

  /** A sphere at rest stays at rest, at ground height, as long as space is
      not pressed, whatever the other keys and the frame lengths. */
  lemma {:induction false} StaysAtRestWithoutJump(s: PlayerState, es: seq<Event>)
    requires AtRest(s)
    requires forall i :: 0 <= i < |es| ==> !IsJump(es[i])
    ensures AtRest(Run(s, es)) && Run(s, es).y == GroundY
    decreases |es|
  {
    if es != [] {
      assert !IsJump(es[0]);
      StaysAtRestWithoutJump(Apply(s, es[0]), es[1..]);
    }
  }

  /** With the keys unchanged, the sphere's horizontal travel and rolling over
      several frames depend only on their total duration: each axis moves by
      MoveSpeed times that duration times the difference of its two keys'
      indicators, and each rotation by twice as much. */
  lemma {:induction false} DriftUnderHeldKeys(s: PlayerState, dts: seq<real>)
    ensures var r := Run(s, Frames(dts));
      r.keys == s.keys &&
      r.x == s.x + MoveSpeed * Total(dts) * (Ind(Held(s.keys, "a")) - Ind(Held(s.keys, "d"))) &&
      r.z == s.z + MoveSpeed * Total(dts) * (Ind(Held(s.keys, "s")) - Ind(Held(s.keys, "w"))) &&
      r.rotX == s.rotX + 2.0 * MoveSpeed * Total(dts) * (Ind(Held(s.keys, "w")) - Ind(Held(s.keys, "s"))) &&
      r.rotZ == s.rotZ + 2.0 * MoveSpeed * Total(dts) * (Ind(Held(s.keys, "d")) - Ind(Held(s.keys, "a")))
  {
    TravelAddsUp(s, dts);
    var t := MoveSpeed * Total(dts);
    DeltaByIndicators(Held(s.keys, "a"), Held(s.keys, "d"), t);
    DeltaByIndicators(Held(s.keys, "s"), Held(s.keys, "w"), t);
    DeltaByIndicators(Held(s.keys, "w"), Held(s.keys, "s"), t * 2.0);
    DeltaByIndicators(Held(s.keys, "d"), Held(s.keys, "a"), t * 2.0);
  }

  lemma {:induction false} TravelAddsUp(s: PlayerState, dts: seq<real>)
    ensures var r := Run(s, Frames(dts)); var t := MoveSpeed * Total(dts);
      r.keys == s.keys &&
      r.x == s.x + Delta(Held(s.keys, "a"), Held(s.keys, "d"), t) &&
      r.z == s.z + Delta(Held(s.keys, "s"), Held(s.keys, "w"), t) &&
      r.rotX == s.rotX + Delta(Held(s.keys, "w"), Held(s.keys, "s"), t * 2.0) &&
      r.rotZ == s.rotZ + Delta(Held(s.keys, "d"), Held(s.keys, "a"), t * 2.0)
    decreases |dts|
  {
    if dts != [] {
      assert Frames(dts)[1..] == Frames(dts[1..]);
      TravelAddsUp(FrameStep(s, dts[0]), dts[1..]);
    }
  }
}
