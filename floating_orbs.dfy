/**
  The orbital animator component (src/FloatingOrbs.js:98-351): three bodies in
  a fixed-size buffer updated in place every frame, the current mode, the
  start time of the running transition, the snapshot taken when free physics
  stops, the per-orb condense durations, the last viewport size, and the
  shared position feed other components read.
*/
module FloatingOrbs {
  import opened Wrappers
  import opened OrbPhysics
  import opened OrbChoreography

  function Positions(bs: seq<Body>): (ps: seq<Vec>)
    ensures |ps| == |bs|
  {
    seq(|bs|, i requires 0 <= i < |bs| => Position(bs[i]))
  }

  /** The snapshot after the resize check of one frame, when there is one. */
  function ResizedSnapshot(captured: Option<seq<Capture>>, prevW: real, prevH: real, w: real, h: real): Option<seq<Capture>>
  {
    match captured
    case None => None
    case Some(caps) => Some(ResizedCaptures(caps, prevW, prevH, w, h))
  }

  class Animator {
    /** The three bodies; allocated once at start-up, then updated in place. */
    const bodies: array<Body>
    /** The square root the physics uses (see OrbPhysics.IsSqrt). */
    const sqrt: real -> real
    /** Whether a parent supplied a position feed to write to. */
    const publish: bool

    var mode: Mode
    var animStart: real
    var captured: Option<seq<Capture>>
    var perOrbDur: seq<real>
    var prevW: real
    var prevH: real
    /** The live positions the sign-up modal reads, written every frame. */
    var feed: seq<Vec>

    /**
      The component's invariant. Outside free physics a snapshot exists and the
      bodies are frozen on it: nothing moves them but a resize, which moves
      both alike.
    */
    ghost predicate Valid()
      reads this, bodies
    {
      bodies.Length == 3
      && IsSqrt(sqrt)
      && |perOrbDur| == 3
      && (forall i :: 0 <= i < 3 ==> CondenseBase <= perOrbDur[i] <= CondenseBase + CondenseExtra)
      && (captured.Some? ==> |captured.value| == 3)
      && (mode != Physics ==> captured.Some? && BodiesOf(captured.value) == bodies[..])
    }

    function Snapshot(): (caps: seq<Capture>)
      reads this, bodies
      requires Valid()
      ensures |caps| == 3
    {
      if captured.Some? then captured.value else CaptureAll(bodies[..])
    }

    /**
      Mounting: the bodies are seeded for a w x h viewport from seven random
      draws, free physics runs, there is no snapshot, and the viewport size is
      remembered.
    */
    constructor (w: real, h: real, rand: seq<real>, sqrt: real -> real, sin: real -> real, cos: real -> real,
                 publish: bool)
      requires 0.0 < w && 0.0 < h && |rand| == 7
      requires IsSqrt(sqrt) && IsTrig(sin, cos)
      ensures Valid() && fresh(bodies)
      ensures mode == Physics && captured == None && perOrbDur == [CondenseBase, CondenseBase, CondenseBase]
      ensures prevW == w && prevH == h && feed == [] && this.publish == publish && this.sqrt == sqrt
      ensures VelocitySum(bodies[..]) == Zero
      ensures forall i :: 0 <= i < 3 ==> OnCircle(Position(bodies[i]), w / 2.0, h / 2.0, InitRadius(w, h))
    {
      var bs := InitBodies(w, h, rand, sqrt, sin, cos);
      bodies := new Body[3](i requires 0 <= i < 3 reads {} => bs[i]);
      this.sqrt := sqrt;
      this.publish := publish;
      mode := Physics;
      animStart := 0.0;
      captured := None;
      perOrbDur := [CondenseBase, CondenseBase, CondenseBase];
      prevW, prevH := w, h;
      feed := [];
      new;
      assert bodies[..] == bs;
    }

    /**
      The intent effect: runs with the current intents whenever one of them
      changes. Leaving physics takes a snapshot of the bodies (and, for a
      condense, the per-orb durations for the viewport w x h); every mode change
      restarts the transition clock at `now`.
    */
    method OnIntents(condensing: bool, dispersing: bool, now: real, w: real, h: real)
      requires Valid()
      modifies this`mode, this`animStart, this`captured, this`perOrbDur
      ensures Valid()
      ensures mode == IntentMode(old(mode), condensing, dispersing)
      ensures captured == (if TakesSnapshot(old(mode), condensing, dispersing)
                           then Some(CaptureAll(bodies[..])) else old(captured))
      ensures perOrbDur == (if old(mode) == Physics && condensing
                            then CondenseDurations(CaptureAll(bodies[..]), w / 2.0, h / 2.0, sqrt)
                            else old(perOrbDur))
      ensures animStart == (if mode != old(mode) then now else old(animStart))
      ensures prevW == old(prevW) && prevH == old(prevH) && feed == old(feed)
    {
      var m := mode;
      if condensing && m == Physics {
        StartCondense(now, w, h);
      } else if !condensing && (m == Condensed || m == Condensing) {
        animStart := now;
        mode := if dispersing then Dispersing else Expanding;
      }
      if dispersing && m == Physics {
        StartDisperse(now);
      }
      if !dispersing && m == Dispersed {
        animStart := now;
        mode := Reconverging;
      }
    }

    /** Leaving physics to condense: snapshot, per-orb durations, clock, mode. */
    method StartCondense(now: real, w: real, h: real)
      requires Valid() && mode == Physics
      modifies this`mode, this`animStart, this`captured, this`perOrbDur
      ensures Valid()
      ensures captured == Some(CaptureAll(bodies[..]))
      ensures perOrbDur == CondenseDurations(CaptureAll(bodies[..]), w / 2.0, h / 2.0, sqrt)
      ensures animStart == now && mode == Condensing
    {
      var cx, cy := w / 2.0, h / 2.0;
      captured := Some(CaptureAll(bodies[..]));
      perOrbDur := CondenseDurations(captured.value, cx, cy, sqrt);
      animStart := now;
      mode := Condensing;
      assert BodiesOf(captured.value) == bodies[..];
    }

    /** Leaving physics to disperse: snapshot, clock, mode. */
    method StartDisperse(now: real)
      requires Valid()
      modifies this`mode, this`animStart, this`captured
      ensures Valid()
      ensures captured == Some(CaptureAll(bodies[..]))
      ensures animStart == now && mode == Dispersing
    {
      captured := Some(CaptureAll(bodies[..]));
      animStart := now;
      mode := Dispersing;
      assert BodiesOf(captured.value) == bodies[..];
    }

    /**
      One animation frame at time `now` in a w x h viewport: the resize check,
      the position feed (from the bodies before this frame's step), then the
      work of the current mode. The styles returned are what the frame draws.
    */
    method Step(now: real, w: real, h: real) returns (styles: seq<OrbStyle>)
      requires Valid()
      modifies this, bodies
      ensures Valid()
      ensures prevW == w && prevH == h
      ensures captured == ResizedSnapshot(old(captured), old(prevW), old(prevH), w, h)
      ensures feed == (if publish then Positions(ResizedBodies(old(bodies[..]), old(prevW), old(prevH), w, h))
                       else old(feed))
      ensures old(mode) == Physics ==>
        bodies[..] == PhysicsStep(ResizedBodies(old(bodies[..]), old(prevW), old(prevH), w, h), w, h, sqrt)
      ensures old(mode) != Physics ==>
        bodies[..] == ResizedBodies(old(bodies[..]), old(prevW), old(prevH), w, h)
      ensures mode == FrameMode(old(mode), now - animStart, perOrbDur)
      ensures animStart == old(animStart) && perOrbDur == old(perOrbDur)
      ensures styles == FrameStyles(old(mode), bodies[..], Snapshot(), w, h, now - animStart, perOrbDur)
    {
      Resize(w, h);
      if publish {
        feed := Positions(bodies[..]);
      }
      var cx, cy := w / 2.0, h / 2.0;
      var elapsed := now - animStart;
      match mode
      case Physics =>
        styles := PhysicsFrame(w, h);
      case Condensing =>
        styles := CondenseFrame(elapsed, cx, cy);
      case Condensed =>
        styles := CondenseFrame(elapsed, cx, cy);
      case Expanding =>
        styles := ExpandFrame(elapsed, cx, cy);
      case Dispersing =>
        styles := DisperseFrame(elapsed, cx, cy);
      case Dispersed =>
        styles := [Hidden, Hidden, Hidden];
      case Reconverging =>
        styles := ReconvergeFrame(elapsed, cx, cy);
    }

    /**
      The resize check: on a size change from a previous size with no zero
      dimension, bodies and snapshot are remapped about the viewport centre;
      either way the new size is remembered.
    */
    method Resize(w: real, h: real)
      requires Valid()
      modifies this`captured, this`prevW, this`prevH, bodies
      ensures Valid()
      ensures prevW == w && prevH == h
      ensures bodies[..] == ResizedBodies(old(bodies[..]), old(prevW), old(prevH), w, h)
      ensures captured == ResizedSnapshot(old(captured), old(prevW), old(prevH), w, h)
    {
      var pw, ph := prevW, prevH;
      if RemapsOnResize(pw, ph, w, h) {
        ghost var start := bodies[..];
        for i := 0 to 3
          modifies bodies
          invariant forall k :: 0 <= k < i ==> bodies[k] == RemapBody(start[k], pw, ph, w, h)
          invariant forall k :: i <= k < 3 ==> bodies[k] == start[k]
        {
          bodies[i] := bodies[i].(x := RemapCoord(bodies[i].x, pw, w), y := RemapCoord(bodies[i].y, ph, h));
        }
        assert bodies[..] == ResizedBodies(start, pw, ph, w, h);
        if captured.Some? {
          var caps := captured.value;
          for i := 0 to 3
            invariant |caps| == 3
            invariant forall k :: 0 <= k < i ==> caps[k] == RemapCapture(captured.value[k], pw, ph, w, h)
            invariant forall k :: i <= k < 3 ==> caps[k] == captured.value[k]
          {
            caps := caps[i := caps[i].(x := RemapCoord(caps[i].x, pw, w), y := RemapCoord(caps[i].y, ph, h))];
          }
          assert caps == ResizedCaptures(captured.value, pw, ph, w, h);
          ResizeKeepsSnapshotInStep(captured.value, pw, ph, w, h);
          captured := Some(caps);
        }
        prevW, prevH := w, h;
      } else if w != pw || h != ph {
        prevW, prevH := w, h;
      }
    }

    /** Free physics: kick, drift, recompute, settle; the orbs follow the bodies. */
    method PhysicsFrame(w: real, h: real) returns (styles: seq<OrbStyle>)
      requires Valid() && mode == Physics
      modifies bodies
      ensures Valid()
      ensures bodies[..] == PhysicsStep(old(bodies[..]), w, h, sqrt)
      ensures styles == FrameStyles(Physics, bodies[..], Snapshot(), w, h, 0.0, perOrbDur)
    {
      var acc := ComputeAccelerations(bodies[..], w, h, sqrt);
      KickAll(acc);
      DriftAll();
      var acc2 := ComputeAccelerations(bodies[..], w, h, sqrt);
      SettleAll(acc2);
      styles := [];
      for i := 0 to 3
        invariant |styles| == i
        invariant forall k :: 0 <= k < i ==> styles[k] == PhysicsStyle(bodies[k])
      {
        styles := styles + [PhysicsStyle(bodies[i])];
      }
    }

    /** The first half-kick of a physics frame, body by body. */
    method KickAll(acc: seq<Vec>)
      requires bodies.Length == 3 && |acc| == 3
      modifies bodies
      ensures bodies[..] == HalfKick(old(bodies[..]), acc)
    {
      ghost var start := bodies[..];
      for i := 0 to 3
        invariant forall k :: 0 <= k < i ==> bodies[k] == HalfKick(start, acc)[k]
        invariant forall k :: i <= k < 3 ==> bodies[k] == start[k]
      {
        bodies[i] := bodies[i].(vx := bodies[i].vx + acc[i].x * DT * 0.5, vy := bodies[i].vy + acc[i].y * DT * 0.5);
      }
      assert bodies[..] == HalfKick(start, acc);
    }

    /** The drift of a physics frame, body by body. */
    method DriftAll()
      requires bodies.Length == 3
      modifies bodies
      ensures bodies[..] == Drift(old(bodies[..]))
    {
      ghost var start := bodies[..];
      for i := 0 to 3
        invariant forall k :: 0 <= k < i ==> bodies[k] == Drift(start)[k]
        invariant forall k :: i <= k < 3 ==> bodies[k] == start[k]
      {
        bodies[i] := bodies[i].(x := bodies[i].x + bodies[i].vx * DT, y := bodies[i].y + bodies[i].vy * DT);
      }
      assert bodies[..] == Drift(start);
    }

    /** The second half-kick, damping and speed cap of a physics frame, body by body. */
    method SettleAll(acc: seq<Vec>)
      requires bodies.Length == 3 && |acc| == 3 && IsSqrt(sqrt)
      modifies bodies
      ensures forall k :: 0 <= k < 3 ==> bodies[k] == Settle(old(bodies[k]), acc[k], sqrt)
    {
      ghost var start := bodies[..];
      for i := 0 to 3
        invariant forall k :: 0 <= k < i ==> bodies[k] == Settle(start[k], acc[k], sqrt)
        invariant forall k :: i <= k < 3 ==> bodies[k] == start[k]
      {
        var vx := bodies[i].vx + acc[i].x * DT * 0.5;
        var vy := bodies[i].vy + acc[i].y * DT * 0.5;
        vx, vy := vx * Damping, vy * Damping;
        var v := ClampSpeed(Vec(vx, vy), sqrt);
        bodies[i] := bodies[i].(vx := v.x, vy := v.y);
      }
    }

    /**
      Condensing (or holding condensed): each orb moves towards the centre on
      its own duration; when every orb has arrived, condensing becomes condensed.
    */
    method CondenseFrame(elapsed: real, cx: real, cy: real) returns (styles: seq<OrbStyle>)
      requires Valid() && (mode == Condensing || mode == Condensed)
      modifies this`mode
      ensures Valid()
      ensures mode == FrameMode(old(mode), elapsed, perOrbDur)
      ensures styles == FrameStyles(old(mode), bodies[..], Snapshot(), 2.0 * cx, 2.0 * cy, elapsed, perOrbDur)
    {
      var caps := captured.value;
      var allDone := true;
      styles := [];
      for i := 0 to 3
        invariant |styles| == i
        invariant forall k :: 0 <= k < i ==>
          styles[k] == FrameStyles(mode, bodies[..], caps, 2.0 * cx, 2.0 * cy, elapsed, perOrbDur)[k]
        invariant mode == Condensing ==>
          (allDone <==> forall k :: 0 <= k < i ==> RawT(elapsed, perOrbDur[k]) >= 1.0)
      {
        var rawT := if mode == Condensed then 1.0 else RawT(elapsed, perOrbDur[i]);
        if rawT < 1.0 {
          allDone := false;
        }
        var t := EaseOutCubic(rawT);
        styles := styles + [CondenseStyle(caps[i], cx, cy, t)];
      }
      if allDone && mode == Condensing {
        mode := Condensed;
      }
    }

    /**
      Expanding: the orbs return from the centre to the snapshot; when the
      transition ends the bodies are restored from the snapshot (which, the
      bodies being frozen, they already equal) and free physics resumes.
    */
    method ExpandFrame(elapsed: real, cx: real, cy: real) returns (styles: seq<OrbStyle>)
      requires Valid() && mode == Expanding
      modifies this`mode, bodies
      ensures Valid()
      ensures mode == FrameMode(Expanding, elapsed, perOrbDur)
      ensures bodies[..] == BodiesOf(captured.value) == old(bodies[..])
      ensures styles == FrameStyles(Expanding, bodies[..], Snapshot(), 2.0 * cx, 2.0 * cy, elapsed, perOrbDur)
    {
      var caps := captured.value;
      var rawT := RawT(elapsed, ExpandDuration);
      var t := EaseOutCubic(rawT);
      styles := [];
      for i := 0 to 3
        invariant |styles| == i
        invariant forall k :: 0 <= k < i ==> styles[k] == ExpandStyle(caps[k], cx, cy, t)
      {
        styles := styles + [ExpandStyle(caps[i], cx, cy, t)];
      }
      if rawT >= 1.0 {
        RestoreFromSnapshot();
        mode := Physics;
      }
    }

    /** Dispersing: the orbs fly out past the snapshot; at the end the mode is dispersed. */
    method DisperseFrame(elapsed: real, cx: real, cy: real) returns (styles: seq<OrbStyle>)
      requires Valid() && mode == Dispersing
      modifies this`mode
      ensures Valid()
      ensures mode == FrameMode(Dispersing, elapsed, perOrbDur)
      ensures styles == FrameStyles(Dispersing, bodies[..], Snapshot(), 2.0 * cx, 2.0 * cy, elapsed, perOrbDur)
    {
      var caps := captured.value;
      var rawT := RawT(elapsed, DisperseDuration);
      var t := EaseOutCubic(rawT);
      styles := [];
      for i := 0 to 3
        invariant |styles| == i
        invariant forall k :: 0 <= k < i ==> styles[k] == DisperseStyle(caps[k], cx, cy, t)
      {
        styles := styles + [DisperseStyle(caps[i], cx, cy, t)];
      }
      if rawT >= 1.0 {
        mode := Dispersed;
      }
    }

    /**
      Reconverging: the orbs return from the overshoot point to the snapshot;
      at the end the bodies are restored and free physics resumes.
    */
    method ReconvergeFrame(elapsed: real, cx: real, cy: real) returns (styles: seq<OrbStyle>)
      requires Valid() && mode == Reconverging
      modifies this`mode, bodies
      ensures Valid()
      ensures mode == FrameMode(Reconverging, elapsed, perOrbDur)
      ensures bodies[..] == BodiesOf(captured.value) == old(bodies[..])
      ensures styles == FrameStyles(Reconverging, bodies[..], Snapshot(), 2.0 * cx, 2.0 * cy, elapsed, perOrbDur)
    {
      var caps := captured.value;
      var rawT := RawT(elapsed, ReconvergeDuration);
      var t := EaseOutCubic(rawT);
      styles := [];
      for i := 0 to 3
        invariant |styles| == i
        invariant forall k :: 0 <= k < i ==> styles[k] == ReconvergeStyle(caps[k], cx, cy, t)
      {
        styles := styles + [ReconvergeStyle(caps[i], cx, cy, t)];
      }
      if rawT >= 1.0 {
        RestoreFromSnapshot();
        mode := Physics;
      }
    }

    /** Copies position and velocity of every snapshot entry back into its body. */
    method RestoreFromSnapshot()
      requires Valid() && captured.Some?
      modifies bodies
      ensures bodies[..] == BodiesOf(captured.value)
      ensures Valid()
    {
      var caps := captured.value;
      ghost var start := bodies[..];
      for i := 0 to 3
        invariant forall k :: 0 <= k < i ==> bodies[k] == BodyOf(caps[k])
        invariant forall k :: i <= k < 3 ==> bodies[k] == start[k]
      {
        bodies[i] := Body(caps[i].x, caps[i].y, caps[i].vx, caps[i].vy);
      }
      assert bodies[..] == BodiesOf(caps);
    }
  }
}
