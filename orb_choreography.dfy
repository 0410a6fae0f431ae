/**
  The mode controller of the orbital background (src/FloatingOrbs.js): the
  seven animation modes, how the two intents move between them, the per-frame
  timed transitions, the eased interpolation that places each orb during a
  scripted transition, and the proportional remapping applied on resize.
  Everything here is a pure function of its arguments; the Animator class in
  FloatingOrbs holds the state.
*/
module OrbChoreography {
  import opened OrbPhysics

  const CondenseBase: real := 400.0
  const CondenseExtra: real := 300.0
  const ExpandDuration: real := 500.0
  const DisperseDuration: real := 700.0
  const ReconvergeDuration: real := 600.0
  const MinScale: real := 0.08
  const Overshoot: real := 1.8
  const DispersedScale: real := 1.3
  /** Display diameters of the three orbs, by index. */
  const OrbSizes: seq<real> := [384.0, 320.0, 288.0]

  datatype Mode = Physics | Condensing | Condensed | Expanding | Dispersing | Dispersed | Reconverging

  /** One entry of the snapshot taken when free physics stops. */
  datatype Capture = Capture(x: real, y: real, vx: real, vy: real, size: real)

  /**
    What a frame writes to one orb: a centre position, a scale and an opacity,
    or (in the dispersed mode) only an opacity of zero, leaving the last
    transform in place.
  */
  datatype OrbStyle = Placed(x: real, y: real, scale: real, opacity: real) | Hidden

  function BodyOf(c: Capture): Body { Body(c.x, c.y, c.vx, c.vy) }

  function CaptureAll(bs: seq<Body>): (caps: seq<Capture>)
    requires |bs| == |OrbSizes|
    ensures |caps| == |bs|
    ensures forall i :: 0 <= i < |bs| ==> BodyOf(caps[i]) == bs[i] && caps[i].size == OrbSizes[i]
  {
    seq(|bs|, i requires 0 <= i < |bs| => Capture(bs[i].x, bs[i].y, bs[i].vx, bs[i].vy, OrbSizes[i]))
  }

  function BodiesOf(caps: seq<Capture>): (bs: seq<Body>)
    ensures |bs| == |caps|
  {
    seq(|caps|, i requires 0 <= i < |caps| => BodyOf(caps[i]))
  }

  function MaxReal(a: real, b: real): real { if a > b then a else b }

  // ---------------------------------------------------------------------------
  // Easing and progress (src/FloatingOrbs.js:27-29 and the rawT lines)
  // ---------------------------------------------------------------------------

  /** 1 - (1 - t)^3 */
  function EaseOutCubic(t: real): real {
    var u := 1.0 - t;
    1.0 - u * u * u
  }

  lemma CubeMonotone(a: real, b: real)
    requires 0.0 <= b <= a
    ensures b * b * b <= a * a * a
  {
    var bb, ab, aa := b * b, a * b, a * a;
    assert bb <= ab <= aa;
    var bbb, aab, aaa := bb * b, aa * b, aa * a;
    assert bbb <= aab;
    assert aab <= aaa;
  }

  /** The curve starts at 0, ends at 1 and never decreases on [0, 1]. */
  lemma EaseOutCubicMonotone(s: real, t: real)
    requires 0.0 <= s <= t <= 1.0
    ensures EaseOutCubic(0.0) == 0.0 && EaseOutCubic(1.0) == 1.0
    ensures 0.0 <= EaseOutCubic(s) <= EaseOutCubic(t) <= 1.0
  {
    CubeMonotone(1.0 - s, 1.0 - t);
    CubeMonotone(1.0, 1.0 - s);
    CubeMonotone(1.0 - t, 0.0);
  }

  /** `Math.min(elapsed / dur, 1)`: the progress of a transition of length `dur`. */
  function RawT(elapsed: real, dur: real): (r: real)
    requires 0.0 < dur
    ensures r <= 1.0
    ensures 0.0 <= elapsed ==> 0.0 <= r
    ensures r == 1.0 <==> dur <= elapsed
  {
    if elapsed / dur < 1.0 then elapsed / dur else 1.0
  }

  // ---------------------------------------------------------------------------
  // Per-mode placement (src/FloatingOrbs.js:222-223, 240-244, 259-264, 289-295, 320-328)
  // ---------------------------------------------------------------------------

  function PhysicsStyle(b: Body): OrbStyle {
    Placed(b.x, b.y, 1.0, 1.0)
  }

  /** Towards the centre, shrinking, fading out over the first 85% of the curve. */
  function CondenseStyle(c: Capture, cx: real, cy: real, t: real): OrbStyle {
    Placed(c.x + (cx - c.x) * t, c.y + (cy - c.y) * t,
           1.0 - t * (1.0 - MinScale), MaxReal(0.0, 1.0 - t / 0.85))
  }

  /** From the centre back to the snapshot, growing, fading in over the first 40%. */
  function ExpandStyle(c: Capture, cx: real, cy: real, t: real): OrbStyle {
    Placed(cx + (c.x - cx) * t, cy + (c.y - cy) * t,
           MinScale + t * (1.0 - MinScale), MinReal(1.0, t / 0.4))
  }

  /** Out from the centre past the snapshot by the overshoot factor, flashing to half opacity. */
  function DisperseStyle(c: Capture, cx: real, cy: real, t: real): OrbStyle {
    var dx, dy := c.x - cx, c.y - cy;
    Placed(cx + dx * Overshoot * t, cy + dy * Overshoot * t,
           MinScale + (DispersedScale - MinScale) * t,
           if t < 0.2 then (t / 0.2) * 0.5 else 0.5 * MaxReal(0.0, 1.0 - (t - 0.2) / 0.8))
  }

  /** From the overshoot point back to the snapshot, fading in linearly. */
  function ReconvergeStyle(c: Capture, cx: real, cy: real, t: real): OrbStyle {
    var dx, dy := c.x - cx, c.y - cy;
    var startX, startY := cx + dx * Overshoot, cy + dy * Overshoot;
    Placed(startX + (c.x - startX) * t, startY + (c.y - startY) * t,
           DispersedScale + (1.0 - DispersedScale) * t, t)
  }

  /** At the end of condensing an orb sits on the centre at minimum scale, invisible. */
  lemma CondenseEndsAtCentre(c: Capture, cx: real, cy: real)
    ensures CondenseStyle(c, cx, cy, EaseOutCubic(1.0)) == Placed(cx, cy, MinScale, 0.0)
  {
  }

  /** Expanding starts exactly where condensing ended and ends on the snapshot at full size. */
  lemma ExpandJoinsCondenseAndPhysics(c: Capture, cx: real, cy: real)
    ensures ExpandStyle(c, cx, cy, EaseOutCubic(0.0)) == CondenseStyle(c, cx, cy, EaseOutCubic(1.0))
    ensures ExpandStyle(c, cx, cy, EaseOutCubic(1.0)) == PhysicsStyle(BodyOf(c))
  {
  }

  /**
    The dispersing end point c + 1.8 (cap - c) is the reconverging start point,
    with the same scale and opacity; reconverging ends on the snapshot.
  */
  lemma ReconvergeJoinsDisperseAndPhysics(c: Capture, cx: real, cy: real)
    ensures ReconvergeStyle(c, cx, cy, EaseOutCubic(0.0)) == DisperseStyle(c, cx, cy, EaseOutCubic(1.0))
    ensures ReconvergeStyle(c, cx, cy, EaseOutCubic(1.0)) == PhysicsStyle(BodyOf(c))
  {
  }

  /** Dispersing starts from the centre, invisible and at minimum scale. */
  lemma DisperseStartsAtCentre(c: Capture, cx: real, cy: real)
    ensures DisperseStyle(c, cx, cy, EaseOutCubic(0.0)) == Placed(cx, cy, MinScale, 0.0)
  {
  }

  /**
    For progress on the eased curve every opacity lies in [0, 1] and every
    scale is positive. Dispersing flashes up to half opacity, reached at 0.2.
  */
  lemma StylesWellFormed(c: Capture, cx: real, cy: real, t: real)
    requires 0.0 <= t <= 1.0
    ensures var s := CondenseStyle(c, cx, cy, t); 0.0 <= s.opacity <= 1.0 && MinScale <= s.scale <= 1.0
    ensures var s := ExpandStyle(c, cx, cy, t); 0.0 <= s.opacity <= 1.0 && MinScale <= s.scale <= 1.0
    ensures var s := DisperseStyle(c, cx, cy, t); 0.0 <= s.opacity <= 0.5 && MinScale <= s.scale <= DispersedScale
    ensures DisperseStyle(c, cx, cy, 0.2).opacity == 0.5
    ensures var s := ReconvergeStyle(c, cx, cy, t); 0.0 <= s.opacity <= 1.0 && 1.0 <= s.scale <= DispersedScale
  {
  }

  // ---------------------------------------------------------------------------
  // Intents (src/FloatingOrbs.js:124-161)
  // ---------------------------------------------------------------------------

  /**
    The mode after the intent effect runs. The effect reads the mode once and
    applies four independent tests in order, so a later test overwrites what an
    earlier one set: from physics with both intents raised the result is
    dispersing.
  */
  function IntentMode(mode: Mode, condensing: bool, dispersing: bool): (next: Mode)
    ensures mode == Physics && dispersing ==> next == Dispersing
    ensures mode == Physics && condensing && !dispersing ==> next == Condensing
    ensures (mode == Condensing || mode == Condensed) && !condensing ==>
      next == (if dispersing then Dispersing else Expanding)
    ensures mode == Dispersed && !dispersing ==> next == Reconverging
    ensures (!(mode == Physics && (condensing || dispersing))
             && !((mode == Condensing || mode == Condensed) && !condensing)
             && !(mode == Dispersed && !dispersing)) ==> next == mode
  {
    var afterCondense :=
      if condensing && mode == Physics then Condensing
      else if !condensing && (mode == Condensed || mode == Condensing) then
        (if dispersing then Dispersing else Expanding)
      else mode;
    var afterDisperse := if dispersing && mode == Physics then Dispersing else afterCondense;
    if !dispersing && mode == Dispersed then Reconverging else afterDisperse
  }

  /** Whether the intent effect takes a new snapshot of the bodies. */
  predicate TakesSnapshot(mode: Mode, condensing: bool, dispersing: bool) {
    mode == Physics && (condensing || dispersing)
  }

  /** Repeating the same intents is a no-op: the effect is idempotent. */
  lemma {:induction false} IntentModeIdempotent(mode: Mode, condensing: bool, dispersing: bool)
    ensures IntentMode(IntentMode(mode, condensing, dispersing), condensing, dispersing)
         == IntentMode(mode, condensing, dispersing)
  {
  }

  /** The effect takes a snapshot exactly when it leaves physics. */
  lemma SnapshotExactlyWhenLeavingPhysics(mode: Mode, condensing: bool, dispersing: bool)
    ensures TakesSnapshot(mode, condensing, dispersing)
        <==> (mode == Physics && IntentMode(mode, condensing, dispersing) != Physics)
  {
  }

  /**
    An intent raised or dropped while expanding, dispersing or reconverging is
    not acted on: the transition runs to its end, and since the effect only
    runs again when an intent changes, the new intent stays unserved until then.
  */
  lemma IntentsIgnoredMidTransition(mode: Mode, condensing: bool, dispersing: bool)
    requires mode == Expanding || mode == Dispersing || mode == Reconverging
    ensures IntentMode(mode, condensing, dispersing) == mode
    ensures !TakesSnapshot(mode, condensing, dispersing)
  {
  }

  // ---------------------------------------------------------------------------
  // Condense durations (src/FloatingOrbs.js:134-140)
  // ---------------------------------------------------------------------------

  function SquaredDistance(c: Capture, cx: real, cy: real): (d: real)
    ensures 0.0 <= d
  {
    var xx, yy := (c.x - cx) * (c.x - cx), (c.y - cy) * (c.y - cy);
    assert 0.0 <= xx && 0.0 <= yy;
    xx + yy
  }

  function Distance(c: Capture, cx: real, cy: real, sqrt: real -> real): (d: real)
    requires IsSqrt(sqrt)
    ensures 0.0 <= d && d * d == SquaredDistance(c, cx, cy)
  {
    sqrt(SquaredDistance(c, cx, cy))
  }

  function Distances(caps: seq<Capture>, cx: real, cy: real, sqrt: real -> real): (ds: seq<real>)
    requires IsSqrt(sqrt)
    ensures |ds| == |caps|
    ensures forall i :: 0 <= i < |ds| ==> 0.0 <= ds[i]
  {
    seq(|caps|, i requires 0 <= i < |caps| => Distance(caps[i], cx, cy, sqrt))
  }

  /** `Math.max(...ds, 1)`: the largest distance, but never below 1. */
  function MaxWithFloor(ds: seq<real>): (m: real)
    ensures 1.0 <= m
    ensures forall i :: 0 <= i < |ds| ==> ds[i] <= m
    ensures m == 1.0 || exists i :: 0 <= i < |ds| && ds[i] == m
  {
    if |ds| == 0 then 1.0
    else
      var rest := MaxWithFloor(ds[..|ds| - 1]);
      if ds[|ds| - 1] > rest then ds[|ds| - 1] else rest
  }

  /**
    Each orb's condense duration: the base plus the extra scaled by its
    distance from the centre relative to the farthest orb. Every duration lies
    in [400, 700].
  */
  function CondenseDurations(caps: seq<Capture>, cx: real, cy: real, sqrt: real -> real): (durs: seq<real>)
    requires IsSqrt(sqrt)
    ensures |durs| == |caps|
    ensures forall i :: 0 <= i < |durs| ==> CondenseBase <= durs[i] <= CondenseBase + CondenseExtra
  {
    var ds := Distances(caps, cx, cy, sqrt);
    var m := MaxWithFloor(ds);
    seq(|ds|, i requires 0 <= i < |ds| => ScaledDuration(ds[i], m))
  }

  /** The duration for an orb at distance `d` when the farthest is at `m`. */
  function ScaledDuration(d: real, m: real): (r: real)
    requires 0.0 <= d <= m && 1.0 <= m
    ensures CondenseBase <= r <= CondenseBase + CondenseExtra
  {
    DivideMonotone(0.0, d, m);
    DivideMonotone(d, m, m);
    CondenseBase + (d / m) * CondenseExtra
  }

  lemma DivideMonotone(a: real, b: real, m: real)
    requires a <= b && 0.0 < m
    ensures a / m <= b / m
  {
  }

  /** An orb farther from the centre never gets a shorter condense duration. */
  lemma CondenseFartherIsSlower(caps: seq<Capture>, cx: real, cy: real, sqrt: real -> real, i: nat, j: nat)
    requires IsSqrt(sqrt) && i < |caps| && j < |caps|
    requires SquaredDistance(caps[i], cx, cy) <= SquaredDistance(caps[j], cx, cy)
    ensures CondenseDurations(caps, cx, cy, sqrt)[i] <= CondenseDurations(caps, cx, cy, sqrt)[j]
  {
    var ds := Distances(caps, cx, cy, sqrt);
    var m := MaxWithFloor(ds);
    SqrtMonotone(sqrt, SquaredDistance(caps[i], cx, cy), SquaredDistance(caps[j], cx, cy));
    DivideMonotone(ds[i], ds[j], m);
    assert CondenseDurations(caps, cx, cy, sqrt)[i] == ScaledDuration(ds[i], m);
    assert CondenseDurations(caps, cx, cy, sqrt)[j] == ScaledDuration(ds[j], m);
  }

  // ---------------------------------------------------------------------------
  // Timed transitions (src/FloatingOrbs.js:233-251, 271-278, 302, 304-309, 335-342)
  // ---------------------------------------------------------------------------

  ghost predicate PositiveDurations(durs: seq<real>) {
    forall i :: 0 <= i < |durs| ==> 0.0 < durs[i]
  }

  /** Every orb's progress has reached 1. */
  predicate AllDone(elapsed: real, durs: seq<real>)
    requires PositiveDurations(durs)
  {
    forall i :: 0 <= i < |durs| ==> RawT(elapsed, durs[i]) >= 1.0
  }

  /** The mode after one frame, given the time since the transition began. */
  function FrameMode(mode: Mode, elapsed: real, durs: seq<real>): Mode
    requires PositiveDurations(durs)
  {
    match mode
    case Condensing => if AllDone(elapsed, durs) then Condensed else Condensing
    case Expanding => if RawT(elapsed, ExpandDuration) >= 1.0 then Physics else Expanding
    case Dispersing => if RawT(elapsed, DisperseDuration) >= 1.0 then Dispersed else Dispersing
    case Reconverging => if RawT(elapsed, ReconvergeDuration) >= 1.0 then Physics else Reconverging
    case _ => mode
  }

  /** Condensing becomes condensed exactly when every orb's own duration has elapsed. */
  lemma CondensedExactlyWhenAllElapsed(elapsed: real, durs: seq<real>)
    requires PositiveDurations(durs)
    ensures FrameMode(Condensing, elapsed, durs) == Condensed
        <==> forall i :: 0 <= i < |durs| ==> durs[i] <= elapsed
  {
  }

  /** The fixed-length transitions end exactly when their duration has elapsed. */
  lemma TimedTransitionsEndOnTime(elapsed: real, durs: seq<real>)
    requires PositiveDurations(durs)
    ensures FrameMode(Expanding, elapsed, durs) == Physics <==> ExpandDuration <= elapsed
    ensures FrameMode(Dispersing, elapsed, durs) == Dispersed <==> DisperseDuration <= elapsed
    ensures FrameMode(Reconverging, elapsed, durs) == Physics <==> ReconvergeDuration <= elapsed
  {
  }

  /** Physics, condensed and dispersed never change mode on their own. */
  lemma RestingModesStay(elapsed: real, durs: seq<real>)
    requires PositiveDurations(durs)
    ensures FrameMode(Physics, elapsed, durs) == Physics
    ensures FrameMode(Condensed, elapsed, durs) == Condensed
    ensures FrameMode(Dispersed, elapsed, durs) == Dispersed
  {
  }

  /** Holding the condense intent for 700 ms always completes the condense. */
  lemma CondenseCompletesWithin(elapsed: real, durs: seq<real>)
    requires forall i :: 0 <= i < |durs| ==> CondenseBase <= durs[i] <= CondenseBase + CondenseExtra
    requires CondenseBase + CondenseExtra <= elapsed
    ensures PositiveDurations(durs)
    ensures FrameMode(Condensing, elapsed, durs) == Condensed
  {
    CondensedExactlyWhenAllElapsed(elapsed, durs);
  }

  /** The modes the page shell can reach: it never raises the disperse intent. */
  predicate ShellMode(mode: Mode) {
    mode == Physics || mode == Condensing || mode == Condensed || mode == Expanding
  }

  /**
    With the disperse intent always false, neither the intent effect nor a
    frame ever leaves the shell's modes: dispersal is unreachable from the app.
  */
  lemma ShellNeverDisperses(mode: Mode, condensing: bool, elapsed: real, durs: seq<real>)
    requires ShellMode(mode) && PositiveDurations(durs)
    ensures ShellMode(IntentMode(mode, condensing, false))
    ensures ShellMode(FrameMode(mode, elapsed, durs))
  {
  }

  // ---------------------------------------------------------------------------
  // What one frame draws (src/FloatingOrbs.js:218-225, 234-250, 257-270, 282-301, 306-309, 313-334)
  // ---------------------------------------------------------------------------

  /**
    The styles one frame writes to the three orbs. In physics they follow the
    bodies as they stand after the step; in every other mode they are placed
    from the snapshot around the viewport centre (w/2, h/2) at the eased
    progress of the mode's transition.
  */
  function FrameStyles(mode: Mode, bs: seq<Body>, caps: seq<Capture>, w: real, h: real,
                       elapsed: real, durs: seq<real>): (styles: seq<OrbStyle>)
    requires |bs| == 3 && |caps| == 3 && |durs| == 3 && PositiveDurations(durs)
    ensures |styles| == 3
  {
    var cx, cy := w / 2.0, h / 2.0;
    match mode
    case Physics => seq(3, i requires 0 <= i < 3 => PhysicsStyle(bs[i]))
    case Condensing =>
      seq(3, i requires 0 <= i < 3 => CondenseStyle(caps[i], cx, cy, EaseOutCubic(RawT(elapsed, durs[i]))))
    case Condensed => seq(3, i requires 0 <= i < 3 => CondenseStyle(caps[i], cx, cy, EaseOutCubic(1.0)))
    case Expanding =>
      var t := EaseOutCubic(RawT(elapsed, ExpandDuration));
      seq(3, i requires 0 <= i < 3 => ExpandStyle(caps[i], cx, cy, t))
    case Dispersing =>
      var t := EaseOutCubic(RawT(elapsed, DisperseDuration));
      seq(3, i requires 0 <= i < 3 => DisperseStyle(caps[i], cx, cy, t))
    case Dispersed => seq(3, i requires 0 <= i < 3 => Hidden)
    case Reconverging =>
      var t := EaseOutCubic(RawT(elapsed, ReconvergeDuration));
      seq(3, i requires 0 <= i < 3 => ReconvergeStyle(caps[i], cx, cy, t))
  }

  /** Eased progress of a transition that has started lies in [0, 1]. */
  lemma EasedProgressInUnit(elapsed: real, dur: real)
    requires 0.0 <= elapsed && 0.0 < dur
    ensures 0.0 <= EaseOutCubic(RawT(elapsed, dur)) <= 1.0
  {
    EaseOutCubicMonotone(RawT(elapsed, dur), 1.0);
  }

  /**
    Once a transition has started, every orb a frame places is drawn with an
    opacity in [0, 1] and a positive scale of at least the minimum.
  */
  lemma FrameStylesWellFormed(mode: Mode, bs: seq<Body>, caps: seq<Capture>, w: real, h: real,
                              elapsed: real, durs: seq<real>, i: nat)
    requires |bs| == 3 && |caps| == 3 && |durs| == 3 && PositiveDurations(durs)
    requires 0.0 <= elapsed && i < 3
    ensures var s := FrameStyles(mode, bs, caps, w, h, elapsed, durs)[i];
      s.Placed? ==> 0.0 <= s.opacity <= 1.0 && MinScale <= s.scale
  {
    var cx, cy := w / 2.0, h / 2.0;
    match mode
    case Physics =>
    case Condensing =>
      EasedProgressInUnit(elapsed, durs[i]);
      StylesWellFormed(caps[i], cx, cy, EaseOutCubic(RawT(elapsed, durs[i])));
    case Condensed => StylesWellFormed(caps[i], cx, cy, EaseOutCubic(1.0));
    case Expanding =>
      EasedProgressInUnit(elapsed, ExpandDuration);
      StylesWellFormed(caps[i], cx, cy, EaseOutCubic(RawT(elapsed, ExpandDuration)));
    case Dispersing =>
      EasedProgressInUnit(elapsed, DisperseDuration);
      StylesWellFormed(caps[i], cx, cy, EaseOutCubic(RawT(elapsed, DisperseDuration)));
    case Dispersed =>
    case Reconverging =>
      EasedProgressInUnit(elapsed, ReconvergeDuration);
      StylesWellFormed(caps[i], cx, cy, EaseOutCubic(RawT(elapsed, ReconvergeDuration)));
  }

  /** While condensed, and on the frame a condense completes, every orb sits invisible on the centre. */
  lemma CondensedOrbsHiddenAtCentre(bs: seq<Body>, caps: seq<Capture>, w: real, h: real,
                                    elapsed: real, durs: seq<real>, i: nat)
    requires |bs| == 3 && |caps| == 3 && |durs| == 3 && PositiveDurations(durs) && i < 3
    ensures FrameStyles(Condensed, bs, caps, w, h, elapsed, durs)[i] == Placed(w / 2.0, h / 2.0, MinScale, 0.0)
    ensures FrameMode(Condensing, elapsed, durs) == Condensed ==>
      FrameStyles(Condensing, bs, caps, w, h, elapsed, durs)[i] == Placed(w / 2.0, h / 2.0, MinScale, 0.0)
  {
    CondenseEndsAtCentre(caps[i], w / 2.0, h / 2.0);
  }

  /**
    The frame on which expanding or reconverging hands back to physics draws
    every orb exactly as free physics draws its restored body: on the snapshot
    position, at full scale and opacity.
  */
  lemma LastFrameMatchesPhysics(bs: seq<Body>, caps: seq<Capture>, w: real, h: real,
                                elapsed: real, durs: seq<real>)
    requires |bs| == 3 && |caps| == 3 && |durs| == 3 && PositiveDurations(durs)
    ensures FrameMode(Expanding, elapsed, durs) == Physics ==>
      FrameStyles(Expanding, bs, caps, w, h, elapsed, durs) == FrameStyles(Physics, BodiesOf(caps), caps, w, h, elapsed, durs)
    ensures FrameMode(Reconverging, elapsed, durs) == Physics ==>
      FrameStyles(Reconverging, bs, caps, w, h, elapsed, durs) == FrameStyles(Physics, BodiesOf(caps), caps, w, h, elapsed, durs)
  {
    forall i | 0 <= i < 3
      ensures ExpandStyle(caps[i], w / 2.0, h / 2.0, EaseOutCubic(1.0)) == PhysicsStyle(BodyOf(caps[i]))
      ensures ReconvergeStyle(caps[i], w / 2.0, h / 2.0, EaseOutCubic(1.0)) == PhysicsStyle(BodyOf(caps[i]))
    {
      ExpandJoinsCondenseAndPhysics(caps[i], w / 2.0, h / 2.0);
      ReconvergeJoinsDisperseAndPhysics(caps[i], w / 2.0, h / 2.0);
    }
  }

  // ---------------------------------------------------------------------------
  // Resize remapping (src/FloatingOrbs.js:174-192)
  // ---------------------------------------------------------------------------

  /** A size change with a previous size that had no zero dimension. */
  predicate RemapsOnResize(prevW: real, prevH: real, w: real, h: real) {
    0.0 < prevW && 0.0 < prevH && (w != prevW || h != prevH)
  }

  /** Translate to the old centre, scale by new/old, translate to the new centre. */
  function RemapCoord(v: real, oldSize: real, newSize: real): real
    requires 0.0 < oldSize
  {
    newSize / 2.0 + (v - oldSize / 2.0) * (newSize / oldSize)
  }

  /**
    Remapping keeps a point at the same place relative to the viewport:
    (v' - new/2) / new == (v - old/2) / old, stated without division so that
    it also covers a new size of zero.
  */
  lemma RemapKeepsRelativePosition(v: real, oldSize: real, newSize: real)
    requires 0.0 < oldSize
    ensures (RemapCoord(v, oldSize, newSize) - newSize / 2.0) * oldSize == (v - oldSize / 2.0) * newSize
  {
    var d, k := v - oldSize / 2.0, newSize / oldSize;
    assert k * oldSize == newSize;
    var dk := d * k;
    assert dk * oldSize == d * (k * oldSize);
  }

  /** Two successive resizes land where a single resize would. */
  lemma RemapComposes(v: real, a: real, b: real, c: real)
    requires 0.0 < a && 0.0 < b
    ensures RemapCoord(RemapCoord(v, a, b), b, c) == RemapCoord(v, a, c)
  {
    var d := v - a / 2.0;
    var kab, kbc, kac := b / a, c / b, c / a;
    assert kab * a == b && kbc * b == c && kac * a == c;
    assert kab * kbc == kac by {
      var p := kab * kbc;
      assert p * a == kbc * (kab * a);
    }
    assert (d * kab) * kbc == d * (kab * kbc);
  }

  function RemapBody(b: Body, prevW: real, prevH: real, w: real, h: real): Body
    requires 0.0 < prevW && 0.0 < prevH
  {
    b.(x := RemapCoord(b.x, prevW, w), y := RemapCoord(b.y, prevH, h))
  }

  function RemapCapture(c: Capture, prevW: real, prevH: real, w: real, h: real): Capture
    requires 0.0 < prevW && 0.0 < prevH
  {
    c.(x := RemapCoord(c.x, prevW, w), y := RemapCoord(c.y, prevH, h))
  }

  /** The bodies after the resize check of one frame. */
  function ResizedBodies(bs: seq<Body>, prevW: real, prevH: real, w: real, h: real): (r: seq<Body>)
    ensures |r| == |bs|
    ensures !RemapsOnResize(prevW, prevH, w, h) ==> r == bs
  {
    if RemapsOnResize(prevW, prevH, w, h) then
      seq(|bs|, i requires 0 <= i < |bs| => RemapBody(bs[i], prevW, prevH, w, h))
    else bs
  }

  /** The snapshot after the resize check of one frame. */
  function ResizedCaptures(caps: seq<Capture>, prevW: real, prevH: real, w: real, h: real): (r: seq<Capture>)
    ensures |r| == |caps|
    ensures !RemapsOnResize(prevW, prevH, w, h) ==> r == caps
  {
    if RemapsOnResize(prevW, prevH, w, h) then
      seq(|caps|, i requires 0 <= i < |caps| => RemapCapture(caps[i], prevW, prevH, w, h))
    else caps
  }

  /** Bodies and their snapshot are remapped alike, so a snapshot of the bodies stays one. */
  lemma ResizeKeepsSnapshotInStep(caps: seq<Capture>, prevW: real, prevH: real, w: real, h: real)
    ensures BodiesOf(ResizedCaptures(caps, prevW, prevH, w, h))
         == ResizedBodies(BodiesOf(caps), prevW, prevH, w, h)
  {
  }

  /**
    After a frame's resize check every body keeps its position relative to the
    viewport, on both axes.
  */
  lemma ResizedBodiesKeepRelativePosition(bs: seq<Body>, prevW: real, prevH: real, w: real, h: real, i: nat)
    requires RemapsOnResize(prevW, prevH, w, h) && i < |bs|
    ensures var r := ResizedBodies(bs, prevW, prevH, w, h)[i];
      (r.x - w / 2.0) * prevW == (bs[i].x - prevW / 2.0) * w
      && (r.y - h / 2.0) * prevH == (bs[i].y - prevH / 2.0) * h
  {
    RemapKeepsRelativePosition(bs[i].x, prevW, w);
    RemapKeepsRelativePosition(bs[i].y, prevH, h);
  }

  /** The snapshot entries keep their relative positions under a frame's resize too. */
  lemma ResizedCapturesKeepRelativePosition(caps: seq<Capture>, prevW: real, prevH: real, w: real, h: real, i: nat)
    requires RemapsOnResize(prevW, prevH, w, h) && i < |caps|
    ensures var r := ResizedCaptures(caps, prevW, prevH, w, h)[i];
      (r.x - w / 2.0) * prevW == (caps[i].x - prevW / 2.0) * w
      && (r.y - h / 2.0) * prevH == (caps[i].y - prevH / 2.0) * h
  {
    RemapKeepsRelativePosition(caps[i].x, prevW, w);
    RemapKeepsRelativePosition(caps[i].y, prevH, h);
  }
}
