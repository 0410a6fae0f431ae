# Orbital background and deck navigation

A Dafny model of two client-side state machines of the landing site.

**The orbital background** (`src/FloatingOrbs.js`) draws three coloured orbs. While the page is idle they move as a softened three-body system:
- pairwise attraction along the offset `(dx, dy)`, scaled by the factor `G·m / (d² + 120²)^(3/2)`, so its magnitude is `G·m·d / (d² + 120²)^(3/2)`;
- a linear push back from an 80 px margin at the viewport edges;
- a kick-drift-kick step with `DT = 0.5`;
- damping, and a speed cap of 3.5.

Two intents drive seven modes: *condensing* (the sign-up modal is open) and *dispersing*.
- **Condensing** snapshots the bodies and pulls every orb into the viewport centre. Each orb takes 400–700 ms, depending on its distance.
- **Expanding** sends the orbs back out and resumes physics from the snapshot.
- **Dispersing** flings the orbs past their snapshot (overshoot 1.8) and fades them out.
- **Reconverging** brings them back.

On every frame the component does the following, in order:
1. remaps all positions proportionally if the viewport size changed;
2. publishes the body positions to a shared feed that the sign-up modal reads;
3. does the current mode's work.

**The deck page** (`src/DeckPage.js`) shows nine slides.
- A navigation request is refused while a slide transition runs, for the slide already shown, or out of range.
- An accepted request switches slides at once and locks navigation until the transition's timer fires.
- Keys and horizontal swipes over 52 px map to next or previous.

Modules:
- `OrbPhysics` (orb_physics.dfy): the forces, the speed cap, the nested pair loop of `computeAccelerations` over an accumulator sequence, the frame step and `initBodies`.
- `OrbChoreography` (orb_choreography.dfy): modes, easing, per-mode placement formulas, the intent table, condense durations, timed transitions and the resize remap. All of it is pure.
- `FloatingOrbs` (floating_orbs.dfy): class `Animator`, the component state. It has a three-slot body array updated in place, plus the mode, clock, snapshot, durations, last size and feed. It offers `OnIntents` (the intent effect) and `Step(now, w, h)` (one animation frame).
- `DeckPage` (deck_page.dfy): class `Deck`, with `GoTo`, `Next`, `Prev`, `Finish` (the timer callback), `OnKey` and `OnTouchStart`/`OnTouchEnd` (the swipe).
- `Wrappers` (wrappers.dfy): `Option`.

Numbers are `real`. `Math.sqrt`, `Math.sin` and `Math.cos` are passed in as function values and constrained only by `IsSqrt` (`sqrt(q)² = q`, `sqrt(q) ≥ 0` for `q ≥ 0`) and `IsTrig` (`sin² + cos² = 1`). `performance.now()` is the parameter `now`. The seven `Math.random()` draws of `initBodies` are the parameter `rand`, in call order.

`src/App.js:91` mounts the background with `condensing` only. So the page shell never raises the disperse intent, and `OrbChoreography.ShellNeverDisperses` shows that the dispersal modes are then unreachable.

An intent that changes during expanding, dispersing or reconverging is not acted on, and the effect only re-runs when an intent changes again (`OrbChoreography.IntentsIgnoredMidTransition`). For example, if the modal is reopened while the orbs are still expanding, the orbs return to free physics with the modal open.

## Model

| member | source | states |
|---|---|---|
| OrbPhysics.ClampSpeed | src/FloatingOrbs.js:31-37 | At or below 3.5 the velocity is returned unchanged. Above, the result has speed exactly 3.5, is parallel to the input (cross product 0) and points the same way (positive dot product). The result never exceeds 3.5. |
| OrbPhysics.PairStrength | src/FloatingOrbs.js:43-47 | The factor `inv = G·m / (softSq·√softSq)` is always positive. |
| OrbPhysics.PairForce | src/FloatingOrbs.js:43-49 | Definition of the pair term `inv·(dx, dy)`; its properties are stated in `PairForceAttracts` and `PairForceAntisymmetric`. |
| OrbPhysics.PairForceAttracts | src/FloatingOrbs.js:43-49 | The pair term added to body i is parallel to the offset from i to j and not against it: bodies attract. |
| OrbPhysics.PairForceAntisymmetric | src/FloatingOrbs.js:50-51 | The term added to body j is the negation of the one added to body i. |
| OrbPhysics.NetGravityZero | src/FloatingOrbs.js:41-53 | For three bodies the gravitational parts of the three accelerations sum to the zero vector. |
| OrbPhysics.AccumulatePairForces | src/FloatingOrbs.js:40-53 | After the nested pair loop, each entry is the sum of the pair terms from every other body (`Gravity`). |
| OrbPhysics.ComputeAccelerations | src/FloatingOrbs.js:39-62 | The result is, per body, its gravity plus its boundary push (`Accelerations`). |
| OrbPhysics.BoundaryPush | src/FloatingOrbs.js:56-59 | Zero inside `[80, size−80]`. Below the margin it is `0.3·(80−p)`, positive (inward). Beyond `size−80` it is `−0.3·(p−(size−80))`, negative (inward). |
| OrbPhysics.HalfKick | src/FloatingOrbs.js:202-205 | Definition of the half-kick `v += a·DT/2`; its property is stated in `KickKeepsMomentumInside` and `Animator.KickAll`. |
| OrbPhysics.Drift | src/FloatingOrbs.js:206-209 | Definition of the drift `p += v·DT`; it is used by `PhysicsStep` and `Animator.DriftAll`. |
| OrbPhysics.Settle | src/FloatingOrbs.js:211-217 | The second half-kick, damping and cap keep the position and leave the speed at most 3.5. |
| OrbPhysics.PhysicsStep | src/FloatingOrbs.js:199-217 | After a physics frame every body's speed is at most 3.5. |
| OrbPhysics.KickKeepsMomentumInside | src/FloatingOrbs.js:201-205 | When all three bodies are inside the margins, a half-kick leaves the summed velocity unchanged. |
| OrbPhysics.OrbitalSpeed | src/FloatingOrbs.js:72-73 | The circular-orbit speed `√(G·m / (r·√3))·0.85` is positive. |
| OrbPhysics.CirclePoint | src/FloatingOrbs.js:69-70 | The point `(cx + r·cos a, cy + r·sin a)` lies on the circle of radius `r` around the centre. |
| OrbPhysics.Tangent | src/FloatingOrbs.js:76-78 | The seed velocity's direction `(−dy, dx)/dist` is perpendicular to the body's offset from the centre. Multiplied by `dist` it gives back the quarter-turned offset `(−dy, dx)`. |
| OrbPhysics.SeedBody | src/FloatingOrbs.js:68-84 | Each seeded body lies at distance `0.22·min(w,h)` from the viewport centre. |
| OrbPhysics.InitBodies | src/FloatingOrbs.js:64-89 | Three bodies, all on the circle of radius `0.22·min(w,h)` around the centre, whose velocities sum to exactly zero. |
| OrbPhysics.CancelMomentum | src/FloatingOrbs.js:85-87 | Subtracting the mean keeps positions, shifts every velocity by the same vector, and makes the velocity sum zero. |
| OrbChoreography.EaseOutCubic | src/FloatingOrbs.js:27-29 | Definition of `1 − (1 − t)³`; its properties are stated in `EaseOutCubicMonotone`. |
| OrbChoreography.EaseOutCubicMonotone | src/FloatingOrbs.js:27-29 | The curve is 0 at 0 and 1 at 1, and non-decreasing from [0,1] into [0,1]. |
| OrbChoreography.RawT | src/FloatingOrbs.js:257 | Progress never exceeds 1, is non-negative once started, and equals 1 exactly when the duration has elapsed. |
| OrbChoreography.CaptureAll | src/FloatingOrbs.js:131-133 | The snapshot has one entry per body. Each entry's position and velocity are that body's, and its size is that orb's size. |
| OrbChoreography.PhysicsStyle | src/FloatingOrbs.js:218-225 | Definition: on the body, at scale 1 and opacity 1. Its properties are stated in `ExpandJoinsCondenseAndPhysics` and `LastFrameMatchesPhysics`. |
| OrbChoreography.CondenseStyle | src/FloatingOrbs.js:240-244 | Definition of the condense placement; its properties are stated in `CondenseEndsAtCentre` and `StylesWellFormed`. |
| OrbChoreography.ExpandStyle | src/FloatingOrbs.js:259-264 | Definition of the expand placement; its properties are stated in `ExpandJoinsCondenseAndPhysics` and `StylesWellFormed`. |
| OrbChoreography.DisperseStyle | src/FloatingOrbs.js:289-295 | Definition of the disperse placement; its properties are stated in `DisperseStartsAtCentre` and `StylesWellFormed`. |
| OrbChoreography.ReconvergeStyle | src/FloatingOrbs.js:319-328 | Definition of the reconverge placement; its properties are stated in `ReconvergeJoinsDisperseAndPhysics` and `StylesWellFormed`. |
| OrbChoreography.CondenseEndsAtCentre | src/FloatingOrbs.js:240-244 | At the end of condensing an orb is on the centre at scale 0.08 with opacity 0. |
| OrbChoreography.ExpandJoinsCondenseAndPhysics | src/FloatingOrbs.js:259-264 | Expanding starts where condensing ended and ends on the snapshot at scale 1, opacity 1. |
| OrbChoreography.ReconvergeJoinsDisperseAndPhysics | src/FloatingOrbs.js:289-295 | Reconverging starts where dispersing ended: the position `c + 1.8·(cap − c)`, the scale and the opacity all match. It ends on the snapshot at scale 1, opacity 1. |
| OrbChoreography.DisperseStartsAtCentre | src/FloatingOrbs.js:292-295 | Dispersing starts on the centre, at scale 0.08, invisible. |
| OrbChoreography.StylesWellFormed | src/FloatingOrbs.js:242-244 | For progress in [0,1], every opacity lies in [0,1] and every scale between 0.08 and 1.3. While dispersing the opacity never exceeds 0.5, and it reaches 0.5 at progress 0.2. |
| OrbChoreography.IntentMode | src/FloatingOrbs.js:124-161 | The intent table, read on one snapshot of the mode: physics+condense gives condensing; physics+disperse gives dispersing, overriding condense; condensing/condensed without condense gives dispersing or expanding; dispersed without disperse gives reconverging; everything else is unchanged. |
| OrbChoreography.IntentModeIdempotent | src/FloatingOrbs.js:124-161 | Re-running the effect with the same intents changes nothing more. |
| OrbChoreography.SnapshotExactlyWhenLeavingPhysics | src/FloatingOrbs.js:128-133 | A snapshot is taken exactly when the effect leaves physics. |
| OrbChoreography.IntentsIgnoredMidTransition | src/FloatingOrbs.js:124-161 | While expanding, dispersing or reconverging, no intent changes the mode or takes a snapshot. |
| OrbChoreography.MaxWithFloor | src/FloatingOrbs.js:137 | `max(...dists, 1)` is at least 1 and at least every distance, and is either 1 or one of the distances. |
| OrbChoreography.CondenseDurations | src/FloatingOrbs.js:134-140 | One duration per orb, each in [400, 700]. |
| OrbChoreography.CondenseFartherIsSlower | src/FloatingOrbs.js:134-140 | An orb at least as far from the centre never gets a shorter duration. |
| OrbChoreography.FrameMode | src/FloatingOrbs.js:233-342 | Definition of the mode after a frame; its properties are stated in `CondensedExactlyWhenAllElapsed`, `TimedTransitionsEndOnTime`, `RestingModesStay` and `CondenseCompletesWithin`. |
| OrbChoreography.CondensedExactlyWhenAllElapsed | src/FloatingOrbs.js:233-251 | Condensing becomes condensed exactly when every orb's own duration has elapsed. |
| OrbChoreography.TimedTransitionsEndOnTime | src/FloatingOrbs.js:271-278 | Expanding ends at 500 ms, dispersing at 700 ms and reconverging at 600 ms, exactly. |
| OrbChoreography.RestingModesStay | src/FloatingOrbs.js:304-309 | Physics, condensed and dispersed never change mode on a frame. |
| OrbChoreography.CondenseCompletesWithin | src/FloatingOrbs.js:233-251 | With durations in [400, 700], condensing is complete after 700 ms. |
| OrbChoreography.ShellNeverDisperses | src/App.js:91 | With the disperse intent always false, neither intents nor frames leave physics/condensing/condensed/expanding. |
| OrbChoreography.EasedProgressInUnit | src/FloatingOrbs.js:257-258 | Eased progress of a started transition lies in [0,1]. |
| OrbChoreography.FrameStyles | src/FloatingOrbs.js:218-334 | One style per orb. The definition picks the mode's placement; its properties are stated in `FrameStylesWellFormed`, `CondensedOrbsHiddenAtCentre` and `LastFrameMatchesPhysics`. |
| OrbChoreography.FrameStylesWellFormed | src/FloatingOrbs.js:218-334 | Once a transition has started, every orb a frame places has opacity in [0,1] and scale at least 0.08. |
| OrbChoreography.CondensedOrbsHiddenAtCentre | src/FloatingOrbs.js:237-251 | While condensed, and on the frame condensing completes, every orb sits invisible on the centre at minimum scale. |
| OrbChoreography.LastFrameMatchesPhysics | src/FloatingOrbs.js:271-278 | The frame on which expanding or reconverging ends draws each orb exactly as physics draws its restored body. |
| OrbChoreography.RemapCoord | src/FloatingOrbs.js:175-180 | Definition of `new/2 + (v − old/2)·(new/old)`; its properties are stated in `RemapKeepsRelativePosition` and `RemapComposes`. |
| OrbChoreography.RemapKeepsRelativePosition | src/FloatingOrbs.js:175-180 | `(x' − w'/2)·w = (x − w/2)·w'`: a remapped point keeps its position relative to the viewport. |
| OrbChoreography.RemapComposes | src/FloatingOrbs.js:175-180 | Two successive remaps equal a single remap from the first size to the last. |
| OrbChoreography.ResizedBodies | src/FloatingOrbs.js:174-192 | Without a positive previous size, or without a size change, the bodies are untouched. |
| OrbChoreography.ResizedCaptures | src/FloatingOrbs.js:182-188 | The same holds for the snapshot. |
| OrbChoreography.ResizeKeepsSnapshotInStep | src/FloatingOrbs.js:178-188 | Bodies and snapshot are remapped alike, so a snapshot of the bodies remains one. |
| OrbChoreography.ResizedBodiesKeepRelativePosition | src/FloatingOrbs.js:178-181 | After a frame's resize every body keeps its relative position on both axes. |
| OrbChoreography.ResizedCapturesKeepRelativePosition | src/FloatingOrbs.js:182-188 | The same holds for every snapshot entry. |
| FloatingOrbs.Animator.constructor | src/FloatingOrbs.js:117-122 | Mount: a fresh three-slot body array from `initBodies`, in physics, with no snapshot, durations `[400,400,400]`, the size remembered and an empty feed. |
| FloatingOrbs.Animator.OnIntents | src/FloatingOrbs.js:124-161 | The mode becomes `IntentMode`. A snapshot is taken iff physics is left. Durations are recomputed iff condensing from physics. The clock restarts at `now` iff the mode changed. The bodies are frozen on the snapshot outside physics (`Valid`). |
| FloatingOrbs.Animator.StartCondense | src/FloatingOrbs.js:128-143 | Snapshot, per-orb durations for the viewport centre, clock, and mode condensing. |
| FloatingOrbs.Animator.StartDisperse | src/FloatingOrbs.js:149-155 | Snapshot, clock, and mode dispersing. |
| FloatingOrbs.Animator.Step | src/FloatingOrbs.js:166-345 | The frame: resize remap, then the feed from the remapped bodies, then the mode's work. Physics bodies become `PhysicsStep`; elsewhere bodies stay frozen. The mode becomes `FrameMode`, and the styles drawn are `FrameStyles`. |
| FloatingOrbs.Animator.Resize | src/FloatingOrbs.js:174-192 | Bodies and snapshot become `ResizedBodies`/`ResizedCaptures`. The stored size is always the new size. |
| FloatingOrbs.Animator.PhysicsFrame | src/FloatingOrbs.js:199-225 | The bodies array becomes `PhysicsStep` of its old contents, and each orb follows its body at scale 1, opacity 1. |
| FloatingOrbs.Animator.KickAll | src/FloatingOrbs.js:202-205 | The first half-kick in place equals `HalfKick`. |
| FloatingOrbs.Animator.DriftAll | src/FloatingOrbs.js:206-209 | The drift in place equals `Drift`. |
| FloatingOrbs.Animator.SettleAll | src/FloatingOrbs.js:211-217 | Second half-kick, damping and cap in place equal `Settle` per body. |
| FloatingOrbs.Animator.CondenseFrame | src/FloatingOrbs.js:227-251 | Per-orb condense placement; the mode becomes condensed iff every orb's progress reached 1. |
| FloatingOrbs.Animator.ExpandFrame | src/FloatingOrbs.js:253-278 | Expand placement. At the end the bodies are set to the snapshot (which they already equal) and physics resumes. |
| FloatingOrbs.Animator.DisperseFrame | src/FloatingOrbs.js:280-302 | Disperse placement; the mode becomes dispersed at the end. |
| FloatingOrbs.Animator.ReconvergeFrame | src/FloatingOrbs.js:311-342 | Reconverge placement. At the end the bodies are set to the snapshot and physics resumes. |
| FloatingOrbs.Animator.RestoreFromSnapshot | src/FloatingOrbs.js:335-340 | Every body's x, y, vx and vy become the snapshot's. |
| DeckPage.TransitionTo | src/DeckPage.js:24-49 | The direction is ±1 and, for a real move, points towards the target. The incoming slide enters from `dir·28` and the outgoing slide leaves to `−dir·28`, so the two move opposite ways. |
| DeckPage.KeyCommand | src/DeckPage.js:70-71 | ArrowRight, ArrowDown and Space go forward; ArrowLeft and ArrowUp go back; every other key is ignored. |
| DeckPage.SwipeCommand | src/DeckPage.js:129-132 | `|dx| ≤ 52` is ignored. Beyond that, leftward goes forward and rightward goes back. |
| DeckPage.Counter | src/DeckPage.js:97 | The counter shows the one-based slide number, between 1 and 9, out of 9. |
| DeckPage.ArrowsMatchNavigation | src/DeckPage.js:110-123 | The previous/next arrows are drawn exactly when that move would be accepted once unlocked. |
| DeckPage.EndsAreSticky | src/DeckPage.js:21 | Next on the last slide and previous on the first are refused. |
| DeckPage.IgnoreIsRefused | src/DeckPage.js:21 | A request for the current slide is refused. |
| DeckPage.Deck.constructor | src/DeckPage.js:7-11 | The deck opens on slide 0, unlocked. |
| DeckPage.Deck.GoTo | src/DeckPage.js:20-63 | The request is accepted iff unlocked, a different slide, and in `[0, 9)`. If refused, nothing changes. If accepted, the slide becomes current, the lock is taken, and the transition is returned. `0 ≤ current < 9` is kept. |
| DeckPage.Deck.Finish | src/DeckPage.js:58-62 | The lock is released and the current slide stays. |
| DeckPage.Deck.Next | src/DeckPage.js:65 | `GoTo(current + 1)`. |
| DeckPage.Deck.Prev | src/DeckPage.js:66 | `GoTo(current − 1)`. |
| DeckPage.Deck.OnKey | src/DeckPage.js:68-75 | The key's command is applied through `Next`/`Prev`; nothing else changes. |
| DeckPage.Deck.OnTouchStart | src/DeckPage.js:128 | The touch's x is remembered. |
| DeckPage.Deck.OnTouchEnd | src/DeckPage.js:129-132 | The swipe's command is applied through `Next`/`Prev`. |

## Left out

- DOM writes are out:
  - the orbs' `transform` strings (top-left corner = centre − size/2);
  - the container's `zIndex`, including the 100 ms `zElevateTimeRef` delay;
  - the slides' `cssText`, the forced reflow, and the reset of slide styles in the deck's timer callback.
  
  Styles are returned as values (`OrbStyle`, `Transition`) instead.
- Frame and effect scheduling is out: `requestAnimationFrame`, React effects and state batching, and `setTimeout`.
  - A frame is a `Step` call.
  - The intent effect is an `OnIntents` call. React invokes it only when an intent changes.
  - The deck's timer is a `Finish` call.
  - The `ready` flag is folded into construction.
  - Stale closures between renders are not modelled.
- FloatingOrbs.Animator.OnIntents: the source calls `performance.now()` several times in one effect (and again in the condensing frame). The model uses one `now` per call.
- OrbPhysics.Tangent: returns the zero vector for a zero offset, where the source would divide by zero. No seeded body has a zero offset, because every seeded body lies on a circle of positive radius.
- OrbPhysics.Tangent: unit length is not stated as such. It follows from `t·dist = (−dy, dx)` and `dist² = dx² + dy²`, but the arithmetic over the square-root parameter is beyond what the model proves.
- OrbPhysics.InitBodies requires `w > 0` and `h > 0`: with a zero-sized viewport the source divides by a zero distance and produces NaN.
- Floating point is out: rounding, NaN and Infinity are not modelled; arithmetic is over `real`.
- The square root, sine and cosine are constrained only by their algebraic identities. So the exact triangle angles are not modelled, and neither are the ranges of `Math.random()`.
- The slide content, the deck's page fade-in, and the back button are presentation only.
- `src/SignUpModal.js` (Google sign-in, the passcode request, JWT decoding and blob placement) is not part of this model.
- Routing and storage in `src/App.js` are not part of this model.
- `server.js`, `src/setupProxy.js` and `past-website/` are not part of this model.
