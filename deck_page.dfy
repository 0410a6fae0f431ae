/**
  Slide navigation of the investor deck page (src/DeckPage.js): nine slides,
  one current slide, and a lock held while a slide transition runs. A request
  to show a slide is refused while locked, for the slide already shown, and
  for an index outside the deck; an accepted request switches the current
  slide at once and takes the lock, which the transition's completion (a
  timer in the page) releases.
*/
module DeckPage {
  import opened Wrappers

  const Total: int := 9
  /** Vertical travel, in pixels, of a slide entering or leaving. */
  const SlideTravel: int := 28
  /** Horizontal travel, in pixels, beyond which a touch counts as a swipe. */
  const SwipeThreshold: real := 52.0

  /**
    The transition an accepted request starts: the slide that leaves and the
    one that enters, the direction, where the incoming slide starts and where
    the outgoing slide goes (vertical offsets in pixels).
  */
  datatype Transition = Transition(outgoing: int, incoming: int, dir: int, incomingFrom: int, outgoingTo: int)

  /** What a key press or a swipe asks for. */
  datatype Command = Forward | Backward | Ignore

  /** The guard of a navigation request. */
  predicate Accepts(current: int, animating: bool, index: int) {
    !animating && index != current && 0 <= index < Total
  }

  /**
    The transition from `current` to `index`. It points towards the target, the
    incoming slide enters from the side it travels towards, and the outgoing
    slide leaves the opposite way.
  */
  function TransitionTo(current: int, index: int): (t: Transition)
    ensures t.outgoing == current && t.incoming == index
    ensures t.dir == 1 || t.dir == -1
    ensures index != current ==> 0 < t.dir * (index - current)
    ensures t.incomingFrom == t.dir * SlideTravel && t.outgoingTo == -t.incomingFrom
    ensures t.incomingFrom * t.outgoingTo < 0
  {
    var dir := if index > current then 1 else -1;
    assert (dir * SlideTravel) * (-dir * SlideTravel) == -(SlideTravel * SlideTravel);
    Transition(current, index, dir, dir * SlideTravel, -dir * SlideTravel)
  }

  /** The key map: right, down and space go forward; left and up go back. */
  function KeyCommand(key: string): (c: Command)
    ensures c == Forward <==> key in ["ArrowRight", "ArrowDown", " "]
    ensures c == Backward <==> key in ["ArrowLeft", "ArrowUp"]
  {
    if key in ["ArrowRight", "ArrowDown", " "] then Forward
    else if key in ["ArrowLeft", "ArrowUp"] then Backward
    else Ignore
  }

  /** The swipe map: past the threshold, leftwards goes forward and rightwards goes back. */
  function SwipeCommand(dx: real): (c: Command)
    ensures c == Ignore <==> -SwipeThreshold <= dx <= SwipeThreshold
    ensures c == Forward <==> dx < -SwipeThreshold
    ensures c == Backward <==> SwipeThreshold < dx
  {
    var magnitude := if dx < 0.0 then -dx else dx;
    if magnitude > SwipeThreshold then (if dx < 0.0 then Forward else Backward) else Ignore
  }

  /** The slide a command asks for, given the current one. */
  function Target(current: int, c: Command): int {
    match c
    case Forward => current + 1
    case Backward => current - 1
    case Ignore => current
  }

  /** The counter reads "n / 9" with n the one-based slide number. */
  function Counter(current: int): (shown: (int, int))
    requires 0 <= current < Total
    ensures 1 <= shown.0 <= shown.1 == Total
    ensures shown.0 - 1 == current
  {
    (current + 1, Total)
  }

  predicate ShowsPrevArrow(current: int) { current > 0 }
  predicate ShowsNextArrow(current: int) { current < Total - 1 }

  /**
    The arrows are drawn exactly when the move they trigger can be accepted
    once the lock is free: no previous arrow on the first slide, no next arrow
    on the last.
  */
  lemma ArrowsMatchNavigation(current: int)
    requires 0 <= current < Total
    ensures ShowsPrevArrow(current) <==> Accepts(current, false, current - 1)
    ensures ShowsNextArrow(current) <==> Accepts(current, false, current + 1)
  {
  }

  /** Going forward from the last slide and back from the first are refused. */
  lemma EndsAreSticky(animating: bool)
    ensures !Accepts(Total - 1, animating, Total - 1 + 1)
    ensures !Accepts(0, animating, 0 - 1)
  {
  }

  /** An ignored command is never accepted: it asks for the current slide. */
  lemma IgnoreIsRefused(current: int, animating: bool)
    ensures !Accepts(current, animating, Target(current, Ignore))
  {
  }

  class Deck {
    var current: int
    var animating: bool
    var touchStartX: real

    ghost predicate Valid()
      reads this
    {
      0 <= current < Total
    }

    /** The page opens on the first slide, unlocked. */
    constructor ()
      ensures Valid() && current == 0 && !animating && touchStartX == 0.0
    {
      current, animating, touchStartX := 0, false, 0.0;
    }

    /**
      A request to show slide `index`. Refused (nothing changes, no transition)
      while locked, for the current slide, or out of range; otherwise the slide
      becomes current, the lock is taken, and the transition is returned.
    */
    method GoTo(index: int) returns (change: Option<Transition>)
      requires Valid()
      modifies this`current, this`animating
      ensures Valid()
      ensures change.Some? <==> Accepts(old(current), old(animating), index)
      ensures change.None? ==> current == old(current) && animating == old(animating)
      ensures change.Some? ==>
        current == index && animating && change.value == TransitionTo(old(current), index)
    {
      if animating || index == current || index < 0 || index >= Total {
        return None;
      }
      animating := true;
      var t := TransitionTo(current, index);
      current := index;
      change := Some(t);
    }

    /** The transition's completion: the lock is released, the slide stays. */
    method Finish()
      requires Valid()
      modifies this`animating
      ensures Valid() && !animating && current == old(current)
    {
      animating := false;
    }

    method Next() returns (change: Option<Transition>)
      requires Valid()
      modifies this`current, this`animating
      ensures Valid()
      ensures change.Some? <==> Accepts(old(current), old(animating), old(current) + 1)
      ensures current == if change.Some? then old(current) + 1 else old(current)
      ensures animating == (change.Some? || old(animating))
    {
      change := GoTo(current + 1);
    }

    method Prev() returns (change: Option<Transition>)
      requires Valid()
      modifies this`current, this`animating
      ensures Valid()
      ensures change.Some? <==> Accepts(old(current), old(animating), old(current) - 1)
      ensures current == if change.Some? then old(current) - 1 else old(current)
      ensures animating == (change.Some? || old(animating))
    {
      change := GoTo(current - 1);
    }

    /** A key press: forward keys call Next, back keys call Prev, others do nothing. */
    method OnKey(key: string) returns (change: Option<Transition>)
      requires Valid()
      modifies this`current, this`animating
      ensures Valid()
      ensures change.Some? <==>
        Accepts(old(current), old(animating), Target(old(current), KeyCommand(key)))
      ensures current == if change.Some? then Target(old(current), KeyCommand(key)) else old(current)
      ensures animating == (change.Some? || old(animating))
    {
      change := None;
      if key in ["ArrowRight", "ArrowDown", " "] {
        change := Next();
      }
      if key in ["ArrowLeft", "ArrowUp"] {
        change := Prev();
      }
    }

    /** A touch begins: its horizontal position is remembered. */
    method OnTouchStart(x: real)
      modifies this`touchStartX
      ensures touchStartX == x
    {
      touchStartX := x;
    }

    /** A touch ends at `x`: a swipe past the threshold moves one slide. */
    method OnTouchEnd(x: real) returns (change: Option<Transition>)
      requires Valid()
      modifies this`current, this`animating
      ensures Valid()
      ensures change.Some? <==>
        Accepts(old(current), old(animating), Target(old(current), SwipeCommand(x - touchStartX)))
      ensures current == if change.Some? then Target(old(current), SwipeCommand(x - touchStartX)) else old(current)
      ensures animating == (change.Some? || old(animating))
    {
      var dx := x - touchStartX;
      var magnitude := if dx < 0.0 then -dx else dx;
      change := None;
      if magnitude > SwipeThreshold {
        if dx < 0.0 {
          change := Next();
        } else {
          change := Prev();
        }
      }
    }
  }
}
