/**
 * The selection and sweep state of the dial view.
 *
 * The view keeps the target selection, the last committed selection, the
 * arc's cumulative start angle and its sweep (both in degrees, the unit of
 * the arc primitive), the marker angle (in slots, see DialGeometry) and the
 * dial colour. A click advances the target; each frame of the animation
 * that the click starts delivers a progress value `val`, which either
 * interpolates the marker and the arc (`val < 1`) or commits (`val >= 1`).
 *
 * The functions Init, Advance and Update say what each event does to a
 * ViewState value; the class DialView does the same in place, and its
 * methods are proved to agree with those functions.
 */
module Dial {
  import opened DialGeometry

  /** The colours the dial circle is painted with. */
  datatype Colour = Gray | Green

  /** The fields of the view that the events change. */
  datatype ViewState = ViewState(
    active: int,        // mActiveSelection: the target selection
    last: int,          // mLastSelection: the last committed selection
    startAngle: int,    // start of the arc, in degrees; a running sum
    sweepAngle: real,   // extent of the arc, in degrees
    animAngle: real,    // marker angle, in slots
    dialColour: Colour  // colour of the dial circle
  )

  /** Both selections are valid positions of an `n`-position dial. */
  predicate InRange(n: int, s: ViewState)
  {
    0 <= s.active < n && 0 <= s.last < n
  }

  /** The state the view is built in. */
  function Init(n: int): ViewState
    requires n > 0
  {
    ViewState(0, 0, 9 * SlotDegrees(n), 6.0, PositionAngle(0), Gray)
  }

  /** A click: the target moves to the next position, the dial is recoloured. */
  function Advance(n: int, s: ViewState): ViewState
    requires n > 0
  {
    var next := JavaRem(s.active + 1, n);
    s.(active := next, dialColour := if next >= 1 then Green else Gray)
  }

  /** One animation frame with progress `val`: interpolate, or commit at 1. */
  function Update(n: int, s: ViewState, val: real): ViewState
    requires n > 0
  {
    if val >= 1.0 then
      s.(last := s.active,
         animAngle := PositionAngle(s.active),
         startAngle := s.startAngle + SlotDegrees(n),
         sweepAngle := 0.0)
    else
      s.(animAngle := PositionAngle(s.last) + OneSlot * val,
         sweepAngle := SlotDegrees(n) as real * val)
  }

  /** The view as a mutable object; its fields are those of ViewState. */
  class DialView {
    const count: int
    var activeSelection: int
    var lastSelection: int
    var startAngle: int
    var sweepAngle: real
    var animAngle: real
    var dialColour: Colour

    ghost predicate Valid()
      reads this
    {
      count > 0 && InRange(count, State())
    }

    /** The abstract value of the fields. */
    function State(): ViewState
      reads this
    {
      ViewState(activeSelection, lastSelection, startAngle, sweepAngle, animAngle, dialColour)
    }

    /** Builds the view in its initial state (the constructors' call to init). */
    constructor (n: int)
      requires n > 0
      ensures Valid() && count == n
      ensures State() == Init(n)
    {
      count := n;
      var selection := 0;
      lastSelection, activeSelection := selection, selection;
      var baseAngle := BaseSlots;
      var newMarkAngle := baseAngle + selection as real * OneSlot;
      animAngle := newMarkAngle;
      startAngle := 9 * SlotDegrees(n);
      sweepAngle := 6.0;
      dialColour := Gray;
    }

    /** The click listener: advance the target and recolour the dial. */
    method OnClick()
      requires Valid()
      modifies this
      ensures Valid()
      ensures State() == Advance(count, old(State()))
    {
      activeSelection := JavaRem(activeSelection + 1, count);
      if activeSelection >= 1 {
        dialColour := Green;
      } else {
        dialColour := Gray;
      }
    }

    /** The animator's update listener, given the animated value `val`. */
    method OnAnimationUpdate(val: real)
      requires Valid()
      modifies this
      ensures Valid()
      ensures State() == Update(count, old(State()), val)
    {
      var baseAngle := BaseSlots;
      var oldMarkAngle := baseAngle + lastSelection as real * OneSlot;
      var newMarkAngle := baseAngle + activeSelection as real * OneSlot;
      var oneSectionRadius := OneSlot;
      if val >= 1.0 {
        lastSelection := activeSelection;
        animAngle := newMarkAngle;
        startAngle := startAngle + SlotDegrees(count);
        sweepAngle := 0.0;
      } else {
        animAngle := oldMarkAngle + oneSectionRadius * val;
        sweepAngle := SlotDegrees(count) as real * val;
      }
    }

    /** The angles at which onDraw places the labels 0 .. count-1. */
    method LabelAngles() returns (angles: seq<real>)
      requires Valid()
      ensures |angles| == count
      ensures forall i :: 0 <= i < count ==> angles[i] == PositionAngle(i)
    {
      angles := [];
      for i := 0 to count
        invariant |angles| == i
        invariant forall j :: 0 <= j < i ==> angles[j] == PositionAngle(j)
      {
        angles := angles + [BaseSlots + i as real * OneSlot];
      }
    }
  }

  /** The initial state, as init sets it up. */
  lemma InitialState(n: int)
    requires n > 0
    ensures InRange(n, Init(n))
    ensures Init(n).active == 0 && Init(n).last == 0
    ensures Init(n).animAngle == BaseSlots
    ensures Init(n).startAngle == 9 * SlotDegrees(n)
    ensures Init(n).sweepAngle == 6.0
    ensures Init(n).dialColour == Gray
    ensures n == DefaultSelectionCount ==> Init(n).startAngle == 270
  {
  }

  /** A click moves the target one position forward, wrapping at `n`. */
  lemma AdvanceNext(n: int, s: ViewState)
    requires n > 0 && InRange(n, s)
    ensures InRange(n, Advance(n, s))
    ensures Advance(n, s).active == (s.active + 1) % n
    ensures s.active == n - 1 ==> Advance(n, s).active == 0
    ensures s.active < n - 1 ==> Advance(n, s).active == s.active + 1
  {
  }

  /** A click changes nothing of the sweep: only the target and the colour. */
  lemma AdvanceKeepsSweep(n: int, s: ViewState)
    requires n > 0
    ensures Advance(n, s).last == s.last
    ensures Advance(n, s).startAngle == s.startAngle
    ensures Advance(n, s).sweepAngle == s.sweepAngle
    ensures Advance(n, s).animAngle == s.animAngle
  {
  }

  /** After a click the dial is green exactly when the new target is not 0. */
  lemma AdvanceColour(n: int, s: ViewState)
    requires n > 0 && InRange(n, s)
    ensures Advance(n, s).dialColour == Green <==> Advance(n, s).active >= 1
    ensures Advance(n, s).dialColour == Gray <==> Advance(n, s).active == 0
  {
  }

  /**
   * A frame before the end interpolates: the selections, the start angle
   * and the colour stay, the marker is `val` slots past the last committed
   * position, and the arc covers `val` of one slot's degrees.
   */
  lemma UpdateInterpolates(n: int, s: ViewState, val: real)
    requires n > 0 && val < 1.0
    ensures Update(n, s, val).active == s.active && Update(n, s, val).last == s.last
    ensures Update(n, s, val).startAngle == s.startAngle
    ensures Update(n, s, val).dialColour == s.dialColour
    ensures Update(n, s, val).animAngle == PositionAngle(s.last) + val
    ensures Update(n, s, val).sweepAngle == SlotDegrees(n) as real * val
  {
  }

  /**
   * For progress in [0, 1) the marker lies between the last committed
   * position and the next one, and the arc lies in [0, 360/N); when N
   * exceeds 360 the truncated slot is 0 degrees and so is the arc.
   */
  lemma {:induction false} InterpolationBounds(n: int, s: ViewState, val: real)
    requires n > 0 && 0.0 <= val < 1.0
    ensures PositionAngle(s.last) <= Update(n, s, val).animAngle < PositionAngle(s.last + 1)
    ensures 0.0 <= Update(n, s, val).sweepAngle <= SlotDegrees(n) as real
    ensures SlotDegrees(n) > 0 ==> Update(n, s, val).sweepAngle < SlotDegrees(n) as real
    ensures SlotDegrees(n) == 0 <==> n > 360
  {
    var d := SlotDegrees(n) as real;
    assert 0.0 <= d * val <= d by {
      assert d * val <= d * 1.0;
    }
    if d > 0.0 {
      assert d * val < d * 1.0;
    }
  }

  /** Later frames of one sweep never move the marker or the arc back. */
  lemma {:induction false} InterpolationMonotone(n: int, s: ViewState, v1: real, v2: real)
    requires n > 0 && v1 <= v2 < 1.0
    ensures Update(n, s, v1).animAngle <= Update(n, s, v2).animAngle
    ensures Update(n, s, v1).sweepAngle <= Update(n, s, v2).sweepAngle
  {
    var d := SlotDegrees(n) as real;
    assert d * v1 <= d * v2 by {
      assert d * (v2 - v1) >= 0.0;
    }
  }

  /** Repeating a frame with the same progress below 1 changes nothing more. */
  lemma InterpolationIdempotent(n: int, s: ViewState, val: real)
    requires n > 0 && val < 1.0
    ensures Update(n, Update(n, s, val), val) == Update(n, s, val)
  {
  }

  /**
   * The final frame commits: the target becomes the committed selection,
   * the marker stands on it, the arc collapses and its start moves forward
   * by exactly `360 / N` whole degrees (30 for the default 12 positions).
   */
  lemma UpdateCommits(n: int, s: ViewState, val: real)
    requires n > 0 && val >= 1.0
    ensures Update(n, s, val).active == s.active
    ensures Update(n, s, val).last == s.active
    ensures Update(n, s, val).animAngle == PositionAngle(s.active)
    ensures Update(n, s, val).sweepAngle == 0.0
    ensures Update(n, s, val).startAngle == s.startAngle + SlotDegrees(n)
    ensures Update(n, s, val).dialColour == s.dialColour
    ensures n == DefaultSelectionCount ==> Update(n, s, val).startAngle == s.startAngle + 30
  {
  }

  /** Committing twice moves the arc's start twice: commits are not idempotent. */
  lemma CommitTwice(n: int, s: ViewState)
    requires n > 0
    ensures Update(n, Update(n, s, 1.0), 1.0).last == Update(n, s, 1.0).last
    ensures Update(n, Update(n, s, 1.0), 1.0).startAngle == s.startAngle + 2 * SlotDegrees(n)
  {
  }

  /** Frames keep both selections valid positions. */
  lemma UpdateStaysInRange(n: int, s: ViewState, val: real)
    requires n > 0 && InRange(n, s)
    ensures InRange(n, Update(n, s, val))
  {
  }

  /**
   * When exactly one click is pending, the commit puts the marker where the
   * interpolation was heading (one slot past the last committed position),
   * up to one full turn when the click wrapped from N-1 to 0; and the arc's
   * end, startAngle + sweepAngle, continues from where the sweep ends.
   */
  lemma {:induction false} CommitContinuous(n: int, s: ViewState)
    requires n > 0 && InRange(n, s) && s.active == (s.last + 1) % n
    ensures PositionAngle(s.last) + OneSlot
         == Update(n, s, 1.0).animAngle + (if s.last == n - 1 then n as real else 0.0)
    ensures Update(n, s, 1.0).startAngle as real + Update(n, s, 1.0).sweepAngle
         == s.startAngle as real + SlotDegrees(n) as real * 1.0
  {
    if s.last == n - 1 {
      assert s.active == 0;
    } else {
      assert s.active == s.last + 1;
    }
  }

  /**
   * A click in the middle of a sweep restarts it: the first frame of the
   * new animator puts the marker back on the last committed position and
   * empties the arc, whatever progress the abandoned sweep had made.
   */
  lemma RestartAfterClick(n: int, s: ViewState, v: real)
    requires n > 0 && v < 1.0
    ensures Update(n, Advance(n, Update(n, s, v)), 0.0).last == s.last
    ensures Update(n, Advance(n, Update(n, s, v)), 0.0).animAngle == PositionAngle(s.last)
    ensures Update(n, Advance(n, Update(n, s, v)), 0.0).sweepAngle == 0.0
    ensures Update(n, Advance(n, Update(n, s, v)), 0.0).startAngle == s.startAngle
  {
  }

  /**
   * A click followed by the first frame of the animator it starts (progress
   * 0): the target has moved on, the marker is back on the last committed
   * position and the arc is empty. From the initial state this is the first
   * time the arc's sweep of 6 degrees is replaced.
   */
  lemma ClickThenFirstFrame(n: int, s: ViewState)
    requires n > 0 && InRange(n, s)
    ensures Update(n, Advance(n, s), 0.0).active == (s.active + 1) % n
    ensures Update(n, Advance(n, s), 0.0).last == s.last
    ensures Update(n, Advance(n, s), 0.0).animAngle == PositionAngle(s.last)
    ensures Update(n, Advance(n, s), 0.0).sweepAngle == 0.0
    ensures Update(n, Advance(n, s), 0.0).startAngle == s.startAngle
    ensures s == Init(n) ==> Advance(n, s).sweepAngle == 6.0
  {
  }
}
