/**
 * Sequences of events delivered to the dial: clicks, and animation frames
 * carrying a progress value. Since every click starts an animator that is
 * never cancelled, frames of several sweeps may interleave; a trace is any
 * sequence of the two kinds of event, in the order the view receives them.
 */
module DialRuns {
  import opened DialGeometry
  import opened Dial

  datatype Event = Click | Frame(val: real)

  /** The effect of one event on the view's state. */
  function Step(n: int, s: ViewState, e: Event): ViewState
    requires n > 0
  {
    match e
    case Click => Advance(n, s)
    case Frame(val) => Update(n, s, val)
  }

  /** The state after delivering `evs` in order, starting from `s`. */
  function Run(n: int, s: ViewState, evs: seq<Event>): ViewState
    requires n > 0
    decreases |evs|
  {
    if evs == [] then s else Run(n, Step(n, s, evs[0]), evs[1..])
  }

  /** Number of clicks in a trace. */
  function Clicks(evs: seq<Event>): nat
  {
    if evs == [] then 0 else (if evs[0].Click? then 1 else 0) + Clicks(evs[1..])
  }

  /** Number of committing frames (progress at least 1) in a trace. */
  function Commits(evs: seq<Event>): nat
  {
    if evs == [] then 0
    else (if evs[0].Frame? && evs[0].val >= 1.0 then 1 else 0) + Commits(evs[1..])
  }

  /** `k` sweeps that each run to the end: a click, then its final frame. */
  function Rounds(k: nat): seq<Event>
  {
    if k == 0 then [] else Rounds(k - 1) + [Click, Frame(1.0)]
  }

  /** `k` clicks with no frames in between. */
  function ClicksOnly(k: nat): seq<Event>
  {
    if k == 0 then [] else ClicksOnly(k - 1) + [Click]
  }

  /** Reducing a summand modulo n first does not change the sum's remainder. */
  lemma {:induction false} ModAdd(a: int, b: int, n: int)
    requires n > 0 && 0 <= a
    ensures (a % n + b) % n == (a + b) % n
  {
    var q := a / n;
    assert a == q * n + a % n;
    ModShift(a % n + b, q, n);
  }

  /** Running two traces one after the other is running their concatenation. */
  lemma {:induction false} RunAppend(n: int, s: ViewState, a: seq<Event>, b: seq<Event>)
    requires n > 0
    ensures Run(n, s, a + b) == Run(n, Run(n, s, a), b)
    decreases |a|
  {
    if a == [] {
      assert a + b == b;
    } else {
      assert (a + b)[0] == a[0];
      assert (a + b)[1..] == a[1..] + b;
      RunAppend(n, Step(n, s, a[0]), a[1..], b);
    }
  }

  /** Clicks and commits count additively over concatenation. */
  lemma {:induction false} CountsAppend(a: seq<Event>, b: seq<Event>)
    ensures Clicks(a + b) == Clicks(a) + Clicks(b)
    ensures Commits(a + b) == Commits(a) + Commits(b)
    decreases |a|
  {
    if a == [] {
      assert a + b == b;
    } else {
      assert (a + b)[0] == a[0];
      assert (a + b)[1..] == a[1..] + b;
      CountsAppend(a[1..], b);
    }
  }

  /** Every event keeps both selections valid positions. */
  lemma {:induction false} RunStaysInRange(n: int, s: ViewState, evs: seq<Event>)
    requires n > 0 && InRange(n, s)
    ensures InRange(n, Run(n, s, evs))
    decreases |evs|
  {
    if evs != [] {
      var t := Step(n, s, evs[0]);
      assert InRange(n, t) by {
        if evs[0].Click? { AdvanceNext(n, s); } else { UpdateStaysInRange(n, s, evs[0].val); }
      }
      RunStaysInRange(n, t, evs[1..]);
    }
  }

  /**
   * The arc's start only moves at commits, by one truncated slot each,
   * whatever clicks and intermediate frames come in between.
   */
  lemma {:induction false} RunStartAngle(n: int, s: ViewState, evs: seq<Event>)
    requires n > 0
    ensures Run(n, s, evs).startAngle == s.startAngle + Commits(evs) * SlotDegrees(n)
    decreases |evs|
  {
    if evs != [] {
      var t := Step(n, s, evs[0]);
      RunStartAngle(n, t, evs[1..]);
      if evs[0].Frame? && evs[0].val >= 1.0 {
        assert t.startAngle == s.startAngle + SlotDegrees(n);
      } else {
        assert t.startAngle == s.startAngle;
      }
    }
  }

  /** The target selection is the start plus the number of clicks, modulo n. */
  lemma {:induction false} RunActive(n: int, s: ViewState, evs: seq<Event>)
    requires n > 0 && InRange(n, s)
    ensures Run(n, s, evs).active == (s.active + Clicks(evs)) % n
    decreases |evs|
  {
    if evs != [] {
      var t := Step(n, s, evs[0]);
      if evs[0].Click? {
        AdvanceNext(n, s);
        RunActive(n, t, evs[1..]);
        ModAdd(s.active + 1, Clicks(evs[1..]), n);
      } else {
        UpdateStaysInRange(n, s, evs[0].val);
        RunActive(n, t, evs[1..]);
      }
    }
  }

  /**
   * From the initial state, after any trace with k commits the arc starts
   * at 9 * (360/N) + k * (360/N) degrees; for the default 12 positions,
   * at 270 + 30 * k.
   */
  lemma StartAngleFromInit(n: int, evs: seq<Event>)
    requires n > 0
    ensures Run(n, Init(n), evs).startAngle == (9 + Commits(evs)) * SlotDegrees(n)
    ensures n == DefaultSelectionCount ==> Run(n, Init(n), evs).startAngle == 270 + 30 * Commits(evs)
  {
    RunStartAngle(n, Init(n), evs);
  }

  /** N clicks bring the target back to where it was, and touch no sweep field. */
  lemma {:induction false} ClicksCycle(n: int, s: ViewState)
    requires n > 0 && InRange(n, s)
    ensures Run(n, s, ClicksOnly(n)).active == s.active
    ensures Run(n, s, ClicksOnly(n)).last == s.last
    ensures Run(n, s, ClicksOnly(n)).startAngle == s.startAngle
    ensures Run(n, s, ClicksOnly(n)).sweepAngle == s.sweepAngle
    ensures Run(n, s, ClicksOnly(n)).animAngle == s.animAngle
  {
    ClicksOnlyCounts(n);
    RunActive(n, s, ClicksOnly(n));
    ModUnique(s.active + n, 1, s.active, n);
    ClicksKeepSweep(n, s, n);
  }

  /** A run of clicks counts its clicks and commits nothing. */
  lemma {:induction false} ClicksOnlyCounts(k: nat)
    ensures Clicks(ClicksOnly(k)) == k && Commits(ClicksOnly(k)) == 0
  {
    if k > 0 {
      ClicksOnlyCounts(k - 1);
      CountsAppend(ClicksOnly(k - 1), [Click]);
    }
  }

  /** Clicks alone leave every field of the sweep as it was. */
  lemma {:induction false} ClicksKeepSweep(n: int, s: ViewState, k: nat)
    requires n > 0
    ensures Run(n, s, ClicksOnly(k)).last == s.last
    ensures Run(n, s, ClicksOnly(k)).startAngle == s.startAngle
    ensures Run(n, s, ClicksOnly(k)).sweepAngle == s.sweepAngle
    ensures Run(n, s, ClicksOnly(k)).animAngle == s.animAngle
  {
    if k > 0 {
      ClicksKeepSweep(n, s, k - 1);
      RunAppend(n, s, ClicksOnly(k - 1), [Click]);
      var t := Run(n, s, ClicksOnly(k - 1));
      assert Run(n, t, [Click]) == Advance(n, t);
    }
  }

  /**
   * After k complete sweeps from the initial state the view is settled on
   * position k mod N: both selections agree, the marker stands on that
   * position, the arc is empty and its start has moved k slots.
   */
  lemma {:induction false} RoundsSettle(n: int, k: nat)
    requires n > 0
    ensures var s := Run(n, Init(n), Rounds(k));
      s.active == k % n && s.last == k % n &&
      s.animAngle == PositionAngle(k % n) &&
      s.startAngle == (9 + k) * SlotDegrees(n) &&
      (k > 0 ==> s.sweepAngle == 0.0)
  {
    if k > 0 {
      RoundsSettle(n, k - 1);
      var s := Run(n, Init(n), Rounds(k - 1));
      RunStaysInRange(n, Init(n), Rounds(k - 1));
      RunAppend(n, Init(n), Rounds(k - 1), [Click, Frame(1.0)]);
      AdvanceNext(n, s);
      var a := Advance(n, s);
      assert Run(n, s, [Click, Frame(1.0)]) == Update(n, a, 1.0) by {
        assert [Click, Frame(1.0)][1..] == [Frame(1.0)];
        assert [Frame(1.0)][1..] == [];
      }
      assert a.active == k % n by {
        ModAdd(k - 1, 1, n);
      }
      assert (9 + (k - 1)) * SlotDegrees(n) + SlotDegrees(n) == (9 + k) * SlotDegrees(n);
    }
  }

  /**
   * When N divides 360, after complete sweeps the arc starts exactly where
   * the marker stands, up to whole turns of 360 degrees: the marker's angle,
   * converted to degrees, is (9 + last) slots of 360/N degrees each.
   */
  lemma {:induction false} ArcFollowsMarker(n: int, k: nat)
    requires n > 0 && 360 % n == 0
    ensures var s := Run(n, Init(n), Rounds(k));
      (s.startAngle - (9 + s.last) * SlotDegrees(n)) % 360 == 0
    ensures var s := Run(n, Init(n), Rounds(k));
      SlotsToDegrees(n, s.animAngle) == ((9 + s.last) * SlotDegrees(n)) as real
  {
    RoundsSettle(n, k);
    var d := SlotDegrees(n);
    FullTurnIsCircle(n);
    var q := k / n;
    assert k == q * n + k % n;
    assert (9 + k) * d - (9 + k % n) * d == (q * n) * d;
    assert (q * n) * d == q * (n * d) == q * 360;
    ModShift(0, q, 360);
    SlotsToDegreesExact(n, 9 + k % n);
  }

  /**
   * After N complete sweeps the marker is back at position 0 but the arc's
   * start has moved N * (360/N) degrees, a full circle exactly when N
   * divides 360 and short of one otherwise.
   */
  lemma {:induction false} FullTurnDrift(n: int)
    requires n > 0
    ensures var s := Run(n, Init(n), Rounds(n));
      s.active == 0 && s.last == 0 && s.animAngle == PositionAngle(0) &&
      s.startAngle - Init(n).startAngle == n * SlotDegrees(n) &&
      (s.startAngle - Init(n).startAngle == 360 <==> 360 % n == 0) &&
      s.startAngle - Init(n).startAngle <= 360
  {
    RoundsSettle(n, n);
    FullTurnIsCircle(n);
    assert (9 + n) * SlotDegrees(n) - 9 * SlotDegrees(n) == n * SlotDegrees(n);
  }
}
