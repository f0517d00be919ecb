/**
 * The radar's entrance: the data polygon ("area") and the ten vertex dots
 * start collapsed at the centre; the first intersecting observer entry moves
 * them to their target points (a CSS transition animates the move) and sets
 * `radarAnimated`; the observer also stops observing. Later entries change
 * nothing. Target points come from each domain's level and angle and are
 * inputs here.
 */
module RadarEntrance {
  import opened RadarLayout
  import opened OneShot

  /** The degenerate polygon: every vertex at the centre. */
  function Collapsed(): (ps: seq<Point>)
    ensures |ps| == N && forall k :: 0 <= k < N ==> ps[k] == Centre
  {
    seq(N, _ => Centre)
  }

  class Chart {
    const targets: seq<Point>
    /** Vertices of the area polygon. */
    var area: seq<Point>
    /** Centre of each vertex dot. */
    const dots: array<Point>
    var radarAnimated: bool
    /** Whether the observer is still watching the radar. */
    var observing: bool

    ghost predicate Valid()
      reads this
    {
      |targets| == N && |area| == N && dots.Length == N
    }

    /** Everything sits at the centre until the entrance runs, and at the targets afterwards. */
    ghost predicate Placed()
      reads this, dots
      requires Valid()
    {
      if radarAnimated then area == targets && dots[..] == targets && !observing
      else area == Collapsed() && dots[..] == Collapsed() && observing
    }

    constructor (targets: seq<Point>)
      requires |targets| == N
      ensures Valid() && Placed() && fresh(dots) && this.targets == targets
      ensures !radarAnimated && observing
    {
      this.targets := targets;
      area := Collapsed();
      dots := new Point[N](_ => Centre);
      radarAnimated := false;
      observing := true;
      new;
      assert dots[..] == Collapsed();
    }

    /** The entrance itself: the polygon and every dot move to their targets. */
    method Animate()
      requires Valid()
      modifies this`area, this`radarAnimated, this`observing, dots
      ensures Valid() && radarAnimated && !observing
      ensures area == targets && dots[..] == targets
    {
      radarAnimated := true;
      area := targets;
      for i := 0 to N
        modifies dots
        invariant forall k :: 0 <= k < i ==> dots[k] == targets[k]
      {
        dots[i] := targets[i];
      }
      observing := false;
    }

    /** The observer's callback on one batch of entries (`true` for an intersecting entry). */
    method OnEntries(entries: seq<bool>)
      requires Valid() && Placed()
      modifies this`area, this`radarAnimated, this`observing, dots
      ensures Valid() && Placed()
      ensures radarAnimated == Deliver(old(radarAnimated), entries).flag
      ensures radarAnimated ==> area == targets && dots[..] == targets && !observing
      ensures Deliver(old(radarAnimated), entries).runs == 0 ==>
        area == old(area) && dots[..] == old(dots[..]) && observing == old(observing)
      ensures old(radarAnimated) ==>
        radarAnimated && area == old(area) && dots[..] == old(dots[..]) && observing == old(observing)
    {
      var k := 0;
      while k < |entries|
        invariant 0 <= k <= |entries|
        invariant Valid() && Placed()
        invariant old(radarAnimated) ==> radarAnimated
        invariant Deliver(old(radarAnimated), entries)
          == var rest := Deliver(radarAnimated, entries[k..]);
             Fired(rest.flag, rest.runs + if radarAnimated != old(radarAnimated) then 1 else 0)
        invariant radarAnimated == old(radarAnimated) ==>
          area == old(area) && dots[..] == old(dots[..]) && observing == old(observing)
      {
        assert entries[k..][1..] == entries[k + 1..];
        if entries[k] && !radarAnimated {
          Animate();
        }
        k := k + 1;
      }
    }
  }
}
