/**
 * Navigation bar auto-hide. A scroll event schedules at most one frame
 * callback (`updateNav`) through the `ticking` gate; the callback hides the
 * bar when the page scrolled down past 100 pixels and shows it otherwise.
 *
 * The host's frame queue is modelled by `scheduled`, the number of pending
 * `updateNav` callbacks; a frame runs one of them if there is one.
 */
module Nav {

  /** Scroll position below which the bar is never hidden. */
  const HideAfter: real := 100.0

  datatype NavState = NavState(lastScrollY: real, ticking: bool, hidden: bool, scheduled: nat)

  /** A scroll event, or an animation frame at which the page is scrolled to `scrollY`. */
  datatype Event = Scroll | Frame(scrollY: real)

  /** The rule applied by `updateNav`. */
  predicate HideRule(current: real, last: real): (b: bool)
    ensures current <= HideAfter ==> !b
    ensures current <= last ==> !b
  {
    current > last && current > HideAfter
  }

  /** The state at page load: the bar shown, nothing pending, and the gate closed. */
  function Start(scrollY: real): (r: NavState)
    ensures Gated(r) && !r.hidden && !r.ticking && r.lastScrollY == scrollY
  {
    NavState(scrollY, false, false, 0)
  }

  function Next(s: NavState, e: Event): (r: NavState)
    ensures r.scheduled <= s.scheduled + 1
  {
    match e
    case Scroll =>
      if !s.ticking then s.(ticking := true, scheduled := s.scheduled + 1) else s
    case Frame(y) =>
      if s.scheduled > 0 then
        NavState(y, false, HideRule(y, s.lastScrollY), s.scheduled - 1)
      else s
  }

  /** The state after a sequence of events. */
  function Replay(s: NavState, es: seq<Event>): NavState
    decreases |es|
  {
    if es == [] then s else Replay(Next(s, es[0]), es[1..])
  }

  /** The gate: an update is pending exactly when `ticking` is set, and never more than one. */
  predicate Gated(s: NavState) {
    s.scheduled == if s.ticking then 1 else 0
  }

  /** A scroll schedules an update only when none is pending; a frame with a pending update applies the rule. */
  lemma NextKeepsGate(s: NavState, e: Event)
    requires Gated(s)
    ensures Gated(Next(s, e))
    ensures e.Scroll? ==> Next(s, e).scheduled == 1 && (s.ticking ==> Next(s, e) == s)
    ensures e.Frame? && s.ticking ==>
      var r := Next(s, e);
      !r.ticking && r.lastScrollY == e.scrollY && (r.hidden <==> e.scrollY > s.lastScrollY && e.scrollY > HideAfter)
  {
  }

  /** From page load, any interleaving of scrolls and frames leaves at most one update pending. */
  lemma {:induction false} AtMostOnePending(s: NavState, es: seq<Event>)
    requires Gated(s)
    ensures Gated(Replay(s, es)) && Replay(s, es).scheduled <= 1
    decreases |es|
  {
    if es != [] {
      NextKeepsGate(s, es[0]);
      AtMostOnePending(Next(s, es[0]), es[1..]);
    }
  }

  /** However many scroll events arrive between two frames, one frame applies the rule once, to the latest position. */
  lemma {:induction false} ScrollBurst(s: NavState, k: nat, y: real)
    requires Gated(s)
    ensures var r := Replay(s, Bursts(k) + [Frame(y)]);
      k > 0 || s.ticking ==> r.lastScrollY == y && !r.ticking && r.scheduled == 0 && (r.hidden <==> HideRule(y, s.lastScrollY))
    decreases k
  {
    if k == 0 {
      assert Bursts(0) + [Frame(y)] == [Frame(y)];
    } else {
      assert Bursts(k) + [Frame(y)] == [Scroll] + (Bursts(k - 1) + [Frame(y)]);
      var s' := Next(s, Scroll);
      assert s'.lastScrollY == s.lastScrollY && s'.ticking;
      ScrollBurst(s', k - 1, y);
    }
  }

  /** `k` scroll events in a row. */
  function Bursts(k: nat): (es: seq<Event>)
    ensures |es| == k && forall i :: 0 <= i < k ==> es[i] == Scroll
  {
    if k == 0 then [] else [Scroll] + Bursts(k - 1)
  }

  /** The bar and the two closure variables of the page. */
  class NavBar {
    var lastScrollY: real
    var ticking: bool
    /** Whether the bar carries the hidden class. */
    var hidden: bool
    /** Pending `updateNav` callbacks in the host's frame queue. */
    var scheduled: nat

    function Current(): NavState
      reads this
    {
      NavState(lastScrollY, ticking, hidden, scheduled)
    }

    constructor (scrollY: real)
      ensures Current() == Start(scrollY) && Gated(Current())
    {
      lastScrollY, ticking, hidden, scheduled := scrollY, false, false, 0;
    }

    /** The passive scroll listener. */
    method OnScroll()
      modifies this
      ensures Current() == Next(old(Current()), Scroll)
      ensures Gated(old(Current())) ==> Gated(Current())
    {
      if !ticking {
        scheduled := scheduled + 1;
        ticking := true;
      }
    }

    /** `updateNav`, run by the host when a scheduled frame arrives. */
    method UpdateNav(currentScrollY: real)
      requires scheduled > 0
      modifies this
      ensures Current() == Next(old(Current()), Frame(currentScrollY))
      ensures hidden <==> currentScrollY > old(lastScrollY) && currentScrollY > HideAfter
      ensures Gated(old(Current())) ==> Gated(Current()) && scheduled == 0
    {
      scheduled := scheduled - 1;
      if currentScrollY > lastScrollY && currentScrollY > HideAfter {
        hidden := true;
      } else {
        hidden := false;
      }
      lastScrollY := currentScrollY;
      ticking := false;
    }

    /** An animation frame: runs the pending update if there is one. */
    method OnFrame(scrollY: real)
      modifies this
      ensures Current() == Next(old(Current()), Frame(scrollY))
    {
      if scheduled > 0 {
        UpdateNav(scrollY);
      }
    }
  }
}
