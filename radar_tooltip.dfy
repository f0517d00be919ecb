/**
 * The radar tooltip. `showTooltip(i)` fills the tooltip for domain `i`
 * (name, a row of ten level marks, skills), places it beside vertex `i`,
 * makes it visible and leaves label `i` as the only active label;
 * `hideTooltip` makes it invisible and deactivates every label.
 * Hovering a label or a dot shows, leaving hides, clicking a label toggles
 * (and stops the click from reaching the document). A click on a roadmap bar
 * that opens a case is stopped by the bar's own listener and leaves the
 * tooltip alone; any other click reaches the document's listener, which hides.
 */
module RadarTooltip {
  import opened RadarLayout

  /** Number of marks in the level row. */
  const Marks := 10

  /** Number of `true` entries. */
  function CountTrue(s: seq<bool>): (c: nat)
    ensures c <= |s|
    decreases |s|
  {
    if s == [] then 0 else CountTrue(s[..|s| - 1]) + if s[|s| - 1] then 1 else 0
  }

  function Clamp(v: int, lo: int, hi: int): int
    requires lo <= hi
  {
    if v < lo then lo else if v > hi then hi else v
  }

  /** The loop of `showTooltip` that builds the level row: mark `j` is filled exactly when `j < level`. */
  method BuildLevelMarks(level: int) returns (marks: seq<bool>)
    ensures |marks| == Marks
    ensures forall j :: 0 <= j < Marks ==> (marks[j] <==> j < level)
  {
    marks := [];
    var j := 0;
    while j < Marks
      invariant 0 <= j <= Marks && |marks| == j
      invariant forall k :: 0 <= k < j ==> (marks[k] <==> k < level)
    {
      marks := marks + [j < level];
      j := j + 1;
    }
  }

  /** A row whose mark `j` is filled exactly when `j < level` has `level` filled marks, clamped to the row. */
  lemma {:induction false} FilledCount(marks: seq<bool>, level: int)
    requires forall j :: 0 <= j < |marks| ==> (marks[j] <==> j < level)
    ensures CountTrue(marks) == Clamp(level, 0, |marks|)
    decreases |marks|
  {
    if marks != [] {
      FilledCount(marks[..|marks| - 1], level);
    }
  }

  /**
   * Where a pointer event lands. A dot has no click listener of its own, so a
   * click on it reaches the document. `OnCaseBar` is a roadmap bar with a
   * case, whose click listener stops propagation to open the case.
   */
  datatype Target = OnLabel(i: int) | OnDot(i: int) | OnCaseBar | Elsewhere

  /** The radar's own elements, which carry the hover listeners. */
  predicate OnRadar(t: Target) {
    t.OnLabel? || t.OnDot?
  }

  datatype Event = Enter(t: Target) | Leave(t: Target) | Click(t: Target)

  /** Events the page can deliver: hover events only on the ten labels and dots, clicks anywhere. */
  predicate WellFormed(e: Event) {
    match e
    case Enter(t) => OnRadar(t) && 0 <= t.i < N
    case Leave(t) => OnRadar(t) && 0 <= t.i < N
    case Click(t) => OnRadar(t) ==> 0 <= t.i < N
  }

  datatype TipState = Hidden | Shown(domain: int)

  /** A click: the target's own listener runs first; unless it stopped propagation, the document's listener hides. */
  function OnClick(s: TipState, t: Target): (r: TipState)
    ensures t.OnLabel? ==> (r.Shown? <==> s == Hidden) && (r.Shown? ==> r.domain == t.i)
    ensures t.OnCaseBar? ==> r == s
    ensures t.OnDot? || t.Elsewhere? ==> r == Hidden
  {
    var (afterTarget, stopped) :=
      match t
      case OnLabel(i) => (if s.Shown? then Hidden else Shown(i), true)
      case OnCaseBar => (s, true)
      case _ => (s, false);
    if stopped then afterTarget else Hidden
  }

  /** The listeners an event reaches; from a state showing one of the ten domains, any event the page delivers shows one of them or hides. */
  function OnEvent(s: TipState, e: Event): (r: TipState)
    ensures WellFormed(e) && (s.Shown? ==> 0 <= s.domain < N) ==> (r.Shown? ==> 0 <= r.domain < N)
  {
    match e
    case Enter(t) => if OnRadar(t) then Shown(t.i) else s
    case Leave(t) => if OnRadar(t) then Hidden else s
    case Click(t) => OnClick(s, t)
  }

  /** Clicking a label while the tooltip is visible hides it, whichever domain it shows; while hidden, shows that label's domain. */
  lemma LabelClickToggles(s: TipState, i: int)
    ensures s.Shown? ==> OnEvent(s, Click(OnLabel(i))) == Hidden
    ensures s == Hidden ==> OnEvent(s, Click(OnLabel(i))) == Shown(i)
  {
  }

  /**
   * A click never moves the tooltip from one domain to another: it shows a
   * domain from hidden only on that domain's label, and keeps one shown only
   * when a case bar stopped the click.
   */
  lemma ClickNeverSwitches(s: TipState, t: Target, k: int)
    requires OnEvent(s, Click(t)) == Shown(k)
    ensures s == Hidden ==> t == OnLabel(k)
    ensures s.Shown? ==> s == Shown(k) && t == OnCaseBar
  {
  }

  /** Hovering a label or dot replaces whatever is shown, without passing through hidden. */
  lemma HoverShows(s: TipState, t: Target)
    requires OnRadar(t)
    ensures OnEvent(s, Enter(t)) == Shown(t.i)
    ensures OnEvent(s, Leave(t)) == Hidden
  {
  }

  /** Whether event `e`, delivered in state `s`, runs `showTooltip`. */
  predicate Opens(s: TipState, e: Event) {
    || (e.Enter? && OnRadar(e.t))
    || (e.Click? && e.t.OnLabel? && s == Hidden)
  }

  /** Whether event `e`, delivered in state `s`, leaves domain `k` shown. */
  predicate Shows(s: TipState, e: Event, k: int) {
    || e == Enter(OnLabel(k)) || e == Enter(OnDot(k))
    || (e == Click(OnLabel(k)) && s == Hidden)
    || (e == Click(OnCaseBar) && s == Shown(k))
  }

  function Replay(s: TipState, es: seq<Event>): TipState
    decreases |es|
  {
    if es == [] then s else Replay(OnEvent(s, es[0]), es[1..])
  }

  lemma {:induction false} ReplayLast(s: TipState, es: seq<Event>)
    requires es != []
    ensures Replay(s, es) == OnEvent(Replay(s, es[..|es| - 1]), es[|es| - 1])
    decreases |es|
  {
    if |es| > 1 {
      ReplayLast(OnEvent(s, es[0]), es[1..]);
      assert es[1..][..|es| - 2] == es[..|es| - 1][1..];
    }
  }

  /**
   * After any non-empty sequence of events the tooltip shows domain `k`
   * exactly when the last event showed it: a hover on label or dot `k`, a
   * click on label `k` while the tooltip was hidden, or a click stopped by a
   * case bar while `k` was shown.
   */
  lemma ShownByLastEvent(s: TipState, es: seq<Event>, k: int)
    requires es != [] && WellFormed(es[|es| - 1])
    ensures Replay(s, es) == Shown(k) <==> Shows(Replay(s, es[..|es| - 1]), es[|es| - 1], k)
  {
    ReplayLast(s, es);
    var prev := Replay(s, es[..|es| - 1]);
    match es[|es| - 1]
    case Enter(t) =>
    case Leave(t) =>
    case Click(t) =>
      if OnEvent(prev, Click(t)) == Shown(k) {
        ClickNeverSwitches(prev, t, k);
      }
  }

  /** In a coherent state the tooltip is visible exactly when exactly one label is active. */
  predicate Coherent(visible: bool, domain: int, active: seq<bool>) {
    && (visible ==> 0 <= domain < |active| && forall k :: 0 <= k < |active| ==> (active[k] <==> k == domain))
    && (!visible ==> forall k :: 0 <= k < |active| ==> !active[k])
  }

  lemma {:induction false} OneActiveWhenVisible(visible: bool, domain: int, active: seq<bool>)
    requires Coherent(visible, domain, active)
    ensures CountTrue(active) == if visible then 1 else 0
    decreases |active|
  {
    if active != [] {
      var front := active[..|active| - 1];
      if visible && domain == |active| - 1 {
        OneActiveWhenVisible(false, domain, front);
      } else {
        OneActiveWhenVisible(visible, domain, front);
      }
    }
  }

  /** Layout measurements taken when the tooltip is shown: the chart wrapper's offset in the radar box, its scale, the box's width. */
  datatype Measure = Measure(offsetX: real, offsetY: real, scale: real, boxWidth: real)

  /**
   * Where the tooltip goes for a vertex at `p` (in view-box units): the vertex
   * is scaled and offset into the radar box, and the tooltip rises 20 px above
   * it and clears it by 16 px on the side away from the centre.
   */
  function PlaceFor(p: Point, m: Measure): (pl: Placement)
    ensures var tx, ty := m.offsetX + p.x * m.scale, m.offsetY + p.y * m.scale;
      && pl.top == ty - TooltipRise
      && (p.x > CX + Band ==> pl.setsLeft && pl.left == tx + TooltipGap)
      && (p.x < CX - Band ==> !pl.setsLeft && pl.right == m.boxWidth - tx + TooltipGap)
      && (CX - Band <= p.x <= CX + Band ==> pl.setsLeft && pl.left == tx)
  {
    TooltipPlacement(p, m.offsetX + p.x * m.scale, m.offsetY + p.y * m.scale, m.boxWidth)
  }

  /** The tooltip element and the labels' active flags. */
  class Tooltip {
    /** Level of each domain, and each domain's vertex (computed from its level and its angle). */
    const levels: seq<int>
    const targets: seq<Point>
    var visible: bool
    /** Whether label `k` carries the active class. */
    const active: array<bool>
    /** The domain whose name and skills the tooltip holds (-1 before it is first filled). */
    var domain: int
    var marks: seq<bool>
    var placement: Placement

    /** The sizes of the page, and the labels' active flags agreeing with the tooltip's visibility. */
    ghost predicate Valid()
      reads this, active
    {
      active.Length == N && |levels| == N && |targets| == N && Coherent(visible, domain, active[..])
    }

    function State(): TipState
      reads this
    {
      if visible then Shown(domain) else Hidden
    }

    constructor (levels: seq<int>, targets: seq<Point>)
      requires |levels| == N && |targets| == N
      ensures Valid() && fresh(active) && this.levels == levels && this.targets == targets
      ensures State() == Hidden && Coherent(visible, domain, active[..])
    {
      this.levels := levels;
      this.targets := targets;
      visible := false;
      active := new bool[N](_ => false);
      domain := -1;
      marks := [];
      placement := Placement(0.0, 0.0, true, 0.0);
    }

    method ShowTooltip(i: int, m: Measure)
      requires Valid() && 0 <= i < N
      modifies this, active
      ensures Valid() && visible && domain == i && State() == Shown(i)
      ensures Coherent(visible, domain, active[..])
      ensures |marks| == Marks && forall j :: 0 <= j < Marks ==> (marks[j] <==> j < levels[i])
      ensures placement == PlaceFor(targets[i], m)
    {
      domain := i;
      marks := BuildLevelMarks(levels[i]);
      placement := PlaceFor(targets[i], m);
      visible := true;
      for k := 0 to active.Length
        modifies active
        invariant forall j :: 0 <= j < k ==> !active[j]
      {
        active[k] := false;
      }
      active[i] := true;
    }

    method HideTooltip()
      requires Valid()
      modifies this`visible, active
      ensures Valid() && !visible && State() == Hidden
      ensures Coherent(visible, domain, active[..])
    {
      visible := false;
      for k := 0 to active.Length
        modifies active
        invariant forall j :: 0 <= j < k ==> !active[j]
      {
        active[k] := false;
      }
    }

    /** Delivers one event to the listeners it reaches. */
    method Handle(e: Event, m: Measure)
      requires Valid() && WellFormed(e)
      modifies this, active
      ensures Valid() && State() == OnEvent(old(State()), e)
      ensures Coherent(visible, domain, active[..])
      ensures Opens(old(State()), e) ==>
        && |marks| == Marks && (forall j :: 0 <= j < Marks ==> (marks[j] <==> j < levels[domain]))
        && placement == PlaceFor(targets[domain], m)
      ensures !Opens(old(State()), e) ==>
        marks == old(marks) && placement == old(placement) && domain == old(domain)
    {
      match e
      case Enter(t) =>
        ShowTooltip(t.i, m);
      case Leave(t) =>
        HideTooltip();
      case Click(t) =>
        var stopped := false;
        if t.OnLabel? {
          stopped := true;
          if visible {
            HideTooltip();
          } else {
            ShowTooltip(t.i, m);
          }
        } else if t.OnCaseBar? {
          stopped := true;
        }
        if !stopped {
          HideTooltip();
        }
    }
  }
}
