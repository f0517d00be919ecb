/**
 * The particle background. Each frame, unless the document is hidden, every
 * particle is pushed away from the pointer when it is strictly between 0 and
 * 100 px from it, damped, moved, and wrapped back onto the canvas; then every
 * unordered pair closer than 120 px is joined by a line whose opacity fades
 * with distance.
 *
 * `Math.sqrt` is not modelled: every distance is an input, tied to the
 * coordinates by `IsDistance`. `Math.random` is not modelled either: the
 * constructor takes the six draws in [0, 1) as inputs.
 */
module Particles {

  const RepelDistance: real := 100.0
  const ConnectionDistance: real := 120.0
  const Damping: real := 0.99
  const RepelGain: real := 0.5
  /** Opacity of a line between two coincident particles. */
  const LineDim: real := 0.15
  /** Viewport width below which the page counts as mobile. */
  const MobileBreakpoint := 768

  /** Fewer particles on a narrow viewport, decided once at load. */
  function ParticleCount(innerWidth: int): (n: nat)
    ensures n == 30 || n == 60
    ensures n == 30 <==> innerWidth < MobileBreakpoint
  {
    if innerWidth < MobileBreakpoint then 30 else 60
  }

  datatype Motion = Motion(x: real, y: real, vx: real, vy: real)

  /** `dist` is the Euclidean length of `(dx, dy)`. */
  predicate IsDistance(dx: real, dy: real, dist: real) {
    dist >= 0.0 && dist * dist == dx * dx + dy * dy
  }

  predicate InBounds(m: Motion, width: nat, height: nat) {
    0.0 <= m.x <= width as real && 0.0 <= m.y <= height as real
  }

  /**
   * The two wrap-around tests on one coordinate: below zero jumps to the far
   * edge, then beyond the far edge jumps to zero. The result is in the closed
   * range [0, bound], and a negative coordinate lands exactly on the bound.
   */
  function Wrap(c: real, bound: nat): (r: real)
    ensures 0.0 <= r <= bound as real
    ensures 0.0 <= c <= bound as real ==> r == c
    ensures c < 0.0 ==> r == bound as real
    ensures c > bound as real ==> r == 0.0
  {
    var afterLow := if c < 0.0 then bound as real else c;
    if afterLow > bound as real then 0.0 else afterLow
  }

  /** The pointer's push on a particle displaced by `(dx, dy)` at distance `dist`. */
  function Impulse(dx: real, dy: real, dist: real): (r: (real, real))
    ensures !(0.0 < dist < RepelDistance) ==> r == (0.0, 0.0)
  {
    if dist < RepelDistance && dist > 0.0 then
      var force := (RepelDistance - dist) / RepelDistance;
      ((dx / dist) * force * RepelGain, (dy / dist) * force * RepelGain)
    else (0.0, 0.0)
  }

  /** The velocity after the repel and the damping; outside the band only the damping acts. */
  function Velocity(m: Motion, mouseX: real, mouseY: real, dist: real): (v: (real, real))
    ensures !(0.0 < dist < RepelDistance) ==> v == (m.vx * Damping, m.vy * Damping)
  {
    var imp := Impulse(m.x - mouseX, m.y - mouseY, dist);
    ((m.vx + imp.0) * Damping, (m.vy + imp.1) * Damping)
  }

  /** `Particle.update`: repel, damp, move, wrap. */
  function Step(m: Motion, mouseX: real, mouseY: real, dist: real, width: nat, height: nat): (r: Motion)
    ensures InBounds(r, width, height)
  {
    var v := Velocity(m, mouseX, mouseY, dist);
    Motion(Wrap(m.x + v.0, width), Wrap(m.y + v.1, height), v.0, v.1)
  }

  /** Outside the band 0 < dist < 100 the pointer has no effect: the velocity is only damped. */
  lemma NoRepelOutsideBand(m: Motion, mouseX: real, mouseY: real, dist: real, width: nat, height: nat)
    requires !(0.0 < dist < RepelDistance)
    ensures var r := Step(m, mouseX, mouseY, dist, width, height);
      r.vx == m.vx * Damping && r.vy == m.vy * Damping
  {
  }

  /**
   * Inside the band the velocity change points away from the pointer: its dot
   * product with the displacement from the pointer is positive. In particular
   * the velocity is then not merely damped.
   */
  lemma RepelPushesAway(m: Motion, mouseX: real, mouseY: real, dist: real, width: nat, height: nat)
    requires IsDistance(m.x - mouseX, m.y - mouseY, dist)
    requires 0.0 < dist < RepelDistance
    ensures var r := Step(m, mouseX, mouseY, dist, width, height);
      (r.vx - m.vx * Damping) * (m.x - mouseX) + (r.vy - m.vy * Damping) * (m.y - mouseY) > 0.0
  {
    var dx, dy := m.x - mouseX, m.y - mouseY;
    var force := (RepelDistance - dist) / RepelDistance;
    var u := force * RepelGain / dist;
    assert u > 0.0;
    var (ix, iy) := Impulse(dx, dy, dist);
    assert ix == dx * u && iy == dy * u;
    var r := Step(m, mouseX, mouseY, dist, width, height);
    assert r.vx - m.vx * Damping == ix * Damping;
    assert r.vy - m.vy * Damping == iy * Damping;
    calc {
      (r.vx - m.vx * Damping) * dx + (r.vy - m.vy * Damping) * dy;
      (dx * dx + dy * dy) * (u * Damping);
      (dist * dist) * (u * Damping);
    }
    assert dist * dist > 0.0;
  }

  /** With the true distance, the pointer changes more than damping exactly inside the band. */
  lemma RepelExactlyInBand(m: Motion, mouseX: real, mouseY: real, dist: real, width: nat, height: nat)
    requires IsDistance(m.x - mouseX, m.y - mouseY, dist)
    ensures var r := Step(m, mouseX, mouseY, dist, width, height);
      (r.vx == m.vx * Damping && r.vy == m.vy * Damping) <==> !(0.0 < dist < RepelDistance)
  {
    if 0.0 < dist < RepelDistance {
      RepelPushesAway(m, mouseX, mouseY, dist, width, height);
    }
  }

  function Pow(b: real, k: nat): real {
    if k == 0 then 1.0 else b * Pow(b, k - 1)
  }

  /** Consecutive updates, with the pointer distance of each given in `dists`. */
  function Steps(m: Motion, mouseX: real, mouseY: real, dists: seq<real>, width: nat, height: nat): Motion
    decreases |dists|
  {
    if dists == [] then m else Steps(Step(m, mouseX, mouseY, dists[0], width, height), mouseX, mouseY, dists[1..], width, height)
  }

  /** A velocity component damped `k` times, one 0.99 factor per update. */
  function Damped(v: real, k: nat): real
    decreases k
  {
    if k == 0 then v else Damped(v * Damping, k - 1)
  }

  lemma {:induction false} DampedIsPower(v: real, k: nat)
    ensures Damped(v, k) == v * Pow(Damping, k)
    decreases k
  {
    if k > 0 {
      DampedIsPower(v * Damping, k - 1);
      assert (v * Damping) * Pow(Damping, k - 1) == v * (Damping * Pow(Damping, k - 1));
    }
  }

  /**
   * Away from the pointer the velocity decays geometrically: `k` updates
   * damp each component `k` times, which `DampedIsPower` shows is a factor of 0.99^k.
   */
  lemma {:induction false} StepsOnlyDamp(m: Motion, mouseX: real, mouseY: real, dists: seq<real>, width: nat, height: nat)
    requires forall k :: 0 <= k < |dists| ==> !(0.0 < dists[k] < RepelDistance)
    ensures Steps(m, mouseX, mouseY, dists, width, height).vx == Damped(m.vx, |dists|)
    ensures Steps(m, mouseX, mouseY, dists, width, height).vy == Damped(m.vy, |dists|)
    decreases |dists|
  {
    if dists != [] {
      NoRepelOutsideBand(m, mouseX, mouseY, dists[0], width, height);
      StepsOnlyDamp(Step(m, mouseX, mouseY, dists[0], width, height), mouseX, mouseY, dists[1..], width, height);
    }
  }

  // ---------------------------------------------------------------------------
  // Connections

  /** A line drawn between particles `i` and `j`. */
  datatype Line = Line(i: nat, j: nat, opacity: real)

  /** The opacity of a line between particles `dist` apart: at most 0.15, and positive below 120 px. */
  function LineOpacity(dist: real): (o: real)
    ensures 0.0 <= dist ==> o <= LineDim
    ensures dist < ConnectionDistance ==> 0.0 < o
  {
    (1.0 - dist / ConnectionDistance) * LineDim
  }

  /** Lines fade with distance: strictly, from 0.15 for coincident particles to 0 at 120 px. */
  lemma OpacityFades(near: real, far: real)
    ensures near < far ==> LineOpacity(far) < LineOpacity(near)
    ensures LineOpacity(0.0) == LineDim && LineOpacity(ConnectionDistance) == 0.0
  {
    assert LineOpacity(near) - LineOpacity(far) == (far - near) / ConnectionDistance * LineDim;
  }

  /** A distance matrix: one row per particle, one entry per particle. */
  predicate Square(d: seq<seq<real>>) {
    forall a :: 0 <= a < |d| ==> |d[a]| == |d|
  }

  /** The lines of row `i` of the pair loop with the inner index below `j`. */
  function RowLines(d: seq<seq<real>>, i: nat, j: nat): (ls: seq<Line>)
    requires Square(d) && i < |d| && j <= |d|
    ensures |ls| <= if j <= i + 1 then 0 else j - i - 1
    decreases j
  {
    if j <= i + 1 then []
    else
      var last := if d[i][j - 1] < ConnectionDistance then [Line(i, j - 1, LineOpacity(d[i][j - 1]))] else [];
      RowLines(d, i, j - 1) + last
  }

  /** The lines of the rows below `i`: at most one per particle in each of those rows. */
  function AllLines(d: seq<seq<real>>, i: nat): (ls: seq<Line>)
    requires Square(d) && i <= |d|
    ensures |ls| <= i * |d|
  {
    if i == 0 then [] else AllLines(d, i - 1) + RowLines(d, i - 1, |d|)
  }

  /** `drawConnections`: the nested loop over pairs `i < j`. */
  method DrawConnections(d: seq<seq<real>>) returns (lines: seq<Line>)
    requires Square(d)
    ensures lines == AllLines(d, |d|)
  {
    var n := |d|;
    lines := [];
    var i := 0;
    while i < n
      invariant 0 <= i <= n
      invariant lines == AllLines(d, i)
    {
      var row := [];
      var j := i + 1;
      while j < n
        invariant i + 1 <= j <= n
        invariant row == RowLines(d, i, j)
      {
        if d[i][j] < ConnectionDistance {
          row := row + [Line(i, j, LineOpacity(d[i][j]))];
        }
        j := j + 1;
      }
      lines := lines + row;
      i := i + 1;
    }
  }

  /** A line joins a pair `i < j` closer than the threshold, with the opacity for that distance. */
  predicate Good(d: seq<seq<real>>, l: Line)
    requires Square(d)
  {
    l.i < l.j < |d| && d[l.i][l.j] < ConnectionDistance && l.opacity == LineOpacity(d[l.i][l.j])
  }

  /** Pair order of the loop: by `i`, then by `j`. */
  predicate Before(a: Line, b: Line) {
    a.i < b.i || (a.i == b.i && a.j < b.j)
  }

  /** Particles `a < b` are closer than the connection distance. */
  predicate Close(d: seq<seq<real>>, a: nat, b: nat)
    requires Square(d)
  {
    a < b < |d| && d[a][b] < ConnectionDistance
  }

  /** Every line is good. */
  predicate AllGood(d: seq<seq<real>>, ls: seq<Line>)
    requires Square(d)
  {
    forall p :: 0 <= p < |ls| ==> Good(d, ls[p])
  }

  /** Every line starts at particle `i` and ends below `j`. */
  predicate InRow(ls: seq<Line>, i: nat, j: nat) {
    forall p :: 0 <= p < |ls| ==> ls[p].i == i && ls[p].j < j
  }

  /** Every line starts below `i`. */
  predicate RowsBelow(ls: seq<Line>, i: nat) {
    forall p :: 0 <= p < |ls| ==> ls[p].i < i
  }

  /** The lines come in strict pair order. */
  predicate InPairOrder(ls: seq<Line>) {
    forall p, q :: 0 <= p < q < |ls| ==> Before(ls[p], ls[q])
  }

  /** Every line of row `i` below `j` is a good line. */
  lemma {:induction false} RowGood(d: seq<seq<real>>, i: nat, j: nat)
    requires Square(d) && i < |d| && j <= |d|
    ensures AllGood(d, RowLines(d, i, j))
    decreases j
  {
    if j > i + 1 {
      var ls := RowLines(d, i, j);
      var front := RowLines(d, i, j - 1);
      RowGood(d, i, j - 1);
      forall p | 0 <= p < |ls| ensures Good(d, ls[p]) {
        if p < |front| {
          assert ls[p] == front[p];
        }
      }
    }
  }

  /** Every line of row `i` below `j` starts at `i` and ends below `j`. */
  lemma {:induction false} RowIn(d: seq<seq<real>>, i: nat, j: nat)
    requires Square(d) && i < |d| && j <= |d|
    ensures InRow(RowLines(d, i, j), i, j)
    decreases j
  {
    if j > i + 1 {
      var ls := RowLines(d, i, j);
      var front := RowLines(d, i, j - 1);
      RowIn(d, i, j - 1);
      forall p | 0 <= p < |ls| ensures ls[p].i == i && ls[p].j < j {
        if p < |front| {
          assert ls[p] == front[p];
        }
      }
    }
  }

  /** Row `i` lists its lines in increasing `j`. */
  lemma {:induction false} RowSorted(d: seq<seq<real>>, i: nat, j: nat)
    requires Square(d) && i < |d| && j <= |d|
    ensures InPairOrder(RowLines(d, i, j))
    decreases j
  {
    if j > i + 1 {
      var ls := RowLines(d, i, j);
      var front := RowLines(d, i, j - 1);
      RowSorted(d, i, j - 1);
      RowIn(d, i, j - 1);
      forall p, q | 0 <= p < q < |ls| ensures Before(ls[p], ls[q]) {
        assert ls[p] == front[p];
        if q < |front| {
          assert ls[q] == front[q];
        }
      }
    }
  }

  /** Row `i` below `j` holds every good line `(i, b)` with `b < j`. */
  lemma {:induction false} RowComplete(d: seq<seq<real>>, i: nat, j: nat, x: Line)
    requires Square(d) && i < |d| && j <= |d|
    requires x.i == i && x.j < j && Good(d, x)
    ensures x in RowLines(d, i, j)
    decreases j
  {
    var k: nat := j - 1;
    if x.j < k {
      RowComplete(d, i, k, x);
    }
  }

  /** Two batches of good lines are good lines. */
  lemma ConcatGood(d: seq<seq<real>>, front: seq<Line>, row: seq<Line>)
    requires Square(d) && AllGood(d, front) && AllGood(d, row)
    ensures AllGood(d, front + row)
  {
    var ls := front + row;
    forall p | 0 <= p < |ls| ensures Good(d, ls[p]) {
      if p < |front| {
        assert ls[p] == front[p];
      } else {
        assert ls[p] == row[p - |front|];
      }
    }
  }

  /** Lines from rows below `i`, followed by lines of row `i`, start in rows below `i + 1`. */
  lemma ConcatBelow(front: seq<Line>, row: seq<Line>, i: nat, n: nat)
    requires RowsBelow(front, i) && InRow(row, i, n)
    ensures RowsBelow(front + row, i + 1)
  {
    var ls := front + row;
    forall p | 0 <= p < |ls| ensures ls[p].i < i + 1 {
      if p < |front| {
        assert ls[p] == front[p];
      } else {
        assert ls[p] == row[p - |front|];
      }
    }
  }

  /** Every line of the rows below `i` is good. */
  lemma {:induction false} AllGoodLines(d: seq<seq<real>>, i: nat, ls: seq<Line>)
    requires Square(d) && i <= |d| && ls == AllLines(d, i)
    ensures AllGood(d, ls)
  {
    if i > 0 {
      var k: nat := i - 1;
      var n := |d|;
      var front := AllLines(d, k);
      var row := RowLines(d, k, n);
      AllGoodLines(d, k, front);
      RowGood(d, k, n);
      ConcatGood(d, front, row);
    }
  }

  /** Every line of the rows below `i` starts in one of those rows. */
  lemma {:induction false} AllBelow(d: seq<seq<real>>, i: nat, ls: seq<Line>)
    requires Square(d) && i <= |d| && ls == AllLines(d, i)
    ensures RowsBelow(ls, i)
  {
    if i > 0 {
      var k: nat := i - 1;
      var n := |d|;
      var front := AllLines(d, k);
      var row := RowLines(d, k, n);
      AllBelow(d, k, front);
      RowIn(d, k, n);
      ConcatBelow(front, row, k, n);
    }
  }

  /** Rows below `i` in pair order, followed by row `i` in pair order, are in pair order. */
  lemma ConcatSorted(front: seq<Line>, row: seq<Line>, i: nat, n: nat)
    requires InPairOrder(front) && RowsBelow(front, i)
    requires InPairOrder(row) && InRow(row, i, n)
    ensures InPairOrder(front + row)
  {
    var ls := front + row;
    forall p, q | 0 <= p < q < |ls| ensures Before(ls[p], ls[q]) {
      if q < |front| {
        assert ls[p] == front[p] && ls[q] == front[q];
      } else if p < |front| {
        assert ls[p] == front[p] && ls[q] == row[q - |front|];
      } else {
        assert ls[p] == row[p - |front|] && ls[q] == row[q - |front|];
      }
    }
  }

  /** The rows below `i` draw their lines in strict pair order. */
  lemma {:induction false} AllSorted(d: seq<seq<real>>, i: nat, ls: seq<Line>)
    requires Square(d) && i <= |d| && ls == AllLines(d, i)
    ensures InPairOrder(ls)
  {
    if i > 0 {
      var k: nat := i - 1;
      var n := |d|;
      var front := AllLines(d, k);
      var row := RowLines(d, k, n);
      AllSorted(d, k, front);
      AllBelow(d, k, front);
      RowSorted(d, k, n);
      RowIn(d, k, n);
      ConcatSorted(front, row, k, n);
    }
  }

  /** The rows below `i` hold every good line that starts below `i`. */
  lemma {:induction false} AllComplete(d: seq<seq<real>>, i: nat, ls: seq<Line>, x: Line)
    requires Square(d) && i <= |d| && ls == AllLines(d, i)
    requires x.i < i && Good(d, x)
    ensures x in ls
  {
    var k: nat := i - 1;
    var n := |d|;
    var front := AllLines(d, k);
    var row := RowLines(d, k, n);
    assert ls == front + row;
    if x.i < k {
      AllComplete(d, k, front, x);
    } else {
      RowComplete(d, k, n, x);
    }
  }

  /**
   * The lines drawn in one frame: each joins a pair `i < j` closer than 120 px
   * with opacity `(1 - dist/120) * 0.15`; they come in strict pair order, so
   * no unordered pair is drawn twice; and every pair closer than 120 px gets
   * its line.
   */
  lemma ConnectionsCorrect(d: seq<seq<real>>)
    requires Square(d)
    ensures AllGood(d, AllLines(d, |d|))
    ensures InPairOrder(AllLines(d, |d|))
    ensures forall a: nat, b: nat :: Close(d, a, b) ==> Line(a, b, LineOpacity(d[a][b])) in AllLines(d, |d|)
  {
    AllGoodLines(d, |d|, AllLines(d, |d|));
    AllSorted(d, |d|, AllLines(d, |d|));
    forall a: nat, b: nat | Close(d, a, b)
      ensures Line(a, b, LineOpacity(d[a][b])) in AllLines(d, |d|)
    {
      AllComplete(d, |d|, AllLines(d, |d|), Line(a, b, LineOpacity(d[a][b])));
    }
  }

  /** With distances that are never negative, every line drawn has an opacity in (0, 0.15]. */
  lemma VisibleOpacity(d: seq<seq<real>>)
    requires Square(d)
    requires forall a, b :: 0 <= a < |d| && 0 <= b < |d| ==> d[a][b] >= 0.0
    ensures forall p :: 0 <= p < |AllLines(d, |d|)| ==> 0.0 < AllLines(d, |d|)[p].opacity <= LineDim
  {
    var ls := AllLines(d, |d|);
    AllGoodLines(d, |d|, AllLines(d, |d|));
    forall p | 0 <= p < |ls| ensures 0.0 < ls[p].opacity <= LineDim {
      assert Good(d, ls[p]);
    }
  }

  // ---------------------------------------------------------------------------
  // The particles and the field

  /** Six draws of `Math.random()`, each in [0, 1). */
  datatype Draws = Draws(x: real, y: real, vx: real, vy: real, radius: real, opacity: real)

  predicate InUnit(r: Draws) {
    && 0.0 <= r.x < 1.0 && 0.0 <= r.y < 1.0 && 0.0 <= r.vx < 1.0
    && 0.0 <= r.vy < 1.0 && 0.0 <= r.radius < 1.0 && 0.0 <= r.opacity < 1.0
  }

  /** A draw in [0, 1) scaled by a non-negative size lies in [0, size], and below it when the size is positive. */
  lemma ScaleInRange(u: real, size: real)
    requires 0.0 <= u < 1.0 && size >= 0.0
    ensures 0.0 <= u * size <= size
    ensures size > 0.0 ==> u * size < size
  {
    assert size - u * size == (1.0 - u) * size;
  }

  /** A draw in [0, 1) scaled to a canvas dimension. */
  function Scale(u: real, size: nat): (r: real)
    requires 0.0 <= u < 1.0
    ensures 0.0 <= r <= size as real
    ensures size > 0 ==> r < size as real
  {
    var s := size as real;
    ScaleInRange(u, s);
    u * s
  }

  class Particle {
    var x: real
    var y: real
    var vx: real
    var vy: real
    const radius: real
    const opacity: real

    function Current(): Motion
      reads this
    {
      Motion(x, y, vx, vy)
    }

    /** A particle anywhere on the canvas, with a small velocity, radius in [1, 3) and opacity in [0.1, 0.4). */
    constructor (width: nat, height: nat, r: Draws)
      requires InUnit(r)
      ensures InBounds(Current(), width, height)
      ensures width > 0 ==> x < width as real
      ensures height > 0 ==> y < height as real
      ensures -0.2 <= vx < 0.2 && -0.2 <= vy < 0.2
      ensures 1.0 <= radius < 3.0 && 0.1 <= opacity < 0.4
    {
      x := Scale(r.x, width);
      y := Scale(r.y, height);
      vx := (r.vx - 0.5) * 0.4;
      vy := (r.vy - 0.5) * 0.4;
      radius := r.radius * 2.0 + 1.0;
      opacity := r.opacity * 0.3 + 0.1;
    }

    method Update(mouseX: real, mouseY: real, dist: real, width: nat, height: nat)
      requires IsDistance(x - mouseX, y - mouseY, dist)
      modifies this
      ensures Current() == Step(old(Current()), mouseX, mouseY, dist, width, height)
    {
      var imp := Impulse(x - mouseX, y - mouseY, dist);
      vx := vx + imp.0;
      vy := vy + imp.1;
      vx := vx * Damping;
      vy := vy * Damping;
      x := x + vx;
      y := y + vy;
      if x < 0.0 { x := width as real; }
      if x > width as real { x := 0.0; }
      if y < 0.0 { y := height as real; }
      if y > height as real { y := 0.0; }
    }
  }

  predicate Distinct(ps: seq<Particle>) {
    forall a, b :: 0 <= a < b < |ps| ==> ps[a] != ps[b]
  }

  /** The canvas, the shared pointer position and the particles. */
  class Field {
    var particles: seq<Particle>
    var width: nat
    var height: nat
    var mouseX: real
    var mouseY: real

    ghost predicate Valid()
      reads this
    {
      Distinct(particles)
    }

    /** Positions and velocities of all particles. */
    function Motions(): (ms: seq<Motion>)
      reads this, set p | p in particles
      ensures |ms| == |particles| && forall k :: 0 <= k < |ms| ==> ms[k] == particles[k].Current()
    {
      seq(|particles|, k reads this, set p | p in particles requires 0 <= k < |particles| => particles[k].Current())
    }

    /** Sizing the canvas to the viewport and creating the particles for its width. */
    constructor (innerWidth: nat, innerHeight: nat, draws: seq<Draws>)
      requires |draws| == ParticleCount(innerWidth)
      requires forall k :: 0 <= k < |draws| ==> InUnit(draws[k])
      ensures Valid() && |particles| == ParticleCount(innerWidth)
      ensures width == innerWidth && height == innerHeight && mouseX == -1000.0 && mouseY == -1000.0
      ensures forall k :: 0 <= k < |particles| ==> fresh(particles[k]) && InBounds(particles[k].Current(), width, height)
    {
      width, height := innerWidth, innerHeight;
      mouseX, mouseY := -1000.0, -1000.0;
      particles := [];
      new;
      var k := 0;
      while k < |draws|
        invariant 0 <= k <= |draws| && |particles| == k
        invariant Valid() && width == innerWidth && height == innerHeight
        invariant mouseX == -1000.0 && mouseY == -1000.0
        invariant forall a :: 0 <= a < k ==> fresh(particles[a]) && InBounds(particles[a].Current(), width, height)
      {
        var p := new Particle(width, height, draws[k]);
        particles := particles + [p];
        k := k + 1;
      }
    }

    method OnMouseMove(clientX: real, clientY: real)
      modifies this`mouseX, this`mouseY
      ensures mouseX == clientX && mouseY == clientY
    {
      mouseX, mouseY := clientX, clientY;
    }

    /** Only the canvas size changes; particles keep their positions, even off the new canvas. */
    method OnResize(innerWidth: nat, innerHeight: nat)
      modifies this`width, this`height
      ensures width == innerWidth && height == innerHeight
    {
      width, height := innerWidth, innerHeight;
    }

    /** `d[a][b]` is the distance between particles `a` and `b` where they stand now. */
    predicate Measured(d: seq<seq<real>>)
      reads this, set p | p in particles
      requires |d| == |particles| && Square(d)
    {
      forall a, b :: 0 <= a < |d| && 0 <= b < |d| ==>
        IsDistance(particles[a].x - particles[b].x, particles[a].y - particles[b].y, d[a][b])
    }

    /**
     * `animateParticles` for one frame. `mouseDists[k]` is particle `k`'s
     * distance to the pointer, `pairDists[a][b]` the distance between
     * particles `a` and `b` after their update. A hidden document changes
     * nothing and draws nothing.
     */
    method Frame(hidden: bool, mouseDists: seq<real>, pairDists: seq<seq<real>>) returns (lines: seq<Line>)
      requires Valid() && |mouseDists| == |particles| && |pairDists| == |particles| && Square(pairDists)
      requires forall k :: 0 <= k < |particles| ==>
        IsDistance(particles[k].x - mouseX, particles[k].y - mouseY, mouseDists[k])
      modifies set p | p in particles
      ensures Valid()
      ensures hidden ==> lines == [] && Motions() == old(Motions())
      ensures !hidden ==> lines == AllLines(pairDists, |pairDists|)
      ensures !hidden ==> AllGood(pairDists, lines) && InPairOrder(lines)
      ensures !hidden ==> forall a: nat, b: nat :: Close(pairDists, a, b) ==> Line(a, b, LineOpacity(pairDists[a][b])) in lines
      ensures !hidden && Measured(pairDists) ==> forall p :: 0 <= p < |lines| ==> 0.0 < lines[p].opacity <= LineDim
      ensures !hidden ==> forall k :: 0 <= k < |particles| ==>
        particles[k].Current() == Step(old(particles[k].Current()), mouseX, mouseY, mouseDists[k], width, height)
        && InBounds(particles[k].Current(), width, height)
    {
      if hidden {
        return [];
      }
      var k := 0;
      while k < |particles|
        invariant 0 <= k <= |particles|
        invariant forall a :: 0 <= a < k ==>
          particles[a].Current() == Step(old(particles[a].Current()), mouseX, mouseY, mouseDists[a], width, height)
        invariant forall a :: k <= a < |particles| ==> particles[a].Current() == old(particles[a].Current())
      {
        particles[k].Update(mouseX, mouseY, mouseDists[k], width, height);
        k := k + 1;
      }
      lines := DrawConnections(pairDists);
      ConnectionsCorrect(pairDists);
      if Measured(pairDists) {
        MeasuredNonNegative(pairDists);
        VisibleOpacity(pairDists);
      }
    }

    /** A measured distance is never negative. */
    lemma MeasuredNonNegative(d: seq<seq<real>>)
      requires |d| == |particles| && Square(d) && Measured(d)
      ensures forall a, b :: 0 <= a < |d| && 0 <= b < |d| ==> d[a][b] >= 0.0
    {
      forall a, b | 0 <= a < |d| && 0 <= b < |d| ensures d[a][b] >= 0.0 {
        assert IsDistance(particles[a].x - particles[b].x, particles[a].y - particles[b].y, d[a][b]);
      }
    }
  }
}
