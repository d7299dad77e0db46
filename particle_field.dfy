/** The ambient particle field drawn behind the page: generation of a particle set sized to the
    drawing surface, and the per-frame step that moves every particle, bounces it off the
    surface edges and examines every unordered pair of particles for a connecting line.

    Randomness, the pointer attraction and pair distances are inputs: `Math.random` is a stream
    of draws in [0, 1), the square-root based pointer force is a `Pull` and the Euclidean
    distance is a `Metric`. */
module ParticleField {
  import opened Wrappers

  /** Surface area, in square pixels, allotted to one particle. */
  const AreaPerParticle: nat := 15000

  /** Pairs closer than this many pixels are joined by a line. */
  const LinkRange: real := 80.0

  /** Opacity of the line joining two particles at the same spot. */
  const MaxLinkAlpha: real := 0.1

  /** One dot of the field. `size` is its radius and `opacity` its fill alpha; neither ever
      changes after creation. */
  datatype Particle = Particle(id: nat, x: real, y: real, vx: real, vy: real, size: real, opacity: real)

  /** The velocity change the pointer at (mouseX, mouseY) gives a particle at (x, y). */
  type Pull = (real, real, real, real) -> (real, real)

  /** The distance between the points (x1, y1) and (x2, y2). */
  type Metric = (real, real, real, real) -> real

  /** What one frame reads besides the particles: the surface size and the pointer. */
  datatype Env = Env(width: real, height: real, mouseX: real, mouseY: real, pull: Pull)

  // ---------------------------------------------------------------------------------------
  // Generation

  /** floor(width * height / 15000), the size of a generation. */
  function ParticleCount(width: nat, height: nat): (n: nat)
    ensures n * AreaPerParticle <= width * height < (n + 1) * AreaPerParticle
  {
    width * height / AreaPerParticle
  }

  /** A stream of draws from [0, 1), standing for successive calls of `Math.random`. */
  ghost predicate UnitDraws(random: nat -> real)
  {
    forall k: nat :: 0.0 <= random(k) < 1.0
  }

  /** Particle `i` of a generation. It uses draws 6i to 6i+5, in the order the source calls
      `Math.random`: x, y, vx, vy, size, opacity. */
  function Spawn(i: nat, width: nat, height: nat, random: nat -> real): Particle
  {
    Particle(i,
             random(6 * i) * width as real,
             random(6 * i + 1) * height as real,
             (random(6 * i + 2) - 0.5) * 0.5,
             (random(6 * i + 3) - 0.5) * 0.5,
             random(6 * i + 4) * 2.0 + 1.0,
             random(6 * i + 5) * 0.5 + 0.2)
  }

  /** The particle set `createParticles` builds for a surface of the given size. */
  function Generation(width: nat, height: nat, random: nat -> real): seq<Particle>
  {
    seq(ParticleCount(width, height), i requires 0 <= i => Spawn(i, width, height, random))
  }

  /** Ids equal positions: 0, 1, ..., n-1 in order. */
  ghost predicate IdsAreIndices(ps: seq<Particle>)
  {
    forall i :: 0 <= i < |ps| ==> ps[i].id == i
  }

  /** The ranges a fresh particle is drawn from. */
  ghost predicate FreshlyDrawn(p: Particle, width: nat, height: nat)
  {
    && 0.0 <= p.x < width as real
    && 0.0 <= p.y < height as real
    && -0.25 <= p.vx < 0.25
    && -0.25 <= p.vy < 0.25
    && 1.0 <= p.size < 3.0
    && 0.2 <= p.opacity < 0.7
  }

  lemma GenerationShape(width: nat, height: nat, random: nat -> real)
    ensures |Generation(width, height, random)| == ParticleCount(width, height)
    ensures IdsAreIndices(Generation(width, height, random))
  {
  }

  /** A particle drawn for a surface with positive sides lies on that surface and has its
      velocity, radius and opacity in the drawn ranges. */
  lemma SpawnRanges(i: nat, width: nat, height: nat, random: nat -> real)
    requires UnitDraws(random) && width > 0 && height > 0
    ensures FreshlyDrawn(Spawn(i, width, height, random), width, height)
  {
    var rx, ry := random(6 * i), random(6 * i + 1);
    assert 0.0 <= rx < 1.0 && 0.0 <= ry < 1.0;
    assert rx * width as real < 1.0 * width as real;
    assert ry * height as real < 1.0 * height as real;
    assert 0.0 <= random(6 * i + 2) < 1.0 && 0.0 <= random(6 * i + 3) < 1.0;
    assert 0.0 <= random(6 * i + 4) < 1.0 && 0.0 <= random(6 * i + 5) < 1.0;
  }

  /** Every particle of a generation is freshly drawn: a non-empty generation needs a surface
      of at least 15000 square pixels, so both sides are positive. */
  lemma GenerationRanges(width: nat, height: nat, random: nat -> real)
    requires UnitDraws(random)
    ensures forall p :: p in Generation(width, height, random) ==> FreshlyDrawn(p, width, height)
  {
    var ps := Generation(width, height, random);
    if |ps| > 0 {
      assert width * height >= AreaPerParticle;
      assert width > 0 && height > 0;
      forall i | 0 <= i < |ps|
        ensures FreshlyDrawn(ps[i], width, height)
      {
        SpawnRanges(i, width, height, random);
      }
    }
  }

  /** The example surface of 800 by 600 pixels holds 32 particles. */
  lemma SurfaceScenario()
    ensures ParticleCount(800, 600) == 32
    ensures ParticleCount(1920, 1080) == 138
  {
  }

  // ---------------------------------------------------------------------------------------
  // Motion of one particle

  /** A coordinate that has left [0, limit]. */
  predicate Outside(c: real, limit: real)
  {
    c < 0.0 || c > limit
  }

  /** Position advances by one frame's velocity. */
  function Integrate(p: Particle): Particle
  {
    p.(x := p.x + p.vx, y := p.y + p.vy)
  }

  /** The velocity on an axis is negated when the position has left the surface on that
      axis; positions are never corrected. */
  function Reflect(p: Particle, width: real, height: real): Particle
  {
    p.(vx := if Outside(p.x, width) then -p.vx else p.vx,
       vy := if Outside(p.y, height) then -p.vy else p.vy)
  }

  /** One frame of one particle: integrate, reflect, then add the pointer's pull measured at
      the new position. */
  function Advance(p: Particle, env: Env): Particle
  {
    var m := Reflect(Integrate(p), env.width, env.height);
    var (dvx, dvy) := env.pull(env.mouseX, env.mouseY, m.x, m.y);
    m.(vx := m.vx + dvx, vy := m.vy + dvy)
  }

  /** A frame moves a particle by its velocity, flips each velocity component exactly when
      the new position is off the surface on that axis, and leaves id, radius and opacity
      alone. The two axes are independent. */
  lemma AdvanceEffect(p: Particle, env: Env)
    ensures var q := Advance(p, env);
      var (dvx, dvy) := env.pull(env.mouseX, env.mouseY, p.x + p.vx, p.y + p.vy);
      && q.x == p.x + p.vx && q.y == p.y + p.vy
      && q.vx - dvx == (if Outside(q.x, env.width) then -p.vx else p.vx)
      && q.vy - dvy == (if Outside(q.y, env.height) then -p.vy else p.vy)
      && q.id == p.id && q.size == p.size && q.opacity == p.opacity
  {
  }

  /** Reflection changes velocity only, never position. */
  lemma ReflectKeepsPosition(p: Particle, width: real, height: real)
    ensures Reflect(p, width, height).x == p.x && Reflect(p, width, height).y == p.y
    ensures Reflect(p, width, height).(vx := p.vx, vy := p.vy) == p
  {
  }

  /** A pointer far enough away to exert no pull. */
  ghost predicate NoPull(env: Env)
  {
    forall x: real, y: real :: env.pull(env.mouseX, env.mouseY, x, y) == (0.0, 0.0)
  }

  /** A particle that was on the surface and is carried off it past any of the four edges
      gets a velocity pointing back on along that axis; on an axis where it stays on, it
      keeps its velocity. */
  lemma ReflectionTurnsInward(p: Particle, env: Env)
    requires NoPull(env)
    requires 0.0 <= p.x <= env.width && 0.0 <= p.y <= env.height
    ensures var q := Advance(p, env);
      && (q.x < 0.0 ==> q.vx > 0.0)
      && (q.x > env.width ==> q.vx < 0.0)
      && (!Outside(q.x, env.width) ==> q.vx == p.vx)
      && (q.y < 0.0 ==> q.vy > 0.0)
      && (q.y > env.height ==> q.vy < 0.0)
      && (!Outside(q.y, env.height) ==> q.vy == p.vy)
  {
    assert env.pull(env.mouseX, env.mouseY, p.x + p.vx, p.y + p.vy) == (0.0, 0.0);
  }

  /** Without a pull, a particle that overshoots an edge, on either axis, is back at its
      previous coordinate on that axis one frame later, moving the other way: the overshoot
      lasts a single frame. */
  lemma OvershootLastsOneFrame(p: Particle, env: Env)
    requires NoPull(env)
    requires 0.0 <= p.x <= env.width && 0.0 <= p.y <= env.height
    ensures Outside(p.x + p.vx, env.width) ==>
      Advance(Advance(p, env), env).x == p.x && Advance(Advance(p, env), env).vx == -p.vx
    ensures Outside(p.y + p.vy, env.height) ==>
      Advance(Advance(p, env), env).y == p.y && Advance(Advance(p, env), env).vy == -p.vy
  {
    var q := Advance(p, env);
    assert env.pull(env.mouseX, env.mouseY, p.x + p.vx, p.y + p.vy) == (0.0, 0.0);
    assert env.pull(env.mouseX, env.mouseY, q.x + q.vx, q.y + q.vy) == (0.0, 0.0);
  }

  /** A particle drifting left at 0.3 pixels per frame from x = 5 is at 4.7 after one frame
      and at 4.4 after two, still on the surface, and keeps its velocity. */
  lemma DriftScenario(env: Env)
    requires NoPull(env) && env.width == 800.0 && env.height == 600.0
    ensures var q := Advance(Particle(0, 5.0, 300.0, -0.3, 0.0, 1.0, 0.5), env);
      var r := Advance(q, env);
      && q.x == 4.7 && q.vx == -0.3
      && r.x == 4.4 && r.vx == -0.3
  {
    assert env.pull(env.mouseX, env.mouseY, 4.7, 300.0) == (0.0, 0.0);
    assert env.pull(env.mouseX, env.mouseY, 4.4, 300.0) == (0.0, 0.0);
  }

  /** From x = 0.2 at the same speed the particle reaches -0.1, off the surface, so its
      velocity flips; the frame after, it is back at 0.2. */
  lemma BounceScenario(env: Env)
    requires NoPull(env) && env.width == 800.0 && env.height == 600.0
    ensures var q := Advance(Particle(0, 0.2, 300.0, -0.3, 0.0, 1.0, 0.5), env);
      var r := Advance(q, env);
      && q.x == -0.1 && q.vx == 0.3
      && r.x == 0.2 && r.vx == 0.3
  {
    assert env.pull(env.mouseX, env.mouseY, -0.1, 300.0) == (0.0, 0.0);
    assert env.pull(env.mouseX, env.mouseY, 0.2, 300.0) == (0.0, 0.0);
  }

  // ---------------------------------------------------------------------------------------
  // Pairs

  /** The opacity of the line between two particles `d` pixels apart, or `None` when no line
      is drawn. */
  function LinkAlpha(d: real): (a: Option<real>)
    ensures a.Some? <==> d < LinkRange
    ensures a.Some? && 0.0 <= d ==> 0.0 < a.value <= MaxLinkAlpha
    ensures a.Some? && d == 0.0 ==> a.value == MaxLinkAlpha
  {
    if d < LinkRange then Some(MaxLinkAlpha * (1.0 - d / LinkRange)) else None
  }

  /** Nearer pairs get more opaque lines. */
  lemma {:induction false} LinkAlphaDecreasing(d1: real, d2: real)
    requires d1 < d2 < LinkRange
    ensures LinkAlpha(d1).value > LinkAlpha(d2).value
  {
    assert d1 / LinkRange < d2 / LinkRange;
  }

  /** The result of examining one pair: the ids of the two particles and the opacity of the
      line drawn between them, if any. */
  datatype Check = Check(first: nat, second: nat, alpha: Option<real>)

  function Examine(p: Particle, q: Particle, dist: Metric): Check
  {
    Check(p.id, q.id, LinkAlpha(dist(p.x, p.y, q.x, q.y)))
  }

  /** The checks made for particle `i` against the particles at positions below `j`: a pair is
      examined only when the other particle has the larger id. */
  function RowChecks(ps: seq<Particle>, i: nat, j: nat, dist: Metric): seq<Check>
    requires i < |ps| && j <= |ps|
  {
    if j == 0 then []
    else RowChecks(ps, i, j - 1, dist)
         + (if ps[i].id >= ps[j - 1].id then [] else [Examine(ps[i], ps[j - 1], dist)])
  }

  /** The array while the frame is in progress: the first `done` particles have moved. */
  function Snapshot(olds: seq<Particle>, done: nat, env: Env): (ps: seq<Particle>)
    ensures |ps| == |olds|
  {
    seq(|olds|, k requires 0 <= k < |olds| => if k < done then Advance(olds[k], env) else olds[k])
  }

  /** The particles after a whole frame. */
  function Stepped(olds: seq<Particle>, env: Env): (ps: seq<Particle>)
    ensures |ps| == |olds|
  {
    seq(|olds|, k requires 0 <= k < |olds| => Advance(olds[k], env))
  }

  /** Every check of the first `m` rows of a frame, in the order they are made. Row `i` is
      examined right after particle `i` has moved. */
  function FrameChecks(olds: seq<Particle>, m: nat, env: Env, dist: Metric): seq<Check>
    requires m <= |olds|
  {
    if m == 0 then [] else FrameChecks(olds, m - 1, env, dist) + RowChecks(Snapshot(olds, m, env), m - 1, |olds|, dist)
  }

  /** A check is made for particle `i` exactly when the other particle's id is larger. */
  lemma {:induction false} RowChecksMembers(ps: seq<Particle>, i: nat, j: nat, dist: Metric, c: Check)
    requires i < |ps| && j <= |ps|
    ensures c in RowChecks(ps, i, j, dist) <==>
            exists k :: 0 <= k < j && ps[i].id < ps[k].id && c == Examine(ps[i], ps[k], dist)
  {
    if j > 0 {
      RowChecksMembers(ps, i, j - 1, dist, c);
      if ps[i].id < ps[j - 1].id && c == Examine(ps[i], ps[j - 1], dist) {
        assert c in RowChecks(ps, i, j, dist);
      }
    }
  }

  /** The (first, second) id pairs of a list of checks. */
  function Pairs(cs: seq<Check>): (r: seq<(nat, nat)>)
    ensures |r| == |cs|
    ensures forall k :: 0 <= k < |cs| ==> r[k] == (cs[k].first, cs[k].second)
  {
    seq(|cs|, k requires 0 <= k < |cs| => (cs[k].first, cs[k].second))
  }

  lemma PairsAppend(a: seq<Check>, b: seq<Check>)
    ensures Pairs(a + b) == Pairs(a) + Pairs(b)
  {
    assert forall k :: 0 <= k < |a + b| ==> Pairs(a + b)[k] == (Pairs(a) + Pairs(b))[k];
  }

  /** The pairs (i, k) with i < k < j, in increasing order of k. */
  function Row(i: nat, j: nat): seq<(nat, nat)>
  {
    if j <= i + 1 then [] else Row(i, j - 1) + [(i, j - 1)]
  }

  /** Every pair (a, b) with a < b and a below `m`, row by row. */
  function PairsBelow(m: nat, n: nat): seq<(nat, nat)>
  {
    if m == 0 then [] else PairsBelow(m - 1, n) + Row(m - 1, n)
  }

  /** All unordered pairs of n particles, each written with the smaller index first. */
  function AllPairs(n: nat): seq<(nat, nat)>
  {
    PairsBelow(n, n)
  }

  lemma {:induction false} RowFacts(i: nat, j: nat)
    ensures |Row(i, j)| == if j <= i + 1 then 0 else j - i - 1
    ensures forall k :: 0 <= k < |Row(i, j)| ==> Row(i, j)[k] == (i, i + 1 + k)
  {
    if j > i + 1 {
      RowFacts(i, j - 1);
    }
  }

  lemma {:induction false} PairsBelowLength(m: nat, n: nat)
    requires m <= n
    ensures 2 * |PairsBelow(m, n)| == m * (2 * n - m - 1)
  {
    if m > 0 {
      var earlier, row := PairsBelow(m - 1, n), Row(m - 1, n);
      assert |PairsBelow(m, n)| == |earlier| + |row|;
      PairsBelowLength(m - 1, n);
      RowFacts(m - 1, n);
      assert |row| == n - m;
      TriangleStep(m, n);
    }
  }

  /** The arithmetic of adding row m - 1, of n - m pairs, to the rows before it. */
  lemma TriangleStep(m: nat, n: nat)
    requires 1 <= m <= n
    ensures (m - 1) * (2 * n - m) + 2 * (n - m) == m * (2 * n - m - 1)
  {
    var x := m * (2 * n - m);
    assert (m - 1) * (2 * n - m) == x - (2 * n - m);
    assert m * (2 * n - m - 1) == x - m;
  }

  /** A frame makes n(n-1)/2 pair checks. */
  lemma AllPairsCount(n: nat)
    ensures |AllPairs(n)| == n * (n - 1) / 2
  {
    PairsBelowLength(n, n);
  }

  lemma {:induction false} PairsBelowMembers(m: nat, n: nat, a: nat, b: nat)
    ensures (a, b) in PairsBelow(m, n) <==> a < m && a < b < n
  {
    if m > 0 {
      PairsBelowMembers(m - 1, n, a, b);
      RowMembers(m - 1, n, a, b);
      InEither((a, b), PairsBelow(m - 1, n), Row(m - 1, n), PairsBelow(m, n),
        a < m - 1 && a < b < n, a == m - 1 && m - 1 < b < n);
    }
  }

  /** Membership in a concatenation, with the membership of each part given. */
  lemma InEither(x: (nat, nat), s: seq<(nat, nat)>, t: seq<(nat, nat)>, u: seq<(nat, nat)>, inS: bool, inT: bool)
    requires u == s + t && (x in s <==> inS) && (x in t <==> inT)
    ensures x in u <==> inS || inT
  {
  }

  /** Row i holds exactly the pairs (i, b) with i < b < j. */
  lemma RowMembers(i: nat, j: nat, a: nat, b: nat)
    ensures (a, b) in Row(i, j) <==> a == i && i < b < j
  {
    RowFacts(i, j);
    if a == i && i < b < j {
      assert Row(i, j)[b - i - 1] == (a, b);
    }
  }

  /** The pairs examined are exactly those of two distinct particles, the smaller first. */
  lemma AllPairsMembers(n: nat, a: nat, b: nat)
    ensures (a, b) in AllPairs(n) <==> a < b < n
  {
    PairsBelowMembers(n, n, a, b);
  }

  /** Pair p comes strictly before pair q in row-by-row order. */
  predicate Before(p: (nat, nat), q: (nat, nat))
  {
    p.0 < q.0 || (p.0 == q.0 && p.1 < q.1)
  }

  ghost predicate Increasing(s: seq<(nat, nat)>)
  {
    forall i, j :: 0 <= i < j < |s| ==> Before(s[i], s[j])
  }

  lemma {:induction false} PairsBelowIncreasing(m: nat, n: nat)
    ensures Increasing(PairsBelow(m, n))
    ensures forall k :: 0 <= k < |PairsBelow(m, n)| ==> PairsBelow(m, n)[k].0 < m
  {
    if m > 0 {
      PairsBelowIncreasing(m - 1, n);
      RowFacts(m - 1, n);
    }
  }

  /** No pair is examined twice in a frame. */
  lemma AllPairsDistinct(n: nat)
    ensures forall i, j :: 0 <= i < j < |AllPairs(n)| ==> AllPairs(n)[i] != AllPairs(n)[j]
  {
    PairsBelowIncreasing(n, n);
  }

  /** A frame's row `i` (ids equal to indices) examines particle i against i+1, ..., n-1. */
  lemma {:induction false} RowChecksPairs(ps: seq<Particle>, i: nat, j: nat, dist: Metric)
    requires IdsAreIndices(ps) && i < |ps| && j <= |ps|
    ensures Pairs(RowChecks(ps, i, j, dist)) == Row(i, j)
  {
    if j > 0 {
      RowChecksPairs(ps, i, j - 1, dist);
      var tail := if ps[i].id >= ps[j - 1].id then [] else [Examine(ps[i], ps[j - 1], dist)];
      PairsAppend(RowChecks(ps, i, j - 1, dist), tail);
      if j <= i + 1 {
        assert Row(i, j - 1) == [];
      }
    }
  }

  /** Moving the next particle extends the snapshot by one. */
  lemma SnapshotStep(olds: seq<Particle>, i: nat, env: Env)
    requires i < |olds|
    ensures Snapshot(olds, i, env)[i] == olds[i]
    ensures Snapshot(olds, i, env)[i := Advance(olds[i], env)] == Snapshot(olds, i + 1, env)
  {
  }

  /** A frame changes positions and velocities only: every particle keeps its id, its radius
      and its opacity. */
  lemma SteppedKeepsAttributes(olds: seq<Particle>, env: Env)
    ensures forall k :: 0 <= k < |olds| ==> SameAttributes(olds[k], Stepped(olds, env)[k])
  {
  }

  /** Two states of one particle with the same id, radius and opacity. */
  predicate SameAttributes(p: Particle, q: Particle)
  {
    q.id == p.id && q.size == p.size && q.opacity == p.opacity
  }

  /** Row i joins the checks of the earlier rows once particle i has moved. */
  lemma FrameChecksStep(olds: seq<Particle>, i: nat, env: Env, dist: Metric)
    requires i < |olds|
    ensures FrameChecks(olds, i + 1, env, dist) == FrameChecks(olds, i, env, dist) + RowChecks(Snapshot(olds, i + 1, env), i, |olds|, dist)
  {
  }

  /** Once every particle has moved, the snapshot is the whole frame's result. */
  lemma SnapshotDone(olds: seq<Particle>, env: Env)
    ensures Snapshot(olds, |olds|, env) == Stepped(olds, env)
  {
  }

  lemma SnapshotIds(olds: seq<Particle>, done: nat, env: Env)
    requires IdsAreIndices(olds)
    ensures IdsAreIndices(Snapshot(olds, done, env))
  {
  }

  lemma {:induction false} FrameChecksPairs(olds: seq<Particle>, m: nat, env: Env, dist: Metric)
    requires IdsAreIndices(olds) && m <= |olds|
    ensures Pairs(FrameChecks(olds, m, env, dist)) == PairsBelow(m, |olds|)
  {
    if m > 0 {
      var earlier := FrameChecks(olds, m - 1, env, dist);
      var row := RowChecks(Snapshot(olds, m, env), m - 1, |olds|, dist);
      FrameChecksPairs(olds, m - 1, env, dist);
      RowPairs(olds, m, env, dist);
      PairsAppend(earlier, row);
    }
  }

  /** The pairs of the row examined after particle m - 1 has moved. */
  lemma RowPairs(olds: seq<Particle>, m: nat, env: Env, dist: Metric)
    requires IdsAreIndices(olds) && 0 < m <= |olds|
    ensures Pairs(RowChecks(Snapshot(olds, m, env), m - 1, |olds|, dist)) == Row(m - 1, |olds|)
  {
    SnapshotIds(olds, m, env);
    RowChecksPairs(Snapshot(olds, m, env), m - 1, |olds|, dist);
  }

  /** With ids 0..n-1, a whole frame examines every unordered pair exactly once, smaller id
      first: the pairs are those of `AllPairs`, n(n-1)/2 of them and pairwise distinct. */
  lemma FrameExaminesEachPairOnce(olds: seq<Particle>, env: Env, dist: Metric)
    requires IdsAreIndices(olds)
    ensures Pairs(FrameChecks(olds, |olds|, env, dist)) == AllPairs(|olds|)
    ensures |FrameChecks(olds, |olds|, env, dist)| == |olds| * (|olds| - 1) / 2
  {
    FrameChecksPairs(olds, |olds|, env, dist);
    AllPairsCount(|olds|);
  }

  /** With ids equal to indices, row `i` is particle i checked against i+1, ..., n-1 in turn. */
  lemma {:induction false} RowChecksInOrder(ps: seq<Particle>, i: nat, j: nat, dist: Metric)
    requires IdsAreIndices(ps) && i < |ps| && j <= |ps|
    ensures RowChecks(ps, i, j, dist)
         == seq(if j <= i + 1 then 0 else j - i - 1, k requires 0 <= k < j - i - 1 => Examine(ps[i], ps[i + 1 + k], dist))
  {
    if j > 0 {
      RowChecksInOrder(ps, i, j - 1, dist);
    }
  }

  /** Row `i` measures the moved particle i against particles that have not yet moved in this
      frame: every later particle still holds its position from the previous frame. */
  lemma RowSeesUnmovedPartners(olds: seq<Particle>, i: nat, env: Env, dist: Metric)
    requires IdsAreIndices(olds) && i < |olds|
    ensures RowChecks(Snapshot(olds, i + 1, env), i, |olds|, dist)
         == seq(|olds| - i - 1, k requires 0 <= k < |olds| - i - 1 => Examine(Advance(olds[i], env), olds[i + 1 + k], dist))
  {
    SnapshotIds(olds, i + 1, env);
    RowChecksInOrder(Snapshot(olds, i + 1, env), i, |olds|, dist);
  }

  // ---------------------------------------------------------------------------------------
  // The field

  /** The state the component keeps across frames: the current particle array, the surface
      size and the last pointer position. */
  class Field {
    var particles: array<Particle>
    var width: nat
    var height: nat
    var mouseX: real
    var mouseY: real

    /** Particle ids are their positions in the array. */
    ghost predicate Valid()
      reads this, particles
    {
      IdsAreIndices(particles[..])
    }

    function Surroundings(pull: Pull): Env
      reads this
    {
      Env(width as real, height as real, mouseX, mouseY, pull)
    }

    /** Before the surface is measured: no particles, pointer at the origin. */
    constructor ()
      ensures Valid() && fresh(particles)
      ensures particles.Length == 0 && width == 0 && height == 0
      ensures mouseX == 0.0 && mouseY == 0.0
    {
      particles := new Particle[0];
      width, height := 0, 0;
      mouseX, mouseY := 0.0, 0.0;
    }

    /** `createParticles`: a fresh array replaces the old one wholesale. */
    method CreateParticles(random: nat -> real)
      modifies this
      ensures Valid() && fresh(particles)
      ensures particles[..] == Generation(width, height, random)
      ensures width == old(width) && height == old(height)
      ensures mouseX == old(mouseX) && mouseY == old(mouseY)
    {
      var count := ParticleCount(width, height);
      var created := new Particle[count];
      for i := 0 to count
        modifies created
        invariant forall k :: 0 <= k < i ==> created[k] == Spawn(k, width, height, random)
      {
        created[i] := Spawn(i, width, height, random);
      }
      particles := created;
      assert particles[..] == Generation(width, height, random);
    }

    /** `resizeCanvas`: the surface takes the window's size and the particles are regenerated. */
    method Resize(w: nat, h: nat, random: nat -> real)
      modifies this
      ensures Valid() && fresh(particles)
      ensures width == w && height == h
      ensures particles[..] == Generation(w, h, random)
      ensures mouseX == old(mouseX) && mouseY == old(mouseY)
    {
      width, height := w, h;
      CreateParticles(random);
    }

    /** The pointer-move handler records the pointer position and nothing else. */
    method PointerMove(x: real, y: real)
      modifies this`mouseX, this`mouseY
      ensures mouseX == x && mouseY == y
    {
      mouseX, mouseY := x, y;
    }

    /** The inner pair loop for particle `i`; it draws but changes no particle. */
    method ExamineRow(i: nat, dist: Metric) returns (row: seq<Check>)
      requires i < particles.Length
      ensures row == RowChecks(particles[..], i, particles.Length, dist)
    {
      row := [];
      var j := 0;
      while j < particles.Length
        invariant 0 <= j <= particles.Length
        invariant row == RowChecks(particles[..], i, j, dist)
      {
        var particle, other := particles[i], particles[j];
        if particle.id < other.id {
          row := row + [Examine(particle, other, dist)];
        }
        j := j + 1;
      }
    }

    /** The body of the frame's outer loop for particle i: move it, then examine it against
        every particle, the ones before it already moved and the ones after it not yet. */
    method MoveAndExamine(i: nat, env: Env, dist: Metric, ghost olds: seq<Particle>) returns (row: seq<Check>)
      requires i < |olds| && particles[..] == Snapshot(olds, i, env)
      modifies particles
      ensures particles[..] == Snapshot(olds, i + 1, env)
      ensures row == RowChecks(Snapshot(olds, i + 1, env), i, |olds|, dist)
    {
      SnapshotStep(olds, i, env);
      particles[i] := Advance(particles[i], env);
      row := ExamineRow(i, dist);
    }

    /** One frame: each particle in turn is moved and then examined against the others. Only
        positions and velocities change; the array, its length, ids, radii and opacities stay. */
    method Animate(pull: Pull, dist: Metric) returns (checks: seq<Check>)
      requires Valid()
      modifies particles
      ensures Valid()
      ensures particles[..] == Stepped(old(particles[..]), Surroundings(pull))
      ensures checks == FrameChecks(old(particles[..]), particles.Length, Surroundings(pull), dist)
      ensures forall k :: 0 <= k < particles.Length ==> SameAttributes(old(particles[..])[k], particles[..][k])
    {
      ghost var olds := particles[..];
      var env := Surroundings(pull);
      checks := [];
      var i := 0;
      while i < particles.Length
        invariant 0 <= i <= particles.Length
        invariant particles[..] == Snapshot(olds, i, env)
        invariant checks == FrameChecks(olds, i, env, dist)
      {
        var row := MoveAndExamine(i, env, dist, olds);
        FrameChecksStep(olds, i, env, dist);
        checks := checks + row;
        i := i + 1;
      }
      SnapshotDone(olds, env);
      SnapshotIds(olds, |olds|, env);
      SteppedKeepsAttributes(olds, env);
    }
  }
}
