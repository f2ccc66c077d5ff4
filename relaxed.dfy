/** projectConstraintsSOR: the relaxed (Jacobi-style) energy-constraint projection.
    Each iteration clears the per-particle accumulators, lets one worker for each
    chunk of the tetrahedra sum its corrections into them while positions stay
    fixed, and then moves the free particles by what was accumulated. */
module Relaxed {
  import opened LinearAlgebra
  import opened Mesh
  import opened Elasticity
  import opened Constraint

  /** The divisor of the chunk size, numThreads in the source. One worker starts
      per chunk, so there are exactly this many workers only when it divides the
      number of tetrahedra (ChunksCount). */
  const NumThreads: int := 4

  function StepSize(numTetrahedra: int): int {
    numTetrahedra / NumThreads
  }

  /** The tetrahedra one worker visits: start, start+1, ..., end-1 (the worker's
      loop runs while t != end, so end itself is not visited). */
  datatype Range = Range(start: int, end: int)

  /** The chunks handed to the workers by the loop that starts at t and advances by
      step: a chunk that starts below numTetrahedra-step-1 ends at t+step-1, any
      other chunk ends at numTetrahedra-1. */
  function ChunksFrom(n: int, step: int, t: int): (cs: seq<Range>)
    requires step > 0
    decreases n - t
  {
    if t >= n then []
    else if t < n - step - 1 then [Range(t, t + step - 1)] + ChunksFrom(n, step, t + step)
    else [Range(t, n - 1)] + ChunksFrom(n, step, t + step)
  }

  /** The chunks of one iteration. The loop advances by numTetrahedra/4, which is
      zero for one to three tetrahedra: there the loop never ends, so only zero or at
      least four tetrahedra are meaningful. */
  function Chunks(n: int): (cs: seq<Range>)
    requires n <= 0 || n >= NumThreads
    ensures RangesWithin(cs, n)
  {
    if n <= 0 then []
    else
      ChunksFromWithin(n, StepSize(n), 0);
      ChunksFrom(n, StepSize(n), 0)
  }

  /** Some worker visits tetrahedron i. */
  predicate InRanges(cs: seq<Range>, i: int) {
    |cs| > 0 && ((cs[0].start <= i < cs[0].end) || InRanges(cs[1..], i))
  }

  /** Every range lies within tetrahedra 0..n-1. */
  predicate RangesWithin(cs: seq<Range>, n: int) {
    |cs| == 0 || (0 <= cs[0].start <= cs[0].end <= n && RangesWithin(cs[1..], n))
  }

  /** Each chunk ends no later than the next one starts, so no tetrahedron is
      visited twice in one iteration. */
  predicate Disjoint(cs: seq<Range>) {
    forall a, b :: 0 <= a < b < |cs| ==> cs[a].end <= cs[b].start
  }

  lemma MulMonotone(a: int, b: int, m: int)
    requires a <= b && m >= 0
    ensures a * m <= b * m
  {
    assert b * m - a * m == (b - a) * m;
  }

  /** Inside the block k*step .. k*step+step-1, only the last index is one below a
      multiple of step. */
  lemma LastOfBlock(k: int, step: int, i: int)
    requires step > 0 && k >= 0 && k * step <= i < k * step + step
    ensures (i + 1) % step == 0 <==> i == k * step + step - 1
  {
    var q := (i + 1) / step;
    var r := (i + 1) % step;
    assert i + 1 == q * step + r && 0 <= r < step;
    assert (k + 1) * step == k * step + step;
    assert (q + 1) * step == q * step + step;
    if q >= k + 1 {
      MulMonotone(k + 1, q, step);
    } else {
      MulMonotone(q + 1, k + 1, step);
    }
  }

  lemma {:induction false} ChunksFromWithin(n: int, step: int, t: int)
    requires step > 0 && t >= 0
    ensures RangesWithin(ChunksFrom(n, step, t), n)
    decreases n - t
  {
    if t < n {
      ChunksFromWithin(n, step, t + step);
    }
  }

  /** Every chunk starts at or after the worker index it was cut from. */
  lemma {:induction false} ChunksFromStarts(n: int, step: int, t: int)
    requires step > 0
    ensures forall k :: 0 <= k < |ChunksFrom(n, step, t)| ==> t <= ChunksFrom(n, step, t)[k].start
    decreases n - t
  {
    if t < n {
      var cs := ChunksFrom(n, step, t);
      var rest := ChunksFrom(n, step, t + step);
      ChunksFromStarts(n, step, t + step);
      assert cs[1..] == rest;
      forall k | 0 <= k < |cs| ensures t <= cs[k].start {
        if k > 0 {
          assert cs[k] == rest[k - 1];
        }
      }
    }
  }

  lemma {:induction false} ChunksFromDisjoint(n: int, step: int, t: int)
    requires step > 0
    ensures Disjoint(ChunksFrom(n, step, t))
    decreases n - t
  {
    if t < n {
      var cs := ChunksFrom(n, step, t);
      var rest := ChunksFrom(n, step, t + step);
      ChunksFromDisjoint(n, step, t + step);
      ChunksFromStarts(n, step, t + step);
      assert cs[1..] == rest;
      assert cs[0].end <= t + step;
      forall a, b | 0 <= a < b < |cs| ensures cs[a].end <= cs[b].start {
        assert cs[b] == rest[b - 1];
        if a > 0 {
          assert cs[a] == rest[a - 1];
        }
      }
    }
  }

  /** The workers visit tetrahedra 0..n-2 except the last index of each chunk that
      the loop ends at t+step-1, and never tetrahedron n-1: an index i is visited
      exactly when i < n-1, and i+1 is not a multiple of step or i is n-2. */
  lemma {:induction false} ChunksFromCover(n: int, step: int, k: nat, i: int)
    requires step > 0
    ensures InRanges(ChunksFrom(n, step, k * step), i) <==>
      k * step <= i < n - 1 && !((i + 1) % step == 0 && i < n - 2)
    decreases n - k * step
  {
    var t := k * step;
    assert (k + 1) * step == t + step;
    if t < n {
      var cs := ChunksFrom(n, step, t);
      assert cs[1..] == ChunksFrom(n, step, t + step);
      ChunksFromCover(n, step, k + 1, i);
      if t <= i < t + step {
        LastOfBlock(k, step, i);
      } else if i >= t + step {
        MulMonotone(k, k + 1, step);
      }
    }
  }

  /** Which tetrahedra one iteration visits, as a closed form. */
  lemma ChunksCover(n: int, i: int)
    requires n >= NumThreads
    ensures InRanges(Chunks(n), i) <==>
      0 <= i < n - 1 && !((i + 1) % StepSize(n) == 0 && i < n - 2)
  {
    ChunksFromCover(n, StepSize(n), 0, i);
  }

  /** The chunks come in increasing order without overlap, so no tetrahedron is
      visited twice, and tetrahedron n-1 is never visited. */
  lemma ChunksShape(n: int)
    requires n <= 0 || n >= NumThreads
    ensures Disjoint(Chunks(n))
    ensures n > 0 ==> !InRanges(Chunks(n), n - 1)
  {
    if n > 0 {
      ChunksFromDisjoint(n, StepSize(n), 0);
      ChunksCover(n, n - 1);
    }
  }

  /** Euclidean division is determined by quotient and remainder. */
  lemma DivUnique(x: int, d: int, q: int, r: int)
    requires d > 0 && 0 <= r < d && x == q * d + r
    ensures x / d == q
  {
    var q0 := x / d;
    assert x == q0 * d + x % d && 0 <= x % d < d;
    assert (q0 + 1) * d == q0 * d + d;
    assert (q + 1) * d == q * d + d;
    if q0 < q {
      MulMonotone(q0 + 1, q, d);
    } else if q < q0 {
      MulMonotone(q + 1, q0, d);
    }
  }

  /** The loop from t hands out one chunk per start t, t+step, ... below n. */
  lemma {:induction false} ChunksFromCount(n: int, step: int, t: int)
    requires step > 0
    ensures |ChunksFrom(n, step, t)| == if t >= n then 0 else (n - t + step - 1) / step
    decreases n - t
  {
    if t < n {
      ChunksFromCount(n, step, t + step);
      var a := n - t - 1;
      if t + step < n {
        DivUnique(a, step, a / step, a % step);
        DivUnique(a + step, step, a / step + 1, a % step);
      } else {
        DivUnique(a + step, step, 1, a);
      }
    }
  }

  /** One worker per chunk of n/4 tetrahedra: four or more of them, and exactly
      four when 4 divides n. */
  lemma ChunksCount(n: int)
    requires n >= NumThreads
    ensures |Chunks(n)| == (n + StepSize(n) - 1) / StepSize(n)
    ensures |Chunks(n)| >= NumThreads
    ensures n % NumThreads == 0 <==> |Chunks(n)| == NumThreads
  {
    var step := StepSize(n);
    ChunksFromCount(n, step, 0);
    var r := n % NumThreads;
    assert n == NumThreads * step + r;
    if r == 0 {
      DivUnique(n + step - 1, step, 4, step - 1);
    } else {
      var x := n + step - 1;
      DivUnique(x, step, x / step, x % step);
      assert x >= 5 * step;
      assert (x / step + 1) * step == (x / step) * step + step;
      if x / step < 5 {
        MulMonotone(x / step + 1, 5, step);
      }
    }
  }

  /** The per-particle accumulators: temporaryPositions and numConstraintInfluences. */
  datatype Accumulators = Accumulators(temp: seq<Vec3>, count: seq<int>)

  /** The accumulators have an entry for each of n particles. */
  predicate Covers(acc: Accumulators, n: nat) {
    n <= |acc.temp| && n <= |acc.count|
  }

  predicate SameShape(a: Accumulators, b: Accumulators) {
    |a.temp| == |b.temp| && |a.count| == |b.count|
  }

  /** How many of slots 0..k-1 of the tetrahedron name particle i. */
  function SlotRefs(tet: Tetrahedron, i: int, k: nat): (r: nat)
    requires k <= |tet.vertexIndices|
    ensures r <= k
  {
    if k == 0 then 0
    else SlotRefs(tet, i, k - 1) + (if tet.vertexIndices[k - 1] == i then 1 else 0)
  }

  /** Slots 0..k-1 after the scatter: a slot whose particle has inverse mass w != 0
      adds (w lagrangeM) times its gradient column to the particle's accumulator and
      one to its influence count. */
  function ScatterUpTo(tet: Tetrahedron, ps: seq<Particle>, acc: Accumulators, lagrangeM: real, g: seq<Vec3>, k: nat): (r: Accumulators)
    requires WellFormed(tet, |ps|) && |g| == 4 && k <= 4 && Covers(acc, |ps|)
    ensures SameShape(acc, r)
  {
    if k == 0 then acc
    else
      var a := ScatterUpTo(tet, ps, acc, lagrangeM, g, k - 1);
      var i := tet.vertexIndices[k - 1];
      var w := ps[i].inverseMass;
      if w != 0.0 then
        Accumulators(a.temp[i := Add(a.temp[i], Scale(w * lagrangeM, g[k - 1]))], a.count[i := a.count[i] + 1])
      else a
  }

  /** A particle's influence count grows by the number of slots that name it when it
      is free, and not at all when it is pinned; other particles' entries stay. */
  lemma {:induction false} ScatterCounts(tet: Tetrahedron, ps: seq<Particle>, acc: Accumulators, lagrangeM: real, g: seq<Vec3>, k: nat)
    requires WellFormed(tet, |ps|) && |g| == 4 && k <= 4 && Covers(acc, |ps|)
    ensures forall i :: 0 <= i < |acc.count| ==>
      ScatterUpTo(tet, ps, acc, lagrangeM, g, k).count[i] ==
        acc.count[i] + (if i < |ps| && ps[i].inverseMass != 0.0 then SlotRefs(tet, i, k) else 0)
    ensures forall i :: 0 <= i < |acc.temp| && (i >= |ps| || ps[i].inverseMass == 0.0 || SlotRefs(tet, i, k) == 0) ==>
      ScatterUpTo(tet, ps, acc, lagrangeM, g, k).temp[i] == acc.temp[i]
  {
    if k > 0 {
      ScatterCounts(tet, ps, acc, lagrangeM, g, k - 1);
    }
  }

  /** Whether tetrahedron t's multiplier is a finite number. The source divides the
      energy by the denominator and replaces a NaN result by zero: 0/0 becomes 0, but
      a nonzero energy over a zero denominator with a free vertex is infinite. */
  predicate TetFinite(m: Model, t: int, ps: seq<Particle>)
    requires ValidModel(m, |ps|) && 0 <= t < m.numTetrahedra
  {
    var tet := m.tetrahedra[t];
    Undeformed(m, tet, ps) ||
    var g := ConstraintGradient(m, tet, ps);
    var w := InverseMasses(tet, ps);
    DenominatorUpTo(w, Norms(m.num, g), 4) != 0.0 || KernelAt(m, tet, ps).energy == 0.0 || !HasFreeVertex(w)
  }

  /** One worker's loop body for tetrahedron t: skip an undeformed tetrahedron,
      otherwise call the kernel, build the gradient, sum inverse mass times column
      length over the free vertices, and scatter the free vertices' corrections.
      Unlike the sequential solver the energy is never damped. */
  function AccumulateTet(m: Model, t: int, ps: seq<Particle>, acc: Accumulators): (r: Accumulators)
    requires ValidModel(m, |ps|) && 0 <= t < m.numTetrahedra && Covers(acc, |ps|)
    ensures SameShape(acc, r)
    ensures Undeformed(m, m.tetrahedra[t], ps) ==> r == acc
  {
    var tet := m.tetrahedra[t];
    if Undeformed(m, tet, ps) then acc
    else
      var strainEnergy := KernelAt(m, tet, ps).energy;
      var g := ConstraintGradient(m, tet, ps);
      var denominator := DenominatorUpTo(InverseMasses(tet, ps), Norms(m.num, g), 4);
      var lagrangeM := if denominator != 0.0 then -(strainEnergy / denominator) else 0.0;
      ScatterUpTo(tet, ps, acc, lagrangeM, g, 4)
  }

  /** A deformed tetrahedron adds, to each free particle's influence count, the
      number of its slots that name the particle; pinned particles keep their count. */
  lemma AccumulateTetCounts(m: Model, t: int, ps: seq<Particle>, acc: Accumulators)
    requires ValidModel(m, |ps|) && 0 <= t < m.numTetrahedra && Covers(acc, |ps|)
    ensures forall i :: 0 <= i < |acc.count| ==>
      AccumulateTet(m, t, ps, acc).count[i] == acc.count[i] +
        (if i < |ps| && ps[i].inverseMass != 0.0 && !Undeformed(m, m.tetrahedra[t], ps)
         then SlotRefs(m.tetrahedra[t], i, 4) else 0)
  {
    var tet := m.tetrahedra[t];
    if !Undeformed(m, tet, ps) {
      var strainEnergy := KernelAt(m, tet, ps).energy;
      var g := ConstraintGradient(m, tet, ps);
      var denominator := DenominatorUpTo(InverseMasses(tet, ps), Norms(m.num, g), 4);
      var lagrangeM := if denominator != 0.0 then -(strainEnergy / denominator) else 0.0;
      ScatterCounts(tet, ps, acc, lagrangeM, g, 4);
    }
  }

  /** projectConstraintsSOR_CORE over start..end-1, from tetrahedron t on. */
  function AccumulateFrom(m: Model, ps: seq<Particle>, acc: Accumulators, t: int, end: int): (r: Accumulators)
    requires ValidModel(m, |ps|) && 0 <= t && end <= m.numTetrahedra && Covers(acc, |ps|)
    ensures SameShape(acc, r)
    decreases end - t
  {
    if t >= end then acc
    else AccumulateFrom(m, ps, AccumulateTet(m, t, ps, acc), t + 1, end)
  }

  /** The workers' chunks, one after the other. Positions are only read while the
      workers run and each tetrahedron's scatter is done under the mutex, so over
      the reals any interleaving of whole tetrahedra gives this sum. */
  function AccumulateChunks(m: Model, ps: seq<Particle>, acc: Accumulators, cs: seq<Range>): (r: Accumulators)
    requires ValidModel(m, |ps|) && RangesWithin(cs, m.numTetrahedra) && Covers(acc, |ps|)
    ensures SameShape(acc, r)
    decreases |cs|
  {
    if |cs| == 0 then acc
    else AccumulateChunks(m, ps, AccumulateFrom(m, ps, acc, cs[0].start, cs[0].end), cs[1..])
  }

  /** How many slots of tetrahedra 0..t-1 name particle i. */
  function Refs(m: Model, i: int, t: nat): (r: nat)
    requires t <= m.numTetrahedra <= |m.tetrahedra|
    requires forall u :: 0 <= u < t ==> |m.tetrahedra[u].vertexIndices| == 4
  {
    if t == 0 then 0 else Refs(m, i, t - 1) + SlotRefs(m.tetrahedra[t - 1], i, 4)
  }

  /** Tetrahedron t's share of particle i's influence count: the slots naming i
      when the tetrahedron is deformed, none when the worker skips it. */
  function TetRefs(m: Model, ps: seq<Particle>, i: int, t: int): nat
    requires ValidModel(m, |ps|) && 0 <= t < m.numTetrahedra
  {
    if Undeformed(m, m.tetrahedra[t], ps) then 0 else SlotRefs(m.tetrahedra[t], i, 4)
  }

  /** The slots naming particle i in the deformed tetrahedra t..end-1. */
  function DeformedRefs(m: Model, ps: seq<Particle>, i: int, t: int, end: int): nat
    requires ValidModel(m, |ps|) && 0 <= t && end <= m.numTetrahedra
    decreases end - t
  {
    if t >= end then 0 else TetRefs(m, ps, i, t) + DeformedRefs(m, ps, i, t + 1, end)
  }

  /** DeformedRefs summed over the ranges, one worker after the other. */
  function ChunkRefs(m: Model, ps: seq<Particle>, i: int, cs: seq<Range>): nat
    requires ValidModel(m, |ps|) && RangesWithin(cs, m.numTetrahedra)
    decreases |cs|
  {
    if |cs| == 0 then 0 else DeformedRefs(m, ps, i, cs[0].start, cs[0].end) + ChunkRefs(m, ps, i, cs[1..])
  }

  /** The slots naming particle i in the deformed tetrahedra from t on that some
      range of cs visits. */
  function VisitedRefs(m: Model, ps: seq<Particle>, i: int, cs: seq<Range>, t: int): nat
    requires ValidModel(m, |ps|) && 0 <= t
    decreases m.numTetrahedra - t
  {
    if t >= m.numTetrahedra then 0
    else (if InRanges(cs, t) then TetRefs(m, ps, i, t) else 0) + VisitedRefs(m, ps, i, cs, t + 1)
  }

  /** The influence counts after a worker's loop over t..end-1: a free particle has
      gained one per slot naming it in a deformed tetrahedron, a pinned one nothing. */
  lemma {:induction false} AccumulateFromCounts(m: Model, ps: seq<Particle>, acc: Accumulators, t: int, end: int, i: int)
    requires ValidModel(m, |ps|) && 0 <= t && end <= m.numTetrahedra && Covers(acc, |ps|)
    requires 0 <= i < |ps|
    ensures AccumulateFrom(m, ps, acc, t, end).count[i] ==
      acc.count[i] + (if ps[i].inverseMass != 0.0 then DeformedRefs(m, ps, i, t, end) else 0)
    decreases end - t
  {
    if t < end {
      AccumulateTetCounts(m, t, ps, acc);
      AccumulateFromCounts(m, ps, AccumulateTet(m, t, ps, acc), t + 1, end, i);
    }
  }

  /** The influence counts after all workers: a free particle has gained its
      references in every worker's range, a pinned one nothing. */
  lemma {:induction false} AccumulateChunksCounts(m: Model, ps: seq<Particle>, acc: Accumulators, cs: seq<Range>, i: int)
    requires ValidModel(m, |ps|) && RangesWithin(cs, m.numTetrahedra) && Covers(acc, |ps|)
    requires 0 <= i < |ps|
    ensures AccumulateChunks(m, ps, acc, cs).count[i] ==
      acc.count[i] + (if ps[i].inverseMass != 0.0 then ChunkRefs(m, ps, i, cs) else 0)
    decreases |cs|
  {
    if |cs| > 0 {
      AccumulateFromCounts(m, ps, acc, cs[0].start, cs[0].end, i);
      AccumulateChunksCounts(m, ps, AccumulateFrom(m, ps, acc, cs[0].start, cs[0].end), cs[1..], i);
    }
  }

  /** Counted over the tetrahedra from t on, a single range contributes the
      references of its own tetrahedra. */
  lemma {:induction false} RangeRefs(m: Model, ps: seq<Particle>, i: int, r: Range, t: int)
    requires ValidModel(m, |ps|) && 0 <= t && 0 <= r.start <= r.end <= m.numTetrahedra
    ensures VisitedRefs(m, ps, i, [r], t) == DeformedRefs(m, ps, i, if t < r.start then r.start else t, r.end)
    decreases m.numTetrahedra - t
  {
    if t < m.numTetrahedra {
      RangeRefs(m, ps, i, r, t + 1);
      assert [r][1..] == [];
      assert InRanges([r], t) <==> r.start <= t < r.end;
    }
  }

  /** An index below every range's start is visited by none of them. */
  lemma {:induction false} BeforeRanges(cs: seq<Range>, e: int, x: int)
    requires forall k :: 0 <= k < |cs| ==> e <= cs[k].start
    requires x < e
    ensures !InRanges(cs, x)
    decreases |cs|
  {
    if |cs| > 0 {
      BeforeRanges(cs[1..], e, x);
    }
  }

  /** When the first range shares no index with the others, the visited references
      split into the first range's and the others'. */
  lemma {:induction false} SplitVisitedRefs(m: Model, ps: seq<Particle>, i: int, cs: seq<Range>, t: int)
    requires ValidModel(m, |ps|) && 0 <= t && |cs| > 0
    requires forall x :: cs[0].start <= x < cs[0].end ==> !InRanges(cs[1..], x)
    ensures VisitedRefs(m, ps, i, cs, t) == VisitedRefs(m, ps, i, [cs[0]], t) + VisitedRefs(m, ps, i, cs[1..], t)
    decreases m.numTetrahedra - t
  {
    if t < m.numTetrahedra {
      SplitVisitedRefs(m, ps, i, cs, t + 1);
      assert [cs[0]][1..] == [];
      assert InRanges([cs[0]], t) <==> cs[0].start <= t < cs[0].end;
    }
  }

  /** Over disjoint ranges, adding up each worker's references counts every visited
      tetrahedron exactly once. */
  lemma {:induction false} ChunkRefsVisited(m: Model, ps: seq<Particle>, i: int, cs: seq<Range>)
    requires ValidModel(m, |ps|) && RangesWithin(cs, m.numTetrahedra) && Disjoint(cs)
    ensures ChunkRefs(m, ps, i, cs) == VisitedRefs(m, ps, i, cs, 0)
    decreases |cs|
  {
    if |cs| > 0 {
      var rest := cs[1..];
      forall a, b | 0 <= a < b < |rest| ensures rest[a].end <= rest[b].start {
        assert rest[a] == cs[a + 1] && rest[b] == cs[b + 1];
      }
      forall k | 0 <= k < |rest| ensures cs[0].end <= rest[k].start {
        assert rest[k] == cs[k + 1];
      }
      forall x | cs[0].start <= x < cs[0].end ensures !InRanges(rest, x) {
        BeforeRanges(rest, cs[0].end, x);
      }
      ChunkRefsVisited(m, ps, i, rest);
      SplitVisitedRefs(m, ps, i, cs, 0);
      RangeRefs(m, ps, i, cs[0], 0);
    } else {
      NoRangesNoRefs(m, ps, i, cs, 0);
    }
  }

  /** Without ranges no tetrahedron is visited. */
  lemma {:induction false} NoRangesNoRefs(m: Model, ps: seq<Particle>, i: int, cs: seq<Range>, t: int)
    requires ValidModel(m, |ps|) && 0 <= t && |cs| == 0
    ensures VisitedRefs(m, ps, i, cs, t) == 0
    decreases m.numTetrahedra - t
  {
    if t < m.numTetrahedra {
      NoRangesNoRefs(m, ps, i, cs, t + 1);
    }
  }

  /** The apply loop for one tetrahedron, slots 0..k-1: a free particle whose
      influence count is not zero moves by its accumulated correction, once for
      every slot that names it. */
  function ApplySlotsUpTo(tet: Tetrahedron, ps: seq<Particle>, acc: Accumulators, k: nat): (qs: seq<Particle>)
    requires WellFormed(tet, |ps|) && k <= 4 && Covers(acc, |ps|)
    ensures |qs| == |ps|
  {
    if k == 0 then ps
    else
      var before := ApplySlotsUpTo(tet, ps, acc, k - 1);
      var i := tet.vertexIndices[k - 1];
      var p := before[i];
      if p.inverseMass != 0.0 && acc.count[i] != 0 then
        before[i := p.(position := Add(p.position, acc.temp[i]))]
      else before
  }

  /** The apply loop over tetrahedra 0..t-1. */
  function ApplyTetsUpTo(m: Model, ps: seq<Particle>, acc: Accumulators, t: nat): (qs: seq<Particle>)
    requires ValidModel(m, |ps|) && t <= m.numTetrahedra && Covers(acc, |ps|)
    ensures |qs| == |ps|
  {
    if t == 0 then ps
    else ApplySlotsUpTo(m.tetrahedra[t - 1], ApplyTetsUpTo(m, ps, acc, t - 1), acc, 4)
  }

  lemma AddScaled(p: Vec3, a: real, v: Vec3)
    ensures Add(Add(p, Scale(a, v)), v) == Add(p, Scale(a + 1.0, v))
  {
    assert (a + 1.0) * v.x == a * v.x + v.x;
    assert (a + 1.0) * v.y == a * v.y + v.y;
    assert (a + 1.0) * v.z == a * v.z + v.z;
  }

  /** The apply loop as a closed form: particle i ends at its position plus its
      accumulated correction times the number of slots naming it, when it is free
      and its count is not zero; otherwise it is unchanged. */
  lemma {:induction false} ApplySlotsClosedForm(tet: Tetrahedron, ps: seq<Particle>, acc: Accumulators, k: nat, i: int)
    requires WellFormed(tet, |ps|) && k <= 4 && Covers(acc, |ps|) && 0 <= i < |ps|
    ensures ApplySlotsUpTo(tet, ps, acc, k)[i] ==
      if ps[i].inverseMass != 0.0 && acc.count[i] != 0
      then ps[i].(position := Add(ps[i].position, Scale(SlotRefs(tet, i, k) as real, acc.temp[i])))
      else ps[i]
  {
    if k > 0 {
      ApplySlotsClosedForm(tet, ps, acc, k - 1, i);
      if ps[i].inverseMass != 0.0 && acc.count[i] != 0 {
        AddScaled(ps[i].position, SlotRefs(tet, i, k - 1) as real, acc.temp[i]);
      }
    } else if ps[i].inverseMass != 0.0 && acc.count[i] != 0 {
      ScaleZero(ps[i].position, acc.temp[i]);
    }
  }

  lemma ScaleZero(p: Vec3, v: Vec3)
    ensures Add(p, Scale(0.0, v)) == p
  {
  }

  lemma AddScaledTwice(p: Vec3, a: real, b: real, v: Vec3)
    ensures Add(Add(p, Scale(a, v)), Scale(b, v)) == Add(p, Scale(a + b, v))
  {
    assert (a + b) * v.x == a * v.x + b * v.x;
    assert (a + b) * v.y == a * v.y + b * v.y;
    assert (a + b) * v.z == a * v.z + b * v.z;
  }

  /** The whole apply loop: a free particle with a nonzero count moves by its
      accumulated correction once per slot naming it in any tetrahedron (not
      divided by the count); every other particle stays. */
  lemma {:induction false} ApplyTetsClosedForm(m: Model, ps: seq<Particle>, acc: Accumulators, t: nat, i: int)
    requires ValidModel(m, |ps|) && t <= m.numTetrahedra && Covers(acc, |ps|) && 0 <= i < |ps|
    ensures ApplyTetsUpTo(m, ps, acc, t)[i] ==
      if ps[i].inverseMass != 0.0 && acc.count[i] != 0
      then ps[i].(position := Add(ps[i].position, Scale(Refs(m, i, t) as real, acc.temp[i])))
      else ps[i]
  {
    if t > 0 {
      var before := ApplyTetsUpTo(m, ps, acc, t - 1);
      ApplyTetsClosedForm(m, ps, acc, t - 1, i);
      ApplySlotsClosedForm(m.tetrahedra[t - 1], before, acc, 4, i);
      if ps[i].inverseMass != 0.0 && acc.count[i] != 0 {
        AddScaledTwice(ps[i].position, Refs(m, i, t - 1) as real, SlotRefs(m.tetrahedra[t - 1], i, 4) as real, acc.temp[i]);
      }
    } else if ps[i].inverseMass != 0.0 && acc.count[i] != 0 {
      ScaleZero(ps[i].position, acc.temp[i]);
    }
  }

  /** The reset loop: the first n entries of both accumulators are cleared. */
  function Reset(acc: Accumulators, n: nat): (r: Accumulators)
    requires Covers(acc, n)
    ensures SameShape(acc, r)
    ensures forall i :: 0 <= i < n ==> r.temp[i] == Zero && r.count[i] == 0
    ensures forall i :: n <= i < |acc.temp| ==> r.temp[i] == acc.temp[i]
    ensures forall i :: n <= i < |acc.count| ==> r.count[i] == acc.count[i]
  {
    Accumulators(seq(|acc.temp|, i requires 0 <= i < |acc.temp| => if i < n then Zero else acc.temp[i]),
                 seq(|acc.count|, i requires 0 <= i < |acc.count| => if i < n then 0 else acc.count[i]))
  }

  /** The state the relaxed projection changes: the particles and the two
      accumulator arrays, plus whether every multiplier was finite. */
  datatype SorState = SorState(particles: seq<Particle>, acc: Accumulators, finite: bool)

  /** Every tetrahedron the workers visit has a finite multiplier. */
  predicate ChunksFinite(m: Model, ps: seq<Particle>)
    requires ValidModel(m, |ps|)
    requires m.numTetrahedra == 0 || m.numTetrahedra >= NumThreads
  {
    forall t :: 0 <= t < m.numTetrahedra && InRanges(Chunks(m.numTetrahedra), t) ==> TetFinite(m, t, ps)
  }

  /** One iteration: reset, accumulate over the chunks, apply. */
  function SorIteration(m: Model, ps: seq<Particle>, acc: Accumulators): (r: SorState)
    requires ValidModel(m, |ps|) && Covers(acc, |ps|)
    requires m.numTetrahedra == 0 || m.numTetrahedra >= NumThreads
    ensures |r.particles| == |ps| && SameShape(acc, r.acc)
  {
    var cleared := Reset(acc, |ps|);
    var summed := AccumulateChunks(m, ps, cleared, Chunks(m.numTetrahedra));
    SorState(ApplyTetsUpTo(m, ps, summed, m.numTetrahedra), summed, ChunksFinite(m, ps))
  }

  /** numConstraintIts iterations. */
  function SorIterations(m: Model, its: int, ps: seq<Particle>, acc: Accumulators): (r: SorState)
    requires ValidModel(m, |ps|) && Covers(acc, |ps|)
    requires its <= 0 || m.numTetrahedra == 0 || m.numTetrahedra >= NumThreads
    ensures |r.particles| == |ps| && SameShape(acc, r.acc)
    decreases its
  {
    if its <= 0 then SorState(ps, acc, true)
    else
      var first := SorIteration(m, ps, acc);
      var rest := SorIterations(m, its - 1, first.particles, first.acc);
      SorState(rest.particles, rest.acc, first.finite && rest.finite)
  }

  /** The first of several iterations, unfolded: the rest start from its particles
      and accumulators. */
  lemma SorIterationsUnfold(m: Model, its: int, ps: seq<Particle>, acc: Accumulators)
    requires ValidModel(m, |ps|) && Covers(acc, |ps|)
    requires its > 0 && (m.numTetrahedra == 0 || m.numTetrahedra >= NumThreads)
    ensures var first := SorIteration(m, ps, acc);
      var rest := SorIterations(m, its - 1, first.particles, first.acc);
      SorIterations(m, its, ps, acc).particles == rest.particles && SorIterations(m, its, ps, acc).acc == rest.acc
  {
  }

  /** One iteration moves only the position of particle i, and not even that when
      the particle is pinned. */
  lemma SorIterationKeepsPinnedAt(m: Model, ps: seq<Particle>, acc: Accumulators, i: int)
    requires ValidModel(m, |ps|) && Covers(acc, |ps|)
    requires m.numTetrahedra == 0 || m.numTetrahedra >= NumThreads
    requires 0 <= i < |ps|
    ensures SameButPosition(ps[i], SorIteration(m, ps, acc).particles[i])
    ensures ps[i].inverseMass == 0.0 ==> SorIteration(m, ps, acc).particles[i] == ps[i]
  {
    var summed := AccumulateChunks(m, ps, Reset(acc, |ps|), Chunks(m.numTetrahedra));
    ApplyTetsClosedForm(m, ps, summed, m.numTetrahedra, i);
  }

  /** One iteration moves only positions, and never a pinned particle. */
  lemma SorIterationKeepsPinned(m: Model, ps: seq<Particle>, acc: Accumulators)
    requires ValidModel(m, |ps|) && Covers(acc, |ps|)
    requires m.numTetrahedra == 0 || m.numTetrahedra >= NumThreads
    ensures OnlyPositionsDiffer(ps, SorIteration(m, ps, acc).particles)
    ensures PinnedUnchanged(ps, SorIteration(m, ps, acc).particles)
  {
    forall i | 0 <= i < |ps|
      ensures SameButPosition(ps[i], SorIteration(m, ps, acc).particles[i])
      ensures ps[i].inverseMass == 0.0 ==> SorIteration(m, ps, acc).particles[i] == ps[i]
    {
      SorIterationKeepsPinnedAt(m, ps, acc, i);
    }
  }

  /** Every iteration moves only positions, and never a pinned particle: particle i
      after all iterations. */
  lemma {:induction false} SorIterationsKeepPinnedAt(m: Model, its: int, ps: seq<Particle>, acc: Accumulators, i: int)
    requires ValidModel(m, |ps|) && Covers(acc, |ps|)
    requires its <= 0 || m.numTetrahedra == 0 || m.numTetrahedra >= NumThreads
    requires 0 <= i < |ps|
    ensures SameButPosition(ps[i], SorIterations(m, its, ps, acc).particles[i])
    ensures ps[i].inverseMass == 0.0 ==> SorIterations(m, its, ps, acc).particles[i] == ps[i]
    decreases its
  {
    if its > 0 {
      var first := SorIteration(m, ps, acc);
      SorIterationKeepsPinnedAt(m, ps, acc, i);
      SorIterationsKeepPinnedAt(m, its - 1, first.particles, first.acc, i);
    }
  }

  /** Every iteration moves only positions, and never a pinned particle. */
  lemma SorIterationsKeepPinned(m: Model, its: int, ps: seq<Particle>, acc: Accumulators)
    requires ValidModel(m, |ps|) && Covers(acc, |ps|)
    requires its <= 0 || m.numTetrahedra == 0 || m.numTetrahedra >= NumThreads
    ensures OnlyPositionsDiffer(ps, SorIterations(m, its, ps, acc).particles)
    ensures PinnedUnchanged(ps, SorIterations(m, its, ps, acc).particles)
  {
    forall i | 0 <= i < |ps|
      ensures SameButPosition(ps[i], SorIterations(m, its, ps, acc).particles[i])
      ensures ps[i].inverseMass == 0.0 ==> SorIterations(m, its, ps, acc).particles[i] == ps[i]
    {
      SorIterationsKeepPinnedAt(m, its, ps, acc, i);
    }
  }

  /** After an iteration a free particle's influence count is the number of slots
      naming it in the deformed tetrahedra the workers visit, and a pinned
      particle's count is zero. */
  lemma SorIterationCounts(m: Model, ps: seq<Particle>, acc: Accumulators, i: int)
    requires ValidModel(m, |ps|) && Covers(acc, |ps|)
    requires m.numTetrahedra == 0 || m.numTetrahedra >= NumThreads
    requires 0 <= i < |ps|
    ensures SorIteration(m, ps, acc).acc.count[i] ==
      if ps[i].inverseMass != 0.0 then VisitedRefs(m, ps, i, Chunks(m.numTetrahedra), 0) else 0
  {
    var cs := Chunks(m.numTetrahedra);
    AccumulateChunksCounts(m, ps, Reset(acc, |ps|), cs, i);
    ChunksShape(m.numTetrahedra);
    ChunkRefsVisited(m, ps, i, cs);
  }

  /** What one iteration does to particle i: a free particle named by some deformed
      tetrahedron the workers visit moves by its accumulated correction once for
      every slot naming it in any tetrahedron; every other particle stays. */
  lemma SorIterationMoves(m: Model, ps: seq<Particle>, acc: Accumulators, i: int)
    requires ValidModel(m, |ps|) && Covers(acc, |ps|)
    requires m.numTetrahedra == 0 || m.numTetrahedra >= NumThreads
    requires 0 <= i < |ps|
    ensures var r := SorIteration(m, ps, acc);
      r.particles[i] ==
        if ps[i].inverseMass != 0.0 && VisitedRefs(m, ps, i, Chunks(m.numTetrahedra), 0) != 0
        then ps[i].(position := Add(ps[i].position, Scale(Refs(m, i, m.numTetrahedra) as real, r.acc.temp[i])))
        else ps[i]
  {
    SorIterationCounts(m, ps, acc, i);
    var summed := AccumulateChunks(m, ps, Reset(acc, |ps|), Chunks(m.numTetrahedra));
    ApplyTetsClosedForm(m, ps, summed, m.numTetrahedra, i);
  }

  /** A zero multiplier adds nothing to any accumulated correction. */
  lemma {:induction false} ScatterZeroMultiplier(tet: Tetrahedron, ps: seq<Particle>, acc: Accumulators, g: seq<Vec3>, k: nat)
    requires WellFormed(tet, |ps|) && |g| == 4 && k <= 4 && Covers(acc, |ps|)
    ensures ScatterUpTo(tet, ps, acc, 0.0, g, k).temp == acc.temp
  {
    if k > 0 {
      ScatterZeroMultiplier(tet, ps, acc, g, k - 1);
      var i := tet.vertexIndices[k - 1];
      assert Add(acc.temp[i], Scale(ps[i].inverseMass * 0.0, g[k - 1])) == acc.temp[i];
      assert acc.temp[i := acc.temp[i]] == acc.temp;
    }
  }

  /** A tetrahedron that stores no strain energy has a finite multiplier (0/0 is
      replaced by zero) and adds nothing to the accumulated corrections. */
  lemma AccumulateTetAtRest(m: Model, t: int, ps: seq<Particle>, acc: Accumulators)
    requires ValidModel(m, |ps|) && 0 <= t < m.numTetrahedra && Covers(acc, |ps|) && StrainFree(m, ps, t)
    ensures AccumulateTet(m, t, ps, acc).temp == acc.temp
    ensures TetFinite(m, t, ps)
  {
    var tet := m.tetrahedra[t];
    if !Undeformed(m, tet, ps) {
      var g := ConstraintGradient(m, tet, ps);
      var denominator := DenominatorUpTo(InverseMasses(tet, ps), Norms(m.num, g), 4);
      var lagrangeM := if denominator != 0.0 then -(0.0 / denominator) else 0.0;
      assert lagrangeM == 0.0;
      ScatterZeroMultiplier(tet, ps, acc, g, 4);
    }
  }

  /** A worker's range over a configuration at rest adds nothing to the
      accumulated corrections. */
  lemma {:induction false} AccumulateFromAtRest(m: Model, ps: seq<Particle>, acc: Accumulators, t: int, end: int)
    requires ValidModel(m, |ps|) && 0 <= t && end <= m.numTetrahedra && Covers(acc, |ps|) && AtRest(m, ps)
    ensures AccumulateFrom(m, ps, acc, t, end).temp == acc.temp
    decreases end - t
  {
    if t < end {
      AccumulateTetAtRest(m, t, ps, acc);
      AccumulateFromAtRest(m, ps, AccumulateTet(m, t, ps, acc), t + 1, end);
    }
  }

  /** All workers together, over a configuration at rest, add nothing to the
      accumulated corrections. */
  lemma {:induction false} AccumulateChunksAtRest(m: Model, ps: seq<Particle>, acc: Accumulators, cs: seq<Range>)
    requires ValidModel(m, |ps|) && RangesWithin(cs, m.numTetrahedra) && Covers(acc, |ps|) && AtRest(m, ps)
    ensures AccumulateChunks(m, ps, acc, cs).temp == acc.temp
    decreases |cs|
  {
    if |cs| > 0 {
      AccumulateFromAtRest(m, ps, acc, cs[0].start, cs[0].end);
      AccumulateChunksAtRest(m, ps, AccumulateFrom(m, ps, acc, cs[0].start, cs[0].end), cs[1..]);
    }
  }

  lemma ScaleOfZero(p: Vec3, a: real)
    ensures Add(p, Scale(a, Zero)) == p
  {
  }

  /** An iteration over a configuration at rest moves no particle and computes
      only finite multipliers: every correction it accumulates is zero, whichever
      particles it counts. */
  lemma SorIterationAtRest(m: Model, ps: seq<Particle>, acc: Accumulators)
    requires ValidModel(m, |ps|) && Covers(acc, |ps|)
    requires m.numTetrahedra == 0 || m.numTetrahedra >= NumThreads
    requires AtRest(m, ps)
    ensures SorIteration(m, ps, acc).particles == ps
    ensures SorIteration(m, ps, acc).finite
  {
    var r := SorIteration(m, ps, acc);
    AccumulateChunksAtRest(m, ps, Reset(acc, |ps|), Chunks(m.numTetrahedra));
    forall i | 0 <= i < |ps| ensures r.particles[i] == ps[i] {
      SorIterationMoves(m, ps, acc, i);
      ScaleOfZero(ps[i].position, Refs(m, i, m.numTetrahedra) as real);
    }
    forall t | 0 <= t < m.numTetrahedra && InRanges(Chunks(m.numTetrahedra), t) ensures TetFinite(m, t, ps) {
      AccumulateTetAtRest(m, t, ps, Reset(acc, |ps|));
    }
  }

  /** Every iteration over a configuration at rest leaves it where it is and
      computes only finite multipliers. */
  lemma {:induction false} SorIterationsAtRest(m: Model, its: int, ps: seq<Particle>, acc: Accumulators)
    requires ValidModel(m, |ps|) && Covers(acc, |ps|)
    requires its <= 0 || m.numTetrahedra == 0 || m.numTetrahedra >= NumThreads
    requires AtRest(m, ps)
    ensures SorIterations(m, its, ps, acc).particles == ps
    ensures SorIterations(m, its, ps, acc).finite
    decreases its
  {
    if its > 0 {
      SorIterationAtRest(m, ps, acc);
      var first := SorIteration(m, ps, acc);
      SorIterationsAtRest(m, its - 1, first.particles, first.acc);
    }
  }

  /** One more slot of the scatter, unfolded: slot k names particle i. */
  lemma ScatterStep(tet: Tetrahedron, ps: seq<Particle>, acc: Accumulators, lagrangeM: real, g: seq<Vec3>, k: nat,
                    before: Accumulators, i: int)
    requires WellFormed(tet, |ps|) && |g| == 4 && k < 4 && Covers(acc, |ps|)
    requires before == ScatterUpTo(tet, ps, acc, lagrangeM, g, k) && i == tet.vertexIndices[k]
    ensures ps[i].inverseMass == 0.0 ==> ScatterUpTo(tet, ps, acc, lagrangeM, g, k + 1) == before
    ensures ps[i].inverseMass != 0.0 ==>
      ScatterUpTo(tet, ps, acc, lagrangeM, g, k + 1) ==
      Accumulators(before.temp[i := Add(before.temp[i], Scale(ps[i].inverseMass * lagrangeM, g[k]))],
                   before.count[i := before.count[i] + 1])
  {
    var r := ScatterUpTo(tet, ps, acc, lagrangeM, g, k + 1);
    if ps[i].inverseMass != 0.0 {
      var temp := before.temp[i := Add(before.temp[i], Scale(ps[i].inverseMass * lagrangeM, g[k]))];
      assert forall j :: 0 <= j < |r.temp| ==> r.temp[j] == temp[j];
      assert r.temp == temp;
    }
  }

  /** The denominator loop of the relaxed solver: inverse mass times column length,
      summed over the slots whose inverse mass is not zero. */
  method NormDenominator(particles: array<Particle>, tet: Tetrahedron, gradient: seq<Vec3>, num: Numerics) returns (denominator: real)
    requires WellFormed(tet, particles.Length) && |gradient| == 4
    ensures denominator == DenominatorUpTo(InverseMasses(tet, particles[..]), Norms(num, gradient), 4)
  {
    ghost var w := InverseMasses(tet, particles[..]);
    ghost var sizes := Norms(num, gradient);
    denominator := 0.0;
    var cI := 0;
    while cI < 4
      invariant 0 <= cI <= 4
      invariant denominator == DenominatorUpTo(w, sizes, cI)
    {
      var inverseMass := particles[tet.vertexIndices[cI]].inverseMass;
      DenominatorStep(w, sizes, cI, inverseMass, num.norm(gradient[cI]));
      if inverseMass != 0.0 {
        denominator := denominator + inverseMass * num.norm(gradient[cI]);
      }
      cI := cI + 1;
    }
  }

  /** The scatter loop, run under the workers' mutex. */
  method Scatter(particles: array<Particle>, tet: Tetrahedron, lagrangeM: real, gradient: seq<Vec3>,
                 temporaryPositions: array<Vec3>, numConstraintInfluences: array<int>)
    requires WellFormed(tet, particles.Length) && |gradient| == 4
    requires particles.Length <= temporaryPositions.Length && particles.Length <= numConstraintInfluences.Length
    modifies temporaryPositions, numConstraintInfluences
    ensures Accumulators(temporaryPositions[..], numConstraintInfluences[..]) ==
      ScatterUpTo(tet, particles[..], Accumulators(old(temporaryPositions[..]), old(numConstraintInfluences[..])), lagrangeM, gradient, 4)
  {
    ghost var acc := Accumulators(temporaryPositions[..], numConstraintInfluences[..]);
    ghost var ps := particles[..];
    var cI := 0;
    while cI < 4
      invariant 0 <= cI <= 4
      invariant Accumulators(temporaryPositions[..], numConstraintInfluences[..]) ==
        ScatterUpTo(tet, ps, acc, lagrangeM, gradient, cI)
    {
      var i := tet.vertexIndices[cI];
      ghost var temp := temporaryPositions[..];
      ghost var count := numConstraintInfluences[..];
      ScatterStep(tet, ps, acc, lagrangeM, gradient, cI, Accumulators(temp, count), i);
      var inverseMass := particles[i].inverseMass;
      if inverseMass != 0.0 {
        var deltaX := Scale(inverseMass * lagrangeM, gradient[cI]);
        temporaryPositions[i] := Add(temporaryPositions[i], deltaX);
        numConstraintInfluences[i] := numConstraintInfluences[i] + 1;
        assert temporaryPositions[..] == temp[i := Add(temp[i], deltaX)];
        assert numConstraintInfluences[..] == count[i := count[i] + 1];
        assert inverseMass == ps[i].inverseMass;
        assert deltaX == Scale(ps[i].inverseMass * lagrangeM, gradient[cI]);
        assert ScatterUpTo(tet, ps, acc, lagrangeM, gradient, cI + 1) ==
          Accumulators(temp[i := Add(temp[i], Scale(ps[i].inverseMass * lagrangeM, gradient[cI]))], count[i := count[i] + 1]);
      }
      cI := cI + 1;
    }
  }

  /** The body of a worker's loop for tetrahedron t. */
  method AccumulateTetInPlace(particles: array<Particle>, m: Model, t: int,
                              temporaryPositions: array<Vec3>, numConstraintInfluences: array<int>)
    requires ValidModel(m, particles.Length) && 0 <= t < m.numTetrahedra
    requires particles.Length <= temporaryPositions.Length && particles.Length <= numConstraintInfluences.Length
    modifies temporaryPositions, numConstraintInfluences
    ensures Accumulators(temporaryPositions[..], numConstraintInfluences[..]) ==
      AccumulateTet(m, t, particles[..], Accumulators(old(temporaryPositions[..]), old(numConstraintInfluences[..])))
  {
    var tet := m.tetrahedra[t];
    var f := DeformationGradientOf(m.num, tet, particles[..]);
    if IsIdentity(f) {
      return;
    }
    var out := m.kernel(f, tet.undeformedVolume, m.mu, m.lambda);
    var strainEnergy := out.energy;
    var gradient := Gradient(tet.undeformedVolume, out.epsilon, tet.referenceShapeMatrixInverseTranspose);
    var denominator := NormDenominator(particles, tet, gradient, m.num);
    // 0/0 is NaN in the source and replaced by 0; a nonzero energy over a zero
    // denominator is excluded by the finiteness requirement of the caller.
    var lagrangeM := if denominator != 0.0 then -(strainEnergy / denominator) else 0.0;
    Scatter(particles, tet, lagrangeM, gradient, temporaryPositions, numConstraintInfluences);
  }

  /** projectConstraintsSOR_CORE: tetrahedra start..end-1 into the accumulators. */
  method ProjectConstraintsSORCore(particles: array<Particle>, m: Model,
                                   temporaryPositions: array<Vec3>, numConstraintInfluences: array<int>,
                                   start: int, end: int)
    requires ValidModel(m, particles.Length) && 0 <= start <= end <= m.numTetrahedra
    requires particles.Length <= temporaryPositions.Length && particles.Length <= numConstraintInfluences.Length
    modifies temporaryPositions, numConstraintInfluences
    ensures Accumulators(temporaryPositions[..], numConstraintInfluences[..]) ==
      AccumulateFrom(m, old(particles[..]), Accumulators(old(temporaryPositions[..]), old(numConstraintInfluences[..])), start, end)
  {
    var t := start;
    while t != end
      invariant start <= t <= end
      invariant AccumulateFrom(m, particles[..], Accumulators(temporaryPositions[..], numConstraintInfluences[..]), t, end) ==
        AccumulateFrom(m, particles[..], Accumulators(old(temporaryPositions[..]), old(numConstraintInfluences[..])), start, end)
      decreases end - t
    {
      AccumulateTetInPlace(particles, m, t, temporaryPositions, numConstraintInfluences);
      t := t + 1;
    }
  }

  /** The reset loop over the particles. */
  method ResetAccumulators(numParticles: int, temporaryPositions: array<Vec3>, numConstraintInfluences: array<int>)
    requires 0 <= numParticles <= temporaryPositions.Length && numParticles <= numConstraintInfluences.Length
    modifies temporaryPositions, numConstraintInfluences
    ensures Accumulators(temporaryPositions[..], numConstraintInfluences[..]) ==
      Reset(Accumulators(old(temporaryPositions[..]), old(numConstraintInfluences[..])), numParticles)
  {
    var t := 0;
    while t < numParticles
      invariant 0 <= t <= numParticles
      invariant forall i :: 0 <= i < t ==> temporaryPositions[i] == Zero && numConstraintInfluences[i] == 0
      invariant forall i :: t <= i < temporaryPositions.Length ==> temporaryPositions[i] == old(temporaryPositions[i])
      invariant forall i :: t <= i < numConstraintInfluences.Length ==> numConstraintInfluences[i] == old(numConstraintInfluences[i])
    {
      temporaryPositions[t] := Zero;
      numConstraintInfluences[t] := 0;
      t := t + 1;
    }
  }

  /** One more slot of the apply loop, unfolded. */
  lemma ApplySlotsStep(tet: Tetrahedron, ps: seq<Particle>, acc: Accumulators, k: nat, before: seq<Particle>)
    requires WellFormed(tet, |ps|) && k < 4 && Covers(acc, |ps|)
    requires before == ApplySlotsUpTo(tet, ps, acc, k)
    ensures var i := tet.vertexIndices[k];
      ApplySlotsUpTo(tet, ps, acc, k + 1) ==
        if before[i].inverseMass != 0.0 && acc.count[i] != 0
        then before[i := before[i].(position := Add(before[i].position, acc.temp[i]))]
        else before
  {
    var i := tet.vertexIndices[k];
    var r := ApplySlotsUpTo(tet, ps, acc, k + 1);
    if before[i].inverseMass != 0.0 && acc.count[i] != 0 {
      var e := before[i := before[i].(position := Add(before[i].position, acc.temp[i]))];
      assert forall j :: 0 <= j < |r| ==> r[j] == e[j];
      assert r == e;
    }
  }

  /** The apply loop body for one tetrahedron. */
  method ApplySlots(particles: array<Particle>, tet: Tetrahedron,
                    temporaryPositions: array<Vec3>, numConstraintInfluences: array<int>)
    requires WellFormed(tet, particles.Length)
    requires particles.Length <= temporaryPositions.Length && particles.Length <= numConstraintInfluences.Length
    modifies particles
    ensures particles[..] ==
      ApplySlotsUpTo(tet, old(particles[..]), Accumulators(temporaryPositions[..], numConstraintInfluences[..]), 4)
  {
    ghost var acc := Accumulators(temporaryPositions[..], numConstraintInfluences[..]);
    var cI := 0;
    while cI < 4
      invariant 0 <= cI <= 4
      invariant particles[..] == ApplySlotsUpTo(tet, old(particles[..]), acc, cI)
    {
      var i := tet.vertexIndices[cI];
      ApplySlotsStep(tet, old(particles[..]), acc, cI, particles[..]);
      var p := particles[i];
      if p.inverseMass != 0.0 {
        if numConstraintInfluences[i] != 0 {
          particles[i] := p.(position := Add(p.position, temporaryPositions[i]));
        }
      }
      cI := cI + 1;
    }
  }

  /** The first chunk of the chunk loop at t, and the chunks after it. */
  lemma AccumulateFirstChunk(m: Model, ps: seq<Particle>, acc: Accumulators, n: int, step: int, t: int, end: int)
    requires ValidModel(m, |ps|) && Covers(acc, |ps|) && n == m.numTetrahedra
    requires step > 0 && 0 <= t < n && end == (if t < n - step - 1 then t + step - 1 else n - 1)
    requires RangesWithin(ChunksFrom(n, step, t), n)
    ensures 0 <= t <= end <= n && RangesWithin(ChunksFrom(n, step, t + step), n)
    ensures AccumulateChunks(m, ps, acc, ChunksFrom(n, step, t)) ==
      AccumulateChunks(m, ps, AccumulateFrom(m, ps, acc, t, end), ChunksFrom(n, step, t + step))
  {
    var cs := ChunksFrom(n, step, t);
    assert cs[0] == Range(t, end);
    assert cs[1..] == ChunksFrom(n, step, t + step);
  }

  /** One turn of the chunk loop: hand the chunk starting at t to a worker. */
  method RunChunk(particles: array<Particle>, m: Model,
                  temporaryPositions: array<Vec3>, numConstraintInfluences: array<int>,
                  n: int, stepSize: int, t: int, ghost ps: seq<Particle>, ghost target: Accumulators)
    returns (next: int)
    requires ValidModel(m, particles.Length) && n == m.numTetrahedra && ps == particles[..]
    requires particles.Length <= temporaryPositions.Length && particles.Length <= numConstraintInfluences.Length
    requires stepSize > 0 && 0 <= t < n && RangesWithin(ChunksFrom(n, stepSize, t), n)
    requires AccumulateChunks(m, ps, Accumulators(temporaryPositions[..], numConstraintInfluences[..]), ChunksFrom(n, stepSize, t)) == target
    modifies temporaryPositions, numConstraintInfluences
    ensures next == t + stepSize && RangesWithin(ChunksFrom(n, stepSize, next), n)
    ensures AccumulateChunks(m, ps, Accumulators(temporaryPositions[..], numConstraintInfluences[..]), ChunksFrom(n, stepSize, next)) == target
  {
    // The two branches of the loop start the same worker and differ only in the end.
    var end := if t < n - stepSize - 1 then t + stepSize - 1 else n - 1;
    AccumulateFirstChunk(m, ps, Accumulators(temporaryPositions[..], numConstraintInfluences[..]), n, stepSize, t, end);
    ProjectConstraintsSORCore(particles, m, temporaryPositions, numConstraintInfluences, t, end);
    next := t + stepSize;
  }

  /** The loop that hands the chunks to the workers, run one worker after the other. */
  method RunChunks(particles: array<Particle>, m: Model,
                   temporaryPositions: array<Vec3>, numConstraintInfluences: array<int>)
    requires ValidModel(m, particles.Length)
    requires m.numTetrahedra == 0 || m.numTetrahedra >= NumThreads
    requires particles.Length <= temporaryPositions.Length && particles.Length <= numConstraintInfluences.Length
    modifies temporaryPositions, numConstraintInfluences
    ensures Accumulators(temporaryPositions[..], numConstraintInfluences[..]) ==
      AccumulateChunks(m, particles[..], Accumulators(old(temporaryPositions[..]), old(numConstraintInfluences[..])), Chunks(m.numTetrahedra))
  {
    var n: int := m.numTetrahedra;
    var stepSize := n / NumThreads;
    if n == 0 {
      return;
    }
    assert stepSize > 0;
    ghost var ps := particles[..];
    assert Chunks(n) == ChunksFrom(n, stepSize, 0);
    ghost var target := AccumulateChunks(m, ps, Accumulators(temporaryPositions[..], numConstraintInfluences[..]), Chunks(n));
    ChunksFromWithin(n, stepSize, 0);
    var t: int := 0;
    while t < n
      invariant 0 <= t && RangesWithin(ChunksFrom(n, stepSize, t), n)
      invariant AccumulateChunks(m, ps, Accumulators(temporaryPositions[..], numConstraintInfluences[..]), ChunksFrom(n, stepSize, t)) == target
      decreases n - t
    {
      t := RunChunk(particles, m, temporaryPositions, numConstraintInfluences, n, stepSize, t, ps, target);
    }
    assert ChunksFrom(n, stepSize, t) == [];
  }

  /** The apply loop over all tetrahedra. */
  method ApplyAll(particles: array<Particle>, m: Model,
                  temporaryPositions: array<Vec3>, numConstraintInfluences: array<int>)
    requires ValidModel(m, particles.Length)
    requires particles.Length <= temporaryPositions.Length && particles.Length <= numConstraintInfluences.Length
    modifies particles
    ensures particles[..] ==
      ApplyTetsUpTo(m, old(particles[..]), Accumulators(temporaryPositions[..], numConstraintInfluences[..]), m.numTetrahedra)
  {
    var t := 0;
    while t < m.numTetrahedra
      invariant 0 <= t <= m.numTetrahedra
      invariant particles[..] ==
        ApplyTetsUpTo(m, old(particles[..]), Accumulators(temporaryPositions[..], numConstraintInfluences[..]), t)
    {
      ApplySlots(particles, m.tetrahedra[t], temporaryPositions, numConstraintInfluences);
      t := t + 1;
    }
  }

  /** One iteration of projectConstraintsSOR. */
  method SorIterationInPlace(particles: array<Particle>, m: Model,
                             temporaryPositions: array<Vec3>, numConstraintInfluences: array<int>)
    requires ValidModel(m, particles.Length)
    requires m.numTetrahedra == 0 || m.numTetrahedra >= NumThreads
    requires particles.Length <= temporaryPositions.Length && particles.Length <= numConstraintInfluences.Length
    modifies particles, temporaryPositions, numConstraintInfluences
    ensures var r := SorIteration(m, old(particles[..]), Accumulators(old(temporaryPositions[..]), old(numConstraintInfluences[..])));
      particles[..] == r.particles && Accumulators(temporaryPositions[..], numConstraintInfluences[..]) == r.acc
  {
    ResetAccumulators(particles.Length, temporaryPositions, numConstraintInfluences);
    RunChunks(particles, m, temporaryPositions, numConstraintInfluences);
    ApplyAll(particles, m, temporaryPositions, numConstraintInfluences);
  }

  /** projectConstraintsSOR: numConstraintIts iterations of reset, the workers'
      chunks one after the other, and the apply loop. A run with a non-finite
      multiplier produces NaN or infinite positions in the source and is excluded. */
  method ProjectConstraintsSOR(particles: array<Particle>, m: Model, numConstraintIts: int,
                               temporaryPositions: array<Vec3>, numConstraintInfluences: array<int>)
    requires ValidModel(m, particles.Length)
    requires numConstraintIts <= 0 || m.numTetrahedra == 0 || m.numTetrahedra >= NumThreads
    requires particles.Length <= temporaryPositions.Length && particles.Length <= numConstraintInfluences.Length
    requires SorIterations(m, numConstraintIts, particles[..], Accumulators(temporaryPositions[..], numConstraintInfluences[..])).finite
    modifies particles, temporaryPositions, numConstraintInfluences
    ensures var r := SorIterations(m, numConstraintIts, old(particles[..]),
                                   Accumulators(old(temporaryPositions[..]), old(numConstraintInfluences[..])));
      particles[..] == r.particles && Accumulators(temporaryPositions[..], numConstraintInfluences[..]) == r.acc
  {
    ghost var r0 := SorIterations(m, numConstraintIts, particles[..], Accumulators(temporaryPositions[..], numConstraintInfluences[..]));
    var it := 0;
    while it < numConstraintIts
      invariant 0 <= it && (it <= numConstraintIts || it == 0)
      invariant var r := SorIterations(m, numConstraintIts - it, particles[..], Accumulators(temporaryPositions[..], numConstraintInfluences[..]));
        r.particles == r0.particles && r.acc == r0.acc
    {
      ghost var ps := particles[..];
      ghost var acc := Accumulators(temporaryPositions[..], numConstraintInfluences[..]);
      SorIterationsUnfold(m, numConstraintIts - it, ps, acc);
      SorIterationInPlace(particles, m, temporaryPositions, numConstraintInfluences);
      it := it + 1;
    }
  }
}
