/** projectConstraints: the sequential (Gauss-Seidel) energy-constraint projection.
    Each pass walks the tetrahedra from the last to the first and moves the free
    vertices of each one in place, so later tetrahedra see the moved positions. */
module Sequential {
  import opened LinearAlgebra
  import opened Mesh
  import opened Elasticity
  import opened Constraint

  /** Energies above this are divided by DampingDivisor (1.0e-3f in the source). */
  const DampingThreshold: real := 0.001

  const DampingDivisor: real := 50.0

  /** Slots 0..k-1 of the tetrahedron after their corrections, applied in slot order:
      a vertex whose inverse mass w is not zero moves by (w lagrangeM) times its
      gradient column; a pinned vertex stays where it is. */
  function ApplyUpTo(tet: Tetrahedron, ps: seq<Particle>, lagrangeM: real, g: seq<Vec3>, k: nat): (qs: seq<Particle>)
    requires WellFormed(tet, |ps|) && |g| == 4 && k <= 4
    ensures |qs| == |ps|
  {
    if k == 0 then ps
    else
      var before := ApplyUpTo(tet, ps, lagrangeM, g, k - 1);
      var i := tet.vertexIndices[k - 1];
      var p := before[i];
      if p.inverseMass != 0.0 then
        before[i := p.(position := Add(p.position, Scale(p.inverseMass * lagrangeM, g[k - 1])))]
      else before
  }

  /** One more slot: the state after slots 0..k is the state after slots 0..k-1
      with the correction of slot k applied. */
  lemma ApplyStep(tet: Tetrahedron, ps: seq<Particle>, lagrangeM: real, g: seq<Vec3>, k: nat,
                  before: seq<Particle>, p: Particle)
    requires WellFormed(tet, |ps|) && |g| == 4 && k < 4
    requires before == ApplyUpTo(tet, ps, lagrangeM, g, k) && p == before[tet.vertexIndices[k]]
    ensures p.inverseMass == 0.0 ==> ApplyUpTo(tet, ps, lagrangeM, g, k + 1) == before
    ensures p.inverseMass != 0.0 ==>
      ApplyUpTo(tet, ps, lagrangeM, g, k + 1) ==
      before[tet.vertexIndices[k] := p.(position := Add(p.position, Scale(p.inverseMass * lagrangeM, g[k])))]
  {
    var r := ApplyUpTo(tet, ps, lagrangeM, g, k + 1);
    var e := before[tet.vertexIndices[k] := p.(position := Add(p.position, Scale(p.inverseMass * lagrangeM, g[k])))];
    if p.inverseMass != 0.0 {
      assert |r| == |e|;
      assert forall j :: 0 <= j < |r| ==> r[j] == e[j];
      assert r == e;
    }
  }

  /** Applying corrections changes positions only, never those of pinned particles,
      and never those of particles outside the tetrahedron. */
  lemma {:induction false} ApplyMovesFreeVerticesOnly(tet: Tetrahedron, ps: seq<Particle>, lagrangeM: real, g: seq<Vec3>, k: nat)
    requires WellFormed(tet, |ps|) && |g| == 4 && k <= 4
    ensures OnlyPositionsDiffer(ps, ApplyUpTo(tet, ps, lagrangeM, g, k))
    ensures PinnedUnchanged(ps, ApplyUpTo(tet, ps, lagrangeM, g, k))
    ensures forall i :: 0 <= i < |ps| && i !in tet.vertexIndices[..k] ==> ApplyUpTo(tet, ps, lagrangeM, g, k)[i] == ps[i]
  {
    if k > 0 {
      ApplyMovesFreeVerticesOnly(tet, ps, lagrangeM, g, k - 1);
    }
  }

  /** When the four vertex indices are distinct, each free vertex j ends up moved by
      exactly (w_j lagrangeM) times gradient column j. */
  lemma {:induction false} ApplyClosedForm(tet: Tetrahedron, ps: seq<Particle>, lagrangeM: real, g: seq<Vec3>, k: nat)
    requires WellFormed(tet, |ps|) && |g| == 4 && k <= 4
    requires forall a, b :: 0 <= a < b < 4 ==> tet.vertexIndices[a] != tet.vertexIndices[b]
    ensures forall j :: 0 <= j < k ==>
      var i := tet.vertexIndices[j];
      ApplyUpTo(tet, ps, lagrangeM, g, k)[i].position ==
        if ps[i].inverseMass != 0.0 then Add(ps[i].position, Scale(ps[i].inverseMass * lagrangeM, g[j]))
        else ps[i].position
  {
    forall j | 0 <= j < k
      ensures var i := tet.vertexIndices[j];
        ApplyUpTo(tet, ps, lagrangeM, g, k)[i].position ==
          if ps[i].inverseMass != 0.0 then Add(ps[i].position, Scale(ps[i].inverseMass * lagrangeM, g[j]))
          else ps[i].position
    {
      ApplyClosedFormAt(tet, ps, lagrangeM, g, k, j);
    }
  }

  /** ApplyClosedForm for slot j: by induction on the number of slots applied. */
  lemma {:induction false} ApplyClosedFormAt(tet: Tetrahedron, ps: seq<Particle>, lagrangeM: real, g: seq<Vec3>, k: nat, j: nat)
    requires WellFormed(tet, |ps|) && |g| == 4 && j < k <= 4
    requires forall a, b :: 0 <= a < b < 4 ==> tet.vertexIndices[a] != tet.vertexIndices[b]
    ensures var i := tet.vertexIndices[j];
      ApplyUpTo(tet, ps, lagrangeM, g, k)[i].position ==
        if ps[i].inverseMass != 0.0 then Add(ps[i].position, Scale(ps[i].inverseMass * lagrangeM, g[j]))
        else ps[i].position
  {
    if j < k - 1 {
      ApplySlotKeepsOthers(tet, ps, lagrangeM, g, k, tet.vertexIndices[j]);
      ApplyClosedFormAt(tet, ps, lagrangeM, g, k - 1, j);
    } else {
      assert tet.vertexIndices[j] !in tet.vertexIndices[..j];
      ApplyFirstVisit(tet, ps, lagrangeM, g, k);
    }
  }

  /** Applying slot k-1 leaves every particle but the one that slot names as it
      was. */
  lemma ApplySlotKeepsOthers(tet: Tetrahedron, ps: seq<Particle>, lagrangeM: real, g: seq<Vec3>, k: nat, x: int)
    requires WellFormed(tet, |ps|) && |g| == 4 && 0 < k <= 4 && 0 <= x < |ps| && x != tet.vertexIndices[k - 1]
    ensures ApplyUpTo(tet, ps, lagrangeM, g, k)[x] == ApplyUpTo(tet, ps, lagrangeM, g, k - 1)[x]
  {
    var before := ApplyUpTo(tet, ps, lagrangeM, g, k - 1);
    assert ApplyUpTo(tet, ps, lagrangeM, g, k)[x] == before[x];
  }

  /** Slot k-1, when no earlier slot names its particle, moves that particle from
      where it started. */
  lemma ApplyFirstVisit(tet: Tetrahedron, ps: seq<Particle>, lagrangeM: real, g: seq<Vec3>, k: nat)
    requires WellFormed(tet, |ps|) && |g| == 4 && 0 < k <= 4
    requires tet.vertexIndices[k - 1] !in tet.vertexIndices[..k - 1]
    ensures var i := tet.vertexIndices[k - 1];
      ApplyUpTo(tet, ps, lagrangeM, g, k)[i].position ==
        if ps[i].inverseMass != 0.0 then Add(ps[i].position, Scale(ps[i].inverseMass * lagrangeM, g[k - 1]))
        else ps[i].position
  {
    var i := tet.vertexIndices[k - 1];
    var before := ApplyUpTo(tet, ps, lagrangeM, g, k - 1);
    assert before[i] == ps[i] by {
      ApplyKeepsUnnamed(tet, ps, lagrangeM, g, k - 1, i);
    }
    if ps[i].inverseMass != 0.0 {
      var moved := ps[i].(position := Add(ps[i].position, Scale(ps[i].inverseMass * lagrangeM, g[k - 1])));
      assert ApplyUpTo(tet, ps, lagrangeM, g, k)[i] == moved;
    } else {
      assert ApplyUpTo(tet, ps, lagrangeM, g, k)[i] == ps[i];
    }
  }

  /** A particle that none of slots 0..k-1 names is where it started. */
  lemma {:induction false} ApplyKeepsUnnamed(tet: Tetrahedron, ps: seq<Particle>, lagrangeM: real, g: seq<Vec3>, k: nat, x: int)
    requires WellFormed(tet, |ps|) && |g| == 4 && k <= 4 && 0 <= x < |ps| && x !in tet.vertexIndices[..k]
    ensures ApplyUpTo(tet, ps, lagrangeM, g, k)[x] == ps[x]
  {
    if k > 0 {
      assert tet.vertexIndices[..k] == tet.vertexIndices[..k - 1] + [tet.vertexIndices[k - 1]];
      ApplySlotKeepsOthers(tet, ps, lagrangeM, g, k, x);
      ApplyKeepsUnnamed(tet, ps, lagrangeM, g, k - 1, x);
    }
  }

  /** The outcome of projecting one tetrahedron: the particles afterwards, whether
      the energy was damped (which also makes the loop skip the next index), and
      whether the result is a finite number. The source divides by the denominator
      without a guard, so a zero denominator with a free vertex yields NaN positions;
      the model marks that case as not finite. */
  datatype Projection = Projection(particles: seq<Particle>, damped: bool, finite: bool)

  /** The body of the tetrahedron loop of projectConstraints for tetrahedron t. */
  function ProjectTetrahedron(m: Model, t: int, ps: seq<Particle>): (r: Projection)
    requires ValidModel(m, |ps|) && 0 <= t < m.numTetrahedra
    ensures |r.particles| == |ps|
    ensures Undeformed(m, m.tetrahedra[t], ps) ==> r.particles == ps && !r.damped && r.finite
    ensures r.damped <==> !Undeformed(m, m.tetrahedra[t], ps) && KernelAt(m, m.tetrahedra[t], ps).energy > DampingThreshold
  {
    var tet := m.tetrahedra[t];
    if Undeformed(m, tet, ps) then Projection(ps, false, true)
    else
      var out := KernelAt(m, tet, ps);
      var damped := out.energy > DampingThreshold;
      var strainEnergy := if damped then out.energy / DampingDivisor else out.energy;
      var g := ConstraintGradient(m, tet, ps);
      var w := InverseMasses(tet, ps);
      var denominator := DenominatorUpTo(w, SquaredNorms(g), 4);
      var lagrangeM := if denominator != 0.0 then -(strainEnergy / denominator) else 0.0;
      Projection(ApplyUpTo(tet, ps, lagrangeM, g, 4), damped, denominator != 0.0 || !HasFreeVertex(w))
  }

  /** Projecting one tetrahedron moves only positions, and never a pinned particle. */
  lemma ProjectTetrahedronKeepsPinned(m: Model, t: int, ps: seq<Particle>)
    requires ValidModel(m, |ps|) && 0 <= t < m.numTetrahedra
    ensures OnlyPositionsDiffer(ps, ProjectTetrahedron(m, t, ps).particles)
    ensures PinnedUnchanged(ps, ProjectTetrahedron(m, t, ps).particles)
  {
    var tet := m.tetrahedra[t];
    if !Undeformed(m, tet, ps) {
      var out := KernelAt(m, tet, ps);
      var strainEnergy := if out.energy > DampingThreshold then out.energy / DampingDivisor else out.energy;
      var g := ConstraintGradient(m, tet, ps);
      var denominator := DenominatorUpTo(InverseMasses(tet, ps), SquaredNorms(g), 4);
      var lagrangeM := if denominator != 0.0 then -(strainEnergy / denominator) else 0.0;
      ApplyMovesFreeVerticesOnly(tet, ps, lagrangeM, g, 4);
    }
  }

  /** Each slot's first-order share of the constraint change when the vertices move
      from ps to qs: gradient column j dotted with the displacement of vertex j. */
  function SlotShares(tet: Tetrahedron, g: seq<Vec3>, ps: seq<Particle>, qs: seq<Particle>): (s: seq<real>)
    requires WellFormed(tet, |ps|) && |qs| == |ps| && |g| == 4
    ensures |s| == 4
  {
    seq(4, j requires 0 <= j < 4 =>
      Dot(g[j], Sub(qs[tet.vertexIndices[j]].position, ps[tet.vertexIndices[j]].position)))
  }

  function SumUpTo(xs: seq<real>, k: nat): real
    requires k <= |xs|
  {
    if k == 0 then 0.0 else SumUpTo(xs, k - 1) + xs[k - 1]
  }

  /** The first-order change of the constraint: the slot shares summed. */
  function LinearisedChange(tet: Tetrahedron, g: seq<Vec3>, ps: seq<Particle>, qs: seq<Particle>): real
    requires WellFormed(tet, |ps|) && |qs| == |ps| && |g| == 4
  {
    SumUpTo(SlotShares(tet, g, ps, qs), 4)
  }

  lemma DotAlongItself(p: Vec3, a: real, v: Vec3)
    ensures Dot(v, Sub(Add(p, Scale(a, v)), p)) == a * SquaredNorm(v)
  {
    assert Sub(Add(p, Scale(a, v)), p) == Scale(a, v);
    assert v.x * (a * v.x) + v.y * (a * v.y) + v.z * (a * v.z) == a * (v.x * v.x + v.y * v.y + v.z * v.z);
  }

  /** Slot j's vertex sits where ApplyClosedForm puts it. */
  predicate MovedAlongGradient(tet: Tetrahedron, ps: seq<Particle>, qs: seq<Particle>, lagrangeM: real, g: seq<Vec3>, j: int)
    requires WellFormed(tet, |ps|) && |qs| == |ps| && |g| == 4 && 0 <= j < 4
  {
    var i := tet.vertexIndices[j];
    qs[i].position ==
      if ps[i].inverseMass != 0.0 then Add(ps[i].position, Scale(ps[i].inverseMass * lagrangeM, g[j]))
      else ps[i].position
  }

  lemma Distribute(c0: real, term: real, l: real, d0: real, d: real, a: real, b: real)
    requires c0 == l * d0 && term == (if a != 0.0 then (a * l) * b else 0.0)
    requires d == d0 + if a != 0.0 then a * b else 0.0
    ensures c0 + term == l * d
  {
  }

  /** A slot moved along its gradient column contributes its inverse mass times
      lagrangeM times the squared column length (nothing when pinned). */
  lemma ShareAlongGradient(tet: Tetrahedron, ps: seq<Particle>, qs: seq<Particle>, lagrangeM: real, g: seq<Vec3>, j: int)
    requires WellFormed(tet, |ps|) && |qs| == |ps| && |g| == 4 && 0 <= j < 4
    requires MovedAlongGradient(tet, ps, qs, lagrangeM, g, j)
    ensures SlotShares(tet, g, ps, qs)[j] ==
      if InverseMasses(tet, ps)[j] != 0.0 then (InverseMasses(tet, ps)[j] * lagrangeM) * SquaredNorms(g)[j] else 0.0
  {
    var i := tet.vertexIndices[j];
    if ps[i].inverseMass != 0.0 {
      DotAlongItself(ps[i].position, ps[i].inverseMass * lagrangeM, g[j]);
    } else {
      assert Sub(qs[i].position, ps[i].position) == Zero;
    }
  }

  /** The share each slot should contribute when moved along its gradient column:
      its inverse mass times lagrangeM times the squared column length, nothing
      when pinned. */
  function ExpectedShares(w: seq<real>, sizes: seq<real>, lagrangeM: real): (s: seq<real>)
    requires |w| == |sizes|
    ensures |s| == |w|
  {
    seq(|w|, j requires 0 <= j < |w| => if w[j] != 0.0 then (w[j] * lagrangeM) * sizes[j] else 0.0)
  }

  /** The expected shares of the first k slots add up to lagrangeM times the first
      k terms of the denominator. */
  lemma {:induction false} SharesSum(w: seq<real>, sizes: seq<real>, lagrangeM: real, k: nat)
    requires |w| == |sizes| && k <= |w|
    ensures SumUpTo(ExpectedShares(w, sizes, lagrangeM), k) == lagrangeM * DenominatorUpTo(w, sizes, k)
  {
    if k > 0 {
      var shares := ExpectedShares(w, sizes, lagrangeM);
      SharesSum(w, sizes, lagrangeM, k - 1);
      Distribute(SumUpTo(shares, k - 1), shares[k - 1], lagrangeM, DenominatorUpTo(w, sizes, k - 1),
                 DenominatorUpTo(w, sizes, k), w[k - 1], sizes[k - 1]);
    }
  }

  /** Slots moved along their gradient columns contribute exactly the expected
      shares. */
  lemma SharesAlongGradient(tet: Tetrahedron, ps: seq<Particle>, qs: seq<Particle>, lagrangeM: real, g: seq<Vec3>)
    requires WellFormed(tet, |ps|) && |qs| == |ps| && |g| == 4
    requires forall j :: 0 <= j < 4 ==> MovedAlongGradient(tet, ps, qs, lagrangeM, g, j)
    ensures SlotShares(tet, g, ps, qs) == ExpectedShares(InverseMasses(tet, ps), SquaredNorms(g), lagrangeM)
  {
    var expected := ExpectedShares(InverseMasses(tet, ps), SquaredNorms(g), lagrangeM);
    forall j | 0 <= j < 4
      ensures SlotShares(tet, g, ps, qs)[j] == expected[j]
    {
      ShareAlongGradient(tet, ps, qs, lagrangeM, g, j);
    }
  }

  /** The corrections of ProjectTetrahedron, with distinct vertices, move every slot
      along its gradient column. */
  lemma ApplyMovesAlongGradient(tet: Tetrahedron, ps: seq<Particle>, lagrangeM: real, g: seq<Vec3>)
    requires WellFormed(tet, |ps|) && |g| == 4
    requires forall a, b :: 0 <= a < b < 4 ==> tet.vertexIndices[a] != tet.vertexIndices[b]
    ensures forall j :: 0 <= j < 4 ==> MovedAlongGradient(tet, ps, ApplyUpTo(tet, ps, lagrangeM, g, 4), lagrangeM, g, j)
  {
    ApplyClosedForm(tet, ps, lagrangeM, g, 4);
    forall j | 0 <= j < 4
      ensures MovedAlongGradient(tet, ps, ApplyUpTo(tet, ps, lagrangeM, g, 4), lagrangeM, g, j)
    {
    }
  }

  /** The corrections of all four slots change the constraint, to first order, by
      lagrangeM times the denominator. */
  lemma ApplyMeetsLinearisedConstraint(tet: Tetrahedron, ps: seq<Particle>, lagrangeM: real, g: seq<Vec3>)
    requires WellFormed(tet, |ps|) && |g| == 4
    requires forall a, b :: 0 <= a < b < 4 ==> tet.vertexIndices[a] != tet.vertexIndices[b]
    ensures LinearisedChange(tet, g, ps, ApplyUpTo(tet, ps, lagrangeM, g, 4)) ==
      lagrangeM * DenominatorUpTo(InverseMasses(tet, ps), SquaredNorms(g), 4)
  {
    var qs := ApplyUpTo(tet, ps, lagrangeM, g, 4);
    ApplyMovesAlongGradient(tet, ps, lagrangeM, g);
    SharesAlongGradient(tet, ps, qs, lagrangeM, g);
    SharesSum(InverseMasses(tet, ps), SquaredNorms(g), lagrangeM, 4);
  }

  /** The multiplier -E / d times the denominator d is -E. */
  lemma MultiplierTimesDenominator(strainEnergy: real, denominator: real)
    requires denominator != 0.0
    ensures -(strainEnergy / denominator) * denominator == -strainEnergy
  {
  }

  /** The point of the projection: when the denominator is not zero and the four
      vertices are distinct, the corrected positions cancel the (damped) energy to
      first order, that is the gradient dotted with the displacements is minus the
      energy the multiplier was computed from. */
  lemma ProjectionMeetsLinearisedConstraint(m: Model, t: int, ps: seq<Particle>)
    requires ValidModel(m, |ps|) && 0 <= t < m.numTetrahedra
    requires forall a, b :: 0 <= a < b < 4 ==> m.tetrahedra[t].vertexIndices[a] != m.tetrahedra[t].vertexIndices[b]
    requires !Undeformed(m, m.tetrahedra[t], ps)
    ensures var tet := m.tetrahedra[t];
      var energy := KernelAt(m, tet, ps).energy;
      var g := ConstraintGradient(m, tet, ps);
      DenominatorUpTo(InverseMasses(tet, ps), SquaredNorms(g), 4) != 0.0 ==>
        LinearisedChange(tet, g, ps, ProjectTetrahedron(m, t, ps).particles) ==
          -(if energy > DampingThreshold then energy / DampingDivisor else energy)
  {
    var tet := m.tetrahedra[t];
    var energy := KernelAt(m, tet, ps).energy;
    var strainEnergy := if energy > DampingThreshold then energy / DampingDivisor else energy;
    var g := ConstraintGradient(m, tet, ps);
    var denominator := DenominatorUpTo(InverseMasses(tet, ps), SquaredNorms(g), 4);
    if denominator != 0.0 {
      var lagrangeM := -(strainEnergy / denominator);
      assert ProjectTetrahedron(m, t, ps).particles == ApplyUpTo(tet, ps, lagrangeM, g, 4);
      MultiplierTimesDenominator(strainEnergy, denominator);
      LinearisedCancelsEnergy(tet, ps, g, lagrangeM, strainEnergy);
    }
  }

  /** With distinct vertices, a multiplier whose product with the denominator is
      -E moves the vertices so that the constraint changes to first order by
      exactly -E. */
  lemma LinearisedCancelsEnergy(tet: Tetrahedron, ps: seq<Particle>, g: seq<Vec3>, lagrangeM: real, strainEnergy: real)
    requires WellFormed(tet, |ps|) && |g| == 4
    requires forall a, b :: 0 <= a < b < 4 ==> tet.vertexIndices[a] != tet.vertexIndices[b]
    requires lagrangeM * DenominatorUpTo(InverseMasses(tet, ps), SquaredNorms(g), 4) == -strainEnergy
    ensures LinearisedChange(tet, g, ps, ApplyUpTo(tet, ps, lagrangeM, g, 4)) == -strainEnergy
  {
    ApplyMeetsLinearisedConstraint(tet, ps, lagrangeM, g);
  }

  /** The index the loop visits after t: the loop's own --t, plus the extra --t
      after a damped tetrahedron, which skips index t-1. */
  function NextIndex(t: int, damped: bool): int {
    if damped then t - 2 else t - 1
  }

  /** One visit of the tetrahedron loop: the index and whether it was damped. */
  datatype Visit = Visit(index: int, damped: bool)

  /** The rest of a pass from index t down: the particles afterwards, the visits in
      order, and whether every visit was finite. */
  datatype Sweep = Sweep(particles: seq<Particle>, visits: seq<Visit>, finite: bool)

  function PassFrom(m: Model, t: int, ps: seq<Particle>): (s: Sweep)
    requires ValidModel(m, |ps|) && t < m.numTetrahedra
    ensures |s.particles| == |ps|
    decreases if t < 0 then 0 else t + 1
  {
    if t < 0 then Sweep(ps, [], true)
    else
      var p := ProjectTetrahedron(m, t, ps);
      var rest := PassFrom(m, NextIndex(t, p.damped), p.particles);
      Sweep(rest.particles, [Visit(t, p.damped)] + rest.visits, p.finite && rest.finite)
  }

  /** The visit order of a pass started at t: the first visit is t (none when t is
      negative), each next index follows NextIndex, every index lies in 0..t, and the
      pass ends when NextIndex drops below zero. */
  ghost predicate DescendingFrom(vs: seq<Visit>, t: int) {
    (t < 0 ==> vs == []) &&
    (t >= 0 ==> |vs| > 0 && vs[0].index == t) &&
    (forall k :: 0 <= k < |vs| ==> 0 <= vs[k].index <= t) &&
    (forall k :: 0 <= k < |vs| - 1 ==> vs[k + 1].index == NextIndex(vs[k].index, vs[k].damped)) &&
    (|vs| > 0 ==> NextIndex(vs[|vs| - 1].index, vs[|vs| - 1].damped) < 0)
  }

  lemma {:induction false} PassVisitOrder(m: Model, t: int, ps: seq<Particle>)
    requires ValidModel(m, |ps|) && t < m.numTetrahedra
    ensures DescendingFrom(PassFrom(m, t, ps).visits, t)
    decreases if t < 0 then 0 else t + 1
  {
    if t >= 0 {
      var p := ProjectTetrahedron(m, t, ps);
      var next := NextIndex(t, p.damped);
      PassVisitOrder(m, next, p.particles);
      DescendingCons(t, p.damped, PassFrom(m, next, p.particles).visits);
    }
  }

  /** Putting visit t in front of a descent from its next index gives a descent
      from t. */
  lemma DescendingCons(t: int, damped: bool, rest: seq<Visit>)
    requires t >= 0 && DescendingFrom(rest, NextIndex(t, damped))
    ensures DescendingFrom([Visit(t, damped)] + rest, t)
  {
    var vs := [Visit(t, damped)] + rest;
    assert forall k :: 1 <= k < |vs| ==> vs[k] == rest[k - 1];
  }

  /** Every visit's damped flag is the kernel energy test at the moment of the visit:
      the first visit of a pass from t is damped exactly when tetrahedron t is
      deformed and its energy exceeds the threshold. */
  lemma FirstVisitDamping(m: Model, t: int, ps: seq<Particle>)
    requires ValidModel(m, |ps|) && 0 <= t < m.numTetrahedra
    ensures PassFrom(m, t, ps).visits[0].damped <==>
      !Undeformed(m, m.tetrahedra[t], ps) && KernelAt(m, m.tetrahedra[t], ps).energy > DampingThreshold
  {
  }

  /** A pass moves only positions, and never a pinned particle. */
  lemma {:induction false} PassKeepsPinned(m: Model, t: int, ps: seq<Particle>)
    requires ValidModel(m, |ps|) && t < m.numTetrahedra
    ensures OnlyPositionsDiffer(ps, PassFrom(m, t, ps).particles)
    ensures PinnedUnchanged(ps, PassFrom(m, t, ps).particles)
    decreases if t < 0 then 0 else t + 1
  {
    if t >= 0 {
      var p := ProjectTetrahedron(m, t, ps);
      ProjectTetrahedronKeepsPinned(m, t, ps);
      PassKeepsPinned(m, NextIndex(t, p.damped), p.particles);
      var rest := PassFrom(m, NextIndex(t, p.damped), p.particles).particles;
      KeepsPinnedTransitive(ps, p.particles, rest);
      assert PassFrom(m, t, ps).particles == rest;
    }
  }

  /** numConstraintIts passes, each starting at numTetrahedra-1: the particles
      afterwards, the visits of each pass, and whether everything stayed finite. */
  datatype Run = Run(particles: seq<Particle>, passes: seq<seq<Visit>>, finite: bool)

  function Passes(m: Model, its: int, ps: seq<Particle>): (r: Run)
    requires ValidModel(m, |ps|)
    ensures |r.particles| == |ps|
    decreases its
  {
    if its <= 0 then Run(ps, [], true)
    else
      var first := PassFrom(m, m.numTetrahedra - 1, ps);
      var rest := Passes(m, its - 1, first.particles);
      Run(rest.particles, [first.visits] + rest.passes, first.finite && rest.finite)
  }

  /** The pass runs exactly numConstraintIts times, none when that is not
      positive. */
  lemma {:induction false} RunCount(m: Model, its: int, ps: seq<Particle>)
    requires ValidModel(m, |ps|)
    ensures |Passes(m, its, ps).passes| == if its <= 0 then 0 else its
    decreases its
  {
    if its > 0 {
      RunCount(m, its - 1, PassFrom(m, m.numTetrahedra - 1, ps).particles);
    }
  }

  /** Each pass visits indices from numTetrahedra-1 down in the order above. */
  lemma {:induction false} RunShape(m: Model, its: int, ps: seq<Particle>)
    requires ValidModel(m, |ps|)
    ensures forall k :: 0 <= k < |Passes(m, its, ps).passes| ==>
      DescendingFrom(Passes(m, its, ps).passes[k], m.numTetrahedra - 1)
    decreases its
  {
    if its > 0 {
      var first := PassFrom(m, m.numTetrahedra - 1, ps);
      PassVisitOrder(m, m.numTetrahedra - 1, ps);
      RunShape(m, its - 1, first.particles);
      var r := Passes(m, its, ps);
      assert r.passes == [first.visits] + Passes(m, its - 1, first.particles).passes;
    }
  }

  /** The whole projection moves only positions and never a pinned particle. */
  lemma {:induction false} RunKeepsPinned(m: Model, its: int, ps: seq<Particle>)
    requires ValidModel(m, |ps|)
    ensures OnlyPositionsDiffer(ps, Passes(m, its, ps).particles)
    ensures PinnedUnchanged(ps, Passes(m, its, ps).particles)
    decreases its
  {
    if its > 0 {
      var first := PassFrom(m, m.numTetrahedra - 1, ps);
      PassKeepsPinned(m, m.numTetrahedra - 1, ps);
      RunKeepsPinned(m, its - 1, first.particles);
      var rest := Passes(m, its - 1, first.particles).particles;
      KeepsPinnedTransitive(ps, first.particles, rest);
      assert Passes(m, its, ps).particles == rest;
    }
  }

  /** A zero multiplier moves no vertex. */
  lemma {:induction false} ApplyZeroMultiplier(tet: Tetrahedron, ps: seq<Particle>, g: seq<Vec3>, k: nat)
    requires WellFormed(tet, |ps|) && |g| == 4 && k <= 4
    ensures ApplyUpTo(tet, ps, 0.0, g, k) == ps
  {
    if k > 0 {
      ApplyZeroMultiplier(tet, ps, g, k - 1);
      var i := tet.vertexIndices[k - 1];
      var p := ps[i];
      assert Add(p.position, Scale(p.inverseMass * 0.0, g[k - 1])) == p.position;
      assert ps[i := p.(position := p.position)] == ps;
    }
  }

  /** A tetrahedron that stores no strain energy is not damped, and when its
      multiplier is finite its projection moves nothing: the energy over the
      denominator is zero. */
  lemma ProjectTetrahedronAtRest(m: Model, t: int, ps: seq<Particle>)
    requires ValidModel(m, |ps|) && 0 <= t < m.numTetrahedra && StrainFree(m, ps, t)
    ensures !ProjectTetrahedron(m, t, ps).damped
    ensures ProjectTetrahedron(m, t, ps).finite ==> ProjectTetrahedron(m, t, ps).particles == ps
  {
    var tet := m.tetrahedra[t];
    if !Undeformed(m, tet, ps) {
      var g := ConstraintGradient(m, tet, ps);
      var denominator := DenominatorUpTo(InverseMasses(tet, ps), SquaredNorms(g), 4);
      var lagrangeM := if denominator != 0.0 then -(0.0 / denominator) else 0.0;
      assert lagrangeM == 0.0;
      ApplyZeroMultiplier(tet, ps, g, 4);
    }
  }

  /** A pass over a configuration at rest, when every multiplier it computes is
      finite, leaves every particle where it is; when every tetrahedron is
      undeformed it skips them all and is finite. */
  lemma {:induction false} PassAtRest(m: Model, t: int, ps: seq<Particle>)
    requires ValidModel(m, |ps|) && t < m.numTetrahedra && AtRest(m, ps)
    ensures PassFrom(m, t, ps).finite ==> PassFrom(m, t, ps).particles == ps
    ensures AllUndeformed(m, ps) ==> PassFrom(m, t, ps).finite
    decreases if t < 0 then 0 else t + 1
  {
    if t >= 0 {
      var p := ProjectTetrahedron(m, t, ps);
      ProjectTetrahedronAtRest(m, t, ps);
      if p.particles == ps {
        PassAtRest(m, NextIndex(t, p.damped), ps);
      }
    }
  }

  /** All passes over a configuration at rest, when finite, leave every particle
      where it is; when every tetrahedron is undeformed they are finite. */
  lemma {:induction false} RunAtRest(m: Model, its: int, ps: seq<Particle>)
    requires ValidModel(m, |ps|) && AtRest(m, ps)
    ensures Passes(m, its, ps).finite ==> Passes(m, its, ps).particles == ps
    ensures AllUndeformed(m, ps) ==> Passes(m, its, ps).finite
    decreases its
  {
    if its > 0 {
      var first := PassFrom(m, m.numTetrahedra - 1, ps);
      PassAtRest(m, m.numTetrahedra - 1, ps);
      if first.particles == ps {
        RunAtRest(m, its - 1, ps);
      }
    }
  }

  /** The tetrahedron loop body, in place: skip an undeformed tetrahedron, call the
      kernel, damp a large energy, build the gradient, sum the denominator over the
      free vertices and move each free vertex. Returns whether it damped. */
  method ProjectTetrahedronInPlace(particles: array<Particle>, m: Model, t: int) returns (repeatIteration: bool)
    requires ValidModel(m, particles.Length) && 0 <= t < m.numTetrahedra
    modifies particles
    ensures particles[..] == ProjectTetrahedron(m, t, old(particles[..])).particles
    ensures repeatIteration == ProjectTetrahedron(m, t, old(particles[..])).damped
  {
    var tet := m.tetrahedra[t];
    var f := DeformationGradientOf(m.num, tet, particles[..]);
    if IsIdentity(f) {
      return false;
    }
    var out := m.kernel(f, tet.undeformedVolume, m.mu, m.lambda);
    var strainEnergy := out.energy;
    repeatIteration := false;
    if strainEnergy > DampingThreshold {
      strainEnergy := strainEnergy / DampingDivisor;
      repeatIteration := true;
    }
    var gradient := Gradient(tet.undeformedVolume, out.epsilon, tet.referenceShapeMatrixInverseTranspose);
    var denominator := Denominator(particles, tet, gradient);
    // With a zero denominator every vertex is pinned (or the run is not finite),
    // so the multiplier is never applied.
    var lagrangeM := if denominator != 0.0 then -(strainEnergy / denominator) else 0.0;
    ApplyCorrections(particles, tet, lagrangeM, gradient);
  }

  /** The denominator loop: inverse mass times squared column length, summed over
      the slots whose inverse mass is not zero. */
  method Denominator(particles: array<Particle>, tet: Tetrahedron, gradient: seq<Vec3>) returns (denominator: real)
    requires WellFormed(tet, particles.Length) && |gradient| == 4
    ensures denominator == DenominatorUpTo(InverseMasses(tet, particles[..]), SquaredNorms(gradient), 4)
  {
    ghost var w := InverseMasses(tet, particles[..]);
    ghost var sizes := SquaredNorms(gradient);
    denominator := 0.0;
    var cI := 0;
    while cI < 4
      invariant 0 <= cI <= 4
      invariant denominator == DenominatorUpTo(w, sizes, cI)
    {
      var inverseMass := particles[tet.vertexIndices[cI]].inverseMass;
      DenominatorStep(w, sizes, cI, inverseMass, SquaredNorm(gradient[cI]));
      if inverseMass != 0.0 {
        denominator := denominator + inverseMass * SquaredNorm(gradient[cI]);
      }
      cI := cI + 1;
    }
  }

  /** The correction loop: each vertex with nonzero inverse mass moves in place by
      (inverse mass * lagrangeM) times its gradient column. */
  method ApplyCorrections(particles: array<Particle>, tet: Tetrahedron, lagrangeM: real, gradient: seq<Vec3>)
    requires WellFormed(tet, particles.Length) && |gradient| == 4
    modifies particles
    ensures particles[..] == ApplyUpTo(tet, old(particles[..]), lagrangeM, gradient, 4)
  {
    var cI := 0;
    while cI < 4
      invariant 0 <= cI <= 4
      invariant particles[..] == ApplyUpTo(tet, old(particles[..]), lagrangeM, gradient, cI)
    {
      var i := tet.vertexIndices[cI];
      var p := particles[i];
      ApplyStep(tet, old(particles[..]), lagrangeM, gradient, cI, particles[..], p);
      if p.inverseMass != 0.0 {
        particles[i] := p.(position := Add(p.position, Scale(p.inverseMass * lagrangeM, gradient[cI])));
      }
      cI := cI + 1;
    }
  }

  /** projectConstraints: numConstraintIts passes over the tetrahedra from the last
      down, with the extra --t after a damped tetrahedron. A run in which some
      tetrahedron with a free vertex meets a zero denominator produces NaN in the
      source and is excluded. */
  method ProjectConstraints(particles: array<Particle>, m: Model, numConstraintIts: int)
    requires ValidModel(m, particles.Length)
    requires Passes(m, numConstraintIts, particles[..]).finite
    modifies particles
    ensures particles[..] == Passes(m, numConstraintIts, old(particles[..])).particles
  {
    var it := 0;
    while it < numConstraintIts
      invariant 0 <= it && (it <= numConstraintIts || it == 0)
      invariant Passes(m, numConstraintIts - it, particles[..]).particles == Passes(m, numConstraintIts, old(particles[..])).particles
    {
      SweepInPlace(particles, m);
      it := it + 1;
    }
  }

  /** The tetrahedron loop of one constraint iteration: from the last tetrahedron
      down, one further step down after a damped one. */
  method SweepInPlace(particles: array<Particle>, m: Model)
    requires ValidModel(m, particles.Length)
    modifies particles
    ensures particles[..] == PassFrom(m, m.numTetrahedra - 1, old(particles[..])).particles
  {
    var t := m.numTetrahedra - 1;
    while t >= 0
      invariant -2 <= t < m.numTetrahedra
      invariant PassFrom(m, t, particles[..]).particles == PassFrom(m, m.numTetrahedra - 1, old(particles[..])).particles
      decreases t + 2
    {
      var repeatIteration := ProjectTetrahedronInPlace(particles, m, t);
      if repeatIteration {
        t := t - 1;
      }
      t := t - 1;
    }
  }
}
