/** The per-tetrahedron pieces of the energy constraint that the sequential and the
    relaxed projection share: the 3x4 constraint gradient, the Lagrange multiplier's
    denominator, and the input the kernel is called with. */
module Constraint {
  import opened LinearAlgebra
  import opened Mesh
  import opened Elasticity

  /** The four gradient columns: columns 0..2 of Volume * PF * RefInvT, and as
      column 3 the negated row sum of that matrix. */
  function Gradient(volume: real, pf: Mat3, refInvT: Mat3): (g: seq<Vec3>)
    ensures |g| == 4
    ensures Add(Add(Add(g[0], g[1]), g[2]), g[3]) == Zero
  {
    var gradientTemp := Mul(ScaleMatrix(volume, pf), refInvT);
    ColumnsCancel(gradientTemp);
    [gradientTemp.c0, gradientTemp.c1, gradientTemp.c2, Neg(RowSums(gradientTemp))]
  }

  lemma ColumnsCancel(m: Mat3)
    ensures Add(Add(Add(m.c0, m.c1), m.c2), Neg(RowSums(m))) == Zero
  {
  }

  /** The inverse masses of the tetrahedron's four vertices, slot by slot. */
  function InverseMasses(tet: Tetrahedron, ps: seq<Particle>): (w: seq<real>)
    requires WellFormed(tet, |ps|)
    ensures |w| == 4 && forall j: Slot :: w[j] == VertexOf(tet, ps, j).inverseMass
  {
    [VertexOf(tet, ps, 0).inverseMass, VertexOf(tet, ps, 1).inverseMass,
     VertexOf(tet, ps, 2).inverseMass, VertexOf(tet, ps, 3).inverseMass]
  }

  /** The denominator after slots 0..k-1: the sum of w_j * size_j over the slots
      whose inverse mass w_j is not zero. */
  function DenominatorUpTo(w: seq<real>, sizes: seq<real>, k: nat): real
    requires k <= |w| && k <= |sizes|
  {
    if k == 0 then 0.0
    else
      var d0 := DenominatorUpTo(w, sizes, k - 1);
      if w[k - 1] != 0.0 then d0 + w[k - 1] * sizes[k - 1] else d0
  }

  /** With nonnegative inverse masses and sizes the denominator is not negative. */
  lemma {:induction false} DenominatorNonnegative(w: seq<real>, sizes: seq<real>, k: nat)
    requires k <= |w| && k <= |sizes|
    requires forall j :: 0 <= j < k ==> w[j] >= 0.0 && sizes[j] >= 0.0
    ensures DenominatorUpTo(w, sizes, k) >= 0.0
  {
    if k > 0 {
      DenominatorNonnegative(w, sizes, k - 1);
      if w[k - 1] != 0.0 {
        ProductNonnegative(w[k - 1], sizes[k - 1]);
      }
    }
  }

  /** One more slot adds w_k size_k to the denominator when w_k is not zero. */
  lemma DenominatorStep(w: seq<real>, sizes: seq<real>, k: nat, mass: real, size: real)
    requires k < |w| && k < |sizes| && mass == w[k] && size == sizes[k]
    ensures DenominatorUpTo(w, sizes, k + 1) ==
      DenominatorUpTo(w, sizes, k) + if mass != 0.0 then mass * size else 0.0
  {
  }

  /** A slot whose inverse mass is zero adds nothing to the denominator: changing its
      column leaves the denominator as it is. */
  lemma {:induction false} PinnedSlotsIgnored(w: seq<real>, sizes: seq<real>, sizes': seq<real>, k: nat)
    requires k <= |w| && k <= |sizes| && k <= |sizes'|
    requires forall j :: 0 <= j < k && w[j] != 0.0 ==> sizes[j] == sizes'[j]
    ensures DenominatorUpTo(w, sizes, k) == DenominatorUpTo(w, sizes', k)
  {
    if k > 0 {
      PinnedSlotsIgnored(w, sizes, sizes', k - 1);
    }
  }

  /** A denominator over nonnegative terms is zero exactly when every free slot's
      term is zero. */
  lemma {:induction false} DenominatorZero(w: seq<real>, sizes: seq<real>, k: nat)
    requires k <= |w| && k <= |sizes|
    requires forall j :: 0 <= j < k ==> w[j] >= 0.0 && sizes[j] >= 0.0
    ensures DenominatorUpTo(w, sizes, k) == 0.0 <==> forall j :: 0 <= j < k && w[j] != 0.0 ==> sizes[j] == 0.0
  {
    if k > 0 {
      DenominatorZero(w, sizes, k - 1);
      DenominatorNonnegative(w, sizes, k - 1);
      if w[k - 1] != 0.0 && sizes[k - 1] != 0.0 {
        ProductNonnegative(w[k - 1], sizes[k - 1]);
        PositiveProduct(w[k - 1], sizes[k - 1]);
      }
    }
  }

  lemma PositiveProduct(a: real, b: real)
    requires a > 0.0 && b > 0.0
    ensures a * b > 0.0
  {
  }

  /** Some slot's inverse mass is not zero. */
  predicate HasFreeVertex(w: seq<real>)
    requires |w| == 4
  {
    w[0] != 0.0 || w[1] != 0.0 || w[2] != 0.0 || w[3] != 0.0
  }

  /** The squared lengths of the gradient columns (the sequential solver's
      squaredNorm). */
  function SquaredNorms(g: seq<Vec3>): (s: seq<real>)
    requires |g| == 4
    ensures |s| == 4 && forall j :: 0 <= j < 4 ==> s[j] == SquaredNorm(g[j]) && s[j] >= 0.0
  {
    [SquaredNorm(g[0]), SquaredNorm(g[1]), SquaredNorm(g[2]), SquaredNorm(g[3])]
  }

  /** The lengths of the gradient columns (the relaxed solver's lpNorm<2>). */
  function Norms(num: Numerics, g: seq<Vec3>): (s: seq<real>)
    requires |g| == 4
    ensures |s| == 4 && forall j :: 0 <= j < 4 ==> s[j] == num.norm(g[j])
  {
    [num.norm(g[0]), num.norm(g[1]), num.norm(g[2]), num.norm(g[3])]
  }

  /** The strain kernel as the solvers call it: from F (and F^T F, which the caller
      forms from F), the rest volume and the Lame parameters. */
  type Kernel = (Mat3, real, real, real) -> InversionOutput

  /** computeGreenStrainAndPiolaStressInversion, called as every caller calls it. */
  function InversionKernel(num: Numerics): Kernel {
    (f: Mat3, restVolume: real, mu: real, lambda: real) =>
      GreenStrainAndPiolaStressInversion(num, f, Mul(Transpose(f), f), restVolume, mu, lambda)
  }

  /** The kernel never reports a negative energy for nonnegative material constants. */
  ghost predicate EnergyNeverNegative(kernel: Kernel) {
    forall f, restVolume, mu, lambda :: restVolume >= 0.0 && mu >= 0.0 && lambda >= 0.0 ==>
      kernel(f, restVolume, mu, lambda).energy >= 0.0
  }

  lemma InversionKernelEnergy(num: Numerics)
    ensures EnergyNeverNegative(InversionKernel(num))
  {
    forall f, restVolume, mu, lambda | restVolume >= 0.0 && mu >= 0.0 && lambda >= 0.0
      ensures InversionKernel(num)(f, restVolume, mu, lambda).energy >= 0.0
    {
      KernelEnergyAt(num, f, Mul(Transpose(f), f), restVolume, mu, lambda);
    }
  }

  lemma KernelEnergyAt(num: Numerics, f: Mat3, fTransposeF: Mat3, restVolume: real, mu: real, lambda: real)
    requires restVolume >= 0.0 && mu >= 0.0 && lambda >= 0.0
    ensures GreenStrainAndPiolaStressInversion(num, f, fTransposeF, restVolume, mu, lambda).energy >= 0.0
  {
  }

  /** What stays fixed while constraints are projected: the numerical routines, the
      kernel, the tetrahedra, how many of them are projected, and the Lame parameters. */
  datatype Model = Model(
    num: Numerics,
    kernel: Kernel,
    tetrahedra: seq<Tetrahedron>,
    numTetrahedra: nat,
    mu: real,
    lambda: real)

  /** Every tetrahedron the solver visits is well formed over n particles. */
  predicate ValidModel(m: Model, n: nat) {
    m.numTetrahedra <= |m.tetrahedra| &&
    forall t :: 0 <= t < m.numTetrahedra ==> WellFormed(m.tetrahedra[t], n)
  }

  /** The model the CPU solver projects with, read from its settings. The
      relaxation weight w, the time step and gravity play no part in it. */
  function ModelOf(num: Numerics, tetrahedra: seq<Tetrahedron>, s: Settings): (m: Model)
    requires 0 <= s.numTetrahedra
    ensures m.kernel == InversionKernel(num) && EnergyNeverNegative(m.kernel)
    ensures m.num == num && m.tetrahedra == tetrahedra && m.numTetrahedra == s.numTetrahedra
    ensures m.mu == s.mu && m.lambda == s.lambda
  {
    InversionKernelEnergy(num);
    Model(num, InversionKernel(num), tetrahedra, s.numTetrahedra, s.mu, s.lambda)
  }

  /** What the kernel returns for one tetrahedron at the current positions. */
  function KernelAt(m: Model, tet: Tetrahedron, ps: seq<Particle>): InversionOutput
    requires WellFormed(tet, |ps|)
  {
    m.kernel(DeformationGradientOf(m.num, tet, ps), tet.undeformedVolume, m.mu, m.lambda)
  }

  /** The gradient built from the matrix the solver calls PF. The kernel's
      out-parameters are (epsilon, sigma, energy) while every caller passes
      (PF, epsilon, strainEnergy), so PF receives the kernel's strain. */
  function ConstraintGradient(m: Model, tet: Tetrahedron, ps: seq<Particle>): (g: seq<Vec3>)
    requires WellFormed(tet, |ps|)
    ensures |g| == 4
    ensures Add(Add(Add(g[0], g[1]), g[2]), g[3]) == Zero
  {
    Gradient(tet.undeformedVolume, KernelAt(m, tet, ps).epsilon, tet.referenceShapeMatrixInverseTranspose)
  }

  /** The tetrahedron's deformation gradient is the identity: it is skipped. */
  predicate Undeformed(m: Model, tet: Tetrahedron, ps: seq<Particle>)
    requires WellFormed(tet, |ps|)
  {
    IsIdentity(DeformationGradientOf(m.num, tet, ps))
  }

  /** Tetrahedron t stores no strain energy: the solvers skip it, or the kernel
      gives it zero energy. */
  predicate StrainFree(m: Model, ps: seq<Particle>, t: int)
    requires ValidModel(m, |ps|) && 0 <= t < m.numTetrahedra
  {
    Undeformed(m, m.tetrahedra[t], ps) || KernelAt(m, m.tetrahedra[t], ps).energy == 0.0
  }

  /** The configuration is at rest: no tetrahedron stores strain energy. */
  predicate AtRest(m: Model, ps: seq<Particle>)
    requires ValidModel(m, |ps|)
  {
    forall t :: 0 <= t < m.numTetrahedra ==> StrainFree(m, ps, t)
  }

  /** Every tetrahedron's deformation gradient is exactly the identity, a special
      case of being at rest. */
  predicate AllUndeformed(m: Model, ps: seq<Particle>)
    requires ValidModel(m, |ps|)
  {
    forall t :: 0 <= t < m.numTetrahedra ==> Undeformed(m, m.tetrahedra[t], ps)
  }

  /** calculateTotalStrainEnergy as a fold: the kernel energies of tetrahedra
      0..k-1, skipping those whose deformation gradient is the identity. */
  function StrainEnergyUpTo(m: Model, ps: seq<Particle>, k: nat): (e: real)
    requires ValidModel(m, |ps|) && k <= m.numTetrahedra
    ensures EnergyNeverNegative(m.kernel) && NonnegativeMaterial(m, k) ==> e >= 0.0
  {
    if k == 0 then 0.0
    else
      var tet := m.tetrahedra[k - 1];
      var e0 := StrainEnergyUpTo(m, ps, k - 1);
      if Undeformed(m, tet, ps) then e0
      else
        e0 + KernelAt(m, tet, ps).energy
  }

  /** With a kernel whose energy is never negative and nonnegative material, the
      energy of tetrahedra 0..k-1 is zero exactly when none of them stores strain
      energy. */
  lemma {:induction false} NoStrainEnergy(m: Model, ps: seq<Particle>, k: nat)
    requires ValidModel(m, |ps|) && k <= m.numTetrahedra
    requires EnergyNeverNegative(m.kernel) && NonnegativeMaterial(m, k)
    ensures StrainEnergyUpTo(m, ps, k) == 0.0 <==> forall t :: 0 <= t < k ==> StrainFree(m, ps, t)
  {
    if k > 0 {
      NoStrainEnergy(m, ps, k - 1);
      var tet := m.tetrahedra[k - 1];
      assert StrainEnergyUpTo(m, ps, k - 1) >= 0.0;
      if !Undeformed(m, tet, ps) {
        assert KernelAt(m, tet, ps).energy >= 0.0;
      }
      assert (forall t :: 0 <= t < k ==> StrainFree(m, ps, t)) <==>
        (forall t :: 0 <= t < k - 1 ==> StrainFree(m, ps, t)) && StrainFree(m, ps, k - 1);
    }
  }

  /** A configuration is at rest exactly when calculateTotalStrainEnergy would
      report zero. */
  lemma AtRestIffNoStrainEnergy(m: Model, ps: seq<Particle>)
    requires ValidModel(m, |ps|)
    requires EnergyNeverNegative(m.kernel) && NonnegativeMaterial(m, m.numTetrahedra)
    ensures AtRest(m, ps) <==> StrainEnergyUpTo(m, ps, m.numTetrahedra) == 0.0
  {
    NoStrainEnergy(m, ps, m.numTetrahedra);
  }

  /** Nonnegative Lame parameters and rest volumes of tetrahedra 0..k-1. */
  predicate NonnegativeMaterial(m: Model, k: nat)
    requires k <= |m.tetrahedra|
  {
    m.mu >= 0.0 && m.lambda >= 0.0 && forall t :: 0 <= t < k ==> m.tetrahedra[t].undeformedVolume >= 0.0
  }

  /** calculateTotalStrainEnergy: the loop over tetrahedra 0..numTetrahedra-1
      summing the kernel's energy. It changes nothing; its result is only printed. */
  method CalculateTotalStrainEnergy(particles: array<Particle>, m: Model) returns (strainEnergyTotal: real)
    requires ValidModel(m, particles.Length)
    ensures strainEnergyTotal == StrainEnergyUpTo(m, particles[..], m.numTetrahedra)
    ensures EnergyNeverNegative(m.kernel) && NonnegativeMaterial(m, m.numTetrahedra) ==> strainEnergyTotal >= 0.0
  {
    strainEnergyTotal := 0.0;
    var t := 0;
    while t < m.numTetrahedra
      invariant 0 <= t <= m.numTetrahedra
      invariant strainEnergyTotal == StrainEnergyUpTo(m, particles[..], t)
    {
      var tet := m.tetrahedra[t];
      if !IsIdentity(DeformationGradientOf(m.num, tet, particles[..])) {
        var out := KernelAt(m, tet, particles[..]);
        strainEnergyTotal := strainEnergyTotal + out.energy;
      }
      t := t + 1;
    }
  }
}
