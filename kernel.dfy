/** The elasticity kernels: corotated Green strain, Piola stress and strain energy
    of one tetrahedron (computeGreenStrainAndPiolaStressInversion and
    computeGreenStrainAndPiolaStress). The eigendecomposition, the square roots and
    the construction of U are taken from Numerics; everything after them is modelled. */
module Elasticity {
  import opened LinearAlgebra
  import opened Mesh

  /** FLT_MAX, the start value of the two "smallest value" searches. */
  const FltMax: real := 340282346638528859811704183484516925440.0

  /** Singular values below this are raised to it. */
  const MinSingularValue: real := 0.577

  /** What the inversion-aware kernel writes to its out-parameters, under the
      names the kernel declares them with: (U, V, epsilon, sigma, energy). */
  datatype InversionOutput = InversionOutput(u: Mat3, v: Mat3, epsilon: Mat3, sigma: Mat3, energy: real)

  /** What the plain kernel writes to its out-parameters (epsilon, sigma, energy). */
  datatype StressOutput = StressOutput(epsilon: Mat3, sigma: Mat3, energy: real)

  function Max(a: real, b: real): real {
    if a < b then b else a
  }

  lemma ProductNonnegative(a: real, b: real)
    requires a >= 0.0 && b >= 0.0
    ensures a * b >= 0.0
  {
  }

  /** Negative eigenvalues (numerical noise) are set to zero. */
  function ClampEigenvalues(s: Vec3): (r: Vec3)
    ensures forall i: Index3 :: Get(r, i) == Max(Get(s, i), 0.0)
    ensures forall i: Index3 :: Get(r, i) >= 0.0
  {
    Vec3(Max(s.x, 0.0), Max(s.y, 0.0), Max(s.z, 0.0))
  }

  /** The index the kernel's "minLambda" loop settles on: starting from FLT_MAX
      and index 0, each value strictly below the current minimum is taken. */
  function SmallestIndex(v: Vec3): (k: Index3)
    ensures forall j: Index3 :: Get(v, j) < FltMax ==> Get(v, k) <= Get(v, j)
    ensures forall j: Index3 :: j < k ==> Get(v, k) < Get(v, j)
    ensures k != 0 ==> Get(v, k) < FltMax
  {
    var (p0, m0) := if v.x < FltMax then (0, v.x) else (0, FltMax);
    var (p1, m1) := if v.y < m0 then (1, v.y) else (p0, m0);
    if v.z < m1 then 2 else p1
  }

  lemma DetNegateColumn(m: Mat3, c: Index3)
    ensures Det(NegateColumn(m, c)) == -Det(m)
  {
  }

  /** If the eigenvector matrix is a reflection, negate the column belonging to the
      smallest eigenvalue, which makes it a rotation. */
  function FixReflection(s: Vec3, v: Mat3): Mat3 {
    if Det(v) < 0.0 then NegateColumn(v, SmallestIndex(s)) else v
  }

  /** The fixed eigenvector matrix is a rotation (determinant not negative), and it
      differs from the eigen-solver's at most in the column of the first smallest
      eigenvalue, which is negated. */
  lemma FixReflectionMakesRotation(s: Vec3, v: Mat3)
    ensures Det(FixReflection(s, v)) >= 0.0
    ensures forall k: Index3 :: k != SmallestIndex(s) ==> Col(FixReflection(s, v), k) == Col(v, k)
    ensures Det(v) < 0.0 <==> Col(FixReflection(s, v), SmallestIndex(s)) == Neg(Col(v, SmallestIndex(s))) != Col(v, SmallestIndex(s))
  {
    if Det(v) < 0.0 {
      DetNegateColumn(v, SmallestIndex(s));
    }
  }

  /** Singular values and U after inversion handling: when U is a reflection the
      tetrahedron is inverted, and the smallest singular value and its column of U
      are negated. */
  function FixInversion(hatF: Vec3, u: Mat3): (Vec3, Mat3) {
    if Det(u) < 0.0 then
      var k := SmallestIndex(hatF);
      (Set(hatF, k, -Get(hatF, k)), NegateColumn(u, k))
    else (hatF, u)
  }

  /** After the inversion fix U is a rotation; when it was a reflection, exactly the
      first smallest singular value and its column of U changed sign. */
  lemma FixInversionMakesRotation(hatF: Vec3, u: Mat3)
    ensures Det(FixInversion(hatF, u).1) >= 0.0
    ensures Det(u) < 0.0 ==> var k := SmallestIndex(hatF);
      Get(FixInversion(hatF, u).0, k) == -Get(hatF, k) &&
      Col(FixInversion(hatF, u).1, k) == Neg(Col(u, k)) &&
      forall j: Index3 :: j != k ==> Get(FixInversion(hatF, u).0, j) == Get(hatF, j) && Col(FixInversion(hatF, u).1, j) == Col(u, j)
    ensures Det(u) >= 0.0 ==> FixInversion(hatF, u) == (hatF, u)
  {
    if Det(u) < 0.0 {
      DetNegateColumn(u, SmallestIndex(hatF));
    }
  }

  /** Singular values below 0.577 are raised to 0.577. */
  function FloorSingularValues(hatF: Vec3): (r: Vec3)
    ensures forall i: Index3 :: Get(r, i) == Max(Get(hatF, i), MinSingularValue)
    ensures forall i: Index3 :: Get(r, i) >= MinSingularValue
  {
    Vec3(Max(hatF.x, MinSingularValue), Max(hatF.y, MinSingularValue), Max(hatF.z, MinSingularValue))
  }

  /** The rotations and floored singular values of F (steps up to the clamp). */
  datatype Decomposition = Decomposition(hatF: Vec3, u: Mat3, v: Mat3)

  function Decompose(num: Numerics, f: Mat3, fTransposeF: Mat3): (d: Decomposition)
    ensures forall i: Index3 :: Get(d.hatF, i) >= MinSingularValue
  {
    var es := num.eigen(fTransposeF);
    var s := ClampEigenvalues(es.values);
    var v := FixReflection(s, es.vectors);
    var hatF := Vec3(num.sqrt(s.x), num.sqrt(s.y), num.sqrt(s.z));
    var u := num.rotationU(f, v, hatF);
    var (hatF', u') := FixInversion(hatF, u);
    Decomposition(FloorSingularValues(hatF'), u', v)
  }

  /** epsilonHatF: the principal Green strains 0.5 (hatF_i^2 - 1). */
  function PrincipalStrains(hatF: Vec3): Vec3 {
    Vec3(0.5 * (hatF.x * hatF.x - 1.0), 0.5 * (hatF.y * hatF.y - 1.0), 0.5 * (hatF.z * hatF.z - 1.0))
  }

  function Trace(e: Vec3): real {
    e.x + e.y + e.z
  }

  /** sigmaVec: hatF_i (2 mu epsilonHatF_i + lambda trace). */
  function PrincipalStresses(hatF: Vec3, e: Vec3, mu: real, lambda: real): Vec3 {
    var ltrace := lambda * Trace(e);
    Vec3(hatF.x * (e.x * 2.0 * mu + ltrace),
         hatF.y * (e.y * 2.0 * mu + ltrace),
         hatF.z * (e.z * 2.0 * mu + ltrace))
  }

  /** psi = mu |epsilon|_F^2 + lambda/2 trace^2, the strain energy density. */
  function EnergyDensity(mu: real, lambda: real, epsilon: Mat3, trace: real): real {
    mu * FrobeniusSquared(epsilon) + 0.5 * lambda * trace * trace
  }

  /** restVolume psi: never negative for a nonnegative rest volume and nonnegative
      Lame parameters. */
  function Energy(restVolume: real, mu: real, lambda: real, epsilon: Mat3, trace: real): (r: real)
    ensures restVolume >= 0.0 && mu >= 0.0 && lambda >= 0.0 ==> r >= 0.0
  {
    if restVolume >= 0.0 && mu >= 0.0 && lambda >= 0.0 then
      DensityNonnegative(mu, lambda, epsilon, trace);
      ProductNonnegative(restVolume, EnergyDensity(mu, lambda, epsilon, trace));
      restVolume * EnergyDensity(mu, lambda, epsilon, trace)
    else
      restVolume * EnergyDensity(mu, lambda, epsilon, trace)
  }

  lemma DensityNonnegative(mu: real, lambda: real, epsilon: Mat3, trace: real)
    requires mu >= 0.0 && lambda >= 0.0
    ensures EnergyDensity(mu, lambda, epsilon, trace) >= 0.0
  {
    ProductNonnegative(mu, FrobeniusSquared(epsilon));
    SquareNonnegative(trace);
    ProductNonnegative(0.5 * lambda, trace * trace);
    assert 0.5 * lambda * trace * trace == (0.5 * lambda) * (trace * trace);
  }

  /** computeGreenStrainAndPiolaStressInversion: strain epsilon = U diag(epsilonHatF) V^T,
      stress sigma = U diag(sigmaVec) V^T, and the strain energy; the energy is never
      negative for a nonnegative rest volume and nonnegative Lame parameters. */
  function GreenStrainAndPiolaStressInversion(num: Numerics, f: Mat3, fTransposeF: Mat3,
                                              restVolume: real, mu: real, lambda: real): (r: InversionOutput)
    ensures restVolume >= 0.0 && mu >= 0.0 && lambda >= 0.0 ==> r.energy >= 0.0
  {
    var d := Decompose(num, f, fTransposeF);
    var e := PrincipalStrains(d.hatF);
    var sigmaVec := PrincipalStresses(d.hatF, e, mu, lambda);
    var vt := Transpose(d.v);
    var epsilon := Mul(Mul(d.u, Diagonal(e)), vt);
    var sigma := Mul(Mul(d.u, Diagonal(sigmaVec)), vt);
    InversionOutput(d.u, d.v, epsilon, sigma, Energy(restVolume, mu, lambda, epsilon, Trace(e)))
  }

  /** computeGreenStrainAndPiolaStress: the entries of the Green strain as the
      kernel writes them (upper triangle, then mirrored). */
  function GreenStrain(f: Mat3): Mat3 {
    var xx := 0.5 * (Dot(f.c0, f.c0) - 1.0);
    var yy := 0.5 * (Dot(f.c1, f.c1) - 1.0);
    var zz := 0.5 * (Dot(f.c2, f.c2) - 1.0);
    var xy := 0.5 * Dot(f.c0, f.c1);
    var xz := 0.5 * Dot(f.c0, f.c2);
    var yz := 0.5 * Dot(f.c1, f.c2);
    Mat3(Vec3(xx, xy, xz), Vec3(xy, yy, yz), Vec3(xz, yz, zz))
  }

  /** The epsilon written by the plain kernel is the Green strain (F^T F - I) / 2,
      and so is symmetric. */
  lemma GreenStrainIsSymmetricGreenStrain(f: Mat3)
    ensures forall r: Index3, c: Index3 ::
      At(GreenStrain(f), r, c) == 0.5 * (Dot(Col(f, r), Col(f, c)) - At(Identity, r, c))
    ensures forall r: Index3, c: Index3 :: At(GreenStrain(f), r, c) == At(GreenStrain(f), c, r)
  {
    forall r: Index3, c: Index3
      ensures At(GreenStrain(f), r, c) == 0.5 * (Dot(Col(f, r), Col(f, c)) - At(Identity, r, c))
    {
      if r != c {
        assert Dot(Col(f, r), Col(f, c)) == Dot(Col(f, c), Col(f, r));
      }
    }
  }

  /** computeGreenStrainAndPiolaStress: with epsilon the Green strain, the stress
      F (2 mu epsilon + lambda tr(epsilon) I) and the energy. */
  function GreenStrainAndPiolaStress(f: Mat3, restVolume: real, mu: real, lambda: real): (r: StressOutput)
    ensures restVolume >= 0.0 && mu >= 0.0 && lambda >= 0.0 ==> r.energy >= 0.0
    ensures r.epsilon == GreenStrain(f)
  {
    StressFromStrain(f, GreenStrain(f), restVolume, mu, lambda)
  }

  function StressFromStrain(f: Mat3, epsilon: Mat3, restVolume: real, mu: real, lambda: real): (r: StressOutput)
    ensures restVolume >= 0.0 && mu >= 0.0 && lambda >= 0.0 ==> r.energy >= 0.0
    ensures r.epsilon == epsilon
  {
    StressOutput(epsilon, PiolaStress(f, epsilon, mu, lambda), Energy(restVolume, mu, lambda, epsilon, MatrixTrace(epsilon)))
  }

  /** P(F) = F (2 mu epsilon + lambda tr(epsilon) I) */
  function PiolaStress(f: Mat3, epsilon: Mat3, mu: real, lambda: real): Mat3 {
    Mul(f, AddToDiagonal(ScaleMatrix(2.0 * mu, epsilon), lambda * MatrixTrace(epsilon)))
  }

  /** m + a I */
  function AddToDiagonal(m: Mat3, a: real): Mat3 {
    Mat3(m.c0.(x := m.c0.x + a), m.c1.(y := m.c1.y + a), m.c2.(z := m.c2.z + a))
  }

  /** An undeformed tetrahedron (F = I) has zero strain, zero stress and zero energy. */
  lemma PlainKernelAtRest(restVolume: real, mu: real, lambda: real)
    ensures GreenStrainAndPiolaStress(Identity, restVolume, mu, lambda)
      == StressOutput(ZeroMatrix, ZeroMatrix, 0.0)
  {
    GreenStrainAtIdentity();
    ZeroStrainStress(Identity, restVolume, mu, lambda);
  }

  lemma GreenStrainAtIdentity()
    ensures GreenStrain(Identity) == ZeroMatrix
  {
    assert Dot(Identity.c0, Identity.c0) == 1.0 && Dot(Identity.c0, Identity.c1) == 0.0;
  }

  lemma ZeroStrainStress(f: Mat3, restVolume: real, mu: real, lambda: real)
    ensures StressFromStrain(f, ZeroMatrix, restVolume, mu, lambda) == StressOutput(ZeroMatrix, ZeroMatrix, 0.0)
  {
    StressAtZeroStrain(f, mu, lambda);
    EnergyAtZeroStrain(restVolume, mu, lambda);
  }

  lemma StressAtZeroStrain(f: Mat3, mu: real, lambda: real)
    ensures PiolaStress(f, ZeroMatrix, mu, lambda) == ZeroMatrix
  {
    assert AddToDiagonal(ScaleMatrix(2.0 * mu, ZeroMatrix), lambda * MatrixTrace(ZeroMatrix)) == ZeroMatrix;
    MulZero(f);
  }

  lemma MulZero(f: Mat3)
    ensures Mul(f, ZeroMatrix) == ZeroMatrix
  {
  }

  lemma EnergyAtZeroStrain(restVolume: real, mu: real, lambda: real)
    ensures Energy(restVolume, mu, lambda, ZeroMatrix, 0.0) == 0.0
  {
    assert EnergyDensity(mu, lambda, ZeroMatrix, 0.0) == 0.0;
  }
}
