/** The entities the solver works on: particles, tetrahedra, the solver settings,
    and the numerical routines the model takes as given (Eigen's eigen-solver,
    sqrtf, the norm, and the tetrahedron's deformation gradient). */
module Mesh {
  import opened LinearAlgebra

  /** One of the four vertex slots of a tetrahedron. */
  type Slot = j: int | 0 <= j < 4

  /** PBDParticle: double-buffered kinematic state and inverse mass (0 = pinned). */
  datatype Particle = Particle(
    position: Vec3,
    previousPosition: Vec3,
    velocity: Vec3,
    previousVelocity: Vec3,
    inverseMass: real)

  /** PBDTetrahedra3d: four particle indices and the rest-state data fixed at load. */
  datatype Tetrahedron = Tetrahedron(
    vertexIndices: seq<int>,
    referenceShapeMatrixInverseTranspose: Mat3,
    undeformedVolume: real)

  /** The eigen-solver's answer for a symmetric matrix: the diagonal of the
      pseudo-eigenvalue matrix and the pseudo-eigenvectors (by column). */
  datatype EigenSystem = EigenSystem(values: Vec3, vectors: Mat3)

  /** Numerical routines whose internals are not part of this model.
      - eigen: Eigen::EigenSolver applied to F^T F;
      - sqrt: sqrtf;
      - rotationU: the construction of U from F, V and the singular values,
        including the near-zero branches with cross product and normalisation;
      - norm: lpNorm<2>, the Euclidean length;
      - deformationGradient: PBDTetrahedra3d::getDeformationGradient from the
        tetrahedron's rest data and the current positions of its four vertices. */
  datatype Numerics = Numerics(
    eigen: Mat3 -> EigenSystem,
    sqrt: real -> real,
    rotationU: (Mat3, Mat3, Vec3) -> Mat3,
    norm: Vec3 -> real,
    deformationGradient: (Tetrahedron, Vec3, Vec3, Vec3, Vec3) -> Mat3)

  /** PBDSolverSettings as the CPU solver reads it. */
  datatype Settings = Settings(
    deltaT: real,
    gravity: real,
    numConstraintIts: int,
    numTetrahedra: int,
    mu: real,
    lambda: real,
    useSOR: bool,
    w: real)

  /** The tetrahedron has four vertex indices, each naming one of n particles. */
  predicate WellFormed(tet: Tetrahedron, n: nat) {
    |tet.vertexIndices| == 4 && forall j :: 0 <= j < 4 ==> 0 <= tet.vertexIndices[j] < n
  }

  /** get_x(slot): the particle in one slot of the tetrahedron. */
  function VertexOf(tet: Tetrahedron, ps: seq<Particle>, slot: Slot): Particle
    requires WellFormed(tet, |ps|)
  {
    ps[tet.vertexIndices[slot]]
  }

  /** getDeformationGradient() at the particles' current positions. */
  function DeformationGradientOf(num: Numerics, tet: Tetrahedron, ps: seq<Particle>): Mat3
    requires WellFormed(tet, |ps|)
  {
    num.deformationGradient(tet, VertexOf(tet, ps, 0).position, VertexOf(tet, ps, 1).position,
                            VertexOf(tet, ps, 2).position, VertexOf(tet, ps, 3).position)
  }

  /** isIdentity(), without Eigen's tolerance. */
  predicate IsIdentity(f: Mat3) {
    f == Identity
  }

  /** Fields other than the position are equal. */
  predicate SameButPosition(a: Particle, b: Particle) {
    a.previousPosition == b.previousPosition && a.velocity == b.velocity &&
    a.previousVelocity == b.previousVelocity && a.inverseMass == b.inverseMass
  }

  /** The two states hold the same particles apart from positions. */
  predicate OnlyPositionsDiffer(a: seq<Particle>, b: seq<Particle>) {
    |a| == |b| && forall i :: 0 <= i < |a| ==> SameButPosition(a[i], b[i])
  }

  /** Every pinned particle (inverse mass 0) has the same state in a and b. */
  predicate PinnedUnchanged(a: seq<Particle>, b: seq<Particle>) {
    |a| == |b| && forall i :: 0 <= i < |a| && a[i].inverseMass == 0.0 ==> b[i] == a[i]
  }

  /** Both relations carry over from a to b and b to c to a and c. */
  lemma KeepsPinnedTransitive(a: seq<Particle>, b: seq<Particle>, c: seq<Particle>)
    requires OnlyPositionsDiffer(a, b) && PinnedUnchanged(a, b)
    requires OnlyPositionsDiffer(b, c) && PinnedUnchanged(b, c)
    ensures OnlyPositionsDiffer(a, c) && PinnedUnchanged(a, c)
  {
    forall i | 0 <= i < |a|
      ensures SameButPosition(a[i], c[i])
      ensures a[i].inverseMass == 0.0 ==> c[i] == a[i]
    {
      assert SameButPosition(a[i], b[i]) && SameButPosition(b[i], c[i]);
    }
  }
}
