/** PBDSolver: one frame of the CPU solver. It advances the velocities by gravity,
    predicts the positions, projects the strain-energy constraints (sequentially, or
    in relaxed parallel form when useSOR is set), rebuilds the velocities from the
    positions, swaps the two particle states and counts the frame. */
module Solver {
  import opened LinearAlgebra
  import opened Mesh
  import opened Constraint
  import opened Integrator
  import Sequential
  import Relaxed

  /** The particles and accumulators after a frame, and whether every division the
      projection made was by a nonzero denominator. */
  datatype Frame = Frame(particles: seq<Particle>, acc: Relaxed.Accumulators, finite: bool)

  /** What advanceSystem asks of the settings and buffers: a nonzero time step, a
      nonnegative tetrahedron count naming well-formed tetrahedra, and, for the
      relaxed pass, one accumulator entry per particle and a step size the chunk
      loop can advance by. */
  predicate Admissible(num: Numerics, tetrahedra: seq<Tetrahedron>, s: Settings, ps: seq<Particle>, acc: Relaxed.Accumulators) {
    s.deltaT != 0.0 && 0 <= s.numTetrahedra && ValidModel(ModelOf(num, tetrahedra, s), |ps|) &&
    (s.useSOR ==>
       Relaxed.Covers(acc, |ps|) &&
       (s.numConstraintIts <= 0 || s.numTetrahedra == 0 || s.numTetrahedra >= Relaxed.NumThreads))
  }

  /** The projection step of advanceSystem: projectConstraints unless useSOR is set,
      projectConstraintsSOR otherwise. The sequential pass leaves the accumulators
      alone. */
  function Project(num: Numerics, tetrahedra: seq<Tetrahedron>, s: Settings, ps: seq<Particle>, acc: Relaxed.Accumulators): (r: Frame)
    requires Admissible(num, tetrahedra, s, ps, acc)
    ensures |r.particles| == |ps|
    ensures !s.useSOR ==> r.acc == acc
  {
    var m := ModelOf(num, tetrahedra, s);
    if !s.useSOR then
      var run := Sequential.Passes(m, s.numConstraintIts, ps);
      Frame(run.particles, acc, run.finite)
    else
      var sor := Relaxed.SorIterations(m, s.numConstraintIts, ps, acc);
      Frame(sor.particles, sor.acc, sor.finite)
  }

  /** The projection moves only positions and never a pinned particle, whichever
      pass runs. */
  lemma ProjectKeepsPinned(num: Numerics, tetrahedra: seq<Tetrahedron>, s: Settings, ps: seq<Particle>, acc: Relaxed.Accumulators)
    requires Admissible(num, tetrahedra, s, ps, acc)
    ensures OnlyPositionsDiffer(ps, Project(num, tetrahedra, s, ps, acc).particles)
    ensures PinnedUnchanged(ps, Project(num, tetrahedra, s, ps, acc).particles)
  {
    var m := ModelOf(num, tetrahedra, s);
    if !s.useSOR {
      Sequential.RunKeepsPinned(m, s.numConstraintIts, ps);
    } else {
      Relaxed.SorIterationsKeepPinned(m, s.numConstraintIts, ps, acc);
    }
  }

  /** Over a configuration at rest the projection moves nothing whenever its
      multipliers are finite. The relaxed pass always is (0/0 is replaced by zero);
      the sequential one is when every tetrahedron is undeformed. */
  lemma ProjectAtRest(num: Numerics, tetrahedra: seq<Tetrahedron>, s: Settings, ps: seq<Particle>, acc: Relaxed.Accumulators)
    requires Admissible(num, tetrahedra, s, ps, acc) && AtRest(ModelOf(num, tetrahedra, s), ps)
    ensures Project(num, tetrahedra, s, ps, acc).finite ==> Project(num, tetrahedra, s, ps, acc).particles == ps
    ensures s.useSOR ==> Project(num, tetrahedra, s, ps, acc).finite
    ensures AllUndeformed(ModelOf(num, tetrahedra, s), ps) ==> Project(num, tetrahedra, s, ps, acc).finite
  {
    var m := ModelOf(num, tetrahedra, s);
    if !s.useSOR {
      Sequential.RunAtRest(m, s.numConstraintIts, ps);
    } else {
      Relaxed.SorIterationsAtRest(m, s.numConstraintIts, ps, acc);
    }
  }

  /** The particles the projection starts from: velocities advanced by gravity,
      then positions predicted from them. */
  function Predicted(ps: seq<Particle>, s: Settings): (r: seq<Particle>)
    ensures |r| == |ps|
  {
    PredictAll(AdvanceAll(ps, s.deltaT, s.gravity), s.deltaT)
  }

  /** One frame of advanceSystem over the particle states. */
  function Step(num: Numerics, tetrahedra: seq<Tetrahedron>, s: Settings, ps: seq<Particle>, acc: Relaxed.Accumulators): (r: Frame)
    requires Admissible(num, tetrahedra, s, ps, acc)
    ensures |r.particles| == |ps|
  {
    var projected := Project(num, tetrahedra, s, Predicted(ps, s), acc);
    Frame(SwapAll(ReconstructAll(projected.particles, s.deltaT)), projected.acc, projected.finite)
  }

  /** After a frame each particle's previous state equals its current state, its
      inverse mass is unchanged, and its velocity is its displacement over the frame
      (from the previous position it started with) divided by the time step. */
  lemma StepState(num: Numerics, tetrahedra: seq<Tetrahedron>, s: Settings, ps: seq<Particle>, acc: Relaxed.Accumulators, i: int)
    requires Admissible(num, tetrahedra, s, ps, acc) && 0 <= i < |ps|
    ensures var q := Step(num, tetrahedra, s, ps, acc).particles[i];
      q.previousPosition == q.position && q.previousVelocity == q.velocity &&
      q.inverseMass == ps[i].inverseMass &&
      Scale(s.deltaT, q.velocity) == Sub(q.position, ps[i].previousPosition)
  {
    var pred := Predicted(ps, s);
    ProjectKeepsPinned(num, tetrahedra, s, pred, acc);
    var projected := Project(num, tetrahedra, s, pred, acc).particles;
    assert SameButPosition(pred[i], projected[i]);
  }

  /** A pinned particle feels no gravity and no constraint: it moves on by its
      previous velocity times the time step, and keeps that velocity. */
  lemma StepPinned(num: Numerics, tetrahedra: seq<Tetrahedron>, s: Settings, ps: seq<Particle>, acc: Relaxed.Accumulators, i: int)
    requires Admissible(num, tetrahedra, s, ps, acc) && 0 <= i < |ps| && ps[i].inverseMass == 0.0
    ensures var q := Step(num, tetrahedra, s, ps, acc).particles[i];
      q.position == Add(ps[i].previousPosition, Scale(s.deltaT, ps[i].previousVelocity)) &&
      q.velocity == ps[i].previousVelocity
  {
    var pred := Predicted(ps, s);
    ProjectKeepsPinned(num, tetrahedra, s, pred, acc);
    var projected := Project(num, tetrahedra, s, pred, acc).particles;
    assert projected[i] == pred[i];
    var v := ps[i].previousVelocity;
    assert pred[i].position == Add(ps[i].previousPosition, Scale(s.deltaT, v));
    DisplacementOverStep(s.deltaT, ps[i].previousPosition, v);
  }

  /** Rebuilding the velocity from a displacement of dt v gives back v. */
  lemma DisplacementOverStep(deltaT: real, x: Vec3, v: Vec3)
    requires deltaT != 0.0
    ensures Scale(1.0 / deltaT, Sub(Add(x, Scale(deltaT, v)), x)) == v
  {
    assert (1.0 / deltaT) * deltaT == 1.0;
    assert (1.0 / deltaT) * (x.x + deltaT * v.x - x.x) == ((1.0 / deltaT) * deltaT) * v.x;
    assert (1.0 / deltaT) * (x.y + deltaT * v.y - x.y) == ((1.0 / deltaT) * deltaT) * v.y;
    assert (1.0 / deltaT) * (x.z + deltaT * v.z - x.z) == ((1.0 / deltaT) * deltaT) * v.z;
  }

  /** Without constraint iterations a free particle follows symplectic Euler:
      v = v_prev + dt w g along y, x = x_prev + dt v. */
  lemma StepUnconstrained(num: Numerics, tetrahedra: seq<Tetrahedron>, s: Settings, ps: seq<Particle>, acc: Relaxed.Accumulators, i: int)
    requires Admissible(num, tetrahedra, s, ps, acc) && 0 <= i < |ps| && s.numConstraintIts <= 0
    ensures var q := Step(num, tetrahedra, s, ps, acc).particles[i];
      var v := ps[i].previousVelocity;
      q.velocity == Vec3(v.x, v.y + s.deltaT * ps[i].inverseMass * s.gravity, v.z) &&
      q.position == Add(ps[i].previousPosition, Scale(s.deltaT, q.velocity))
  {
    var pred := Predicted(ps, s);
    assert Project(num, tetrahedra, s, pred, acc).particles == pred;
    var advanced := AdvanceAll(ps, s.deltaT, s.gravity)[i];
    assert pred[i].position == Add(ps[i].previousPosition, Scale(s.deltaT, advanced.velocity));
    DisplacementOverStep(s.deltaT, ps[i].previousPosition, advanced.velocity);
  }

  /** The projection of a frame divides only by nonzero denominators. */
  predicate StepFinite(num: Numerics, tetrahedra: seq<Tetrahedron>, s: Settings, ps: seq<Particle>, acc: Relaxed.Accumulators)
    requires Admissible(num, tetrahedra, s, ps, acc)
  {
    Project(num, tetrahedra, s, Predicted(ps, s), acc).finite
  }

  /** PBDSolver with its frame counter. */
  class PbdSolver {
    var currentFrame: int

    constructor()
      ensures currentFrame == 0
    {
      currentFrame := 0;
    }

    /** advanceSystem: one frame, in place. */
    method AdvanceSystem(num: Numerics, tetrahedra: seq<Tetrahedron>, particles: array<Particle>, settings: Settings,
                         temporaryPositions: array<Vec3>, numConstraintInfluences: array<int>)
      requires Admissible(num, tetrahedra, settings, particles[..],
                          Relaxed.Accumulators(temporaryPositions[..], numConstraintInfluences[..]))
      requires StepFinite(num, tetrahedra, settings, particles[..],
                          Relaxed.Accumulators(temporaryPositions[..], numConstraintInfluences[..]))
      modifies this, particles, temporaryPositions, numConstraintInfluences
      ensures currentFrame == old(currentFrame) + 1
      ensures var r := Step(num, tetrahedra, settings, old(particles[..]),
                            Relaxed.Accumulators(old(temporaryPositions[..]), old(numConstraintInfluences[..])));
        particles[..] == r.particles &&
        Relaxed.Accumulators(temporaryPositions[..], numConstraintInfluences[..]) == r.acc
    {
      ghost var acc := Relaxed.Accumulators(temporaryPositions[..], numConstraintInfluences[..]);
      ghost var ps := particles[..];
      var m := ModelOf(num, tetrahedra, settings);
      AdvanceVelocities(particles, settings.deltaT, settings.gravity);
      AdvancePositions(particles, settings.deltaT);
      assert particles[..] == Predicted(ps, settings);
      if !settings.useSOR {
        Sequential.ProjectConstraints(particles, m, settings.numConstraintIts);
      } else {
        Relaxed.ProjectConstraintsSOR(particles, m, settings.numConstraintIts, temporaryPositions, numConstraintInfluences);
      }
      assert particles[..] == Project(num, tetrahedra, settings, Predicted(ps, settings), acc).particles;
      UpdateVelocities(particles, settings.deltaT);
      SwapStates(particles);
      currentFrame := currentFrame + 1;
    }
  }
}
