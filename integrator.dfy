/** The explicit integrator around the constraint projection: advanceVelocities,
    advancePositions, updateVelocities and the state swap. The CPU solver and the
    GPU solver's host side run the same three loops, so both use this module. */
module Integrator {
  import opened LinearAlgebra
  import opened Mesh

  /** One particle after advanceVelocities: gravity acts along y only. */
  function AdvancedVelocity(p: Particle, deltaT: real, gravity: real): (q: Particle)
    ensures q == p.(velocity := q.velocity)
    ensures q.velocity.x == p.previousVelocity.x && q.velocity.z == p.previousVelocity.z
    ensures q.velocity.y == p.previousVelocity.y + deltaT * p.inverseMass * gravity
    ensures p.inverseMass == 0.0 ==> q.velocity == p.previousVelocity
  {
    var temp := deltaT * p.inverseMass * gravity;
    p.(velocity := Vec3(p.previousVelocity.x + 0.0, p.previousVelocity.y + temp, p.previousVelocity.z + 0.0))
  }

  /** One particle after advancePositions: x = x_prev + dt v. */
  function PredictedPosition(p: Particle, deltaT: real): (q: Particle)
    ensures q == p.(position := q.position)
    ensures Sub(q.position, p.previousPosition) == Scale(deltaT, p.velocity)
  {
    p.(position := Add(p.previousPosition, Scale(deltaT, p.velocity)))
  }

  /** One particle after updateVelocities: v = (x - x_prev) / dt. */
  function ReconstructedVelocity(p: Particle, deltaT: real): (q: Particle)
    requires deltaT != 0.0
    ensures q == p.(velocity := q.velocity)
    ensures Scale(deltaT, q.velocity) == Sub(p.position, p.previousPosition)
  {
    var q := p.(velocity := Scale(1.0 / deltaT, Sub(p.position, p.previousPosition)));
    ScaleInverse(deltaT, Sub(p.position, p.previousPosition));
    q
  }

  lemma ScaleInverse(k: real, v: Vec3)
    requires k != 0.0
    ensures Scale(k, Scale(1.0 / k, v)) == v
  {
    assert k * (1.0 / k) == 1.0;
    assert k * ((1.0 / k) * v.x) == (k * (1.0 / k)) * v.x;
    assert k * ((1.0 / k) * v.y) == (k * (1.0 / k)) * v.y;
    assert k * ((1.0 / k) * v.z) == (k * (1.0 / k)) * v.z;
  }

  /** swapStates: the current state becomes the previous state. */
  function Swapped(p: Particle): (q: Particle)
    ensures q.previousPosition == p.position && q.previousVelocity == p.velocity
    ensures q.position == p.position && q.velocity == p.velocity && q.inverseMass == p.inverseMass
  {
    p.(previousPosition := p.position, previousVelocity := p.velocity)
  }

  /** The integrator steps over every particle. */
  function AdvanceAll(ps: seq<Particle>, deltaT: real, gravity: real): (r: seq<Particle>)
    ensures |r| == |ps| && forall i :: 0 <= i < |ps| ==> r[i] == AdvancedVelocity(ps[i], deltaT, gravity)
  {
    seq(|ps|, i requires 0 <= i < |ps| => AdvancedVelocity(ps[i], deltaT, gravity))
  }

  function PredictAll(ps: seq<Particle>, deltaT: real): (r: seq<Particle>)
    ensures |r| == |ps| && forall i :: 0 <= i < |ps| ==> r[i] == PredictedPosition(ps[i], deltaT)
  {
    seq(|ps|, i requires 0 <= i < |ps| => PredictedPosition(ps[i], deltaT))
  }

  function ReconstructAll(ps: seq<Particle>, deltaT: real): (r: seq<Particle>)
    requires deltaT != 0.0
    ensures |r| == |ps| && forall i :: 0 <= i < |ps| ==> r[i] == ReconstructedVelocity(ps[i], deltaT)
  {
    seq(|ps|, i requires 0 <= i < |ps| => ReconstructedVelocity(ps[i], deltaT))
  }

  function SwapAll(ps: seq<Particle>): (r: seq<Particle>)
    ensures |r| == |ps| && forall i :: 0 <= i < |ps| ==> r[i] == Swapped(ps[i])
  {
    seq(|ps|, i requires 0 <= i < |ps| => Swapped(ps[i]))
  }

  /** With no projection in between, updateVelocities gives back the velocity that
      advancePositions moved the particle with, so the particle is left as
      advancePositions left it. */
  lemma ReconstructInvertsPredict(p: Particle, deltaT: real)
    requires deltaT != 0.0
    ensures ReconstructedVelocity(PredictedPosition(p, deltaT), deltaT) == PredictedPosition(p, deltaT)
  {
    var q := PredictedPosition(p, deltaT);
    var r := ReconstructedVelocity(q, deltaT);
    ScaleCancels(deltaT, r.velocity, p.velocity);
  }

  lemma ScaleCancels(k: real, a: Vec3, b: Vec3)
    requires k != 0.0 && Scale(k, a) == Scale(k, b)
    ensures a == b
  {
    assert k * a.x == k * b.x && k * a.y == k * b.y && k * a.z == k * b.z;
  }

  /** The same over all particles: updateVelocities right after advancePositions
      changes nothing. */
  lemma ReconstructAllInvertsPredictAll(ps: seq<Particle>, deltaT: real)
    requires deltaT != 0.0
    ensures ReconstructAll(PredictAll(ps, deltaT), deltaT) == PredictAll(ps, deltaT)
  {
    forall i | 0 <= i < |ps|
      ensures ReconstructAll(PredictAll(ps, deltaT), deltaT)[i] == PredictAll(ps, deltaT)[i]
    {
      ReconstructInvertsPredict(ps[i], deltaT);
    }
  }

  /** advanceVelocities */
  method AdvanceVelocities(particles: array<Particle>, deltaT: real, gravity: real)
    modifies particles
    ensures particles[..] == AdvanceAll(old(particles[..]), deltaT, gravity)
  {
    var i := 0;
    while i < particles.Length
      invariant 0 <= i <= particles.Length
      invariant forall k :: 0 <= k < i ==> particles[k] == AdvancedVelocity(old(particles[k]), deltaT, gravity)
      invariant forall k :: i <= k < particles.Length ==> particles[k] == old(particles[k])
    {
      var p := particles[i];
      var temp := deltaT * p.inverseMass * gravity;
      particles[i] := p.(velocity := Vec3(p.previousVelocity.x + 0.0, p.previousVelocity.y + temp, p.previousVelocity.z + 0.0));
      i := i + 1;
    }
  }

  /** advancePositions */
  method AdvancePositions(particles: array<Particle>, deltaT: real)
    modifies particles
    ensures particles[..] == PredictAll(old(particles[..]), deltaT)
  {
    var i := 0;
    while i < particles.Length
      invariant 0 <= i <= particles.Length
      invariant forall k :: 0 <= k < i ==> particles[k] == PredictedPosition(old(particles[k]), deltaT)
      invariant forall k :: i <= k < particles.Length ==> particles[k] == old(particles[k])
    {
      var p := particles[i];
      particles[i] := p.(position := Add(p.previousPosition, Scale(deltaT, p.velocity)));
      i := i + 1;
    }
  }

  /** updateVelocities; the time step is never zero. */
  method UpdateVelocities(particles: array<Particle>, deltaT: real)
    requires deltaT != 0.0
    modifies particles
    ensures particles[..] == ReconstructAll(old(particles[..]), deltaT)
  {
    var i := 0;
    while i < particles.Length
      invariant 0 <= i <= particles.Length
      invariant forall k :: 0 <= k < i ==> particles[k] == ReconstructedVelocity(old(particles[k]), deltaT)
      invariant forall k :: i <= k < particles.Length ==> particles[k] == old(particles[k])
    {
      var p := particles[i];
      particles[i] := p.(velocity := Scale(1.0 / deltaT, Sub(p.position, p.previousPosition)));
      i := i + 1;
    }
  }

  /** The loop over the particles calling swapStates. */
  method SwapStates(particles: array<Particle>)
    modifies particles
    ensures particles[..] == SwapAll(old(particles[..]))
  {
    var i := 0;
    while i < particles.Length
      invariant 0 <= i <= particles.Length
      invariant forall k :: 0 <= k < i ==> particles[k] == Swapped(old(particles[k]))
      invariant forall k :: i <= k < particles.Length ==> particles[k] == old(particles[k])
    {
      particles[i] := Swapped(particles[i]);
      i := i + 1;
    }
  }
}
