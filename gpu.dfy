/** PBDGPU_Solver's host side: the CUDA launch geometry, the flattened buffers that
    setup builds for the device, and the frame that integrates on the host, copies
    the positions to the device buffer and back, and finishes the frame on the host.
    The device kernel (CUDA_projectConstraints) is a parameter. */
module Gpu {
  import opened LinearAlgebra
  import opened Mesh
  import opened Integrator

  /** CUDA_NUM_THREADS_PER_BLOCK */
  const ThreadsPerBlock: int := 64

  /** CUDA_NUM_PARTICLES: whole blocks of 64 threads, one block more than n/64. It is
      the next multiple of 64 above n, a whole extra block when 64 divides n. */
  function PaddedCount(n: nat): (p: nat)
    ensures p % ThreadsPerBlock == 0
    ensures n < p <= n + ThreadsPerBlock
    ensures n % ThreadsPerBlock == 0 ==> p == n + ThreadsPerBlock
  {
    (n / ThreadsPerBlock + 1) * ThreadsPerBlock
  }

  /** The CUDA_* launch-parameter globals. */
  class LaunchGlobals {
    var trueNumConstraints: int
    var numThreadsPerBlock: int
    var numBlocks: int
    var numParticles: int

    /** Globals start out zero. */
    constructor()
      ensures trueNumConstraints == 0 && numThreadsPerBlock == 0 && numBlocks == 0 && numParticles == 0
    {
      trueNumConstraints := 0;
      numThreadsPerBlock := 0;
      numBlocks := 0;
      numParticles := 0;
    }

    /** determineCUDALaunchParameters for n tetrahedra. */
    method DetermineLaunchParameters(n: nat)
      modifies this
      ensures trueNumConstraints == n && numThreadsPerBlock == ThreadsPerBlock
      ensures numBlocks == n / ThreadsPerBlock + 1 && numParticles == PaddedCount(n)
      ensures numParticles % numThreadsPerBlock == 0 && n < numParticles <= n + numThreadsPerBlock
    {
      trueNumConstraints := n;
      numThreadsPerBlock := 64;
      numBlocks := (n / numThreadsPerBlock) + 1;
      numParticles := numBlocks * numThreadsPerBlock;
    }
  }

  /** The blocks laid end to end. */
  function Concat<T>(blocks: seq<seq<T>>): seq<T>
    decreases |blocks|
  {
    if |blocks| == 0 then [] else Concat(blocks[..|blocks| - 1]) + blocks[|blocks| - 1]
  }

  /** Every block holds w entries. */
  predicate Uniform<T>(blocks: seq<seq<T>>, w: nat) {
    forall i :: 0 <= i < |blocks| ==> |blocks[i]| == w
  }

  /** Appending one block appends its entries. */
  lemma ConcatSnoc<T>(blocks: seq<seq<T>>, b: seq<T>)
    ensures Concat(blocks + [b]) == Concat(blocks) + b
  {
    assert (blocks + [b])[..|blocks|] == blocks;
  }

  /** One more block of a prefix appends that block. */
  lemma ConcatPrefixSnoc<T>(blocks: seq<seq<T>>, i: int)
    requires 0 <= i < |blocks|
    ensures Concat(blocks[..i + 1]) == Concat(blocks[..i]) + blocks[i]
  {
    assert blocks[..i + 1] == blocks[..i] + [blocks[i]];
    ConcatSnoc(blocks[..i], blocks[i]);
  }

  lemma {:induction false} ConcatLength<T>(blocks: seq<seq<T>>, w: nat)
    requires Uniform(blocks, w)
    ensures |Concat(blocks)| == w * |blocks|
    decreases |blocks|
  {
    if |blocks| > 0 {
      var n := |blocks| - 1;
      ConcatLength(blocks[..n], w);
      assert w * (n + 1) == w * n + w;
    }
  }

  /** Entry j of block i sits at w*i + j. */
  lemma {:induction false} ConcatAt<T>(blocks: seq<seq<T>>, w: nat, i: int, j: int)
    requires Uniform(blocks, w) && 0 <= i < |blocks| && 0 <= j < w
    ensures w * i + j < |Concat(blocks)| && Concat(blocks)[w * i + j] == blocks[i][j]
    decreases |blocks|
  {
    var n := |blocks| - 1;
    var prefix := Concat(blocks[..n]);
    assert Concat(blocks) == prefix + blocks[n];
    ConcatLength(blocks[..n], w);
    assert |prefix| == w * n;
    if i < n {
      ConcatAt(blocks[..n], w, i, j);
      ScaleLe(w, i + 1, n);
      assert w * (i + 1) == w * i + w;
      assert blocks[..n][i] == blocks[i];
      assert (prefix + blocks[n])[w * i + j] == prefix[w * i + j];
    } else {
      assert w * i + j - |prefix| == j;
    }
  }

  lemma ScaleLe(w: nat, a: int, b: int)
    requires a <= b
    ensures w * a <= w * b
  {
    assert w * b - w * a == w * (b - a);
  }

  /** Block i is the slice w*i .. w*i+w of the concatenation. */
  lemma ConcatBlock<T>(blocks: seq<seq<T>>, w: nat, i: int)
    requires Uniform(blocks, w) && 0 <= i < |blocks|
    ensures w * i + w <= |Concat(blocks)| && Concat(blocks)[w * i .. w * i + w] == blocks[i]
  {
    ConcatLength(blocks, w);
    assert w * i + w <= w * |blocks| by {
      assert w * |blocks| - (w * i + w) == w * (|blocks| - i - 1);
    }
    forall j | 0 <= j < w
      ensures Concat(blocks)[w * i .. w * i + w][j] == blocks[i][j]
    {
      ConcatAt(blocks, w, i, j);
    }
  }

  /** The four vertex indices of each tetrahedron, as setup's step 2 reads them. */
  function IndexBlocks(tets: seq<Tetrahedron>): (bs: seq<seq<int>>)
    ensures |bs| == |tets| && forall i :: 0 <= i < |tets| ==> bs[i] == tets[i].vertexIndices
  {
    seq(|tets|, i requires 0 <= i < |tets| => tets[i].vertexIndices)
  }

  /** The inverse masses of the particles in a tetrahedron's four slots. */
  function SlotMasses(tet: Tetrahedron, ps: seq<Particle>): (ws: seq<real>)
    requires WellFormed(tet, |ps|)
    ensures |ws| == 4 && forall j :: 0 <= j < 4 ==> ws[j] == ps[tet.vertexIndices[j]].inverseMass
  {
    seq(4, j requires 0 <= j < 4 => ps[tet.vertexIndices[j]].inverseMass)
  }

  /** Setup's step 1, tetrahedron by tetrahedron. */
  function MassBlocks(tets: seq<Tetrahedron>, ps: seq<Particle>): (bs: seq<seq<real>>)
    requires forall i :: 0 <= i < |tets| ==> WellFormed(tets[i], |ps|)
    ensures |bs| == |tets| && forall i :: 0 <= i < |tets| ==> bs[i] == SlotMasses(tets[i], ps)
  {
    seq(|tets|, i requires 0 <= i < |tets| => SlotMasses(tets[i], ps))
  }

  /** Setup's step 3: the undeformed volumes. */
  function Volumes(tets: seq<Tetrahedron>): (vs: seq<real>)
    ensures |vs| == |tets| && forall i :: 0 <= i < |tets| ==> vs[i] == tets[i].undeformedVolume
  {
    seq(|tets|, i requires 0 <= i < |tets| => tets[i].undeformedVolume)
  }

  /** The nine entries setup's step 4 pushes for one matrix: the transpose, row by
      row. */
  function ShapeEntries(m: Mat3): (e: seq<real>)
    ensures |e| == 9
  {
    seq(9, k requires 0 <= k < 9 => At(Transpose(m), k / 3, k % 3))
  }

  /** Entry 3r+c of the nine is the transpose's entry (r, c). */
  lemma ShapeEntryAt(m: Mat3, r: Index3, c: Index3)
    ensures ShapeEntries(m)[3 * r + c] == At(Transpose(m), r, c)
  {
    assert (3 * r + c) / 3 == r && (3 * r + c) % 3 == c;
  }

  function ShapeBlocks(tets: seq<Tetrahedron>): (bs: seq<seq<real>>)
    ensures |bs| == |tets| &&
      forall i :: 0 <= i < |tets| ==> bs[i] == ShapeEntries(tets[i].referenceShapeMatrixInverseTranspose)
  {
    seq(|tets|, i requires 0 <= i < |tets| => ShapeEntries(tets[i].referenceShapeMatrixInverseTranspose))
  }

  /** Reading nine entries back as a matrix: each run of three is one column. */
  function ShapeFromEntries(e: seq<real>): Mat3
    requires |e| == 9
  {
    Mat3(Vec3(e[0], e[1], e[2]), Vec3(e[3], e[4], e[5]), Vec3(e[6], e[7], e[8]))
  }

  /** A tetrahedron read back from the flattened indices, volumes and matrices. */
  function UnflattenTetrahedron(indices: seq<int>, volumes: seq<real>, shapes: seq<real>, i: int): Tetrahedron
    requires 0 <= i && 4 * i + 4 <= |indices| && i < |volumes| && 9 * i + 9 <= |shapes|
  {
    Tetrahedron(indices[4 * i .. 4 * i + 4], ShapeFromEntries(shapes[9 * i .. 9 * i + 9]), volumes[i])
  }

  /** Reading a matrix's entries back gives the matrix. */
  lemma ShapeRoundTrip(m: Mat3)
    ensures ShapeFromEntries(ShapeEntries(m)) == m
  {
    var e := ShapeEntries(m);
    assert e[0] == m.c0.x && e[1] == m.c0.y && e[2] == m.c0.z;
    assert e[3] == m.c1.x && e[4] == m.c1.y && e[5] == m.c1.z;
    assert e[6] == m.c2.x && e[7] == m.c2.y && e[8] == m.c2.z;
  }

  /** The layout of the flattened buffers: slot j of tetrahedron i at 4i+j in the
      index and inverse-mass buffers, and entry (r, c) of the transposed reference
      matrix of tetrahedron i at 9i+3r+c. */
  lemma FlatLayout(tets: seq<Tetrahedron>, ps: seq<Particle>, i: int, j: int, r: Index3, c: Index3)
    requires forall t :: 0 <= t < |tets| ==> WellFormed(tets[t], |ps|)
    requires 0 <= i < |tets| && 0 <= j < 4
    ensures WellFormed(tets[i], |ps|) && 4 * i + j < |Concat(IndexBlocks(tets))| &&
      Concat(IndexBlocks(tets))[4 * i + j] == tets[i].vertexIndices[j]
    ensures 4 * i + j < |Concat(MassBlocks(tets, ps))| &&
      Concat(MassBlocks(tets, ps))[4 * i + j] == ps[tets[i].vertexIndices[j]].inverseMass
    ensures 9 * i + 3 * r + c < |Concat(ShapeBlocks(tets))| &&
      Concat(ShapeBlocks(tets))[9 * i + 3 * r + c] == At(tets[i].referenceShapeMatrixInverseTranspose, c, r)
  {
    assert WellFormed(tets[i], |ps|);
    ConcatAt(IndexBlocks(tets), 4, i, j);
    ConcatAt(MassBlocks(tets, ps), 4, i, j);
    ConcatAt(ShapeBlocks(tets), 9, i, 3 * r + c);
    assert (3 * r + c) / 3 == r && (3 * r + c) % 3 == c;
  }

  /** Flattening then reading back reproduces every tetrahedron exactly. */
  lemma FlattenRoundTrip(tets: seq<Tetrahedron>, i: int)
    requires forall t :: 0 <= t < |tets| ==> |tets[t].vertexIndices| == 4
    requires 0 <= i < |tets|
    ensures 4 * i + 4 <= |Concat(IndexBlocks(tets))| && 9 * i + 9 <= |Concat(ShapeBlocks(tets))|
    ensures UnflattenTetrahedron(Concat(IndexBlocks(tets)), Volumes(tets), Concat(ShapeBlocks(tets)), i) == tets[i]
  {
    ConcatBlock(IndexBlocks(tets), 4, i);
    ConcatBlock(ShapeBlocks(tets), 9, i);
    ShapeRoundTrip(tets[i].referenceShapeMatrixInverseTranspose);
  }

  /** std::vector::resize: keep the first n entries, pad with zeros. */
  function Resized(s: seq<real>, n: nat): (r: seq<real>)
    ensures |r| == n
    ensures forall k :: 0 <= k < n ==> r[k] == (if k < |s| then s[k] else 0.0)
  {
    if n <= |s| then s[..n] else s + seq(n - |s|, _ => 0.0)
  }

  /** On a fresh solver setup leaves 4T inverse masses, 4T indices, T volumes, 9T
      matrix entries and 4T zero positions for T tetrahedra. */
  lemma FreshSetupLengths(tets: seq<Tetrahedron>, ps: seq<Particle>)
    requires forall t :: 0 <= t < |tets| ==> WellFormed(tets[t], |ps|)
    ensures |Concat(MassBlocks(tets, ps))| == 4 * |tets| && |Concat(IndexBlocks(tets))| == 4 * |tets|
    ensures |Volumes(tets)| == |tets| && |Concat(ShapeBlocks(tets))| == 9 * |tets|
    ensures Resized([], 4 * |tets|) == seq(4 * |tets|, _ => 0.0)
  {
    ConcatLength(MassBlocks(tets, ps), 4);
    ConcatLength(IndexBlocks(tets), 4);
    ConcatLength(ShapeBlocks(tets), 9);
  }

  /** After setup on a fresh solver the position buffer holds 4T entries for T
      tetrahedra, so advanceSystem's copy loops stay inside it for P particles
      exactly when 3P <= 4T. Setup does not check this. */
  lemma FreshSetupRoom(tets: seq<Tetrahedron>, ps: seq<Particle>)
    requires forall t :: 0 <= t < |tets| ==> WellFormed(tets[t], |ps|)
    ensures 3 * |ps| <= |Resized([], |Concat(MassBlocks(tets, ps))|)| <==> 3 * |ps| <= 4 * |tets|
  {
    FreshSetupLengths(tets, ps);
  }

  /** Copying the positions in: entry 3i+j of the buffer is coordinate j of particle
      i's position; the rest of the buffer is left as it was. */
  function CopyIn(buffer: seq<real>, ps: seq<Particle>): (r: seq<real>)
    requires 3 * |ps| <= |buffer|
    ensures |r| == |buffer|
  {
    seq(|buffer|, k requires 0 <= k < |buffer| => if k < 3 * |ps| then Get(ps[k / 3].position, k % 3) else buffer[k])
  }

  /** Copying the positions back: particle i's position is entries 3i..3i+2. */
  function CopyBack(ps: seq<Particle>, buffer: seq<real>): (r: seq<Particle>)
    requires 3 * |ps| <= |buffer|
    ensures |r| == |ps|
  {
    seq(|ps|, i requires 0 <= i < |ps| => ps[i].(position := Vec3(buffer[3 * i], buffer[3 * i + 1], buffer[3 * i + 2])))
  }

  /** Copying back changes nothing but positions. */
  lemma CopyBackMovesPositionsOnly(ps: seq<Particle>, buffer: seq<real>)
    requires 3 * |ps| <= |buffer|
    ensures OnlyPositionsDiffer(ps, CopyBack(ps, buffer))
    ensures forall i :: 0 <= i < |ps| ==>
      CopyBack(ps, buffer)[i].position == Vec3(buffer[3 * i], buffer[3 * i + 1], buffer[3 * i + 2])
  {
  }

  /** If the device leaves the buffer alone, the particles come back unchanged. */
  lemma CopyRoundTrip(buffer: seq<real>, ps: seq<Particle>)
    requires 3 * |ps| <= |buffer|
    ensures CopyBack(ps, CopyIn(buffer, ps)) == ps
  {
    var b := CopyIn(buffer, ps);
    forall i | 0 <= i < |ps|
      ensures CopyBack(ps, b)[i] == ps[i]
    {
      CopyInAt(buffer, ps, i);
      var p := ps[i];
      assert Vec3(b[3 * i], b[3 * i + 1], b[3 * i + 2]) == p.position;
    }
    assert CopyBack(ps, b) == ps;
  }

  /** Particle i's coordinates sit at 3i, 3i+1 and 3i+2 of the copied-in buffer. */
  lemma CopyInAt(buffer: seq<real>, ps: seq<Particle>, i: int)
    requires 3 * |ps| <= |buffer| && 0 <= i < |ps|
    ensures CopyIn(buffer, ps)[3 * i] == ps[i].position.x
    ensures CopyIn(buffer, ps)[3 * i + 1] == ps[i].position.y
    ensures CopyIn(buffer, ps)[3 * i + 2] == ps[i].position.z
  {
    assert (3 * i) / 3 == i && (3 * i) % 3 == 0;
    assert (3 * i + 1) / 3 == i && (3 * i + 1) % 3 == 1;
    assert (3 * i + 2) / 3 == i && (3 * i + 2) % 3 == 2;
  }

  /** Copying the buffer out and then in again gives the buffer back. */
  lemma CopyBackRoundTrip(buffer: seq<real>, ps: seq<Particle>)
    requires 3 * |ps| <= |buffer|
    ensures CopyIn(buffer, CopyBack(ps, buffer)) == buffer
  {
    var q := CopyBack(ps, buffer);
    var b := CopyIn(buffer, q);
    forall k | 0 <= k < |buffer|
      ensures b[k] == buffer[k]
    {
      if k < 3 * |ps| {
        var i := k / 3;
        assert k == 3 * i + k % 3;
      }
    }
  }

  /** The first line of the not-set-up error on the error stream. */
  function ErrorLine(message: string): string {
    "GPUPBD Solver Error: " + message
  }

  const NotSetUp: string := "Cannot advance system, setup() must be called first!"

  /** What the device kernel is handed: the flattened buffers and the settings. */
  datatype DeviceInput = DeviceInput(
    indices: seq<int>,
    positions: seq<real>,
    inverseMasses: seq<real>,
    referenceShapeMatrices: seq<real>,
    undeformedVolumes: seq<real>,
    timeStep: real,
    gravity: real,
    mu: real,
    lambda: real,
    numBlocks: int,
    numThreadsPerBlock: int,
    trueNumberOfConstraints: int)

  /** CUDA_projectConstraints, as the value it leaves at each position entry. */
  type DeviceKernel = (DeviceInput, int) -> real

  /** The position buffer after the device call: the kernel rewrites the buffer in
      place, so its length does not change. */
  function DeviceRun(device: DeviceKernel, input: DeviceInput): (r: seq<real>)
    ensures |r| == |input.positions|
  {
    seq(|input.positions|, k requires 0 <= k < |input.positions| => device(input, k))
  }

  /** The GPU solver's Parameters as the host side uses them. */
  class Parameters {
    var timeStep: real
    var gravity: real
    var mu: real
    var lambda: real
    var numBlocks: int
    var numThreadsPerBlock: int
    var trueNumberOfConstraints: int

    constructor(timeStep: real, gravity: real, mu: real, lambda: real)
      ensures this.timeStep == timeStep && this.gravity == gravity && this.mu == mu && this.lambda == lambda
      ensures numBlocks == 0 && numThreadsPerBlock == 0 && trueNumberOfConstraints == 0
    {
      this.timeStep := timeStep;
      this.gravity := gravity;
      this.mu := mu;
      this.lambda := lambda;
      numBlocks := 0;
      numThreadsPerBlock := 0;
      trueNumberOfConstraints := 0;
    }
  }

  /** PBDGPU_Solver and its device-ready buffers. */
  class GpuSolver {
    var isSetup: bool
    var inverseMasses: seq<real>
    var indices: seq<int>
    var undeformedVolumes: seq<real>
    var referenceShapeMatrices: seq<real>
    var positions: seq<real>

    constructor()
      ensures !isSetup
      ensures inverseMasses == [] && indices == [] && undeformedVolumes == [] &&
        referenceShapeMatrices == [] && positions == []
    {
      isSetup := false;
      inverseMasses := [];
      indices := [];
      undeformedVolumes := [];
      referenceShapeMatrices := [];
      positions := [];
    }

    /** The inner loop of setup's step 1: one tetrahedron's four inverse masses. */
    method PushSlotMasses(tet: Tetrahedron, particles: array<Particle>)
      requires WellFormed(tet, particles.Length)
      modifies this
      ensures inverseMasses == old(inverseMasses) + SlotMasses(tet, particles[..])
      ensures isSetup == old(isSetup) && indices == old(indices) && undeformedVolumes == old(undeformedVolumes)
      ensures referenceShapeMatrices == old(referenceShapeMatrices) && positions == old(positions)
    {
      ghost var block := SlotMasses(tet, particles[..]);
      var j := 0;
      while j < 4
        invariant 0 <= j <= 4 && inverseMasses == old(inverseMasses) + block[..j]
        invariant isSetup == old(isSetup) && indices == old(indices) && undeformedVolumes == old(undeformedVolumes)
        invariant referenceShapeMatrices == old(referenceShapeMatrices) && positions == old(positions)
      {
        inverseMasses := inverseMasses + [particles[tet.vertexIndices[j]].inverseMass];
        assert block[..j + 1] == block[..j] + [block[j]];
        j := j + 1;
      }
      assert block[..4] == block;
    }

    /** The inner loop of setup's step 2: one tetrahedron's four particle indices. */
    method PushSlotIndices(tet: Tetrahedron)
      requires |tet.vertexIndices| == 4
      modifies this
      ensures indices == old(indices) + tet.vertexIndices
      ensures isSetup == old(isSetup) && inverseMasses == old(inverseMasses) && undeformedVolumes == old(undeformedVolumes)
      ensures referenceShapeMatrices == old(referenceShapeMatrices) && positions == old(positions)
    {
      var j := 0;
      while j < 4
        invariant 0 <= j <= 4 && indices == old(indices) + tet.vertexIndices[..j]
        invariant isSetup == old(isSetup) && inverseMasses == old(inverseMasses) && undeformedVolumes == old(undeformedVolumes)
        invariant referenceShapeMatrices == old(referenceShapeMatrices) && positions == old(positions)
      {
        indices := indices + [tet.vertexIndices[j]];
        assert tet.vertexIndices[..j + 1] == tet.vertexIndices[..j] + [tet.vertexIndices[j]];
        j := j + 1;
      }
      assert tet.vertexIndices[..4] == tet.vertexIndices;
    }

    /** The row and column loops of setup's step 4: the nine entries of temp, the
        transpose of m, row by row. */
    method PushTransposed(m: Mat3, temp: Mat3)
      requires temp == Transpose(m)
      modifies this
      ensures referenceShapeMatrices == old(referenceShapeMatrices) + ShapeEntries(m)
      ensures isSetup == old(isSetup) && inverseMasses == old(inverseMasses) && indices == old(indices)
      ensures undeformedVolumes == old(undeformedVolumes) && positions == old(positions)
    {
      ghost var block := ShapeEntries(m);
      var row := 0;
      while row < 3
        invariant 0 <= row <= 3 && referenceShapeMatrices == old(referenceShapeMatrices) + block[..3 * row]
        invariant isSetup == old(isSetup) && inverseMasses == old(inverseMasses) && indices == old(indices)
        invariant undeformedVolumes == old(undeformedVolumes) && positions == old(positions)
      {
        var col := 0;
        while col < 3
          invariant 0 <= col <= 3 && referenceShapeMatrices == old(referenceShapeMatrices) + block[..3 * row + col]
          invariant isSetup == old(isSetup) && inverseMasses == old(inverseMasses) && indices == old(indices)
          invariant undeformedVolumes == old(undeformedVolumes) && positions == old(positions)
        {
          referenceShapeMatrices := referenceShapeMatrices + [At(temp, row, col)];
          ShapeEntryAt(m, row, col);
          assert block[..3 * row + col + 1] == block[..3 * row + col] + [block[3 * row + col]];
          col := col + 1;
        }
        row := row + 1;
      }
      assert block[..9] == block;
    }

    /** Setup's step 1: push the inverse mass of each slot's particle. */
    method AppendInverseMasses(tetrahedra: seq<Tetrahedron>, particles: array<Particle>)
      requires forall t :: 0 <= t < |tetrahedra| ==> WellFormed(tetrahedra[t], particles.Length)
      modifies this
      ensures inverseMasses == old(inverseMasses) + Concat(MassBlocks(tetrahedra, particles[..]))
      ensures isSetup == old(isSetup) && indices == old(indices) && undeformedVolumes == old(undeformedVolumes)
      ensures referenceShapeMatrices == old(referenceShapeMatrices) && positions == old(positions)
    {
      ghost var blocks := MassBlocks(tetrahedra, particles[..]);
      var i := 0;
      while i < |tetrahedra|
        invariant 0 <= i <= |tetrahedra|
        invariant inverseMasses == old(inverseMasses) + Concat(blocks[..i])
        invariant isSetup == old(isSetup) && indices == old(indices) && undeformedVolumes == old(undeformedVolumes)
        invariant referenceShapeMatrices == old(referenceShapeMatrices) && positions == old(positions)
      {
        PushSlotMasses(tetrahedra[i], particles);
        ConcatPrefixSnoc(blocks, i);
        i := i + 1;
      }
      assert blocks[..i] == blocks;
    }

    /** Setup's step 2: push each slot's particle index. */
    method AppendIndices(tetrahedra: seq<Tetrahedron>)
      requires forall t :: 0 <= t < |tetrahedra| ==> |tetrahedra[t].vertexIndices| == 4
      modifies this
      ensures indices == old(indices) + Concat(IndexBlocks(tetrahedra))
      ensures isSetup == old(isSetup) && inverseMasses == old(inverseMasses) && undeformedVolumes == old(undeformedVolumes)
      ensures referenceShapeMatrices == old(referenceShapeMatrices) && positions == old(positions)
    {
      ghost var blocks := IndexBlocks(tetrahedra);
      var i := 0;
      while i < |tetrahedra|
        invariant 0 <= i <= |tetrahedra|
        invariant indices == old(indices) + Concat(blocks[..i])
        invariant isSetup == old(isSetup) && inverseMasses == old(inverseMasses) && undeformedVolumes == old(undeformedVolumes)
        invariant referenceShapeMatrices == old(referenceShapeMatrices) && positions == old(positions)
      {
        PushSlotIndices(tetrahedra[i]);
        ConcatPrefixSnoc(blocks, i);
        i := i + 1;
      }
      assert blocks[..i] == blocks;
    }

    /** Setup's step 3: push each undeformed volume. */
    method AppendVolumes(tetrahedra: seq<Tetrahedron>)
      modifies this
      ensures undeformedVolumes == old(undeformedVolumes) + Volumes(tetrahedra)
      ensures isSetup == old(isSetup) && inverseMasses == old(inverseMasses) && indices == old(indices)
      ensures referenceShapeMatrices == old(referenceShapeMatrices) && positions == old(positions)
    {
      ghost var volumes := Volumes(tetrahedra);
      var i := 0;
      while i < |tetrahedra|
        invariant 0 <= i <= |tetrahedra|
        invariant undeformedVolumes == old(undeformedVolumes) + volumes[..i]
        invariant isSetup == old(isSetup) && inverseMasses == old(inverseMasses) && indices == old(indices)
        invariant referenceShapeMatrices == old(referenceShapeMatrices) && positions == old(positions)
      {
        undeformedVolumes := undeformedVolumes + [tetrahedra[i].undeformedVolume];
        assert volumes[..i + 1] == volumes[..i] + [volumes[i]];
        i := i + 1;
      }
      assert volumes[..i] == volumes;
    }

    /** Setup's step 4: push each transposed reference matrix row by row. */
    method AppendReferenceShapes(tetrahedra: seq<Tetrahedron>)
      modifies this
      ensures referenceShapeMatrices == old(referenceShapeMatrices) + Concat(ShapeBlocks(tetrahedra))
      ensures isSetup == old(isSetup) && inverseMasses == old(inverseMasses) && indices == old(indices)
      ensures undeformedVolumes == old(undeformedVolumes) && positions == old(positions)
    {
      ghost var blocks := ShapeBlocks(tetrahedra);
      var i := 0;
      while i < |tetrahedra|
        invariant 0 <= i <= |tetrahedra|
        invariant referenceShapeMatrices == old(referenceShapeMatrices) + Concat(blocks[..i])
        invariant isSetup == old(isSetup) && inverseMasses == old(inverseMasses) && indices == old(indices)
        invariant undeformedVolumes == old(undeformedVolumes) && positions == old(positions)
      {
        var temp := Transpose(tetrahedra[i].referenceShapeMatrixInverseTranspose);
        PushTransposed(tetrahedra[i].referenceShapeMatrixInverseTranspose, temp);
        ConcatPrefixSnoc(blocks, i);
        i := i + 1;
      }
      assert blocks[..i] == blocks;
    }

    /** setup: launch geometry for the tetrahedron count, the four buffers appended
        to (a second call grows them again), positions resized to the length of the
        inverse-mass buffer, and the solver marked set up. */
    method Setup(tetrahedra: seq<Tetrahedron>, particles: array<Particle>, globals: LaunchGlobals)
      requires forall t :: 0 <= t < |tetrahedra| ==> WellFormed(tetrahedra[t], particles.Length)
      modifies this, globals
      ensures globals.trueNumConstraints == |tetrahedra| && globals.numThreadsPerBlock == ThreadsPerBlock
      ensures globals.numBlocks == |tetrahedra| / ThreadsPerBlock + 1 && globals.numParticles == PaddedCount(|tetrahedra|)
      ensures inverseMasses == old(inverseMasses) + Concat(MassBlocks(tetrahedra, particles[..]))
      ensures indices == old(indices) + Concat(IndexBlocks(tetrahedra))
      ensures undeformedVolumes == old(undeformedVolumes) + Volumes(tetrahedra)
      ensures referenceShapeMatrices == old(referenceShapeMatrices) + Concat(ShapeBlocks(tetrahedra))
      ensures positions == Resized(old(positions), |inverseMasses|)
      ensures isSetup
    {
      globals.DetermineLaunchParameters(|tetrahedra|);
      AppendInverseMasses(tetrahedra, particles);
      AppendIndices(tetrahedra);
      AppendVolumes(tetrahedra);
      AppendReferenceShapes(tetrahedra);
      positions := Resized(positions, |inverseMasses|);
      isSetup := true;
    }

    /** advanceSystem's step 1: copy every particle's position into the buffer. */
    method CopyPositionsIn(particles: array<Particle>)
      requires 3 * particles.Length <= |positions|
      modifies this
      ensures positions == CopyIn(old(positions), particles[..])
      ensures isSetup == old(isSetup) && inverseMasses == old(inverseMasses) && indices == old(indices)
      ensures undeformedVolumes == old(undeformedVolumes) && referenceShapeMatrices == old(referenceShapeMatrices)
    {
      var i := 0;
      while i < particles.Length
        invariant 0 <= i <= particles.Length && |positions| == |old(positions)|
        invariant forall k :: 0 <= k < |positions| ==>
          positions[k] == (if k < 3 * i then Get(particles[k / 3].position, k % 3) else old(positions)[k])
        invariant isSetup == old(isSetup) && inverseMasses == old(inverseMasses) && indices == old(indices)
        invariant undeformedVolumes == old(undeformedVolumes) && referenceShapeMatrices == old(referenceShapeMatrices)
      {
        var j := 0;
        while j < 3
          invariant 0 <= j <= 3 && |positions| == |old(positions)|
          invariant forall k :: 0 <= k < |positions| ==>
            positions[k] == (if k < 3 * i + j then Get(particles[k / 3].position, k % 3) else old(positions)[k])
          invariant isSetup == old(isSetup) && inverseMasses == old(inverseMasses) && indices == old(indices)
          invariant undeformedVolumes == old(undeformedVolumes) && referenceShapeMatrices == old(referenceShapeMatrices)
        {
          assert (i * 3 + j) / 3 == i && (i * 3 + j) % 3 == j;
          positions := positions[i * 3 + j := Get(particles[i].position, j)];
          j := j + 1;
        }
        i := i + 1;
      }
      assert positions == CopyIn(old(positions), particles[..]);
    }

    /** advanceSystem's step 4: copy the buffer back into the particles' positions,
        coordinate by coordinate. */
    method CopyPositionsOut(particles: array<Particle>)
      requires 3 * particles.Length <= |positions|
      modifies particles
      ensures particles[..] == CopyBack(old(particles[..]), positions)
    {
      var i := 0;
      while i < particles.Length
        invariant 0 <= i <= particles.Length
        invariant forall k :: 0 <= k < particles.Length ==>
          particles[k] == (if k < i then CopyBack(old(particles[..]), positions)[k] else old(particles[k]))
      {
        var j := 0;
        while j < 3
          invariant 0 <= j <= 3
          invariant SameButPosition(particles[i], old(particles[i]))
          invariant forall c: Index3 ::
            Get(particles[i].position, c) == (if c < j then positions[i * 3 + c] else Get(old(particles[i]).position, c))
          invariant forall k :: 0 <= k < particles.Length && k != i ==>
            particles[k] == (if k < i then CopyBack(old(particles[..]), positions)[k] else old(particles[k]))
        {
          var p := particles[i];
          particles[i] := p.(position := Set(p.position, j, positions[i * 3 + j]));
          j := j + 1;
        }
        var p := particles[i];
        assert Get(p.position, 0) == positions[i * 3] && Get(p.position, 1) == positions[i * 3 + 1] && Get(p.position, 2) == positions[i * 3 + 2];
        assert p == CopyBack(old(particles[..]), positions)[i];
        i := i + 1;
      }
      assert particles[..] == CopyBack(old(particles[..]), positions);
    }

    /** advanceSystem: integrate on the host, hand the positions to the device, take
        them back and finish the frame. Without setup the error line is written and
        the frame runs all the same. */
    method AdvanceSystem(particles: array<Particle>, settings: Parameters, globals: LaunchGlobals, device: DeviceKernel)
      returns (errors: seq<string>)
      requires settings.timeStep != 0.0
      requires 3 * particles.Length <= |positions|
      modifies this, particles, settings
      ensures errors == if old(isSetup) then [] else [ErrorLine(NotSetUp)]
      ensures settings.numBlocks == globals.numBlocks && settings.numThreadsPerBlock == globals.numThreadsPerBlock
      ensures settings.trueNumberOfConstraints == globals.trueNumConstraints
      ensures settings.timeStep == old(settings.timeStep) && settings.gravity == old(settings.gravity)
      ensures settings.mu == old(settings.mu) && settings.lambda == old(settings.lambda)
      ensures isSetup == old(isSetup) && inverseMasses == old(inverseMasses) && indices == old(indices)
      ensures undeformedVolumes == old(undeformedVolumes) && referenceShapeMatrices == old(referenceShapeMatrices)
      ensures var predicted := PredictAll(AdvanceAll(old(particles[..]), settings.timeStep, settings.gravity), settings.timeStep);
        var input := DeviceInput(indices, CopyIn(old(positions), predicted), inverseMasses, referenceShapeMatrices,
                                 undeformedVolumes, settings.timeStep, settings.gravity, settings.mu, settings.lambda,
                                 globals.numBlocks, globals.numThreadsPerBlock, globals.trueNumConstraints);
        positions == DeviceRun(device, input) &&
        particles[..] == SwapAll(ReconstructAll(CopyBack(predicted, positions), settings.timeStep))
    {
      errors := [];
      if !isSetup {
        errors := [ErrorLine(NotSetUp)];
      }
      AdvanceVelocities(particles, settings.timeStep, settings.gravity);
      AdvancePositions(particles, settings.timeStep);
      ghost var predicted := particles[..];
      CopyPositionsIn(particles);
      settings.numBlocks := globals.numBlocks;
      settings.numThreadsPerBlock := globals.numThreadsPerBlock;
      settings.trueNumberOfConstraints := globals.trueNumConstraints;
      positions := DeviceRun(device, DeviceInput(indices, positions, inverseMasses, referenceShapeMatrices,
                                                 undeformedVolumes, settings.timeStep, settings.gravity,
                                                 settings.mu, settings.lambda, settings.numBlocks,
                                                 settings.numThreadsPerBlock, settings.trueNumberOfConstraints));
      CopyPositionsOut(particles);
      UpdateVelocities(particles, settings.timeStep);
      SwapStates(particles);
    }
  }
}
