/** Small fixed-size linear algebra over the reals: the 3-vectors and 3x3 matrices
    the solver takes from Eigen (Vector3f, Matrix3f). Matrices are stored by column,
    as Eigen stores them. */
module LinearAlgebra {

  type Index3 = i: int | 0 <= i < 3

  datatype Vec3 = Vec3(x: real, y: real, z: real)

  /** A 3x3 matrix given by its three columns. */
  datatype Mat3 = Mat3(c0: Vec3, c1: Vec3, c2: Vec3)

  const Zero: Vec3 := Vec3(0.0, 0.0, 0.0)

  const Identity: Mat3 := Mat3(Vec3(1.0, 0.0, 0.0), Vec3(0.0, 1.0, 0.0), Vec3(0.0, 0.0, 1.0))

  const ZeroMatrix: Mat3 := Mat3(Zero, Zero, Zero)

  /** v[i] */
  function Get(v: Vec3, i: Index3): real {
    if i == 0 then v.x else if i == 1 then v.y else v.z
  }

  /** v with v[i] replaced by a */
  function Set(v: Vec3, i: Index3, a: real): (r: Vec3)
    ensures Get(r, i) == a
    ensures forall j: Index3 :: j != i ==> Get(r, j) == Get(v, j)
  {
    if i == 0 then v.(x := a) else if i == 1 then v.(y := a) else v.(z := a)
  }

  function Add(a: Vec3, b: Vec3): Vec3 {
    Vec3(a.x + b.x, a.y + b.y, a.z + b.z)
  }

  function Sub(a: Vec3, b: Vec3): Vec3 {
    Vec3(a.x - b.x, a.y - b.y, a.z - b.z)
  }

  function Neg(a: Vec3): Vec3 {
    Vec3(-a.x, -a.y, -a.z)
  }

  function Scale(k: real, a: Vec3): Vec3 {
    Vec3(k * a.x, k * a.y, k * a.z)
  }

  /** squaredNorm() */
  function SquaredNorm(a: Vec3): (r: real)
    ensures r >= 0.0
  {
    SquareNonnegative(a.x);
    SquareNonnegative(a.y);
    SquareNonnegative(a.z);
    a.x * a.x + a.y * a.y + a.z * a.z
  }

  lemma SquareNonnegative(a: real)
    ensures a * a >= 0.0
  {
  }

  /** Column c of m. */
  function Col(m: Mat3, c: Index3): Vec3 {
    if c == 0 then m.c0 else if c == 1 then m.c1 else m.c2
  }

  /** m(r, c) */
  function At(m: Mat3, r: Index3, c: Index3): real {
    Get(Col(m, c), r)
  }

  function Transpose(m: Mat3): (t: Mat3)
    ensures forall r: Index3, c: Index3 :: At(t, r, c) == At(m, c, r)
  {
    Mat3(Vec3(m.c0.x, m.c1.x, m.c2.x),
         Vec3(m.c0.y, m.c1.y, m.c2.y),
         Vec3(m.c0.z, m.c1.z, m.c2.z))
  }

  /** m * v */
  function MulVec(m: Mat3, v: Vec3): Vec3 {
    Add(Add(Scale(v.x, m.c0), Scale(v.y, m.c1)), Scale(v.z, m.c2))
  }

  /** a * b */
  function Mul(a: Mat3, b: Mat3): Mat3 {
    Mat3(MulVec(a, b.c0), MulVec(a, b.c1), MulVec(a, b.c2))
  }

  /** k * m */
  function ScaleMatrix(k: real, m: Mat3): Mat3 {
    Mat3(Scale(k, m.c0), Scale(k, m.c1), Scale(k, m.c2))
  }

  /** The diagonal matrix with d on its diagonal. */
  function Diagonal(d: Vec3): Mat3 {
    Mat3(Vec3(d.x, 0.0, 0.0), Vec3(0.0, d.y, 0.0), Vec3(0.0, 0.0, d.z))
  }

  /** m with column c multiplied by -1. */
  function NegateColumn(m: Mat3, c: Index3): (r: Mat3)
    ensures Col(r, c) == Neg(Col(m, c))
    ensures forall k: Index3 :: k != c ==> Col(r, k) == Col(m, k)
  {
    if c == 0 then m.(c0 := Neg(m.c0)) else if c == 1 then m.(c1 := Neg(m.c1)) else m.(c2 := Neg(m.c2))
  }

  /** rowwise().sum(): the vector of row sums, i.e. the sum of the columns. */
  function RowSums(m: Mat3): (r: Vec3)
    ensures forall i: Index3 :: Get(r, i) == At(m, i, 0) + At(m, i, 1) + At(m, i, 2)
  {
    Add(Add(m.c0, m.c1), m.c2)
  }

  /** determinant(), by cofactor expansion along the first row; entry (r, c) is
      component r of column c. */
  function Det(m: Mat3): real {
    m.c0.x * (m.c1.y * m.c2.z - m.c2.y * m.c1.z)
    - m.c1.x * (m.c0.y * m.c2.z - m.c2.y * m.c0.z)
    + m.c2.x * (m.c0.y * m.c1.z - m.c1.y * m.c0.z)
  }

  /** a . b */
  function Dot(a: Vec3, b: Vec3): real {
    a.x * b.x + a.y * b.y + a.z * b.z
  }

  /** trace() */
  function MatrixTrace(m: Mat3): real {
    m.c0.x + m.c1.y + m.c2.z
  }

  /** The sum of the squares of all entries (squared Frobenius norm), accumulated
      entry by entry in row-major order. */
  function FrobeniusSquared(m: Mat3): (r: real)
    ensures r >= 0.0
  {
    SquaredEntriesFrom(m, 0)
  }

  /** The sum of m(k / 3, k % 3)^2 over the row-major positions k, k+1, ..., 8. */
  function SquaredEntriesFrom(m: Mat3, k: nat): (r: real)
    requires k <= 9
    ensures r >= 0.0
    decreases 9 - k
  {
    if k == 9 then 0.0
    else
      var a := At(m, k / 3, k % 3);
      SquareNonnegative(a);
      a * a + SquaredEntriesFrom(m, k + 1)
  }
}
