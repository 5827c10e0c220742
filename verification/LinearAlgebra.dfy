/** Real vectors and square matrices, as far as the LinUCB kernel needs them.
    A matrix is used through its action `MatVec`; equality of actions is turned back
    into equality of entries by `ActionDeterminesMatrix`. */
module LinearAlgebra {

  type Vec = seq<real>
  type Mat = seq<Vec>

  predicate Square(A: Mat, d: nat) {
    |A| == d && forall i :: 0 <= i < d ==> |A[i]| == d
  }

  /** Multiplication under a name: products that meet under a quantifier, inside a
      comprehension or next to a sum are then matched as terms. */
  function Times(a: real, b: real): real {
    a * b
  }

  function Dot(x: Vec, y: Vec): real
    requires |x| == |y|
  {
    if x == [] then 0.0 else Times(x[0], y[0]) + Dot(x[1..], y[1..])
  }

  function Zero(d: nat): Vec {
    seq(d, _ => 0.0)
  }

  function Unit(d: nat, k: nat): Vec {
    seq(d, i => if i == k then 1.0 else 0.0)
  }

  /** y + a*x */
  function Axpy(a: real, x: Vec, y: Vec): (r: Vec)
    requires |x| == |y|
    ensures |r| == |y|
  {
    seq(|y|, i requires 0 <= i < |y| => y[i] + Times(a, x[i]))
  }

  function MatVec(A: Mat, x: Vec): Vec
    requires Square(A, |x|)
  {
    seq(|A|, i requires 0 <= i < |A| => Dot(A[i], x))
  }

  /** A + a*(u uᵀ) */
  function AddOuter(A: Mat, a: real, u: Vec): (B: Mat)
    requires Square(A, |u|)
    ensures Square(B, |u|)
  {
    seq(|A|, i requires 0 <= i < |A| => Axpy(Times(a, u[i]), u, A[i]))
  }

  /** s*I */
  function ScaledIdentity(d: nat, s: real): (A: Mat)
    ensures Square(A, d)
  {
    seq(d, i => seq(d, k => if i == k then s else 0.0))
  }

  function Column(A: Mat, k: nat): Vec
    requires Square(A, |A|) && k < |A|
  {
    seq(|A|, i requires 0 <= i < |A| => A[i][k])
  }

  function MatMul(A: Mat, B: Mat): Mat
    requires Square(A, |B|) && Square(B, |B|)
  {
    seq(|A|, i requires 0 <= i < |A| => seq(|B|, k requires 0 <= k < |B| => Dot(A[i], Column(B, k))))
  }

  // ---------------------------------------------------------------- dot product

  lemma {:induction false} DotComm(x: Vec, y: Vec)
    requires |x| == |y|
    ensures Dot(x, y) == Dot(y, x)
  {
    if x != [] {
      DotComm(x[1..], y[1..]);
    }
  }

  lemma ScaledSum(z: real, a: real, x: real, y: real, dx: real, dy: real)
    ensures Times(z, y + Times(a, x)) + (dy + Times(a, dx)) == (Times(z, y) + dy) + Times(a, Times(z, x) + dx)
    ensures Times(y + Times(a, x), z) + (dy + Times(a, dx)) == (Times(y, z) + dy) + Times(a, Times(x, z) + dx)
  {
  }

  lemma {:induction false} AxpyTail(a: real, x: Vec, y: Vec)
    requires |x| == |y| > 0
    ensures Axpy(a, x, y)[1..] == Axpy(a, x[1..], y[1..])
  {
    forall i | 0 <= i < |x| - 1 ensures Axpy(a, x, y)[1..][i] == Axpy(a, x[1..], y[1..])[i] {
      assert x[1..][i] == x[i + 1] && y[1..][i] == y[i + 1];
    }
  }

  lemma {:induction false} DotAxpy(z: Vec, a: real, x: Vec, y: Vec)
    requires |x| == |y| == |z|
    ensures Dot(z, Axpy(a, x, y)) == Dot(z, y) + Times(a, Dot(z, x))
    ensures Dot(Axpy(a, x, y), z) == Dot(y, z) + Times(a, Dot(x, z))
  {
    if z != [] {
      AxpyTail(a, x, y);
      DotAxpy(z[1..], a, x[1..], y[1..]);
      ScaledSum(z[0], a, x[0], y[0], Dot(z[1..], x[1..]), Dot(z[1..], y[1..]));
      ScaledSum(z[0], a, x[0], y[0], Dot(x[1..], z[1..]), Dot(y[1..], z[1..]));
    }
  }

  lemma {:induction false} DotZero(z: Vec)
    ensures Dot(z, Zero(|z|)) == 0.0
    ensures Dot(Zero(|z|), z) == 0.0
  {
    if z != [] {
      assert Zero(|z|)[1..] == Zero(|z[1..]|);
      DotZero(z[1..]);
    }
  }

  lemma {:induction false} DotUnit(x: Vec, k: nat)
    requires k < |x|
    ensures Dot(x, Unit(|x|, k)) == x[k]
  {
    if k == 0 {
      assert Unit(|x|, k)[1..] == Zero(|x[1..]|);
      DotZero(x[1..]);
    } else {
      assert Unit(|x|, k)[1..] == Unit(|x[1..]|, k - 1);
      DotUnit(x[1..], k - 1);
    }
  }

  lemma SquareNonnegative(a: real)
    ensures Times(a, a) >= 0.0
  {
    if a < 0.0 {
      assert a * a == (-a) * (-a);
    }
  }

  lemma ProductPositive(a: real, b: real)
    requires a > 0.0 && b > 0.0
    ensures Times(a, b) > 0.0
  {
  }

  lemma SquarePositive(a: real)
    requires a != 0.0
    ensures Times(a, a) > 0.0
  {
    if a > 0.0 {
      ProductPositive(a, a);
    } else {
      ProductPositive(-a, -a);
      assert Times(-a, -a) == Times(a, a);
    }
  }

  lemma {:induction false} NormNonnegative(x: Vec)
    ensures Dot(x, x) >= 0.0
  {
    if x != [] {
      NormNonnegative(x[1..]);
      SquareNonnegative(x[0]);
    }
  }

  lemma {:induction false} NormPositive(x: Vec)
    requires x != Zero(|x|)
    ensures Dot(x, x) > 0.0
  {
    var tail := x[1..];
    if x[0] == 0.0 {
      assert tail != Zero(|tail|) by {
        assert x == [0.0] + tail;
        assert Zero(|x|) == [0.0] + Zero(|tail|);
      }
      NormPositive(tail);
    } else {
      NormNonnegative(tail);
      SquarePositive(x[0]);
    }
  }

  // ---------------------------------------------------------------- matrix action

  lemma {:induction false} MatVecAxpy(A: Mat, a: real, x: Vec, y: Vec)
    requires |x| == |y| && Square(A, |x|)
    ensures MatVec(A, Axpy(a, x, y)) == Axpy(a, MatVec(A, x), MatVec(A, y))
  {
    forall i | 0 <= i < |A| ensures MatVec(A, Axpy(a, x, y))[i] == Axpy(a, MatVec(A, x), MatVec(A, y))[i] {
      DotAxpy(A[i], a, x, y);
    }
  }

  lemma {:induction false} OuterRow(row: Vec, a: real, t: real, u: Vec, x: Vec)
    requires |row| == |u| == |x|
    ensures Dot(Axpy(Times(a, t), u, row), x) == Dot(row, x) + Times(Times(a, Dot(u, x)), t)
  {
    DotAxpy(x, Times(a, t), u, row);
  }

  lemma {:induction false} MatVecOuter(A: Mat, a: real, u: Vec, x: Vec)
    requires |x| == |u| && Square(A, |u|)
    ensures MatVec(AddOuter(A, a, u), x) == Axpy(Times(a, Dot(u, x)), u, MatVec(A, x))
  {
    forall i | 0 <= i < |A|
      ensures MatVec(AddOuter(A, a, u), x)[i] == Axpy(Times(a, Dot(u, x)), u, MatVec(A, x))[i]
    {
      OuterRow(A[i], a, u[i], u, x);
    }
  }

  lemma {:induction false} IdentityRow(d: nat, s: real, i: nat)
    requires i < d
    ensures ScaledIdentity(d, s)[i] == Axpy(s, Unit(d, i), Zero(d))
  {
    forall k | 0 <= k < d ensures ScaledIdentity(d, s)[i][k] == Axpy(s, Unit(d, i), Zero(d))[k] {
      assert Unit(d, i)[k] == if k == i then 1.0 else 0.0;
    }
  }

  lemma {:induction false} MatVecIdentity(d: nat, s: real, x: Vec)
    requires |x| == d
    ensures MatVec(ScaledIdentity(d, s), x) == Axpy(s, x, Zero(d))
  {
    forall i | 0 <= i < d ensures MatVec(ScaledIdentity(d, s), x)[i] == Axpy(s, x, Zero(d))[i] {
      IdentityRow(d, s, i);
      DotAxpy(x, s, Unit(d, i), Zero(d));
      DotZero(x);
      DotUnit(x, i);
      DotComm(x, Unit(d, i));
      assert MatVec(ScaledIdentity(d, s), x)[i] == Dot(Axpy(s, Unit(d, i), Zero(d)), x);
    }

  }

  lemma {:induction false} MatVecZero(A: Mat)
    requires Square(A, |A|)
    ensures MatVec(A, Zero(|A|)) == Zero(|A|)
  {
    forall i | 0 <= i < |A| ensures MatVec(A, Zero(|A|))[i] == 0.0 {
      DotZero(A[i]);
    }
  }

  lemma {:induction false} MatVecUnit(A: Mat, k: nat)
    requires Square(A, |A|) && k < |A|
    ensures MatVec(A, Unit(|A|, k)) == Column(A, k)
  {
    forall i | 0 <= i < |A| ensures MatVec(A, Unit(|A|, k))[i] == A[i][k] {
      DotUnit(A[i], k);
    }
  }

  /** A matrix is determined by what it does to vectors. */
  lemma {:induction false} ActionDeterminesMatrix(A: Mat, B: Mat)
    requires Square(A, |A|) && Square(B, |A|)
    requires forall x: Vec :: |x| == |A| ==> MatVec(A, x) == MatVec(B, x)
    ensures A == B
  {
    forall i | 0 <= i < |A| ensures A[i] == B[i] {
      forall k | 0 <= k < |A| ensures A[i][k] == B[i][k] {
        MatVecUnit(A, k);
        MatVecUnit(B, k);
        assert Column(A, k)[i] == Column(B, k)[i];
      }
    }
  }

  // ---------------------------------------------------------------- definiteness and inverses

  ghost predicate SelfAdjoint(A: Mat, d: nat)
    requires Square(A, d)
  {
    forall x: Vec, y: Vec {:trigger MatVec(A, x), MatVec(A, y)} ::
      |x| == d && |y| == d ==> Dot(x, MatVec(A, y)) == Dot(y, MatVec(A, x))
  }

  /** The quadratic form xᵀ A x. */
  function Quad(A: Mat, x: Vec): real
    requires Square(A, |x|)
  {
    Dot(x, MatVec(A, x))
  }

  ghost predicate PositiveDefinite(A: Mat, d: nat)
    requires Square(A, d)
  {
    forall x: Vec {:trigger Quad(A, x)} :: |x| == d && x != Zero(d) ==> Quad(A, x) > 0.0
  }

  predicate Symmetric(A: Mat) {
    Square(A, |A|) && forall i, k :: 0 <= i < |A| && 0 <= k < |A| ==> A[i][k] == A[k][i]
  }

  /** A undoes B on every vector. */
  ghost predicate Undoes(A: Mat, B: Mat, d: nat)
    requires Square(A, d) && Square(B, d)
  {
    forall x: Vec {:trigger MatVec(B, x)} :: |x| == d ==> MatVec(A, MatVec(B, x)) == x
  }

  lemma {:induction false} SelfAdjointIsSymmetric(A: Mat)
    requires Square(A, |A|) && SelfAdjoint(A, |A|)
    ensures Symmetric(A)
  {
    var d := |A|;
    forall i, k | 0 <= i < d && 0 <= k < d ensures A[i][k] == A[k][i] {
      MatVecUnit(A, i);
      MatVecUnit(A, k);
      DotComm(Unit(d, i), Column(A, k));
      DotUnit(Column(A, k), i);
      DotComm(Unit(d, k), Column(A, i));
      DotUnit(Column(A, i), k);
    }
  }

  /** Undoing every vector is the matrix identity A B = I. */
  lemma {:induction false} UndoesIsProduct(A: Mat, B: Mat)
    requires Square(A, |B|) && Square(B, |B|) && Undoes(A, B, |B|)
    ensures MatMul(A, B) == ScaledIdentity(|B|, 1.0)
  {
    var d := |B|;
    forall i | 0 <= i < d ensures MatMul(A, B)[i] == ScaledIdentity(d, 1.0)[i] {
      forall k | 0 <= k < d ensures MatMul(A, B)[i][k] == ScaledIdentity(d, 1.0)[i][k] {
        MatVecUnit(B, k);
        assert MatVec(A, MatVec(B, Unit(d, k))) == Unit(d, k);
        assert MatVec(A, Column(B, k))[i] == Unit(d, k)[i];
      }
    }
  }

  /** Two inverses of the same matrix are equal: it is enough that one undoes it on the
      left and the other on the right. */
  lemma {:induction false} InverseIsUnique(A: Mat, B: Mat, G: Mat)
    requires Square(A, |G|) && Square(B, |G|) && Square(G, |G|)
    requires Undoes(A, G, |G|) && Undoes(G, B, |G|)
    ensures A == B
  {
    forall x: Vec | |x| == |G| ensures MatVec(A, x) == MatVec(B, x) {
      var y := MatVec(B, x);
      assert MatVec(G, y) == x;
      assert MatVec(A, MatVec(G, y)) == y;
    }
    ActionDeterminesMatrix(A, B);
  }

  /** A two-sided inverse of a positive definite matrix is positive definite. */
  lemma {:induction false} InversePositiveDefinite(A: Mat, G: Mat)
    requires Square(A, |G|) && Square(G, |G|)
    requires Undoes(G, A, |G|) && PositiveDefinite(G, |G|)
    ensures PositiveDefinite(A, |G|)
    ensures forall x: Vec {:trigger Quad(A, x)} :: |x| == |G| ==> Quad(A, x) >= 0.0
  {
    var d := |G|;
    forall x: Vec | |x| == d
      ensures Quad(A, x) >= 0.0 && (x != Zero(d) ==> Quad(A, x) > 0.0)
    {
      var y := MatVec(A, x);
      assert MatVec(G, y) == x;
      DotComm(x, y);
      assert Quad(A, x) == Quad(G, y);
      if y == Zero(d) {
        MatVecZero(G);
        DotZero(y);
      }
    }
  }
}
