/** The rank-one identity behind the incremental inverse. */
module ShermanMorrison {
  import opened LinearAlgebra

  lemma Exchange(a: real, s: real, t: real)
    ensures Times(Times(a, s), t) == Times(Times(a, t), s)
  {
  }

  lemma {:induction false} OuterSelfAdjoint(A: Mat, a: real, u: Vec)
    requires Square(A, |u|) && SelfAdjoint(A, |u|)
    ensures SelfAdjoint(AddOuter(A, a, u), |u|)
  {
    var d, B := |u|, AddOuter(A, a, u);
    forall x: Vec, y: Vec | |x| == d && |y| == d
      ensures Dot(x, MatVec(B, y)) == Dot(y, MatVec(B, x))
    {
      MatVecOuter(A, a, u, x);
      MatVecOuter(A, a, u, y);
      DotAxpy(x, Times(a, Dot(u, y)), u, MatVec(A, y));
      DotAxpy(y, Times(a, Dot(u, x)), u, MatVec(A, x));
      DotComm(x, u);
      DotComm(y, u);
      Exchange(a, Dot(u, y), Dot(u, x));
    }
  }

  /** (A + a u uᵀ) seen through its quadratic form. */
  lemma {:induction false} QuadOuter(A: Mat, a: real, u: Vec, x: Vec)
    requires |x| == |u| && Square(A, |u|)
    ensures Quad(AddOuter(A, a, u), x) == Quad(A, x) + Times(a, Times(Dot(u, x), Dot(u, x)))
  {
    MatVecOuter(A, a, u, x);
    DotAxpy(x, Times(a, Dot(u, x)), u, MatVec(A, x));
    DotComm(x, u);
    assert Times(Times(a, Dot(u, x)), Dot(u, x)) == Times(a, Times(Dot(u, x), Dot(u, x)));
  }

  lemma RightCancel(a: real, c: real, v: real, w: real)
    requires c == 1.0 + v && c != 0.0 && a == -1.0 / c
    ensures Times(a, w) + Times(1.0, w + Times(Times(a, w), v)) == 0.0
  {
    assert Times(a, c) == -1.0;
    assert Times(a, w) + Times(Times(a, w), v) == Times(Times(a, c), w);
  }

  lemma LeftCancel(a: real, c: real, v: real, w: real)
    requires c == 1.0 + v && c != 0.0 && a == -1.0 / c
    ensures Times(1.0, w) + Times(a, w + Times(Times(1.0, w), v)) == 0.0
  {
    assert Times(a, c) == -1.0;
    assert Times(a, w + Times(Times(1.0, w), v)) == Times(Times(a, c), w);
  }

  lemma AxpyCancel(s: real, t: real, x: Vec, y: Vec)
    requires |x| == |y| && s + t == 0.0
    ensures Axpy(t, x, Axpy(s, x, y)) == y
  {
    forall i | 0 <= i < |y| ensures Axpy(t, x, Axpy(s, x, y))[i] == y[i] {
      assert Times(s, x[i]) + Times(t, x[i]) == Times(s + t, x[i]);
    }
  }

  ghost predicate Inverses(A: Mat, G: Mat, d: nat) {
    && Square(A, d) && Square(G, d)
    && SelfAdjoint(A, d) && SelfAdjoint(G, d)
    && Undoes(A, G, d) && Undoes(G, A, d)
  }

  /** A - (Ax)(Ax)ᵀ / (1 + xᵀAx) */
  function Downdate(A: Mat, x: Vec): (B: Mat)
    requires Square(A, |x|) && 1.0 + Quad(A, x) != 0.0
    ensures Square(B, |x|)
  {
    AddOuter(A, -1.0 / (1.0 + Quad(A, x)), MatVec(A, x))
  }

  lemma {:induction false} RankOneRight(A: Mat, G: Mat, x: Vec, y: Vec)
    requires |x| == |y| && Inverses(A, G, |x|) && 1.0 + Quad(A, x) != 0.0
    ensures MatVec(AddOuter(G, 1.0, x), MatVec(Downdate(A, x), y)) == y
  {
    var u, a := MatVec(A, x), -1.0 / (1.0 + Quad(A, x));
    var Ay, t := MatVec(A, y), Times(a, Dot(u, y));
    var z := MatVec(Downdate(A, x), y);
    assert z == Axpy(t, u, Ay) by { MatVecOuter(A, a, u, y); }
    assert MatVec(G, z) == Axpy(t, x, y) by { MatVecAxpy(G, t, u, Ay); }
    assert Dot(x, z) == Dot(u, y) + Times(t, Quad(A, x)) by {
      DotAxpy(x, t, u, Ay);
      DotComm(y, u);
    }
    MatVecOuter(G, 1.0, x, z);
    RightCancel(a, 1.0 + Quad(A, x), Quad(A, x), Dot(u, y));
    AxpyCancel(t, Times(1.0, Dot(x, z)), x, y);
  }

  lemma {:induction false} RankOneLeft(A: Mat, G: Mat, x: Vec, y: Vec)
    requires |x| == |y| && Inverses(A, G, |x|) && 1.0 + Quad(A, x) != 0.0
    ensures MatVec(Downdate(A, x), MatVec(AddOuter(G, 1.0, x), y)) == y
  {
    var u, a := MatVec(A, x), -1.0 / (1.0 + Quad(A, x));
    var Gy, t := MatVec(G, y), Times(1.0, Dot(x, y));
    var z := MatVec(AddOuter(G, 1.0, x), y);
    assert z == Axpy(t, x, Gy) by { MatVecOuter(G, 1.0, x, y); }
    assert MatVec(A, z) == Axpy(t, u, y) by { MatVecAxpy(A, t, x, Gy); }
    assert Dot(u, z) == Dot(x, y) + Times(t, Quad(A, x)) by {
      DotAxpy(u, t, x, Gy);
      assert Dot(u, Gy) == Dot(y, MatVec(G, u));
      assert MatVec(G, u) == x;
      DotComm(y, x);
      DotComm(u, x);
    }
    MatVecOuter(A, a, u, z);
    LeftCancel(a, 1.0 + Quad(A, x), Quad(A, x), Dot(x, y));
    AxpyCancel(t, Times(a, Dot(u, z)), u, y);
  }

  /** Sherman-Morrison: the downdate of an inverse of G inverts G + x xᵀ. */
  lemma {:induction false} RankOneInverse(A: Mat, G: Mat, x: Vec)
    requires Inverses(A, G, |x|) && 1.0 + Quad(A, x) != 0.0
    ensures Inverses(Downdate(A, x), AddOuter(G, 1.0, x), |x|)
  {
    OuterSelfAdjoint(A, -1.0 / (1.0 + Quad(A, x)), MatVec(A, x));
    OuterSelfAdjoint(G, 1.0, x);
    forall y: Vec | |y| == |x|
      ensures MatVec(AddOuter(G, 1.0, x), MatVec(Downdate(A, x), y)) == y
      ensures MatVec(Downdate(A, x), MatVec(AddOuter(G, 1.0, x), y)) == y
    {
      RankOneRight(A, G, x, y);
      RankOneLeft(A, G, x, y);
    }
  }
}
