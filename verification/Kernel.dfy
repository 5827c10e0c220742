/** What the incremental LinUCB state means: ridge regression over the arm's history. */
module Kernel {
  import opened LinearAlgebra
  import opened ShermanMorrison
  import opened Sums
  import opened LinUcb

  // ---------------------------------------------------------------- the ridge problem

  function At(x: Vec, i: nat): real {
    if i < |x| then x[i] else 0.0
  }

  function ContextProduct(i: nat, k: nat): Obs -> real {
    (o: Obs) => Times(At(o.x, i), At(o.x, k))
  }

  function WeightedContext(k: nat): Obs -> real {
    (o: Obs) => Times(o.r, At(o.x, k))
  }

  /** lam*I + Σ x xᵀ, entry by entry. */
  function Gram(lam: real, d: nat, h: seq<Obs>): (G: Mat)
    ensures Square(G, d)
  {
    seq(d, (i: nat) => seq(d, (k: nat) => (if i == k then lam else 0.0) + SumBy(ContextProduct(i, k), h)))
  }

  /** Σ r x */
  function RewardSum(d: nat, h: seq<Obs>): Vec {
    seq(d, (k: nat) => SumBy(WeightedContext(k), h))
  }

  ghost predicate Sized(h: seq<Obs>, d: nat) {
    forall o :: o in h ==> |o.x| == d
  }

  lemma {:induction false} GramRow(lam: real, d: nat, h: seq<Obs>, o: Obs, i: nat)
    requires |o.x| == d && i < d
    ensures Gram(lam, d, h + [o])[i] == AddOuter(Gram(lam, d, h), 1.0, o.x)[i]
  {
    forall k | 0 <= k < d ensures Gram(lam, d, h + [o])[i][k] == AddOuter(Gram(lam, d, h), 1.0, o.x)[i][k] {
      SumAppend(ContextProduct(i, k), h, o);
      assert Times(Times(1.0, o.x[i]), o.x[k]) == ContextProduct(i, k)(o);
    }
  }

  lemma {:induction false} GramAppend(lam: real, d: nat, h: seq<Obs>, o: Obs)
    requires |o.x| == d
    ensures Gram(lam, d, h + [o]) == AddOuter(Gram(lam, d, h), 1.0, o.x)
  {
    forall i | 0 <= i < d ensures Gram(lam, d, h + [o])[i] == AddOuter(Gram(lam, d, h), 1.0, o.x)[i] {
      GramRow(lam, d, h, o, i);
    }
  }

  lemma {:induction false} RewardAppend(d: nat, h: seq<Obs>, o: Obs)
    requires |o.x| == d
    ensures RewardSum(d, h + [o]) == Axpy(o.r, o.x, RewardSum(d, h))
  {
    forall k | 0 <= k < d ensures RewardSum(d, h + [o])[k] == Axpy(o.r, o.x, RewardSum(d, h))[k] {
      SumAppend(WeightedContext(k), h, o);
    }
  }

  lemma GramEmpty(lam: real, d: nat)
    ensures Gram(lam, d, []) == ScaledIdentity(d, lam)
    ensures RewardSum(d, []) == Zero(d)
  {
    forall i | 0 <= i < d ensures Gram(lam, d, [])[i] == ScaledIdentity(d, lam)[i] {
    }
  }

  lemma {:induction false} ScaledIdentityForm(d: nat, s: real, x: Vec, y: Vec)
    requires |x| == |y| == d
    ensures Dot(x, MatVec(ScaledIdentity(d, s), y)) == Times(s, Dot(x, y))
  {
    MatVecIdentity(d, s, y);
    DotAxpy(x, s, y, Zero(d));
    DotZero(x);
  }

  /** The Gram matrix is self-adjoint and dominates lam*I. */
  lemma {:induction false} GramDominates(lam: real, d: nat, h: seq<Obs>)
    requires Sized(h, d)
    ensures SelfAdjoint(Gram(lam, d, h), d)
    ensures forall x: Vec {:trigger Quad(Gram(lam, d, h), x)} ::
              |x| == d ==> Quad(Gram(lam, d, h), x) >= Times(lam, Dot(x, x))
  {
    var G := Gram(lam, d, h);
    if h == [] {
      GramEmpty(lam, d);
      forall x: Vec, y: Vec | |x| == d && |y| == d
        ensures Dot(x, MatVec(G, y)) == Dot(y, MatVec(G, x)) && Quad(G, x) == Times(lam, Dot(x, x))
      {
        ScaledIdentityForm(d, lam, x, y);
        ScaledIdentityForm(d, lam, y, x);
        ScaledIdentityForm(d, lam, x, x);
        DotComm(x, y);
      }
    } else {
      var h', o := h[..|h| - 1], h[|h| - 1];
      assert h == h' + [o];
      GramDominates(lam, d, h');
      GramAppend(lam, d, h', o);
      OuterSelfAdjoint(Gram(lam, d, h'), 1.0, o.x);
      forall x: Vec | |x| == d ensures Quad(G, x) >= Times(lam, Dot(x, x)) {
        QuadOuter(Gram(lam, d, h'), 1.0, o.x, x);
        SquareNonnegative(Dot(o.x, x));
      }
    }
  }

  lemma {:induction false} GramPositiveDefinite(lam: real, d: nat, h: seq<Obs>)
    requires lam > 0.0 && Sized(h, d)
    ensures SelfAdjoint(Gram(lam, d, h), d) && PositiveDefinite(Gram(lam, d, h), d)
  {
    GramDominates(lam, d, h);
    forall x: Vec | |x| == d && x != Zero(d) ensures Quad(Gram(lam, d, h), x) > 0.0 {
      NormPositive(x);
      ProductPositive(lam, Dot(x, x));
    }
  }

  // ---------------------------------------------------------------- the representation invariant

  /** Arm by arm, the state is the inverse Gram matrix and reward sum of a history. */
  ghost predicate Represents(s: LinUcbState, hist: seq<seq<Obs>>) {
    && Shaped(s) && s.lam > 0.0 && |hist| == s.nArms
    && forall j :: 0 <= j < s.nArms ==> ArmRepresents(s, j, hist[j])
  }

  ghost predicate ArmRepresents(s: LinUcbState, j: nat, h: seq<Obs>)
    requires Shaped(s) && j < s.nArms
  {
    && Sized(h, s.d)
    && Inverses(s.AInv[j], Gram(s.lam, s.d, h), s.d)
    && s.b[j] == RewardSum(s.d, h)
  }

  lemma {:induction false} ScaledSelfAdjoint(d: nat, s: real)
    ensures SelfAdjoint(ScaledIdentity(d, s), d)
  {
    forall x: Vec, y: Vec | |x| == d && |y| == d
      ensures Dot(x, MatVec(ScaledIdentity(d, s), y)) == Dot(y, MatVec(ScaledIdentity(d, s), x))
    {
      ScaledIdentityForm(d, s, x, y);
      ScaledIdentityForm(d, s, y, x);
      DotComm(x, y);
    }
  }

  lemma {:induction false} ScaledUndoes(d: nat, s: real, t: real)
    requires s * t == 1.0
    ensures Undoes(ScaledIdentity(d, t), ScaledIdentity(d, s), d)
  {
    forall x: Vec | |x| == d ensures MatVec(ScaledIdentity(d, t), MatVec(ScaledIdentity(d, s), x)) == x {
      ScaleBackAndForth(d, s, t, x);
    }
  }

  lemma {:induction false} FreshInverse(d: nat, lam: real)
    requires lam > 0.0
    ensures Inverses(ScaledIdentity(d, 1.0 / lam), ScaledIdentity(d, lam), d)
  {
    ScaledSelfAdjoint(d, 1.0 / lam);
    ScaledSelfAdjoint(d, lam);
    ScaledUndoes(d, lam, 1.0 / lam);
    ScaledUndoes(d, 1.0 / lam, lam);
  }

  lemma {:induction false} ScaleBackAndForth(d: nat, s: real, t: real, x: Vec)
    requires |x| == d && s * t == 1.0
    ensures MatVec(ScaledIdentity(d, t), MatVec(ScaledIdentity(d, s), x)) == x
  {
    MatVecIdentity(d, s, x);
    MatVecIdentity(d, t, Axpy(s, x, Zero(d)));
    forall i | 0 <= i < d ensures Axpy(t, Axpy(s, x, Zero(d)), Zero(d))[i] == x[i] {
      assert Times(t, Times(s, x[i])) == Times(Times(s, t), x[i]);
    }
  }

  lemma FreshRepresents(exploration: seq<real>, d: nat, scale: real, lam: real)
    requires lam > 0.0
    ensures Represents(Fresh(exploration, d, scale, lam), seq(|exploration|, _ => []))
  {
    FreshInverse(d, lam);
    GramEmpty(lam, d);
  }

  /** The variance xᵀ A_inv x of a represented arm is never negative, so the divisor of the
      update is at least 1; it vanishes only at the zero context. */
  lemma DivisorAtLeastOne(s: LinUcbState, hist: seq<seq<Obs>>, j: nat, x: Vec)
    requires Represents(s, hist) && j < s.nArms && |x| == s.d
    ensures Quad(s.AInv[j], x) >= 0.0
    ensures x != Zero(s.d) ==> Quad(s.AInv[j], x) > 0.0
    ensures Divisor(s, j, x) >= 1.0
  {
    assert ArmRepresents(s, j, hist[j]);
    GramPositiveDefinite(s.lam, s.d, hist[j]);
    InversePositiveDefinite(s.AInv[j], Gram(s.lam, s.d, hist[j]));
  }

  /** One update appends one observation to one arm's history. */
  lemma AppliedRepresents(s: LinUcbState, hist: seq<seq<Obs>>, j: nat, x: Vec, r: real)
    requires Represents(s, hist) && j < s.nArms && |x| == s.d
    ensures Divisor(s, j, x) >= 1.0
    ensures Represents(Applied(s, j, x, r), hist[j := hist[j] + [Obs(x, r)]])
  {
    DivisorAtLeastOne(s, hist, j, x);
    var s', o := Applied(s, j, x, r), Obs(x, r);
    var hist' := hist[j := hist[j] + [o]];
    assert ArmRepresents(s, j, hist[j]);
    RankOneInverse(s.AInv[j], Gram(s.lam, s.d, hist[j]), x);
    GramAppend(s.lam, s.d, hist[j], o);
    RewardAppend(s.d, hist[j], o);
    forall i | 0 <= i < s'.nArms ensures ArmRepresents(s', i, hist'[i]) {
      assert ArmRepresents(s, i, hist[i]);
    }
  }

  // ---------------------------------------------------------------- runs

  datatype Update = Update(arm: nat, x: Vec, r: real)

  predicate Fits(n: nat, d: nat, u: Update) {
    u.arm < n && |u.x| == d
  }

  /** The observations of arm j among the updates, in order. */
  function ArmHistory(us: seq<Update>, j: nat): seq<Obs> {
    if us == [] then []
    else
      var u := us[|us| - 1];
      ArmHistory(us[..|us| - 1], j) + if u.arm == j then [Obs(u.x, u.r)] else []
  }

  function Histories(n: nat, us: seq<Update>): seq<seq<Obs>> {
    seq(n, (j: nat) => ArmHistory(us, j))
  }

  lemma {:induction false} HistoriesAppend(n: nat, us: seq<Update>, u: Update)
    requires u.arm < n
    ensures Histories(n, us + [u]) == Histories(n, us)[u.arm := ArmHistory(us, u.arm) + [Obs(u.x, u.r)]]
  {
    assert (us + [u])[..|us|] == us;
    forall j | 0 <= j < n && j != u.arm ensures ArmHistory(us + [u], j) == ArmHistory(us, j) {
      assert ArmHistory(us, j) + [] == ArmHistory(us, j);
    }
  }

  /** A whole training run; updates that do not fit the model raise and leave it alone. */
  function Trained(s: LinUcbState, us: seq<Update>): (t: LinUcbState)
    requires Shaped(s)
    ensures Shaped(t) && t.nArms == s.nArms && t.d == s.d && t.lam == s.lam
    ensures t.alpha == s.alpha && t.scale == s.scale
  {
    if us == [] then s
    else ApplyUpdate(Trained(s, us[..|us| - 1]), us[|us| - 1])
  }

  function ApplyUpdate(s: LinUcbState, u: Update): (t: LinUcbState)
    requires Shaped(s)
    ensures Shaped(t) && t.nArms == s.nArms && t.d == s.d && t.lam == s.lam
    ensures t.alpha == s.alpha && t.scale == s.scale
  {
    if Fits(s.nArms, s.d, u) && Divisor(s, u.arm, u.x) != 0.0 then Applied(s, u.arm, u.x, u.r) else s
  }

  lemma {:induction false} TrainedRepresents(exploration: seq<real>, d: nat, scale: real, lam: real, us: seq<Update>)
    requires lam > 0.0
    requires forall u :: u in us ==> Fits(|exploration|, d, u)
    ensures Represents(Trained(Fresh(exploration, d, scale, lam), us), Histories(|exploration|, us))
  {
    var n, f := |exploration|, Fresh(exploration, d, scale, lam);
    if us == [] {
      FreshRepresents(exploration, d, scale, lam);
      assert Histories(n, us) == seq(n, _ => []);
    } else {
      var us', u := us[..|us| - 1], us[|us| - 1];
      assert u in us && forall v :: v in us' ==> v in us;
      assert Fits(n, d, u);
      TrainedRepresents(exploration, d, scale, lam, us');
      AppliedRepresents(Trained(f, us'), Histories(n, us'), u.arm, u.x, u.r);
      HistoriesAppend(n, us', u);
      assert us == us' + [u];
    }
  }

  /** The docstring's claim. After any run, on every arm: A_inv is symmetric, positive
      definite and the two-sided inverse of lam*I + Σ x xᵀ over exactly the contexts applied
      to that arm, and b is Σ r x over them. */
  lemma InverseOfGram(exploration: seq<real>, d: nat, scale: real, lam: real, us: seq<Update>, j: nat)
    requires lam > 0.0 && j < |exploration|
    requires forall u :: u in us ==> Fits(|exploration|, d, u)
    ensures
      var s := Trained(Fresh(exploration, d, scale, lam), us);
      var G := Gram(lam, d, ArmHistory(us, j));
      && Symmetric(s.AInv[j])
      && PositiveDefinite(s.AInv[j], d)
      && MatMul(s.AInv[j], G) == ScaledIdentity(d, 1.0) == MatMul(G, s.AInv[j])
      && s.b[j] == RewardSum(d, ArmHistory(us, j))
      && forall x: Vec :: |x| == d ==> Divisor(s, j, x) >= 1.0
  {
    var s, h := Trained(Fresh(exploration, d, scale, lam), us), ArmHistory(us, j);
    var G := Gram(lam, d, h);
    TrainedRepresents(exploration, d, scale, lam, us);
    assert Histories(|exploration|, us)[j] == h;
    assert ArmRepresents(s, j, h);
    SelfAdjointIsSymmetric(s.AInv[j]);
    GramPositiveDefinite(lam, d, h);
    InversePositiveDefinite(s.AInv[j], G);
    UndoesIsProduct(s.AInv[j], G);
    UndoesIsProduct(G, s.AInv[j]);
    forall x: Vec | |x| == d ensures Divisor(s, j, x) >= 1.0 {
      DivisorAtLeastOne(s, Histories(|exploration|, us), j, x);
    }
  }
}
