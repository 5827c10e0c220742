/** Consequences of the representation: optimal weights, order independence, shrinking
    uncertainty and what the cold-start label really says. */
module Ridge {
  import opened LinearAlgebra
  import opened ShermanMorrison
  import opened Sums
  import opened LinUcb
  import opened Kernel

  // ---------------------------------------------------------------- theta is the ridge minimiser

  function SquaredError(w: Vec): Obs -> real {
    (o: Obs) => if |o.x| == |w| then Times(o.r - Dot(w, o.x), o.r - Dot(w, o.x)) else 0.0
  }

  function SquaredReward(): Obs -> real {
    (o: Obs) => Times(o.r, o.r)
  }

  /** Σ (r - w·x)² + lam |w|² */
  function Loss(lam: real, h: seq<Obs>, w: Vec): real {
    SumBy(SquaredError(w), h) + Times(lam, Dot(w, w))
  }

  lemma ExpandSquare(r: real, p: real)
    ensures Times(r - p, r - p) == Times(r, r) - Times(2.0, Times(r, p)) + Times(1.0, Times(p, p))
  {
  }

  lemma {:induction false} LossExpansion(lam: real, d: nat, h: seq<Obs>, w: Vec)
    requires Sized(h, d) && |w| == d
    ensures Loss(lam, h, w)
         == SumBy(SquaredReward(), h) - Times(2.0, Dot(w, RewardSum(d, h))) + Quad(Gram(lam, d, h), w)
  {
    if h == [] {
      GramEmpty(lam, d);
      ScaledIdentityForm(d, lam, w, w);
      DotZero(w);
    } else {
      var h', o := h[..|h| - 1], h[|h| - 1];
      assert o in h && h == h' + [o];
      LossExpansion(lam, d, h', w);
      RewardAppend(d, h', o);
      GramAppend(lam, d, h', o);
      QuadOuter(Gram(lam, d, h'), 1.0, o.x, w);
      DotAxpy(w, o.r, o.x, RewardSum(d, h'));
      DotComm(w, o.x);
      ExpandSquare(o.r, Dot(w, o.x));
    }
  }

  /** w - theta */
  function Gap(w: Vec, theta: Vec): Vec
    requires |w| == |theta|
  {
    Axpy(-1.0, theta, w)
  }

  lemma {:induction false} QuadShift(G: Mat, theta: Vec, w: Vec, b: Vec)
    requires |theta| == |w| == |b| && Square(G, |w|) && SelfAdjoint(G, |w|) && MatVec(G, theta) == b
    ensures Quad(G, w) == Quad(G, theta) + Times(2.0, Dot(Gap(w, theta), b)) + Quad(G, Gap(w, theta))
    ensures Dot(w, b) == Dot(theta, b) + Dot(Gap(w, theta), b)
  {
    var e := Gap(w, theta);
    assert w == Axpy(1.0, theta, e) by {
      forall i | 0 <= i < |w| ensures w[i] == Axpy(1.0, theta, e)[i] {
        assert e[i] == w[i] + Times(-1.0, theta[i]);
      }
    }
    MatVecAxpy(G, 1.0, theta, e);
    DotAxpy(w, 1.0, b, MatVec(G, e));
    DotAxpy(b, 1.0, theta, e);
    DotAxpy(MatVec(G, e), 1.0, theta, e);
    assert Dot(theta, MatVec(G, e)) == Dot(e, MatVec(G, theta));
  }

  lemma GapZero(w: Vec, theta: Vec)
    requires |w| == |theta| && w != theta
    ensures Gap(w, theta) != Zero(|w|)
  {
    var i :| 0 <= i < |w| && w[i] != theta[i];
    assert Gap(w, theta)[i] == w[i] + Times(-1.0, theta[i]);
  }

  /** In every reachable state theta = A_inv b is the unique minimiser of the ridge loss over
      the arm's whole history, and the excess loss of any other w is (w-θ)ᵀ G (w-θ). */
  lemma ThetaIsRidgeMinimiser(exploration: seq<real>, d: nat, scale: real, lam: real, us: seq<Update>, j: nat, w: Vec)
    requires lam > 0.0 && j < |exploration| && |w| == d
    requires forall u :: u in us ==> Fits(|exploration|, d, u)
    ensures
      var theta := Theta(Trained(Fresh(exploration, d, scale, lam), us), j);
      var h := ArmHistory(us, j);
      && Loss(lam, h, w) == Loss(lam, h, theta) + Quad(Gram(lam, d, h), Gap(w, theta))
      && (w != theta ==> Loss(lam, h, theta) < Loss(lam, h, w))
  {
    var s, h := Trained(Fresh(exploration, d, scale, lam), us), ArmHistory(us, j);
    var G, theta := Gram(lam, d, h), Theta(s, j);
    TrainedRepresents(exploration, d, scale, lam, us);
    assert Histories(|exploration|, us)[j] == h;
    assert ArmRepresents(s, j, h);
    assert MatVec(G, theta) == s.b[j];
    LossExpansion(lam, d, h, w);
    LossExpansion(lam, d, h, theta);
    QuadShift(G, theta, w, s.b[j]);
    if w != theta {
      GapZero(w, theta);
      GramPositiveDefinite(lam, d, h);
      assert Quad(G, Gap(w, theta)) > 0.0;
    }
  }

  // ---------------------------------------------------------------- order independence

  lemma {:induction false} HistoryCounts(us: seq<Update>, j: nat, o: Obs)
    ensures multiset(ArmHistory(us, j))[o] == multiset(us)[Update(j, o.x, o.r)]
  {
    if us != [] {
      var us', u := us[..|us| - 1], us[|us| - 1];
      assert us == us' + [u];
      HistoryCounts(us', j, o);
    }
  }

  lemma HistoryPermutation(us: seq<Update>, vs: seq<Update>, j: nat)
    requires multiset(us) == multiset(vs)
    ensures multiset(ArmHistory(us, j)) == multiset(ArmHistory(vs, j))
  {
    forall o ensures multiset(ArmHistory(us, j))[o] == multiset(ArmHistory(vs, j))[o] {
      HistoryCounts(us, j, o);
      HistoryCounts(vs, j, o);
    }
  }

  lemma RidgePermutation(lam: real, d: nat, h: seq<Obs>, k: seq<Obs>)
    requires multiset(h) == multiset(k)
    ensures Gram(lam, d, h) == Gram(lam, d, k)
    ensures RewardSum(d, h) == RewardSum(d, k)
  {
    forall i | 0 <= i < d ensures Gram(lam, d, h)[i] == Gram(lam, d, k)[i] {
      forall c | 0 <= c < d ensures Gram(lam, d, h)[i][c] == Gram(lam, d, k)[i][c] {
        SumPermutation(ContextProduct(i, c), h, k);
      }
    }
    forall c | 0 <= c < d ensures RewardSum(d, h)[c] == RewardSum(d, k)[c] {
      SumPermutation(WeightedContext(c), h, k);
    }
  }

  /** The trained model depends only on the multiset of updates: whatever order the lock
      serialises concurrent updates in, the state (hence every score and ranking) is the same. */
  lemma TrainingOrderIrrelevant(exploration: seq<real>, d: nat, scale: real, lam: real, us: seq<Update>,
                                vs: seq<Update>)
    requires lam > 0.0 && multiset(us) == multiset(vs)
    requires forall u :: u in us ==> Fits(|exploration|, d, u)
    ensures Trained(Fresh(exploration, d, scale, lam), us) == Trained(Fresh(exploration, d, scale, lam), vs)
  {
    var n, f := |exploration|, Fresh(exploration, d, scale, lam);
    var s, t := Trained(f, us), Trained(f, vs);
    forall v | v in vs ensures Fits(n, d, v) {
      assert v in multiset(us);
    }
    TrainedRepresents(exploration, d, scale, lam, us);
    TrainedRepresents(exploration, d, scale, lam, vs);
    forall j | 0 <= j < n ensures s.AInv[j] == t.AInv[j] && s.b[j] == t.b[j] {
      assert ArmRepresents(s, j, Histories(n, us)[j]) && ArmRepresents(t, j, Histories(n, vs)[j]);
      HistoryPermutation(us, vs, j);
      RidgePermutation(lam, d, ArmHistory(us, j), ArmHistory(vs, j));
      InverseIsUnique(s.AInv[j], t.AInv[j], Gram(lam, d, ArmHistory(us, j)));
    }
    assert s.AInv == t.AInv && s.b == t.b;
  }

  // ---------------------------------------------------------------- uncertainty

  lemma {:induction false} DowndateForms(A: Mat, x: Vec, y: Vec)
    requires |x| == |y| && Square(A, |x|) && SelfAdjoint(A, |x|) && 1.0 + Quad(A, x) > 0.0
    ensures Quad(Downdate(A, x), y) <= Quad(A, y)
    ensures MatVec(Downdate(A, x), x) == Axpy(Times(-1.0 / (1.0 + Quad(A, x)), Quad(A, x)), MatVec(A, x), MatVec(A, x))
  {
    var u, a := MatVec(A, x), -1.0 / (1.0 + Quad(A, x));
    QuadOuter(A, a, u, y);
    SquareNonnegative(Dot(u, y));
    NegativeTimes(1.0 + Quad(A, x), Times(Dot(u, y), Dot(u, y)));
    MatVecOuter(A, a, u, x);
    DotComm(u, x);
  }

  lemma NegativeTimes(c: real, p: real)
    requires c > 0.0 && p >= 0.0
    ensures Times(-1.0 / c, p) <= 0.0
  {
    assert -1.0 / c < 0.0;
  }

  lemma ShrinkVariance(v: real)
    requires 1.0 + v > 0.0
    ensures v + Times(Times(-1.0 / (1.0 + v), v), v) == v / (1.0 + v)
  {
    var c := 1.0 + v;
    var a := -1.0 / c;
    assert Times(a, c) == -1.0;
    assert Times(a, v) == -1.0 - a;
    assert Times(Times(a, v), v) == -v - Times(a, v);
    assert v / c == 1.0 + a;
  }

  lemma ShrinkPrediction(p: real, v: real, r: real)
    requires 1.0 + v > 0.0
    ensures (p + Times(r, v)) + Times(Times(-1.0 / (1.0 + v), v), p + Times(r, v)) == Blend(p, v, 1.0, r)
  {
    var c := 1.0 + v;
    var a := -1.0 / c;
    assert Times(a, c) == -1.0;
    assert Times(a, v) == -1.0 - a;
    var q := p + Times(r, v);
    assert Times(Times(a, v), q) == -q - Times(a, q);
    assert Times(a, q) == -(q / c);
    assert q / c == Blend(p, v, 1.0, r);
  }

  lemma {:induction false} VarianceAfter(A: Mat, x: Vec)
    requires Square(A, |x|) && SelfAdjoint(A, |x|) && 1.0 + Quad(A, x) > 0.0
    ensures Quad(Downdate(A, x), x) == Quad(A, x) / (1.0 + Quad(A, x))
  {
    var u, v := MatVec(A, x), Quad(A, x);
    DowndateForms(A, x, x);
    DotAxpy(x, Times(-1.0 / (1.0 + v), v), u, u);
    ShrinkVariance(v);
  }

  /** For self-adjoint matrices the prediction is bᵀ(A x). */
  lemma {:induction false} PredictionAdjoint(A: Mat, b: Vec, x: Vec)
    requires |b| == |x| && Square(A, |x|) && SelfAdjoint(A, |x|)
    ensures Dot(MatVec(A, b), x) == Dot(b, MatVec(A, x))
  {
    DotComm(MatVec(A, b), x);
  }

  /** A' x = (1 + k) A x with k = -v/(1+v), so the new prediction is (1 + k)(p + r v). */
  lemma {:induction false} PredictionForms(A: Mat, b: Vec, x: Vec, r: real)
    requires |b| == |x| && Square(A, |x|) && SelfAdjoint(A, |x|) && 1.0 + Quad(A, x) > 0.0
    ensures
      var v := Quad(A, x);
      var q := Dot(MatVec(A, b), x) + Times(r, v);
      Dot(MatVec(Downdate(A, x), Axpy(r, x, b)), x) == q + Times(Times(-1.0 / (1.0 + v), v), q)
  {
    var u, v, A', b' := MatVec(A, x), Quad(A, x), Downdate(A, x), Axpy(r, x, b);
    OuterSelfAdjoint(A, -1.0 / (1.0 + v), u);
    PredictionAdjoint(A', b', x);
    PredictionAdjoint(A, b, x);
    DowndateForms(A, x, x);
    DotAxpy(b', Times(-1.0 / (1.0 + v), v), u, u);
    DotAxpy(u, r, x, b);
  }

  lemma {:induction false} PredictionAfter(A: Mat, b: Vec, x: Vec, r: real)
    requires |b| == |x| && Square(A, |x|) && SelfAdjoint(A, |x|) && 1.0 + Quad(A, x) > 0.0
    ensures Dot(MatVec(Downdate(A, x), Axpy(r, x, b)), x) == Blend(Dot(MatVec(A, b), x), Quad(A, x), 1.0, r)
  {
    PredictionForms(A, b, x, r);
    ShrinkPrediction(Dot(MatVec(A, b), x), Quad(A, x), r);
  }

  /** Where n updates with a context of variance v leave that variance. */
  function Variance(v: real, n: real): real
    requires 1.0 + n * v != 0.0
  {
    v / (1.0 + n * v)
  }

  /** Where n updates with rewards of the given total leave the prediction p of a context. */
  function Blend(p: real, v: real, n: real, total: real): real
    requires 1.0 + n * v != 0.0
  {
    (p + v * total) / (1.0 + n * v)
  }

  lemma {:induction false} AppliedVariance(s: LinUcbState, j: nat, x: Vec, r: real)
    requires Shaped(s) && j < s.nArms && |x| == s.d
    requires SelfAdjoint(s.AInv[j], s.d) && Divisor(s, j, x) >= 1.0
    ensures Quad(Applied(s, j, x, r).AInv[j], x) == Variance(Quad(s.AInv[j], x), 1.0)
  {
    VarianceAfter(s.AInv[j], x);
  }

  lemma {:induction false} AppliedPrediction(s: LinUcbState, j: nat, x: Vec, r: real)
    requires Shaped(s) && j < s.nArms && |x| == s.d
    requires SelfAdjoint(s.AInv[j], s.d) && Divisor(s, j, x) >= 1.0
    ensures Prediction(Applied(s, j, x, r), j, x) == Blend(Prediction(s, j, x), Quad(s.AInv[j], x), 1.0, r)
  {
    PredictionAfter(s.AInv[j], s.b[j], x, r);
  }

  /** One update with context x and reward r sends the variance v of x to v/(1+v) and its
      prediction p to (p + v r)/(1+v). */
  lemma {:induction false} UpdateShrinksUncertainty(s: LinUcbState, hist: seq<seq<Obs>>, j: nat, x: Vec, r: real)
    requires Represents(s, hist) && j < s.nArms && |x| == s.d
    ensures Divisor(s, j, x) >= 1.0
    ensures Quad(Applied(s, j, x, r).AInv[j], x) == Variance(Quad(s.AInv[j], x), 1.0)
    ensures Prediction(Applied(s, j, x, r), j, x) == Blend(Prediction(s, j, x), Quad(s.AInv[j], x), 1.0, r)
  {
    DivisorAtLeastOne(s, hist, j, x);
    assert ArmRepresents(s, j, hist[j]);
    AppliedVariance(s, j, x, r);
    AppliedPrediction(s, j, x, r);
  }

  /** No update ever makes any arm less certain about any context y, and it leaves the other
      arms alone. */
  lemma {:induction false} VarianceNeverGrows(s: LinUcbState, hist: seq<seq<Obs>>, j: nat, x: Vec, r: real, i: nat,
                                              y: Vec)
    requires Represents(s, hist) && j < s.nArms && i < s.nArms && |x| == s.d && |y| == s.d
    ensures Divisor(s, j, x) >= 1.0
    ensures Quad(Applied(s, j, x, r).AInv[i], y) <= Quad(s.AInv[i], y)
    ensures i != j ==> Applied(s, j, x, r).AInv[i] == s.AInv[i] && Applied(s, j, x, r).b[i] == s.b[i]
  {
    DivisorAtLeastOne(s, hist, j, x);
    assert ArmRepresents(s, j, hist[j]);
    DowndateForms(s.AInv[j], x, y);
  }

  ghost predicate MonotoneRoot(root: real -> real) {
    forall a, b :: a <= b ==> root(a) <= root(b)
  }

  /** The exploration bonus of any arm at any context never grows with an update when the arm's
      alpha is not negative, and never falls when it is not positive. */
  lemma {:induction false} BonusNeverGrows(s: LinUcbState, hist: seq<seq<Obs>>, j: nat, x: Vec, r: real, i: nat,
                                           y: Vec, root: real -> real)
    requires Represents(s, hist) && j < s.nArms && i < s.nArms && |x| == s.d && |y| == s.d
    requires MonotoneRoot(root)
    ensures Divisor(s, j, x) >= 1.0
    ensures s.alpha[i] >= 0.0 ==> Bonus(Applied(s, j, x, r), i, y, root) <= Bonus(s, i, y, root)
    ensures s.alpha[i] <= 0.0 ==> Bonus(Applied(s, j, x, r), i, y, root) >= Bonus(s, i, y, root)
  {
    VarianceNeverGrows(s, hist, j, x, r, i, y);
    BonusMonotone(s.alpha[i], Quad(Applied(s, j, x, r).AInv[i], y), Quad(s.AInv[i], y), root);
  }

  lemma BonusMonotone(a: real, v': real, v: real, root: real -> real)
    requires MonotoneRoot(root) && v' <= v
    ensures a >= 0.0 ==> a * root(Floored(v')) <= a * root(Floored(v))
    ensures a <= 0.0 ==> a * root(Floored(v')) >= a * root(Floored(v))
  {
    if a >= 0.0 {
      ScaleMonotone(a, root(Floored(v')), root(Floored(v)));
    }
    if a <= 0.0 {
      ScaleMonotone(-a, root(Floored(v')), root(Floored(v)));
    }
  }

  lemma ScaleMonotone(a: real, p: real, q: real)
    requires a >= 0.0 && p <= q
    ensures a * p <= a * q
  {
  }

  function Repeated(j: nat, x: Vec, rewards: seq<real>): seq<Update> {
    seq(|rewards|, k requires 0 <= k < |rewards| => Update(j, x, rewards[k]))
  }

  function Total(rewards: seq<real>): real {
    if rewards == [] then 0.0 else Total(rewards[..|rewards| - 1]) + rewards[|rewards| - 1]
  }

  lemma RepeatStep(v0: real, n: real, p0: real, total: real, r: real)
    requires v0 >= 0.0 && n >= 0.0
    ensures 1.0 + n * v0 > 0.0 && 1.0 + 1.0 * Variance(v0, n) > 0.0 && 1.0 + (n + 1.0) * v0 > 0.0
    ensures Variance(Variance(v0, n), 1.0) == Variance(v0, n + 1.0)
    ensures Blend(Blend(p0, v0, n, total), Variance(v0, n), 1.0, r) == Blend(p0, v0, n + 1.0, total + r)
  {
    var m := 1.0 + n * v0;
    assert n * v0 >= 0.0;
    var v, p := Variance(v0, n), Blend(p0, v0, n, total);
    assert v * m == v0 && p * m == p0 + v0 * total;
    assert v >= 0.0;
    var m' := 1.0 + (n + 1.0) * v0;
    assert m' == m + v0 == m * (1.0 + v);
    assert v / (1.0 + v) == (v * m) / (m * (1.0 + v));
    assert (p + v * r) * m == p0 + v0 * (total + r);
    assert (p + v * r) / (1.0 + v) == ((p + v * r) * m) / (m * (1.0 + v));
  }

  lemma VarianceDefined(v: real, n: real)
    requires v >= 0.0 && n >= 0.0
    ensures 1.0 + n * v >= 1.0
  {
    assert n * v >= 0.0;
  }

  /** Variance and prediction of x at arm j, n updates with x after they were v0 and p0. */
  ghost predicate Pulled(t: LinUcbState, j: nat, x: Vec, v0: real, p0: real, n: real, total: real) {
    && Shaped(t) && j < t.nArms && |x| == t.d && v0 >= 0.0 && n >= 0.0 && 1.0 + n * v0 >= 1.0
    && Quad(t.AInv[j], x) == Variance(v0, n) && Prediction(t, j, x) == Blend(p0, v0, n, total)
  }

  lemma NoPulls(v0: real, p0: real)
    requires v0 >= 0.0
    ensures 1.0 + 0.0 * v0 >= 1.0 && Variance(v0, 0.0) == v0 && Blend(p0, v0, 0.0, 0.0) == p0
  {
    assert v0 / 1.0 == v0 && p0 / 1.0 == p0;
  }

  lemma {:induction false} PulledOnce(t: LinUcbState, h: seq<seq<Obs>>, j: nat, x: Vec, r: real, v0: real, p0: real,
                                      n: real, total: real)
    requires Represents(t, h) && Pulled(t, j, x, v0, p0, n, total)
    ensures Divisor(t, j, x) >= 1.0 && Pulled(Applied(t, j, x, r), j, x, v0, p0, n + 1.0, total + r)
  {
    UpdateShrinksUncertainty(t, h, j, x, r);
    RepeatStep(v0, n, p0, total, r);
    VarianceDefined(v0, n + 1.0);
  }

  lemma {:induction false} PulledRepeatedly(s: LinUcbState, hist: seq<seq<Obs>>, j: nat, x: Vec, rewards: seq<real>,
                                            n: real)
    returns (hist': seq<seq<Obs>>)
    requires Represents(s, hist) && j < s.nArms && |x| == s.d && n == |rewards| as real
    ensures Represents(Trained(s, Repeated(j, x, rewards)), hist')
    ensures Pulled(Trained(s, Repeated(j, x, rewards)), j, x, Quad(s.AInv[j], x), Prediction(s, j, x), n,
              Total(rewards))
  {
    var v0, p0, us := Quad(s.AInv[j], x), Prediction(s, j, x), Repeated(j, x, rewards);
    DivisorAtLeastOne(s, hist, j, x);
    if rewards == [] {
      hist' := hist;
      assert Trained(s, us) == s;
      NoPulls(v0, p0);
    } else {
      var prior, r := rewards[..|rewards| - 1], rewards[|rewards| - 1];
      var h := PulledRepeatedly(s, hist, j, x, prior, n - 1.0);
      assert us[..|us| - 1] == Repeated(j, x, prior);
      var t := Trained(s, Repeated(j, x, prior));
      PulledOnce(t, h, j, x, r, v0, p0, n - 1.0, Total(prior));
      AppliedRepresents(t, h, j, x, r);
      hist' := h[j := h[j] + [Obs(x, r)]];
      assert Trained(s, us) == Applied(t, j, x, r);
    }
  }

  /** n updates of one arm with the same context from any represented state: the variance is
      v0/(1 + n v0), below 1/n, and the prediction is (p0 + v0 Σr)/(1 + n v0). */
  lemma {:induction false} RepeatedContext(s: LinUcbState, hist: seq<seq<Obs>>, j: nat, x: Vec, rewards: seq<real>)
    requires Represents(s, hist) && j < s.nArms && |x| == s.d
    ensures Quad(s.AInv[j], x) >= 0.0 && 1.0 + (|rewards| as real) * Quad(s.AInv[j], x) >= 1.0
    ensures j < |Trained(s, Repeated(j, x, rewards)).AInv| && Shaped(Trained(s, Repeated(j, x, rewards)))
    ensures Quad(Trained(s, Repeated(j, x, rewards)).AInv[j], x) == Variance(Quad(s.AInv[j], x), |rewards| as real)
    ensures rewards != [] ==> Variance(Quad(s.AInv[j], x), |rewards| as real) < 1.0 / (|rewards| as real)
    ensures Prediction(Trained(s, Repeated(j, x, rewards)), j, x)
         == Blend(Prediction(s, j, x), Quad(s.AInv[j], x), |rewards| as real, Total(rewards))
  {
    var hist' := PulledRepeatedly(s, hist, j, x, rewards, |rewards| as real);
    if rewards != [] {
      BelowReciprocal(Quad(s.AInv[j], x), |rewards| as real);
    }
  }

  lemma BelowReciprocal(v0: real, n: real)
    requires v0 >= 0.0 && n > 0.0
    ensures 1.0 + n * v0 > 0.0 && Variance(v0, n) < 1.0 / n
  {
    var m := 1.0 + n * v0;
    assert n * v0 >= 0.0;
    assert v0 / m == (n * v0) / (n * m);
    assert 1.0 / n == m / (n * m);
    assert n * m > 0.0;
  }

  // ---------------------------------------------------------------- the bias coordinate

  /** The contexts the service builds start with a 1 and the rewards are clicks. */
  predicate ClickData(n: nat, d: nat, u: Update) {
    Fits(n, d, u) && d > 0 && u.x[0] == 1.0 && (u.r == 0.0 || u.r == 1.0)
  }

  function Pulls(us: seq<Update>, j: nat): nat {
    if us == [] then 0 else Pulls(us[..|us| - 1], j) + if us[|us| - 1].arm == j then 1 else 0
  }

  function Clicks(us: seq<Update>, j: nat): nat {
    if us == [] then 0
    else Clicks(us[..|us| - 1], j) + if us[|us| - 1].arm == j && us[|us| - 1].r == 1.0 then 1 else 0
  }

  lemma {:induction false} HistoryAppend(us: seq<Update>, j: nat)
    requires us != []
    ensures
      var earlier, u := ArmHistory(us[..|us| - 1], j), us[|us| - 1];
      ArmHistory(us, j) == if u.arm == j then earlier + [Obs(u.x, u.r)] else earlier
  {
    assert ArmHistory(us[..|us| - 1], j) + [] == ArmHistory(us[..|us| - 1], j);
  }

  lemma {:induction false} BiasCounts(us: seq<Update>, n: nat, d: nat, j: nat)
    requires forall u :: u in us ==> Fits(n, d, u) && d > 0 && u.x[0] == 1.0
    ensures SumBy(ContextProduct(0, 0), ArmHistory(us, j)) == Pulls(us, j) as real
    ensures (forall u :: u in us ==> ClickData(n, d, u)) ==>
              SumBy(WeightedContext(0), ArmHistory(us, j)) == Clicks(us, j) as real
  {
    if us != [] {
      var us', u := us[..|us| - 1], us[|us| - 1];
      assert u in us && forall v :: v in us' ==> v in us;
      BiasCounts(us', n, d, j);
      HistoryAppend(us, j);
      SumAppend(ContextProduct(0, 0), ArmHistory(us', j), Obs(u.x, u.r));
      SumAppend(WeightedContext(0), ArmHistory(us', j), Obs(u.x, u.r));
    }
  }

  lemma {:induction false} NoClickNoReward(us: seq<Update>, n: nat, d: nat, j: nat, k: nat)
    requires forall u :: u in us ==> ClickData(n, d, u)
    requires Clicks(us, j) == 0
    ensures SumBy(WeightedContext(k), ArmHistory(us, j)) == 0.0
  {
    if us != [] {
      var us', u := us[..|us| - 1], us[|us| - 1];
      assert u in us && forall v :: v in us' ==> v in us;
      NoClickNoReward(us', n, d, j, k);
      SumAppend(WeightedContext(k), ArmHistory(us', j), Obs(u.x, u.r));
      assert ArmHistory(us', j) + [] == ArmHistory(us', j);
      assert Times(0.0, At(u.x, k)) == 0.0;
    }
  }

  /** The label's exact meaning: an arm is cold exactly when it never received a click,
      however many times it was updated without one. */
  lemma ColdMeansNeverClicked(exploration: seq<real>, d: nat, scale: real, lam: real, us: seq<Update>, j: nat)
    requires lam > 0.0 && d > 0 && j < |exploration|
    requires forall u :: u in us ==> ClickData(|exploration|, d, u)
    ensures Cold(Trained(Fresh(exploration, d, scale, lam), us), j) <==> Clicks(us, j) == 0
    ensures Trained(Fresh(exploration, d, scale, lam), us).b[j][0] == Clicks(us, j) as real
  {
    var s := Trained(Fresh(exploration, d, scale, lam), us);
    TrainedRepresents(exploration, d, scale, lam, us);
    assert ArmRepresents(s, j, Histories(|exploration|, us)[j]);
    BiasCounts(us, |exploration|, d, j);
    if Clicks(us, j) == 0 {
      forall k | 0 <= k < d ensures s.b[j][k] == 0.0 {
        NoClickNoReward(us, |exploration|, d, j, k);
      }
    } else {
      assert s.b[j][0] != Zero(d)[0];
    }
  }

  /** Cold does not mean that no reward was applied: an arm whose only reward is a zero is cold. */
  lemma ColdAfterZeroReward(exploration: seq<real>, d: nat, scale: real, lam: real, j: nat, x: Vec)
    requires lam > 0.0 && d > 0 && j < |exploration| && |x| == d && x[0] == 1.0
    ensures
      var us := [Update(j, x, 0.0)];
      Pulls(us, j) == 1 && Cold(Trained(Fresh(exploration, d, scale, lam), us), j)
  {
    var us := [Update(j, x, 0.0)];
    assert us[..0] == [];
    assert Pulls(us[..0], j) == 0 && Clicks(us[..0], j) == 0;
    ColdMeansNeverClicked(exploration, d, scale, lam, us, j);
  }

  /** The learned matrix remembers how often its arm was updated: runs that leave an arm
      with the same A_inv updated it equally often. */
  lemma MatrixRemembersPulls(exploration: seq<real>, d: nat, scale: real, lam: real, us: seq<Update>, vs: seq<Update>,
                             j: nat)
    requires lam > 0.0 && d > 0 && j < |exploration|
    requires forall u :: u in us || u in vs ==> Fits(|exploration|, d, u) && u.x[0] == 1.0
    requires Trained(Fresh(exploration, d, scale, lam), us).AInv[j]
               == Trained(Fresh(exploration, d, scale, lam), vs).AInv[j]
    ensures Pulls(us, j) == Pulls(vs, j)
  {
    var n, f := |exploration|, Fresh(exploration, d, scale, lam);
    TrainedRepresents(exploration, d, scale, lam, us);
    TrainedRepresents(exploration, d, scale, lam, vs);
    assert ArmRepresents(Trained(f, us), j, Histories(n, us)[j]);
    assert ArmRepresents(Trained(f, vs), j, Histories(n, vs)[j]);
    var G, H := Gram(lam, d, ArmHistory(us, j)), Gram(lam, d, ArmHistory(vs, j));
    InverseIsUnique(G, H, Trained(f, us).AInv[j]);
    BiasCounts(us, n, d, j);
    BiasCounts(vs, n, d, j);
    assert G[0][0] == H[0][0];
  }
}
