/** What the scores of the three models mean, in terms of the history they learned from. */
module Scoring {
  import opened Wrappers
  import opened Clients
  import opened LinearAlgebra
  import opened Ranking
  import opened Kernel
  import opened Ridge
  import opened Catalog
  import opened Context
  import opened Models
  import opened Policies
  import opened Service
  import Audit
  import LinUcb
  import Thompson
  import Baseline
  import Serving
  import Composition

  // ---------------------------------------------------------------- LinUCB

  /** w has the least ridge loss over the history. */
  ghost predicate IsRidgeMinimiser(lam: real, d: nat, h: seq<LinUcb.Obs>, w: Vec) {
    |w| == d && forall v: Vec :: |v| == d ==> Loss(lam, h, w) <= Loss(lam, h, v)
  }

  /** H undoes the Gram matrix lam I + Σ x xᵀ of the history. */
  ghost predicate IsGramInverse(lam: real, d: nat, h: seq<LinUcb.Obs>, H: Mat) {
    Square(H, d) && Undoes(Gram(lam, d, h), H, d)
  }

  function Max(a: real, b: real): real {
    if a >= b then a else b
  }

  /** The trained parameters of arm j are the ones its history determines. */
  lemma {:induction false} ArmParameters(exploration: seq<real>, d: nat, scale: real, lam: real, us: seq<Update>,
                                         j: nat, w: Vec, H: Mat)
    requires lam > 0.0 && j < |exploration| && forall u :: u in us ==> Fits(|exploration|, d, u)
    requires IsRidgeMinimiser(lam, d, ArmHistory(us, j), w) && IsGramInverse(lam, d, ArmHistory(us, j), H)
    ensures
      var s := Trained(LinUcb.Fresh(exploration, d, scale, lam), us);
      && LinUcb.Theta(s, j) == w && s.AInv[j] == H && s.alpha[j] == Times(exploration[j], scale)
      && s.b[j] == RewardSum(d, ArmHistory(us, j)) && s.d == d
  {
    var s, h := Trained(LinUcb.Fresh(exploration, d, scale, lam), us), ArmHistory(us, j);
    TrainedRepresents(exploration, d, scale, lam, us);
    assert ArmRepresents(s, j, Histories(|exploration|, us)[j]);
    InverseIsUnique(s.AInv[j], H, Gram(lam, d, h));
    ThetaIsRidgeMinimiser(exploration, d, scale, lam, us, j, w);
    assert Loss(lam, h, w) <= Loss(lam, h, LinUcb.Theta(s, j));
  }

  /** An entry of a ranking in terms of the state it was computed from. */
  lemma {:induction false} EntryOfState(s: LinUcb.LinUcbState, x: Vec, mask: seq<bool>, exclude: seq<nat>,
                                        root: real -> real, e: RankedArm)
    requires LinUcb.Shaped(s) && |x| == s.d && e in LinUcb.Ranked(s, x, mask, exclude, root)
    ensures e.arm < s.nArms && Kept(e.arm, mask, exclude)
    ensures e.pred == Dot(LinUcb.Theta(s, e.arm), x)
    ensures e.bonus == Times(s.alpha[e.arm], root(Max(Quad(s.AInv[e.arm], x), 0.000000001)))
    ensures e.score == e.pred + e.bonus
    ensures e.reasons == ["policy:linucb", Label(s.b[e.arm] == Zero(s.d), e.pred, e.bonus)]
  {
    SortedRowsContract(ByScore, s.nArms, mask, exclude, LinUcb.Row(s, x, root));
    assert e == LinUcb.Row(s, x, root)(e.arm);
    RowFields(s, x, root, e.arm);
    BonusIs(s, x, root, e.arm);
    LabelIs(s, e.arm, e.pred, e.bonus);
  }

  lemma BonusIs(s: LinUcb.LinUcbState, x: Vec, root: real -> real, j: nat)
    requires LinUcb.Shaped(s) && |x| == s.d && j < s.nArms
    ensures LinUcb.Bonus(s, j, x, root) == Times(s.alpha[j], root(Max(Quad(s.AInv[j], x), 0.000000001)))
  {
    var v := Quad(s.AInv[j], x);
    assert LinUcb.Floored(v) == Max(v, 0.000000001);
  }

  lemma LabelIs(s: LinUcb.LinUcbState, j: nat, pred: real, bonus: real)
    requires LinUcb.Shaped(s) && j < s.nArms
    ensures LinUcb.Reasons(s, j, pred, bonus) == ["policy:linucb", Label(s.b[j] == Zero(s.d), pred, bonus)]
  {
  }

  lemma {:induction false} RowFields(s: LinUcb.LinUcbState, x: Vec, root: real -> real, j: nat)
    requires LinUcb.Shaped(s) && |x| == s.d && j < s.nArms
    ensures
      var e := LinUcb.Row(s, x, root)(j);
      && e.pred == LinUcb.Prediction(s, j, x) && e.bonus == LinUcb.Bonus(s, j, x, root) && e.score == e.pred + e.bonus
      && e.reasons == LinUcb.Reasons(s, j, e.pred, e.bonus)
  {
  }

  /** The second reason code of the learning models. */
  function Label(cold: bool, pred: real, bonus: real): string {
    if cold then "cold_start" else if bonus > pred && bonus > -pred then "explore" else "exploit"
  }

  /** An entry of a LinUCB ranking: the prediction is w·x for the ridge minimiser w of the arm's own
      history, the bonus is exploration times scale times the root of the floored variance, and the
      score is their sum. The label is cold while the summed rewards are zero, then whichever of bonus
      and prediction is larger. */
  lemma {:induction false} LinUcbScores(exploration: seq<real>, d: nat, scale: real, lam: real, us: seq<Update>,
                                        x: Vec, mask: seq<bool>, exclude: seq<nat>, root: real -> real, e: RankedArm,
                                        w: Vec, H: Mat)
    requires lam > 0.0 && |x| == d && forall u :: u in us ==> Fits(|exploration|, d, u)
    requires e in LinUcb.Ranked(Trained(LinUcb.Fresh(exploration, d, scale, lam), us), x, mask, exclude, root)
    requires IsRidgeMinimiser(lam, d, ArmHistory(us, e.arm), w) && IsGramInverse(lam, d, ArmHistory(us, e.arm), H)
    ensures e.arm < |exploration| && Kept(e.arm, mask, exclude)
    ensures e.pred == Dot(w, x)
    ensures e.bonus == Times(Times(exploration[e.arm], scale), root(Max(Dot(x, MatVec(H, x)), 0.000000001)))
    ensures e.score == e.pred + e.bonus
    ensures e.reasons
         == ["policy:linucb", Label(RewardSum(d, ArmHistory(us, e.arm)) == Zero(d), e.pred, e.bonus)]
  {
    var s := Trained(LinUcb.Fresh(exploration, d, scale, lam), us);
    EntryOfState(s, x, mask, exclude, root, e);
    ArmParameters(exploration, d, scale, lam, us, e.arm, w, H);
  }

  /** Such w and H exist, so the law above applies to every entry. */
  lemma {:induction false} HistoryDetermines(exploration: seq<real>, d: nat, scale: real, lam: real,
                                             us: seq<Update>, j: nat)
    returns (w: Vec, H: Mat)
    requires lam > 0.0 && j < |exploration| && forall u :: u in us ==> Fits(|exploration|, d, u)
    ensures IsRidgeMinimiser(lam, d, ArmHistory(us, j), w) && IsGramInverse(lam, d, ArmHistory(us, j), H)
  {
    var s := Trained(LinUcb.Fresh(exploration, d, scale, lam), us);
    TrainedRepresents(exploration, d, scale, lam, us);
    assert ArmRepresents(s, j, Histories(|exploration|, us)[j]);
    w, H := LinUcb.Theta(s, j), s.AInv[j];
    forall v: Vec | |v| == d ensures Loss(lam, ArmHistory(us, j), w) <= Loss(lam, ArmHistory(us, j), v) {
      ThetaIsRidgeMinimiser(exploration, d, scale, lam, us, j, v);
    }
  }

  /** A fresh model explores: its ranking is in the order of the exploration factors. */
  lemma {:induction false} FreshExplores(exploration: seq<real>, d: nat, scale: real, lam: real, x: Vec,
                                         mask: seq<bool>, exclude: seq<nat>, root: real -> real, i: nat, k: nat)
    requires lam > 0.0 && scale > 0.0 && |x| == d && (forall v :: v >= 0.000000001 ==> root(v) > 0.0)
    requires i < k < |LinUcb.Ranked(LinUcb.Fresh(exploration, d, scale, lam), x, mask, exclude, root)|
    ensures
      var ranked := LinUcb.Ranked(LinUcb.Fresh(exploration, d, scale, lam), x, mask, exclude, root);
      var a, b := ranked[i].arm, ranked[k].arm;
      && a < |exploration| && b < |exploration|
      && (exploration[a] > exploration[b] || (exploration[a] == exploration[b] && a < b))
  {
    var s := LinUcb.Fresh(exploration, d, scale, lam);
    var ranked := LinUcb.Ranked(s, x, mask, exclude, root);
    SortedRowsContract(ByScore, s.nArms, mask, exclude, LinUcb.Row(s, x, root));
    var a, b := ranked[i], ranked[k];
    assert a in ranked && b in ranked && Precedes(a, b);
    FreshEntry(exploration, d, scale, lam, x, mask, exclude, root, a);
    FreshEntry(exploration, d, scale, lam, x, mask, exclude, root, b);
    OrderOfFactors(exploration[a.arm], exploration[b.arm], scale,
                   root(Max(Quad(ScaledIdentity(d, 1.0 / lam), x), 0.000000001)));
  }

  lemma FreshPrediction(d: nat, lam: real, x: Vec)
    requires lam > 0.0 && |x| == d
    ensures Dot(MatVec(ScaledIdentity(d, 1.0 / lam), Zero(d)), x) == 0.0
  {
    MatVecZero(ScaledIdentity(d, 1.0 / lam));
    DotComm(Zero(d), x);
    DotZero(x);
  }

  lemma {:induction false} FreshEntry(exploration: seq<real>, d: nat, scale: real, lam: real, x: Vec,
                                      mask: seq<bool>, exclude: seq<nat>, root: real -> real, e: RankedArm)
    requires lam > 0.0 && |x| == d
    requires e in LinUcb.Ranked(LinUcb.Fresh(exploration, d, scale, lam), x, mask, exclude, root)
    ensures e.arm < |exploration|
    ensures e.score
         == Times(Times(exploration[e.arm], scale), root(Max(Quad(ScaledIdentity(d, 1.0 / lam), x), 0.000000001)))
  {
    EntryOfState(LinUcb.Fresh(exploration, d, scale, lam), x, mask, exclude, root, e);
    FreshPrediction(d, lam, x);
  }

  lemma OrderOfFactors(a: real, b: real, scale: real, c: real)
    requires scale > 0.0 && c > 0.0
    ensures Times(Times(a, scale), c) > Times(Times(b, scale), c) <==> a > b
    ensures Times(Times(a, scale), c) == Times(Times(b, scale), c) <==> a == b
  {
    if a > b {
      ScaleUp(a, b, scale);
      ScaleUp(Times(a, scale), Times(b, scale), c);
    } else if a < b {
      ScaleUp(b, a, scale);
      ScaleUp(Times(b, scale), Times(a, scale), c);
    }
  }

  lemma ScaleUp(a: real, b: real, c: real)
    requires a > b && c > 0.0
    ensures Times(a, c) > Times(b, c)
  {
  }

  // ---------------------------------------------------------------- Thompson sampling

  /** The mean of Beta(1 + clicks, 1 + misses). */
  function PosteriorMean(clicks: nat, pulls: nat): real {
    (1.0 + clicks as real) / (2.0 + pulls as real)
  }

  /** An entry of a Thompson ranking: the score is the arm's draw, the prediction the mean of its
      posterior, the bonus their difference. */
  lemma {:induction false} ThompsonScores(n: nat, us: seq<Update>, samples: seq<real>, mask: seq<bool>,
                                          exclude: seq<nat>, e: RankedArm)
    requires |samples| == n && forall u :: u in us ==> u.r == 0.0 || u.r == 1.0
    requires e in Thompson.Ranked(Thompson.Trained(Thompson.Fresh(n), us), samples, mask, exclude)
    ensures e.arm < n && Kept(e.arm, mask, exclude)
    ensures e.score == samples[e.arm]
    ensures e.pred == PosteriorMean(Clicks(us, e.arm), Pulls(us, e.arm))
    ensures e.bonus == e.score - e.pred
    ensures e.reasons == ["policy:thompson", Label(Pulls(us, e.arm) == 0, e.pred, e.bonus)]
  {
    var s := Thompson.Trained(Thompson.Fresh(n), us);
    SortedRowsContract(ByScore, s.nArms, mask, exclude, Thompson.Row(s, samples));
    assert e == Thompson.Row(s, samples)(e.arm);
    ThompsonRow(s, samples, e.arm);
    PosteriorMeanIs(n, us, e.arm);
    Thompson.ColdMeansNeverUpdated(n, us, e.arm);
  }

  lemma ThompsonRow(s: Thompson.ThompsonState, samples: seq<real>, j: nat)
    requires Thompson.Shaped(s) && |samples| == s.nArms && j < s.nArms
    ensures
      var e := Thompson.Row(s, samples)(j);
      && e.score == samples[j] && e.pred == s.alpha[j] / (s.alpha[j] + s.beta[j]) && e.bonus == e.score - e.pred
      && e.reasons == ["policy:thompson", Label(Thompson.Cold(s, j), e.pred, e.bonus)]
  {
  }

  lemma PosteriorMeanIs(n: nat, us: seq<Update>, j: nat)
    requires j < n && forall u :: u in us ==> u.r == 0.0 || u.r == 1.0
    ensures
      var s := Thompson.Trained(Thompson.Fresh(n), us);
      s.alpha[j] / (s.alpha[j] + s.beta[j]) == PosteriorMean(Clicks(us, j), Pulls(us, j))
  {
    Thompson.ParametersCount(n, us, j);
  }

  // ---------------------------------------------------------------- the baseline

  /** An entry of a baseline ranking: one for the target category, zero for the others. */
  lemma {:induction false} BaselineScores(categories: seq<string>, target: string, mask: seq<bool>,
                                          exclude: seq<nat>, e: RankedArm)
    requires e in Baseline.Ranked(categories, target, mask, exclude)
    ensures e.arm < |categories| && Kept(e.arm, mask, exclude)
    ensures e.score == e.pred == (if categories[e.arm] == target then 1.0 else 0.0) && e.bonus == 0.0
    ensures e.reasons == ["policy:baseline", "target_category:" + target]
  {
    SortedRowsContract(ByScoreThenArm, |categories|, mask, exclude, Baseline.Row(categories, target));
    assert e == Baseline.Row(categories, target)(e.arm);
  }

  /** The rules of the baseline as a table: wealth or experience asks for investments, age or property
      for insurance, open credit, no card or youth for credit, a family for insurance; what is left is
      decided by the income. Earlier groups win. */
  lemma TargetRules(client: Client, segments: seq<string>, parse: Parser)
    requires ToFloat(GetOr(client, INCOME, Num(0.0)), parse).Some?
    ensures
      var income := ToFloat(GetOr(client, INCOME, Num(0.0)), parse).value;
      var rich := ("segmento" in client && client["segmento"] == Text("01 - ALTA RENDA"))
                  || "SEG-VIP" in segments || "SEG-INVESTIDOR-EXPERIENTE" in segments;
      var settled := "SEG-SENIOR" in segments || "SEG-PROPRIETARIO" in segments;
      var borrower := "SEG-CREDITO-ATIVO" in segments || "SEG-SEM-CARTAO" in segments || "SEG-JOVEM" in segments;
      var family := "SEG-PERFIL-FAMILIAR" in segments;
      var target := Baseline.TargetCategory(client, segments, parse);
      && (target == Some("investimento") <==> rich || (!settled && !borrower && !family && income > 80000.0))
      && (target == Some("seguro") <==> !rich && (settled || (!borrower && family)))
      && (target == Some("credito") <==> !rich && !settled && (borrower || (!family && income <= 80000.0)))
  {
  }

  // ---------------------------------------------------------------- what is served

  /** Behind an offer of an answer is the ranked arm at its place. */
  lemma {:induction false} OfferBehind(cat: Catalog, cb: ContextBuilder, m: ModelState, pol: ResolvedPolicy,
                                       client: Client, segments: seq<string>, top: Option<int>,
                                       excludeIds: seq<string>, samples: seq<real>, env: Env, i: nat)
    returns (x: Vec, mask: seq<bool>, ranked: seq<RankedArm>)
    requires cb.Valid() && Usable(m, |cat.offers|, cb.Dim()) && |samples| == |cat.offers|
    requires RankOutcome(cat, cb, m, pol, client, segments, top, excludeIds, samples, env).Ok?
    requires i < |RankOutcome(cat, cb, m, pol, client, segments, top, excludeIds, samples, env).value.ranked|
    ensures Context.Build(cb, Audit.StripProtected(client), segments, env.parse) == Some(x)
    ensures |mask| == |cat.offers|
    ensures RankModel(m, |cat.offers|, cb.Dim(), x, Audit.StripProtected(client), segments, mask,
                      ExcludedIndices(cat, excludeIds), samples, env) == Some(ranked)
    ensures i < |ranked| && ranked[i].arm < |cat.offers|
    ensures
      var o := RankOutcome(cat, cb, m, pol, client, segments, top, excludeIds, samples, env).value.ranked[i];
      && o.rank == i + 1 && o.armId == cat.offers[ranked[i].arm].armId
      && o.score == ranked[i].score && o.pred == ranked[i].pred && o.bonus == ranked[i].bonus
      && o.reasons == ranked[i].reasons
  {
    var c := Audit.StripProtected(client);
    var arms := RankArms(cat, cb, m, c, segments, excludeIds, samples, env).value;
    x, mask, ranked := Context.Build(cb, c, segments, env.parse).value, arms.0, arms.1;
    Serving.TopIsPrefix(Offers(cat, ranked), top);
  }

  /** The weights of a LinUCB policy of this catalogue after these updates. */
  function LinUcbWeights(cat: Catalog, d: nat, us: seq<Update>): (m: ModelState)
    ensures Usable(m, |cat.offers|, d)
  {
    Composition.LearnAllLinear(LinUcb.Fresh(cat.Exploration(), d, 0.2, 1.0), us);
    assert "linucb" in ALGORITHMS by { assert ALGORITHMS[0] == "linucb"; }
    LearnAll(FreshModel("linucb", cat, d), us)
  }

  lemma LinUcbWeightsAre(cat: Catalog, d: nat, us: seq<Update>)
    ensures LinUcbWeights(cat, d, us) == Linear(Trained(LinUcb.Fresh(cat.Exploration(), d, 0.2, 1.0), us))
  {
    Composition.LearnAllLinear(LinUcb.Fresh(cat.Exploration(), d, 0.2, 1.0), us);
  }

  /** The entry of arm j behind its offer in an answer, and the context it was scored in. */
  lemma {:induction false} EntryBehind(cat: Catalog, cb: ContextBuilder, m: ModelState, pol: ResolvedPolicy,
                                       client: Client, segments: seq<string>, top: Option<int>,
                                       excludeIds: seq<string>, samples: seq<real>, env: Env, o: RankedOffer, j: nat)
    returns (x: Vec, mask: seq<bool>, ranked: seq<RankedArm>, e: RankedArm)
    requires cb.Valid() && Usable(m, |cat.offers|, cb.Dim()) && |samples| == |cat.offers|
    requires RankOutcome(cat, cb, m, pol, client, segments, top, excludeIds, samples, env).Ok?
    requires o in RankOutcome(cat, cb, m, pol, client, segments, top, excludeIds, samples, env).value.ranked
    requires cat.DistinctArms() && j < |cat.offers| && o.armId == cat.offers[j].armId
    ensures Context.Build(cb, client - {"sexo"}, segments, env.parse) == Some(x)
    ensures RankModel(m, |cat.offers|, cb.Dim(), x, client - {"sexo"}, segments, mask,
                      ExcludedIndices(cat, excludeIds), samples, env) == Some(ranked)
    ensures e in ranked && e.arm == j && o.score == e.score && o.pred == e.pred && o.bonus == e.bonus
  {
    var i := PlaceOf(RankOutcome(cat, cb, m, pol, client, segments, top, excludeIds, samples, env).value.ranked, o);
    x, mask, ranked := OfferBehind(cat, cb, m, pol, client, segments, top, excludeIds, samples, env, i);
    Stripped(client);
    e := ranked[i];
  }

  lemma PlaceOf<T>(s: seq<T>, x: T) returns (i: nat)
    requires x in s
    ensures i < |s| && s[i] == x
  {
    i :| 0 <= i < |s| && s[i] == x;
  }

  lemma Stripped(client: Client)
    ensures Audit.StripProtected(client) == client - {"sexo"}
  {
  }

  lemma LinUcbEntries(cat: Catalog, us: seq<Update>, d: nat, x: Vec, c: Client, segments: seq<string>,
                      mask: seq<bool>, exclude: seq<nat>, samples: seq<real>, env: Env)
    requires |x| == d && |samples| == |cat.offers|
    ensures RankModel(LinUcbWeights(cat, d, us), |cat.offers|, d, x, c, segments, mask, exclude, samples, env)
         == Some(LinUcb.Ranked(Trained(LinUcb.Fresh(cat.Exploration(), d, 0.2, 1.0), us), x, mask, exclude, env.root))
  {
    LinUcbWeightsAre(cat, d, us);
  }

  /** What a trained LinUCB policy serves: for each offer, the ridge prediction for the stripped client
      plus the arm's exploration factor times 0.2 times the root of the floored variance, the history
      being the arm's own and the ridge weight one. */
  lemma {:induction false} ServedLinUcbScores(cat: Catalog, cb: ContextBuilder, us: seq<Update>, pol: ResolvedPolicy,
                                              client: Client, segments: seq<string>, top: Option<int>,
                                              excludeIds: seq<string>, samples: seq<real>, env: Env, o: RankedOffer,
                                              j: nat, w: Vec, H: Mat)
    returns (x: Vec)
    requires cb.Valid() && |samples| == |cat.offers| && cat.DistinctArms() && j < |cat.offers|
    requires forall u :: u in us ==> Fits(|cat.offers|, cb.Dim(), u)
    requires
      var outcome := RankOutcome(cat, cb, LinUcbWeights(cat, cb.Dim(), us), pol, client, segments, top, excludeIds,
                                 samples, env);
      outcome.Ok? && o in outcome.value.ranked && o.armId == cat.offers[j].armId
    requires IsRidgeMinimiser(1.0, cb.Dim(), ArmHistory(us, j), w)
    requires IsGramInverse(1.0, cb.Dim(), ArmHistory(us, j), H)
    ensures Context.Build(cb, client - {"sexo"}, segments, env.parse) == Some(x)
    ensures o.pred == Dot(w, x)
    ensures o.bonus == Times(Times(cat.offers[j].exploration, 0.2), env.root(Max(Dot(x, MatVec(H, x)), 0.000000001)))
    ensures o.score == o.pred + o.bonus
  {
    var m, d, exclude := LinUcbWeights(cat, cb.Dim(), us), cb.Dim(), ExcludedIndices(cat, excludeIds);
    var mask, ranked, e;
    x, mask, ranked, e := EntryBehind(cat, cb, m, pol, client, segments, top, excludeIds, samples, env, o, j);
    LinUcbEntries(cat, us, d, x, client - {"sexo"}, segments, mask, exclude, samples, env);
    LinUcbScores(cat.Exploration(), d, 0.2, 1.0, us, x, mask, exclude, env.root, e, w, H);
  }

  function ThompsonWeights(cat: Catalog, us: seq<Update>): (m: ModelState)
    ensures forall d: nat :: Usable(m, |cat.offers|, d)
  {
    Composition.LearnAllBeta(Thompson.Fresh(|cat.offers|), us);
    assert "thompson" in ALGORITHMS by { assert ALGORITHMS[1] == "thompson"; }
    LearnAll(FreshModel("thompson", cat, 0), us)
  }

  lemma ThompsonEntries(cat: Catalog, us: seq<Update>, d: nat, x: Vec, c: Client, segments: seq<string>,
                        mask: seq<bool>, exclude: seq<nat>, samples: seq<real>, env: Env)
    requires |x| == d && |samples| == |cat.offers|
    ensures RankModel(ThompsonWeights(cat, us), |cat.offers|, d, x, c, segments, mask, exclude, samples, env)
         == Some(Thompson.Ranked(Thompson.Trained(Thompson.Fresh(|cat.offers|), us), samples, mask, exclude))
  {
    Composition.LearnAllBeta(Thompson.Fresh(|cat.offers|), us);
  }

  /** What a Thompson policy serves: the draws of the arms, with the means of their clicks. */
  lemma {:induction false} ServedThompsonScores(cat: Catalog, cb: ContextBuilder, us: seq<Update>,
                                                pol: ResolvedPolicy, client: Client, segments: seq<string>,
                                                top: Option<int>, excludeIds: seq<string>, samples: seq<real>,
                                                env: Env, o: RankedOffer, j: nat)
    requires cb.Valid() && |samples| == |cat.offers| && cat.DistinctArms() && j < |cat.offers|
    requires forall u :: u in us ==> u.r == 0.0 || u.r == 1.0
    requires
      var outcome := RankOutcome(cat, cb, ThompsonWeights(cat, us), pol, client, segments, top, excludeIds, samples,
                                 env);
      outcome.Ok? && o in outcome.value.ranked && o.armId == cat.offers[j].armId
    ensures o.score == samples[j] && o.bonus == o.score - o.pred
    ensures o.pred == PosteriorMean(Clicks(us, j), Pulls(us, j))
  {
    var exclude := ExcludedIndices(cat, excludeIds);
    var x, mask, ranked, e := EntryBehind(cat, cb, ThompsonWeights(cat, us), pol, client, segments, top, excludeIds,
                                          samples, env, o, j);
    ThompsonEntries(cat, us, cb.Dim(), x, client - {"sexo"}, segments, mask, exclude, samples, env);
    ThompsonScores(|cat.offers|, us, samples, mask, exclude, e);
  }

  function BaselineWeights(cat: Catalog): (m: ModelState)
    ensures forall d: nat :: Usable(m, |cat.offers|, d)
  {
    assert "baseline" in ALGORITHMS by { assert ALGORITHMS[2] == "baseline"; }
    FreshModel("baseline", cat, 0)
  }

  lemma BaselineEntries(cat: Catalog, d: nat, x: Vec, c: Client, segments: seq<string>, mask: seq<bool>,
                        exclude: seq<nat>, samples: seq<real>, env: Env)
    requires |x| == d && |samples| == |cat.offers|
    requires RankModel(BaselineWeights(cat), |cat.offers|, d, x, c, segments, mask, exclude, samples, env).Some?
    ensures Baseline.TargetCategory(c, segments, env.parse).Some?
    ensures RankModel(BaselineWeights(cat), |cat.offers|, d, x, c, segments, mask, exclude, samples, env)
         == Some(Baseline.Ranked(cat.Categories(), Baseline.TargetCategory(c, segments, env.parse).value, mask,
                                 exclude))
  {
  }

  /** What the baseline serves: one for the offers of the stripped client's target category. */
  lemma {:induction false} ServedBaselineScores(cat: Catalog, cb: ContextBuilder, pol: ResolvedPolicy, client: Client,
                                                segments: seq<string>, top: Option<int>, excludeIds: seq<string>,
                                                samples: seq<real>, env: Env, o: RankedOffer, j: nat)
    requires cb.Valid() && |samples| == |cat.offers| && cat.DistinctArms() && j < |cat.offers|
    requires
      var outcome := RankOutcome(cat, cb, BaselineWeights(cat), pol, client, segments, top, excludeIds, samples, env);
      outcome.Ok? && o in outcome.value.ranked && o.armId == cat.offers[j].armId
    ensures
      var target := Baseline.TargetCategory(client - {"sexo"}, segments, env.parse);
      && target.Some? && o.score == o.pred == (if cat.offers[j].category == target.value then 1.0 else 0.0)
      && o.bonus == 0.0
  {
    var exclude := ExcludedIndices(cat, excludeIds);
    var x, mask, ranked, e := EntryBehind(cat, cb, BaselineWeights(cat), pol, client, segments, top, excludeIds,
                                          samples, env, o, j);
    BaselineEntries(cat, cb.Dim(), x, client - {"sexo"}, segments, mask, exclude, samples, env);
    var target := Baseline.TargetCategory(client - {"sexo"}, segments, env.parse).value;
    BaselineScores(cat.Categories(), target, mask, exclude, e);
  }
}
