/** Non-interference: the protected attribute cannot influence weights, rankings or audits. */
module Fairness {
  import opened Wrappers
  import opened Clients
  import opened LinearAlgebra
  import opened Kernel
  import opened Catalog
  import opened Context
  import opened Models
  import opened Policies
  import opened Service
  import Audit

  /** One call of the service, with its policy already resolved. */
  datatype Event =
    | Ranking(pol: ResolvedPolicy, client: Client, segments: seq<string>, top: Option<int>, excludeIds: seq<string>,
              samples: seq<real>)
    | Learning(pol: ResolvedPolicy, armId: string, reward: real, client: Client, segments: seq<string>)

  /** The stored weights; a missing key is read as the start model. */
  type Weights = map<string, ModelState>

  predicate WellFormed(cat: Catalog, e: Event) {
    e.pol.algorithm in ALGORITHMS && (e.Ranking? ==> |e.samples| == |cat.offers|)
  }

  ghost predicate FitWeights(cat: Catalog, cb: ContextBuilder, w: Weights) {
    cb.Valid() && forall p :: p in w ==> Fitting(w[p], |cat.offers|, cb.Dim())
  }

  function Read(cat: Catalog, cb: ContextBuilder, w: Weights, pol: ResolvedPolicy): ModelState
    requires pol.algorithm in ALGORITHMS
  {
    if pol.policyId in w then w[pol.policyId] else FreshModel(pol.algorithm, cat, cb.Dim())
  }

  /** The weights after a call: both kinds initialise, learning also applies the event. */
  function After(cat: Catalog, cb: ContextBuilder, env: Env, w: Weights, e: Event): Weights
    requires cb.Valid() && WellFormed(cat, e)
  {
    var m := Read(cat, cb, w, e.pol);
    match e
    case Ranking(pol, _, _, _, _, _) => w[pol.policyId := m]
    case Learning(pol, armId, reward, client, segments) =>
      match IndexOf(cat.offers, armId)
      case None => w
      case Some(j) =>
        match UpdateOutcome(cb, m, j, reward, client, segments, env)
        case Ok(m') => w[pol.policyId := m']
        case Err(_) => w[pol.policyId := m]
  }

  /** What the caller of a ranking gets; learning calls answer nothing that depends on the client. */
  ghost function Answer(cat: Catalog, cb: ContextBuilder, env: Env, w: Weights, e: Event): Option<Result<RankResponse>>
    requires FitWeights(cat, cb, w) && WellFormed(cat, e)
  {
    match e
    case Learning(_, _, _, _, _) => None
    case Ranking(pol, client, segments, top, excludeIds, samples) =>
      FreshFits(pol.algorithm, cat, cb.Dim());
      Some(RankOutcome(cat, cb, Read(cat, cb, w, pol), pol, client, segments, top, excludeIds, samples, env))
  }

  function RunAll(cat: Catalog, cb: ContextBuilder, env: Env, w: Weights, es: seq<Event>): Weights
    requires cb.Valid() && forall i :: 0 <= i < |es| ==> WellFormed(cat, es[i])
  {
    if es == [] then w else After(cat, cb, env, RunAll(cat, cb, env, w, es[..|es| - 1]), es[|es| - 1])
  }

  lemma AfterFits(cat: Catalog, cb: ContextBuilder, env: Env, w: Weights, e: Event)
    requires FitWeights(cat, cb, w) && WellFormed(cat, e)
    ensures FitWeights(cat, cb, After(cat, cb, env, w, e))
  {
    FreshFits(e.pol.algorithm, cat, cb.Dim());
    var m := Read(cat, cb, w, e.pol);
    if e.Learning? {
      match IndexOf(cat.offers, e.armId)
      case None =>
      case Some(j) =>
        match Context.Build(cb, e.client, e.segments, env.parse)
        case None =>
        case Some(x) => LearnFits(m, |cat.offers|, cb.Dim(), Update(j, x, e.reward));
    }
  }

  lemma {:induction false} RunFits(cat: Catalog, cb: ContextBuilder, env: Env, w: Weights, es: seq<Event>)
    requires FitWeights(cat, cb, w) && forall i :: 0 <= i < |es| ==> WellFormed(cat, es[i])
    ensures FitWeights(cat, cb, RunAll(cat, cb, env, w, es))
  {
    if es != [] {
      RunFits(cat, cb, env, w, es[..|es| - 1]);
      AfterFits(cat, cb, env, RunAll(cat, cb, env, w, es[..|es| - 1]), es[|es| - 1]);
    }
  }

  // ---------------------------------------------------------------- the two-run property

  /** Clients that differ at most in protected attributes. */
  ghost predicate TwinClients(c1: Client, c2: Client) {
    forall k :: k !in Audit.PROTECTED_ATTRIBUTES ==> (k in c1 <==> k in c2) && (k in c1 ==> c1[k] == c2[k])
  }

  ghost predicate TwinEvents(e1: Event, e2: Event) {
    TwinClients(e1.client, e2.client) &&
    match (e1, e2)
    case (Ranking(p, c, s, t, x, d), Ranking(_, c', _, _, _, _)) => e2 == Ranking(p, c', s, t, x, d)
    case (Learning(p, a, r, c, s), Learning(_, _, _, c', _)) => e2 == Learning(p, a, r, c', s)
    case _ => false
  }

  /** Equal events up to protected attributes, one by one. */
  ghost predicate TwinRuns(cat: Catalog, es1: seq<Event>, es2: seq<Event>) {
    && |es1| == |es2|
    && (forall i :: 0 <= i < |es1| ==> TwinEvents(es1[i], es2[i]))
    && (forall i :: 0 <= i < |es1| ==> WellFormed(cat, es1[i]) && WellFormed(cat, es2[i]))
  }

  /** No pair of twin runs can be told apart by the stored weights. */
  ghost predicate WeightsBlind(cat: Catalog, cb: ContextBuilder, env: Env)
    requires cb.Valid()
  {
    forall w: Weights, es1: seq<Event>, es2: seq<Event> :: TwinRuns(cat, es1, es2) ==>
      RunAll(cat, cb, env, w, es1) == RunAll(cat, cb, env, w, es2)
  }

  lemma {:induction false} TwinsLearnAlike(cat: Catalog, cb: ContextBuilder, env: Env, w: Weights, es1: seq<Event>,
                                           es2: seq<Event>)
    requires cb.Valid() && TwinRuns(cat, es1, es2)
    requires forall k :: k in cb.ctxCols ==> k !in Audit.PROTECTED_ATTRIBUTES
    ensures RunAll(cat, cb, env, w, es1) == RunAll(cat, cb, env, w, es2)
  {
    if es1 != [] {
      var k := |es1| - 1;
      TwinsLearnAlike(cat, cb, env, w, es1[..k], es2[..k]);
      assert TwinEvents(es1[k], es2[k]);
      NumbersLocal(cb.ctxCols, cb.mu, cb.sd, es1[k].client, es2[k].client, env.parse);
    }
  }

  /** Rankings and audits never depend on the protected attribute, context column or not. */
  lemma TwinsAnswerAlike(cat: Catalog, cb: ContextBuilder, env: Env, w: Weights, e1: Event, e2: Event)
    requires FitWeights(cat, cb, w) && TwinEvents(e1, e2) && WellFormed(cat, e1) && WellFormed(cat, e2)
    ensures Answer(cat, cb, env, w, e1) == Answer(cat, cb, env, w, e2)
  {
    Audit.StripForgets(e1.client, e2.client);
  }

  /** Fairness as a two-run property: runs that differ only in protected values keep equal
      weights, and the next ranking and its audit block are equal too. */
  lemma Fairness(cat: Catalog, cb: ContextBuilder, env: Env, w: Weights, es1: seq<Event>, es2: seq<Event>, e1: Event,
                 e2: Event)
    requires FitWeights(cat, cb, w) && TwinRuns(cat, es1, es2)
    requires TwinEvents(e1, e2) && WellFormed(cat, e1) && WellFormed(cat, e2)
    requires "sexo" !in cb.ctxCols
    ensures RunAll(cat, cb, env, w, es1) == RunAll(cat, cb, env, w, es2)
    ensures FitWeights(cat, cb, RunAll(cat, cb, env, w, es1))
    ensures Answer(cat, cb, env, RunAll(cat, cb, env, w, es1), e1)
              == Answer(cat, cb, env, RunAll(cat, cb, env, w, es2), e2)
  {
    TwinsLearnAlike(cat, cb, env, w, es1, es2);
    RunFits(cat, cb, env, w, es1);
    TwinsAnswerAlike(cat, cb, env, RunAll(cat, cb, env, w, es1), e1, e2);
  }

  // ---------------------------------------------------------------- and its exact condition

  lemma {:induction false} NumbersAt(cols: seq<string>, mu: seq<real>, sd: seq<real>, client: Client, parse: Parser,
                                     i: nat)
    requires |mu| == |sd| == |cols| && forall k :: 0 <= k < |sd| ==> sd[k] != 0.0
    requires i < |cols| && forall k :: k in client ==> client[k].Num?
    ensures Numbers(cols, mu, sd, client, parse).Some?
    ensures Numbers(cols, mu, sd, client, parse).value[i]
         == ((if cols[i] in client then client[cols[i]].n else 0.0) - mu[i]) / sd[i]
  {
    if i > 0 {
      NumbersAt(cols[1..], mu[1..], sd[1..], client, parse, i - 1);
    } else if |cols| > 1 {
      NumbersAt(cols[1..], mu[1..], sd[1..], client, parse, 0);
    }
  }

  lemma ShiftedQuotients(mu: real, sd: real)
    requires sd != 0.0
    ensures (0.0 - mu) / sd != (1.0 - mu) / sd
  {
    assert ((0.0 - mu) / sd) * sd != ((1.0 - mu) / sd) * sd;
  }

  lemma SkewedContexts(cb: ContextBuilder, parse: Parser, c1: Client, c2: Client) returns (x1: Vec, x2: Vec, i: nat)
    requires cb.Valid() && "sexo" in cb.ctxCols
    requires c1 == map["sexo" := Num(0.0)] && c2 == map["sexo" := Num(1.0)]
    ensures Context.Build(cb, c1, [], parse) == Some(x1) && Context.Build(cb, c2, [], parse) == Some(x2)
    ensures i < cb.Dim() && |x1| == |x2| == cb.Dim() && x1[i] != x2[i]
  {
    var k :| 0 <= k < |cb.ctxCols| && cb.ctxCols[k] == "sexo";
    NumbersAt(cb.ctxCols, cb.mu, cb.sd, c1, parse, k);
    NumbersAt(cb.ctxCols, cb.mu, cb.sd, c2, parse, k);
    ShiftedQuotients(cb.mu[k], cb.sd[k]);
    x1, x2, i := Context.Build(cb, c1, [], parse).value, Context.Build(cb, c2, [], parse).value, k + 1;
  }

  /** Clicks with different contexts leave different weights. */
  lemma SkewedClicks(start: ModelState, n: nat, d: nat, j: nat, x1: Vec, x2: Vec, i: nat)
    requires start.Linear? && Fitting(start, n, d) && j < n && |x1| == |x2| == d && i < d && x1[i] != x2[i]
    ensures Learn(start, Update(j, x1, 1.0)) != Learn(start, Update(j, x2, 1.0))
  {
    LearnFits(start, n, d, Update(j, x1, 1.0));
    LearnFits(start, n, d, Update(j, x2, 1.0));
    var m1, m2 := Learn(start, Update(j, x1, 1.0)), Learn(start, Update(j, x2, 1.0));
    assert m1.lin.b[j] == Axpy(1.0, x1, start.lin.b[j]) && m2.lin.b[j] == Axpy(1.0, x2, start.lin.b[j]);
    assert m1.lin.b[j][i] != m2.lin.b[j][i];
  }

  /** Were `sexo` a context column, two clicks from clients that differ only in it would leave
      different LinUCB weights: `update` does not strip what `rank` strips. */
  lemma SkewThroughUpdate(cat: Catalog, cb: ContextBuilder, env: Env) returns (e1: Event, e2: Event)
    requires cb.Valid() && cat.offers != [] && "sexo" in cb.ctxCols
    ensures WellFormed(cat, e1) && WellFormed(cat, e2) && TwinEvents(e1, e2)
    ensures After(cat, cb, env, map[], e1) != After(cat, cb, env, map[], e2)
  {
    var pol := AutoPolicy("linucb");
    var c1: Client, c2: Client := map["sexo" := Num(0.0)], map["sexo" := Num(1.0)];
    e1 := Learning(pol, cat.offers[0].armId, 1.0, c1, []);
    e2 := Learning(pol, cat.offers[0].armId, 1.0, c2, []);
    assert "linucb" == ALGORITHMS[0];
    var x1, x2, i := SkewedContexts(cb, env.parse, c1, c2);
    var start, d := FreshModel("linucb", cat, cb.Dim()), cb.Dim();
    FreshFits("linucb", cat, d);
    var j := IndexOf(cat.offers, cat.offers[0].armId).value;
    SkewedClicks(start, |cat.offers|, d, j, x1, x2, i);
    var m1, m2 := Learn(start, Update(j, x1, 1.0)), Learn(start, Update(j, x2, 1.0));
    assert After(cat, cb, env, map[], e1)[pol.policyId] == m1;
    assert After(cat, cb, env, map[], e2)[pol.policyId] == m2;
  }

  /** The learned weights are blind to the protected attribute exactly when it is not a
      context column. */
  lemma BlindExactly(cat: Catalog, cb: ContextBuilder, env: Env)
    requires cb.Valid() && cat.offers != []
    ensures WeightsBlind(cat, cb, env) <==> "sexo" !in cb.ctxCols
  {
    if "sexo" in cb.ctxCols {
      var e1, e2 := SkewThroughUpdate(cat, cb, env);
      assert TwinRuns(cat, [e1], [e2]);
      var none: Weights := map[];
      assert [e1][..0] == [] && [e2][..0] == [];
      assert RunAll(cat, cb, env, none, [e1]) == After(cat, cb, env, none, e1);
      assert RunAll(cat, cb, env, none, [e2]) == After(cat, cb, env, none, e2);
    } else {
      forall w: Weights, es1: seq<Event>, es2: seq<Event> | TwinRuns(cat, es1, es2)
        ensures RunAll(cat, cb, env, w, es1) == RunAll(cat, cb, env, w, es2)
      {
        TwinsLearnAlike(cat, cb, env, w, es1, es2);
      }
    }
  }
}
