/** Generator, server and harness together: generated cases pass in every learned state. */
module GoldenSet {
  import opened Wrappers
  import opened Clients
  import opened Ranking
  import opened Catalog
  import opened Context
  import opened Models
  import opened Policies
  import opened Service
  import opened Raising
  import opened Serving
  import opened CaseGenerator
  import opened Evaluation
  import Audit
  import Baseline
  import Kernel

  /** An arm the server lets through for this case context. */
  ghost predicate Eligible(b: Bench, context: Client, id: string) {
    var mask := EligibilityMask(b.cat, Audit.StripProtected(context), b.env.parse);
    mask.Some? && exists j :: 0 <= j < |b.cat.offers| && mask.value[j] && b.cat.offers[j].armId == id
  }

  lemma MembersListed(ranked: seq<RankedOffer>, id: string)
    ensures id in ArmIds(ranked) <==> Lists(ranked, id)
  {
    if id in ArmIds(ranked) {
      var i :| 0 <= i < |ranked| && ArmIds(ranked)[i] == id;
      assert ranked[i].armId == id;
    }
    if Lists(ranked, id) {
      var i :| 0 <= i < |ranked| && ranked[i].armId == id;
      assert ArmIds(ranked)[i] == id;
    }
  }

  /** What was ranked behind the ids. */
  lemma RankedIdsFrom(b: Bench, context: Client, draws: Draws, k: nat) returns (segments: seq<string>)
    requires Ready(Ok(b), draws) && RankedIds(Ok(b), context, draws, k).Ok?
    ensures Audit.SegmentList(context, []) == Some(segments)
    ensures
      var c := Audit.StripProtected(context);
      var arms := RankArms(b.cat, b.cb, b.m, c, segments, [], draws(k), b.env);
      && arms.Some? && EligibilityMask(b.cat, c, b.env.parse) == Some(arms.value.0)
      && RankedIds(Ok(b), context, draws, k).value == ArmIds(Offers(b.cat, arms.value.1))
  {
    segments := Audit.SegmentList(context, []).value;
  }

  /** A ranked case lists exactly the eligible arms, whatever the algorithm, weights and draws. */
  lemma RankedIdsAreEligible(b: Bench, context: Client, draws: Draws, k: nat, id: string)
    requires b.cat.DistinctArms() && Ready(Ok(b), draws) && RankedIds(Ok(b), context, draws, k).Ok?
    ensures id in RankedIds(Ok(b), context, draws, k).value <==> Eligible(b, context, id)
  {
    var segments := RankedIdsFrom(b, context, draws, k);
    var c := Audit.StripProtected(context);
    RankingListsExactly(b.cat, b.cb, b.m, c, segments, [], draws(k), b.env);
    var arms := RankArms(b.cat, b.cb, b.m, c, segments, [], draws(k), b.env).value;
    ListedAreMasked(b.cat, arms.0, arms.1, id);
    MembersListed(Offers(b.cat, arms.1), id);
  }

  lemma ListedAreMasked(cat: Catalog, mask: seq<bool>, ranked: seq<RankedArm>, id: string)
    requires InCatalogue(cat, ranked) && |mask| == |cat.offers|
    requires forall j :: 0 <= j < |cat.offers| ==>
               (Lists(Offers(cat, ranked), cat.offers[j].armId) <==> mask[j] && cat.offers[j].armId !in [])
    ensures Lists(Offers(cat, ranked), id)
       <==> exists j :: 0 <= j < |cat.offers| && mask[j] && cat.offers[j].armId == id
  {
    var offers := Offers(cat, ranked);
    if Lists(offers, id) {
      var i :| 0 <= i < |offers| && offers[i].armId == id;
      var j := ranked[i].arm;
      assert Lists(offers, cat.offers[j].armId) && mask[j];
    }
  }

  /** An edge case passes exactly when the server refuses the arm it forbids. */
  lemma EdgeVerdictExactly(b: Bench, c: Case, draws: Draws)
    requires b.cat.DistinctArms() && Ready(Ok(b), draws) && CheckEdge(Ok(b), c, draws).Ok?
    ensures CheckEdge(Ok(b), c, draws).value.passed <==> !Eligible(b, c.context.value, c.forbiddenArm.value)
  {
    RankedIdsAreEligible(b, c.context.value, draws, 0, c.forbiddenArm.value);
  }

  ghost predicate GoldenClient(client: Client, offers: seq<Offer>) {
    forall j :: 0 <= j < |offers| ==> AllVisible(client, offers[j].filters)
  }

  /** An arm the generator objects to is not eligible. */
  lemma ViolatedIsIneligible(b: Bench, client: Client, j: nat, ints: string -> Option<int>)
    requires b.cat.DistinctArms() && j < |b.cat.offers| && IntParser(ints)
    requires AllVisible(client, b.cat.offers[j].filters) && Objects(Violates(client, b.cat.offers[j].filters, ints))
    ensures !Eligible(b, ContextOf(client), b.cat.offers[j].armId)
  {
    var seen := Seen(b.cat.incomes, client, b.env.parse);
    if seen.Some? {
      ViolationRejects(b.cat.incomes, client, b.cat.offers[j].filters, b.env.parse, ints);
      assert forall i :: 0 <= i < |b.cat.offers| && b.cat.offers[i].armId == b.cat.offers[j].armId ==> i == j;
    }
  }

  /** Every generated edge case that can be ranked passes, for all three algorithms and in
      every learned state. */
  lemma EdgeCasePasses(b: Bench, client: Client, c: Case, draws: Draws, texts: Texts)
    requires b.cat.DistinctArms() && Ready(Ok(b), draws) && IntParser(texts.ints)
    requires GoldenClient(client, b.cat.offers) && BuiltFrom(c, client, b.cat.offers, texts)
    requires CheckEdge(Ok(b), c, draws).Ok?
    ensures CheckEdge(Ok(b), c, draws).value.passed
  {
    var j :| 0 <= j < |b.cat.offers| && Objects(Violates(client, b.cat.offers[j].filters, texts.ints))
             && EdgeCase(client, b.cat.offers[j].armId, texts.show) == Some(c);
    ViolatedIsIneligible(b, client, j, texts.ints);
    EdgeVerdictExactly(b, c, draws);
  }

  // ---------------------------------------------------------------- adversarial cases

  /** LinUCB and the baseline do not look at the draws. */
  lemma DrawsUnused(b: Bench, c: Client, segments: seq<string>, draws: Draws, k: nat)
    requires Ready(Ok(b), draws) && !b.m.Beta?
    ensures RankArms(b.cat, b.cb, b.m, c, segments, [], draws(k), b.env)
              == RankArms(b.cat, b.cb, b.m, c, segments, [], draws(0), b.env)
  {
  }

  lemma PerturbedRanking(b: Bench, context: Client, v: Value, draws: Draws, k: nat, id: string)
    requires b.cat.DistinctArms() && Ready(Ok(b), draws)
    ensures !b.m.Beta? ==>
              RankedIds(Ok(b), context["sexo" := v], draws, k) == RankedIds(Ok(b), context, draws, 0)
    ensures Eligible(b, context["sexo" := v], id) <==> Eligible(b, context, id)
  {
    var perturbed := context["sexo" := v];
    Audit.StripForgets(perturbed, context);
    var segments := Audit.SegmentList(context, []);
    assert Audit.SegmentList(perturbed, []) == segments by {
      assert SEGMENTS != "sexo";
    }
    if !b.m.Beta? && segments.Some? {
      DrawsUnused(b, Audit.StripProtected(context), segments.value, draws, k);
    }
  }

  /** These ids are the eligible ones, and for a model that does not sample, in its one order. */
  ghost predicate AsUnperturbed(b: Bench, context: Client, ids: seq<string>, draws: Draws)
    requires Ready(Ok(b), draws)
  {
    && (forall id :: id in ids <==> Eligible(b, context, id))
    && (!b.m.Beta? ==> Ok(ids) == RankedIds(Ok(b), context, draws, 0))
  }

  lemma PerturbedOnce(b: Bench, context: Client, v: Value, draws: Draws, k: nat)
    requires b.cat.DistinctArms() && Ready(Ok(b), draws) && RankedIds(Ok(b), context["sexo" := v], draws, k).Ok?
    ensures AsUnperturbed(b, context, RankedIds(Ok(b), context["sexo" := v], draws, k).value, draws)
  {
    var ids := RankedIds(Ok(b), context["sexo" := v], draws, k).value;
    forall id ensures id in ids <==> Eligible(b, context, id) {
      PerturbedRanking(b, context, v, draws, k, id);
      RankedIdsAreEligible(b, context["sexo" := v], draws, k, id);
    }
    PerturbedRanking(b, context, v, draws, k, "");
  }

  lemma {:induction false} PerturbedRankings(b: Bench, context: Client, values: seq<Value>, draws: Draws)
    requires b.cat.DistinctArms() && Ready(Ok(b), draws) && Rankings(Ok(b), context, "sexo", values, draws).Ok?
    ensures
      var rankings := Rankings(Ok(b), context, "sexo", values, draws).value;
      forall i :: 0 <= i < |rankings| ==> AsUnperturbed(b, context, rankings[i], draws)
  {
    if values != [] {
      var k := |values| - 1;
      PerturbedRankings(b, context, values[..k], draws);
      PerturbedOnce(b, context, values[k], draws, k);
    }
  }

  /** The harness compares orders only for models that do not sample. */
  predicate SamplingDeclared(b: Bench, algorithm: string) {
    b.m.Beta? ==> algorithm in STOCHASTIC
  }

  /** Every generated adversarial case that can be ranked passes: same order for LinUCB and
      the baseline, same set for Thompson whatever is drawn. */
  lemma AdversarialCasePasses(b: Bench, algorithm: string, client: Client, c: Case, draws: Draws, show: Value -> string)
    requires b.cat.DistinctArms() && Ready(Ok(b), draws) && SamplingDeclared(b, algorithm)
    requires AdversarialCase(client, show) == Some(c) && CheckAdversarial(Ok(b), algorithm, c, draws).Ok?
    ensures CheckAdversarial(Ok(b), algorithm, c, draws).value.passed
  {
    var values := c.perturbation.value[0].1;
    PerturbedRankings(b, c.context.value, values, draws);
    var rankings := Rankings(Ok(b), c.context.value, "sexo", values, draws).value;
    forall i | 0 <= i < |rankings|
      ensures Members(rankings[i]) == Members(rankings[0])
      ensures !b.m.Beta? ==> rankings[i] == rankings[0]
    {
      assert AsUnperturbed(b, c.context.value, rankings[i], draws)
          && AsUnperturbed(b, c.context.value, rankings[0], draws);
      forall id ensures id in Members(rankings[i]) <==> id in Members(rankings[0]) {
        assert id in rankings[i] <==> Eligible(b, c.context.value, id);
        assert id in rankings[0] <==> Eligible(b, c.context.value, id);
      }
    }
  }

  // ---------------------------------------------------------------- when a case can be ranked

  /** A number the ranking of this context needs cannot be read. */
  predicate Raises(b: Bench, context: Client) {
    Unreadable(b.cat, b.cb.ctxCols, Audit.StripProtected(context), b.env.parse)
  }

  lemma SegmentsDefined(context: Client)
    requires var c := Audit.StripProtected(context); SEGMENTS in c ==> c[SEGMENTS].Items? || c[SEGMENTS].Null?
    ensures Audit.SegmentList(context, []).Some?
  {
    var c := Audit.StripProtected(context);
    assert SEGMENTS in context <==> SEGMENTS in c;
    assert SEGMENTS in c ==> c[SEGMENTS] == context[SEGMENTS];
  }

  /** A case can be ranked, under every algorithm, state and draw, unless a number in it is unreadable. */
  lemma RankedExactly(b: Bench, context: Client, draws: Draws, k: nat)
    requires Ready(Ok(b), draws) && NumericBounds(b.cat)
    requires Rankable(b.cat, Audit.StripProtected(context))
    ensures RankedIds(Ok(b), context, draws, k).Ok? <==> !Raises(b, context)
  {
    SegmentsDefined(context);
    var segments := Audit.SegmentList(context, []).value;
    RankingRaisesExactly(b.cat, b.cb, b.m, b.pol, context, segments, None, [], draws(k), b.env);
  }

  // ---------------------------------------------------------------- the whole suite

  /** A line of the golden set: a generated property case or an informational one. */
  ghost predicate Generated(c: Case, clients: seq<Client>, offers: seq<Offer>, texts: Texts) {
    exists client :: client in clients &&
      (BuiltFrom(c, client, offers, texts) || AdversarialCase(client, texts.show) == Some(c))
  }

  lemma EdgeResult(b: Bench, algorithm: string, client: Client, c: Case, draws: Draws, texts: Texts)
    requires b.cat.DistinctArms() && Ready(Ok(b), draws) && IntParser(texts.ints) && GoldenClient(client, b.cat.offers)
    requires BuiltFrom(c, client, b.cat.offers, texts) && Check(Ok(b), algorithm, c, draws).Ok?
    ensures IsBlocking(Check(Ok(b), algorithm, c, draws).value) && Check(Ok(b), algorithm, c, draws).value.passed
  {
    EdgeDispatch(b, algorithm, c, draws);
    EdgeCasePasses(b, client, c, draws, texts);
    assert CheckEdge(Ok(b), c, draws).value.kind == BLOCKING_TYPES[0];
  }

  lemma AdversarialResult(b: Bench, algorithm: string, client: Client, c: Case, draws: Draws, texts: Texts)
    requires b.cat.DistinctArms() && Ready(Ok(b), draws) && SamplingDeclared(b, algorithm)
    requires AdversarialCase(client, texts.show) == Some(c) && Check(Ok(b), algorithm, c, draws).Ok?
    ensures IsBlocking(Check(Ok(b), algorithm, c, draws).value) && Check(Ok(b), algorithm, c, draws).value.passed
  {
    AdversarialDispatch(b, algorithm, c, draws);
    AdversarialCasePasses(b, algorithm, client, c, draws, texts.show);
    assert CheckAdversarial(Ok(b), algorithm, c, draws).value.kind == BLOCKING_TYPES[1];
  }

  lemma GeneratedResult(b: Bench, algorithm: string, clients: seq<Client>, c: Case, draws: Draws, texts: Texts)
    requires b.cat.DistinctArms() && Ready(Ok(b), draws) && SamplingDeclared(b, algorithm) && IntParser(texts.ints)
    requires forall client :: client in clients ==> GoldenClient(client, b.cat.offers)
    requires Generated(c, clients, b.cat.offers, texts) && Check(Ok(b), algorithm, c, draws).Ok?
    ensures IsBlocking(Check(Ok(b), algorithm, c, draws).value) && Check(Ok(b), algorithm, c, draws).value.passed
  {
    var client :| client in clients &&
      (BuiltFrom(c, client, b.cat.offers, texts) || AdversarialCase(client, texts.show) == Some(c));
    if BuiltFrom(c, client, b.cat.offers, texts) {
      EdgeResult(b, algorithm, client, c, draws, texts);
    } else {
      AdversarialResult(b, algorithm, client, c, draws, texts);
    }
  }

  ghost predicate Suite(cases: seq<Case>, clients: seq<Client>, offers: seq<Offer>, texts: Texts) {
    && (forall client :: client in clients ==> GoldenClient(client, offers))
    && (forall c :: c in cases ==> Generated(c, clients, offers, texts) || c.kind == Some("typical"))
  }

  lemma SuiteResult(b: Bench, algorithm: string, clients: seq<Client>, cases: seq<Case>, c: Case, draws: Draws,
                    texts: Texts)
    requires b.cat.DistinctArms() && Ready(Ok(b), draws) && SamplingDeclared(b, algorithm) && IntParser(texts.ints)
    requires Suite(cases, clients, b.cat.offers, texts) && c in cases && Check(Ok(b), algorithm, c, draws).Ok?
    ensures IsBlocking(Check(Ok(b), algorithm, c, draws).value) <==> c.kind != Some("typical")
    ensures c.kind != Some("typical") ==> Check(Ok(b), algorithm, c, draws).value.passed
  {
    if c.kind != Some("typical") {
      GeneratedResult(b, algorithm, clients, c, draws, texts);
    }
  }

  lemma {:induction false} VerdictFromCases(results: seq<CaseResult>, cases: seq<Case>)
    requires |results| == |cases|
    requires forall i :: 0 <= i < |cases| ==> (IsBlocking(results[i]) <==> cases[i].kind != Some("typical"))
    requires forall i :: 0 <= i < |cases| ==> (IsBlocking(results[i]) ==> results[i].passed)
    ensures Passed(results) <==> exists c :: c in cases && c.kind != Some("typical")
  {
    PassedExactly(results);
    if c :| c in cases && c.kind != Some("typical") {
      var i :| 0 <= i < |cases| && cases[i] == c;
      assert results[i] in results;
    }
    if r :| r in results && IsBlocking(r) {
      var i :| 0 <= i < |results| && results[i] == r;
      assert cases[i] in cases;
    }
  }

  /** The report on a golden set of generated and informational cases passes exactly when it
      holds a generated case: no state of the weights and no draw can fail it. */
  lemma SuitePasses(b: Bench, algorithm: string, clients: seq<Client>, cases: seq<Case>, draws: nat -> Draws,
                    texts: Texts)
    requires b.cat.DistinctArms() && (forall i :: Ready(Ok(b), draws(i))) && SamplingDeclared(b, algorithm)
          && IntParser(texts.ints)
    requires Suite(cases, clients, b.cat.offers, texts) && Results(Ok(b), algorithm, cases, draws).Ok?
    ensures Passed(Results(Ok(b), algorithm, cases, draws).value)
       <==> exists c :: c in cases && c.kind != Some("typical")
  {
    var results := Results(Ok(b), algorithm, cases, draws).value;
    forall i | 0 <= i < |cases|
      ensures IsBlocking(results[i]) <==> cases[i].kind != Some("typical")
      ensures IsBlocking(results[i]) ==> results[i].passed
    {
      SuiteResult(b, algorithm, clients, cases, cases[i], draws(i), texts);
    }
    VerdictFromCases(results, cases);
  }

  /** A case of a type the harness does not know fails the whole report. */
  lemma UnknownTypeFails(b: Bench, algorithm: string, cases: seq<Case>, draws: nat -> Draws, i: nat)
    requires (forall k :: Ready(Ok(b), draws(k))) && Results(Ok(b), algorithm, cases, draws).Ok?
    requires i < |cases| && cases[i].kind !in {Some("edge"), Some("adversarial"), Some("typical")}
    ensures !Passed(Results(Ok(b), algorithm, cases, draws).value)
  {
    var results := Results(Ok(b), algorithm, cases, draws).value;
    PassedExactly(results);
    assert BLOCKING_TYPES[2] == "invalid";
    assert results[i] in results && IsBlocking(results[i]) && !results[i].passed;
  }

  // ---------------------------------------------------------------- what a typical case measures

  /** The harness ranks a typical case for the category the generator looked in. */
  lemma SameTarget(client: Client, parse: Parser)
    ensures Audit.SegmentList(ContextOf(client), []) == Audit.SegmentList(client, [])
    ensures forall segments :: Baseline.TargetCategory(Audit.StripProtected(ContextOf(client)), segments, parse)
                            == Baseline.TargetCategory(client, segments, parse)
  {
    var context := ContextOf(client);
    var c := Audit.StripProtected(context);
    assert SEGMENTS in context <==> SEGMENTS in client;
    assert SEGMENTS in context ==> context[SEGMENTS] == client[SEGMENTS];
    assert INCOME in c <==> INCOME in client;
    assert INCOME in c ==> c[INCOME] == client[INCOME];
    assert "segmento" in c <==> "segmento" in client;
    assert "segmento" in c ==> c["segmento"] == client["segmento"];
  }

  lemma CategoriesAre(cat: Catalog, j: nat)
    requires j < |cat.offers|
    ensures |cat.Categories()| == |cat.offers| && cat.Categories()[j] == cat.offers[j].category
  {
  }

  /** The baseline ranks the first eligible arm of its target category on top, if there is one. */
  lemma TopOfCategory(cat: Catalog, target: string, mask: seq<bool>, j: nat)
    requires |mask| == |cat.offers| && j < |cat.offers| && cat.offers[j].category == target && mask[j]
    requires forall i :: 0 <= i < j && cat.offers[i].category == target ==> !mask[i]
    ensures
      var ranked := Baseline.Ranked(cat.Categories(), target, mask, []);
      ranked != [] && ranked[0].arm == j
  {
    var categories := cat.Categories();
    var ranked := Baseline.Ranked(categories, target, mask, []);
    SortedRowsContract(ByScoreThenArm, |categories|, mask, [], Baseline.Row(categories, target));
    assert Kept(j, mask, []) && Baseline.Row(categories, target)(j) in ranked;
    var k :| 0 <= k < |ranked| && ranked[k] == Baseline.Row(categories, target)(j);
    CategoriesAre(cat, j);
    if k > 0 {
      assert ranked[0] in ranked;
      CategoriesAre(cat, ranked[0].arm);
      Baseline.TargetFirst(categories, target, mask, [], 0, k);
    }
  }

  /** Once the expected arm is eligible it is on top: every earlier arm of the category has an
      objection from the generator, so the server refuses it. */
  lemma BaselineArms(b: Bench, client: Client, draws: Draws, segments: seq<string>, target: string)
    returns (mask: seq<bool>)
    requires Ready(Ok(b), draws) && b.m == Rules(b.cat.Categories()) && |b.cat.Categories()| == |b.cat.offers|
    requires RankedIds(Ok(b), ContextOf(client), draws, 0).Ok?
    requires Audit.SegmentList(client, []) == Some(segments)
    requires Baseline.TargetCategory(client, segments, b.env.parse) == Some(target)
    ensures EligibilityMask(b.cat, Audit.StripProtected(ContextOf(client)), b.env.parse) == Some(mask)
    ensures
      var ranked := Baseline.Ranked(b.cat.Categories(), target, mask, []);
      InCatalogue(b.cat, ranked) && RankedIds(Ok(b), ContextOf(client), draws, 0).value == ArmIds(Offers(b.cat, ranked))
  {
    var context := ContextOf(client);
    SameTarget(client, b.env.parse);
    var same := RankedIdsFrom(b, context, draws, 0);
    var arms := RankArms(b.cat, b.cb, b.m, Audit.StripProtected(context), segments, [], draws(0), b.env).value;
    mask := arms.0;
    assert arms.1 == Baseline.Ranked(b.cat.Categories(), target, mask, []);
  }

  lemma ExpectedOnTop(b: Bench, client: Client, j: nat, draws: Draws, ints: string -> Option<int>,
                      segments: seq<string>, target: string)
    requires b.cat.DistinctArms() && Ready(Ok(b), draws) && IntParser(ints) && GoldenClient(client, b.cat.offers)
    requires b.m == Rules(b.cat.Categories()) && RankedIds(Ok(b), ContextOf(client), draws, 0).Ok?
    requires Audit.SegmentList(client, []) == Some(segments)
    requires Baseline.TargetCategory(client, segments, b.env.parse) == Some(target)
    requires FirstCandidate(client, b.cat.offers, target, j, ints)
    requires Eligible(b, ContextOf(client), b.cat.offers[j].armId)
    ensures
      var ids := RankedIds(Ok(b), ContextOf(client), draws, 0).value;
      ids != [] && ids[0] == b.cat.offers[j].armId
  {
    CategoriesAre(b.cat, j);
    var mask := BaselineArms(b, client, draws, segments, target);
    forall i | 0 <= i < j && b.cat.offers[i].category == target ensures !mask[i] {
      ViolatedIsIneligible(b, client, i, ints);
    }
    TopOfCategory(b.cat, target, mask, j);
  }

  /** The exact meaning of a typical case: the baseline confirms the generator's guess if and only
      if the server finds the guessed arm eligible. The generator looks at fewer rules (a
      percentile floor it cannot see is enough), and then the case reports a divergence. */
  lemma TypicalPassesExactly(b: Bench, client: Client, j: nat, c: Case, draws: Draws, texts: Texts)
    requires b.cat.DistinctArms() && Ready(Ok(b), draws) && IntParser(texts.ints) && GoldenClient(client, b.cat.offers)
    requires b.m == Rules(b.cat.Categories())
    requires TypicalFrom(c, client, b.cat.offers, j, b.env.parse, texts) && CheckTypical(Ok(b), c, draws).Ok?
    ensures CheckTypical(Ok(b), c, draws).value.passed <==> Eligible(b, ContextOf(client), b.cat.offers[j].armId)
  {
    var context, armId := ContextOf(client), b.cat.offers[j].armId;
    var ids := RankedIds(Ok(b), context, draws, 0).value;
    RankedIdsAreEligible(b, context, draws, 0, armId);
    if Eligible(b, context, armId) {
      var segments := Audit.SegmentList(client, []).value;
      var target := Baseline.TargetCategory(client, segments, b.env.parse).value;
      ExpectedOnTop(b, client, j, draws, texts.ints, segments, target);
    }
  }

  /** A catalogue of one arm that asks for the upper half of the incomes. */
  const FLOOR := "renda_percentil_min"
  const SMALL_CATALOG := Catalog([Offer("OFF-CR-001", "credito", 1.0, [(FLOOR, Num(50.0))])], [], [], [],
                                 Some([10.0, 20.0, 30.0, 40.0]))
  const SMALL_CLIENT: Client := map[CLIENT_ID := Num(1.0), INCOME := Num(10.0)]

  lemma FloorUnseen(parse: Parser, ints: string -> Option<int>)
    ensures EndsWith(FLOOR, "_percentil_min") && Chop(FLOOR, 4) !in SMALL_CLIENT
    ensures GoldenClient(SMALL_CLIENT, SMALL_CATALOG.offers)
    ensures Violates(SMALL_CLIENT, SMALL_CATALOG.offers[0].filters, ints) == Some(None)
  {
    SuffixesDiffer(FLOOR);
    assert FLOOR[|FLOOR| - 14..] == "_percentil_min";
    var field, filters := Chop(FLOOR, 4), SMALL_CATALOG.offers[0].filters;
    assert |field| == 15 && |CLIENT_ID| == 11 && |INCOME| == 24;
    assert Breach(SMALL_CLIENT, FLOOR, Num(50.0), ints) == Some(None);
    assert filters[0] == (FLOOR, Num(50.0)) && filters[1..] == [];
  }

  lemma LowestPercentile()
    ensures IncomePercentile(SMALL_CATALOG.incomes, 10.0) == 25.0
  {
    var incomes := [10.0, 20.0, 30.0, 40.0];
    assert incomes[1..] == [20.0, 30.0, 40.0];
    assert SearchSortedRight(incomes[1..], 10.0) == 0;
    assert SearchSortedRight(incomes, 10.0) == 1;
    assert 1.0 / 4.0 * 100.0 == 25.0;
  }

  lemma FloorRefuses(b: Bench)
    requires b.cat == SMALL_CATALOG
    ensures !Eligible(b, ContextOf(SMALL_CLIENT), "OFF-CR-001")
  {
    FloorUnseen(b.env.parse, _ => None);
    LowestPercentile();
    var c := Audit.StripProtected(ContextOf(SMALL_CLIENT));
    assert c[INCOME] == Num(10.0) && INCOME_PERCENTILE !in c;
    var enriched := Enrich(b.cat.incomes, c, b.env.parse).value;
    assert enriched[INCOME_PERCENTILE] == Num(25.0);
    LastOfSuffix(FLOOR, "_atual");
    assert Passes(enriched, FLOOR, Num(50.0)) == Some(false);
    assert IsEligible(enriched, b.cat.offers[0].filters) == Some(false);
  }

  lemma SmallCanBeRanked(b: Bench)
    requires b.cat == SMALL_CATALOG && b.cb.ctxCols == []
    ensures NumericBounds(b.cat) && Readable(b, ContextOf(SMALL_CLIENT)) && !Raises(b, ContextOf(SMALL_CLIENT))
  {
    FloorUnseen(b.env.parse, _ => None);
    var c := Audit.StripProtected(ContextOf(SMALL_CLIENT));
    assert c[INCOME] == Num(10.0) && INCOME_PERCENTILE !in c && SEGMENTS !in c;
    LastOfSuffix(FLOOR, "_atual");
    assert FieldOf(FLOOR) == INCOME_PERCENTILE;
  }

  lemma SmallTypical(parse: Parser, texts: Texts) returns (c: Case)
    ensures TypicalFrom(c, SMALL_CLIENT, SMALL_CATALOG.offers, 0, parse, texts)
  {
    FloorUnseen(parse, texts.ints);
    assert SEGMENTS !in SMALL_CLIENT && "segmento" !in SMALL_CLIENT;
    assert Baseline.TargetCategory(SMALL_CLIENT, [], parse) == Some("credito");
    c := TypicalCase(SMALL_CLIENT, "OFF-CR-001", texts.show).value;
  }

  lemma SmallVerdict(b: Bench, c: Case, draws: Draws, texts: Texts)
    requires Ready(Ok(b), draws) && IntParser(texts.ints) && b.cat == SMALL_CATALOG && b.cb.ctxCols == []
    requires b.m == Rules(b.cat.Categories()) && TypicalFrom(c, SMALL_CLIENT, b.cat.offers, 0, b.env.parse, texts)
    ensures CheckTypical(Ok(b), c, draws).Ok? && !CheckTypical(Ok(b), c, draws).value.passed
  {
    SmallCanBeRanked(b);
    RankedExactly(b, ContextOf(SMALL_CLIENT), draws, 0);
    SmallChecked(b, c, draws);
    FloorUnseen(b.env.parse, texts.ints);
    FloorRefuses(b);
    TypicalPassesExactly(b, SMALL_CLIENT, 0, c, draws, texts);
  }

  lemma SmallChecked(b: Bench, c: Case, draws: Draws)
    requires Ready(Ok(b), draws) && c.context.Some? && c.expectedArm.Some? && c.caseId.Some? && c.kind.Some?
    requires RankedIds(Ok(b), c.context.value, draws, 0).Ok?
    ensures CheckTypical(Ok(b), c, draws).Ok?
  {
  }

  /** The documented claim fails: the generator expects the one arm of the target category for a client
      in the lowest quarter of the incomes, and the baseline does not rank it at all. */
  lemma TypicalCaseFails(env: Env, texts: Texts, draws: Draws) returns (b: Bench, c: Case)
    requires IntParser(texts.ints) && forall k :: |draws(k)| == 1
    ensures b.cat == SMALL_CATALOG && b.env == env && b.m == FreshModel("baseline", b.cat, b.cb.Dim())
    ensures Ready(Ok(b), draws) && TypicalFrom(c, SMALL_CLIENT, b.cat.offers, 0, env.parse, texts)
    ensures CheckTypical(Ok(b), c, draws).Ok? && !CheckTypical(Ok(b), c, draws).value.passed
  {
    var cb := Context.Make([], [], [], None);
    b := Bench(SMALL_CATALOG, cb, AutoPolicy("baseline"), Rules(SMALL_CATALOG.Categories()), env);
    assert "baseline" == ALGORITHMS[2];
    c := SmallTypical(env.parse, texts);
    assert b.cat.Categories() == ["credito"];
    SmallVerdict(b, c, draws, texts);
  }

  // ---------------------------------------------------------------- from generator to report

  /** The file the generator writes. */
  ghost predicate GoldenFile(edges: seq<Case>, adversarials: seq<Case>, typicals: seq<Case>,
                             clients: seq<Client>, offers: seq<Offer>, parse: Parser, texts: Texts) {
    && EdgeCasesOf(clients, offers, CASES_PER_TYPE, texts) == Some(edges)
    && AreAdversarial(adversarials, clients, texts.show)
    && TypicalCasesOf(clients, offers, parse, texts) == Some(typicals)
  }

  /** How many cases a file holds, and what the adversarial ones vary. */
  lemma FileContents(edges: seq<Case>, adversarials: seq<Case>, typicals: seq<Case>,
                     clients: seq<Client>, offers: seq<Offer>, parse: Parser, texts: Texts)
    requires GoldenFile(edges, adversarials, typicals, clients, offers, parse, texts)
    ensures
      var n := Refusable(clients, offers, texts.ints);
      && |edges| == (if n < 8 then n else 8)
      && |adversarials| == (if |clients| < 8 then |clients| else 8)
      && |typicals| <= 8
    ensures forall i :: 0 <= i < |adversarials| ==>
              && adversarials[i].perturbation == Some([("sexo", [Text("M"), Text("F")])])
              && adversarials[i].context == Some(ContextOf(clients[i]))
  {
    EdgeCasesSound(clients, offers, CASES_PER_TYPE, texts);
    TypicalCasesFrom(clients, offers, parse, texts);
    forall i | 0 <= i < |adversarials|
      ensures adversarials[i].perturbation == Some([("sexo", [Text("M"), Text("F")])])
      ensures adversarials[i].context == Some(ContextOf(clients[i]))
    {
      assert AdversarialCase(clients[i], texts.show) == Some(adversarials[i]);
    }
  }

  lemma FileIsSuite(edges: seq<Case>, adversarials: seq<Case>, typicals: seq<Case>,
                    clients: seq<Client>, offers: seq<Offer>, parse: Parser, texts: Texts, c: Case)
    requires GoldenFile(edges, adversarials, typicals, clients, offers, parse, texts)
    requires c in edges + adversarials + typicals
    ensures if c.kind == Some("typical") then TypicalFromSome(c, clients, offers, parse, texts)
            else Generated(c, clients, offers, texts)
  {
    if c in edges {
      EdgeCasesSound(clients, offers, CASES_PER_TYPE, texts);
      var i :| 0 <= i < |edges| && edges[i] == c;
      assert BuiltFromSome(c, clients, offers, texts);
    } else if c in adversarials {
      var i :| 0 <= i < |adversarials| && adversarials[i] == c;
      assert clients[i] in clients;
    } else {
      TypicalCasesFrom(clients, offers, parse, texts);
    }
  }

  /** Every data requirement of the generated checks: ids are distinct, filters are visible and
      bounded by numbers, and client rows hold numbers where numbers are read. */
  ghost predicate GoldenData(b: Bench, clients: seq<Client>) {
    && b.cat.DistinctArms() && NumericBounds(b.cat)
    && forall client :: client in clients ==> GoldenClient(client, b.cat.offers) && Readable(b, ContextOf(client))
  }

  predicate Readable(b: Bench, context: Client) {
    Rankable(b.cat, Audit.StripProtected(context))
  }

  lemma Perturbed(b: Bench, context: Client, v: Value)
    ensures Readable(b, context["sexo" := v]) <==> Readable(b, context)
    ensures Raises(b, context["sexo" := v]) <==> Raises(b, context)
  {
    Audit.StripForgets(context["sexo" := v], context);
  }

  lemma {:induction false} PerturbedExactly(b: Bench, context: Client, values: seq<Value>, draws: Draws)
    requires Ready(Ok(b), draws) && Readable(b, context) && NumericBounds(b.cat)
    ensures Rankings(Ok(b), context, "sexo", values, draws).Ok? <==> values == [] || !Raises(b, context)
  {
    if values != [] {
      var k := |values| - 1;
      PerturbedExactly(b, context, values[..k], draws);
      Perturbed(b, context, values[k]);
      RankedExactly(b, context["sexo" := values[k]], draws, k);
    }
  }

  lemma EdgeDispatch(b: Bench, algorithm: string, c: Case, draws: Draws)
    requires Ready(Ok(b), draws) && c.kind == Some("edge")
    ensures Check(Ok(b), algorithm, c, draws) == CheckEdge(Ok(b), c, draws)
  {
  }

  lemma AdversarialDispatch(b: Bench, algorithm: string, c: Case, draws: Draws)
    requires Ready(Ok(b), draws) && c.kind == Some("adversarial")
    ensures Check(Ok(b), algorithm, c, draws) == CheckAdversarial(Ok(b), algorithm, c, draws)
  {
    assert c.kind != Some("edge");
  }

  lemma TypicalDispatch(b: Bench, algorithm: string, c: Case, draws: Draws)
    requires Ready(Ok(b), draws) && c.kind == Some("typical")
    ensures Check(Ok(b), algorithm, c, draws) == CheckTypical(Ok(b), c, draws)
  {
    assert c.kind != Some("edge") && c.kind != Some("adversarial");
  }

  lemma AdversarialChecked(b: Bench, algorithm: string, c: Case, context: Client, values: seq<Value>, draws: Draws)
    requires Ready(Ok(b), draws) && c.kind.Some? && c.caseId.Some?
    requires c.context == Some(context) && c.perturbation == Some([("sexo", values)])
    ensures CheckAdversarial(Ok(b), algorithm, c, draws).Ok? <==> Rankings(Ok(b), context, "sexo", values, draws).Ok?
  {
    assert c.perturbation.value[0] == ("sexo", values);
    var rankings := Rankings(Ok(b), context, "sexo", values, draws);
    assert CheckAdversarial(Ok(b), algorithm, c, draws)
        == if rankings.Err? then Err(rankings.error)
           else Verdict(c, if algorithm in STOCHASTIC then AllSameSet(rankings.value) else AllSame(rankings.value));
  }

  lemma EdgeRuns(b: Bench, algorithm: string, c: Case, context: Client, draws: Draws)
    requires Ready(Ok(b), draws) && NumericBounds(b.cat) && Readable(b, context)
    requires c.kind == Some("edge") && c.caseId.Some? && c.forbiddenArm.Some? && c.context == Some(context)
    ensures Check(Ok(b), algorithm, c, draws).Ok? <==> !Raises(b, context)
  {
    RankedExactly(b, context, draws, 0);
    assert CheckEdge(Ok(b), c, draws).Ok? <==> RankedIds(Ok(b), context, draws, 0).Ok?;
    EdgeDispatch(b, algorithm, c, draws);
  }

  lemma AdversarialDefined(b: Bench, algorithm: string, c: Case, context: Client, values: seq<Value>, draws: Draws)
    requires Ready(Ok(b), draws) && c.kind == Some("adversarial") && c.caseId.Some?
    requires c.context == Some(context) && c.perturbation == Some([("sexo", values)])
    ensures Check(Ok(b), algorithm, c, draws).Ok? <==> Rankings(Ok(b), context, "sexo", values, draws).Ok?
  {
    AdversarialChecked(b, algorithm, c, context, values, draws);
    AdversarialDispatch(b, algorithm, c, draws);
  }

  lemma AdversarialRuns(b: Bench, algorithm: string, c: Case, context: Client, values: seq<Value>, draws: Draws)
    requires Ready(Ok(b), draws) && NumericBounds(b.cat) && Readable(b, context)
    requires c.kind == Some("adversarial") && c.caseId.Some? && c.context == Some(context)
    requires c.perturbation == Some([("sexo", values)]) && values != []
    ensures Check(Ok(b), algorithm, c, draws).Ok? <==> !Raises(b, context)
  {
    PerturbedExactly(b, context, values, draws);
    AdversarialDefined(b, algorithm, c, context, values, draws);
  }

  lemma TypicalDefined(b: Bench, algorithm: string, c: Case, context: Client, draws: Draws)
    requires Ready(Ok(b), draws) && c.kind == Some("typical")
    requires c.caseId.Some? && c.expectedArm.Some? && c.context == Some(context)
    ensures Check(Ok(b), algorithm, c, draws).Ok? <==> RankedIds(Ok(b), context, draws, 0).Ok?
  {
    assert CheckTypical(Ok(b), c, draws).Ok? <==> RankedIds(Ok(b), context, draws, 0).Ok?;
    TypicalDispatch(b, algorithm, c, draws);
  }

  lemma TypicalRuns(b: Bench, algorithm: string, c: Case, context: Client, draws: Draws)
    requires Ready(Ok(b), draws) && NumericBounds(b.cat) && Readable(b, context)
    requires c.kind == Some("typical") && c.caseId.Some? && c.expectedArm.Some? && c.context == Some(context)
    ensures Check(Ok(b), algorithm, c, draws).Ok? <==> !Raises(b, context)
  {
    RankedExactly(b, context, draws, 0);
    TypicalDefined(b, algorithm, c, context, draws);
  }

  /** A generated case is evaluated without an exception unless a number in it is unreadable. */
  lemma CaseRunsExactly(b: Bench, algorithm: string, clients: seq<Client>, c: Case, draws: Draws, texts: Texts)
    requires Ready(Ok(b), draws) && GoldenData(b, clients)
    requires if c.kind == Some("typical") then TypicalFromSome(c, clients, b.cat.offers, b.env.parse, texts)
             else Generated(c, clients, b.cat.offers, texts)
    ensures c.context.Some?
    ensures Check(Ok(b), algorithm, c, draws).Ok? <==> !Raises(b, c.context.value)
  {
    if c.kind == Some("typical") {
      var client, j: nat :| client in clients && TypicalFrom(c, client, b.cat.offers, j, b.env.parse, texts);
      TypicalRuns(b, algorithm, c, ContextOf(client), draws);
    } else {
      var client :| client in clients &&
        (BuiltFrom(c, client, b.cat.offers, texts) || AdversarialCase(client, texts.show) == Some(c));
      if BuiltFrom(c, client, b.cat.offers, texts) {
        EdgeRuns(b, algorithm, c, ContextOf(client), draws);
      } else {
        AdversarialRuns(b, algorithm, c, ContextOf(client), c.perturbation.value[0].1, draws);
      }
    }
  }

  lemma {:induction false} TrainedFits(algorithm: string, cat: Catalog, cb: ContextBuilder, us: seq<Kernel.Update>)
    requires algorithm in ALGORITHMS && forall u :: u in us ==> Kernel.Fits(|cat.offers|, cb.Dim(), u)
    ensures Fitting(LearnAll(FreshModel(algorithm, cat, cb.Dim()), us), |cat.offers|, cb.Dim())
    ensures NameOf(LearnAll(FreshModel(algorithm, cat, cb.Dim()), us)) == algorithm
  {
    FreshFits(algorithm, cat, cb.Dim());
    if us != [] {
      assert us[|us| - 1] in us;
      TrainedFits(algorithm, cat, cb, us[..|us| - 1]);
      LearnFits(LearnAll(FreshModel(algorithm, cat, cb.Dim()), us[..|us| - 1]), |cat.offers|, cb.Dim(), us[|us| - 1]);
    }
  }

  /** The offline gate: for each of the three algorithms, after any training and with any draws,
      the harness completes on the generated golden set exactly when no case has a null income
      that needs a percentile, and then its report passes unless the set was generated from no
      clients at all. */
  lemma GoldenSetHolds(b: Bench, algorithm: string, us: seq<Kernel.Update>, clients: seq<Client>, edges: seq<Case>,
                       adversarials: seq<Case>, typicals: seq<Case>, draws: nat -> Draws, texts: Texts)
    requires algorithm in ALGORITHMS && b.cb.Valid()
    requires b.m == LearnAll(FreshModel(algorithm, b.cat, b.cb.Dim()), us)
    requires forall u :: u in us ==> Kernel.Fits(|b.cat.offers|, b.cb.Dim(), u)
    requires forall i, k :: |draws(i)(k)| == |b.cat.offers|
    requires IntParser(texts.ints) && GoldenData(b, clients)
    requires GoldenFile(edges, adversarials, typicals, clients, b.cat.offers, b.env.parse, texts)
    ensures forall i :: Ready(Ok(b), draws(i))
    ensures
      var cases := edges + adversarials + typicals;
      && (Results(Ok(b), algorithm, cases, draws).Ok?
          <==> forall c :: c in cases ==> c.context.Some? && !Raises(b, c.context.value))
      && (Results(Ok(b), algorithm, cases, draws).Ok? ==>
            (Passed(Results(Ok(b), algorithm, cases, draws).value) <==> clients != []))
  {
    TrainedFits(algorithm, b.cat, b.cb, us);
    assert STOCHASTIC[0] == "thompson";
    var cases := edges + adversarials + typicals;
    FileRuns(b, algorithm, clients, edges, adversarials, typicals, draws, texts);
    FileSuite(edges, adversarials, typicals, clients, b.cat.offers, b.env.parse, texts);
    if Results(Ok(b), algorithm, cases, draws).Ok? {
      SuitePasses(b, algorithm, clients, cases, draws, texts);
      FileEmptyExactly(edges, adversarials, typicals, clients, b.cat.offers, b.env.parse, texts);
    }
  }

  /** Any list of cases whose checks raise exactly on null incomes. */
  lemma {:induction false} RunsExactly(b: Bench, algorithm: string, cases: seq<Case>, draws: nat -> Draws)
    requires forall i :: Ready(Ok(b), draws(i))
    requires forall i :: 0 <= i < |cases| ==>
               cases[i].context.Some?
               && (Check(Ok(b), algorithm, cases[i], draws(i)).Ok? <==> !Raises(b, cases[i].context.value))
    ensures Results(Ok(b), algorithm, cases, draws).Ok?
       <==> forall c :: c in cases ==> c.context.Some? && !Raises(b, c.context.value)
  {
    var first := ResultsExactly(Ok(b), algorithm, cases, draws);
    if forall c :: c in cases ==> c.context.Some? && !Raises(b, c.context.value) {
      assert forall i :: 0 <= i < |cases| ==> cases[i] in cases;
    }
  }

  lemma FileSuite(edges: seq<Case>, adversarials: seq<Case>, typicals: seq<Case>,
                  clients: seq<Client>, offers: seq<Offer>, parse: Parser, texts: Texts)
    requires GoldenFile(edges, adversarials, typicals, clients, offers, parse, texts)
    requires forall client :: client in clients ==> GoldenClient(client, offers)
    ensures Suite(edges + adversarials + typicals, clients, offers, texts)
  {
    forall c | c in edges + adversarials + typicals
      ensures Generated(c, clients, offers, texts) || c.kind == Some("typical")
    {
      FileIsSuite(edges, adversarials, typicals, clients, offers, parse, texts, c);
    }
  }

  lemma FileRuns(b: Bench, algorithm: string, clients: seq<Client>, edges: seq<Case>, adversarials: seq<Case>,
                 typicals: seq<Case>, draws: nat -> Draws, texts: Texts)
    requires (forall i :: Ready(Ok(b), draws(i))) && GoldenData(b, clients)
    requires GoldenFile(edges, adversarials, typicals, clients, b.cat.offers, b.env.parse, texts)
    ensures
      var cases := edges + adversarials + typicals;
      Results(Ok(b), algorithm, cases, draws).Ok?
      <==> forall c :: c in cases ==> c.context.Some? && !Raises(b, c.context.value)
  {
    var cases := edges + adversarials + typicals;
    forall i | 0 <= i < |cases|
      ensures cases[i].context.Some?
      ensures Check(Ok(b), algorithm, cases[i], draws(i)).Ok? <==> !Raises(b, cases[i].context.value)
    {
      FileIsSuite(edges, adversarials, typicals, clients, b.cat.offers, b.env.parse, texts, cases[i]);
      CaseRunsExactly(b, algorithm, clients, cases[i], draws(i), texts);
    }
    RunsExactly(b, algorithm, cases, draws);
  }

  lemma FileEmptyExactly(edges: seq<Case>, adversarials: seq<Case>, typicals: seq<Case>,
                         clients: seq<Client>, offers: seq<Offer>, parse: Parser, texts: Texts)
    requires GoldenFile(edges, adversarials, typicals, clients, offers, parse, texts)
    ensures (exists c :: c in edges + adversarials + typicals && c.kind != Some("typical")) <==> clients != []
  {
    TypicalCasesFrom(clients, offers, parse, texts);
    if clients != [] {
      assert adversarials[0] in edges + adversarials + typicals && adversarials[0].kind == Some("adversarial");
    }
  }

  ghost predicate GeneratorRaises(clients: seq<Client>, offers: seq<Offer>, parse: Parser, texts: Texts) {
    || EdgeCasesOf(clients, offers, CASES_PER_TYPE, texts) == None
    || (exists i :: 0 <= i < |clients| && i < CASES_PER_TYPE && CLIENT_ID !in clients[i])
    || TypicalCasesOf(clients, offers, parse, texts) == None
  }

  /** The generator's main: the three kinds of cases, in the order of the file. */
  method Generate(clients: seq<Client>, offers: seq<Offer>, parse: Parser, texts: Texts)
    returns (file: Option<(seq<Case>, seq<Case>, seq<Case>)>)
    ensures file == None <==> GeneratorRaises(clients, offers, parse, texts)
    ensures file.Some? ==> GoldenFile(file.value.0, file.value.1, file.value.2, clients, offers, parse, texts)
  {
    var edges := EdgeCases(clients, offers, texts);
    var adversarials := AdversarialCases(clients, texts.show);
    var typicals := TypicalCases(clients, offers, parse, texts);
    if edges == None || adversarials == None || typicals == None {
      return None;
    }
    return Some((edges.value, adversarials.value, typicals.value));
  }

  /** The whole gate on one service object: generate the cases from the clients and the service's own
      catalogue, evaluate them, summarise. Nothing is returned exactly when the generator raises. In
      every state that training can leave, the evaluation raises exactly for a case that cannot be
      read, and otherwise its summary passes unless there were no clients; the weights stay. */
  method GenerateAndEvaluate(service: BanditService, clients: seq<Client>, algorithm: string, texts: Texts,
                             draws: nat -> Draws, ghost us: seq<Kernel.Update>)
    returns (summary: Option<Result<Summary>>, cases: seq<Case>)
    requires service.Valid() && algorithm in ALGORITHMS && IntParser(texts.ints)
    requires forall i, k :: |draws(i)(k)| == |service.catalog.offers|
    requires TrainedBench(service, algorithm, us) && GoldenData(BenchOf(service, algorithm).value, clients)
    modifies service`builder, service.store
    ensures service.Valid() && BenchOf(service, algorithm) == old(BenchOf(service, algorithm))
    ensures summary == None <==> GeneratorRaises(clients, service.catalog.offers, service.env.parse, texts)
    ensures summary.Some? ==>
              var b := BenchOf(service, algorithm).value;
              && (summary.value.Ok? <==> forall c :: c in cases ==> c.context.Some? && !Raises(b, c.context.value))
              && (summary.value.Ok? ==> (summary.value.value.passed <==> clients != []))
  {
    ghost var b := BenchOf(service, algorithm).value;
    var file := Generate(clients, service.catalog.offers, service.env.parse, texts);
    if file == None {
      return None, [];
    }
    var (edges, adversarials, typicals) := file.value;
    cases := edges + adversarials + typicals;
    GoldenSetHolds(b, algorithm, us, clients, edges, adversarials, typicals, draws, texts);
    var results := Evaluate(service, cases, algorithm, draws);
    if results.Err? {
      return Some(Err(results.error)), cases;
    }
    var report := Summarise(algorithm, results.value);
    return Some(Ok(report)), cases;
  }

  /** The weights an algorithm is evaluated with came from training its fresh model. */
  ghost predicate TrainedBench(service: BanditService, algorithm: string, us: seq<Kernel.Update>)
    requires service.Valid() && algorithm in ALGORITHMS
    reads service, service.store
  {
    var b := BenchOf(service, algorithm);
    && b.Ok? && b.value.cb.Valid() && b.value.m == LearnAll(FreshModel(algorithm, b.value.cat, b.value.cb.Dim()), us)
    && forall u :: u in us ==> Kernel.Fits(|b.value.cat.offers|, b.value.cb.Dim(), u)
  }
}
