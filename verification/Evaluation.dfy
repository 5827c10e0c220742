/** The offline harness (evaluation/harness.py). */
module Evaluation {
  import opened Wrappers
  import opened Clients
  import opened Catalog
  import opened Context
  import opened Models
  import opened Policies
  import opened Service
  import opened CaseGenerator
  import Audit

  const BLOCKING_TYPES: seq<string> := ["edge", "adversarial", "invalid"]
  const STOCHASTIC: seq<string> := ["thompson"]

  datatype CaseResult = CaseResult(caseId: string, kind: string, passed: bool)

  /** What one algorithm's rankings are computed from; ranking changes none of it. */
  datatype Bench = Bench(cat: Catalog, cb: ContextBuilder, pol: ResolvedPolicy, m: ModelState, env: Env)
  {
    predicate Valid() {
      cb.Valid() && Usable(m, |cat.offers|, cb.Dim())
    }
  }

  /** The samples drawn by the k-th ranking of a case. */
  type Draws = nat -> seq<real>

  /** `bench` is an error for an algorithm the service refuses. */
  ghost predicate Ready(bench: Result<Bench>, draws: Draws) {
    bench.Ok? ==> bench.value.Valid() && forall k :: |draws(k)| == |bench.value.cat.offers|
  }

  function ArmIds(ranked: seq<RankedOffer>): (ids: seq<string>)
    ensures |ids| == |ranked|
  {
    seq(|ranked|, i requires 0 <= i < |ranked| => ranked[i].armId)
  }

  function RankedIds(bench: Result<Bench>, context: Client, draws: Draws, k: nat): Result<seq<string>>
    requires Ready(bench, draws)
  {
    var segments := Audit.SegmentList(context, []);
    if segments == None then Err(PythonError)
    else match bench
      case Err(e) => Err(e)
      case Ok(b) =>
        match RankOutcome(b.cat, b.cb, b.m, b.pol, context, segments.value, None, [], draws(k), b.env)
        case Err(e) => Err(e)
        case Ok(response) => Ok(ArmIds(response.ranked))
  }

  // ---------------------------------------------------------------- one case

  function CheckEdge(bench: Result<Bench>, c: Case, draws: Draws): Result<CaseResult>
    requires Ready(bench, draws)
  {
    if c.forbiddenArm == None || c.context == None then Err(PythonError)
    else match RankedIds(bench, c.context.value, draws, 0)
      case Err(e) => Err(e)
      case Ok(ranked) => Verdict(c, c.forbiddenArm.value !in ranked)
  }

  function Verdict(c: Case, passed: bool): Result<CaseResult> {
    if c.caseId == None || c.kind == None then Err(PythonError)
    else Ok(CaseResult(c.caseId.value, c.kind.value, passed))
  }

  /** The rankings of the context under each value of the attribute. */
  function Rankings(bench: Result<Bench>, context: Client, attr: string, values: seq<Value>,
                    draws: Draws): Result<seq<seq<string>>>
    requires Ready(bench, draws)
  {
    if values == [] then Ok([])
    else
      var k := |values| - 1;
      match Rankings(bench, context, attr, values[..k], draws)
      case Err(e) => Err(e)
      case Ok(earlier) =>
        match RankedIds(bench, context[attr := values[k]], draws, k)
        case Err(e) => Err(e)
        case Ok(ranked) => Ok(earlier + [ranked])
  }

  function Members(ids: seq<string>): set<string> {
    set id | id in ids
  }

  predicate AllSameSet(rankings: seq<seq<string>>) {
    forall i :: 0 <= i < |rankings| ==> Members(rankings[i]) == Members(rankings[0])
  }

  predicate AllSame(rankings: seq<seq<string>>) {
    forall i :: 0 <= i < |rankings| ==> rankings[i] == rankings[0]
  }

  /** Only the first perturbed attribute is used; an empty perturbation is an error. */
  function CheckAdversarial(bench: Result<Bench>, algorithm: string, c: Case, draws: Draws): Result<CaseResult>
    requires Ready(bench, draws)
  {
    if c.perturbation == None || c.perturbation.value == [] then Err(PythonError)
    else
      var (attr, values) := c.perturbation.value[0];
      if c.context == None && values != [] then Err(PythonError)
      else match Rankings(bench, if c.context.Some? then c.context.value else map[], attr, values, draws)
        case Err(e) => Err(e)
        case Ok(rankings) =>
          Verdict(c, if algorithm in STOCHASTIC then AllSameSet(rankings) else AllSame(rankings))
  }

  function CheckTypical(bench: Result<Bench>, c: Case, draws: Draws): Result<CaseResult>
    requires Ready(bench, draws)
  {
    if c.context == None then Err(PythonError)
    else match RankedIds(bench, c.context.value, draws, 0)
      case Err(e) => Err(e)
      case Ok(ranked) =>
        if c.expectedArm == None then Err(PythonError)
        else Verdict(c, ranked != [] && c.expectedArm.value == Text(ranked[0]))
  }

  /** A type the harness does not know becomes a failing `invalid` result. */
  function Check(bench: Result<Bench>, algorithm: string, c: Case, draws: Draws): Result<CaseResult>
    requires Ready(bench, draws)
  {
    if c.kind == Some("edge") then CheckEdge(bench, c, draws)
    else if c.kind == Some("adversarial") then CheckAdversarial(bench, algorithm, c, draws)
    else if c.kind == Some("typical") then CheckTypical(bench, c, draws)
    else Ok(CaseResult(if c.caseId.Some? then c.caseId.value else "?", "invalid", false))
  }

  /** Every case in order; the first exception ends the evaluation. */
  function Results(bench: Result<Bench>, algorithm: string, cases: seq<Case>,
                   draws: nat -> Draws): (r: Result<seq<CaseResult>>)
    requires forall i :: Ready(bench, draws(i))
    ensures r.Ok? ==> |r.value| == |cases|
    ensures r.Ok? ==> forall i :: 0 <= i < |cases| ==> Check(bench, algorithm, cases[i], draws(i)) == Ok(r.value[i])
  {
    if cases == [] then Ok([])
    else
      var k := |cases| - 1;
      match Results(bench, algorithm, cases[..k], draws)
      case Err(e) => Err(e)
      case Ok(earlier) =>
        match Check(bench, algorithm, cases[k], draws(k))
        case Err(e) => Err(e)
        case Ok(result) => Ok(earlier + [result])
  }

  /** The evaluation completes exactly when every case does; otherwise its outcome is the error
      of the first case that raises. */
  lemma {:induction false} ResultsExactly(bench: Result<Bench>, algorithm: string, cases: seq<Case>,
                                          draws: nat -> Draws)
    returns (first: nat)
    requires forall i :: Ready(bench, draws(i))
    ensures Results(bench, algorithm, cases, draws).Ok?
       <==> forall i :: 0 <= i < |cases| ==> Check(bench, algorithm, cases[i], draws(i)).Ok?
    ensures Results(bench, algorithm, cases, draws).Err? ==>
              && first < |cases|
              && Check(bench, algorithm, cases[first], draws(first)).Err?
              && Check(bench, algorithm, cases[first], draws(first)).error
                 == Results(bench, algorithm, cases, draws).error
              && forall k :: 0 <= k < first ==> Check(bench, algorithm, cases[k], draws(k)).Ok?
  {
    first := 0;
    if cases != [] {
      var k := |cases| - 1;
      first := ResultsExactly(bench, algorithm, cases[..k], draws);
      if Results(bench, algorithm, cases[..k], draws).Ok? {
        first := k;
      } else {
        assert cases[..k][first] == cases[first];
      }
    }
  }

  // ---------------------------------------------------------------- the report

  predicate IsBlocking(r: CaseResult) {
    r.kind in BLOCKING_TYPES
  }

  function BlockingOf(results: seq<CaseResult>): seq<CaseResult> {
    if results == [] then []
    else
      var k := |results| - 1;
      BlockingOf(results[..k]) + if IsBlocking(results[k]) then [results[k]] else []
  }

  predicate Passed(results: seq<CaseResult>) {
    var blocking := BlockingOf(results);
    blocking != [] && forall i :: 0 <= i < |blocking| ==> blocking[i].passed
  }

  lemma {:induction false} BlockingMembers(results: seq<CaseResult>)
    ensures forall r :: r in BlockingOf(results) <==> r in results && IsBlocking(r)
  {
    if results != [] {
      var k := |results| - 1;
      BlockingMembers(results[..k]);
      assert results == results[..k] + [results[k]];
    }
  }

  /** A report passes exactly when it has a blocking result and every one of them passed: an
      empty golden set, or one of informational cases alone, is rejected. */
  lemma PassedExactly(results: seq<CaseResult>)
    ensures Passed(results) <==>
              && (exists r :: r in results && IsBlocking(r))
              && (forall r :: r in results && IsBlocking(r) ==> r.passed)
  {
    BlockingMembers(results);
    var blocking := BlockingOf(results);
    if blocking != [] {
      assert blocking[0] in blocking;
    }
    if Passed(results) {
      forall r | r in results && IsBlocking(r) ensures r.passed {
        assert r in blocking;
      }
    }
  }

  function CountKind(results: seq<CaseResult>, kind: string): nat {
    if results == [] then 0
    else CountKind(results[..|results| - 1], kind) + if results[|results| - 1].kind == kind then 1 else 0
  }

  function CountPassed(results: seq<CaseResult>, kind: string): nat {
    if results == [] then 0
    else
      var r := results[|results| - 1];
      CountPassed(results[..|results| - 1], kind) + if r.kind == kind && r.passed then 1 else 0
  }

  function Failures(results: seq<CaseResult>): seq<CaseResult> {
    if results == [] then []
    else
      var k := |results| - 1;
      Failures(results[..k]) + if results[k].passed then [] else [results[k]]
  }

  datatype Slot = Slot(total: nat, passed: nat)

  datatype Summary = Summary(algorithm: string, passed: bool, byType: map<string, Slot>, failures: seq<CaseResult>)

  ghost predicate Tallied(byType: map<string, Slot>, results: seq<CaseResult>) {
    forall kind :: (kind in byType <==> CountKind(results, kind) > 0) &&
      (kind in byType ==> byType[kind] == Slot(CountKind(results, kind), CountPassed(results, kind)))
  }

  lemma {:induction false} PassedAtMostTotal(results: seq<CaseResult>, kind: string)
    ensures CountPassed(results, kind) <= CountKind(results, kind)
  {
    if results != [] {
      PassedAtMostTotal(results[..|results| - 1], kind);
    }
  }

  method Summarise(algorithm: string, results: seq<CaseResult>) returns (s: Summary)
    ensures s.algorithm == algorithm && s.passed == Passed(results)
    ensures Tallied(s.byType, results) && s.failures == Failures(results)
  {
    var byType: map<string, Slot> := map[];
    var failures: seq<CaseResult> := [];
    for k := 0 to |results|
      invariant Tallied(byType, results[..k]) && failures == Failures(results[..k])
    {
      assert results[..k + 1][..k] == results[..k];
      var r := results[k];
      PassedAtMostTotal(results[..k], r.kind);
      var slot := if r.kind in byType then byType[r.kind] else Slot(0, 0);
      byType := byType[r.kind := Slot(slot.total + 1, slot.passed + if r.passed then 1 else 0)];
      failures := failures + if r.passed then [] else [r];
    }
    assert results[..|results|] == results;
    s := Summary(algorithm, Passed(results), byType, failures);
  }

  lemma {:induction false} KindCounts(results: seq<CaseResult>, kind: string)
    ensures CountKind(results, kind) > 0 <==> exists r :: r in results && r.kind == kind
    ensures CountPassed(results, kind) == CountKind(results, kind)
       <==> forall r :: r in results && r.kind == kind ==> r.passed
  {
    if results != [] {
      var k := |results| - 1;
      var last := results[k];
      KindCounts(results[..k], kind);
      PassedAtMostTotal(results[..k], kind);
      assert results == results[..k] + [last];
      assert forall r :: r in results <==> r in results[..k] || r == last;
    }
  }

  /** The three parts of a summary agree: `passed` can be read off the tallies. */
  lemma SummaryTellsPassed(byType: map<string, Slot>, results: seq<CaseResult>)
    requires Tallied(byType, results)
    ensures Passed(results) <==>
              && (exists kind :: kind in byType && kind in BLOCKING_TYPES)
              && (forall kind :: kind in byType && kind in BLOCKING_TYPES ==> byType[kind].passed == byType[kind].total)
  {
    PassedExactly(results);
    forall kind
      ensures kind in byType <==> exists r :: r in results && r.kind == kind
      ensures kind in byType ==>
                (byType[kind].passed == byType[kind].total <==> forall r :: r in results && r.kind == kind ==> r.passed)
    {
      KindCounts(results, kind);
    }
  }

  // ---------------------------------------------------------------- the harness itself

  ghost function BenchOf(service: BanditService, algorithm: string): (bench: Result<Bench>)
    requires service.Valid()
    reads service, service.store
    ensures bench.Ok? ==> bench.value.Valid() && bench.value.cat == service.catalog
  {
    match PolicyOrAuto(None, Some(algorithm), service.defaultAlgorithm)
    case Err(e) => Err(e)
    case Ok(pol) =>
      FreshFits(pol.algorithm, service.catalog, service.Builder().Dim());
      Ok(Bench(service.catalog, service.Builder(), pol, service.Weights(pol), service.env))
  }

  method RankIds(service: BanditService, algorithm: string, context: Client, draws: Draws, k: nat)
    returns (r: Result<seq<string>>)
    requires service.Valid() && forall i :: |draws(i)| == |service.catalog.offers|
    modifies service`builder, service.store
    ensures service.Valid() && BenchOf(service, algorithm) == old(BenchOf(service, algorithm))
    ensures r == RankedIds(BenchOf(service, algorithm), context, draws, k)
  {
    var segments := Audit.SegmentList(context, []);
    if segments == None {
      return Err(PythonError);
    }
    var response := service.Rank(Some(algorithm), context, segments.value, None, [], None, draws(k));
    if response.Err? {
      return Err(response.error);
    }
    return Ok(ArmIds(response.value.ranked));
  }

  method RankUnder(service: BanditService, algorithm: string, context: Client, attr: string, values: seq<Value>,
                   draws: Draws)
    returns (r: Result<seq<seq<string>>>)
    requires service.Valid() && forall i :: |draws(i)| == |service.catalog.offers|
    modifies service`builder, service.store
    ensures service.Valid() && BenchOf(service, algorithm) == old(BenchOf(service, algorithm))
    ensures r == Rankings(BenchOf(service, algorithm), context, attr, values, draws)
  {
    ghost var bench := BenchOf(service, algorithm);
    var rankings: seq<seq<string>> := [];
    for k := 0 to |values|
      invariant service.Valid() && BenchOf(service, algorithm) == bench
      invariant Rankings(bench, context, attr, values[..k], draws) == Ok(rankings)
    {
      assert values[..k + 1][..k] == values[..k];
      var ranked := RankIds(service, algorithm, context[attr := values[k]], draws, k);
      if ranked.Err? {
        RankingsStop(bench, context, attr, values, k + 1, draws);
        return Err(ranked.error);
      }
      rankings := rankings + [ranked.value];
    }
    assert values[..|values|] == values;
    return Ok(rankings);
  }

  /** An exception under one value is the outcome of the whole list. */
  lemma {:induction false} RankingsStop(bench: Result<Bench>, context: Client, attr: string, values: seq<Value>,
                                        n: nat, draws: Draws)
    requires Ready(bench, draws) && n <= |values| && Rankings(bench, context, attr, values[..n], draws).Err?
    ensures Rankings(bench, context, attr, values, draws) == Rankings(bench, context, attr, values[..n], draws)
  {
    if n == |values| {
      assert values[..n] == values;
    } else {
      var k := |values| - 1;
      assert values[..k][..n] == values[..n];
      RankingsStop(bench, context, attr, values[..k], n, draws);
    }
  }

  method RunCheck(service: BanditService, algorithm: string, c: Case, draws: Draws) returns (r: Result<CaseResult>)
    requires service.Valid() && forall i :: |draws(i)| == |service.catalog.offers|
    modifies service`builder, service.store
    ensures service.Valid() && BenchOf(service, algorithm) == old(BenchOf(service, algorithm))
    ensures r == Check(BenchOf(service, algorithm), algorithm, c, draws)
  {
    if c.kind == Some("edge") || c.kind == Some("typical") {
      if c.context == None || (c.kind == Some("edge") && c.forbiddenArm == None) {
        return Err(PythonError);
      }
      var ranked := RankIds(service, algorithm, c.context.value, draws, 0);
      if ranked.Err? {
        return Err(ranked.error);
      }
      if c.kind == Some("edge") {
        return Verdict(c, c.forbiddenArm.value !in ranked.value);
      }
      if c.expectedArm == None {
        return Err(PythonError);
      }
      return Verdict(c, ranked.value != [] && c.expectedArm.value == Text(ranked.value[0]));
    }
    if c.kind == Some("adversarial") {
      if c.perturbation == None || c.perturbation.value == [] {
        return Err(PythonError);
      }
      var (attr, values) := c.perturbation.value[0];
      if c.context == None && values != [] {
        return Err(PythonError);
      }
      var context := if c.context.Some? then c.context.value else map[];
      var rankings := RankUnder(service, algorithm, context, attr, values, draws);
      if rankings.Err? {
        return Err(rankings.error);
      }
      return Verdict(c, if algorithm in STOCHASTIC then AllSameSet(rankings.value) else AllSame(rankings.value));
    }
    return Ok(CaseResult(if c.caseId.Some? then c.caseId.value else "?", "invalid", false));
  }

  lemma {:induction false} ResultsUnfold(bench: Result<Bench>, algorithm: string, cases: seq<Case>, draws: nat -> Draws)
    requires (forall i :: Ready(bench, draws(i))) && cases != []
    requires Results(bench, algorithm, cases[..|cases| - 1], draws).Err?
    ensures Results(bench, algorithm, cases, draws) == Results(bench, algorithm, cases[..|cases| - 1], draws)
  {
  }

  lemma {:induction false} ResultsStop(bench: Result<Bench>, algorithm: string, cases: seq<Case>, n: nat,
                                       draws: nat -> Draws)
    requires (forall i :: Ready(bench, draws(i))) && n <= |cases| && Results(bench, algorithm, cases[..n], draws).Err?
    ensures Results(bench, algorithm, cases, draws) == Results(bench, algorithm, cases[..n], draws)
    decreases |cases| - n
  {
    if n == |cases| {
      assert cases[..n] == cases;
    } else {
      assert cases[..n + 1][..n] == cases[..n];
      ResultsUnfold(bench, algorithm, cases[..n + 1], draws);
      ResultsStop(bench, algorithm, cases, n + 1, draws);
    }
  }

  /** evaluate: the whole golden set against one algorithm; the weights are left as they were. */
  method Evaluate(service: BanditService, cases: seq<Case>, algorithm: string,
                  draws: nat -> Draws) returns (r: Result<seq<CaseResult>>)
    requires service.Valid() && forall i, k :: |draws(i)(k)| == |service.catalog.offers|
    modifies service`builder, service.store
    ensures service.Valid() && BenchOf(service, algorithm) == old(BenchOf(service, algorithm))
    ensures r == Results(BenchOf(service, algorithm), algorithm, cases, draws)
  {
    ghost var bench := BenchOf(service, algorithm);
    var results: seq<CaseResult> := [];
    for k := 0 to |cases|
      invariant service.Valid() && BenchOf(service, algorithm) == bench
      invariant Results(bench, algorithm, cases[..k], draws) == Ok(results)
    {
      assert cases[..k + 1][..k] == cases[..k];
      var result := RunCheck(service, algorithm, cases[k], draws(k));
      if result.Err? {
        ResultsStop(bench, algorithm, cases, k + 1, draws);
        return Err(result.error);
      }
      results := results + [result.value];
    }
    assert cases[..|cases|] == cases;
    return Ok(results);
  }

  // ---------------------------------------------------------------- verdicts and tallies, exactly

  lemma {:induction false} RankingsStep(bench: Result<Bench>, context: Client, attr: string, values: seq<Value>,
                                        draws: Draws)
    returns (earlier: seq<seq<string>>, last: seq<string>)
    requires Ready(bench, draws) && values != [] && Rankings(bench, context, attr, values, draws).Ok?
    ensures Rankings(bench, context, attr, values[..|values| - 1], draws) == Ok(earlier)
    ensures RankedIds(bench, context[attr := values[|values| - 1]], draws, |values| - 1) == Ok(last)
    ensures Rankings(bench, context, attr, values, draws).value == earlier + [last]
  {
    var k := |values| - 1;
    earlier := Rankings(bench, context, attr, values[..k], draws).value;
    last := RankedIds(bench, context[attr := values[k]], draws, k).value;
  }

  lemma {:induction false} RankingsCount(bench: Result<Bench>, context: Client, attr: string, values: seq<Value>,
                                         draws: Draws, rankings: seq<seq<string>>)
    requires Ready(bench, draws) && Rankings(bench, context, attr, values, draws) == Ok(rankings)
    ensures |rankings| == |values|
    decreases |values|
  {
    if values != [] {
      var earlier, last := RankingsStep(bench, context, attr, values, draws);
      RankingsCount(bench, context, attr, values[..|values| - 1], draws, earlier);
    }
  }

  lemma RankingsDropLast(bench: Result<Bench>, context: Client, attr: string, values: seq<Value>, draws: Draws,
                         rankings: seq<seq<string>>)
    requires Ready(bench, draws) && Rankings(bench, context, attr, values, draws) == Ok(rankings)
    requires 0 < |values| == |rankings|
    ensures Rankings(bench, context, attr, values[..|values| - 1], draws) == Ok(rankings[..|values| - 1])
  {
    var earlier, last := RankingsStep(bench, context, attr, values, draws);
  }

  lemma {:induction false} RankingsPrefix(bench: Result<Bench>, context: Client, attr: string, values: seq<Value>,
                                          draws: Draws, n: nat, rankings: seq<seq<string>>)
    requires Ready(bench, draws) && Rankings(bench, context, attr, values, draws) == Ok(rankings)
    requires n <= |values| == |rankings|
    ensures Rankings(bench, context, attr, values[..n], draws) == Ok(rankings[..n])
    decreases |values|
  {
    if n == |values| {
      assert values[..n] == values && rankings[..n] == rankings;
    } else {
      var k := |values| - 1;
      RankingsDropLast(bench, context, attr, values, draws, rankings);
      RankingsPrefix(bench, context, attr, values[..k], draws, n, rankings[..k]);
      assert values[..k][..n] == values[..n] && rankings[..k][..n] == rankings[..n];
    }
  }

  lemma {:induction false} RankingAt(bench: Result<Bench>, context: Client, attr: string, values: seq<Value>,
                                     draws: Draws, i: nat, rankings: seq<seq<string>>)
    requires Ready(bench, draws) && Rankings(bench, context, attr, values, draws) == Ok(rankings)
    requires i < |values| == |rankings|
    ensures AnswerUnder(bench, context, attr, values[i], draws, i) == Ok(rankings[i])
  {
    RankingsPrefix(bench, context, attr, values, draws, i + 1, rankings);
    var earlier, last := RankingsStep(bench, context, attr, values[..i + 1], draws);
    RankingsCount(bench, context, attr, values[..i + 1][..i], draws, earlier);
    assert rankings[..i + 1][i] == last;
  }

  /** The ranking of the context under this value. */
  ghost function AnswerUnder(bench: Result<Bench>, context: Client, attr: string, value: Value, draws: Draws, k: nat)
    : Result<seq<string>>
    requires Ready(bench, draws)
  {
    RankedIds(bench, context[attr := value], draws, k)
  }

  lemma AdversarialChecksRankings(bench: Result<Bench>, algorithm: string, c: Case, draws: Draws)
    requires Ready(bench, draws) && CheckAdversarial(bench, algorithm, c, draws).Ok? && c.context.Some?
    ensures c.perturbation.Some? && c.perturbation.value != []
    ensures
      var (attr, values) := c.perturbation.value[0];
      var rankings := Rankings(bench, c.context.value, attr, values, draws);
      && rankings.Ok?
      && CheckAdversarial(bench, algorithm, c, draws).value.passed
         == if algorithm in STOCHASTIC then AllSameSet(rankings.value) else AllSame(rankings.value)
  {
  }

  /** An adversarial case passes exactly when all values of the attribute give the same ranking; for
      Thompson, the same arms in any order. */
  lemma AdversarialVerdictExactly(bench: Result<Bench>, algorithm: string, c: Case, draws: Draws, attr: string,
                                  values: seq<Value>)
    requires Ready(bench, draws) && CheckAdversarial(bench, algorithm, c, draws).Ok? && c.context.Some?
    requires c.perturbation.Some? && c.perturbation.value != [] && c.perturbation.value[0] == (attr, values)
    ensures forall i :: 0 <= i < |values| ==> AnswerUnder(bench, c.context.value, attr, values[i], draws, i).Ok?
    ensures CheckAdversarial(bench, algorithm, c, draws).value.passed
       <==> forall i, k :: 0 <= i < |values| && 0 <= k < |values| ==>
              SameAnswer(algorithm, AnswerUnder(bench, c.context.value, attr, values[i], draws, i).value,
                         AnswerUnder(bench, c.context.value, attr, values[k], draws, k).value)
  {
    var context := c.context.value;
    AdversarialChecksRankings(bench, algorithm, c, draws);
    var rankings := Rankings(bench, context, attr, values, draws).value;
    RankingsCount(bench, context, attr, values, draws, rankings);
    forall i | 0 <= i < |values|
      ensures AnswerUnder(bench, context, attr, values[i], draws, i) == Ok(rankings[i])
    {
      RankingAt(bench, context, attr, values, draws, i, rankings);
    }
    SamePairs(algorithm, rankings);
  }

  ghost predicate SameAnswer(algorithm: string, a: seq<string>, b: seq<string>) {
    if algorithm == "thompson" then forall id :: id in a <==> id in b else a == b
  }

  ghost predicate AllPairs(algorithm: string, rankings: seq<seq<string>>) {
    forall i, k :: 0 <= i < |rankings| && 0 <= k < |rankings| ==> SameAnswer(algorithm, rankings[i], rankings[k])
  }

  lemma SameMembers(a: seq<string>, b: seq<string>)
    ensures Members(a) == Members(b) <==> forall id :: id in a <==> id in b
  {
    if Members(a) == Members(b) {
      forall id ensures id in a <==> id in b {
        assert id in a <==> id in Members(a);
        assert id in b <==> id in Members(b);
      }
    }
  }

  lemma SamePairs(algorithm: string, rankings: seq<seq<string>>)
    ensures (if algorithm in STOCHASTIC then AllSameSet(rankings) else AllSame(rankings))
       <==> AllPairs(algorithm, rankings)
  {
    assert algorithm in STOCHASTIC <==> algorithm == "thompson";
    forall i, k | 0 <= i < |rankings| && 0 <= k < |rankings|
      ensures SameAnswer(algorithm, rankings[i], rankings[k])
         <==> if algorithm in STOCHASTIC then Members(rankings[i]) == Members(rankings[k])
              else rankings[i] == rankings[k]
    {
      SameMembers(rankings[i], rankings[k]);
    }
  }

  /** The positions of the results of a kind. */
  function Places(results: seq<CaseResult>, kind: string): set<nat> {
    set i: nat | i < |results| && results[i].kind == kind
  }

  /** The positions of those that passed. */
  function PassedPlaces(results: seq<CaseResult>, kind: string): set<nat> {
    set i: nat | i < |results| && results[i].kind == kind && results[i].passed
  }

  /** A tally counts exactly the results of its kind, */
  lemma {:induction false} TotalsExactly(results: seq<CaseResult>, kind: string)
    ensures CountKind(results, kind) == |Places(results, kind)|
  {
    if results == [] {
      assert Places(results, kind) == {};
    } else {
      var k := |results| - 1;
      TotalsExactly(results[..k], kind);
      var last: set<nat> := if results[k].kind == kind then {k} else {};
      assert Places(results, kind) == Places(results[..k], kind) + last;
    }
  }

  lemma PassedPlacesStep(results: seq<CaseResult>, kind: string)
    requires results != []
    ensures
      var k := |results| - 1;
      PassedPlaces(results, kind)
      == PassedPlaces(results[..k], kind) + if results[k].kind == kind && results[k].passed then {k} else {}
  {
  }

  /** and the passed ones among them. */
  lemma {:induction false} PassesExactly(results: seq<CaseResult>, kind: string)
    ensures CountPassed(results, kind) == |PassedPlaces(results, kind)|
  {
    if results == [] {
      assert PassedPlaces(results, kind) == {};
    } else {
      var k := |results| - 1;
      PassesExactly(results[..k], kind);
      PassedPlacesStep(results, kind);
      assert k !in PassedPlaces(results[..k], kind);
    }
  }

  /** The failures are exactly the results that did not pass. */
  lemma {:induction false} FailuresExactly(results: seq<CaseResult>)
    ensures forall r :: r in Failures(results) <==> r in results && !r.passed
  {
    if results != [] {
      var k := |results| - 1;
      FailuresExactly(results[..k]);
      assert results == results[..k] + [results[k]];
    }
  }
}
