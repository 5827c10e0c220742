/** Serving, governance and rewards in one history (decision/service.py over governance/service.py). */
module DelayedRewards {
  import opened Wrappers
  import opened Kernel
  import opened Catalog
  import opened Context
  import opened Models
  import opened Policies
  import opened Service
  import opened Decisions
  import Audit
  import Composition
  import Governance

  /** A governance request, and whether the snapshot of the registry is wired in where it runs. */
  datatype Call = Call(request: Governance.Request, injected: bool)

  /** Without the snapshot a new cycle has no registry version. */
  function Asked(call: Call): Governance.Request {
    if call.request.op.Start? && !call.injected
    then call.request.(op := call.request.op.(snapshot := None)) else call.request
  }

  function Requests(calls: seq<Call>): seq<Governance.Request> {
    seq(|calls|, i requires 0 <= i < |calls| => Asked(calls[i]))
  }

  /** The call takes a snapshot: it starts a cycle that the tables accept. */
  predicate TakesSnapshot(t: Governance.Tables, call: Call) {
    && call.injected && call.request.op.Start?
    && call.request.op.policyId in t.policies && call.request.op.runId !in t.cycles
  }

  /** The policies whose snapshot is taken in a run of calls, committed or not. */
  function Snapshotted(t: Governance.Tables, calls: seq<Call>): set<string> {
    if calls == [] then {}
    else
      var k := |calls| - 1;
      Snapshotted(t, calls[..k]) +
      if TakesSnapshot(Governance.Run(t, Requests(calls[..k])), calls[k]) then {calls[k].request.op.policyId} else {}
  }

  lemma {:induction false} SnapshottedExist(t: Governance.Tables, calls: seq<Call>)
    ensures forall q :: q in Snapshotted(t, calls) ==> q in Governance.Run(t, Requests(calls)).policies
  {
    if calls != [] {
      var k := |calls| - 1;
      SnapshottedExist(t, calls[..k]);
      RequestsAppend(calls);
      var before := Governance.Run(t, Requests(calls[..k]));
      Governance.OutcomePersists(before, Asked(calls[k]).op, Asked(calls[k]).committed);
    }
  }

  lemma RequestsAppend(calls: seq<Call>)
    requires calls != []
    ensures Requests(calls)[..|calls| - 1] == Requests(calls[..|calls| - 1])
    ensures Requests(calls)[|calls| - 1] == Asked(calls[|calls| - 1])
  {
  }

  /** What is stored for q after the snapshots of these policies, each row's algorithm as in `later`:
      a missing key was initialised, anything else is as it was. */
  function AfterSnapshots(stored: Option<ModelState>, q: string, taken: set<string>, later: PolicyTable, cat: Catalog,
                          d: nat): Option<ModelState> {
    if stored == None && q in taken && q in later then Some(FreshModel(later[q].algorithm, cat, d)) else stored
  }

  /** One request in its own transaction; starting a cycle first has its policy's weights read. */
  method GovernOnce(bandit: BanditService, governance: Governance.GovernanceService, call: Call)
    requires bandit.Valid() && governance.uow.working == governance.uow.committed
    modifies governance.uow, bandit`builder, bandit.store
    ensures bandit.Valid() && bandit.Builder() == old(bandit.Builder())
    ensures governance.uow.working == governance.uow.committed
    ensures governance.uow.committed
         == Governance.Outcome(old(governance.uow.committed), Asked(call).op, Asked(call).committed)
    ensures
      var t := old(governance.uow.committed);
      var taken := if TakesSnapshot(t, call) then {call.request.op.policyId} else {};
      forall q :: bandit.store.State(q)
               == AfterSnapshots(old(bandit.store.State(q)), q, taken, t.policies, bandit.catalog,
                                 bandit.Builder().Dim())
  {
    if TakesSnapshot(governance.uow.working, call) {
      var id := call.request.op.policyId;
      var pol := ResolvedPolicy(id, governance.uow.working.policies[id].algorithm, true);
      var weights := bandit.SnapshotState(Some(pol.algorithm), Some(pol));
    }
    var r := governance.Execute(Asked(call).op, Asked(call).committed);
  }

  lemma SnapshotStep(t: Governance.Tables, calls: seq<Call>, k: nat, stored: Option<ModelState>, q: string,
                     cat: Catalog, d: nat)
    requires k < |calls|
    ensures
      var before, after := Governance.Run(t, Requests(calls[..k])), Governance.Run(t, Requests(calls[..k + 1]));
      var once := if TakesSnapshot(before, calls[k]) then {calls[k].request.op.policyId} else {};
      AfterSnapshots(AfterSnapshots(stored, q, Snapshotted(t, calls[..k]), before.policies, cat, d),
                     q, once, before.policies, cat, d)
      == AfterSnapshots(stored, q, Snapshotted(t, calls[..k + 1]), after.policies, cat, d)
    ensures Governance.Run(t, Requests(calls[..k + 1]))
         == Governance.Outcome(Governance.Run(t, Requests(calls[..k])), Asked(calls[k]).op, Asked(calls[k]).committed)
  {
    assert calls[..k + 1][..k] == calls[..k];
    RequestsAppend(calls[..k + 1]);
    SnapshottedExist(t, calls[..k]);
    Governance.OutcomePersists(Governance.Run(t, Requests(calls[..k])), Asked(calls[k]).op, Asked(calls[k]).committed);
  }

  /** Any governance calls: the tables are those of the requests, and in the store exactly the missing
      keys of snapshotted policies are initialised. No weights move. */
  method Govern(bandit: BanditService, governance: Governance.GovernanceService, calls: seq<Call>)
    requires bandit.Valid() && governance.uow.working == governance.uow.committed
    modifies governance.uow, bandit`builder, bandit.store
    ensures bandit.Valid() && bandit.Builder() == old(bandit.Builder())
    ensures governance.uow.working == governance.uow.committed
    ensures governance.uow.committed == Governance.Run(old(governance.uow.committed), Requests(calls))
    ensures
      var taken, later := Snapshotted(old(governance.uow.committed), calls), governance.uow.committed.policies;
      forall q :: bandit.store.State(q)
               == AfterSnapshots(old(bandit.store.State(q)), q, taken, later, bandit.catalog, bandit.Builder().Dim())
  {
    ghost var t, cat, d := governance.uow.committed, bandit.catalog, bandit.Builder().Dim();
    for k := 0 to |calls|
      invariant bandit.Valid() && bandit.Builder() == old(bandit.Builder())
      invariant governance.uow.working == governance.uow.committed == Governance.Run(t, Requests(calls[..k]))
      invariant forall q :: bandit.store.State(q)
                         == AfterSnapshots(old(bandit.store.State(q)), q, Snapshotted(t, calls[..k]),
                                           governance.uow.committed.policies, cat, d)
    {
      ghost var before := governance.uow.committed;
      label here:
      GovernOnce(bandit, governance, calls[k]);
      SnapshotStep(t, calls, k, None, "", cat, d);
      ghost var once := if TakesSnapshot(before, calls[k]) then {calls[k].request.op.policyId} else {};
      forall q
        ensures bandit.store.State(q)
             == AfterSnapshots(old(bandit.store.State(q)), q, Snapshotted(t, calls[..k + 1]),
                               governance.uow.committed.policies, cat, d)
      {
        SnapshotStep(t, calls, k, old(bandit.store.State(q)), q, cat, d);
        assert bandit.store.State(q)
            == AfterSnapshots(old@here(bandit.store.State(q)), q, once, before.policies, cat, d);
      }
    }
    assert calls[..|calls|] == calls;
  }

  method RewardRecorded(service: DecisionService, decisionId: nat, converted: bool) returns (r: Result<real>)
    requires service.Valid() && service.uow.working == service.uow.committed && decisionId in service.decisions
    requires Learnable(service, decisionId)
    modifies service`rewards, service.bandit`builder, service.bandit.store
    ensures service.Valid() && service.bandit.Builder() == old(service.bandit.Builder())
    ensures r.Ok? <==> service.decisions[decisionId].policyVersion in service.Policies()
    ensures r.Err? ==>
              && r == Err(NotFound("POLICY_NOT_FOUND")) && service.rewards == old(service.rewards)
              && forall q :: service.bandit.store.State(q) == old(service.bandit.store.State(q))
    ensures r.Ok? ==>
              && IsReward(r.value, service.events, decisionId, converted)
              && service.rewards == Recorded(old(service.rewards), decisionId, r.value)
              && var d := service.decisions[decisionId];
                 var before := old(service.bandit.Weights(RewardedPolicy(service, d)));
                 service.bandit.store.State(d.policyVersion) == Some(AfterReward(service, decisionId, before, r.value))
    ensures forall q :: q != service.decisions[decisionId].policyVersion ==>
              service.bandit.store.State(q) == old(service.bandit.store.State(q))
  {
    var active := service.uow.GetActivePolicy();
    r := service.Reward(decisionId, converted, active);
  }

  /** A reward whose learning depends on nothing but the serving policy still being known: accepted,
      it leaves its row and one learned event on the served arm; refused, nothing. */
  method RewardLogged(service: DecisionService, decisionId: nat, converted: bool) returns (r: Result<real>)
    requires service.Valid() && service.uow.working == service.uow.committed && decisionId in service.decisions
    requires Learnable(service, decisionId)
    modifies service`rewards, service.bandit`builder, service.bandit.store
    ensures service.Valid() && service.bandit.Builder() == old(service.bandit.Builder())
    ensures r.Ok? <==> service.decisions[decisionId].policyVersion in service.Policies()
    ensures r.Err? ==>
              && r == Err(NotFound("POLICY_NOT_FOUND")) && service.rewards == old(service.rewards)
              && forall q :: service.bandit.store.State(q) == old(service.bandit.store.State(q))
    ensures r.Ok? ==>
              && IsReward(r.value, service.events, decisionId, converted)
              && service.rewards == Recorded(old(service.rewards), decisionId, r.value)
              && var d := service.decisions[decisionId];
                 var before := old(service.bandit.Weights(RewardedPolicy(service, d)));
                 var after := service.bandit.store.State(d.policyVersion);
                 && after == Some(AfterReward(service, decisionId, before, r.value))
                 && ServedArmTaught(service, decisionId, before, after.value, r.value == 1.0)
    ensures forall q :: q != service.decisions[decisionId].policyVersion ==>
              service.bandit.store.State(q) == old(service.bandit.store.State(q))
  {
    ghost var before := WeightsBefore(service, decisionId);
    r := RewardRecorded(service, decisionId, converted);
    if r.Ok? {
      ServedArmLearns(service, decisionId, before, r.value);
    }
  }

  /** The weights a reward for the decision would move. */
  ghost function WeightsBefore(service: DecisionService, decisionId: nat): (m: ModelState)
    requires service.Valid() && decisionId in service.decisions
    reads service, service.uow, service.bandit, service.bandit.store
    ensures service.decisions[decisionId].policyVersion in service.Policies() ==>
              && m == service.bandit.Weights(RewardedPolicy(service, service.decisions[decisionId]))
              && Fitting(m, |service.bandit.catalog.offers|, service.bandit.Builder().Dim())
  {
    var d := service.decisions[decisionId];
    if d.policyVersion !in service.Policies() then Rules([])
    else
      FreshFits(RewardedPolicy(service, d).algorithm, service.bandit.catalog, service.bandit.Builder().Dim());
      service.bandit.Weights(RewardedPolicy(service, d))
  }

  /** The reward was taught to the decision's arm, in the context of its client, and to no other arm. */
  ghost predicate ServedArmTaught(service: DecisionService, decisionId: nat, before: ModelState, after: ModelState,
                                  clicked: bool)
    requires service.Valid() && decisionId in service.decisions
    reads service, service.bandit, service.bandit.store
  {
    var d := service.decisions[decisionId];
    var j, learner := IndexOf(service.bandit.catalog.offers, d.chosenArm), Learner(service.clients, d);
    && j.Some? && learner.Some? && SameExceptArm(before, after, j.value)
    && var x := Context.Build(service.bandit.Builder(), learner.value.context, learner.value.segments,
                              service.bandit.env.parse);
       x.Some? && Taught(before, after, j.value, x.value, clicked)
  }

  lemma ServedArmLearns(service: DecisionService, decisionId: nat, before: ModelState, value: real)
    requires service.Valid() && decisionId in service.decisions && Learnable(service, decisionId)
    requires Fitting(before, |service.bandit.catalog.offers|, service.bandit.Builder().Dim())
    requires value == 0.0 || value == 1.0
    ensures ServedArmTaught(service, decisionId, before, AfterReward(service, decisionId, before, value), value == 1.0)
  {
    var d, cat, cb := service.decisions[decisionId], service.bandit.catalog, service.bandit.Builder();
    var row := Learner(service.clients, d).value;
    var later: PolicyTable := map[d.policyVersion := Policy("", ALGORITHMS[0], SHADOW)];
    assert LearnResult(cb, later, cat, service.bandit.env, d.chosenArm, value, row, d.policyVersion).Ok?;
    var j := IndexOf(cat.offers, d.chosenArm).value;
    var x := Context.Build(cb, row.context, row.segments, service.bandit.env.parse).value;
    LearnTouchesOneArm(before, Update(j, x, value));
    LearnTeaches(before, |cat.offers|, cb.Dim(), Update(j, x, value));
  }

  /** Learning from what was served depends only on the policy being in the table by then. */
  ghost predicate CanBeLearned(cat: Catalog, cb: ContextBuilder, env: Env, armId: string, row: ClientRow,
                               policyId: string)
    requires cb.Valid()
  {
    forall value, later ::
      LearnResult(cb, later, cat, env, armId, value, row, policyId)
      == if policyId in later then Ok(policyId) else Err(NotFound("POLICY_NOT_FOUND"))
  }

  ghost predicate Learnable(service: DecisionService, decisionId: nat)
    requires service.Valid() && decisionId in service.decisions
    reads service, service.bandit, service.bandit.store
  {
    var d := service.decisions[decisionId];
    var learner := Learner(service.clients, d);
    && learner.Some? && service.bandit.Builder().Valid()
    && CanBeLearned(service.bandit.catalog, service.bandit.Builder(), service.bandit.env, d.chosenArm, learner.value,
        d.policyVersion)
  }

  lemma ServedCanBeLearned(cat: Catalog, cb: ContextBuilder, m: ModelState, pol: ResolvedPolicy, row: ClientRow,
                           samples: seq<real>, env: Env, armId: Option<string>, ranking: Result<RankResponse>)
    requires cb.Valid() && Usable(m, |cat.offers|, cb.Dim()) && |samples| == |cat.offers|
    requires ranking == RankOutcome(cat, cb, m, pol, row.context, row.segments, None, [], samples, env)
    requires Served(ranking, armId).Ok? && forall k :: k in Audit.PROTECTED_ATTRIBUTES ==> k !in row.context
    ensures ranking.value.policyId == pol.policyId
    ensures CanBeLearned(cat, cb, env, Served(ranking, armId).value.armId, row, pol.policyId)
  {
    forall value, later
      ensures LearnResult(cb, later, cat, env, Served(ranking, armId).value.armId, value, row, pol.policyId)
           == if pol.policyId in later then Ok(pol.policyId) else Err(NotFound("POLICY_NOT_FOUND"))
    {
      ServedDecisionsCanBeRewarded(cat, cb, m, pol, row, samples, env, armId, value, later);
    }
  }

  /** What the service would serve this client now can be learned from. */
  lemma NextDecisionLearnable(service: DecisionService, row: ClientRow, armId: Option<string>, active: Option<string>,
                              samples: seq<real>)
    requires service.Valid() && IsActiveRow(service.Policies(), active) && |samples| == |service.bandit.catalog.offers|
    requires forall k :: k in Audit.PROTECTED_ATTRIBUTES ==> k !in row.context
    ensures service.bandit.Builder().Valid()
    ensures
      var ranking, pol := service.RankingFor(row, active, samples), service.ServingPolicy(active);
      Served(ranking, armId).Ok? ==>
        && ranking.value.policyId == pol.policyId
        && CanBeLearned(service.bandit.catalog, service.bandit.Builder(), service.bandit.env,
                        Served(ranking, armId).value.armId, row, pol.policyId)
  {
    var cat, cb, pol := service.bandit.catalog, service.bandit.Builder(), service.ServingPolicy(active);
    FreshFits(pol.algorithm, cat, cb.Dim());
    if Served(service.RankingFor(row, active, samples), armId).Ok? {
      ServedCanBeLearned(cat, cb, service.bandit.Weights(pol), pol, row, samples, service.bandit.env, armId,
                         service.RankingFor(row, active, samples));
    }
  }

  lemma LoggedCanBeLearned(cat: Catalog, cb: ContextBuilder, env: Env, clients: map<int, ClientRow>, clientId: int,
                           armId: Option<string>, chosen: RankedOffer, response: RankResponse, policyId: string)
    requires cb.Valid() && clientId != 0 && clientId in clients && response.policyId == policyId
    requires CanBeLearned(cat, cb, env, chosen.armId, clients[clientId], policyId)
    ensures
      var d := Logged(clientId, armId, chosen, response);
      && Learner(clients, d) == Some(clients[clientId]) && d.policyVersion == policyId
      && CanBeLearned(cat, cb, env, d.chosenArm, clients[clientId], d.policyVersion)
  {
  }

  /** Every decision the service makes can be learned from, if its policy is known by then. */
  method DecideLearnable(service: DecisionService, clientId: int, armId: Option<string>, newId: nat,
                         active: Option<string>, samples: seq<real>)
    returns (served: Result<RankedOffer>)
    requires service.Valid() && newId !in service.decisions && IsActiveRow(service.Policies(), active)
    requires |samples| == |service.bandit.catalog.offers|
    requires clientId != 0 && clientId in service.clients
    requires forall k :: k in Audit.PROTECTED_ATTRIBUTES ==> k !in service.clients[clientId].context
    modifies service`decisions, service`events, service.bandit`builder, service.bandit.store
    ensures service.Valid() && service.bandit.Builder() == old(service.bandit.Builder())
    ensures served.Ok? ==>
              && newId in service.decisions && Learnable(service, newId)
              && service.decisions[newId].policyVersion == service.ServingPolicy(active).policyId
    ensures service.bandit.OnlyRead(service.ServingPolicy(active))
    ensures served.Ok? ==> service.bandit.store.State(service.ServingPolicy(active).policyId).Some?
  {
    NextDecisionLearnable(service, service.clients[clientId], armId, active, samples);
    ghost var ranking;
    ghost var pol, cb := service.ServingPolicy(active), service.bandit.Builder();
    served, ranking := service.Decide(clientId, armId, newId, active, samples);
    if served.Ok? {
      LoggedCanBeLearned(service.bandit.catalog, cb, service.bandit.env, service.clients, clientId, armId, served.value,
                         ranking.value, pol.policyId);
    }
  }

  /** A decision, then any governance, then its reward. The reward is accepted exactly when the
      serving policy is in the table by then: for a governed policy always, whatever was promoted or
      rolled back; an implicit one has to have been registered meanwhile. An accepted reward is
      recorded in the decision's row and taught to the policy that served, on the served arm alone;
      a refused one leaves neither a row nor a trace in the weights. All other policies are as they
      were, but for the keys that snapshots of new cycles initialise. */
  method DecideGovernReward(service: DecisionService, governance: Governance.GovernanceService, clientId: int,
                            armId: Option<string>, newId: nat, active: Option<string>, samples: seq<real>,
                            calls: seq<Call>, converted: bool)
    returns (served: Result<RankedOffer>, rewarded: Option<Result<real>>)
    requires service.Valid() && governance.uow == service.uow && service.uow.working == service.uow.committed
    requires newId !in service.decisions && IsActiveRow(service.Policies(), active)
    requires |samples| == |service.bandit.catalog.offers|
    requires clientId != 0 && clientId in service.clients
    requires forall k :: k in Audit.PROTECTED_ATTRIBUTES ==> k !in service.clients[clientId].context
    modifies service`decisions, service`events, service`rewards, service.uow
    modifies service.bandit`builder, service.bandit.store
    ensures service.Valid() && service.uow.committed == Governance.Run(old(service.uow.committed), Requests(calls))
    ensures served.Ok? <==> rewarded.Some?
    ensures served.Ok? ==>
              && newId in service.decisions
              && service.decisions[newId].policyVersion == old(service.ServingPolicy(active)).policyId
              && (rewarded.value.Ok? <==> old(service.ServingPolicy(active)).policyId in service.Policies())
              && (old(service.ServingPolicy(active)).governed ==> rewarded.value.Ok?)
    ensures served.Ok? && rewarded.value.Err? ==>
              var pol := old(service.ServingPolicy(active));
              && rewarded.value == Err(NotFound("POLICY_NOT_FOUND")) && service.rewards == old(service.rewards)
              && service.bandit.store.State(pol.policyId)
                 == Some(old(service.bandit.Weights(service.ServingPolicy(active))))
    ensures served.Ok? && rewarded.value.Ok? ==>
              var before := old(service.bandit.Weights(service.ServingPolicy(active)));
              var after := service.bandit.store.State(old(service.ServingPolicy(active)).policyId);
              && IsReward(rewarded.value.value, service.events, newId, converted)
              && service.rewards == Recorded(old(service.rewards), newId, rewarded.value.value)
              && after == Some(AfterReward(service, newId, before, rewarded.value.value))
              && ServedArmTaught(service, newId, before, after.value, rewarded.value.value == 1.0)
    ensures
      var taken := Snapshotted(old(service.uow.committed), calls);
      forall q :: q != old(service.ServingPolicy(active)).policyId ==>
        service.bandit.store.State(q)
        == AfterSnapshots(old(service.bandit.store.State(q)), q, taken, service.Policies(), service.bandit.catalog,
                          service.bandit.Builder().Dim())
  {
    served := DecideLearnable(service, clientId, armId, newId, active, samples);
    Govern(service.bandit, governance, calls);
    if served.Err? {
      return served, None;
    }
    Governance.RowsPersist(old(service.uow.committed), Requests(calls));
    var r := RewardLogged(service, newId, converted);
    return served, Some(r);
  }

  /** The case in which it fails: nobody promoted a policy, so the implicit one serves, and the
      reward for its decision is refused. */
  method ImplicitRewardRefused(service: DecisionService, governance: Governance.GovernanceService, clientId: int,
                               armId: Option<string>, newId: nat, samples: seq<real>, converted: bool)
    returns (served: Result<RankedOffer>, rewarded: Option<Result<real>>)
    requires service.Valid() && governance.uow == service.uow && service.uow.working == service.uow.committed
    requires newId !in service.decisions && IsActiveRow(service.Policies(), None)
    requires AUTO_PREFIX + service.defaultAlgorithm !in service.Policies()
    requires |samples| == |service.bandit.catalog.offers|
    requires clientId != 0 && clientId in service.clients
    requires forall k :: k in Audit.PROTECTED_ATTRIBUTES ==> k !in service.clients[clientId].context
    modifies service`decisions, service`events, service`rewards, service.uow
    modifies service.bandit`builder, service.bandit.store
    ensures served.Ok? ==> rewarded == Some(Err(NotFound("POLICY_NOT_FOUND")))
    ensures served.Ok? ==> service.rewards == old(service.rewards)
  {
    assert Governance.Run(service.uow.committed, Requests([])) == service.uow.committed;
    served, rewarded := DecideGovernReward(service, governance, clientId, armId, newId, None, samples, [], converted);
  }

  // ---------------------------------------------------------------- rewarding a decision twice

  /** A second reward moves the weights, whatever the two rewards were, unless the model is the
      baseline: learning is not idempotent. */
  lemma SecondRewardMovesExactly(cat: Catalog, d: nat, algorithm: string, us: seq<Update>, u: Update, v: Update)
    requires algorithm in ALGORITHMS && d > 0
    requires forall w :: w in us + [u, v] ==> Fits(|cat.offers|, d, w) && w.x[0] == 1.0
    ensures
      var once := LearnAll(FreshModel(algorithm, cat, d), us + [u]);
      Learn(once, v) == once <==> algorithm == "baseline"
  {
    var start, first, both := FreshModel(algorithm, cat, d), us + [u], us + [u, v];
    assert both[..|both| - 1] == first && both[|both| - 1] == v;
    assert LearnAll(start, both) == Learn(LearnAll(start, first), v);
    if algorithm == "baseline" {
      Composition.LearnAllRules(cat.Categories(), first);
      Composition.LearnAllRules(cat.Categories(), both);
    } else {
      assert algorithm == "linucb" || algorithm == "thompson";
      Composition.MoreUpdatesDifferentModel(cat, d, algorithm, first, both);
    }
  }

  /** The policy whose weights a reward for decision d moves. */
  ghost function RewardedPolicy(service: DecisionService, d: DecisionRow): ResolvedPolicy
    requires d.policyVersion in service.Policies()
    reads service, service.uow
  {
    ResolvedPolicy(d.policyVersion, service.Policies()[d.policyVersion].algorithm, true)
  }

  /** The weights a policy can have: its fresh model after some updates of the service. */
  ghost predicate Trained(cat: Catalog, d: nat, algorithm: Algorithm, m: ModelState, us: seq<Update>) {
    && d > 0 && m == LearnAll(FreshModel(algorithm, cat, d), us)
    && forall u :: u in us ==> Fits(|cat.offers|, d, u) && u.x[0] == 1.0
  }

  /** The weights m after one reward of this value for the decision. */
  ghost function AfterReward(service: DecisionService, decisionId: nat, m: ModelState, value: real): ModelState
    requires service.Valid() && decisionId in service.decisions
    reads service, service.bandit, service.bandit.store
  {
    var d, cat := service.decisions[decisionId], service.bandit.catalog;
    match (Learner(service.clients, d), IndexOf(cat.offers, d.chosenArm))
    case (Some(row), Some(j)) =>
      (match Context.Build(service.bandit.Builder(), row.context, row.segments, service.bandit.env.parse)
       case Some(x) => Learn(m, Update(j, x, value))
       case None => m)
    case _ => m
  }

  /** Two rewards for one decision. The reward table ends as if only the last had come: one row
      with its value. The weights do not: the second reward moves them again, unless the policy
      is the baseline. */
  method RewardTwice(service: DecisionService, decisionId: nat, first: bool, second: bool, active: Option<string>,
                     ghost us: seq<Update>)
    returns (r1: Result<real>, r2: Result<real>)
    requires service.Valid() && IsActiveRow(service.Policies(), active) && decisionId in service.decisions
    requires Learner(service.clients, service.decisions[decisionId]).Some?
    requires service.decisions[decisionId].policyVersion in service.Policies()
    requires
      var pol := RewardedPolicy(service, service.decisions[decisionId]);
      Trained(service.bandit.catalog, service.bandit.Builder().Dim(), pol.algorithm, service.bandit.Weights(pol), us)
    modifies service`rewards, service.bandit`builder, service.bandit.store
    ensures service.Valid() && (r1.Ok? <==> r2.Ok?)
    ensures r1.Ok? ==>
              var pol := RewardedPolicy(service, service.decisions[decisionId]);
              && IsReward(r1.value, service.events, decisionId, first)
              && IsReward(r2.value, service.events, decisionId, second)
              && service.rewards == Recorded(old(service.rewards), decisionId, r2.value)
              && var once := AfterReward(service, decisionId, old(service.bandit.Weights(pol)), r1.value);
                 && service.bandit.Weights(pol) == AfterReward(service, decisionId, once, r2.value)
                 && (once == old(service.bandit.Weights(pol)) <==> pol.algorithm == "baseline")
                 && (service.bandit.Weights(pol) == once <==> pol.algorithm == "baseline")
  {
    ghost var d, cb, cat := service.decisions[decisionId], service.bandit.Builder(), service.bandit.catalog;
    ghost var pol, row := RewardedPolicy(service, d), Learner(service.clients, d).value;
    ghost var rows := service.rewards;
    r1 := service.Reward(decisionId, first, active);
    r2 := service.Reward(decisionId, second, active);
    if r1.Ok? {
      RewardsOverwrite(rows, decisionId, r1.value, r2.value);
      ghost var x := Context.Build(cb, row.context, row.segments, service.bandit.env.parse).value;
      ghost var j := IndexOf(cat.offers, d.chosenArm).value;
      ghost var u, v := Update(j, x, r1.value), Update(j, x, r2.value);
      BothRewardsMove(cat, cb.Dim(), pol.algorithm, us, u, v);
    }
  }

  lemma BothRewardsMove(cat: Catalog, d: nat, algorithm: Algorithm, us: seq<Update>, u: Update, v: Update)
    requires d > 0 && forall w :: w in us || w == u || w == v ==> Fits(|cat.offers|, d, w) && w.x[0] == 1.0
    ensures
      var m := LearnAll(FreshModel(algorithm, cat, d), us);
      && (Learn(m, u) == m <==> algorithm == "baseline")
      && (Learn(Learn(m, u), v) == Learn(m, u) <==> algorithm == "baseline")
  {
    SecondRewardMovesExactly(cat, d, algorithm, us, u, v);
    var once := us + [u];
    assert once[..|once| - 1] == us;
    if algorithm == "baseline" {
      Composition.LearnAllRules(cat.Categories(), us);
    } else {
      Composition.MoreUpdatesDifferentModel(cat, d, algorithm, us, once);
    }
  }
}
