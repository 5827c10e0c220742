/** Serving and delayed rewards (decision/service.py, client.py): the auditable log. */
module Decisions {
  import opened Wrappers
  import opened Clients
  import opened Catalog
  import opened Context
  import opened Models
  import opened Policies
  import opened Service
  import opened Kernel
  import Audit
  import Governance
  import Serving

  /** What the database knows of a client: its context (protected columns already left out)
      and its segments. */
  datatype ClientRow = ClientRow(context: Client, segments: seq<string>)

  datatype EventKind = IMPRESSION | CLICK

  datatype EventRow = EventRow(decisionId: nat, kind: EventKind)

  datatype RewardRow = RewardRow(decisionId: nat, value: real)

  datatype DecisionRow = DecisionRow(clientId: Option<int>, policyVersion: string, chosenArm: string,
                                     audit: Audit.AuditBlock, reasons: seq<string>, score: real)

  // ---------------------------------------------------------------- pure pieces

  function FindOffer(ranked: seq<RankedOffer>, armId: string): (o: Option<RankedOffer>)
    ensures o.Some? ==> o.value in ranked && o.value.armId == armId
    ensures o == None ==> forall i :: 0 <= i < |ranked| ==> ranked[i].armId != armId
  {
    if ranked == [] then None
    else if ranked[0].armId == armId then Some(ranked[0])
    else FindOffer(ranked[1..], armId)
  }

  /** The served offer: the top of the ranking, or the arm the client picked. */
  function Chosen(ranked: seq<RankedOffer>, armId: Option<string>): (r: Result<RankedOffer>)
    ensures r.Ok? ==> r.value in ranked
  {
    if ranked == [] then Err(Conflict("NO_ELIGIBLE_ARM"))
    else match armId
      case None => Ok(ranked[0])
      case Some(id) =>
        match FindOffer(ranked, id)
        case Some(o) => Ok(o)
        case None => Err(Conflict("ARM_NOT_ELIGIBLE"))
  }

  function Served(ranking: Result<RankResponse>, armId: Option<string>): (r: Result<RankedOffer>)
    ensures r.Ok? ==> ranking.Ok? && r.value in ranking.value.ranked
  {
    match ranking
    case Err(e) => Err(e)
    case Ok(response) => Chosen(response.ranked, armId)
  }

  /** Offers as the service lists them: ranks count from one, scores never increase, no id twice. */
  ghost predicate InOrder(ranked: seq<RankedOffer>) {
    && (forall i :: 0 <= i < |ranked| ==> ranked[i].rank == i + 1)
    && (forall i, k :: 0 <= i < k < |ranked| ==>
          ranked[i].score >= ranked[k].score && ranked[i].armId != ranked[k].armId)
  }

  /** What is served. Without a pick, the offer of rank one, which no listed offer outscores; with a
      pick, the listed offer of that id. Nothing listed, and a pick that is not, are conflicts. */
  ghost predicate ServedAs(ranking: Result<RankResponse>, armId: Option<string>, r: Result<RankedOffer>) {
    match ranking
    case Err(e) => r == Err(e)
    case Ok(response) =>
      if response.ranked == [] then r == Err(Conflict("NO_ELIGIBLE_ARM"))
      else if armId == None then
        && r.Ok? && r.value in response.ranked && r.value.rank == 1
        && forall o :: o in response.ranked ==> r.value.score >= o.score && r.value.rank <= o.rank
      else if exists o :: o in response.ranked && o.armId == armId.value then
        r.Ok? && r.value in response.ranked && r.value.armId == armId.value
      else r == Err(Conflict("ARM_NOT_ELIGIBLE"))
  }

  lemma ServesAsStated(ranking: Result<RankResponse>, armId: Option<string>)
    requires ranking.Ok? ==> InOrder(ranking.value.ranked)
    ensures ServedAs(ranking, armId, Served(ranking, armId))
  {
    if ranking.Ok? && ranking.value.ranked != [] {
      var ranked := ranking.value.ranked;
      assert ranked[0] in ranked;
      forall o | o in ranked ensures ranked[0].score >= o.score && ranked[0].rank <= o.rank {
        var i :| 0 <= i < |ranked| && ranked[i] == o;
      }
    }
  }

  /** What is logged of a served decision. */
  ghost predicate LoggedAs(d: DecisionRow, clientId: int, armId: Option<string>, served: RankedOffer,
                           response: RankResponse) {
    && d.clientId == Some(clientId) && d.policyVersion == response.policyId && d.audit == response.audit
    && d.chosenArm == served.armId && d.score == served.score
    && served.reasons <= d.reasons && |d.reasons| == |served.reasons| + (if armId.Some? then 2 else 1)
    && ("eligible:" <= d.reasons[|served.reasons|]
        && ReadDecimal(d.reasons[|served.reasons|][|"eligible:"|..]) == |response.audit.eligible|)
    && (armId.Some? ==> d.reasons[|served.reasons| + 1] == "user_selected")
  }

  /** The number a decimal numeral stands for. */
  function ReadDecimal(s: string): int {
    if s == [] then 0 else 10 * ReadDecimal(s[..|s| - 1]) + (s[|s| - 1] as int - '0' as int)
  }

  lemma {:induction false} DecimalReads(n: nat)
    ensures ReadDecimal(Decimal(n)) == n
  {
    if n >= 10 {
      DecimalReads(n / 10);
      assert Decimal(n)[..|Decimal(n)| - 1] == Decimal(n / 10);
    }
  }

  lemma LogsAsStated(clientId: int, armId: Option<string>, served: RankedOffer, response: RankResponse)
    ensures LoggedAs(Logged(clientId, armId, served, response), clientId, armId, served, response)
  {
    var d, n := Logged(clientId, armId, served, response), Decimal(|response.audit.eligible|);
    DecimalReads(|response.audit.eligible|);
    assert d.reasons[|served.reasons|] == "eligible:" + n;
    assert ("eligible:" + n)[|"eligible:"|..] == n;
  }

  function Decimal(n: nat): string {
    if n < 10 then ['0' + n as char] else Decimal(n / 10) + ['0' + (n % 10) as char]
  }

  /** The auditable row: the policy that ranked, the arm served, the whole audit block and the
      reason codes with the number of eligible offers. */
  function Logged(clientId: int, armId: Option<string>, chosen: RankedOffer, response: RankResponse): DecisionRow {
    DecisionRow(Some(clientId), response.policyId, chosen.armId, response.audit,
                chosen.reasons + ["eligible:" + Decimal(|response.audit.eligible|)]
                    + (if armId.Some? then ["user_selected"] else []),
                chosen.score)
  }

  /** A click happened, or the client converted. */
  predicate Clicked(events: seq<EventRow>, id: nat, converted: bool) {
    converted || EventRow(id, CLICK) in events
  }

  /** A reward is one for a click and zero otherwise: the client converted, or a click event of this
      very decision was reported. */
  ghost predicate IsReward(value: real, events: seq<EventRow>, id: nat, converted: bool) {
    && (value == 0.0 || value == 1.0)
    && (value == 1.0 <==> converted || exists e :: e in events && e.decisionId == id && e.kind == CLICK)
  }

  lemma RewardAsStated(events: seq<EventRow>, id: nat, converted: bool)
    ensures IsReward(RewardValue(events, id, converted), events, id, converted)
  {
    if e :| e in events && e.decisionId == id && e.kind == CLICK {
      assert e == EventRow(id, CLICK);
    }
  }

  function RewardValue(events: seq<EventRow>, id: nat, converted: bool): real {
    if Clicked(events, id, converted) then 1.0 else 0.0
  }

  /** The client to learn from; a missing id, the id 0 and a deleted client teach nothing. */
  function Learner(clients: map<int, ClientRow>, d: DecisionRow): Option<ClientRow> {
    if d.clientId.Some? && d.clientId.value != 0 && d.clientId.value in clients
    then Some(clients[d.clientId.value]) else None
  }

  lemma LearnerExactly(clients: map<int, ClientRow>, d: DecisionRow)
    ensures Learner(clients, d).Some?
       <==> exists id :: d.clientId == Some(id) && id != 0 && id in clients && Learner(clients, d) == Some(clients[id])
  {
  }

  /** Creates the decision's reward row or overwrites its value. */
  function Recorded(rows: seq<RewardRow>, id: nat, value: real): seq<RewardRow> {
    if rows == [] then [RewardRow(id, value)]
    else if rows[0].decisionId == id then [RewardRow(id, value)] + rows[1..]
    else [rows[0]] + Recorded(rows[1..], id, value)
  }

  ghost predicate OneRowEach(rows: seq<RewardRow>) {
    forall i, k :: 0 <= i < k < |rows| ==> rows[i].decisionId != rows[k].decisionId
  }

  /** Recording keeps one row per decision; the decision's row holds the new value and every
      other row is what it was. */
  lemma {:induction false} RecordedRows(rows: seq<RewardRow>, id: nat, value: real)
    requires OneRowEach(rows)
    ensures OneRowEach(Recorded(rows, id, value))
    ensures forall r ::
              r in Recorded(rows, id, value) <==> r == RewardRow(id, value) || (r in rows && r.decisionId != id)
  {
    if rows != [] {
      var rest := Recorded(rows[1..], id, value);
      assert rows == [rows[0]] + rows[1..];
      if rows[0].decisionId == id {
        assert forall r :: r in rows[1..] ==> r.decisionId != id;
      } else {
        RecordedRows(rows[1..], id, value);
        forall k | 0 <= k < |rest| ensures rest[k].decisionId != rows[0].decisionId {
          assert rest[k] in rest;
        }
      }
    }
  }

  /** Rewards may be reported any number of times: the last value stays, in one row. */
  lemma {:induction false} RewardsOverwrite(rows: seq<RewardRow>, id: nat, first: real, last: real)
    ensures Recorded(Recorded(rows, id, first), id, last) == Recorded(rows, id, last)
  {
    if rows != [] && rows[0].decisionId != id {
      RewardsOverwrite(rows[1..], id, first, last);
      assert Recorded(rows, id, first)[1..] == Recorded(rows[1..], id, first);
    }
  }

  /** With a full ranking, serving the client's pick succeeds exactly when the audit lists it
      as eligible, and serving the top fails exactly when nothing is eligible. */
  lemma ChoosingSucceedsExactly(cat: Catalog, cb: ContextBuilder, m: ModelState, pol: ResolvedPolicy, row: ClientRow,
                                samples: seq<real>, env: Env, id: string)
    requires cb.Valid() && Usable(m, |cat.offers|, cb.Dim()) && |samples| == |cat.offers| && cat.DistinctArms()
    requires RankOutcome(cat, cb, m, pol, row.context, row.segments, None, [], samples, env).Ok?
    ensures
      var response := RankOutcome(cat, cb, m, pol, row.context, row.segments, None, [], samples, env).value;
      && (Chosen(response.ranked, Some(id)).Ok? <==> id in response.audit.eligible)
      && (Chosen(response.ranked, None).Ok? <==> response.audit.eligible != [])
  {
    var response := RankOutcome(cat, cb, m, pol, row.context, row.segments, None, [], samples, env).value;
    Serving.ServedIsAudited(cat, cb, m, pol, row.context, row.segments, None, [], samples, env);
    if response.ranked != [] {
      assert Serving.Lists(response.ranked, response.ranked[0].armId);
    }
    if response.audit.eligible != [] {
      assert response.audit.eligible[0] in response.audit.eligible;
    }
  }

  lemma RankedInOrder(cat: Catalog, cb: ContextBuilder, m: ModelState, pol: ResolvedPolicy, row: ClientRow,
                      samples: seq<real>, env: Env)
    requires cb.Valid() && Usable(m, |cat.offers|, cb.Dim()) && |samples| == |cat.offers| && cat.DistinctArms()
    requires RankOutcome(cat, cb, m, pol, row.context, row.segments, None, [], samples, env).Ok?
    ensures InOrder(RankOutcome(cat, cb, m, pol, row.context, row.segments, None, [], samples, env).value.ranked)
  {
    var c := Audit.StripProtected(row.context);
    Serving.RankingListsExactly(cat, cb, m, c, row.segments, [], samples, env);
    Serving.TopIsPrefix(Offers(cat, RankArms(cat, cb, m, c, row.segments, [], samples, env).value.1), None);
  }

  // ---------------------------------------------------------------- routing

  /** A decision's policy resolves to itself after any number of promotions, approvals and
      rollbacks, whichever policy is active by then. */
  lemma RoutingSurvivesGovernance(t: Governance.Tables, rs: seq<Governance.Request>, p: string,
                                  active: Option<string>, active': Option<string>, algorithm: string)
    requires p in t.policies
    requires IsActiveRow(t.policies, active) && IsActiveRow(Governance.Run(t, rs).policies, active')
    ensures Resolve(Governance.Run(t, rs).policies, active', Some(p), algorithm)
              == Resolve(t.policies, active, Some(p), algorithm)
    ensures Resolve(t.policies, active, Some(p), algorithm) == Ok(ResolvedPolicy(p, t.policies[p].algorithm, true))
  {
    Governance.RowsPersist(t, rs);
  }

  /** A decision that was served can be learned from exactly when the policy that served it is in
      the table at reward time, as long as the client is still as it was ranked: the served arm
      is in the catalogue and a context that could be ranked can be learned from. So a governed
      policy's decisions always can, and an implicit one's never, unless its name was registered. */
  lemma ServedDecisionsCanBeRewarded(cat: Catalog, cb: ContextBuilder, m: ModelState, pol: ResolvedPolicy,
                                     row: ClientRow, samples: seq<real>, env: Env, armId: Option<string>,
                                     value: real, later: PolicyTable)
    requires cb.Valid() && Usable(m, |cat.offers|, cb.Dim()) && |samples| == |cat.offers|
    requires Served(RankOutcome(cat, cb, m, pol, row.context, row.segments, None, [], samples, env), armId).Ok?
    requires forall k :: k in Audit.PROTECTED_ATTRIBUTES ==> k !in row.context
    ensures
      var ranking := RankOutcome(cat, cb, m, pol, row.context, row.segments, None, [], samples, env);
      var served := Served(ranking, armId).value;
      && ranking.value.policyId == pol.policyId
      && LearnResult(cb, later, cat, env, served.armId, value, row, pol.policyId)
         == if pol.policyId in later then Ok(pol.policyId) else Err(NotFound("POLICY_NOT_FOUND"))
  {
    assert Audit.StripProtected(row.context) == row.context;
    ServedIsKnown(cat, cb, m, pol, row, samples, env, armId);
  }

  /** What is served is in the catalogue, and the stripped context could be built. */
  lemma ServedIsKnown(cat: Catalog, cb: ContextBuilder, m: ModelState, pol: ResolvedPolicy, row: ClientRow,
                      samples: seq<real>, env: Env, armId: Option<string>)
    requires cb.Valid() && Usable(m, |cat.offers|, cb.Dim()) && |samples| == |cat.offers|
    requires Served(RankOutcome(cat, cb, m, pol, row.context, row.segments, None, [], samples, env), armId).Ok?
    ensures
      var ranking := RankOutcome(cat, cb, m, pol, row.context, row.segments, None, [], samples, env);
      && ranking.value.policyId == pol.policyId
      && IndexOf(cat.offers, Served(ranking, armId).value.armId).Some?
      && Context.Build(cb, Audit.StripProtected(row.context), row.segments, env.parse).Some?
  {
    var ranking := RankOutcome(cat, cb, m, pol, row.context, row.segments, None, [], samples, env);
    var arms := RankArms(cat, cb, m, Audit.StripProtected(row.context), row.segments, [], samples, env).value;
    var served := Served(ranking, armId).value;
    assert ranking.value.ranked == Offers(cat, arms.1);
    var i :| 0 <= i < |ranking.value.ranked| && ranking.value.ranked[i] == served;
    assert served.armId == cat.offers[arms.1[i].arm].armId;
  }

  // ---------------------------------------------------------------- the service

  class DecisionService {
    const bandit: BanditService
    const defaultAlgorithm: string
    /** The database session whose committed tables hold the policies. */
    const uow: Governance.UnitOfWork
    var clients: map<int, ClientRow>
    var knownOffers: set<string>
    var decisions: map<nat, DecisionRow>
    var events: seq<EventRow>
    var rewards: seq<RewardRow>

    constructor (bandit: BanditService, uow: Governance.UnitOfWork, defaultAlgorithm: string,
                 clients: map<int, ClientRow>, knownOffers: set<string>)
      requires bandit.Valid() && bandit.catalog.DistinctArms() && defaultAlgorithm in ALGORITHMS
      ensures Valid() && this.bandit == bandit && this.uow == uow && this.clients == clients
           && this.knownOffers == knownOffers
      ensures decisions == map[] && events == [] && rewards == []
    {
      this.bandit, this.uow, this.defaultAlgorithm := bandit, uow, defaultAlgorithm;
      this.clients, this.knownOffers := clients, knownOffers;
      this.decisions, this.events, this.rewards := map[], [], [];
    }

    ghost predicate Valid()
      reads this, bandit, bandit.store
    {
      && bandit.Valid() && bandit.catalog.DistinctArms() && defaultAlgorithm in ALGORITHMS
      && OneRowEach(rewards)
      && forall d :: d in decisions ==> decisions[d].chosenArm in decisions[d].audit.eligible
    }

    function Policies(): PolicyTable
      reads uow
    {
      uow.committed.policies
    }

    /** The policy that serves a request that names none. */
    ghost function ServingPolicy(active: Option<string>): (pol: ResolvedPolicy)
      requires IsActiveRow(Policies(), active) && defaultAlgorithm in ALGORITHMS
      reads this, uow
      ensures pol.algorithm in ALGORITHMS
    {
      Resolve(Policies(), active, None, defaultAlgorithm).value
    }

    /** The ranking a decision for this client would be based on now. */
    ghost function RankingFor(row: ClientRow, active: Option<string>, samples: seq<real>): Result<RankResponse>
      requires Valid() && IsActiveRow(Policies(), active) && |samples| == |bandit.catalog.offers|
      reads this, uow, bandit, bandit.store
    {
      var pol := ServingPolicy(active);
      FreshFits(pol.algorithm, bandit.catalog, bandit.Builder().Dim());
      RankOutcome(bandit.catalog, bandit.Builder(), bandit.Weights(pol), pol, row.context, row.segments, None, [],
          samples, bandit.env)
    }

    /** client.rank without a policy id: resolve, then rank. */
    method RankFor(row: ClientRow, active: Option<string>, samples: seq<real>) returns (result: Result<RankResponse>)
      requires Valid() && IsActiveRow(Policies(), active) && |samples| == |bandit.catalog.offers|
      modifies bandit`builder, bandit.store
      ensures Valid() && bandit.Builder() == old(bandit.Builder())
      ensures result == old(RankingFor(row, active, samples))
      ensures bandit.OnlyRead(ServingPolicy(active))
      ensures result.Ok? ==> bandit.store.State(ServingPolicy(active).policyId).Some?
      ensures result.Ok? ==> forall o :: o in result.value.ranked ==> o.armId in result.value.audit.eligible
      ensures result.Ok? ==> InOrder(result.value.ranked)
    {
      var pol := Resolve(Policies(), active, None, defaultAlgorithm).value;
      ghost var weights, cb := bandit.Weights(pol), bandit.Builder();
      FreshFits(pol.algorithm, bandit.catalog, cb.Dim());
      result := bandit.Rank(Some(defaultAlgorithm), row.context, row.segments, None, [], Some(pol), samples);
      if result.Ok? {
        Serving.ServedIsAudited(bandit.catalog, cb, weights, pol, row.context, row.segments, None, [], samples,
            bandit.env);
        forall o | o in result.value.ranked ensures o.armId in result.value.audit.eligible {
          assert Serving.Lists(result.value.ranked, o.armId);
        }
        RankedInOrder(bandit.catalog, cb, weights, pol, row, samples, bandit.env);
      }
    }

    /** What deciding for a known client does: the ranking is the one of the old state, the top or
        the pick is served, a served decision is logged with one impression, a refusal logs nothing,
        and no weights move. */
    twostate predicate Decided(row: ClientRow, clientId: int, armId: Option<string>, newId: nat,
                               active: Option<string>, samples: seq<real>, new r: Result<RankedOffer>,
                               new ranking: Result<RankResponse>)
      requires old(Valid()) && Valid() && Policies() == old(Policies()) && IsActiveRow(Policies(), active)
      requires |samples| == |bandit.catalog.offers|
      reads this, uow, bandit, bandit.store
    {
      && ranking == old(RankingFor(row, active, samples)) && r == Served(ranking, armId)
      && bandit.OnlyRead(ServingPolicy(active))
      && (r.Ok? ==> bandit.store.State(ServingPolicy(active).policyId).Some?)
      && decisions == (if r.Ok? then old(decisions)[newId := Logged(clientId, armId, r.value, ranking.value)]
                       else old(decisions))
      && events == (if r.Ok? then old(events) + [EventRow(newId, IMPRESSION)] else old(events))
    }

    /** Ranks for a known client, chooses and logs. */
    method DecideFor(row: ClientRow, clientId: int, armId: Option<string>, newId: nat, active: Option<string>,
                     samples: seq<real>)
      returns (r: Result<RankedOffer>, ghost ranking: Result<RankResponse>)
      requires Valid() && newId !in decisions && IsActiveRow(Policies(), active)
      requires |samples| == |bandit.catalog.offers|
      modifies this`decisions, this`events, bandit`builder, bandit.store
      ensures Valid()
      ensures Decided(row, clientId, armId, newId, active, samples, r, ranking)
      ensures ranking.Ok? ==> InOrder(ranking.value.ranked)
    {
      var result := RankFor(row, active, samples);
      ranking := result;
      r := Served(result, armId);
      if r.Ok? {
        Log(newId, Logged(clientId, armId, r.value, result.value));
      }
    }

    /** What is checked before ranking: the client first, then the picked arm. */
    function Refusal(clientId: int, armId: Option<string>): (e: Option<Error>)
      reads this`clients, this`knownOffers
      ensures e == None <==> clientId in clients && (armId == None || armId.value in knownOffers)
      ensures clientId !in clients ==> e == Some(NotFound("CLIENT_NOT_FOUND"))
      ensures clientId in clients && e.Some? ==> e == Some(NotFound("ARM_NOT_FOUND"))
    {
      if clientId !in clients then Some(NotFound("CLIENT_NOT_FOUND"))
      else if armId.Some? && armId.value !in knownOffers then Some(NotFound("ARM_NOT_FOUND"))
      else None
    }

    /** `active` is the row get_active_policy found, `newId` the id of the new decision. */
    method Decide(clientId: int, armId: Option<string>, newId: nat, active: Option<string>, samples: seq<real>)
      returns (r: Result<RankedOffer>, ghost ranking: Result<RankResponse>)
      requires Valid() && newId !in decisions && IsActiveRow(Policies(), active)
      requires |samples| == |bandit.catalog.offers|
      modifies this`decisions, this`events, bandit`builder, bandit.store
      ensures Valid()
      ensures old(Refusal(clientId, armId)).Some? ==>
                && r == Err(old(Refusal(clientId, armId)).value) && decisions == old(decisions) && events == old(events)
                && unchanged(bandit, bandit.store)
      ensures old(Refusal(clientId, armId)) == None ==>
                Decided(clients[clientId], clientId, armId, newId, active, samples, r, ranking)
      ensures old(Refusal(clientId, armId)) == None ==>
                && ServedAs(ranking, armId, r)
                && (r.Ok? ==> newId in decisions && LoggedAs(decisions[newId], clientId, armId, r.value, ranking.value))
    {
      var refusal := Refusal(clientId, armId);
      if refusal.Some? {
        return Err(refusal.value), Err(PythonError);
      }
      r, ranking := DecideFor(clients[clientId], clientId, armId, newId, active, samples);
      ServesAsStated(ranking, armId);
      if r.Ok? {
        LogsAsStated(clientId, armId, r.value, ranking.value);
      }
    }

    /** The decision row and its first impression. */
    method Log(newId: nat, row: DecisionRow)
      requires Valid() && newId !in decisions && row.chosenArm in row.audit.eligible
      modifies this`decisions, this`events
      ensures Valid() && bandit.Builder() == old(bandit.Builder())
      ensures decisions == old(decisions)[newId := row]
      ensures events == old(events) + [EventRow(newId, IMPRESSION)]
    {
      decisions := decisions[newId := row];
      events := events + [EventRow(newId, IMPRESSION)];
    }

    method Feedback(decisionId: nat, kind: EventKind) returns (r: Result<()>)
      requires Valid()
      modifies this`events
      ensures Valid()
      ensures r == if decisionId in decisions then Ok(()) else Err(NotFound("DECISION_NOT_FOUND"))
      ensures events == if r.Ok? then old(events) + [EventRow(decisionId, kind)] else old(events)
    {
      if decisionId !in decisions {
        return Err(NotFound("DECISION_NOT_FOUND"));
      }
      events := events + [EventRow(decisionId, kind)];
      return Ok(());
    }

    /** client.update with a policy id: that policy learns, whatever is active now. */
    method Learn(armId: string, value: real, row: ClientRow, policyId: string,
                 active: Option<string>) returns (r: Result<string>)
      requires Valid() && IsActiveRow(Policies(), active)
      modifies bandit`builder, bandit.store
      ensures Valid() && bandit.Builder() == old(bandit.Builder())
      ensures r == LearnResult(old(bandit.Builder()), Policies(), bandit.catalog, bandit.env, armId, value, row,
                policyId)
      ensures forall q :: q != policyId || policyId !in Policies() ==>
                bandit.store.State(q) == old(bandit.store.State(q))
      ensures r.Ok? ==>
                var pol := ResolvedPolicy(policyId, Policies()[policyId].algorithm, true);
                var x := Context.Build(old(bandit.Builder()), row.context, row.segments, bandit.env.parse).value;
                bandit.store.State(policyId)
                    == Some(Models.Learn(old(bandit.Weights(pol)),
                        Update(IndexOf(bandit.catalog.offers, armId).value, x, value)))
    {
      var pol := Resolve(Policies(), active, Some(policyId), defaultAlgorithm);
      if pol.Err? {
        return Err(pol.error);
      }
      r := bandit.Update(Some(defaultAlgorithm), armId, value, row.context, row.segments, Some(pol.value));
    }

    /** The reward goes to the policy that served the decision; the row is written last, so a
        reward whose learning is refused leaves no row. */
    method Reward(decisionId: nat, converted: bool, active: Option<string>) returns (r: Result<real>)
      requires Valid() && IsActiveRow(Policies(), active)
      modifies this`rewards, bandit`builder, bandit.store
      ensures Valid() && bandit.Builder() == old(bandit.Builder())
      ensures decisionId !in decisions ==>
                && r == Err(NotFound("DECISION_NOT_FOUND")) && rewards == old(rewards)
                && forall q :: bandit.store.State(q) == old(bandit.store.State(q))
      ensures r.Ok? ==> IsReward(r.value, events, decisionId, converted)
      ensures decisionId in decisions ==>
                var d := decisions[decisionId];
                var value := RewardValue(events, decisionId, converted);
                match Learner(clients, d)
                case None =>
                  && r == Ok(value) && rewards == Recorded(old(rewards), decisionId, value)
                  && forall q :: bandit.store.State(q) == old(bandit.store.State(q))
                case Some(row) =>
                  && (forall q :: q != d.policyVersion || d.policyVersion !in Policies() ==>
                        bandit.store.State(q) == old(bandit.store.State(q)))
                  && match LearnResult(old(bandit.Builder()), Policies(), bandit.catalog, bandit.env, d.chosenArm,
                      value, row, d.policyVersion)
                     case Err(e) => r == Err(e) && rewards == old(rewards)
                     case Ok(_) =>
                       && r == Ok(value) && rewards == Recorded(old(rewards), decisionId, value)
                       && var pol := ResolvedPolicy(d.policyVersion, Policies()[d.policyVersion].algorithm, true);
                          var x := Context.Build(old(bandit.Builder()), row.context, row.segments,
                              bandit.env.parse).value;
                          bandit.store.State(d.policyVersion)
                          == Some(Models.Learn(old(bandit.Weights(pol)),
                              Update(IndexOf(bandit.catalog.offers, d.chosenArm).value, x, value)))
    {
      if decisionId !in decisions {
        return Err(NotFound("DECISION_NOT_FOUND"));
      }
      var d := decisions[decisionId];
      var value := RewardValue(events, decisionId, converted);
      RewardAsStated(events, decisionId, converted);
      var learner := Learner(clients, d);
      if learner.Some? {
        var learned := Learn(d.chosenArm, value, learner.value, d.policyVersion, active);
        if learned.Err? {
          return Err(learned.error);
        }
      }
      RecordedRows(rewards, decisionId, value);
      rewards := Recorded(rewards, decisionId, value);
      return Ok(value);
    }
  }

  /** When learning from a reward succeeds: the serving policy is a registered one, the arm is
      in the catalogue and the client's context can be built. A decision served by an implicit
      `auto-` policy that nobody registered therefore never teaches anything. */
  function LearnResult(cb: ContextBuilder, policies: PolicyTable, cat: Catalog, env: Env, armId: string, value: real,
                       row: ClientRow, policyId: string): (r: Result<string>)
    requires cb.Valid()
    ensures r.Ok? <==> policyId in policies && IndexOf(cat.offers, armId).Some?
                       && Context.Build(cb, row.context, row.segments, env.parse).Some?
    ensures policyId !in policies ==> r == Err(NotFound("POLICY_NOT_FOUND"))
  {
    if policyId !in policies then Err(NotFound("POLICY_NOT_FOUND"))
    else if IndexOf(cat.offers, armId) == None then Err(NotFound("ARM_NOT_FOUND"))
    else if Context.Build(cb, row.context, row.segments, env.parse) == None then Err(PythonError)
    else Ok(policyId)
  }
}
