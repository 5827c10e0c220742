/** The policy lifecycle (governance/service.py, governance_uow.py): serial transactions. */
module Governance {
  import opened Wrappers
  import opened Policies

  datatype CycleStatus = CANDIDATE | APPROVED | REJECTED | PROMOTED | ROLLED_BACK

  datatype Decision = APPROVE | REJECT

  datatype Cycle = Cycle(policyId: string, status: CycleStatus, registryVersion: Option<string>)

  datatype Verdict = Verdict(runId: string, userId: int, decision: Decision, note: Option<string>)

  datatype Metric = Metric(policyId: string, metric: string, value: real, alert: bool)

  datatype Tables = Tables(
    policies: PolicyTable, cycles: map<string, Cycle>, verdicts: seq<Verdict>, metrics: seq<Metric>)

  /** One governance request. `snapshot` is the registry version, missing when MLflow failed. */
  datatype Op =
    | Register(policyId: string, version: string, algorithm: Algorithm)
    | Promote(policyId: string)
    | Start(policyId: string, runId: string, snapshot: Option<string>)
    | Decide(verdict: Verdict)
    | RollBack(runId: string, toPolicyId: string)
    | Publish(metric: Metric)

  // ---------------------------------------------------------------- what a committed request does

  /** `id` becomes ACTIVE, every other ACTIVE row RETIRED, the rest stays. */
  function Activated(policies: PolicyTable, id: string): PolicyTable {
    map k | k in policies ::
      if k == id then policies[k].(status := ACTIVE)
      else if policies[k].status == ACTIVE then policies[k].(status := RETIRED)
      else policies[k]
  }

  function OthersRetired(policies: PolicyTable, id: string): PolicyTable {
    map k | k in policies ::
      if k != id && policies[k].status == ACTIVE then policies[k].(status := RETIRED) else policies[k]
  }

  function Effect(t: Tables, op: Op): Result<Tables> {
    match op
    case Register(id, version, algorithm) =>
      if id in t.policies then Err(Conflict("POLICY_EXISTS"))
      else Ok(t.(policies := t.policies[id := Policy(version, algorithm, SHADOW)]))
    case Promote(id) =>
      if id !in t.policies then Err(NotFound("POLICY_NOT_FOUND"))
      else Ok(t.(policies := Activated(t.policies, id)))
    case Start(policyId, runId, snapshot) =>
      if policyId !in t.policies then Err(NotFound("POLICY_NOT_FOUND"))
      else if runId in t.cycles then Err(Conflict("RUN_EXISTS"))
      else Ok(t.(cycles := t.cycles[runId := Cycle(policyId, CANDIDATE, snapshot)]))
    case Decide(v) =>
      if v.runId !in t.cycles then Err(NotFound("CYCLE_NOT_FOUND"))
      else
        var cycle := t.cycles[v.runId];
        if v.decision == REJECT then
          Ok(t.(cycles := t.cycles[v.runId := cycle.(status := REJECTED)], verdicts := t.verdicts + [v]))
        else if cycle.policyId !in t.policies then Err(NotFound("POLICY_NOT_FOUND"))
        else Ok(t.(policies := Activated(t.policies, cycle.policyId),
                   cycles := t.cycles[v.runId := cycle.(status := PROMOTED)],
                   verdicts := t.verdicts + [v]))
    case RollBack(runId, toId) =>
      if runId !in t.cycles then Err(NotFound("CYCLE_NOT_FOUND"))
      else if toId !in t.policies then Err(NotFound("POLICY_NOT_FOUND"))
      else
        var cycle := t.cycles[runId];
        Ok(t.(policies := Activated(Retired(t.policies, cycle.policyId), toId),
              cycles := t.cycles[runId := cycle.(status := ROLLED_BACK)]))
    case Publish(m) =>
      if m.policyId !in t.policies then Err(NotFound("POLICY_NOT_FOUND"))
      else Ok(t.(metrics := t.metrics + [m]))
  }

  function Retired(policies: PolicyTable, id: string): PolicyTable {
    if id in policies then policies[id := policies[id].(status := RETIRED)] else policies
  }

  /** What the database holds after a request: a refused or uncommitted one leaves no trace. */
  function Outcome(t: Tables, op: Op, committed: bool): Tables {
    match Effect(t, op)
    case Ok(t') => if committed then t' else t
    case Err(_) => t
  }

  // ---------------------------------------------------------------- the session

  class UnitOfWork {
    var committed: Tables
    var working: Tables

    constructor (t: Tables)
      ensures committed == working == t
    {
      committed, working := t, t;
    }

    method Commit()
      modifies this
      ensures committed == working == old(working)
    {
      committed := working;
    }

    method Rollback()
      modifies this
      ensures committed == working == old(committed)
    {
      working := committed;
    }

    /** `__aexit__`: an exception rolls back; so does a commit that fails. */
    method Exit(raised: bool, commitSucceeds: bool)
      modifies this
      ensures working == committed
      ensures committed == if !raised && commitSucceeds then old(working) else old(committed)
    {
      if raised {
        Rollback();
      } else if commitSucceeds {
        Commit();
      } else {
        Rollback();
      }
    }

    /** Some active row, if there is one. */
    method GetActivePolicy() returns (active: Option<string>)
      ensures IsActiveRow(working.policies, active)
    {
      if id :| id in working.policies && working.policies[id].status == ACTIVE {
        active := Some(id);
      } else {
        active := None;
      }
    }

    method SetStatus(id: string, status: PolicyStatus)
      requires id in working.policies
      modifies this`working
      ensures
        var before := old(working).policies;
        working == old(working).(policies := before[id := before[id].(status := status)])
    {
      working := working.(policies := working.policies[id := working.policies[id].(status := status)]);
    }
  }

  // ---------------------------------------------------------------- the service

  class GovernanceService {
    const uow: UnitOfWork

    constructor (uow: UnitOfWork)
      ensures this.uow == uow
    {
      this.uow := uow;
    }

    /** Retires the active rows but one, one by one. */
    method RetireOthers(id: string)
      requires id in uow.working.policies
      modifies uow`working
      ensures uow.working == old(uow.working).(policies := OthersRetired(old(uow.working.policies), id))
    {
      ghost var before := uow.working.policies;
      var todo := set k | k in uow.working.policies && uow.working.policies[k].status == ACTIVE;
      ghost var seen: set<string> := {};
      while todo != {}
        invariant forall k :: k in todo || k in seen <==> Active(before, k)
        invariant uow.working == old(uow.working).(policies := uow.working.policies)
        invariant uow.working.policies.Keys == before.Keys
        invariant forall k :: k in before ==>
                    uow.working.policies[k]
                    == if k in seen && k !in todo && k != id then before[k].(status := RETIRED) else before[k]
        decreases |todo|
      {
        var k :| k in todo;
        todo := todo - {k};
        seen := seen + {k};
        if k != id {
          uow.SetStatus(k, RETIRED);
        }
      }
      assert uow.working.policies == OthersRetired(before, id);
    }

    /** Then activates the target. */
    method Activate(id: string)
      requires id in uow.working.policies
      modifies uow`working
      ensures uow.working == old(uow.working).(policies := Activated(old(uow.working.policies), id))
    {
      RetireOthers(id);
      uow.SetStatus(id, ACTIVE);
      assert uow.working.policies == Activated(old(uow.working.policies), id);
    }

    /** Runs one request in its own transaction; `commitSucceeds` is the database's answer to
        the commit. */
    method Execute(op: Op, commitSucceeds: bool) returns (r: Result<()>)
      requires uow.working == uow.committed
      modifies uow
      ensures uow.working == uow.committed == Outcome(old(uow.committed), op, commitSucceeds)
      ensures match Effect(old(uow.committed), op)
              case Ok(_) => r == if commitSucceeds then Ok(()) else Err(PythonError)
              case Err(e) => r == Err(e)
      ensures r.Ok? ==> MovedAs(old(uow.committed), uow.committed, op)
      ensures r.Err? ==> uow.committed == old(uow.committed)
      ensures r.Err? && commitSucceeds ==> RefusedAs(old(uow.committed), op, r.error)
    {
      ghost var before := uow.committed;
      match op {
        case Register(id, version, algorithm) => r := RegisterPolicy(id, version, algorithm);
        case Promote(id) => r := PromotePolicy(id);
        case Start(policyId, runId, snapshot) => r := StartCycle(policyId, runId, snapshot);
        case Decide(v) => r := DecideApproval(v);
        case RollBack(runId, toId) => r := RollbackCycle(runId, toId);
        case Publish(m) => r := PublishMetric(m);
      }
      uow.Exit(r.Err?, commitSucceeds);
      if r.Ok? && !commitSucceeds {
        r := Err(PythonError);
      }
      EffectExactly(before, op);
    }

    method RegisterPolicy(id: string, version: string, algorithm: Algorithm) returns (r: Result<()>)
      modifies uow`working
      ensures Done(old(uow.working), Register(id, version, algorithm), uow.working, r)
    {
      if id in uow.working.policies {
        return Err(Conflict("POLICY_EXISTS"));
      }
      uow.working := uow.working.(policies := uow.working.policies[id := Policy(version, algorithm, SHADOW)]);
      return Ok(());
    }

    method PromotePolicy(id: string) returns (r: Result<()>)
      modifies uow`working
      ensures Done(old(uow.working), Promote(id), uow.working, r)
    {
      if id !in uow.working.policies {
        return Err(NotFound("POLICY_NOT_FOUND"));
      }
      Activate(id);
      return Ok(());
    }

    method StartCycle(policyId: string, runId: string, snapshot: Option<string>) returns (r: Result<()>)
      modifies uow`working
      ensures Done(old(uow.working), Start(policyId, runId, snapshot), uow.working, r)
    {
      if policyId !in uow.working.policies {
        return Err(NotFound("POLICY_NOT_FOUND"));
      }
      if runId in uow.working.cycles {
        return Err(Conflict("RUN_EXISTS"));
      }
      uow.working := uow.working.(cycles := uow.working.cycles[runId := Cycle(policyId, CANDIDATE, snapshot)]);
      return Ok(());
    }

    method DecideApproval(v: Verdict) returns (r: Result<()>)
      modifies uow`working
      ensures Done(old(uow.working), Decide(v), uow.working, r)
    {
      if v.runId !in uow.working.cycles {
        return Err(NotFound("CYCLE_NOT_FOUND"));
      }
      var cycle := uow.working.cycles[v.runId];
      uow.working := uow.working.(verdicts := uow.working.verdicts + [v]);
      var status := REJECTED;
      if v.decision == APPROVE {
        if cycle.policyId !in uow.working.policies {
          return Err(NotFound("POLICY_NOT_FOUND"));
        }
        Activate(cycle.policyId);
        status := PROMOTED;
      }
      uow.working := uow.working.(cycles := uow.working.cycles[v.runId := cycle.(status := status)]);
      return Ok(());
    }

    /** The cycle's policy is retired before the target is looked up. */
    method RollbackCycle(runId: string, toId: string) returns (r: Result<()>)
      modifies uow`working
      ensures Done(old(uow.working), RollBack(runId, toId), uow.working, r)
    {
      if runId !in uow.working.cycles {
        return Err(NotFound("CYCLE_NOT_FOUND"));
      }
      var cycle := uow.working.cycles[runId];
      if cycle.policyId in uow.working.policies {
        uow.SetStatus(cycle.policyId, RETIRED);
      }
      if toId !in uow.working.policies {
        return Err(NotFound("POLICY_NOT_FOUND"));
      }
      Activate(toId);
      uow.working := uow.working.(cycles := uow.working.cycles[runId := cycle.(status := ROLLED_BACK)]);
      return Ok(());
    }

    method PublishMetric(m: Metric) returns (r: Result<()>)
      modifies uow`working
      ensures Done(old(uow.working), Publish(m), uow.working, r)
    {
      if m.policyId !in uow.working.policies {
        return Err(NotFound("POLICY_NOT_FOUND"));
      }
      uow.working := uow.working.(metrics := uow.working.metrics + [m]);
      return Ok(());
    }
  }

  /** Inside the transaction: an accepted request has its whole effect, a refused one may
      leave the working tables half changed. */
  ghost predicate Done(before: Tables, op: Op, after: Tables, r: Result<()>) {
    match Effect(before, op)
    case Ok(t) => r == Ok(()) && after == t
    case Err(e) => r == Err(e)
  }

  // ---------------------------------------------------------------- statuses

  function StatusOf(t: Tables, p: string): PolicyStatus
    requires p in t.policies
  {
    t.policies[p].status
  }

  /** The target is ACTIVE, every other row that was ACTIVE is RETIRED, and so is `alsoRetired` unless
      it is the target; every remaining row keeps its status. No row appears or disappears. */
  ghost predicate Replaced(before: Tables, after: Tables, target: string, alsoRetired: Option<string>) {
    && after.policies.Keys == before.policies.Keys && target in before.policies && StatusOf(after, target) == ACTIVE
    && forall p :: p in before.policies && p != target ==>
         StatusOf(after, p) == if StatusOf(before, p) == ACTIVE || alsoRetired == Some(p) then RETIRED
                               else StatusOf(before, p)
  }

  ghost predicate CycleBecomes(before: Tables, after: Tables, runId: string, status: CycleStatus) {
    runId in before.cycles && after.cycles == before.cycles[runId := before.cycles[runId].(status := status)]
  }

  /** What an accepted request does, by the statuses of the rows. */
  ghost predicate MovedAs(before: Tables, after: Tables, op: Op) {
    && (op.Decide? || after.verdicts == before.verdicts) && (op.Publish? || after.metrics == before.metrics)
    && match op
       case Register(id, version, algorithm) =>
         && id !in before.policies && after.cycles == before.cycles
         && after.policies == before.policies[id := Policy(version, algorithm, SHADOW)]
       case Promote(id) => Replaced(before, after, id, None) && after.cycles == before.cycles
       case Start(policyId, runId, snapshot) =>
         && policyId in before.policies && runId !in before.cycles && after.policies == before.policies
         && after.cycles == before.cycles[runId := Cycle(policyId, CANDIDATE, snapshot)]
       case Decide(v) =>
         && v.runId in before.cycles && after.verdicts == before.verdicts + [v]
         && (if v.decision == APPROVE then
               && Replaced(before, after, before.cycles[v.runId].policyId, None)
               && CycleBecomes(before, after, v.runId, PROMOTED)
             else
               after.policies == before.policies && CycleBecomes(before, after, v.runId, REJECTED))
       case RollBack(runId, toId) =>
         && CycleBecomes(before, after, runId, ROLLED_BACK)
         && Replaced(before, after, toId, Some(before.cycles[runId].policyId))
       case Publish(m) =>
         && m.policyId in before.policies && after.policies == before.policies && after.cycles == before.cycles
         && after.metrics == before.metrics + [m]
  }

  lemma ActivatedReplaces(before: Tables, after: Tables, id: string)
    requires id in before.policies && after.policies == Activated(before.policies, id)
    ensures Replaced(before, after, id, None)
  {
  }

  lemma RetiredReplaces(before: Tables, after: Tables, also: string, id: string)
    requires id in before.policies && after.policies == Activated(Retired(before.policies, also), id)
    ensures Replaced(before, after, id, Some(also))
  {
  }

  lemma EffectMoves(t: Tables, op: Op)
    requires Effect(t, op).Ok?
    ensures MovedAs(t, Effect(t, op).value, op)
  {
    var t' := Effect(t, op).value;
    match op
    case Promote(id) => ActivatedReplaces(t, t', id);
    case Decide(v) =>
      if v.decision == APPROVE {
        ActivatedReplaces(t, t', t.cycles[v.runId].policyId);
      }
    case RollBack(runId, toId) => RetiredReplaces(t, t', t.cycles[runId].policyId, toId);
    case _ =>
  }

  /** When a request is refused, and with which code. */
  ghost predicate RefusedAs(t: Tables, op: Op, e: Error) {
    match op
    case Register(id, _, _) => id in t.policies && e == Conflict("POLICY_EXISTS")
    case Promote(id) => id !in t.policies && e == NotFound("POLICY_NOT_FOUND")
    case Start(policyId, runId, _) =>
      || (policyId !in t.policies && e == NotFound("POLICY_NOT_FOUND"))
      || (policyId in t.policies && runId in t.cycles && e == Conflict("RUN_EXISTS"))
    case Decide(v) =>
      || (v.runId !in t.cycles && e == NotFound("CYCLE_NOT_FOUND"))
      || (v.runId in t.cycles && v.decision == APPROVE && t.cycles[v.runId].policyId !in t.policies
          && e == NotFound("POLICY_NOT_FOUND"))
    case RollBack(runId, toId) =>
      || (runId !in t.cycles && e == NotFound("CYCLE_NOT_FOUND"))
      || (runId in t.cycles && toId !in t.policies && e == NotFound("POLICY_NOT_FOUND"))
    case Publish(m) => m.policyId !in t.policies && e == NotFound("POLICY_NOT_FOUND")
  }

  /** A request is refused exactly in these cases, and otherwise moves the tables as stated. */
  lemma EffectExactly(t: Tables, op: Op)
    ensures Effect(t, op).Err? ==> RefusedAs(t, op, Effect(t, op).error)
    ensures Effect(t, op).Ok? ==> MovedAs(t, Effect(t, op).value, op) && forall e :: !RefusedAs(t, op, e)
  {
    if Effect(t, op).Ok? {
      EffectMoves(t, op);
    }
  }

  /** The request, if accepted, promotes p, approves or rolls back a cycle of p, or rolls back to p. */
  predicate Concerns(t: Tables, op: Op, p: string) {
    match op
    case Promote(id) => id == p
    case Decide(v) => v.decision == APPROVE && v.runId in t.cycles && t.cycles[v.runId].policyId == p
    case RollBack(runId, toId) => toId == p || (runId in t.cycles && t.cycles[runId].policyId == p)
    case _ => false
  }

  /** It did so, and was committed. */
  predicate Touches(t: Tables, r: Request, p: string) {
    r.committed && Effect(t, r.op).Ok? && Concerns(t, r.op, p)
  }

  lemma OutcomeStatus(t: Tables, r: Request, p: string)
    requires p in t.policies
    ensures p in Outcome(t, r.op, r.committed).policies
    ensures StatusOf(t, p) != SHADOW ==> StatusOf(Outcome(t, r.op, r.committed), p) != SHADOW
    ensures StatusOf(t, p) == SHADOW ==>
              (StatusOf(Outcome(t, r.op, r.committed), p) == SHADOW <==> !Touches(t, r, p))
  {
    if Effect(t, r.op).Ok? {
      EffectMoves(t, r.op);
    }
  }

  /** A policy that was ever in service is ACTIVE or RETIRED ever after. */
  lemma {:induction false} NeverShadowAgain(t: Tables, rs: seq<Request>, p: string)
    requires p in t.policies && StatusOf(t, p) != SHADOW
    ensures p in Run(t, rs).policies && StatusOf(Run(t, rs), p) in {ACTIVE, RETIRED}
  {
    if rs != [] {
      NeverShadowAgain(t, rs[..|rs| - 1], p);
      OutcomeStatus(Run(t, rs[..|rs| - 1]), rs[|rs| - 1], p);
    }
  }

  /** A registered policy is still SHADOW exactly if no committed request ever promoted it, approved or
      rolled back a cycle of it, or rolled back to it. */
  lemma {:induction false} ShadowExactly(t: Tables, rs: seq<Request>, p: string)
    requires p in t.policies && StatusOf(t, p) == SHADOW
    ensures p in Run(t, rs).policies
    ensures StatusOf(Run(t, rs), p) == SHADOW
       <==> forall k :: 0 <= k < |rs| ==> !Touches(Run(t, rs[..k]), rs[k], p)
  {
    if rs != [] {
      var last := |rs| - 1;
      ShadowExactly(t, rs[..last], p);
      OutcomeStatus(Run(t, rs[..last]), rs[last], p);
      forall k | 0 <= k < last ensures rs[..last][..k] == rs[..k] && rs[..last][k] == rs[k] {
      }
    }
  }

  // ---------------------------------------------------------------- invariants of every run

  datatype Request = Request(op: Op, committed: bool)

  function Run(t: Tables, rs: seq<Request>): Tables {
    if rs == [] then t
    else
      var r := rs[|rs| - 1];
      Outcome(Run(t, rs[..|rs| - 1]), r.op, r.committed)
  }

  const EMPTY := Tables(map[], map[], [], [])

  ghost predicate AtMostOneActive(t: Tables) {
    forall p, q :: Active(t.policies, p) && Active(t.policies, q) ==> p == q
  }

  ghost predicate SomeActive(t: Tables) {
    exists p :: Active(t.policies, p)
  }

  /** The last human word on a run. */
  function LastVerdict(verdicts: seq<Verdict>, runId: string): Option<Decision> {
    if verdicts == [] then None
    else
      var v := verdicts[|verdicts| - 1];
      if v.runId == runId then Some(v.decision) else LastVerdict(verdicts[..|verdicts| - 1], runId)
  }

  /** A cycle's status is what the verdict log says, until it is rolled back. */
  predicate StatusBacked(status: CycleStatus, last: Option<Decision>) {
    match status
    case CANDIDATE => last == None
    case PROMOTED => last == Some(APPROVE)
    case REJECTED => last == Some(REJECT)
    case ROLLED_BACK => true
    case APPROVED => false
  }

  ghost predicate Referenced(t: Tables) {
    && (forall c :: c in t.cycles ==> t.cycles[c].policyId in t.policies)
    && (forall v :: v in t.verdicts ==> v.runId in t.cycles)
  }

  ghost predicate Backed(t: Tables) {
    forall c :: c in t.cycles ==> StatusBacked(t.cycles[c].status, LastVerdict(t.verdicts, c))
  }

  ghost predicate Sound(t: Tables) {
    AtMostOneActive(t) && Referenced(t) && Backed(t)
  }

  lemma {:induction false} LastVerdictOfStranger(verdicts: seq<Verdict>, runId: string)
    requires forall v :: v in verdicts ==> v.runId != runId
    ensures LastVerdict(verdicts, runId) == None
  {
    if verdicts != [] {
      assert verdicts[|verdicts| - 1] in verdicts;
      LastVerdictOfStranger(verdicts[..|verdicts| - 1], runId);
    }
  }

  /** Activation leaves exactly the target active. */
  lemma ActivatedActive(policies: PolicyTable, id: string)
    requires id in policies
    ensures forall p :: Active(Activated(policies, id), p) <==> p == id
  {
  }

  lemma OutcomeActive(t: Tables, op: Op)
    requires AtMostOneActive(t) && Effect(t, op).Ok?
    ensures AtMostOneActive(Effect(t, op).value)
    ensures SomeActive(t) ==> SomeActive(Effect(t, op).value)
  {
    var t' := Effect(t, op).value;
    match op
    case Promote(id) =>
      ActivatedActive(t.policies, id);
      assert Active(t'.policies, id);
    case RollBack(runId, toId) =>
      ActivatedActive(Retired(t.policies, t.cycles[runId].policyId), toId);
      assert Active(t'.policies, toId);
    case Decide(v) =>
      if v.decision == APPROVE {
        ActivatedActive(t.policies, t.cycles[v.runId].policyId);
        assert Active(t'.policies, t.cycles[v.runId].policyId);
      } else {
        assert t'.policies == t.policies;
      }
    case Register(_, _, _) =>
      assert forall p :: Active(t'.policies, p) <==> Active(t.policies, p);
    case _ =>
      assert t'.policies == t.policies;
  }

  lemma OutcomeReferenced(t: Tables, op: Op)
    requires Referenced(t) && Effect(t, op).Ok?
    ensures Referenced(Effect(t, op).value)
  {
    var t' := Effect(t, op).value;
    assert t.policies.Keys <= t'.policies.Keys && t.cycles.Keys <= t'.cycles.Keys;
    forall v | v in t'.verdicts ensures v.runId in t'.cycles {
      assert v in t.verdicts || op == Decide(v);
    }
  }

  lemma OutcomeBacked(t: Tables, op: Op)
    requires Referenced(t) && Backed(t) && Effect(t, op).Ok?
    ensures Backed(Effect(t, op).value)
  {
    var t' := Effect(t, op).value;
    match op
    case Start(_, runId, _) => LastVerdictOfStranger(t.verdicts, runId);
    case Decide(v) =>
      assert t'.verdicts[..|t'.verdicts| - 1] == t.verdicts;
    case _ =>
      assert t'.verdicts == t.verdicts;
  }

  /** One request keeps a sound database sound and never leaves it without an active policy. */
  lemma OutcomeSound(t: Tables, op: Op, committed: bool)
    requires Sound(t)
    ensures Sound(Outcome(t, op, committed))
    ensures SomeActive(t) ==> SomeActive(Outcome(t, op, committed))
  {
    if Effect(t, op).Ok? {
      OutcomeActive(t, op);
      OutcomeReferenced(t, op);
      OutcomeBacked(t, op);
    }
  }

  /** Every run of requests from empty tables, whatever commits and whatever is refused: at
      most one policy is ACTIVE, every cycle's policy exists, every cycle's status is backed
      by the last verdict on its run, and APPROVED never occurs. */
  lemma {:induction false} EveryRunSound(rs: seq<Request>)
    ensures Sound(Run(EMPTY, rs))
  {
    if rs != [] {
      EveryRunSound(rs[..|rs| - 1]);
      OutcomeSound(Run(EMPTY, rs[..|rs| - 1]), rs[|rs| - 1].op, rs[|rs| - 1].committed);
    }
  }

  /** Once some policy was activated, exactly one is active for ever. */
  lemma {:induction false} ActiveForEver(rs: seq<Request>, more: seq<Request>)
    requires SomeActive(Run(EMPTY, rs))
    ensures SomeActive(Run(EMPTY, rs + more)) && AtMostOneActive(Run(EMPTY, rs + more))
  {
    EveryRunSound(rs + more);
    if more == [] {
      assert rs + more == rs;
    } else {
      var prior, r := rs + more[..|more| - 1], more[|more| - 1];
      ActiveForEver(rs, more[..|more| - 1]);
      EveryRunSound(prior);
      assert (rs + more)[..|rs + more| - 1] == prior;
      OutcomeSound(Run(EMPTY, prior), r.op, r.committed);
    }
  }

  /** Changing statuses loses no row and no algorithm. */
  lemma StatusesPersist(policies: PolicyTable, id: string, toId: string)
    ensures forall p :: p in policies ==>
              && p in Activated(Retired(policies, id), toId)
              && Activated(Retired(policies, id), toId)[p].algorithm == policies[p].algorithm
              && Activated(Retired(policies, id), toId)[p].version == policies[p].version
    ensures forall p :: p in policies ==>
              && p in Activated(policies, toId) && Activated(policies, toId)[p].algorithm == policies[p].algorithm
              && Activated(policies, toId)[p].version == policies[p].version
  {
  }

  lemma OutcomePersists(t: Tables, op: Op, committed: bool)
    ensures forall p :: p in t.policies ==>
              && p in Outcome(t, op, committed).policies
              && Outcome(t, op, committed).policies[p].algorithm == t.policies[p].algorithm
              && Outcome(t, op, committed).policies[p].version == t.policies[p].version
    ensures t.verdicts <= Outcome(t, op, committed).verdicts
  {
    if Effect(t, op).Ok? {
      match op
      case Promote(id) => StatusesPersist(t.policies, id, id);
      case Decide(v) => StatusesPersist(t.policies, v.runId, t.cycles[v.runId].policyId);
      case RollBack(runId, toId) => StatusesPersist(t.policies, t.cycles[runId].policyId, toId);
      case _ =>
    }
  }

  /** Registered policies stay, with their algorithm and version; verdicts are never erased. */
  lemma {:induction false} RowsPersist(t: Tables, rs: seq<Request>)
    ensures forall p :: p in t.policies ==>
              && p in Run(t, rs).policies
              && Run(t, rs).policies[p].algorithm == t.policies[p].algorithm
              && Run(t, rs).policies[p].version == t.policies[p].version
    ensures t.verdicts <= Run(t, rs).verdicts
  {
    if rs != [] {
      RowsPersist(t, rs[..|rs| - 1]);
      OutcomePersists(Run(t, rs[..|rs| - 1]), rs[|rs| - 1].op, rs[|rs| - 1].committed);
    }
  }

  /** In a sound database an approval of a known cycle is never refused: the policy lookup
      behind it cannot fail. It leaves the cycle's policy as the one active policy. */
  lemma ApprovalSucceeds(t: Tables, v: Verdict)
    requires Sound(t) && v.runId in t.cycles && v.decision == APPROVE
    ensures Effect(t, Decide(v)).Ok?
    ensures forall p :: Active(Effect(t, Decide(v)).value.policies, p) <==> p == t.cycles[v.runId].policyId
  {
  }

  /** A rollback succeeds exactly when the cycle and the target exist. Then the target is the
      one active policy, even if it is the policy being rolled back; otherwise nothing changes,
      although the cycle's policy had already been retired inside the transaction. */
  lemma RollbackExact(t: Tables, runId: string, toId: string)
    requires Sound(t)
    ensures Effect(t, RollBack(runId, toId)).Ok? <==> runId in t.cycles && toId in t.policies
    ensures Effect(t, RollBack(runId, toId)).Ok? ==>
              forall p :: Active(Effect(t, RollBack(runId, toId)).value.policies, p) <==> p == toId
    ensures !(runId in t.cycles && toId in t.policies) ==> Outcome(t, RollBack(runId, toId), true) == t
  {
  }
}
