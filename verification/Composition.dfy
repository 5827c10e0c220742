/** Governance over the interleaved store: what a rollback brings back. */
module Composition {
  import opened Wrappers
  import opened Clients
  import opened Kernel
  import opened Ridge
  import opened Catalog
  import opened Context
  import opened Models
  import opened Policies
  import opened Service
  import opened Protocol
  import opened LostUpdates
  import opened Governance
  import LinUcb
  import Thompson

  /** The algorithm behind a policy id: its row's, or the one an implicit id names. No request
      resolves to any other id. */
  function AlgorithmOf(policies: PolicyTable, p: string): Algorithm {
    if p in policies then policies[p].algorithm
    else if AUTO_PREFIX <= p && p[|AUTO_PREFIX|..] in ALGORITHMS then p[|AUTO_PREFIX|..]
    else ALGORITHMS[0]
  }

  /** The store's machine: fresh models by the policy's algorithm, learning as the step. */
  function BanditMachine(cat: Catalog, cb: ContextBuilder, policies: PolicyTable): Machine<ModelState, Update> {
    Machine((p: string) => FreshModel(AlgorithmOf(policies, p), cat, cb.Dim()), Learn)
  }

  datatype World = World(tables: Tables, sys: Sys<ModelState, Update>)

  datatype Call = Learning(event: Update) | Ranking | Restoring(model: ModelState)

  /** Governance transactions, requests and store commands, in any order. `reader` is the request
      that takes the snapshot of a new cycle, missing where none is injected; `active` is the row
      that get_active_policy found. */
  datatype Event =
    | Gov(request: Governance.Request, reader: Option<Tid>)
    | Arrive(t: Tid, active: Option<string>, policyId: Option<string>, algorithm: Algorithm, call: Call)
    | Cmd(step: Step<ModelState, Update>)

  function Admitted(p: string, call: Call): Pc<ModelState, Update> {
    match call
    case Learning(e) => UpdateStart(p, e)
    case Ranking => ReadStart(p)
    case Restoring(model) => RestoreStart(p, model)
  }

  ghost predicate Enabled(w: World, e: Event) {
    match e
    case Gov(_, _) => true
    case Arrive(_, active, _, _, _) => IsActiveRow(w.tables.policies, active)
    case Cmd(step) => !step.Begin?
  }

  /** An accepted start of a cycle reads the policy's weights like any unlocked caller; the other
      transactions leave the store alone. A request is admitted under the policy it resolves to. */
  ghost function StoreStep(w: World, e: Event): Option<Step<ModelState, Update>>
    requires Enabled(w, e)
  {
    match e
    case Gov(r, reader) =>
      if r.op.Start? && Effect(w.tables, r.op).Ok? && reader.Some?
      then Some(Begin(reader.value, ReadStart(r.op.policyId))) else None
    case Arrive(t, active, policyId, algorithm, call) =>
      (match Resolve(w.tables.policies, active, policyId, algorithm)
       case Ok(pol) => Some(Begin(t, Admitted(pol.policyId, call)))
       case Err(_) => None)
    case Cmd(step) => Some(step)
  }

  function TablesAfter(t: Tables, e: Event): Tables {
    if e.Gov? then Outcome(t, e.request.op, e.request.committed) else t
  }

  ghost function NextWorld(m: Machine<ModelState, Update>, w: World, e: Event): Option<World> {
    if !Enabled(w, e) then None
    else
      match StoreStep(w, e)
      case None => Some(w.(tables := TablesAfter(w.tables, e)))
      case Some(step) =>
        match Next(m, w.sys, step)
        case Some(sys) => Some(World(TablesAfter(w.tables, e), sys))
        case None => None
  }

  ghost function RunWorld(m: Machine<ModelState, Update>, w: World, es: seq<Event>): Option<World>
    decreases |es|
  {
    if es == [] then Some(w)
    else match NextWorld(m, w, es[0])
      case Some(w') => RunWorld(m, w', es[1..])
      case None => None
  }

  /** The store commands of a run. */
  ghost function Trace(m: Machine<ModelState, Update>, w: World, es: seq<Event>): seq<Step<ModelState, Update>>
    requires RunWorld(m, w, es).Some?
    decreases |es|
  {
    if es == [] then []
    else
      var rest := Trace(m, NextWorld(m, w, es[0]).value, es[1..]);
      match StoreStep(w, es[0])
      case None => rest
      case Some(step) => [step] + rest
  }

  lemma {:induction false} RunIsTrace(m: Machine<ModelState, Update>, w: World, es: seq<Event>)
    requires RunWorld(m, w, es).Some?
    ensures Exec(m, w.sys, Trace(m, w, es)) == Some(RunWorld(m, w, es).value.sys)
    decreases |es|
  {
    if es != [] {
      var w' := NextWorld(m, w, es[0]).value;
      RunIsTrace(m, w', es[1..]);
      var step := StoreStep(w, es[0]);
      if step.Some? {
        assert Trace(m, w, es) == [step.value] + Trace(m, w', es[1..]);
        assert Trace(m, w, es)[1..] == Trace(m, w', es[1..]);
      }
    }
  }

  lemma {:induction false} RunConcat(m: Machine<ModelState, Update>, w: World, a: seq<Event>, b: seq<Event>)
    requires RunWorld(m, w, a).Some?
    ensures RunWorld(m, w, a + b) == RunWorld(m, RunWorld(m, w, a).value, b)
    decreases |a|
  {
    if a == [] {
      assert a + b == b;
    } else {
      assert (a + b)[1..] == a[1..] + b;
      RunConcat(m, NextWorld(m, w, a[0]).value, a[1..], b);
    }
  }

  /** Whatever the store does, policies stay registered under their algorithms and the
      governance invariants hold. */
  lemma {:induction false} RowsStay(m: Machine<ModelState, Update>, w: World, es: seq<Event>)
    requires RunWorld(m, w, es).Some?
    ensures
      var t := RunWorld(m, w, es).value.tables;
      && (Sound(w.tables) ==> Sound(t))
      && forall p :: p in w.tables.policies ==>
          p in t.policies && t.policies[p].algorithm == w.tables.policies[p].algorithm
    decreases |es|
  {
    if es != [] {
      var w' := NextWorld(m, w, es[0]).value;
      if es[0].Gov? {
        OutcomePersists(w.tables, es[0].request.op, es[0].request.committed);
        if Sound(w.tables) {
          OutcomeSound(w.tables, es[0].request.op, es[0].request.committed);
        }
      }
      RowsStay(m, w', es[1..]);
    }
  }

  // ---------------------------------------------------------------- the machine follows the tables

  /** Between a resolution and the final tables only one thing can happen to an id: an implicit one
      is registered with another algorithm. */
  lemma ResolvedAlgorithm(early: PolicyTable, late: PolicyTable, active: Option<string>, policyId: Option<string>,
                          algorithm: Algorithm)
    requires IsActiveRow(early, active)
    requires forall p :: p in early ==> p in late && late[p].algorithm == early[p].algorithm
    ensures
      var pol := Resolve(early, active, policyId, algorithm);
      pol.Ok? ==> (pol.value.algorithm == AlgorithmOf(late, pol.value.policyId)
                   <==> pol.value.governed || !Renamed(late, pol.value))
  {
    var id := AUTO_PREFIX + algorithm;
    assert id[|AUTO_PREFIX|..] == algorithm && AUTO_PREFIX <= id;
  }

  /** Somebody registered a policy under this name, with another algorithm. */
  predicate Renamed(policies: PolicyTable, pol: ResolvedPolicy) {
    pol.policyId in policies && policies[pol.policyId].algorithm != pol.algorithm
  }

  /** The machine builds the fresh models the code would build: at any moment of a run, the
      algorithm that a request resolves to, or that a snapshot is taken for, is the one the final
      tables give for that id, although policies are registered and promoted all along the run. The
      one exception, exactly, is an implicit policy whose name is registered with another algorithm. */
  lemma {:induction false} MachineFollowsTables(m: Machine<ModelState, Update>, w: World, e: Event, after: seq<Event>,
                                                w2: World)
    requires RunWorld(m, w, [e] + after) == Some(w2)
    ensures Enabled(w, e)
    ensures e.Arrive? ==>
              var pol := Resolve(w.tables.policies, e.active, e.policyId, e.algorithm);
              pol.Ok? ==> (pol.value.algorithm == AlgorithmOf(w2.tables.policies, pol.value.policyId)
                           <==> pol.value.governed || !Renamed(w2.tables.policies, pol.value))
    ensures e.Gov? && StoreStep(w, e).Some? ==>
              var p := e.request.op.policyId;
              p in w.tables.policies && w.tables.policies[p].algorithm == AlgorithmOf(w2.tables.policies, p)
  {
    assert ([e] + after)[0] == e;
    RowsStay(m, w, [e] + after);
    if e.Arrive? {
      ResolvedAlgorithm(w.tables.policies, w2.tables.policies, e.active, e.policyId, e.algorithm);
    }
  }

  // ---------------------------------------------------------------- what governance does to the store

  /** A governance transaction leaves every weight, lock and completed write as it was, and at most
      admits one unlocked reader of a registered policy. */
  lemma GovernanceStep(m: Machine<ModelState, Update>, w: World, e: Event)
    requires e.Gov? && NextWorld(m, w, e).Some?
    ensures OnlyReadersAdded(w, NextWorld(m, w, e).value)
  {
  }

  ghost predicate OnlyReadersAdded(w: World, w': World) {
    && w'.sys.store == w.sys.store && w'.sys.lock == w.sys.lock && w'.sys.completed == w.sys.completed
    && (forall t :: t in w.sys.threads ==> t in w'.sys.threads && w'.sys.threads[t] == w.sys.threads[t])
    && forall t :: t in w'.sys.threads && t !in w.sys.threads ==>
         w'.sys.threads[t].ReadStart? && w'.sys.threads[t].p in w'.tables.policies
  }

  /** Governance alone, in any run of its own: no weight, lock or completed write changes, no request
      in flight moves, and every new one is an unlocked reader of a registered policy: the snapshot
      of a cycle. */
  lemma {:induction false} GovernanceRun(m: Machine<ModelState, Update>, w: World, es: seq<Event>)
    requires RunWorld(m, w, es).Some? && forall e :: e in es ==> e.Gov?
    ensures OnlyReadersAdded(w, RunWorld(m, w, es).value)
    decreases |es|
  {
    if es != [] {
      var w1 := NextWorld(m, w, es[0]).value;
      assert es[0] in es && forall e :: e in es[1..] ==> e in es;
      GovernanceStep(m, w, es[0]);
      GovernanceRun(m, w1, es[1..]);
      RowsStay(m, w1, es[1..]);
    }
  }

  function Cmds(steps: seq<Step<ModelState, Update>>): seq<Event> {
    seq(|steps|, i requires 0 <= i < |steps| => Cmd(steps[i]))
  }

  lemma {:induction false} CmdsRun(m: Machine<ModelState, Update>, w: World, steps: seq<Step<ModelState, Update>>)
    requires Exec(m, w.sys, steps).Some? && forall i :: 0 <= i < |steps| ==> steps[i].Advance?
    ensures RunWorld(m, w, Cmds(steps)) == Some(w.(sys := Exec(m, w.sys, steps).value))
    decreases |steps|
  {
    if steps != [] {
      var w' := w.(sys := Next(m, w.sys, steps[0]).value);
      assert Cmds(steps)[0] == Cmd(steps[0]) && Cmds(steps)[1..] == Cmds(steps[1..]);
      CmdsRun(m, w', steps[1..]);
    }
  }

  lemma {:induction false} RunFirstEvent(m: Machine<ModelState, Update>, w: World, e: Event, rest: seq<Event>)
    requires NextWorld(m, w, e).Some?
    ensures RunWorld(m, w, [e] + rest) == RunWorld(m, NextWorld(m, w, e).value, rest)
  {
    assert ([e] + rest)[1..] == rest;
  }

  /** A request to start a cycle that the tables accept. */
  predicate Startable(w: World, p: string, runId: string) {
    p in w.tables.policies && runId !in w.tables.cycles
  }

  function Starting(p: string, runId: string, version: Option<string>, t: Tid): Event {
    Gov(Request(Start(p, runId, version), true), Some(t))
  }

  /** Starting a cycle for a policy that nobody has used yet creates its weights. */
  lemma {:induction false} StartInitialises(m: Machine<ModelState, Update>, w: World, p: string, runId: string,
                                            version: Option<string>, t: Tid)
    requires Startable(w, p, runId) && t !in w.sys.threads && p !in w.sys.store
    ensures RunWorld(m, w, [Starting(p, runId, version, t)] + Cmds([Advance(t), Advance(t), Advance(t)]))
         == Some(World(Outcome(w.tables, Start(p, runId, version), true), Initialised(m, w.sys, p)))
  {
    var start, steps := Starting(p, runId, version, t), [Advance(t), Advance(t), Advance(t)];
    var w1 := NextWorld(m, w, start).value;
    ReaderAlone(m, w1.sys, p, t);
    CmdsRun(m, w1, steps);
    RunFirstEvent(m, w, start, Cmds(steps));
    assert w1.sys.threads - {t} == w.sys.threads;
  }

  /** The snapshot has missed the key; one whole update of p is admitted and completes. */
  lemma {:induction false} UpdateDuringSnapshot(m: Machine<ModelState, Update>, w: World, p: string, u: Tid,
                                                e: Update, active: Option<string>, algorithm: Algorithm)
    returns (es: seq<Event>, w': World)
    requires p in w.tables.policies && IsActiveRow(w.tables.policies, active)
    requires u !in w.sys.threads && p !in w.sys.lock
    ensures RunWorld(m, w, es) == Some(w') && w'.tables == w.tables
    ensures w'.sys.lock == w.sys.lock && w'.sys.threads == w.sys.threads && p in w'.sys.store
    ensures w'.sys.store == w.sys.store[p := w'.sys.store[p]] && w'.sys.Completed(p) == w.sys.Completed(p) + [Did(e)]
  {
    var arrive := Arrive(u, active, Some(p), algorithm, Learning(e));
    var w1 := NextWorld(m, w, arrive).value;
    var rest := AdmittedAlone(m, w1.sys, p, u, e);
    CmdsRun(m, w1, rest);
    RunFirstEvent(m, w, arrive, Cmds(rest));
    es, w' := [arrive] + Cmds(rest), w1.(sys := Exec(m, w1.sys, rest).value);
    assert w'.sys.threads == w.sys.threads;
  }

  /** The snapshot of a new cycle looks for the key and misses it. */
  lemma {:induction false} SnapshotMisses(m: Machine<ModelState, Update>, w: World, p: string, runId: string,
                                          version: Option<string>, t: Tid)
    requires Startable(w, p, runId) && t !in w.sys.threads && p !in w.sys.store
    ensures RunWorld(m, w, [Starting(p, runId, version, t)] + Cmds([Advance(t)]))
         == Some(World(Outcome(w.tables, Start(p, runId, version), true), Moved(w.sys, t, ReadMissing(p))))
  {
    var start := Starting(p, runId, version, t);
    var w0 := NextWorld(m, w, start).value;
    var steps: seq<Step<ModelState, Update>> := [Advance(t)] + [];
    ExecFirst(m, w0.sys, Advance(t), []);
    CmdsRun(m, w0, steps);
    RunFirstEvent(m, w, start, Cmds(steps));
    assert steps == [Advance(t)];
    assert w0.sys.threads[t := ReadMissing(p)] == w.sys.threads[t := ReadMissing(p)];
  }

  /** And then stores the fresh model, over whatever is there. */
  lemma {:induction false} SnapshotWrites(m: Machine<ModelState, Update>, w: World, p: string, t: Tid)
    requires t in w.sys.threads && w.sys.threads[t] == ReadMissing(p)
    ensures RunWorld(m, w, Cmds([Advance(t), Advance(t)]))
         == Some(w.(sys := Initialised(m, w.sys, p).(threads := w.sys.threads - {t})))
  {
    StaleWrite(m, w.sys, p, t);
    CmdsRun(m, w, [Advance(t), Advance(t)]);
  }

  /** Starting a retrain cycle can erase a completed update: no other unlocked caller is needed,
      the snapshot of the new cycle is one. From any state in which p's key is missing and its
      lock free, this run ends with the update completed and the fresh model stored. */
  lemma {:induction false} SnapshotErasesUpdate(m: Machine<ModelState, Update>, w: World, p: string, runId: string,
                                                version: Option<string>, t: Tid, u: Tid, e: Update,
                                                active: Option<string>, algorithm: Algorithm)
    returns (es: seq<Event>, w2: World)
    requires Startable(w, p, runId) && IsActiveRow(w.tables.policies, active)
    requires t !in w.sys.threads && u !in w.sys.threads && t != u && p !in w.sys.store && p !in w.sys.lock
    ensures RunWorld(m, w, es) == Some(w2) && es != [] && es[0] == Starting(p, runId, version, t)
    ensures w2.tables == Outcome(w.tables, Start(p, runId, version), true)
    ensures w2.sys.threads == w.sys.threads && w2.sys.lock == w.sys.lock
    ensures w2.sys.Completed(p) == w.sys.Completed(p) + [Did(e)]
    ensures p in w2.sys.store && w2.sys.store[p] == Cell(m.start(p), []) && !Lossless(w2.sys, p)
  {
    var first := [Starting(p, runId, version, t)] + Cmds([Advance(t)]);
    SnapshotMisses(m, w, p, runId, version, t);
    var w1 := RunWorld(m, w, first).value;
    var middle, w3 := UpdateDuringSnapshot(m, w1, p, u, e, active, algorithm);
    SnapshotWrites(m, w3, p, t);
    var last := Cmds([Advance(t), Advance(t)]);
    RunConcat(m, w1, middle, last);
    RunConcat(m, w, first, middle + last);
    es, w2 := first + (middle + last), RunWorld(m, w3, last).value;
    assert w2.sys.threads == w.sys.threads;
  }

  /** The exact condition, and the cause: with no unlocked caller of p in flight and none admitted,
      no interleaving loses an update of p. Starting a cycle for p keeps that true if and only if
      p's key is present; when it is missing, the snapshot by itself can erase an update. */
  lemma StartHarmlessExactly(m: Machine<ModelState, Update>, w: World, p: string, runId: string,
                             version: Option<string>, t: Tid, e: Update)
    requires Startable(w, p, runId) && t !in w.sys.threads
    requires Orderly(w.sys, p) && Lossless(w.sys, p) && Unread(w.sys, p)
    ensures NeverLosesUnread(m, w.sys, p)
    ensures NextWorld(m, w, Starting(p, runId, version, t)).Some?
    ensures NeverLosesUnread(m, NextWorld(m, w, Starting(p, runId, version, t)).value.sys, p) <==> p in w.sys.store
  {
    OneReaderHarmlessExactly(m, w.sys, p, t, e);
  }

  // ---------------------------------------------------------------- equal weights mean no updates

  /** The updates of the service: a known arm, a context of the right size with the bias. */
  predicate ServiceWrite(n: nat, d: nat, w: Write<ModelState, Update>) {
    w.Did? && Fits(n, d, w.event) && d > 0 && w.event.x[0] == 1.0
  }

  /** Every write on p is an update of the service. */
  function ServiceOnly(p: string, n: nat, d: nat): (string, Write<ModelState, Update>) -> bool {
    (q: string, w: Write<ModelState, Update>) => q == p ==> ServiceWrite(n, d, w)
  }

  function Updates(ws: seq<Write<ModelState, Update>>): seq<Update>
    requires forall w :: w in ws ==> w.Did?
  {
    seq(|ws|, i requires 0 <= i < |ws| => ws[i].event)
  }

  lemma {:induction false} FoldIsLearnAll(m: Machine<ModelState, Update>, p: string, ws: seq<Write<ModelState, Update>>)
    requires m.apply == Learn && forall w :: w in ws ==> w.Did?
    ensures Fold(m, p, ws) == LearnAll(m.start(p), Updates(ws))
  {
    if ws != [] {
      var k := |ws| - 1;
      assert ws[k] in ws;
      FoldIsLearnAll(m, p, ws[..k]);
      assert Updates(ws)[..k] == Updates(ws[..k]);
    }
  }

  lemma {:induction false} LearnAllLinear(s: LinUcb.LinUcbState, us: seq<Update>)
    requires LinUcb.Shaped(s)
    ensures LearnAll(Linear(s), us) == Linear(Kernel.Trained(s, us))
  {
    if us != [] {
      LearnAllLinear(s, us[..|us| - 1]);
    }
  }

  lemma {:induction false} LearnAllBeta(s: Thompson.ThompsonState, us: seq<Update>)
    requires Thompson.Shaped(s)
    ensures LearnAll(Beta(s), us) == Beta(Thompson.Trained(s, us))
  {
    if us != [] {
      LearnAllBeta(s, us[..|us| - 1]);
    }
  }

  lemma {:induction false} PullsGrow(us: seq<Update>, vs: seq<Update>, j: nat)
    requires us <= vs
    ensures Pulls(us, j) <= Pulls(vs, j)
    ensures |us| < |vs| && vs[|us|].arm == j ==> Pulls(us, j) < Pulls(vs, j)
  {
    if |us| < |vs| {
      var vs' := vs[..|vs| - 1];
      if |us| == |vs'| {
        assert vs' == us;
      } else {
        assert vs'[|us|] == vs[|us|];
        PullsGrow(us, vs', j);
      }
    } else {
      assert us == vs;
    }
  }

  /** A learning model that saw more updates is a different model. */
  lemma {:induction false} MoreUpdatesDifferentModel(cat: Catalog, d: nat, algorithm: string, us: seq<Update>,
                                                     vs: seq<Update>)
    requires algorithm == "linucb" || algorithm == "thompson"
    requires us <= vs && forall u :: u in vs ==> Fits(|cat.offers|, d, u) && d > 0 && u.x[0] == 1.0
    ensures algorithm in ALGORITHMS
    ensures LearnAll(FreshModel(algorithm, cat, d), us) == LearnAll(FreshModel(algorithm, cat, d), vs) <==> us == vs
  {
    assert algorithm == ALGORITHMS[0] || algorithm == ALGORITHMS[1];
    if us != vs {
      var j := vs[|us|].arm;
      assert vs[|us|] in vs;
      forall u | u in us ensures u in vs {
        var i :| 0 <= i < |us| && us[i] == u;
        assert vs[i] == u;
      }
      PullsGrow(us, vs, j);
      if algorithm == "linucb" {
        var s := LinUcb.Fresh(cat.Exploration(), d, SCALE, LAMBDA);
        LearnAllLinear(s, us);
        LearnAllLinear(s, vs);
        if Kernel.Trained(s, us).AInv[j] == Kernel.Trained(s, vs).AInv[j] {
          MatrixRemembersPulls(cat.Exploration(), d, SCALE, LAMBDA, us, vs, j);
        }
      } else {
        var n := |cat.offers|;
        LearnAllBeta(Thompson.Fresh(n), us);
        LearnAllBeta(Thompson.Fresh(n), vs);
        Thompson.EvidenceCount(n, us, j);
        Thompson.EvidenceCount(n, vs, j);
      }
    }
  }

  /** The machine learns like the service and starts p from a fresh model of this algorithm. */
  ghost predicate Starts(m: Machine<ModelState, Update>, cat: Catalog, d: nat, p: string, algorithm: Algorithm) {
    m.apply == Learn && m.start(p) == FreshModel(algorithm, cat, d)
  }

  lemma MachineStarts(cat: Catalog, cb: ContextBuilder, policies: PolicyTable, p: string)
    ensures Starts(BanditMachine(cat, cb, policies), cat, cb.Dim(), p, AlgorithmOf(policies, p))
  {
  }

  lemma {:induction false} EqualFoldsEqualWrites(
    m: Machine<ModelState, Update>, cat: Catalog, d: nat, algorithm: Algorithm, p: string,
    a: seq<Write<ModelState, Update>>, b: seq<Write<ModelState, Update>>)
    requires Starts(m, cat, d, p, algorithm) && algorithm in {"linucb", "thompson"}
    requires a <= b && forall w :: w in b ==> ServiceWrite(|cat.offers|, d, w)
    ensures Fold(m, p, a) == Fold(m, p, b) <==> a == b
  {
    forall w | w in a ensures w in b {
      var i :| 0 <= i < |a| && a[i] == w;
      assert b[i] == w;
    }
    FoldIsLearnAll(m, p, a);
    FoldIsLearnAll(m, p, b);
    var us, vs := Updates(a), Updates(b);
    assert us <= vs;
    forall u | u in vs ensures Fits(|cat.offers|, d, u) && d > 0 && u.x[0] == 1.0 {
      var i :| 0 <= i < |vs| && vs[i] == u;
      assert b[i] in b;
    }
    MoreUpdatesDifferentModel(cat, d, algorithm, us, vs);
    if us == vs {
      assert |us| == |a| && |vs| == |b|;
      assert a == b;
    }
  }

  // ---------------------------------------------------------------- the order the lock picks

  lemma {:induction false} LearnAllRules(categories: seq<string>, us: seq<Update>)
    ensures LearnAll(Rules(categories), us) == Rules(categories)
  {
    if us != [] {
      LearnAllRules(categories, us[..|us| - 1]);
    }
  }

  /** All three models forget the order of their updates. */
  lemma LearningForgetsOrder(cat: Catalog, d: nat, algorithm: string, us: seq<Update>, vs: seq<Update>)
    requires algorithm in ALGORITHMS && multiset(us) == multiset(vs)
    requires forall u :: u in us ==> Fits(|cat.offers|, d, u)
    ensures LearnAll(FreshModel(algorithm, cat, d), us) == LearnAll(FreshModel(algorithm, cat, d), vs)
  {
    if algorithm == "linucb" {
      var s := LinUcb.Fresh(cat.Exploration(), d, SCALE, LAMBDA);
      LearnAllLinear(s, us);
      LearnAllLinear(s, vs);
      TrainingOrderIrrelevant(cat.Exploration(), d, SCALE, LAMBDA, us, vs);
    } else if algorithm == "thompson" {
      LearnAllBeta(Thompson.Fresh(|cat.offers|), us);
      LearnAllBeta(Thompson.Fresh(|cat.offers|), vs);
      Thompson.TrainingOrderIrrelevant(|cat.offers|, us, vs);
    } else {
      LearnAllRules(cat.Categories(), us);
      LearnAllRules(cat.Categories(), vs);
    }
  }

  lemma {:induction false} UpdateCounts(ws: seq<Write<ModelState, Update>>, u: Update)
    requires forall w :: w in ws ==> w.Did?
    ensures multiset(Updates(ws))[u] == multiset(ws)[Did(u)]
  {
    if ws != [] {
      var k := |ws| - 1;
      assert ws[k] in ws && ws == ws[..k] + [ws[k]];
      UpdateCounts(ws[..k], u);
      assert Updates(ws) == Updates(ws[..k]) + [ws[k].event];
    }
  }

  lemma SameUpdates(a: seq<Write<ModelState, Update>>, b: seq<Write<ModelState, Update>>)
    requires multiset(a) == multiset(b) && forall w :: w in a || w in b ==> w.Did?
    ensures multiset(Updates(a)) == multiset(Updates(b))
  {
    forall u ensures multiset(Updates(a))[u] == multiset(Updates(b))[u] {
      UpdateCounts(a, u);
      UpdateCounts(b, u);
    }
  }

  lemma {:induction false} FoldForgetsOrder(m: Machine<ModelState, Update>, cat: Catalog, d: nat,
                                            algorithm: Algorithm, p: string, a: seq<Write<ModelState, Update>>,
                                            b: seq<Write<ModelState, Update>>)
    requires Starts(m, cat, d, p, algorithm) && multiset(a) == multiset(b)
    requires forall w :: w in a ==> ServiceWrite(|cat.offers|, d, w)
    ensures Fold(m, p, a) == Fold(m, p, b)
  {
    forall w | w in b ensures w in a {
      assert w in multiset(b) && w in multiset(a);
    }
    FoldIsLearnAll(m, p, a);
    FoldIsLearnAll(m, p, b);
    SameUpdates(a, b);
    forall u | u in Updates(a) ensures Fits(|cat.offers|, d, u) {
      var i :| 0 <= i < |Updates(a)| && Updates(a)[i] == u;
      assert a[i] in a;
    }
    LearningForgetsOrder(cat, d, algorithm, Updates(a), Updates(b));
  }

  /** Two interleavings of the same updates, serialised by the lock in whatever orders and with
      whatever governance in between, leave p with the same weights, so with the same scores
      and rankings. */
  lemma {:induction false} SerialisationIrrelevant(
    m: Machine<ModelState, Update>, cat: Catalog, d: nat, algorithm: Algorithm, w: World, es1: seq<Event>, w1: World,
    es2: seq<Event>, w2: World, p: string)
    requires Starts(m, cat, d, p, algorithm) && Steady(m, w.sys, p, |cat.offers|, d)
    requires CalmWorld(m, w, es1, w1, p) && CalmWorld(m, w, es2, w2, p)
    requires RequestsOk(Trace(m, w, es1), ServiceOnly(p, |cat.offers|, d))
    requires multiset(w1.sys.Completed(p)) == multiset(w2.sys.Completed(p))
    ensures p in w1.sys.store && p in w2.sys.store && w1.sys.store[p].model == w2.sys.store[p].model
  {
    RunIsTrace(m, w, es1);
    RunIsTrace(m, w, es2);
    NoUpdateLost(m, w.sys, p, Trace(m, w, es1));
    NoUpdateLost(m, w.sys, p, Trace(m, w, es2));
    RunRequested(m, w.sys, Trace(m, w, es1), ServiceOnly(p, |cat.offers|, d));
    FoldForgetsOrder(m, cat, d, algorithm, p, w1.sys.Completed(p), w2.sys.Completed(p));
  }

  // ---------------------------------------------------------------- rollback

  /** A run in which p's lock does not expire and p is not reset. */
  ghost predicate CalmWorld(m: Machine<ModelState, Update>, w: World, es: seq<Event>, w': World, p: string) {
    RunWorld(m, w, es) == Some(w') && CalmRun(Trace(m, w, es), p)
  }

  /** What holds of a policy whose key has been initialised, in a system fed by the service. */
  ghost predicate Steady(m: Machine<ModelState, Update>, sys: Sys<ModelState, Update>, p: string, n: nat, d: nat) {
    && Orderly(sys, p) && Settled(sys, p) && Provenance(m, sys)
    && Requested(sys, ServiceOnly(p, n, d))
  }

  /** The writes that p's stored weights contain; none while the key is absent. */
  function Kept(sys: Sys<ModelState, Update>, p: string): seq<Write<ModelState, Update>> {
    if p in sys.store then sys.store[p].writes else []
  }

  lemma {:induction false} WeightsAreKept(m: Machine<ModelState, Update>, sys: Sys<ModelState, Update>, p: string)
    requires Provenance(m, sys)
    ensures WeightsOf(m, sys, p) == Fold(m, p, Kept(sys, p)) && Within(Kept(sys, p), sys.Completed(p))
  {
    if p in sys.store {
      assert Honest(m, sys, p, sys.store[p]);
    }
  }

  lemma {:induction false} WithinMembers<T>(a: seq<T>, b: seq<T>)
    requires Within(a, b)
    ensures forall x :: x in a ==> x in b
    ensures b == [] ==> a == []
  {
    if a != [] {
      var y := b[|b| - 1];
      assert b == b[..|b| - 1] + [y];
      if a[|a| - 1] == y {
        assert a == a[..|a| - 1] + [y];
        WithinMembers(a[..|a| - 1], b[..|b| - 1]);
      } else {
        WithinMembers(a, b[..|b| - 1]);
      }
    }
  }

  /** A policy that completed no write reads as its fresh model, in every interleaving, lock
      expiry and resets included: what initialises or overwrites it is the fresh model too. */
  lemma {:induction false} UntouchedReadsFresh(m: Machine<ModelState, Update>, w1: World, es: seq<Event>, w2: World,
                                               p: string)
    requires Provenance(m, w1.sys) && RunWorld(m, w1, es) == Some(w2) && w2.sys.Completed(p) == []
    ensures WeightsOf(m, w2.sys, p) == m.start(p)
    ensures w1.sys.Completed(p) == [] ==> WeightsOf(m, w1.sys, p) == m.start(p)
  {
    RunIsTrace(m, w1, es);
    RunProvenance(m, w1.sys, Trace(m, w1, es));
    WeightsAreKept(m, w2.sys, p);
    WithinMembers(Kept(w2.sys, p), w2.sys.Completed(p));
    WeightsAreKept(m, w1.sys, p);
    WithinMembers(Kept(w1.sys, p), w1.sys.Completed(p));
  }

  /** Where p starts: reading as its fresh model, its key perhaps never created or deleted by a reset,
      with anything allowed to happen; or settled, and then no expiry and no reset. */
  ghost predicate Undisturbed(m: Machine<ModelState, Update>, w1: World, es: seq<Event>, w2: World, p: string) {
    && Provenance(m, w1.sys) && RunWorld(m, w1, es) == Some(w2)
    && (WeightsOf(m, w1.sys, p) == m.start(p) || SettledRun(m, w1, es, p))
  }

  ghost predicate SettledRun(m: Machine<ModelState, Update>, w1: World, es: seq<Event>, p: string)
    requires RunWorld(m, w1, es).Some?
  {
    Orderly(w1.sys, p) && Settled(w1.sys, p) && CalmRun(Trace(m, w1, es), p)
  }

  /** In both cases p's weights, an absent key read as the fresh model, are unchanged if nothing
      of p completed in between; after a settled start they are the fold of all its updates. */
  lemma {:induction false} WeightsSurvive(m: Machine<ModelState, Update>, w1: World, es: seq<Event>, w2: World,
                                          p: string)
    requires Undisturbed(m, w1, es, w2, p)
    ensures w2.sys.Completed(p) == w1.sys.Completed(p) ==> WeightsOf(m, w2.sys, p) == WeightsOf(m, w1.sys, p)
    ensures SettledRun(m, w1, es, p) ==>
              Kept(w2.sys, p) == w2.sys.Completed(p) && Kept(w1.sys, p) == w1.sys.Completed(p)
    ensures Provenance(m, w2.sys)
  {
    RunIsTrace(m, w1, es);
    RunProvenance(m, w1.sys, Trace(m, w1, es));
    if WeightsOf(m, w1.sys, p) == m.start(p) {
      FreshStaysFresh(m, w1.sys, p, Trace(m, w1, es));
    }
    if SettledRun(m, w1, es, p) {
      NoUpdateLost(m, w1.sys, p, Trace(m, w1, es));
    }
  }

  /** Through any interleaving of governance and requests, the weights of a learning policy equal
      the earlier ones exactly when the writes they contain are the same; after a settled start,
      exactly when no update of p completed in between. */
  lemma {:induction false} WeightsIntactExactly(m: Machine<ModelState, Update>, cat: Catalog, d: nat,
                                                algorithm: Algorithm, w1: World, es: seq<Event>, w2: World,
                                                p: string)
    requires Starts(m, cat, d, p, algorithm) && algorithm in {"linucb", "thompson"} && Undisturbed(m, w1, es, w2, p)
    requires Requested(w1.sys, ServiceOnly(p, |cat.offers|, d))
    requires RequestsOk(Trace(m, w1, es), ServiceOnly(p, |cat.offers|, d))
    ensures WeightsOf(m, w2.sys, p) == WeightsOf(m, w1.sys, p) <==> Kept(w2.sys, p) == Kept(w1.sys, p)
    ensures SettledRun(m, w1, es, p) ==>
              (WeightsOf(m, w2.sys, p) == WeightsOf(m, w1.sys, p) <==> w2.sys.Completed(p) == w1.sys.Completed(p))
  {
    WeightsSurvive(m, w1, es, w2, p);
    KeptAreService(m, w1, es, w2, p, |cat.offers|, d);
    if !SettledRun(m, w1, es, p) {
      EqualFoldsEqualWrites(m, cat, d, algorithm, p, [], Kept(w1.sys, p));
    }
    EqualFoldsEqualWrites(m, cat, d, algorithm, p, Kept(w1.sys, p), Kept(w2.sys, p));
  }

  /** The same for a governed policy and the machine of the final tables, in which every policy
      starts as its row says: nothing about the machine is left to choose. */
  lemma {:induction false} GovernedWeightsIntact(cat: Catalog, cb: ContextBuilder, w1: World, es: seq<Event>, w2: World,
                                                 p: string)
    requires p in w1.tables.policies && w1.tables.policies[p].algorithm in {"linucb", "thompson"}
    requires Undisturbed(BanditMachine(cat, cb, w2.tables.policies), w1, es, w2, p)
    requires Requested(w1.sys, ServiceOnly(p, |cat.offers|, cb.Dim()))
    requires RequestsOk(Trace(BanditMachine(cat, cb, w2.tables.policies), w1, es),
                        ServiceOnly(p, |cat.offers|, cb.Dim()))
    ensures
      var m := BanditMachine(cat, cb, w2.tables.policies);
      && m.start(p) == FreshModel(w1.tables.policies[p].algorithm, cat, cb.Dim())
      && (WeightsOf(m, w2.sys, p) == WeightsOf(m, w1.sys, p) <==> Kept(w2.sys, p) == Kept(w1.sys, p))
      && (SettledRun(m, w1, es, p) ==>
            (WeightsOf(m, w2.sys, p) == WeightsOf(m, w1.sys, p) <==> w2.sys.Completed(p) == w1.sys.Completed(p)))
  {
    var m := BanditMachine(cat, cb, w2.tables.policies);
    GovernedStarts(m, cat, cb, w1, es, w2, p);
    WeightsIntactExactly(m, cat, cb.Dim(), w1.tables.policies[p].algorithm, w1, es, w2, p);
  }

  /** The machine of the final tables starts a governed policy as its row said from the start. */
  lemma {:induction false} GovernedStarts(m: Machine<ModelState, Update>, cat: Catalog, cb: ContextBuilder, w1: World,
                                          es: seq<Event>, w2: World, p: string)
    requires RunWorld(m, w1, es) == Some(w2) && p in w1.tables.policies
          && m == BanditMachine(cat, cb, w2.tables.policies)
    ensures Starts(m, cat, cb.Dim(), p, w1.tables.policies[p].algorithm)
  {
    RowsStay(m, w1, es);
    MachineStarts(cat, cb, w2.tables.policies, p);
  }

  lemma {:induction false} KeptAreService(m: Machine<ModelState, Update>, w1: World, es: seq<Event>, w2: World,
                                          p: string, n: nat, d: nat)
    requires Undisturbed(m, w1, es, w2, p)
    requires Requested(w1.sys, ServiceOnly(p, n, d)) && RequestsOk(Trace(m, w1, es), ServiceOnly(p, n, d))
    ensures forall w :: w in Kept(w1.sys, p) || w in Kept(w2.sys, p) ==> ServiceWrite(n, d, w)
    ensures SettledRun(m, w1, es, p) ==> Kept(w1.sys, p) <= Kept(w2.sys, p)
    ensures WeightsOf(m, w1.sys, p) == Fold(m, p, Kept(w1.sys, p))
         && WeightsOf(m, w2.sys, p) == Fold(m, p, Kept(w2.sys, p))
  {
    RunIsTrace(m, w1, es);
    WeightsSurvive(m, w1, es, w2, p);
    RunRequested(m, w1.sys, Trace(m, w1, es), ServiceOnly(p, n, d));
    WeightsAreKept(m, w1.sys, p);
    WeightsAreKept(m, w2.sys, p);
    WithinMembers(Kept(w2.sys, p), w2.sys.Completed(p));
    WithinMembers(Kept(w1.sys, p), w1.sys.Completed(p));
    assert forall w :: w in w1.sys.Completed(p) ==> ServiceOnly(p, n, d)(p, w);
    assert forall w :: w in w2.sys.Completed(p) ==> ServiceOnly(p, n, d)(p, w);
  }

  /** Promoting away from p and rolling back to it serves p again: the rollback makes p the one
      active policy, requests resolve to p with its old algorithm, and, if no update of p
      completed in between, every request gets the ranking it would have got before. */
  lemma {:induction false} RollbackServesEarlierRanking(
    m: Machine<ModelState, Update>, cat: Catalog, cb: ContextBuilder, w1: World, es: seq<Event>, w2: World,
    p: string, runId: string, algorithm: string, client: Client, segments: seq<string>, top: Option<int>,
    excludeIds: seq<string>, samples: seq<real>, env: Env)
    requires Sound(w1.tables) && Active(w1.tables.policies, p) && Undisturbed(m, w1, es, w2, p)
    requires Effect(w2.tables, RollBack(runId, p)).Ok? && w2.sys.Completed(p) == w1.sys.Completed(p)
    requires cb.Valid() && |samples| == |cat.offers| && Usable(WeightsOf(m, w1.sys, p), |cat.offers|, cb.Dim())
    ensures
      var after := Outcome(w2.tables, RollBack(runId, p), true).policies;
      && (forall q :: Active(after, q) <==> q == p)
      && Resolve(after, Some(p), None, algorithm) == Resolve(w1.tables.policies, Some(p), None, algorithm)
      && Usable(WeightsOf(m, w2.sys, p), |cat.offers|, cb.Dim())
      && var pol := Resolve(after, Some(p), None, algorithm).value;
         RankOutcome(cat, cb, WeightsOf(m, w2.sys, p), pol, client, segments, top, excludeIds, samples, env)
         == RankOutcome(cat, cb, WeightsOf(m, w1.sys, p), pol, client, segments, top, excludeIds, samples, env)
  {
    RowsStay(m, w1, es);
    RollbackExact(w2.tables, runId, p);
    OutcomePersists(w2.tables, RollBack(runId, p), true);
    WeightsSurvive(m, w1, es, w2, p);
  }
}
