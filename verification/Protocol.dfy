/** Requests interleaving against the shared store (service.py over store/state_store.py).

    A request is a small program; each step is one atomic Redis command. Updates and restores
    run under a per-policy lock, everything that only needs the weights does not take it, and
    both initialise a missing key. The state carries, as bookkeeping, the completed writes of
    each policy and for each stored value the writes it contains. */
module Protocol {
  import opened Wrappers

  /** The fresh model of a policy and the effect of one learning event. */
  datatype Machine<!S, !E> = Machine(start: string -> S, apply: (S, E) -> S)

  /** A completed write: one learned event, or a whole state restored from the registry. */
  datatype Write<S, E> = Did(event: E) | Put(model: S)

  datatype Cell<S, E> = Cell(model: S, writes: seq<Write<S, E>>)

  /** Where a request is. All but the `...Start` and `Read...` positions hold the lock. */
  datatype Pc<S, E> =
    | UpdateStart(p: string, e: E)
    | UpdateLocked(p: string, e: E)
    | UpdateMissing(p: string, e: E)
    | UpdateLoaded(p: string, e: E, cell: Cell<S, E>)
    | RestoreStart(p: string, model: S)
    | RestoreLocked(p: string, model: S)
    | Releasing(p: string)
    | ReadStart(p: string)
    | ReadMissing(p: string)
    | ReadDone(p: string, cell: Cell<S, E>)

  type Tid = nat

  datatype Sys<S, E> = Sys(
    store: map<string, Cell<S, E>>, lock: map<string, Tid>, threads: map<Tid, Pc<S, E>>,
    completed: map<string, seq<Write<S, E>>>)
  {
    function Completed(p: string): seq<Write<S, E>> {
      if p in completed then completed[p] else []
    }
  }

  /** `Begin` admits a request, `Advance` runs its next command, `GiveUp` is a lock that was
      not obtained in time, `Fail` an exception before saving, `Expire` the lock's timeout and
      `Reset` the unlocked deletion of a policy's state. */
  datatype Step<S, E> =
    | Begin(t: Tid, pc: Pc<S, E>)
    | Advance(t: Tid)
    | GiveUp(t: Tid)
    | Fail(t: Tid)
    | Expire(p: string)
    | Reset(p: string)

  predicate InLock<S, E>(pc: Pc<S, E>) {
    pc.UpdateLocked? || pc.UpdateMissing? || pc.UpdateLoaded? || pc.RestoreLocked? || pc.Releasing?
  }

  predicate AtStart<S, E>(pc: Pc<S, E>) {
    pc.UpdateStart? || pc.RestoreStart? || pc.ReadStart?
  }

  function Moved<S, E>(s: Sys<S, E>, t: Tid, pc: Pc<S, E>): Sys<S, E> {
    s.(threads := s.threads[t := pc])
  }

  function Written<S, E>(s: Sys<S, E>, p: string, model: S, w: Write<S, E>, kept: seq<Write<S, E>>): Sys<S, E> {
    s.(store := s.store[p := Cell(model, kept + [w])], completed := s.completed[p := s.Completed(p) + [w]])
  }

  function Initialised<S, E>(m: Machine<S, E>, s: Sys<S, E>, p: string): Sys<S, E> {
    s.(store := s.store[p := Cell(m.start(p), [])])
  }

  /** The next atomic command of request t; `None` when it has to wait for the lock. */
  function Command<S, E>(m: Machine<S, E>, s: Sys<S, E>, t: Tid): Option<Sys<S, E>>
    requires t in s.threads
  {
    match s.threads[t]
    case UpdateStart(p, e) =>
      if p in s.lock then None else Some(Moved(s.(lock := s.lock[p := t]), t, UpdateLocked(p, e)))
    case UpdateLocked(p, e) =>
      Some(Moved(s, t, if p in s.store then UpdateLoaded(p, e, s.store[p]) else UpdateMissing(p, e)))
    case UpdateMissing(p, e) =>
      Some(Moved(Initialised(m, s, p), t, UpdateLoaded(p, e, Cell(m.start(p), []))))
    case UpdateLoaded(p, e, cell) =>
      Some(Moved(Written(s, p, m.apply(cell.model, e), Did(e), cell.writes), t, Releasing(p)))
    case RestoreStart(p, model) =>
      if p in s.lock then None else Some(Moved(s.(lock := s.lock[p := t]), t, RestoreLocked(p, model)))
    case RestoreLocked(p, model) =>
      Some(Moved(Written(s, p, model, Put(model), s.Completed(p)), t, Releasing(p)))
    case Releasing(p) =>
      Some(s.(threads := s.threads - {t}, lock := if p in s.lock && s.lock[p] == t then s.lock - {p} else s.lock))
    case ReadStart(p) =>
      Some(Moved(s, t, if p in s.store then ReadDone(p, s.store[p]) else ReadMissing(p)))
    case ReadMissing(p) =>
      Some(Moved(Initialised(m, s, p), t, ReadDone(p, Cell(m.start(p), []))))
    case ReadDone(p, cell) =>
      Some(s.(threads := s.threads - {t}))
  }

  function Next<S, E>(m: Machine<S, E>, s: Sys<S, E>, step: Step<S, E>): Option<Sys<S, E>> {
    match step
    case Begin(t, pc) => if t in s.threads || !AtStart(pc) then None else Some(Moved(s, t, pc))
    case Advance(t) => if t in s.threads then Command(m, s, t) else None
    case GiveUp(t) =>
      if t in s.threads && (s.threads[t].UpdateStart? || s.threads[t].RestoreStart?)
      then Some(s.(threads := s.threads - {t})) else None
    case Fail(t) =>
      if t in s.threads && s.threads[t].UpdateLoaded? then Some(Moved(s, t, Releasing(s.threads[t].p))) else None
    case Expire(p) => if p in s.lock then Some(s.(lock := s.lock - {p})) else None
    case Reset(p) => Some(s.(store := s.store - {p}))
  }

  function Exec<S, E>(m: Machine<S, E>, s: Sys<S, E>, steps: seq<Step<S, E>>): Option<Sys<S, E>>
    decreases |steps|
  {
    if steps == [] then Some(s)
    else match Next(m, s, steps[0])
      case Some(s') => Exec(m, s', steps[1..])
      case None => None
  }

  function Initial<S, E>(): Sys<S, E> {
    Sys(map[], map[], map[], map[])
  }

  lemma {:induction false} ExecConcat<S, E>(m: Machine<S, E>, s: Sys<S, E>, a: seq<Step<S, E>>, b: seq<Step<S, E>>)
    requires Exec(m, s, a).Some?
    ensures Exec(m, s, a + b) == Exec(m, Exec(m, s, a).value, b)
    decreases |a|
  {
    if a == [] {
      assert a + b == b;
    } else {
      assert (a + b)[1..] == a[1..] + b;
      ExecConcat(m, Next(m, s, a[0]).value, a[1..], b);
    }
  }

  // ---------------------------------------------------------------- provenance: every run, no exceptions

  /** The weights after a sequence of writes. */
  function Fold<S, E>(m: Machine<S, E>, p: string, ws: seq<Write<S, E>>): S {
    if ws == [] then m.start(p)
    else match ws[|ws| - 1]
      case Did(e) => m.apply(Fold(m, p, ws[..|ws| - 1]), e)
      case Put(model) => model
  }

  /** a is a subsequence of b. */
  predicate Within<T(==)>(a: seq<T>, b: seq<T>) {
    if a == [] then true
    else if b == [] then false
    else if a[|a| - 1] == b[|b| - 1] then Within(a[..|a| - 1], b[..|b| - 1])
    else Within(a, b[..|b| - 1])
  }

  lemma {:induction false} WithinSelf<T>(a: seq<T>)
    ensures Within(a, a)
  {
    if a != [] {
      WithinSelf(a[..|a| - 1]);
    }
  }

  lemma {:induction false} WithinDrop<T>(a: seq<T>, b: seq<T>)
    requires a != [] && Within(a, b)
    ensures Within(a[..|a| - 1], b)
    decreases |b|, 0
  {
    var b', y := b[..|b| - 1], b[|b| - 1];
    assert b == b' + [y];
    if a[|a| - 1] != y {
      WithinDrop(a, b');
    }
    WithinGrows(a[..|a| - 1], b', y);
  }

  lemma {:induction false} WithinGrows<T>(a: seq<T>, b: seq<T>, x: T)
    requires Within(a, b)
    ensures Within(a, b + [x])
    decreases |b|, 1
  {
    assert (b + [x])[..|b|] == b;
    if a != [] {
      WithinDrop(a, b);
    }
  }

  lemma {:induction false} WithinAppend<T>(a: seq<T>, b: seq<T>, x: T)
    requires Within(a, b)
    ensures Within(a + [x], b + [x])
  {
    assert (a + [x])[..|a|] == a && (b + [x])[..|b|] == b;
  }

  /** A stored value is the fold of some of the completed writes of its policy, in order. */
  ghost predicate Honest<S, E>(m: Machine<S, E>, s: Sys<S, E>, p: string, cell: Cell<S, E>) {
    cell.model == Fold(m, p, cell.writes) && Within(cell.writes, s.Completed(p))
  }

  /** The value a request holds, if it holds one. */
  ghost predicate HoldsHonest<S, E>(m: Machine<S, E>, s: Sys<S, E>, pc: Pc<S, E>) {
    (pc.UpdateLoaded? ==> Honest(m, s, pc.p, pc.cell)) && (pc.ReadDone? ==> Honest(m, s, pc.p, pc.cell))
  }

  ghost predicate Provenance<S, E>(m: Machine<S, E>, s: Sys<S, E>) {
    && (forall p :: p in s.store ==> Honest(m, s, p, s.store[p]))
    && (forall t :: t in s.threads ==> HoldsHonest(m, s, s.threads[t]))
  }

  lemma {:induction false} StaysHonest<S, E>(m: Machine<S, E>, s: Sys<S, E>, p: string, kept: seq<Write<S, E>>,
                                             model: S, w: Write<S, E>, q: string, cell: Cell<S, E>)
    requires Honest(m, s, q, cell)
    ensures Honest(m, Written(s, p, model, w, kept), q, cell)
  {
    if q == p {
      WithinGrows(cell.writes, s.Completed(p), w);
    }
  }

  lemma {:induction false} HonestWrite<S, E>(m: Machine<S, E>, s: Sys<S, E>, p: string, kept: seq<Write<S, E>>,
                                             model: S, w: Write<S, E>)
    requires Within(kept, s.Completed(p)) && model == Fold(m, p, kept + [w])
    ensures
      var s' := Written(s, p, model, w, kept);
      && Honest(m, s', p, s'.store[p])
      && forall q, cell :: Honest(m, s, q, cell) ==> Honest(m, s', q, cell)
  {
    var s' := Written(s, p, model, w, kept);
    WithinAppend(kept, s.Completed(p), w);
    forall q, cell | Honest(m, s, q, cell) ensures Honest(m, s', q, cell) {
      StaysHonest(m, s, p, kept, model, w, q, cell);
    }
  }

  /** A step that completes no write, given that what it newly stores or holds is honest. */
  lemma {:induction false} QuietStep<S, E>(m: Machine<S, E>, s: Sys<S, E>, s': Sys<S, E>)
    requires Provenance(m, s) && s'.completed == s.completed
    requires forall p :: p in s'.store ==> (p in s.store && s'.store[p] == s.store[p]) || Honest(m, s, p, s'.store[p])
    requires forall t :: t in s'.threads ==>
               (t in s.threads && s'.threads[t] == s.threads[t]) || HoldsHonest(m, s, s'.threads[t])
    ensures Provenance(m, s')
  {
    forall p, cell ensures Honest(m, s', p, cell) == Honest(m, s, p, cell) {
      assert s'.Completed(p) == s.Completed(p);
    }
  }

  lemma {:induction false} WritingStep<S, E>(m: Machine<S, E>, s: Sys<S, E>, t: Tid, p: string, model: S,
                                             w: Write<S, E>, kept: seq<Write<S, E>>)
    requires Provenance(m, s) && Within(kept, s.Completed(p)) && model == Fold(m, p, kept + [w])
    ensures Provenance(m, Moved(Written(s, p, model, w, kept), t, Releasing(p)))
  {
    HonestWrite(m, s, p, kept, model, w);
    var s1 := Written(s, p, model, w, kept);
    var s' := Moved(s1, t, Releasing(p));
    forall q, cell ensures Honest(m, s', q, cell) == Honest(m, s1, q, cell) {
      assert s'.Completed(q) == s1.Completed(q);
    }
    forall q | q in s'.store ensures Honest(m, s', q, s'.store[q]) {
      if q != p {
        assert Honest(m, s, q, s.store[q]);
      }
    }
    forall u | u in s'.threads && u != t ensures HoldsHonest(m, s', s'.threads[u]) {
      assert HoldsHonest(m, s, s.threads[u]);
    }
  }

  /** Every command but the two that complete a write. */
  lemma {:induction false} QuietCommand<S, E>(m: Machine<S, E>, s: Sys<S, E>, t: Tid)
    requires Provenance(m, s) && t in s.threads && Command(m, s, t).Some?
    requires !s.threads[t].UpdateLoaded? && !s.threads[t].RestoreLocked?
    ensures Provenance(m, Command(m, s, t).value)
  {
    var pc := s.threads[t];
    assert HoldsHonest(m, s, pc);
    assert Honest(m, s, pc.p, Cell(m.start(pc.p), []));
    QuietStep(m, s, Command(m, s, t).value);
  }

  lemma {:induction false} CommandProvenance<S, E>(m: Machine<S, E>, s: Sys<S, E>, t: Tid)
    requires Provenance(m, s) && t in s.threads && Command(m, s, t).Some?
    ensures Provenance(m, Command(m, s, t).value)
  {
    var pc := s.threads[t];
    if pc.UpdateLoaded? {
      assert HoldsHonest(m, s, pc);
      assert (pc.cell.writes + [Did(pc.e)])[..|pc.cell.writes|] == pc.cell.writes;
      WritingStep(m, s, t, pc.p, m.apply(pc.cell.model, pc.e), Did(pc.e), pc.cell.writes);
    } else if pc.RestoreLocked? {
      WithinSelf(s.Completed(pc.p));
      WritingStep(m, s, t, pc.p, pc.model, Put(pc.model), s.Completed(pc.p));
    } else {
      QuietCommand(m, s, t);
    }
  }

  lemma {:induction false} StepProvenance<S, E>(m: Machine<S, E>, s: Sys<S, E>, step: Step<S, E>)
    requires Provenance(m, s) && Next(m, s, step).Some?
    ensures Provenance(m, Next(m, s, step).value)
  {
    if step.Advance? {
      CommandProvenance(m, s, step.t);
    } else {
      QuietStep(m, s, Next(m, s, step).value);
    }
  }

  /** Whatever is interleaved, including lock expiry and resets: every value ever stored for a
      policy, held by a request or served to one, is the fold of a subsequence of the writes
      completed on that very policy. Weights never leak between policies. */
  lemma {:induction false} RunProvenance<S, E>(m: Machine<S, E>, s: Sys<S, E>, steps: seq<Step<S, E>>)
    requires Provenance(m, s) && Exec(m, s, steps).Some?
    ensures Provenance(m, Exec(m, s, steps).value)
    decreases |steps|
  {
    if steps != [] {
      StepProvenance(m, s, steps[0]);
      RunProvenance(m, Next(m, s, steps[0]).value, steps[1..]);
    }
  }

  // ---------------------------------------------------------------- completed writes were requested

  /** The write a request is on its way to complete. */
  function Pending<S, E>(pc: Pc<S, E>): Option<Write<S, E>> {
    match pc
    case UpdateStart(_, e) => Some(Did(e))
    case UpdateLocked(_, e) => Some(Did(e))
    case UpdateMissing(_, e) => Some(Did(e))
    case UpdateLoaded(_, e, _) => Some(Did(e))
    case RestoreStart(_, model) => Some(Put(model))
    case RestoreLocked(_, model) => Some(Put(model))
    case _ => None
  }

  ghost predicate Requested<S, E>(s: Sys<S, E>, ok: (string, Write<S, E>) -> bool) {
    && (forall p, w :: w in s.Completed(p) ==> ok(p, w))
    && (forall t :: t in s.threads && Pending(s.threads[t]).Some? ==> ok(s.threads[t].p, Pending(s.threads[t]).value))
  }

  ghost predicate RequestsOk<S, E>(steps: seq<Step<S, E>>, ok: (string, Write<S, E>) -> bool) {
    forall i :: 0 <= i < |steps| && steps[i].Begin? && Pending(steps[i].pc).Some? ==>
        ok(steps[i].pc.p, Pending(steps[i].pc).value)
  }

  /** A step completes nothing, or exactly the write its request was on its way to. */
  lemma {:induction false} StepCompletes<S, E>(m: Machine<S, E>, s: Sys<S, E>, step: Step<S, E>, p: string)
    requires Next(m, s, step).Some?
    ensures
      var s' := Next(m, s, step).value;
      || s'.Completed(p) == s.Completed(p)
      || (&& step.Advance? && s.threads[step.t].p == p && Pending(s.threads[step.t]).Some?
          && s'.Completed(p) == s.Completed(p) + [Pending(s.threads[step.t]).value])
  {
  }

  lemma {:induction false} CommandPending<S, E>(m: Machine<S, E>, s: Sys<S, E>, t: Tid)
    requires t in s.threads && Command(m, s, t).Some? && t in Command(m, s, t).value.threads
    requires Pending(Command(m, s, t).value.threads[t]).Some?
    ensures
      var pc := Command(m, s, t).value.threads[t];
      s.threads[t].p == pc.p && Pending(s.threads[t]) == Pending(pc)
  {
  }

  lemma {:induction false} CommandElsewhere<S, E>(m: Machine<S, E>, s: Sys<S, E>, t: Tid, u: Tid)
    requires t in s.threads && Command(m, s, t).Some? && u != t
    ensures u in Command(m, s, t).value.threads <==> u in s.threads
    ensures u in s.threads ==> Command(m, s, t).value.threads[u] == s.threads[u]
  {
  }

  /** A request keeps its policy and its pending write while it moves. */
  lemma {:induction false} StepPending<S, E>(m: Machine<S, E>, s: Sys<S, E>, step: Step<S, E>, t: Tid)
    requires Next(m, s, step).Some? && t in Next(m, s, step).value.threads
    requires Pending(Next(m, s, step).value.threads[t]).Some?
    ensures
      var pc := Next(m, s, step).value.threads[t];
      || step == Begin(t, pc)
      || (t in s.threads && s.threads[t].p == pc.p && Pending(s.threads[t]) == Pending(pc))
  {
    if step.Advance? {
      if step.t == t {
        CommandPending(m, s, t);
      } else {
        CommandElsewhere(m, s, step.t, t);
      }
    }
  }

  lemma {:induction false} StepRequested<S, E>(m: Machine<S, E>, s: Sys<S, E>, step: Step<S, E>,
                                               ok: (string, Write<S, E>) -> bool)
    requires Requested(s, ok) && RequestsOk([step], ok) && Next(m, s, step).Some?
    ensures Requested(Next(m, s, step).value, ok)
    ensures forall p :: s.Completed(p) <= Next(m, s, step).value.Completed(p)
  {
    var s' := Next(m, s, step).value;
    forall p ensures s.Completed(p) <= s'.Completed(p) && forall w :: w in s'.Completed(p) ==> ok(p, w) {
      StepCompletes(m, s, step, p);
    }
    forall t | t in s'.threads && Pending(s'.threads[t]).Some?
      ensures ok(s'.threads[t].p, Pending(s'.threads[t]).value)
    {
      StepPending(m, s, step, t);
      assert [step][0] == step;
    }
  }

  /** A property that every request has when it is admitted holds of every completed write: in
      particular the writes completed on p are the ones addressed to p. Completed writes are
      only ever appended to. */
  lemma {:induction false} RunRequested<S, E>(m: Machine<S, E>, s: Sys<S, E>, steps: seq<Step<S, E>>,
                                              ok: (string, Write<S, E>) -> bool)
    requires Requested(s, ok) && RequestsOk(steps, ok) && Exec(m, s, steps).Some?
    ensures Requested(Exec(m, s, steps).value, ok)
    ensures forall p :: s.Completed(p) <= Exec(m, s, steps).value.Completed(p)
    decreases |steps|
  {
    if steps != [] {
      assert RequestsOk([steps[0]], ok);
      StepRequested(m, s, steps[0], ok);
      RunRequested(m, Next(m, s, steps[0]).value, steps[1..], ok);
    }
  }
}
