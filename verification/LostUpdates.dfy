/** When the locked read-modify-write loses no update, and exactly when it can. */
module LostUpdates {
  import opened Wrappers
  import opened Protocol

  /** Everything but the lock's timeout and the unlocked reset of p's state. */
  predicate Calm<S, E>(step: Step<S, E>, p: string) {
    match step
    case Expire(q) => q != p
    case Reset(q) => q != p
    case _ => true
  }

  ghost predicate CalmRun<S, E>(steps: seq<Step<S, E>>, p: string) {
    forall i :: 0 <= i < |steps| ==> Calm(steps[i], p)
  }

  /** A request inside p's critical section is the owner of p's lock, and conversely. */
  ghost predicate LockOrderly<S, E>(s: Sys<S, E>, p: string) {
    && (forall t :: t in s.threads && InLock(s.threads[t]) && s.threads[t].p == p ==> p in s.lock && s.lock[p] == t)
    && (p in s.lock ==> s.lock[p] in s.threads && InLock(s.threads[s.lock[p]]) && s.threads[s.lock[p]].p == p)
  }

  ghost predicate DataOrderly<S, E>(s: Sys<S, E>, p: string) {
    && (if p in s.store then Within(s.store[p].writes, s.Completed(p)) else s.Completed(p) == [])
    && (forall t :: t in s.threads && s.threads[t].p == p ==> OrderlyPc(s, s.threads[t]))
  }

  /** What holds about p from the empty system on. */
  ghost predicate Orderly<S, E>(s: Sys<S, E>, p: string) {
    LockOrderly(s, p) && DataOrderly(s, p)
  }

  /** Inside the lock, a missing key means that nothing was ever written, and a loaded value
      is still the stored one unless a stale reader re-initialised the key meanwhile. */
  ghost predicate OrderlyPc<S, E>(s: Sys<S, E>, pc: Pc<S, E>) {
    && (pc.UpdateMissing? ==> s.Completed(pc.p) == [])
    && (pc.UpdateLoaded? ==>
          && pc.p in s.store
          && (s.store[pc.p] == pc.cell || s.store[pc.p].writes == [])
          && Within(pc.cell.writes, s.Completed(pc.p)))
  }

  /** The key is present with every completed write in it, and no unlocked caller is about to
      act on having seen it missing. */
  ghost predicate Settled<S, E>(s: Sys<S, E>, p: string) {
    && p in s.store && s.store[p].writes == s.Completed(p)
    && forall t :: t in s.threads ==> s.threads[t] != ReadMissing(p)
  }

  /** No completed write on p is missing from what is stored. */
  ghost predicate Lossless<S, E>(s: Sys<S, E>, p: string) {
    (if p in s.store then s.store[p].writes else []) == s.Completed(p)
  }

  // ---------------------------------------------------------------- the discipline holds in every run

  /** What one command does to p's lock and to the position of its own request. */
  lemma {:induction false} CommandLockEffect<S, E>(m: Machine<S, E>, s: Sys<S, E>, p: string, t: Tid)
    requires t in s.threads && Command(m, s, t).Some?
    ensures
      var s', pc := Command(m, s, t).value, s.threads[t];
      var inside := t in s'.threads && InLock(s'.threads[t]) && s'.threads[t].p == p;
      && (t in s'.threads ==> s'.threads[t].p == pc.p)
      && (pc.p != p || pc.ReadStart? || pc.ReadMissing? || pc.ReadDone? ==>
            !inside && (p in s'.lock <==> p in s.lock) && (p in s.lock ==> s'.lock[p] == s.lock[p]))
      && (pc.p == p && (pc.UpdateStart? || pc.RestoreStart?) ==>
          inside && p !in s.lock && p in s'.lock && s'.lock[p] == t)
      && (pc.p == p && InLock(pc) && !pc.Releasing? ==> inside && s'.lock == s.lock)
      && (pc.p == p && pc.Releasing? ==> !inside && (p in s.lock && s.lock[p] == t ==> p !in s'.lock))
  {
  }

  lemma {:induction false} CommandLock<S, E>(m: Machine<S, E>, s: Sys<S, E>, p: string, t: Tid)
    requires LockOrderly(s, p) && t in s.threads && Command(m, s, t).Some?
    ensures LockOrderly(Command(m, s, t).value, p)
  {
    var s' := Command(m, s, t).value;
    CommandLockEffect(m, s, p, t);
    forall u | u != t
      ensures (u in s'.threads <==> u in s.threads) && (u in s.threads ==> s'.threads[u] == s.threads[u])
    {
      CommandElsewhere(m, s, t, u);
    }
  }

  /** The store, the completed writes and the other requests of p, as seen from s'. */
  ghost predicate SameFor<S, E>(s: Sys<S, E>, s': Sys<S, E>, p: string, t: Tid) {
    && (p in s.store <==> p in s'.store) && (p in s.store ==> s'.store[p] == s.store[p])
    && s'.Completed(p) == s.Completed(p)
    && (forall u :: u in s'.threads && u != t && s'.threads[u].p == p ==>
        u in s.threads && s.threads[u] == s'.threads[u])
  }

  lemma {:induction false} SameKeepsData<S, E>(s: Sys<S, E>, s': Sys<S, E>, p: string, t: Tid)
    requires DataOrderly(s, p) && SameFor(s, s', p, t)
    requires t in s'.threads && s'.threads[t].p == p ==> OrderlyPc(s', s'.threads[t])
    ensures DataOrderly(s', p)
  {
    forall u | u in s'.threads && s'.threads[u].p == p ensures OrderlyPc(s', s'.threads[u]) {
      if u != t {
        assert OrderlyPc(s, s.threads[u]);
      }
    }
  }

  /** Commands of other policies, and those that neither initialise nor write. */
  lemma {:induction false} QuietCommandData<S, E>(m: Machine<S, E>, s: Sys<S, E>, p: string, t: Tid)
    requires Orderly(s, p) && t in s.threads && Command(m, s, t).Some?
    requires var pc := s.threads[t];
             pc.p != p || !(pc.UpdateMissing? || pc.UpdateLoaded? || pc.RestoreLocked? || pc.ReadMissing?)
    ensures DataOrderly(Command(m, s, t).value, p)
  {
    SameKeepsData(s, Command(m, s, t).value, p, t);
  }

  /** Initialising a missing key, under the lock or by a stale reader. */
  lemma {:induction false} InitCommandData<S, E>(m: Machine<S, E>, s: Sys<S, E>, p: string, t: Tid)
    requires Orderly(s, p) && t in s.threads && s.threads[t].p == p
    requires s.threads[t].UpdateMissing? || s.threads[t].ReadMissing?
    ensures Command(m, s, t).Some? && DataOrderly(Command(m, s, t).value, p)
  {
    var s' := Command(m, s, t).value;
    assert OrderlyPc(s, s.threads[t]);
    forall u | u in s'.threads && s'.threads[u].p == p ensures OrderlyPc(s', s'.threads[u]) {
      if u != t {
        assert OrderlyPc(s, s.threads[u]);
      }
    }
  }

  /** Completing a write: the owner of the lock is alone in the critical section. */
  lemma {:induction false} WriteCommandData<S, E>(m: Machine<S, E>, s: Sys<S, E>, p: string, t: Tid)
    requires Orderly(s, p) && t in s.threads && s.threads[t].p == p
    requires s.threads[t].UpdateLoaded? || s.threads[t].RestoreLocked?
    ensures Command(m, s, t).Some? && DataOrderly(Command(m, s, t).value, p)
  {
    var s', pc := Command(m, s, t).value, s.threads[t];
    assert OrderlyPc(s, pc);
    WithinSelf(s.Completed(p));
    if pc.UpdateLoaded? {
      WithinAppend(pc.cell.writes, s.Completed(p), Did(pc.e));
    } else {
      WithinAppend(s.Completed(p), s.Completed(p), Put(pc.model));
    }
    forall u | u in s'.threads && s'.threads[u].p == p ensures OrderlyPc(s', s'.threads[u]) {
      if u != t {
        CommandElsewhere(m, s, t, u);
        assert !InLock(s.threads[u]);
      }
    }
  }

  lemma {:induction false} StepOrderly<S, E>(m: Machine<S, E>, s: Sys<S, E>, p: string, step: Step<S, E>)
    requires Orderly(s, p) && Calm(step, p) && Next(m, s, step).Some?
    ensures Orderly(Next(m, s, step).value, p)
  {
    var s' := Next(m, s, step).value;
    match step
    case Advance(t) =>
      var pc := s.threads[t];
      CommandLock(m, s, p, t);
      if pc.p == p && (pc.UpdateMissing? || pc.ReadMissing?) {
        InitCommandData(m, s, p, t);
      } else if pc.p == p && (pc.UpdateLoaded? || pc.RestoreLocked?) {
        WriteCommandData(m, s, p, t);
      } else {
        QuietCommandData(m, s, p, t);
      }
    case Begin(t, _) => SameKeepsData(s, s', p, t);
    case GiveUp(t) => SameKeepsData(s, s', p, t);
    case Fail(t) => SameKeepsData(s, s', p, t);
    case Expire(_) => SameKeepsData(s, s', p, 0);
    case Reset(_) => SameKeepsData(s, s', p, 0);
  }

  lemma {:induction false} RunOrderly<S, E>(m: Machine<S, E>, s: Sys<S, E>, p: string, steps: seq<Step<S, E>>)
    requires Orderly(s, p) && CalmRun(steps, p) && Exec(m, s, steps).Some?
    ensures Orderly(Exec(m, s, steps).value, p)
    decreases |steps|
  {
    if steps != [] {
      assert Calm(steps[0], p);
      StepOrderly(m, s, p, steps[0]);
      RunOrderly(m, Next(m, s, steps[0]).value, p, steps[1..]);
    }
  }

  // ---------------------------------------------------------------- no update is lost

  lemma {:induction false} StepSettled<S, E>(m: Machine<S, E>, s: Sys<S, E>, p: string, step: Step<S, E>)
    requires Orderly(s, p) && Settled(s, p) && Calm(step, p) && Next(m, s, step).Some?
    ensures Settled(Next(m, s, step).value, p)
  {
    var s' := Next(m, s, step).value;
    if step.Advance? && s.threads[step.t].p == p {
      var pc := s.threads[step.t];
      assert OrderlyPc(s, pc);
      assert pc != ReadMissing(p);
      if pc.UpdateLoaded? {
        assert pc.cell.writes == s.Completed(p);
      }
    } else {
      assert s'.Completed(p) == s.Completed(p);
    }
  }

  /** In every interleaving of updates, restores and unlocked readers that starts settled, and
      in which p's lock does not expire and p is not reset, the stored weights are the fold of
      all completed writes in the order of the critical sections: no update is lost. */
  lemma {:induction false} NoUpdateLost<S, E>(m: Machine<S, E>, s: Sys<S, E>, p: string, steps: seq<Step<S, E>>)
    requires Orderly(s, p) && Settled(s, p) && Provenance(m, s)
    requires CalmRun(steps, p) && Exec(m, s, steps).Some?
    ensures
      var s' := Exec(m, s, steps).value;
      Settled(s', p) && s'.store[p].model == Fold(m, p, s'.Completed(p))
    decreases |steps|
  {
    if steps == [] {
      assert Honest(m, s, p, s.store[p]);
    } else {
      assert Calm(steps[0], p);
      StepOrderly(m, s, p, steps[0]);
      StepSettled(m, s, p, steps[0]);
      StepProvenance(m, s, steps[0]);
      NoUpdateLost(m, Next(m, s, steps[0]).value, p, steps[1..]);
    }
  }

  // ---------------------------------------------------------------- and exactly then

  ghost predicate NeverLoses<S(!new), E(!new)>(m: Machine<S, E>, s: Sys<S, E>, p: string) {
    forall steps :: CalmRun(steps, p) && Exec(m, s, steps).Some? ==> Lossless(Exec(m, s, steps).value, p)
  }

  /** How many commands the owner of a lock still has to run. */
  function Remaining<S, E>(pc: Pc<S, E>): nat {
    match pc
    case UpdateLocked(_, _) => 4
    case UpdateMissing(_, _) => 3
    case UpdateLoaded(_, _, _) => 2
    case RestoreLocked(_, _) => 2
    case Releasing(_) => 1
    case _ => 0
  }

  lemma FreeTid(used: set<Tid>) returns (t: Tid)
    ensures t !in used
  {
    var bound := Above(used);
    t := bound;
  }

  lemma {:induction false} Above(used: set<Tid>) returns (bound: Tid)
    ensures forall u :: u in used ==> u < bound
    decreases |used|
  {
    if used == {} {
      bound := 0;
    } else {
      var u :| u in used;
      var rest := Above(used - {u});
      bound := if u < rest then rest else u + 1;
      assert forall v :: v in used ==> v == u || v in used - {u};
    }
  }

  lemma {:induction false} RunFirst<S, E>(m: Machine<S, E>, s: Sys<S, E>, p: string, step: Step<S, E>,
                                          rest: seq<Step<S, E>>)
    requires Calm(step, p) && Next(m, s, step).Some? && CalmRun(rest, p)
    ensures CalmRun([step] + rest, p)
    ensures Exec(m, s, [step] + rest) == Exec(m, Next(m, s, step).value, rest)
  {
    assert ([step] + rest)[1..] == rest;
  }

  /** No unlocked caller of p is admitted. */
  ghost predicate NoReaders<S, E>(steps: seq<Step<S, E>>, p: string) {
    forall i :: 0 <= i < |steps| && steps[i].Begin? ==> steps[i].pc != ReadStart(p)
  }

  /** s' is s with p's lock released: other requests of s are where they were, p's completed
      writes only grew, and a write that was pending under the lock is among them. */
  ghost predicate Drained<S, E>(s: Sys<S, E>, s': Sys<S, E>, p: string) {
    && p !in s'.lock && Orderly(s', p)
    && (forall t :: t in s.threads && (p in s.lock ==> t != s.lock[p]) ==>
        t in s'.threads && s'.threads[t] == s.threads[t])
    && s.Completed(p) <= s'.Completed(p)
    && (p in s.lock && s.lock[p] in s.threads && !s.threads[s.lock[p]].Releasing? ==> s'.Completed(p) != [])
  }

  lemma {:induction false} OwnerStep<S, E>(m: Machine<S, E>, s: Sys<S, E>, p: string)
    requires LockOrderly(s, p) && p in s.lock
    ensures
      var t := s.lock[p];
      && t in s.threads && Command(m, s, t).Some?
      && var s1 := Command(m, s, t).value;
         && (p in s1.lock ==> s1.lock[p] == t && t in s1.threads && Remaining(s1.threads[t]) < Remaining(s.threads[t]))
         && (forall u :: u in s.threads && u != t ==> u in s1.threads && s1.threads[u] == s.threads[u])
         && s.Completed(p) <= s1.Completed(p)
         && (p in s1.lock && s1.threads[t].Releasing? ==> s1.Completed(p) != [])
         && (p !in s1.lock ==> s.threads[t].Releasing?)
  {
  }

  ghost predicate AllAdvance<S, E>(steps: seq<Step<S, E>>) {
    forall i :: 0 <= i < |steps| ==> steps[i].Advance?
  }

  lemma {:induction false} AdvanceFirst<S, E>(m: Machine<S, E>, s: Sys<S, E>, t: Tid, rest: seq<Step<S, E>>)
    requires Next(m, s, Advance(t)).Some? && AllAdvance(rest)
    ensures AllAdvance([Advance(t)] + rest)
    ensures Exec(m, s, [Advance(t)] + rest) == Exec(m, Next(m, s, Advance(t)).value, rest)
  {
    assert ([Advance(t)] + rest)[1..] == rest;
  }

  lemma {:induction false} DrainSteps<S, E>(m: Machine<S, E>, s: Sys<S, E>, p: string) returns (steps: seq<Step<S, E>>)
    requires Orderly(s, p)
    ensures AllAdvance(steps) && Exec(m, s, steps).Some? && Drained(s, Exec(m, s, steps).value, p)
    decreases if p in s.lock && s.lock[p] in s.threads then Remaining(s.threads[s.lock[p]]) else 0
  {
    if p !in s.lock {
      steps := [];
    } else {
      var t := s.lock[p];
      OwnerStep(m, s, p);
      StepOrderly(m, s, p, Advance(t));
      var s1 := Command(m, s, t).value;
      var rest := DrainSteps(m, s1, p);
      steps := [Advance(t)] + rest;
      AdvanceFirst(m, s, t, rest);
      DrainedAfter(s, s1, Exec(m, s1, rest).value, p);
    }
  }

  /** The owner of p's lock, left alone, releases it. */
  lemma {:induction false} Drain<S, E>(m: Machine<S, E>, s: Sys<S, E>, p: string) returns (steps: seq<Step<S, E>>)
    requires Orderly(s, p)
    ensures CalmRun(steps, p) && Exec(m, s, steps).Some? && Drained(s, Exec(m, s, steps).value, p)
    ensures NoReaders(steps, p)
  {
    steps := DrainSteps(m, s, p);
  }

  lemma {:induction false} DrainedAfter<S, E>(s: Sys<S, E>, s1: Sys<S, E>, s': Sys<S, E>, p: string)
    requires p in s.lock && s.lock[p] in s.threads
    requires p in s1.lock ==> s1.lock[p] == s.lock[p] && s.lock[p] in s1.threads
    requires forall u :: u in s.threads && u != s.lock[p] ==> u in s1.threads && s1.threads[u] == s.threads[u]
    requires s.Completed(p) <= s1.Completed(p)
    requires p in s1.lock && s1.threads[s.lock[p]].Releasing? ==> s1.Completed(p) != []
    requires p !in s1.lock ==> s.threads[s.lock[p]].Releasing?
    requires Drained(s1, s', p)
    ensures Drained(s, s', p)
  {
  }

  /** Some unlocked caller can be about to initialise a key it saw missing. */
  lemma {:induction false} GetStaleReader<S, E>(m: Machine<S, E>, s: Sys<S, E>, p: string)
    returns (steps: seq<Step<S, E>>, r: Tid)
    requires Orderly(s, p) && Lossless(s, p) && !Settled(s, p)
    ensures CalmRun(steps, p) && Exec(m, s, steps).Some?
    ensures
      var s' := Exec(m, s, steps).value;
      Orderly(s', p) && r in s'.threads && s'.threads[r] == ReadMissing(p)
  {
    if t :| t in s.threads && s.threads[t] == ReadMissing(p) {
      steps, r := [], t;
    } else {
      assert p !in s.store;
      r := FreeTid(s.threads.Keys);
      var s1 := Next(m, s, Begin(r, ReadStart(p))).value;
      StepOrderly(m, s, p, Begin(r, ReadStart(p)));
      StepOrderly(m, s1, p, Advance(r));
      steps := [Begin(r, ReadStart(p))] + ([Advance(r)] + []);
      RunFirst(m, s1, p, Advance(r), []);
      RunFirst(m, s, p, Begin(r, ReadStart(p)), [Advance(r)] + []);
    }
  }

  /** A complete update of p by a new request: its write ends up in the completed ones. */
  lemma {:induction false} RunUpdate<S, E>(m: Machine<S, E>, s: Sys<S, E>, p: string, e: E)
    returns (steps: seq<Step<S, E>>)
    requires Orderly(s, p) && p !in s.lock
    ensures CalmRun(steps, p) && NoReaders(steps, p) && Exec(m, s, steps).Some?
    ensures
      var s' := Exec(m, s, steps).value;
      && p !in s'.lock && Orderly(s', p) && s'.Completed(p) != []
      && forall t :: t in s.threads ==> t in s'.threads && s'.threads[t] == s.threads[t]
  {
    var u := FreeTid(s.threads.Keys);
    var s1 := Next(m, s, Begin(u, UpdateStart(p, e))).value;
    StepOrderly(m, s, p, Begin(u, UpdateStart(p, e)));
    var s2 := Next(m, s1, Advance(u)).value;
    StepOrderly(m, s1, p, Advance(u));
    var rest := Drain(m, s2, p);
    assert s2.lock[p] == u && s2.threads[u] == UpdateLocked(p, e);
    steps := [Begin(u, UpdateStart(p, e))] + ([Advance(u)] + rest);
    RunFirst(m, s1, p, Advance(u), rest);
    RunFirst(m, s, p, Begin(u, UpdateStart(p, e)), [Advance(u)] + rest);
  }

  lemma {:induction false} CalmConcat<S, E>(m: Machine<S, E>, s: Sys<S, E>, p: string, a: seq<Step<S, E>>,
                                            b: seq<Step<S, E>>)
    requires CalmRun(a, p) && CalmRun(b, p) && Exec(m, s, a).Some?
    ensures CalmRun(a + b, p) && Exec(m, s, a + b) == Exec(m, Exec(m, s, a).value, b)
  {
    ExecConcat(m, s, a, b);
  }

  /** One stale miss is enough: let the lock's owner finish, run an update, then the reader. */
  lemma {:induction false} StaleReaderLoses<S, E>(m: Machine<S, E>, s: Sys<S, E>, p: string, r: Tid, e: E)
    returns (steps: seq<Step<S, E>>)
    requires Orderly(s, p) && r in s.threads && s.threads[r] == ReadMissing(p)
    ensures CalmRun(steps, p) && NoReaders(steps, p)
    ensures Exec(m, s, steps).Some? && !Lossless(Exec(m, s, steps).value, p)
  {
    var b := Drain(m, s, p);
    var s2 := Exec(m, s, b).value;
    var c := RunUpdate(m, s2, p, e);
    var s3 := Exec(m, s2, c).value;
    assert s3.threads[r] == ReadMissing(p);
    var d := [Advance(r)] + [];
    RunFirst(m, s3, p, Advance(r), []);
    CalmConcat(m, s2, p, c, d);
    CalmConcat(m, s, p, b, c + d);
    steps := b + (c + d);
  }

  /** From any orderly state that is not settled there is a run, with no expiry and no reset,
      at whose end a completed write is missing from the store. */
  lemma {:induction false} LosingRun<S, E>(m: Machine<S, E>, s: Sys<S, E>, p: string, e: E)
    returns (steps: seq<Step<S, E>>)
    requires Orderly(s, p) && !Settled(s, p)
    ensures CalmRun(steps, p) && Exec(m, s, steps).Some? && !Lossless(Exec(m, s, steps).value, p)
  {
    if !Lossless(s, p) {
      steps := [];
    } else {
      var a, r := GetStaleReader(m, s, p);
      var b := StaleReaderLoses(m, Exec(m, s, a).value, p, r, e);
      CalmConcat(m, s, p, a, b);
      steps := a + b;
    }
  }

  /** The exact condition. In an orderly system no interleaving ever loses a write on p if and
      only if the key is present, complete, and no unlocked caller holds a stale miss. */
  lemma NeverLosesExactly<S(!new), E(!new)>(m: Machine<S, E>, s: Sys<S, E>, p: string, e: E)
    requires Orderly(s, p) && Provenance(m, s)
    ensures NeverLoses(m, s, p) <==> Settled(s, p)
  {
    if Settled(s, p) {
      forall steps | CalmRun(steps, p) && Exec(m, s, steps).Some? ensures Lossless(Exec(m, s, steps).value, p) {
        NoUpdateLost(m, s, p, steps);
      }
    } else {
      var steps := LosingRun(m, s, p, e);
    }
  }

  /** The empty system is orderly, but not settled: the very first requests can race. */
  lemma {:induction false} InitialOrderly<S, E>(m: Machine<S, E>, p: string)
    ensures Orderly(Initial<S, E>(), p) && Provenance(m, Initial<S, E>()) && !Settled(Initial<S, E>(), p)
  {
  }

  // ---------------------------------------------------------------- one request alone, and an expired lock

  /** The weights a caller sees, an absent key read as the fresh model. */
  function WeightsOf<S, E>(m: Machine<S, E>, s: Sys<S, E>, p: string): S {
    if p in s.store then s.store[p].model else m.start(p)
  }

  lemma {:induction false} ExecFirst<S, E>(m: Machine<S, E>, s: Sys<S, E>, step: Step<S, E>, rest: seq<Step<S, E>>)
    requires Next(m, s, step).Some?
    ensures Exec(m, s, [step] + rest) == Exec(m, Next(m, s, step).value, rest)
  {
    assert ([step] + rest)[1..] == rest;
  }

  /** The owner of the lock loads the value, initialising a missing one. */
  lemma {:induction false} LoadAlone<S, E>(m: Machine<S, E>, s: Sys<S, E>, p: string, u: Tid, e: E)
    returns (steps: seq<Step<S, E>>)
    requires u in s.threads && s.threads[u] == UpdateLocked(p, e)
    ensures Exec(m, s, steps).Some? && forall i :: 0 <= i < |steps| ==> steps[i] == Advance(u)
    ensures
      var s' := Exec(m, s, steps).value;
      && p in s'.store && s'.store[p].model == WeightsOf(m, s, p) && s'.store == s.store[p := s'.store[p]]
      && s' == s.(store := s'.store, threads := s.threads[u := UpdateLoaded(p, e, s'.store[p])])
  {
    var s1 := Next(m, s, Advance(u)).value;
    steps := [Advance(u)] + [];
    if p in s.store {
      assert s.store == s.store[p := s.store[p]];
    } else {
      ExecFirst(m, s1, Advance(u), []);
      steps := [Advance(u)] + steps;
      assert s1.threads[u := UpdateLoaded(p, e, Cell(m.start(p), []))]
          == s.threads[u := UpdateLoaded(p, e, Cell(m.start(p), []))];
    }
    ExecFirst(m, s, Advance(u), steps[1..]);
    assert steps == [Advance(u)] + steps[1..];
  }

  /** It saves and releases. */
  lemma {:induction false} SaveAlone<S, E>(m: Machine<S, E>, s: Sys<S, E>, p: string, u: Tid, e: E, cell: Cell<S, E>)
    returns (steps: seq<Step<S, E>>)
    requires u in s.threads && s.threads[u] == UpdateLoaded(p, e, cell) && p in s.lock && s.lock[p] == u
    ensures Exec(m, s, steps).Some? && forall i :: 0 <= i < |steps| ==> steps[i] == Advance(u)
    ensures
      var s' := Exec(m, s, steps).value;
      && s'.store == s.store[p := Cell(m.apply(cell.model, e), cell.writes + [Did(e)])]
      && s'.Completed(p) == s.Completed(p) + [Did(e)]
      && s'.lock == s.lock - {p} && s'.threads == s.threads - {u}
  {
    var s1 := Next(m, s, Advance(u)).value;
    steps := [Advance(u)] + ([Advance(u)] + []);
    ExecFirst(m, s1, Advance(u), []);
    ExecFirst(m, s, Advance(u), [Advance(u)] + []);
    assert s1.threads - {u} == s.threads - {u};
  }

  /** The commands of a request that already holds the lock, run without interruption. */
  lemma {:induction false} FinishAlone<S, E>(m: Machine<S, E>, s: Sys<S, E>, p: string, u: Tid, e: E)
    returns (steps: seq<Step<S, E>>)
    requires u in s.threads && s.threads[u] == UpdateLocked(p, e) && p in s.lock && s.lock[p] == u
    ensures CalmRun(steps, p) && Exec(m, s, steps).Some? && forall i :: 0 <= i < |steps| ==> steps[i] == Advance(u)
    ensures
      var s' := Exec(m, s, steps).value;
      && p in s'.store && s'.store[p].model == m.apply(WeightsOf(m, s, p), e)
      && s'.Completed(p) == s.Completed(p) + [Did(e)]
      && s'.store == s.store[p := s'.store[p]] && s'.lock == s.lock - {p} && s'.threads == s.threads - {u}
  {
    var first := LoadAlone(m, s, p, u, e);
    var loaded := Exec(m, s, first).value;
    var last := SaveAlone(m, loaded, p, u, e, loaded.store[p]);
    ExecConcat(m, s, first, last);
    steps := first + last;
    assert loaded.threads - {u} == s.threads - {u};
  }

  /** A reader that finds the key missing, run to its end. */
  lemma {:induction false} ReaderAlone<S, E>(m: Machine<S, E>, s: Sys<S, E>, p: string, t: Tid)
    requires t in s.threads && s.threads[t] == ReadStart(p) && p !in s.store
    ensures Exec(m, s, [Advance(t), Advance(t), Advance(t)]) == Some(Initialised(m, s, p).(threads := s.threads - {t}))
  {
    var s1 := Next(m, s, Advance(t)).value;
    StaleWrite(m, s1, p, t);
    var rest: seq<Step<S, E>> := [Advance(t), Advance(t)];
    ExecFirst(m, s, Advance(t), rest);
    assert [Advance(t)] + rest == [Advance(t), Advance(t), Advance(t)];
    assert s1.threads - {t} == s.threads - {t};
  }

  /** A stale reader initialises the key, whatever is stored by then. */
  lemma {:induction false} StaleWrite<S, E>(m: Machine<S, E>, s: Sys<S, E>, p: string, t: Tid)
    requires t in s.threads && s.threads[t] == ReadMissing(p)
    ensures Exec(m, s, [Advance(t), Advance(t)]) == Some(Initialised(m, s, p).(threads := s.threads - {t}))
  {
    var s1 := Next(m, s, Advance(t)).value;
    var s2 := Next(m, s1, Advance(t)).value;
    var last: seq<Step<S, E>> := [Advance(t)] + [];
    ExecFirst(m, s1, Advance(t), []);
    ExecFirst(m, s, Advance(t), last);
    assert [Advance(t)] + last == [Advance(t), Advance(t)];
    assert s2.threads == s.threads - {t};
  }

  /** The commands of an update that has just been admitted, run without interruption. */
  lemma {:induction false} AdmittedAlone<S, E>(m: Machine<S, E>, s: Sys<S, E>, p: string, u: Tid, e: E)
    returns (steps: seq<Step<S, E>>)
    requires u in s.threads && s.threads[u] == UpdateStart(p, e) && p !in s.lock
    ensures Exec(m, s, steps).Some? && forall i :: 0 <= i < |steps| ==> steps[i] == Advance(u)
    ensures
      var s' := Exec(m, s, steps).value;
      && p in s'.store && s'.store[p].model == m.apply(WeightsOf(m, s, p), e)
      && s'.Completed(p) == s.Completed(p) + [Did(e)]
      && s'.store == s.store[p := s'.store[p]] && s'.lock == s.lock && s'.threads == s.threads - {u}
  {
    var s1 := Next(m, s, Advance(u)).value;
    var rest := FinishAlone(m, s1, p, u, e);
    ExecFirst(m, s, Advance(u), rest);
    steps := [Advance(u)] + rest;
    var s' := Exec(m, s, steps).value;
    assert s'.lock == s.lock && s'.threads == s.threads - {u};
  }

  /** An update that meets no interference applies its event to the current weights, once, and
      touches nothing else: the sequential contract of the service. */
  lemma {:induction false} UpdateAlone<S, E>(m: Machine<S, E>, s: Sys<S, E>, p: string, e: E)
    returns (steps: seq<Step<S, E>>)
    requires p !in s.lock
    ensures CalmRun(steps, p) && Exec(m, s, steps).Some?
    ensures
      var s' := Exec(m, s, steps).value;
      && p in s'.store && s'.store[p].model == m.apply(WeightsOf(m, s, p), e)
      && s'.Completed(p) == s.Completed(p) + [Did(e)]
      && s'.store == s.store[p := s'.store[p]] && s'.lock == s.lock && s'.threads == s.threads
  {
    var u := FreeTid(s.threads.Keys);
    var s1 := Next(m, s, Begin(u, UpdateStart(p, e))).value;
    var s2 := Next(m, s1, Advance(u)).value;
    var rest := FinishAlone(m, s2, p, u, e);
    ExecFirst(m, s1, Advance(u), rest);
    ExecFirst(m, s, Begin(u, UpdateStart(p, e)), [Advance(u)] + rest);
    steps := [Begin(u, UpdateStart(p, e))] + ([Advance(u)] + rest);
    var s' := Exec(m, s, steps).value;
    assert s'.threads == s.threads;
    assert s'.lock == s.lock;
  }

  /** The four commands of a reader that finds the key missing, run without interruption. */
  lemma {:induction false} ReadAlone<S, E>(m: Machine<S, E>, s: Sys<S, E>, p: string)
    returns (steps: seq<Step<S, E>>)
    requires p !in s.store
    ensures CalmRun(steps, p) && Exec(m, s, steps) == Some(Initialised(m, s, p))
  {
    var u := FreeTid(s.threads.Keys);
    var s1 := Next(m, s, Begin(u, ReadStart(p))).value;
    var s2 := Next(m, s1, Advance(u)).value;
    var s3 := Next(m, s2, Advance(u)).value;
    var s4 := Next(m, s3, Advance(u)).value;
    assert s4.threads == s.threads;
    var last := [Advance(u)] + ([Advance(u)] + ([Advance(u)] + []));
    ExecFirst(m, s3, Advance(u), []);
    ExecFirst(m, s2, Advance(u), [Advance(u)] + []);
    ExecFirst(m, s1, Advance(u), [Advance(u)] + ([Advance(u)] + []));
    ExecFirst(m, s, Begin(u, ReadStart(p)), last);
    steps := [Begin(u, ReadStart(p))] + last;
  }

  /** The hypothesis of the theorem is easily met: one undisturbed ranking of a policy that
      nobody has touched yet settles it. */
  lemma {:induction false} FirstReadSettles<S, E>(m: Machine<S, E>, s: Sys<S, E>, p: string)
    returns (steps: seq<Step<S, E>>)
    requires Orderly(s, p) && p !in s.store && forall t :: t in s.threads ==> s.threads[t] != ReadMissing(p)
    ensures CalmRun(steps, p) && Exec(m, s, steps) == Some(Initialised(m, s, p))
    ensures Orderly(Initialised(m, s, p), p) && Settled(Initialised(m, s, p), p)
  {
    steps := ReadAlone(m, s, p);
    RunOrderly(m, s, p, steps);
  }

  lemma {:induction false} RunSettled<S, E>(m: Machine<S, E>, s: Sys<S, E>, p: string, steps: seq<Step<S, E>>)
    requires Orderly(s, p) && Settled(s, p) && CalmRun(steps, p) && Exec(m, s, steps).Some?
    ensures Settled(Exec(m, s, steps).value, p)
    decreases |steps|
  {
    if steps != [] {
      assert Calm(steps[0], p);
      StepOrderly(m, s, p, steps[0]);
      StepSettled(m, s, p, steps[0]);
      RunSettled(m, Next(m, s, steps[0]).value, p, steps[1..]);
    }
  }

  /** A new request that has taken p's lock and loaded the value. */
  lemma {:induction false} LoadUnderLock<S, E>(m: Machine<S, E>, s: Sys<S, E>, p: string, u: Tid, e: E)
    returns (steps: seq<Step<S, E>>)
    requires u !in s.threads && p in s.store && p !in s.lock
    ensures CalmRun(steps, p) && Exec(m, s, steps).Some?
    ensures Exec(m, s, steps).value
         == s.(lock := s.lock[p := u], threads := s.threads[u := UpdateLoaded(p, e, s.store[p])])
  {
    var s1 := Next(m, s, Begin(u, UpdateStart(p, e))).value;
    var s2 := Next(m, s1, Advance(u)).value;
    var s3 := Next(m, s2, Advance(u)).value;
    steps := [Begin(u, UpdateStart(p, e))] + ([Advance(u)] + ([Advance(u)] + []));
    ExecFirst(m, s2, Advance(u), []);
    ExecFirst(m, s1, Advance(u), [Advance(u)] + []);
    ExecFirst(m, s, Begin(u, UpdateStart(p, e)), [Advance(u)] + ([Advance(u)] + []));
    assert s3.threads == s.threads[u := UpdateLoaded(p, e, s.store[p])];
  }

  lemma {:induction false} ExpiryWithFreeLock<S, E>(m: Machine<S, E>, s: Sys<S, E>, p: string, e: E)
    returns (before: seq<Step<S, E>>, after: seq<Step<S, E>>)
    requires Settled(s, p) && p !in s.lock
    ensures CalmRun(before, p) && CalmRun(after, p)
    ensures
      var run := before + ([Expire(p)] + after);
      Exec(m, s, run).Some? && !Lossless(Exec(m, s, run).value, p)
  {
    var u := FreeTid(s.threads.Keys);
    before := LoadUnderLock(m, s, p, u, e);
    var s1 := Exec(m, s, before).value;
    var s2 := Next(m, s1, Expire(p)).value;
    var other := UpdateAlone(m, s2, p, e);
    var s3 := Exec(m, s2, other).value;
    assert s3.threads[u] == UpdateLoaded(p, e, s.store[p]);
    var s4 := Next(m, s3, Advance(u)).value;
    assert |s4.store[p].writes| == |s.store[p].writes| + 1;
    assert |s4.Completed(p)| == |s.Completed(p)| + 2;
    ExecFirst(m, s3, Advance(u), []);
    ExecConcat(m, s2, other, [Advance(u)] + []);
    after := other + ([Advance(u)] + []);
    ExecFirst(m, s1, Expire(p), after);
    ExecConcat(m, s, before, [Expire(p)] + after);
  }

  /** The lock's timeout is a real hypothesis: from every settled state one expiry in the middle
      of an update is enough to lose another one. */
  lemma {:induction false} ExpiryLosesUpdate<S, E>(m: Machine<S, E>, s: Sys<S, E>, p: string, e: E)
    returns (before: seq<Step<S, E>>, after: seq<Step<S, E>>)
    requires Orderly(s, p) && Settled(s, p)
    ensures CalmRun(before, p) && CalmRun(after, p)
    ensures
      var run := before + ([Expire(p)] + after);
      Exec(m, s, run).Some? && !Lossless(Exec(m, s, run).value, p)
  {
    var drain := Drain(m, s, p);
    RunSettled(m, s, p, drain);
    var s1 := Exec(m, s, drain).value;
    var b, a := ExpiryWithFreeLock(m, s1, p, e);
    before, after := drain + b, a;
    ExecConcat(m, s, drain, b + ([Expire(p)] + after));
    assert drain + (b + ([Expire(p)] + after)) == before + ([Expire(p)] + after);
  }

  /** So is the absence of resets: a reset forgets exactly what was completed. */
  lemma ResetLosesExactly<S, E>(m: Machine<S, E>, s: Sys<S, E>, p: string)
    ensures Next(m, s, Reset(p)).Some?
    ensures Lossless(Next(m, s, Reset(p)).value, p) <==> s.Completed(p) == []
  {
  }

  // ---------------------------------------------------------------- without unlocked callers

  /** No unlocked caller of p is about to look at its key, or has seen it missing. */
  ghost predicate Unread<S, E>(s: Sys<S, E>, p: string) {
    forall t :: t in s.threads ==> s.threads[t] != ReadStart(p) && s.threads[t] != ReadMissing(p)
  }

  lemma {:induction false} LockedCommand<S, E>(m: Machine<S, E>, s: Sys<S, E>, p: string, t: Tid)
    requires Orderly(s, p) && Lossless(s, p) && Unread(s, p)
    requires t in s.threads && s.threads[t].p == p && Command(m, s, t).Some?
    ensures Lossless(Command(m, s, t).value, p)
  {
    var pc := s.threads[t];
    assert OrderlyPc(s, pc) && pc != ReadMissing(p);
    if pc.UpdateLoaded? && s.Completed(p) == [] {
      assert pc.cell.writes == [];
    }
  }

  lemma {:induction false} OtherCommand<S, E>(m: Machine<S, E>, s: Sys<S, E>, p: string, t: Tid)
    requires Lossless(s, p) && t in s.threads && s.threads[t].p != p && Command(m, s, t).Some?
    ensures Lossless(Command(m, s, t).value, p)
  {
  }

  lemma {:induction false} StepUnread<S, E>(m: Machine<S, E>, s: Sys<S, E>, p: string, step: Step<S, E>)
    requires Unread(s, p) && NoReaders([step], p) && Next(m, s, step).Some?
    ensures Unread(Next(m, s, step).value, p)
  {
    assert [step][0] == step;
    if step.Advance? {
      forall u | u in Next(m, s, step).value.threads && u != step.t
        ensures u in s.threads && Next(m, s, step).value.threads[u] == s.threads[u]
      {
        CommandElsewhere(m, s, step.t, u);
      }
    }
  }

  /** The locked read-modify-write alone never loses anything: from an orderly, lossless state
      without unlocked callers of p, whether its key is there or not, no run without new ones
      loses a write. */
  lemma {:induction false} LockedCallersNeverLose<S, E>(m: Machine<S, E>, s: Sys<S, E>, p: string,
                                                        steps: seq<Step<S, E>>)
    requires Orderly(s, p) && Lossless(s, p) && Unread(s, p)
    requires CalmRun(steps, p) && NoReaders(steps, p) && Exec(m, s, steps).Some?
    ensures Lossless(Exec(m, s, steps).value, p)
    decreases |steps|
  {
    if steps != [] {
      var step := steps[0];
      assert Calm(step, p) && NoReaders([step], p);
      StepOrderly(m, s, p, step);
      StepUnread(m, s, p, step);
      if step.Advance? {
        if s.threads[step.t].p == p {
          LockedCommand(m, s, p, step.t);
        } else {
          OtherCommand(m, s, p, step.t);
        }
      }
      LockedCallersNeverLose(m, Next(m, s, step).value, p, steps[1..]);
    }
  }

  /** No run that admits no unlocked caller of p loses one of its writes. */
  ghost predicate NeverLosesUnread<S(!new), E(!new)>(m: Machine<S, E>, s: Sys<S, E>, p: string) {
    forall steps :: CalmRun(steps, p) && NoReaders(steps, p) && Exec(m, s, steps).Some? ==>
      Lossless(Exec(m, s, steps).value, p)
  }

  /** One unlocked caller, just admitted, is harmless exactly when it will find the key. */
  lemma OneReaderHarmlessExactly<S(!new), E(!new)>(m: Machine<S, E>, s: Sys<S, E>, p: string, t: Tid, e: E)
    requires Orderly(s, p) && Lossless(s, p) && Unread(s, p) && t !in s.threads
    ensures NeverLosesUnread(m, s, p)
    ensures NeverLosesUnread(m, Moved(s, t, ReadStart(p)), p) <==> p in s.store
  {
    forall steps | CalmRun(steps, p) && NoReaders(steps, p) && Exec(m, s, steps).Some?
      ensures Lossless(Exec(m, s, steps).value, p)
    {
      LockedCallersNeverLose(m, s, p, steps);
    }
    var s' := Moved(s, t, ReadStart(p));
    assert Next(m, s, Begin(t, ReadStart(p))) == Some(s');
    StepOrderly(m, s, p, Begin(t, ReadStart(p)));
    if p in s.store {
      assert Settled(s', p);
      forall steps | CalmRun(steps, p) && NoReaders(steps, p) && Exec(m, s', steps).Some?
        ensures Lossless(Exec(m, s', steps).value, p)
      {
        RunSettled(m, s', p, steps);
      }
    } else {
      var steps := ReaderMissesAndLoses(m, s', p, t, e);
    }
  }

  lemma {:induction false} ReaderMissesAndLoses<S, E>(m: Machine<S, E>, s: Sys<S, E>, p: string, t: Tid, e: E)
    returns (steps: seq<Step<S, E>>)
    requires Orderly(s, p) && p !in s.store && t in s.threads && s.threads[t] == ReadStart(p)
    ensures CalmRun(steps, p) && NoReaders(steps, p)
    ensures Exec(m, s, steps).Some? && !Lossless(Exec(m, s, steps).value, p)
  {
    var s1 := Next(m, s, Advance(t)).value;
    StepOrderly(m, s, p, Advance(t));
    var rest := StaleReaderLoses(m, s1, p, t, e);
    RunFirst(m, s, p, Advance(t), rest);
    steps := [Advance(t)] + rest;
  }

  lemma {:induction false} InitialUnread<S, E>(p: string)
    ensures Lossless(Initial<S, E>(), p) && Unread(Initial<S, E>(), p)
  {
  }

  // ---------------------------------------------------------------- without completed writes

  /** Weights that read as the fresh model stay fresh until a write of p completes, whatever else
      happens: a missing key, however it came to be missing, is only ever initialised. */
  lemma {:induction false} FreshStaysFresh<S, E>(m: Machine<S, E>, s: Sys<S, E>, p: string, steps: seq<Step<S, E>>)
    requires WeightsOf(m, s, p) == m.start(p) && Exec(m, s, steps).Some?
    ensures |s.Completed(p)| <= |Exec(m, s, steps).value.Completed(p)|
    ensures |Exec(m, s, steps).value.Completed(p)| == |s.Completed(p)| ==>
              WeightsOf(m, Exec(m, s, steps).value, p) == m.start(p)
    decreases |steps|
  {
    if steps != [] {
      var s1 := Next(m, s, steps[0]).value;
      StepCompletes(m, s, steps[0], p);
      if s1.Completed(p) == s.Completed(p) {
        StepWithoutWrite(m, s, p, steps[0]);
        FreshStaysFresh(m, s1, p, steps[1..]);
      } else {
        CompletedGrows(m, s1, p, steps[1..]);
      }
    }
  }

  lemma {:induction false} StepWithoutWrite<S, E>(m: Machine<S, E>, s: Sys<S, E>, p: string, step: Step<S, E>)
    requires WeightsOf(m, s, p) == m.start(p) && Next(m, s, step).Some?
    requires Next(m, s, step).value.Completed(p) == s.Completed(p)
    ensures WeightsOf(m, Next(m, s, step).value, p) == m.start(p)
  {
  }

  lemma {:induction false} CompletedGrows<S, E>(m: Machine<S, E>, s: Sys<S, E>, p: string, steps: seq<Step<S, E>>)
    requires Exec(m, s, steps).Some?
    ensures |s.Completed(p)| <= |Exec(m, s, steps).value.Completed(p)|
    decreases |steps|
  {
    if steps != [] {
      StepCompletes(m, s, steps[0], p);
      CompletedGrows(m, Next(m, s, steps[0]).value, p, steps[1..]);
    }
  }
}
