/** Redis behind the bandit (store/state_store.py): one key per policy, one for the context. */
module StateStore {
  import opened Wrappers
  import opened Models
  import opened Context

  datatype Blob = StateBlob(model: ModelState) | ContextBlob(context: SavedContext)

  function StateKey(prefix: string, policyId: string): string {
    prefix + ":state:" + policyId
  }

  function LockKey(prefix: string, policyId: string): string {
    prefix + ":lock:" + policyId
  }

  function ContextKey(prefix: string): string {
    prefix + ":context"
  }

  /** Different policies never share a key, and no state key is a lock key or the context
      key, whatever the ids contain: this is what makes each policy's weights independent. */
  lemma KeysAreSeparate(prefix: string, p: string, q: string)
    ensures StateKey(prefix, p) == StateKey(prefix, q) <==> p == q
    ensures LockKey(prefix, p) == LockKey(prefix, q) <==> p == q
    ensures StateKey(prefix, p) != ContextKey(prefix)
    ensures StateKey(prefix, p) != LockKey(prefix, q)
    ensures LockKey(prefix, p) != ContextKey(prefix)
  {
    var n := |prefix|;
    assert StateKey(prefix, p)[n + 7..] == p && StateKey(prefix, q)[n + 7..] == q;
    assert LockKey(prefix, p)[n + 6..] == p && LockKey(prefix, q)[n + 6..] == q;
    assert StateKey(prefix, p)[n + 1] == 's';
    assert LockKey(prefix, p)[n + 1] == 'l' && LockKey(prefix, q)[n + 1] == 'l';
    assert ContextKey(prefix)[n + 1] == 'c';
  }

  class StateStore {
    const prefix: string
    var redis: map<string, Blob>

    /** Every blob is of the kind its key says. */
    ghost predicate Valid()
      reads this
    {
      && (ContextKey(prefix) in redis ==> redis[ContextKey(prefix)].ContextBlob?)
      && forall p :: StateKey(prefix, p) in redis ==> redis[StateKey(prefix, p)].StateBlob?
    }

    ghost function State(policyId: string): Option<ModelState>
      requires Valid()
      reads this
    {
      var key := StateKey(prefix, policyId);
      if key in redis then Some(redis[key].model) else None
    }

    ghost function SavedContextBuilder(): Option<SavedContext>
      requires Valid()
      reads this
    {
      if ContextKey(prefix) in redis then Some(redis[ContextKey(prefix)].context) else None
    }

    constructor (prefix: string)
      ensures Valid() && this.prefix == prefix
      ensures SavedContextBuilder() == None && forall p :: State(p) == None
    {
      this.prefix := prefix;
      this.redis := map[];
    }

    method LoadState(policyId: string) returns (m: Option<ModelState>)
      requires Valid()
      ensures m == State(policyId)
    {
      var key := StateKey(prefix, policyId);
      m := if key in redis then Some(redis[key].model) else None;
    }

    method SaveState(policyId: string, m: ModelState)
      requires Valid()
      modifies this
      ensures Valid() && SavedContextBuilder() == old(SavedContextBuilder())
      ensures State(policyId) == Some(m)
      ensures forall q :: q != policyId ==> State(q) == old(State(q))
    {
      redis := redis[StateKey(prefix, policyId) := StateBlob(m)];
      forall q ensures StateKey(prefix, policyId) == StateKey(prefix, q) <==> policyId == q {
        KeysAreSeparate(prefix, policyId, q);
      }
      KeysAreSeparate(prefix, policyId, policyId);
    }

    method DeleteState(policyId: string)
      requires Valid()
      modifies this
      ensures Valid() && SavedContextBuilder() == old(SavedContextBuilder())
      ensures State(policyId) == None
      ensures forall q :: q != policyId ==> State(q) == old(State(q))
    {
      redis := redis - {StateKey(prefix, policyId)};
      forall q ensures StateKey(prefix, policyId) == StateKey(prefix, q) <==> policyId == q {
        KeysAreSeparate(prefix, policyId, q);
      }
      KeysAreSeparate(prefix, policyId, policyId);
    }

    method LoadContext() returns (c: Option<SavedContext>)
      requires Valid()
      ensures c == SavedContextBuilder()
    {
      c := if ContextKey(prefix) in redis then Some(redis[ContextKey(prefix)].context) else None;
    }

    method SaveContext(c: SavedContext)
      requires Valid()
      modifies this
      ensures Valid() && SavedContextBuilder() == Some(c)
      ensures forall q :: State(q) == old(State(q))
    {
      redis := redis[ContextKey(prefix) := ContextBlob(c)];
      forall q ensures StateKey(prefix, q) != ContextKey(prefix) {
        KeysAreSeparate(prefix, q, q);
      }
    }
  }
}
