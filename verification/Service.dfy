/** The bandit service (service.py): load, rank or learn, save. */
module Service {
  import opened Wrappers
  import opened Clients
  import opened LinearAlgebra
  import opened Ranking
  import opened Kernel
  import opened Catalog
  import opened Context
  import opened Models
  import opened StateStore
  import opened Policies
  import Audit
  import LinUcb
  import Thompson
  import Baseline

  datatype RankedOffer = RankedOffer(armId: string, rank: nat, score: real, pred: real, bonus: real,
                                     reasons: seq<string>, category: string)

  datatype RankResponse = RankResponse(
    algorithm: string, policyId: string, ranked: seq<RankedOffer>, audit: Audit.AuditBlock)

  // ---------------------------------------------------------------- pure pieces

  /** The policy a call runs under; an algorithm outside the list is refused. */
  function PolicyOrAuto(policy: Option<ResolvedPolicy>, algorithm: Option<string>,
                        default: string): Result<ResolvedPolicy> {
    match policy
    case Some(p) =>
      var algo := if p.algorithm == "" then default else p.algorithm;
      if algo in ALGORITHMS then Ok(p) else Err(BadRequest("INVALID_ALGORITHM"))
    case None =>
      var algo := if algorithm == None || algorithm.value == "" then default else algorithm.value;
      if algo in ALGORITHMS then Ok(AutoPolicy(algo)) else Err(BadRequest("INVALID_ALGORITHM"))
  }

  function ExcludedIndices(cat: Catalog, ids: seq<string>): seq<nat> {
    if ids == [] then []
    else
      var k := |ids| - 1;
      ExcludedIndices(cat, ids[..k]) + match IndexOf(cat.offers, ids[k]) case Some(i) => [i] case None => []
  }

  predicate InCatalogue(cat: Catalog, ranked: seq<RankedArm>) {
    forall i :: 0 <= i < |ranked| ==> ranked[i].arm < |cat.offers|
  }

  /** The offers of the ranked arms, ranks counted from 1. */
  function Offers(cat: Catalog, ranked: seq<RankedArm>): (offers: seq<RankedOffer>)
    requires InCatalogue(cat, ranked)
    ensures |offers| == |ranked|
    ensures forall i :: 0 <= i < |ranked| ==>
              && offers[i].rank == i + 1 && offers[i].score == ranked[i].score
              && offers[i].pred == ranked[i].pred && offers[i].bonus == ranked[i].bonus
              && offers[i].reasons == ranked[i].reasons
              && offers[i].armId == cat.offers[ranked[i].arm].armId
              && offers[i].category == cat.offers[ranked[i].arm].category
  {
    if ranked == [] then []
    else
      var k := |ranked| - 1;
      var r := ranked[k];
      var o := cat.offers[r.arm];
      Offers(cat, ranked[..k]) + [RankedOffer(o.armId, k + 1, r.score, r.pred, r.bonus, r.reasons, o.category)]
  }

  /** results[:top], with Python's meaning of a negative bound. */
  function Slice<T>(s: seq<T>, top: Option<int>): seq<T> {
    match top
    case None => s
    case Some(t) => if t >= |s| then s else if t >= 0 then s[..t] else if |s| + t > 0 then s[..|s| + t] else []
  }

  function EligibleIds(cat: Catalog, mask: seq<bool>): seq<string>
    requires |mask| <= |cat.offers|
  {
    if mask == [] then []
    else
      var k := |mask| - 1;
      EligibleIds(cat, mask[..k]) + if mask[k] then [cat.offers[k].armId] else []
  }

  /** The answer to a ranking request, once the arms are ranked for the stripped client c. */
  function Respond(cat: Catalog, pol: ResolvedPolicy, c: Client, segments: seq<string>, top: Option<int>,
                   mask: seq<bool>, ranked: seq<RankedArm>, parse: Parser): Result<RankResponse>
    requires InCatalogue(cat, ranked) && |mask| == |cat.offers|
  {
    var income := ToFloat(GetOr(c, INCOME, Num(0.0)), parse);
    if income == None then Err(PythonError)
    else
      var audit := Audit.Build(c, segments, cat.ctxCols, IncomePercentile(cat.incomes, income.value),
                               EligibleIds(cat, mask), parse);
      if audit == None then Err(PythonError)
      else Ok(RankResponse(pol.algorithm, pol.policyId, Slice(Offers(cat, ranked), top), audit.value))
  }

  /** The ranked arms for the stripped client c, with the mask they were filtered by. */
  function RankArms(cat: Catalog, cb: ContextBuilder, m: ModelState, c: Client, segments: seq<string>,
                    excludeIds: seq<string>, samples: seq<real>, env: Env): (r: Option<(seq<bool>, seq<RankedArm>)>)
    requires cb.Valid() && Usable(m, |cat.offers|, cb.Dim()) && |samples| == |cat.offers|
    ensures r.Some? ==> |r.value.0| == |cat.offers| && InCatalogue(cat, r.value.1)
  {
    var mask := EligibilityMask(cat, c, env.parse);
    var x := Context.Build(cb, c, segments, env.parse);
    if mask == None || x == None then None
    else
      var exclude := ExcludedIndices(cat, excludeIds);
      var ranked := RankModel(m, |cat.offers|, cb.Dim(), x.value, c, segments, mask.value, exclude, samples, env);
      if ranked == None then None
      else
        RankModelContract(m, |cat.offers|, cb.Dim(), x.value, c, segments, mask.value, exclude, samples, env);
        assert forall i :: 0 <= i < |ranked.value| ==> ranked.value[i] in ranked.value;
        Some((mask.value, ranked.value))
  }

  /** Everything `rank` computes once the model is loaded; protected attributes go first. */
  function RankOutcome(cat: Catalog, cb: ContextBuilder, m: ModelState, pol: ResolvedPolicy, client: Client,
                       segments: seq<string>, top: Option<int>, excludeIds: seq<string>,
                       samples: seq<real>, env: Env): Result<RankResponse>
    requires cb.Valid() && Usable(m, |cat.offers|, cb.Dim()) && |samples| == |cat.offers|
  {
    var c := Audit.StripProtected(client);
    match RankArms(cat, cb, m, c, segments, excludeIds, samples, env)
    case None => Err(PythonError)
    case Some(arms) => Respond(cat, pol, c, segments, top, arms.0, arms.1, env.parse)
  }

  /** What one accepted `update` does to the weights; `Err` is the ValueError of the context. */
  function UpdateOutcome(cb: ContextBuilder, m: ModelState, arm: nat, reward: real, client: Client,
                         segments: seq<string>, env: Env): Result<ModelState>
    requires cb.Valid()
  {
    match Context.Build(cb, client, segments, env.parse)
    case Some(x) => Ok(Learn(m, Update(arm, x, reward)))
    case None => Err(PythonError)
  }

  /** The first builder of a service: the saved one, or one from the catalogue's statistics. */
  function FirstBuilder(cat: Catalog, saved: Option<SavedContext>): ContextBuilder
    requires cat.Valid() && (saved.Some? ==> |saved.value.mu| == |saved.value.sd| == |saved.value.ctxCols|)
  {
    match saved
    case Some(st) => Context.FromState(st)
    case None => Context.Make(cat.ctxCols, cat.mu, cat.sd, None)
  }

  /** A builder over the catalogue's own statistics: its columns and means, its deviations with one
      for zero, and the twelve default segments. */
  ghost predicate CatalogBuilder(cat: Catalog, cb: ContextBuilder) {
    && cb.ctxCols == cat.ctxCols && cb.mu == cat.mu && |cb.sd| == |cat.sd| && cb.segKeys == SEG_KEYS
    && forall i :: 0 <= i < |cat.sd| ==> cb.sd[i] == if cat.sd[i] == 0.0 then 1.0 else cat.sd[i]
  }

  /** The contexts of a service that started on an empty store: the bias, each column less the
      catalogue's mean over its deviation (over one if that is zero), and a flag per segment. */
  lemma CatalogCoordinates(cat: Catalog, cb: ContextBuilder, client: Client, segments: seq<string>, parse: Parser,
                           i: nat, k: nat)
    requires cat.Valid() && cb.Valid() && CatalogBuilder(cat, cb) && i < |cat.ctxCols| && k < |SEG_KEYS|
    requires Context.Build(cb, client, segments, parse).Some?
    ensures
      var x := Context.Build(cb, client, segments, parse).value;
      var n := ToFloat(GetOr(client, cat.ctxCols[i], Num(0.0)), parse);
      && |x| == 1 + |cat.ctxCols| + 12 && x[0] == 1.0 && n.Some?
      && x[1 + i] == (n.value - cat.mu[i]) / (if cat.sd[i] == 0.0 then 1.0 else cat.sd[i])
      && (x[1 + |cat.ctxCols| + k] == 1.0 <==> SEG_KEYS[k] in segments)
      && (x[1 + |cat.ctxCols| + k] == 0.0 <==> SEG_KEYS[k] !in segments)
  {
    BuildLayout(cb, client, segments, parse, i, k);
  }

  // ---------------------------------------------------------------- the service object

  class BanditService {
    const catalog: Catalog
    const store: StateStore
    const env: Env
    const defaultAlgorithm: string
    var builder: Option<ContextBuilder>

    /** The context builder every call sees: cached, saved, or fresh from the catalogue. */
    ghost function Builder(): ContextBuilder
      requires store.Valid() && catalog.Valid()
      requires forall c :: store.SavedContextBuilder() == Some(c) ==> |c.mu| == |c.sd| == |c.ctxCols|
      reads this, store
    {
      if builder.Some? then builder.value else FirstBuilder(catalog, store.SavedContextBuilder())
    }

    ghost predicate Valid()
      reads this, store
    {
      && store.Valid() && catalog.Valid()
      && (forall c :: store.SavedContextBuilder() == Some(c) ==> |c.mu| == |c.sd| == |c.ctxCols|)
      && (builder.Some? ==> builder.value.Valid())
      && forall p :: store.State(p).Some? ==> Fitting(store.State(p).value, |catalog.offers|, Builder().Dim())
    }

    /** The weights of a policy, an absent key read as the fresh model. */
    ghost function Weights(pol: ResolvedPolicy): ModelState
      requires Valid() && pol.algorithm in ALGORITHMS
      reads this, store
    {
      match store.State(pol.policyId)
      case Some(m) => m
      case None => FreshModel(pol.algorithm, catalog, Builder().Dim())
    }

    /** What `_load_or_init` answers: only a policy without a usable algorithm cannot start. */
    ghost function Loaded(pol: ResolvedPolicy): Result<ModelState>
      requires Valid()
      reads this, store
    {
      if store.State(pol.policyId) == None && pol.algorithm !in ALGORITHMS then Err(BadRequest("INVALID_ALGORITHM"))
      else if store.State(pol.policyId).Some? then Ok(store.State(pol.policyId).value)
      else Ok(Weights(pol))
    }

    /** From the old state to the new one: a policy was read, perhaps initialised, and no weights
        moved. */
    twostate predicate OnlyRead(pol: ResolvedPolicy)
      requires old(Valid()) && Valid() && pol.algorithm in ALGORITHMS
      reads this, store
    {
      && Builder() == old(Builder()) && Weights(pol) == old(Weights(pol))
      && forall q :: q != pol.policyId ==> store.State(q) == old(store.State(q))
    }

    constructor (catalog: Catalog, store: StateStore, env: Env, defaultAlgorithm: string)
      requires catalog.Valid() && store.Valid()
      requires forall c :: store.SavedContextBuilder() == Some(c) ==> |c.mu| == |c.sd| == |c.ctxCols|
      requires forall p :: store.State(p).Some? ==>
                 Fitting(store.State(p).value, |catalog.offers|,
                         FirstBuilder(catalog, store.SavedContextBuilder()).Dim())
      ensures Valid() && this.catalog == catalog && this.store == store
      ensures Builder() == FirstBuilder(catalog, store.SavedContextBuilder())
      ensures store.SavedContextBuilder() == None ==> CatalogBuilder(catalog, Builder())
    {
      this.catalog, this.store, this.env, this.defaultAlgorithm := catalog, store, env, defaultAlgorithm;
      this.builder := None;
    }

    method CtxBuilder() returns (cb: ContextBuilder)
      requires Valid()
      modifies this`builder, store
      ensures Valid() && cb == Builder() == old(Builder()) && cb.Valid()
      ensures old(builder == None && store.SavedContextBuilder() == None) ==>
                && CatalogBuilder(catalog, cb)
                && store.SavedContextBuilder() == Some(SavedContext(cb.ctxCols, Some(cb.segKeys), cb.mu, cb.sd))
      ensures forall p :: store.State(p) == old(store.State(p))
    {
      if builder.Some? {
        return builder.value;
      }
      var state := store.LoadContext();
      match state {
        case None =>
          cb := Context.Make(catalog.ctxCols, catalog.mu, catalog.sd, None);
          store.SaveContext(cb.ToState());
        case Some(st) =>
          cb := Context.FromState(st);
      }
      builder := Some(cb);
    }

    method LoadOrInit(pol: ResolvedPolicy, dim: nat) returns (r: Result<ModelState>)
      requires Valid() && dim == Builder().Dim()
      modifies store
      ensures Valid() && Builder() == old(Builder()) && r == old(Loaded(pol))
      ensures store.State(pol.policyId) == if r.Ok? then Some(r.value) else None
      ensures forall q :: q != pol.policyId ==> store.State(q) == old(store.State(q))
    {
      var state := store.LoadState(pol.policyId);
      if state.Some? {
        ReloadFits(state.value, |catalog.offers|, dim);
        return Ok(state.value);
      }
      if pol.algorithm !in ALGORITHMS {
        return Err(BadRequest("INVALID_ALGORITHM"));
      }
      var m := FreshModel(pol.algorithm, catalog, dim);
      FreshFits(pol.algorithm, catalog, dim);
      store.SaveState(pol.policyId, m);
      return Ok(m);
    }

    /** model_from_state, update, get_state on the model object of the state's kind. */
    method LearnOn(m: ModelState, u: Update) returns (m': ModelState)
      requires Valid() && Fitting(m, |catalog.offers|, Builder().Dim())
      requires Fits(|catalog.offers|, Builder().Dim(), u)
      ensures m' == Learn(m, u)
    {
      LearnFits(m, |catalog.offers|, Builder().Dim(), u);
      ReloadFits(m, |catalog.offers|, Builder().Dim());
      if m.Linear? {
        var model := new LinUcb.LinUCB.FromSaved(m.lin);
        model.Update(u.arm, u.r, u.x);
        m' := Linear(model.GetState());
      } else if m.Beta? {
        var model := new Thompson.ThompsonSampling.FromSaved(m.th);
        model.Update(u.arm, u.r);
        m' := Beta(model.GetState());
      } else {
        m' := m;
      }
    }

    /** model_from_state and rank on the model object of the state's kind. */
    method RankOn(m: ModelState, d: nat, x: Vec, client: Client, segments: seq<string>,
                  mask: seq<bool>, exclude: seq<nat>, samples: seq<real>)
      returns (ranked: Option<seq<RankedArm>>)
      requires Fitting(m, |catalog.offers|, d) && |x| == d
      requires |samples| == |mask| == |catalog.offers|
      ensures ranked == RankModel(m, |catalog.offers|, d, x, client, segments, mask, exclude, samples, env)
    {
      ReloadFits(m, |catalog.offers|, d);
      if m.Linear? {
        var model := new LinUcb.LinUCB.FromSaved(m.lin);
        var rows := model.Rank(x, mask, exclude, env.root);
        ranked := Some(rows);
      } else if m.Beta? {
        var model := new Thompson.ThompsonSampling.FromSaved(m.th);
        var rows := model.Rank(samples, mask, exclude);
        ranked := Some(rows);
      } else {
        var model := new Baseline.DeterministicBaseline(m.categories);
        ranked := model.Rank(client, segments, mask, exclude, env.parse);
      }
    }

    /** Unknown ids are ignored. */
    method Excluded(excludeIds: seq<string>) returns (exclude: seq<nat>)
      ensures exclude == ExcludedIndices(catalog, excludeIds)
    {
      exclude := [];
      for i := 0 to |excludeIds|
        invariant exclude == ExcludedIndices(catalog, excludeIds[..i])
      {
        assert excludeIds[..i + 1][..i] == excludeIds[..i];
        var index := IndexOf(catalog.offers, excludeIds[i]);
        if index.Some? {
          exclude := exclude + [index.value];
        }
      }
      assert excludeIds[..|excludeIds|] == excludeIds;
    }

    method RankStripped(m: ModelState, cb: ContextBuilder, c: Client, segments: seq<string>,
                        excludeIds: seq<string>, samples: seq<real>)
      returns (arms: Option<(seq<bool>, seq<RankedArm>)>)
      requires cb.Valid() && Fitting(m, |catalog.offers|, cb.Dim()) && |samples| == |catalog.offers|
      ensures arms == RankArms(catalog, cb, m, c, segments, excludeIds, samples, env)
    {
      var mask := EligibilityMask(catalog, c, env.parse);
      var exclude := Excluded(excludeIds);
      var x := Context.Build(cb, c, segments, env.parse);
      if mask == None || x == None {
        return None;
      }
      var ranked := RankOn(m, cb.Dim(), x.value, c, segments, mask.value, exclude, samples);
      return if ranked == None then None else Some((mask.value, ranked.value));
    }

    method Answer(pol: ResolvedPolicy, c: Client, segments: seq<string>, top: Option<int>,
                  mask: seq<bool>, ranked: seq<RankedArm>)
      returns (r: Result<RankResponse>)
      requires InCatalogue(catalog, ranked) && |mask| == |catalog.offers|
      ensures r == Respond(catalog, pol, c, segments, top, mask, ranked, env.parse)
    {
      var results: seq<RankedOffer> := [];
      for k := 0 to |ranked|
        invariant results == Offers(catalog, ranked[..k])
      {
        var ra := ranked[k];
        var o := catalog.offers[ra.arm];
        results := results + [RankedOffer(o.armId, k + 1, ra.score, ra.pred, ra.bonus, ra.reasons, o.category)];
        assert ranked[..k + 1][..k] == ranked[..k];
      }
      assert ranked[..|ranked|] == ranked;
      var income := ToFloat(GetOr(c, INCOME, Num(0.0)), env.parse);
      if income == None {
        return Err(PythonError);
      }
      var audit := Audit.Build(c, segments, catalog.ctxCols, IncomePercentile(catalog.incomes, income.value),
                               EligibleIds(catalog, mask), env.parse);
      if audit == None {
        return Err(PythonError);
      }
      return Ok(RankResponse(pol.algorithm, pol.policyId, Slice(results, top), audit.value));
    }

    /** The body that runs under the policy's lock. */
    method UpdateLocked(p: ResolvedPolicy, cb: ContextBuilder, arm: nat, reward: real, client: Client,
                        segments: seq<string>)
      returns (r: Result<string>)
      requires Valid() && cb == Builder() && cb.Valid() && arm < |catalog.offers|
      modifies store
      ensures Valid() && Builder() == old(Builder())
      ensures forall q :: q != p.policyId ==> store.State(q) == old(store.State(q))
      ensures
        match old(Loaded(p))
        case Err(e) => r == Err(e) && store.State(p.policyId) == None
        case Ok(m) =>
          match UpdateOutcome(cb, m, arm, reward, client, segments, env)
          case Ok(m') => r == Ok(p.policyId) && store.State(p.policyId) == Some(m')
          case Err(e) => r == Err(e) && store.State(p.policyId) == Some(m)
    {
      var loaded := LoadOrInit(p, cb.Dim());
      if loaded.Err? {
        return Err(loaded.error);
      }
      var model := loaded.value;
      var x := Context.Build(cb, client, segments, env.parse);
      if x == None {
        return Err(PythonError);
      }
      LearnFits(model, |catalog.offers|, cb.Dim(), Kernel.Update(arm, x.value, reward));
      var model' := LearnOn(model, Kernel.Update(arm, x.value, reward));
      store.SaveState(p.policyId, model');
      return Ok(p.policyId);
    }

    method Update(algorithm: Option<string>, armId: string, reward: real, client: Client, segments: seq<string>,
                  policy: Option<ResolvedPolicy>)
      returns (r: Result<string>)
      requires Valid()
      modifies this`builder, store
      ensures Valid() && Builder() == old(Builder())
      ensures
        var pol := PolicyOrAuto(policy, algorithm, defaultAlgorithm);
        match pol
        case Err(e) => r == Err(e) && forall q :: store.State(q) == old(store.State(q))
        case Ok(p) =>
          match IndexOf(catalog.offers, armId)
          case None => r == Err(NotFound("ARM_NOT_FOUND")) && forall q :: store.State(q) == old(store.State(q))
          case Some(j) =>
            && (forall q :: q != p.policyId ==> store.State(q) == old(store.State(q)))
            && match old(Loaded(p))
               case Err(e) => r == Err(e) && store.State(p.policyId) == None
               case Ok(m) =>
                 match UpdateOutcome(old(Builder()), m, j, reward, client, segments, env)
                 case Ok(m') => r == Ok(p.policyId) && store.State(p.policyId) == Some(m')
                 case Err(e) => r == Err(e) && store.State(p.policyId) == Some(m)
    {
      var pol := PolicyOrAuto(policy, algorithm, defaultAlgorithm);
      if pol.Err? {
        return Err(pol.error);
      }
      var p := pol.value;
      var index := IndexOf(catalog.offers, armId);
      if index == None {
        return Err(NotFound("ARM_NOT_FOUND"));
      }
      var cb := CtxBuilder();
      r := UpdateLocked(p, cb, index.value, reward, client, segments);
    }

    /** Everything after loading; the store is not used any more. */
    method RankLoaded(m: ModelState, cb: ContextBuilder, pol: ResolvedPolicy, client: Client, segments: seq<string>,
                      top: Option<int>, excludeIds: seq<string>, samples: seq<real>)
      returns (r: Result<RankResponse>)
      requires cb.Valid() && Fitting(m, |catalog.offers|, cb.Dim()) && |samples| == |catalog.offers|
      ensures r == RankOutcome(catalog, cb, m, pol, client, segments, top, excludeIds, samples, env)
    {
      var c := Audit.StripProtected(client);
      var arms := RankStripped(m, cb, c, segments, excludeIds, samples);
      if arms == None {
        return Err(PythonError);
      }
      r := Answer(pol, c, segments, top, arms.value.0, arms.value.1);
    }

    method Rank(algorithm: Option<string>, client: Client, segments: seq<string>, top: Option<int>,
                excludeIds: seq<string>, policy: Option<ResolvedPolicy>, samples: seq<real>)
      returns (r: Result<RankResponse>)
      requires Valid() && |samples| == |catalog.offers|
      modifies this`builder, store
      ensures Valid() && Builder() == old(Builder())
      ensures
        var pol := PolicyOrAuto(policy, algorithm, defaultAlgorithm);
        match pol
        case Err(e) => r == Err(e) && forall q :: store.State(q) == old(store.State(q))
        case Ok(p) =>
          && (forall q :: q != p.policyId ==> store.State(q) == old(store.State(q)))
          && match old(Loaded(p))
             case Err(e) => r == Err(e) && store.State(p.policyId) == None
             case Ok(m) =>
               && Usable(m, |catalog.offers|, old(Builder()).Dim()) && store.State(p.policyId) == Some(m)
               && r == RankOutcome(catalog, old(Builder()), m, p, client, segments, top, excludeIds, samples, env)
    {
      var pol := PolicyOrAuto(policy, algorithm, defaultAlgorithm);
      if pol.Err? {
        return Err(pol.error);
      }
      var p := pol.value;
      var cb := CtxBuilder();
      var loaded := LoadOrInit(p, cb.Dim());
      if loaded.Err? {
        return Err(loaded.error);
      }
      r := RankLoaded(loaded.value, cb, p, client, segments, top, excludeIds, samples);
    }

    /** The weights of a policy for the registry; like every unlocked reader it stores a missing one. */
    method SnapshotState(algorithm: Option<string>, policy: Option<ResolvedPolicy>) returns (r: Result<ModelState>)
      requires Valid()
      modifies this`builder, store
      ensures Valid() && Builder() == old(Builder())
      ensures
        match PolicyOrAuto(policy, algorithm, defaultAlgorithm)
        case Err(e) => r == Err(e) && forall q :: store.State(q) == old(store.State(q))
        case Ok(p) =>
          && r == old(Loaded(p)) && store.State(p.policyId) == (if r.Ok? then Some(r.value) else None)
          && forall q :: q != p.policyId ==> store.State(q) == old(store.State(q))
    {
      var pol := PolicyOrAuto(policy, algorithm, defaultAlgorithm);
      if pol.Err? {
        return Err(pol.error);
      }
      var cb := CtxBuilder();
      r := LoadOrInit(pol.value, cb.Dim());
    }

    method Reset(algorithm: Option<string>, policy: Option<ResolvedPolicy>) returns (r: Result<()>)
      requires Valid()
      modifies store
      ensures Valid() && Builder() == old(Builder())
      ensures
        match PolicyOrAuto(policy, algorithm, defaultAlgorithm)
        case Err(e) => r == Err(e) && forall q :: store.State(q) == old(store.State(q))
        case Ok(p) => r == Ok(()) && store.State(p.policyId) == None
                      && forall q :: q != p.policyId ==> store.State(q) == old(store.State(q))
    {
      var pol := PolicyOrAuto(policy, algorithm, defaultAlgorithm);
      if pol.Err? {
        return Err(pol.error);
      }
      store.DeleteState(pol.value.policyId);
      return Ok(());
    }
  }
}
