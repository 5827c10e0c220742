/** The three models behind one interface (models/__init__.py) and their saved states. */
module Models {
  import opened Wrappers
  import opened Clients
  import opened LinearAlgebra
  import opened Ranking
  import opened Kernel
  import opened Catalog
  import opened Context
  import opened Policies
  import LinUcb
  import Thompson
  import Baseline

  /** `state["name"]` is the constructor. */
  datatype ModelState =
    | Linear(lin: LinUcb.LinUcbState)
    | Beta(th: Thompson.ThompsonState)
    | Rules(categories: seq<string>)

  const SCALE := 0.2
  const LAMBDA := 1.0

  function NameOf(m: ModelState): string {
    match m
    case Linear(_) => "linucb"
    case Beta(_) => "thompson"
    case Rules(_) => "baseline"
  }

  function FreshModel(algorithm: string, cat: Catalog, dim: nat): ModelState
    requires algorithm in ALGORITHMS
  {
    if algorithm == "linucb" then Linear(LinUcb.Fresh(cat.Exploration(), dim, SCALE, LAMBDA))
    else if algorithm == "thompson" then Beta(Thompson.Fresh(cat.NArms()))
    else Rules(cat.Categories())
  }

  /** The shape a state needs to rank n arms in d dimensions. */
  predicate Usable(m: ModelState, n: nat, d: nat) {
    match m
    case Linear(s) => LinUcb.Shaped(s) && s.nArms == n && s.d == d
    case Beta(s) => Thompson.Shaped(s) && s.nArms == n
    case Rules(categories) => |categories| == n
  }

  /** A usable state that came from training and can be reloaded. */
  ghost predicate Fitting(m: ModelState, n: nat, d: nat) {
    Usable(m, n, d) && (m.Linear? ==> m.lin.scale != 0.0 && exists hist :: Represents(m.lin, hist))
  }

  /** `update`; the baseline does not learn. */
  function Learn(m: ModelState, u: Update): ModelState {
    match m
    case Linear(s) => if LinUcb.Shaped(s) then Linear(Kernel.ApplyUpdate(s, u)) else m
    case Beta(s) => if Thompson.Shaped(s) then Beta(Thompson.ApplyUpdate(s, u)) else m
    case Rules(_) => m
  }

  function LearnAll(m: ModelState, us: seq<Update>): ModelState {
    if us == [] then m else Learn(LearnAll(m, us[..|us| - 1]), us[|us| - 1])
  }

  /** model_from_state(state).get_state() */
  function Reload(m: ModelState): Option<ModelState> {
    match m
    case Linear(s) => (match LinUcb.FromState(s) case Some(t) => Some(Linear(t)) case None => None)
    case _ => Some(m)
  }

  lemma FreshFits(algorithm: string, cat: Catalog, dim: nat)
    requires algorithm in ALGORITHMS
    ensures Fitting(FreshModel(algorithm, cat, dim), cat.NArms(), dim)
    ensures NameOf(FreshModel(algorithm, cat, dim)) == algorithm
  {
    FreshRepresents(cat.Exploration(), dim, SCALE, LAMBDA);
  }

  /** Learning keeps a state usable, and on a LinUCB state never meets a zero divisor. */
  lemma LearnFits(m: ModelState, n: nat, d: nat, u: Update)
    requires Fitting(m, n, d) && Fits(n, d, u)
    ensures Fitting(Learn(m, u), n, d) && NameOf(Learn(m, u)) == NameOf(m)
    ensures m.Linear? ==> LinUcb.Divisor(m.lin, u.arm, u.x) >= 1.0
  {
    if m.Linear? {
      var hist :| Represents(m.lin, hist);
      AppliedRepresents(m.lin, hist, u.arm, u.x, u.r);
    }
  }

  /** Trained states survive a save and reload unchanged. */
  lemma ReloadFits(m: ModelState, n: nat, d: nat)
    requires Fitting(m, n, d)
    ensures Reload(m) == Some(m)
  {
    if m.Linear? {
      LinUcb.StateRoundTrip(m.lin);
    }
  }

  /** Learning moves nothing but the updated arm's parameters. */
  ghost predicate SameExceptArm(m: ModelState, m': ModelState, j: nat) {
    match (m, m')
    case (Linear(s), Linear(t)) =>
      && t == s.(AInv := t.AInv, b := t.b) && |t.AInv| == |s.AInv| && |t.b| == |s.b|
      && (forall i :: 0 <= i < |s.AInv| && i != j ==> t.AInv[i] == s.AInv[i])
      && (forall i :: 0 <= i < |s.b| && i != j ==> t.b[i] == s.b[i])
    case (Beta(s), Beta(t)) =>
      && t.nArms == s.nArms && |t.alpha| == |s.alpha| && |t.beta| == |s.beta|
      && (forall i :: 0 <= i < |s.alpha| && i != j ==> t.alpha[i] == s.alpha[i])
      && (forall i :: 0 <= i < |s.beta| && i != j ==> t.beta[i] == s.beta[i])
    case (Rules(c), Rules(c')) => c == c'
    case _ => false
  }

  /** What one event teaches arm j: a click adds the context to LinUCB's reward sum or one to Thompson's
      alpha, a miss leaves the sum or adds one to beta. The baseline learns nothing. */
  ghost predicate Taught(before: ModelState, after: ModelState, j: nat, x: Vec, clicked: bool) {
    match (before, after)
    case (Linear(s), Linear(t)) =>
      && j < |s.b| == |t.b| && |t.b[j]| == |s.b[j]| == |x|
      && forall k :: 0 <= k < |x| ==> t.b[j][k] == s.b[j][k] + if clicked then x[k] else 0.0
    case (Beta(s), Beta(t)) =>
      && j < |s.alpha| == |t.alpha| && j < |s.beta| == |t.beta|
      && t.alpha[j] == s.alpha[j] + (if clicked then 1.0 else 0.0)
      && t.beta[j] == s.beta[j] + (if clicked then 0.0 else 1.0)
    case (Rules(c), Rules(c')) => c' == c
    case _ => false
  }

  lemma LearnTeaches(m: ModelState, n: nat, d: nat, u: Update)
    requires Fitting(m, n, d) && Fits(n, d, u) && (u.r == 0.0 || u.r == 1.0)
    ensures Taught(m, Learn(m, u), u.arm, u.x, u.r == 1.0)
  {
    LearnFits(m, n, d, u);
    if m.Linear? {
      var b, t := m.lin.b[u.arm], Learn(m, u).lin.b[u.arm];
      assert t == Axpy(u.r, u.x, b);
      forall k | 0 <= k < |u.x| ensures t[k] == b[k] + if u.r == 1.0 then u.x[k] else 0.0 {
        assert t[k] == b[k] + Times(u.r, u.x[k]);
      }
    }
  }

  lemma LearnTouchesOneArm(m: ModelState, u: Update)
    ensures SameExceptArm(m, Learn(m, u), u.arm)
  {
  }

  // ---------------------------------------------------------------- ranking

  /** `root` is the square root and `parse` is float() on texts. */
  datatype Env = Env(root: real -> real, parse: Parser)

  /** The rows a model would produce; `target` is the baseline's category. */
  function RowOf(m: ModelState, n: nat, d: nat, x: Vec, target: string, samples: seq<real>, env: Env): nat -> RankedArm
    requires Usable(m, n, d) && |x| == d && |samples| == n
  {
    match m
    case Linear(s) => LinUcb.Row(s, x, env.root)
    case Beta(s) => Thompson.Row(s, samples)
    case Rules(categories) => Baseline.Row(categories, target)
  }

  /** model.rank(ctx, mask, exclude); `None` when the baseline cannot read the income. */
  function RankModel(m: ModelState, n: nat, d: nat, x: Vec, client: Client, segments: seq<string>,
                     mask: seq<bool>, exclude: seq<nat>, samples: seq<real>, env: Env): Option<seq<RankedArm>>
    requires Usable(m, n, d) && |x| == d && |samples| == n
  {
    match m
    case Linear(s) => Some(LinUcb.Ranked(s, x, mask, exclude, env.root))
    case Beta(s) => Some(Thompson.Ranked(s, samples, mask, exclude))
    case Rules(categories) =>
      match Baseline.TargetCategory(client, segments, env.parse)
      case Some(target) => Some(Baseline.Ranked(categories, target, mask, exclude))
      case None => None
  }

  function TargetOr(client: Client, segments: seq<string>, env: Env): string {
    match Baseline.TargetCategory(client, segments, env.parse)
    case Some(target) => target
    case None => ""
  }

  /** All three models return each eligible, non-excluded arm exactly once, with scores that
      never increase and ties in catalogue order. */
  lemma RankModelContract(m: ModelState, n: nat, d: nat, x: Vec, client: Client, segments: seq<string>,
                          mask: seq<bool>, exclude: seq<nat>, samples: seq<real>, env: Env)
    requires Usable(m, n, d) && |x| == d && |samples| == n
    requires RankModel(m, n, d, x, client, segments, mask, exclude, samples, env).Some?
    ensures Contract(RankModel(m, n, d, x, client, segments, mask, exclude, samples, env).value,
                     n, mask, exclude, RowOf(m, n, d, x, TargetOr(client, segments, env), samples, env))
  {
    var row := RowOf(m, n, d, x, TargetOr(client, segments, env), samples, env);
    match m
    case Linear(s) => SortedRowsContract(ByScore, n, mask, exclude, row);
    case Beta(s) => SortedRowsContract(ByScore, n, mask, exclude, row);
    case Rules(categories) => SortedRowsContract(ByScoreThenArm, n, mask, exclude, row);
  }

  // ---------------------------------------------------------------- saving is invisible

  /** A reward as it reaches the service. */
  datatype Feedback = Feedback(arm: nat, r: real, client: Client, segments: seq<string>)

  /** In memory: build the context, learn; a context that cannot be built changes nothing. */
  function MemoryRun(m: ModelState, cb: ContextBuilder, fs: seq<Feedback>, env: Env): ModelState
    requires cb.Valid()
  {
    if fs == [] then m
    else
      var prior, f := MemoryRun(m, cb, fs[..|fs| - 1], env), fs[|fs| - 1];
      match Context.Build(cb, f.client, f.segments, env.parse)
      case Some(x) => Learn(prior, Update(f.arm, x, f.r))
      case None => prior
  }

  /** The same run with model and context builder saved and reloaded before every step. */
  function SavedRun(m: ModelState, cb: ContextBuilder, fs: seq<Feedback>, env: Env): Option<ModelState>
    requires cb.Valid()
  {
    if fs == [] then Some(m)
    else
      match SavedRun(m, cb, fs[..|fs| - 1], env)
      case None => None
      case Some(saved) =>
        match Reload(saved)
        case None => None
        case Some(prior) =>
          var f, reloaded := fs[|fs| - 1], Context.FromState(cb.ToState());
          match Context.Build(reloaded, f.client, f.segments, env.parse)
          case Some(x) => Some(Learn(prior, Update(f.arm, x, f.r)))
          case None => Some(prior)
  }

  /** Saving and reloading between any two steps is invisible. */
  lemma {:induction false} SavingIsInvisible(m: ModelState, n: nat, cb: ContextBuilder, fs: seq<Feedback>, env: Env)
    requires cb.Valid() && Fitting(m, n, cb.Dim())
    requires forall f :: f in fs ==> f.arm < n
    ensures SavedRun(m, cb, fs, env) == Some(MemoryRun(m, cb, fs, env))
    ensures Fitting(MemoryRun(m, cb, fs, env), n, cb.Dim())
  {
    if fs != [] {
      var f := fs[|fs| - 1];
      assert f in fs;
      SavingIsInvisible(m, n, cb, fs[..|fs| - 1], env);
      var prior := MemoryRun(m, cb, fs[..|fs| - 1], env);
      ReloadFits(prior, n, cb.Dim());
      ContextRoundTrip(cb);
      match Context.Build(cb, f.client, f.segments, env.parse)
      case None =>
      case Some(x) => LearnFits(prior, n, cb.Dim(), Update(f.arm, x, f.r));
    }
  }
}
