/** When a ranking raises: on real client rows, exactly for a null income. */
module Raising {
  import opened Wrappers
  import opened Clients
  import opened Catalog
  import opened Context
  import opened Models
  import opened Policies
  import opened Service
  import Audit
  import Baseline
  import Ranking

  /** A number, or something that is read as zero: a null, an empty text or list. */
  predicate Numbered(v: Value) {
    v.Num? || !Truthy(v)
  }

  /** A filter that compares with `<` or `>`. */
  predicate Bound(key: string) {
    EndsWith(key, "_percentil_min") || EndsWith(key, "_min") || EndsWith(key, "_max")
  }

  /** The bounds of the catalogue's filters are numbers. */
  predicate NumericBounds(cat: Catalog) {
    forall j :: 0 <= j < |cat.offers| ==> NumericFilters(cat.offers[j].filters)
  }

  predicate NumericFilters(filters: Filters) {
    forall i :: 0 <= i < |filters| ==> Bound(filters[i].0) ==> filters[i].1.Num?
  }

  /** The fields these filters compare are read as numbers. */
  predicate Comparable(c: Client, filters: Filters) {
    forall i :: 0 <= i < |filters| ==>
      Bound(filters[i].0) && FieldOf(filters[i].0) in c ==> Numbered(c[FieldOf(filters[i].0)])
  }

  /** A client whose filters can be compared and whose segments are a list or null. Its income,
      its context columns and all other fields may hold anything. */
  predicate Rankable(cat: Catalog, c: Client) {
    && (forall j :: 0 <= j < |cat.offers| ==> Comparable(c, cat.offers[j].filters))
    && (INCOME_PERCENTILE in c ==> c[INCOME_PERCENTILE].Num?)
    && (SEGMENTS in c ==> c[SEGMENTS].Items? || c[SEGMENTS].Null?)
  }

  /** A percentile has to be looked up for the client's income. */
  predicate NeedsPercentile(cat: Catalog, c: Client) {
    INCOME in c && INCOME_PERCENTILE !in c && cat.incomes.Some? && cat.incomes.value != []
  }

  /** `float(client.get(k) or 0.0)` fails. */
  predicate BadNumber(c: Client, k: string, parse: Parser) {
    ToFloat(GetOr(c, k, Num(0.0)), parse) == None
  }

  /** The fatal cases: an income that `float()` refuses, even a null or an empty one, where a
      percentile is needed; and text that is not a number in the income or a context column. */
  predicate Unreadable(cat: Catalog, ctxCols: seq<string>, c: Client, parse: Parser) {
    || (NeedsPercentile(cat, c) && ToFloat(c[INCOME], parse) == None)
    || BadNumber(c, INCOME, parse)
    || exists i :: 0 <= i < |ctxCols| && BadNumber(c, ctxCols[i], parse)
  }

  /** A client row as the database projects it: what the engine reads as a number is a number
      or null, the segments are a list or null. */
  predicate DatabaseRow(cat: Catalog, ctxCols: seq<string>, c: Client) {
    && Rankable(cat, c)
    && (forall k :: k in ctxCols && k in c ==> c[k].Num? || c[k].Null?)
    && (INCOME in c ==> c[INCOME].Num? || c[INCOME].Null?)
  }

  predicate NullIncome(cat: Catalog, c: Client) {
    NeedsPercentile(cat, c) && c[INCOME] == Null
  }

  // ---------------------------------------------------------------- eligibility

  lemma ComparablePasses(c: Client, key: string, val: Value)
    requires Bound(key) ==> val.Num?
    requires Bound(key) && FieldOf(key) in c ==> Numbered(c[FieldOf(key)])
    requires INCOME_PERCENTILE in c ==> c[INCOME_PERCENTILE].Num?
    ensures Passes(c, key, val).Some?
  {
    LastOfSuffix(key, "_atual");
    LastOfSuffix(key, "_min");
    LastOfSuffix(key, "_percentil_min");
  }

  lemma {:induction false} ComparableEligible(c: Client, filters: Filters)
    requires NumericFilters(filters) && Comparable(c, filters)
    requires INCOME_PERCENTILE in c ==> c[INCOME_PERCENTILE].Num?
    ensures IsEligible(c, filters).Some?
  {
    if filters != [] {
      ComparablePasses(c, filters[0].0, filters[0].1);
      forall i | 0 <= i < |filters[1..]|
        ensures Bound(filters[1..][i].0) ==> filters[1..][i].1.Num?
        ensures Bound(filters[1..][i].0) && FieldOf(filters[1..][i].0) in c ==> Numbered(c[FieldOf(filters[1..][i].0)])
      {
        assert filters[1..][i] == filters[i + 1];
      }
      ComparableEligible(c, filters[1..]);
    }
  }

  lemma ComparableMask(c: Client, offers: seq<Offer>)
    requires forall j :: 0 <= j < |offers| ==> NumericFilters(offers[j].filters) && Comparable(c, offers[j].filters)
    requires INCOME_PERCENTILE in c ==> c[INCOME_PERCENTILE].Num?
    ensures MaskOf(c, offers).Some?
  {
    forall j | 0 <= j < |offers| ensures IsEligible(c, offers[j].filters).Some? {
      ComparableEligible(c, offers[j].filters);
    }
  }

  lemma EnrichedComparable(c: Client, p: real, filters: Filters)
    requires Comparable(c, filters)
    ensures Comparable(c[INCOME_PERCENTILE := Num(p)], filters)
  {
  }

  /** The mask cannot be computed exactly when a percentile is needed and the income is refused. */
  lemma MaskRaisesExactly(cat: Catalog, c: Client, parse: Parser)
    requires NumericBounds(cat) && Rankable(cat, c)
    ensures EligibilityMask(cat, c, parse) == None <==> NeedsPercentile(cat, c) && ToFloat(c[INCOME], parse) == None
  {
    var enriched := Enrich(cat.incomes, c, parse);
    if enriched.Some? {
      forall j | 0 <= j < |cat.offers| ensures Comparable(enriched.value, cat.offers[j].filters) {
        if INCOME_PERCENTILE in enriched.value && INCOME_PERCENTILE !in c {
          EnrichedComparable(c, enriched.value[INCOME_PERCENTILE].n, cat.offers[j].filters);
        }
      }
      ComparableMask(enriched.value, cat.offers);
    }
  }

  // ---------------------------------------------------------------- context, target and audit

  lemma {:induction false} NumbersRaiseExactly(cols: seq<string>, mu: seq<real>, sd: seq<real>, c: Client,
                                               parse: Parser)
    requires |mu| == |sd| == |cols| && forall i :: 0 <= i < |sd| ==> sd[i] != 0.0
    ensures Numbers(cols, mu, sd, c, parse) == None <==> exists i :: 0 <= i < |cols| && BadNumber(c, cols[i], parse)
  {
    if cols != [] {
      NumbersRaiseExactly(cols[1..], mu[1..], sd[1..], c, parse);
      if i :| 0 <= i < |cols[1..]| && BadNumber(c, cols[1..][i], parse) {
        assert cols[i + 1] == cols[1..][i];
      }
      if i :| 0 <= i < |cols| && BadNumber(c, cols[i], parse) {
        assert i > 0 ==> cols[1..][i - 1] == cols[i];
      }
    }
  }

  lemma TargetNeedsIncome(c: Client, segments: seq<string>, parse: Parser)
    ensures Baseline.TargetCategory(c, segments, parse) == None <==> BadNumber(c, INCOME, parse)
  {
  }

  lemma ArmsRaise(cat: Catalog, cb: ContextBuilder, m: ModelState, c: Client, segments: seq<string>,
                  excludeIds: seq<string>, samples: seq<real>, env: Env)
    requires cb.Valid() && Usable(m, |cat.offers|, cb.Dim()) && |samples| == |cat.offers|
    ensures
      var arms := RankArms(cat, cb, m, c, segments, excludeIds, samples, env);
      var mask, numbers := EligibilityMask(cat, c, env.parse), Numbers(cb.ctxCols, cb.mu, cb.sd, c, env.parse);
      && (mask == None || numbers == None ==> arms == None)
      && (arms == None ==>
            mask == None || numbers == None || Baseline.TargetCategory(c, segments, env.parse) == None)
  {
  }

  lemma RespondsExactly(cat: Catalog, pol: ResolvedPolicy, c: Client, segments: seq<string>, top: Option<int>,
                        mask: seq<bool>, ranked: seq<Ranking.RankedArm>, parse: Parser)
    requires InCatalogue(cat, ranked) && |mask| == |cat.offers|
    requires SEGMENTS in c ==> c[SEGMENTS].Items? || c[SEGMENTS].Null?
    ensures Respond(cat, pol, c, segments, top, mask, ranked, parse).Err? <==> BadNumber(c, INCOME, parse)
  {
  }

  /** For every model, weights, draws, policy and cut, a ranking raises exactly when the income or
      a context column of the stripped client is unreadable. */
  lemma RankingRaisesExactly(cat: Catalog, cb: ContextBuilder, m: ModelState, pol: ResolvedPolicy,
                             client: Client, segments: seq<string>, top: Option<int>, excludeIds: seq<string>,
                             samples: seq<real>, env: Env)
    requires cb.Valid() && Usable(m, |cat.offers|, cb.Dim()) && |samples| == |cat.offers|
    requires NumericBounds(cat) && Rankable(cat, Audit.StripProtected(client))
    ensures RankOutcome(cat, cb, m, pol, client, segments, top, excludeIds, samples, env).Err?
       <==> Unreadable(cat, cb.ctxCols, Audit.StripProtected(client), env.parse)
  {
    var c := Audit.StripProtected(client);
    MaskRaisesExactly(cat, c, env.parse);
    NumbersRaiseExactly(cb.ctxCols, cb.mu, cb.sd, c, env.parse);
    TargetNeedsIncome(c, segments, env.parse);
    ArmsRaise(cat, cb, m, c, segments, excludeIds, samples, env);
    var arms := RankArms(cat, cb, m, c, segments, excludeIds, samples, env);
    if arms.Some? {
      RespondsExactly(cat, pol, c, segments, top, arms.value.0, arms.value.1, env.parse);
    }
  }

  lemma RowUnreadable(cat: Catalog, ctxCols: seq<string>, client: Client, parse: Parser)
    requires DatabaseRow(cat, ctxCols, Audit.StripProtected(client))
    ensures Unreadable(cat, ctxCols, Audit.StripProtected(client), parse) <==> NullIncome(cat, client)
  {
    var c := Audit.StripProtected(client);
    assert INCOME !in Audit.PROTECTED_ATTRIBUTES && INCOME_PERCENTILE !in Audit.PROTECTED_ATTRIBUTES;
    assert NullIncome(cat, client) <==> NullIncome(cat, c);
    forall i | 0 <= i < |ctxCols| ensures !BadNumber(c, ctxCols[i], parse) {
      assert ctxCols[i] in ctxCols;
    }
  }

  /** On client rows as the database projects them the one fatal case is a null income that needs
      a percentile. A missing income, and a null in any other column, are read as zero. */
  lemma RowRaisesExactly(cat: Catalog, cb: ContextBuilder, m: ModelState, pol: ResolvedPolicy,
                         client: Client, segments: seq<string>, top: Option<int>, excludeIds: seq<string>,
                         samples: seq<real>, env: Env)
    requires cb.Valid() && Usable(m, |cat.offers|, cb.Dim()) && |samples| == |cat.offers|
    requires NumericBounds(cat) && DatabaseRow(cat, cb.ctxCols, Audit.StripProtected(client))
    ensures RankOutcome(cat, cb, m, pol, client, segments, top, excludeIds, samples, env).Err?
       <==> NullIncome(cat, client)
  {
    RankingRaisesExactly(cat, cb, m, pol, client, segments, top, excludeIds, samples, env);
    RowUnreadable(cat, cb.ctxCols, client, env.parse);
  }

  /** The witness: with client incomes loaded, a row whose income is null cannot be ranked by
      any model, while the same row without the field can. */
  lemma NullIncomeRefused(cat: Catalog, cb: ContextBuilder, m: ModelState, pol: ResolvedPolicy, samples: seq<real>,
                          env: Env)
    returns (client: Client)
    requires cb.Valid() && Usable(m, |cat.offers|, cb.Dim()) && |samples| == |cat.offers| && NumericBounds(cat)
    requires cat.incomes.Some? && cat.incomes.value != []
    ensures client == map[INCOME := Null]
    ensures RankOutcome(cat, cb, m, pol, client, [], None, [], samples, env) == Err(PythonError)
    ensures RankOutcome(cat, cb, m, pol, client - {INCOME}, [], None, [], samples, env).Ok?
  {
    client := map[INCOME := Null];
    RowRaisesExactly(cat, cb, m, pol, client, [], None, [], samples, env);
    RowRaisesExactly(cat, cb, m, pol, client - {INCOME}, [], None, [], samples, env);
  }

  /** What is read as zero where a number is wanted: a missing field, null, zero, an empty text or list. */
  lemma ReadAsZero(c: Client, k: string, parse: Parser)
    requires k in c ==> c[k] in {Null, Num(0.0), Text(""), Items([])}
    ensures ToFloat(GetOr(c, k, Num(0.0)), parse) == Some(0.0)
  {
  }
}
