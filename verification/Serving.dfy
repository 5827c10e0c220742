/** What a served ranking contains, stated on arm ids. */
module Serving {
  import opened Wrappers
  import opened Clients
  import opened Ranking
  import opened Catalog
  import opened Context
  import opened Models
  import opened Policies
  import opened Service
  import Audit
  import Sorting

  lemma {:induction false} IndexOfDistinct(offers: seq<Offer>, j: nat)
    requires j < |offers|
    requires forall i, k :: 0 <= i < k < |offers| ==> offers[i].armId != offers[k].armId
    ensures IndexOf(offers, offers[j].armId) == Some(j)
  {
    if j != |offers| - 1 {
      IndexOfDistinct(offers[..|offers| - 1], j);
    }
  }

  lemma {:induction false} ExcludedMembers(cat: Catalog, ids: seq<string>, j: nat)
    requires cat.DistinctArms() && j < |cat.offers|
    ensures j in ExcludedIndices(cat, ids) <==> cat.offers[j].armId in ids
  {
    if ids != [] {
      var k := |ids| - 1;
      ExcludedMembers(cat, ids[..k], j);
      IndexOfDistinct(cat.offers, j);
      assert ids == ids[..k] + [ids[k]];
      assert cat.offers[j].armId in ids <==> cat.offers[j].armId in ids[..k] || cat.offers[j].armId == ids[k];
    }
  }

  lemma {:induction false} EligibleMembers(cat: Catalog, mask: seq<bool>, id: string)
    requires |mask| <= |cat.offers|
    ensures id in EligibleIds(cat, mask) <==> exists j :: 0 <= j < |mask| && mask[j] && cat.offers[j].armId == id
  {
    if mask != [] {
      var k := |mask| - 1;
      EligibleMembers(cat, mask[..k], id);
      if j :| 0 <= j < |mask| && mask[j] && cat.offers[j].armId == id {
        if j < k { assert mask[..k][j]; }
      }
      if j :| 0 <= j < k && mask[..k][j] && cat.offers[j].armId == id {
        assert mask[j];
      }
    }
  }

  predicate Lists(offers: seq<RankedOffer>, id: string) {
    exists i :: 0 <= i < |offers| && offers[i].armId == id
  }

  /** From arms to ids: a ranking that keeps its contract lists arm j exactly when j is kept. */
  lemma ContractLists(cat: Catalog, ranked: seq<RankedArm>, mask: seq<bool>, exclude: seq<nat>, row: nat -> RankedArm,
                      j: nat)
    requires cat.DistinctArms() && j < |cat.offers| == |mask| && Contract(ranked, |cat.offers|, mask, exclude, row)
    requires row(j).arm == j && InCatalogue(cat, ranked)
    ensures Lists(Offers(cat, ranked), cat.offers[j].armId) <==> Kept(j, mask, exclude)
  {
    var offers := Offers(cat, ranked);
    if Kept(j, mask, exclude) {
      assert row(j) in ranked;
      var i :| 0 <= i < |ranked| && ranked[i] == row(j);
      assert offers[i].armId == cat.offers[j].armId;
    }
    if Lists(offers, cat.offers[j].armId) {
      var i :| 0 <= i < |offers| && offers[i].armId == cat.offers[j].armId;
      assert ranked[i] in ranked;
      assert ranked[i].arm == j;
    }
  }

  lemma ContractOrders(cat: Catalog, ranked: seq<RankedArm>, mask: seq<bool>, exclude: seq<nat>, row: nat -> RankedArm)
    requires cat.DistinctArms() && |cat.offers| == |mask| && Contract(ranked, |cat.offers|, mask, exclude, row)
    requires InCatalogue(cat, ranked)
    ensures
      var offers := Offers(cat, ranked);
      forall i, k :: 0 <= i < k < |offers| ==> offers[i].armId != offers[k].armId && offers[i].score >= offers[k].score
  {
    var offers := Offers(cat, ranked);
    forall i, k | 0 <= i < k < |offers|
      ensures offers[i].armId != offers[k].armId && offers[i].score >= offers[k].score
    {
      assert Precedes(ranked[i], ranked[k]) && ranked[i].arm != ranked[k].arm;
    }
  }

  /** For all three models: the full ranking lists arm j exactly when it is eligible and not
      excluded, lists no arm twice, and its scores never increase. */
  lemma RankingListsExactly(cat: Catalog, cb: ContextBuilder, m: ModelState, c: Client, segments: seq<string>,
                            excludeIds: seq<string>, samples: seq<real>, env: Env)
    requires cb.Valid() && Usable(m, |cat.offers|, cb.Dim()) && |samples| == |cat.offers| && cat.DistinctArms()
    requires RankArms(cat, cb, m, c, segments, excludeIds, samples, env).Some?
    ensures
      var arms := RankArms(cat, cb, m, c, segments, excludeIds, samples, env).value;
      var offers := Offers(cat, arms.1);
      && (forall j :: 0 <= j < |cat.offers| ==>
            (Lists(offers, cat.offers[j].armId) <==> arms.0[j] && cat.offers[j].armId !in excludeIds))
      && (forall i, k :: 0 <= i < k < |offers| ==>
          offers[i].armId != offers[k].armId && offers[i].score >= offers[k].score)
  {
    var arms := RankArms(cat, cb, m, c, segments, excludeIds, samples, env).value;
    var mask, ranked, offers := arms.0, arms.1, Offers(cat, arms.1);
    var x := Context.Build(cb, c, segments, env.parse).value;
    var exclude := ExcludedIndices(cat, excludeIds);
    var row := RowOf(m, |cat.offers|, cb.Dim(), x, TargetOr(c, segments, env), samples, env);
    RankModelContract(m, |cat.offers|, cb.Dim(), x, c, segments, mask, exclude, samples, env);
    forall j | 0 <= j < |cat.offers|
      ensures Lists(offers, cat.offers[j].armId) <==> mask[j] && cat.offers[j].armId !in excludeIds
    {
      ExcludedMembers(cat, excludeIds, j);
      ContractLists(cat, ranked, mask, exclude, row, j);
    }
    ContractOrders(cat, ranked, mask, exclude, row);
  }

  /** `top` only ever cuts a prefix, of this length; a negative one counts from the end. */
  lemma TopIsPrefix<T>(s: seq<T>, top: Option<int>)
    ensures Slice(s, top) <= s
    ensures top == None ==> Slice(s, top) == s
    ensures top.Some? && top.value >= 0 ==> |Slice(s, top)| == if top.value < |s| then top.value else |s|
    ensures top.Some? && top.value < 0 ==> |Slice(s, top)| == if -top.value < |s| then |s| + top.value else 0
  {
  }

  /** Which policy a call runs under: the one it was resolved to; without one, the implicit policy of
      the algorithm that was asked for, and of the default one only if none was asked for. */
  lemma PolicyExactly(policy: Option<ResolvedPolicy>, algorithm: Option<string>, default: string)
    ensures policy.Some? ==>
              PolicyOrAuto(policy, algorithm, default)
              == if policy.value.algorithm in {"linucb", "thompson", "baseline"}
                    || (policy.value.algorithm == "" && default in {"linucb", "thompson", "baseline"})
                 then Ok(policy.value) else Err(BadRequest("INVALID_ALGORITHM"))
    ensures policy == None ==>
              var asked := if algorithm in {None, Some("")} then default else algorithm.value;
              PolicyOrAuto(policy, algorithm, default)
              == if asked in {"linucb", "thompson", "baseline"}
                 then Ok(ResolvedPolicy("auto-" + asked, asked, false)) else Err(BadRequest("INVALID_ALGORITHM"))
  {
    assert ALGORITHMS[0] == "linucb" && ALGORITHMS[1] == "thompson" && ALGORITHMS[2] == "baseline";
  }

  /** What an answer records besides the ranking: the policy, for every context column the number the
      client has in it (0 for what is no number), the percentile of its income (0 for a missing one),
      and the two lists of attributes. */
  lemma AnswerRecords(cat: Catalog, cb: ContextBuilder, m: ModelState, pol: ResolvedPolicy, client: Client,
                      segments: seq<string>, top: Option<int>, excludeIds: seq<string>, samples: seq<real>, env: Env)
    requires cb.Valid() && Usable(m, |cat.offers|, cb.Dim()) && |samples| == |cat.offers|
    requires RankOutcome(cat, cb, m, pol, client, segments, top, excludeIds, samples, env).Ok?
    ensures
      var response := RankOutcome(cat, cb, m, pol, client, segments, top, excludeIds, samples, env).value;
      var c := client - {"sexo"};
      && response.algorithm == pol.algorithm && response.policyId == pol.policyId
      && (forall k :: k in response.audit.features <==> k in cat.ctxCols)
      && (forall k :: k in cat.ctxCols && k in c && c[k].Num? ==> response.audit.features[k] == c[k].n)
      && (forall k :: k in cat.ctxCols && (k !in c || c[k].Null? || c[k].Items?) ==> response.audit.features[k] == 0.0)
      && (INCOME in c && c[INCOME].Num? ==>
            response.audit.incomePercentile == IncomePercentile(cat.incomes, c[INCOME].n))
      && (INCOME !in c ==> response.audit.incomePercentile == IncomePercentile(cat.incomes, 0.0))
      && response.audit.excluded == ["sexo"] && response.audit.monitored == ["renda_estimada_anual_brl"]
  {
    var c := Audit.StripProtected(client);
    assert c == client - {"sexo"};
    IncomeRecorded(cat.incomes, c, env.parse);
    var mask := RankArms(cat, cb, m, c, segments, excludeIds, samples, env).value.0;
    var income := ToFloat(GetOr(c, INCOME, Num(0.0)), env.parse).value;
    Audit.BlockRecords(c, segments, cat.ctxCols, IncomePercentile(cat.incomes, income), EligibleIds(cat, mask),
                       env.parse);
  }

  lemma IncomeRecorded(incomes: Option<seq<real>>, c: Client, parse: Parser)
    ensures INCOME in c && c[INCOME].Num? ==> ToFloat(GetOr(c, INCOME, Num(0.0)), parse) == Some(c[INCOME].n)
    ensures INCOME !in c ==> ToFloat(GetOr(c, INCOME, Num(0.0)), parse) == Some(0.0)
  {
  }

  /** Two answers for the same client and segments carry the same audit block, whatever the
      `top`, the exclusions, the policy, its weights or the draws; its eligible set holds an
      arm id exactly when the mask lets that arm through. */
  lemma AuditIndependent(cat: Catalog, cb: ContextBuilder, m1: ModelState, m2: ModelState, pol1: ResolvedPolicy,
                         pol2: ResolvedPolicy, client: Client, segments: seq<string>, top1: Option<int>,
                         top2: Option<int>, ex1: seq<string>, ex2: seq<string>, samples1: seq<real>,
                         samples2: seq<real>, env: Env, id: string)
    requires cb.Valid() && Usable(m1, |cat.offers|, cb.Dim()) && Usable(m2, |cat.offers|, cb.Dim())
    requires |samples1| == |samples2| == |cat.offers|
    requires RankOutcome(cat, cb, m1, pol1, client, segments, top1, ex1, samples1, env).Ok?
    requires RankOutcome(cat, cb, m2, pol2, client, segments, top2, ex2, samples2, env).Ok?
    ensures RankOutcome(cat, cb, m1, pol1, client, segments, top1, ex1, samples1, env).value.audit
         == RankOutcome(cat, cb, m2, pol2, client, segments, top2, ex2, samples2, env).value.audit
    ensures
      var mask := EligibilityMask(cat, Audit.StripProtected(client), env.parse);
      && mask.Some?
      && (id in RankOutcome(cat, cb, m1, pol1, client, segments, top1, ex1, samples1, env).value.audit.eligible
          <==> exists j :: 0 <= j < |cat.offers| && mask.value[j] && cat.offers[j].armId == id)
  {
    var mask := EligibilityMask(cat, Audit.StripProtected(client), env.parse).value;
    EligibleMembers(cat, mask, id);
    Sorting.SortMembers(Audit.StringLeq, EligibleIds(cat, mask));
  }

  lemma ListedIsEligible(cat: Catalog, mask: seq<bool>, ranked: seq<RankedArm>, listed: seq<RankedOffer>,
                         excludeIds: seq<string>, id: string)
    requires InCatalogue(cat, ranked) && |mask| == |cat.offers| && listed <= Offers(cat, ranked) && Lists(listed, id)
    requires forall j :: 0 <= j < |cat.offers| ==>
               (Lists(Offers(cat, ranked), cat.offers[j].armId) <==> mask[j] && cat.offers[j].armId !in excludeIds)
    ensures id in EligibleIds(cat, mask)
  {
    var offers := Offers(cat, ranked);
    var i :| 0 <= i < |listed| && listed[i].armId == id;
    assert offers[i].armId == id && ranked[i].arm < |cat.offers|;
    assert Lists(offers, cat.offers[ranked[i].arm].armId);
    EligibleMembers(cat, mask, id);
  }

  /** The audit of a full ranking names exactly the listed arms; a cut or filtered one lists
      only audited arms. */
  lemma ServedIsAudited(cat: Catalog, cb: ContextBuilder, m: ModelState, pol: ResolvedPolicy, client: Client,
                        segments: seq<string>, top: Option<int>, excludeIds: seq<string>, samples: seq<real>,
                        env: Env)
    requires cb.Valid() && Usable(m, |cat.offers|, cb.Dim()) && |samples| == |cat.offers| && cat.DistinctArms()
    requires RankOutcome(cat, cb, m, pol, client, segments, top, excludeIds, samples, env).Ok?
    ensures
      var response := RankOutcome(cat, cb, m, pol, client, segments, top, excludeIds, samples, env).value;
      && (forall id :: Lists(response.ranked, id) ==> id in response.audit.eligible)
      && (top == None && excludeIds == [] ==> forall id :: id in response.audit.eligible ==> Lists(response.ranked, id))
  {
    var c := Audit.StripProtected(client);
    var response := RankOutcome(cat, cb, m, pol, client, segments, top, excludeIds, samples, env).value;
    var arms := RankArms(cat, cb, m, c, segments, excludeIds, samples, env).value;
    var offers := Offers(cat, arms.1);
    RankingListsExactly(cat, cb, m, c, segments, excludeIds, samples, env);
    Sorting.SortMembers(Audit.StringLeq, EligibleIds(cat, arms.0));
    TopIsPrefix(offers, top);
    forall id | Lists(response.ranked, id) ensures id in response.audit.eligible {
      ListedIsEligible(cat, arms.0, arms.1, Slice(offers, top), excludeIds, id);
    }
    if top == None && excludeIds == [] {
      forall id | id in response.audit.eligible ensures Lists(response.ranked, id) {
        EligibleMembers(cat, arms.0, id);
      }
    }
  }
}
