/** The offer catalogue (catalog/loader.py): arm order, income percentile, eligibility. */
module Catalog {
  import opened Wrappers
  import opened Clients

  /** santander_filters, in dictionary order. */
  type Filters = seq<(string, Value)>

  datatype Offer = Offer(armId: string, category: string, exploration: real, filters: Filters)

  /** `incomes` is the sorted income column, missing when no client file was loaded. */
  datatype Catalog = Catalog(
    offers: seq<Offer>, ctxCols: seq<string>, mu: seq<real>, sd: seq<real>, incomes: Option<seq<real>>)
  {
    predicate Valid() {
      && |mu| == |sd| == |ctxCols|
      && (incomes.Some? ==> Sorted(incomes.value))
    }

    function NArms(): nat {
      |offers|
    }

    function Categories(): seq<string> {
      seq(|offers|, i requires 0 <= i < |offers| => offers[i].category)
    }

    function Exploration(): seq<real> {
      seq(|offers|, i requires 0 <= i < |offers| => offers[i].exploration)
    }

    predicate DistinctArms() {
      forall i, k :: 0 <= i < k < |offers| ==> offers[i].armId != offers[k].armId
    }
  }

  predicate Sorted(s: seq<real>) {
    forall i, k :: 0 <= i < k < |s| ==> s[i] <= s[k]
  }

  /** The index dictionary: a repeated id keeps its last position. */
  function IndexOf(offers: seq<Offer>, armId: string): (i: Option<nat>)
    ensures i.Some? ==> i.value < |offers| && offers[i.value].armId == armId
    ensures i == None ==> forall k :: 0 <= k < |offers| ==> offers[k].armId != armId
  {
    if offers == [] then None
    else if offers[|offers| - 1].armId == armId then Some(|offers| - 1)
    else IndexOf(offers[..|offers| - 1], armId)
  }

  // ---------------------------------------------------------------- income percentile

  /** Where `v` would be inserted after its equals. */
  function SearchSortedRight(s: seq<real>, v: real): (pos: nat)
    ensures pos <= |s|
  {
    if s == [] || s[0] > v then 0 else 1 + SearchSortedRight(s[1..], v)
  }

  function IncomePercentile(incomes: Option<seq<real>>, v: real): real {
    if incomes == None || incomes.value == [] then 50.0
    else (SearchSortedRight(incomes.value, v) as real) / (|incomes.value| as real) * 100.0
  }

  /** How many of the incomes are at most v: the count form of the SQL percentile. */
  function CountAtMost(s: seq<real>, v: real): nat {
    if s == [] then 0 else CountAtMost(s[1..], v) + if s[0] <= v then 1 else 0
  }

  lemma {:induction false} SearchIsCount(s: seq<real>, v: real)
    requires Sorted(s)
    ensures SearchSortedRight(s, v) == CountAtMost(s, v)
  {
    if s != [] {
      SearchIsCount(s[1..], v);
      if s[0] > v {
        assert s[1..] != [] ==> s[1..][0] == s[1] >= s[0];
      }
    }
  }

  lemma {:induction false} SearchMonotone(s: seq<real>, v: real, w: real)
    requires v <= w
    ensures SearchSortedRight(s, v) <= SearchSortedRight(s, w)
  {
    if s != [] && s[0] <= v {
      SearchMonotone(s[1..], v, w);
    }
  }

  lemma RatioMonotone(p: nat, q: nat, n: nat)
    requires p <= q <= n && n > 0
    ensures 0.0 <= (p as real) / (n as real) * 100.0 <= (q as real) / (n as real) * 100.0 <= 100.0
  {
    var c := n as real;
    var x, y := (p as real) / c, (q as real) / c;
    assert x * c == p as real && y * c == q as real;
    assert 0.0 <= x <= y <= 1.0;
  }

  /** The percentile of a sorted population is 100 times the share of incomes at most v; it
      stays in [0, 100] and never decreases with the income. */
  lemma PercentileIsShare(incomes: seq<real>, v: real, w: real)
    requires Sorted(incomes) && incomes != [] && v <= w
    ensures IncomePercentile(Some(incomes), v) == (CountAtMost(incomes, v) as real) / (|incomes| as real) * 100.0
    ensures 0.0 <= IncomePercentile(Some(incomes), v) <= IncomePercentile(Some(incomes), w) <= 100.0
  {
    SearchIsCount(incomes, v);
    SearchMonotone(incomes, v, w);
    RatioMonotone(SearchSortedRight(incomes, v), SearchSortedRight(incomes, w), |incomes|);
  }

  // ---------------------------------------------------------------- eligibility

  function StringLess(a: string, b: string): bool {
    if b == [] then false
    else if a == [] then true
    else a[0] < b[0] || (a[0] == b[0] && StringLess(a[1..], b[1..]))
  }

  function ListLess(a: seq<string>, b: seq<string>): bool {
    if b == [] then false
    else if a == [] then true
    else if a[0] == b[0] then ListLess(a[1..], b[1..])
    else StringLess(a[0], b[0])
  }

  /** Python's a < b; `None` is a TypeError. */
  function Less(a: Value, b: Value): Option<bool> {
    match (a, b)
    case (Num(m), Num(n)) => Some(m < n)
    case (Text(s), Text(t)) => Some(StringLess(s, t))
    case (Items(xs), Items(ys)) => Some(ListLess(xs, ys))
    case _ => None
  }

  const HUGE: real := 1000000000000000000.0

  /** Does the client pass one filter? Suffixes are tried in the order of the code. */
  function Passes(client: Client, key: string, val: Value): Option<bool> {
    if EndsWith(key, "_atual") then Some(GetOr(client, Chop(key, 6), Num(0.0)) == val)
    else if EndsWith(key, "_percentil_min") then Not(Less(Get(client, INCOME_PERCENTILE, Num(0.0)), val))
    else if EndsWith(key, "_min") then Not(Less(GetOr(client, Chop(key, 4), Num(0.0)), val))
    else if EndsWith(key, "_max") then Not(Less(val, GetOr(client, Chop(key, 4), Num(HUGE))))
    else Some(Get(client, key, Null) == val)
  }

  function Not(b: Option<bool>): Option<bool> {
    if b.Some? then Some(!b.value) else None
  }

  function IsEligible(client: Client, filters: Filters): Option<bool> {
    if filters == [] then Some(true)
    else
      var p := Passes(client, filters[0].0, filters[0].1);
      if p == Some(true) then IsEligible(client, filters[1..]) else p
  }

  /** Adds `_renda_pct` when it is absent and an income is present; `None` is the TypeError
      or ValueError of float(income). */
  function Enrich(incomes: Option<seq<real>>, client: Client, parse: Parser): Option<Client> {
    if INCOME_PERCENTILE in client || INCOME !in client then Some(client)
    else if incomes == None || incomes.value == [] then Some(client[INCOME_PERCENTILE := Num(50.0)])
    else
      var v := ToFloat(client[INCOME], parse);
      if v == None then None
      else Some(client[INCOME_PERCENTILE := Num(IncomePercentile(incomes, v.value))])
  }

  function MaskOf(client: Client, offers: seq<Offer>): (mask: Option<seq<bool>>)
    ensures mask.Some? ==> |mask.value| == |offers|
    ensures mask.Some? ==>
              forall j :: 0 <= j < |offers| ==> IsEligible(client, offers[j].filters) == Some(mask.value[j])
    ensures mask == None <==> exists j :: 0 <= j < |offers| && IsEligible(client, offers[j].filters) == None
  {
    if offers == [] then Some([])
    else
      assert forall j :: 1 <= j < |offers| ==> offers[j] == offers[1..][j - 1];
      var first, rest := IsEligible(client, offers[0].filters), MaskOf(client, offers[1..]);
      if first.Some? && rest.Some? then Some([first.value] + rest.value) else None
  }

  function EligibilityMask(cat: Catalog, client: Client, parse: Parser): (mask: Option<seq<bool>>)
    ensures mask.Some? ==> |mask.value| == cat.NArms()
  {
    var enriched := Enrich(cat.incomes, client, parse);
    if enriched == None then None else MaskOf(enriched.value, cat.offers)
  }

  /** The conjunction behind the early exits: eligible exactly when every filter passes. */
  lemma {:induction false} EligibleMeansAllPass(client: Client, filters: Filters)
    ensures IsEligible(client, filters) == Some(true)
       <==> forall i :: 0 <= i < |filters| ==> Passes(client, filters[i].0, filters[i].1) == Some(true)
  {
    if filters != [] {
      EligibleMeansAllPass(client, filters[1..]);
      if forall i :: 0 <= i < |filters[1..]| ==> Passes(client, filters[1..][i].0, filters[1..][i].1) == Some(true) {
        assert forall i :: 1 <= i < |filters| ==> filters[i] == filters[1..][i - 1];
      } else {
        var i :| 0 <= i < |filters[1..]| && Passes(client, filters[1..][i].0, filters[1..][i].1) != Some(true);
        assert filters[i + 1] == filters[1..][i];
      }
    }
  }

  /** The field a filter reads. */
  function FieldOf(key: string): string {
    if EndsWith(key, "_atual") then Chop(key, 6)
    else if EndsWith(key, "_percentil_min") then INCOME_PERCENTILE
    else if EndsWith(key, "_min") || EndsWith(key, "_max") then Chop(key, 4)
    else key
  }

  /** Income reaches this filter only through the percentile floor. */
  predicate IncomeOnlyThroughFloor(key: string) {
    EndsWith(key, "_percentil_min") || (FieldOf(key) != INCOME && FieldOf(key) != INCOME_PERCENTILE)
  }

  lemma LastOfSuffix(key: string, suffix: string)
    requires suffix != ""
    ensures EndsWith(key, suffix) ==> key != "" && key[|key| - 1] == suffix[|suffix| - 1]
  {
  }

  lemma FloorMonotone(client: Client, key: string, val: Value, v: real, w: real, p: real, q: real)
    requires IncomeOnlyThroughFloor(key) && p <= q
    requires Passes(client[INCOME := Num(v)][INCOME_PERCENTILE := Num(p)], key, val) == Some(true)
    ensures Passes(client[INCOME := Num(w)][INCOME_PERCENTILE := Num(q)], key, val) == Some(true)
  {
    LastOfSuffix(key, "_atual");
    LastOfSuffix(key, "_percentil_min");
  }

  lemma EnrichedBy(incomes: seq<real>, client: Client, v: real, parse: Parser)
    requires incomes != [] && INCOME_PERCENTILE !in client
    ensures Enrich(Some(incomes), client[INCOME := Num(v)], parse)
         == Some(client[INCOME := Num(v)][INCOME_PERCENTILE := Num(IncomePercentile(Some(incomes), v))])
  {
  }

  /** Raising a client's income never removes an arm whose only income-sensitive filters are
      percentile floors. */
  lemma {:induction false} MoreIncomeKeepsEligibility(incomes: seq<real>, client: Client, v: real, w: real,
                                                      filters: Filters, parse: Parser)
    requires Sorted(incomes) && incomes != [] && v <= w && INCOME_PERCENTILE !in client
    requires forall i :: 0 <= i < |filters| ==> IncomeOnlyThroughFloor(filters[i].0)
    ensures
      var poorer := Enrich(Some(incomes), client[INCOME := Num(v)], parse);
      var richer := Enrich(Some(incomes), client[INCOME := Num(w)], parse);
      && poorer.Some? && richer.Some?
      && (IsEligible(poorer.value, filters) == Some(true) ==> IsEligible(richer.value, filters) == Some(true))
  {
    var p, q := IncomePercentile(Some(incomes), v), IncomePercentile(Some(incomes), w);
    PercentileIsShare(incomes, v, w);
    EnrichedBy(incomes, client, v, parse);
    EnrichedBy(incomes, client, w, parse);
    var poorer := client[INCOME := Num(v)][INCOME_PERCENTILE := Num(p)];
    var richer := client[INCOME := Num(w)][INCOME_PERCENTILE := Num(q)];
    EligibleMeansAllPass(poorer, filters);
    EligibleMeansAllPass(richer, filters);
    if IsEligible(poorer, filters) == Some(true) {
      forall i | 0 <= i < |filters| ensures Passes(richer, filters[i].0, filters[i].1) == Some(true) {
        FloorMonotone(client, filters[i].0, filters[i].1, v, w, p, q);
      }
    }
  }

  /** The filter conventions over numbers, for the field a key names and what the client has in it: a flag
      and a plain key ask for equality, a floor for at least, a ceiling for at most. A missing field is
      zero for flags and floors, 10^18 for ceilings, where a zero is missing too; a plain key fails. */
  lemma FilterMeaning(client: Client, key: string, e: real)
    requires FieldOf(key) in client ==> client[FieldOf(key)].Num?
    ensures
      var there := FieldOf(key) in client;
      var v := if there then client[FieldOf(key)].n else 0.0;
      && (EndsWith(key, "_atual") ==> Passes(client, key, Num(e)) == Some(v == e))
      && (EndsWith(key, "_percentil_min") ==> Passes(client, key, Num(e)) == Some(v >= e))
      && (EndsWith(key, "_min") ==> Passes(client, key, Num(e)) == Some(v >= e))
      && (EndsWith(key, "_max") ==>
            Passes(client, key, Num(e)) == Some((if v == 0.0 then 1000000000000000000.0 else v) <= e))
      && (!EndsWith(key, "_atual") && !EndsWith(key, "_min") && !EndsWith(key, "_max") ==>
            Passes(client, key, Num(e)) == Some(there && v == e))
  {
    LastOfSuffix(key, "_atual");
    LastOfSuffix(key, "_min");
    LastOfSuffix(key, "_max");
    if EndsWith(key, "_percentil_min") {
      assert key[|key| - 4..] == key[|key| - 14..][10..];
    }
  }

  /** A percentile floor, from the income to the answer: with client incomes loaded the share of incomes
      at most the client's, in percent, has to reach it; without them every client is at fifty. */
  lemma FloorMeaning(incomes: Option<seq<real>>, client: Client, key: string, v: real, e: real, parse: Parser)
    requires EndsWith(key, "_percentil_min") && INCOME_PERCENTILE !in client
    requires INCOME in client && client[INCOME] == Num(v) && (incomes.Some? ==> Sorted(incomes.value))
    ensures
      var enriched := Enrich(incomes, client, parse);
      var percentile := if incomes.Some? && incomes.value != []
                        then (CountAtMost(incomes.value, v) as real) / (|incomes.value| as real) * 100.0 else 50.0;
      enriched.Some? && Passes(enriched.value, key, Num(e)) == Some(percentile >= e)
  {
    var enriched := Enrich(incomes, client, parse).value;
    LastOfSuffix(key, "_atual");
    assert FieldOf(key) == INCOME_PERCENTILE;
    if incomes.Some? && incomes.value != [] {
      PercentileIsShare(incomes.value, v, v);
    }
    FilterMeaning(enriched, key, e);
  }

  /** Texts compare as in a dictionary: by the first position where they differ, a prefix being less. */
  lemma {:induction false} StringLessMeaning(a: string, b: string)
    ensures StringLess(a, b)
       <==> exists k :: 0 <= k <= |a| && k < |b| && a[..k] == b[..k] && (k == |a| || a[k] < b[k])
  {
    if a != [] && b != [] && a[0] == b[0] {
      StringLessMeaning(a[1..], b[1..]);
      if k :| 0 <= k <= |a| && k < |b| && a[..k] == b[..k] && (k == |a| || a[k] < b[k]) {
        assert k > 0;
        assert a[1..][..k - 1] == a[..k][1..] && b[1..][..k - 1] == b[..k][1..];
      }
      var a', b' := a[1..], b[1..];
      if k :| 0 <= k <= |a'| && k < |b'| && a'[..k] == b'[..k] && (k == |a'| || a'[k] < b'[k]) {
        assert a[..k + 1] == [a[0]] + a[1..][..k] && b[..k + 1] == [b[0]] + b[1..][..k];
      }
    } else if a != [] && b != [] {
      assert forall k :: 0 < k <= |a| && k < |b| ==> a[..k][0] == a[0] && b[..k][0] == b[0];
      assert a[..0] == b[..0];
    } else if b != [] {
      assert a[..0] == b[..0];
    }
  }
}
