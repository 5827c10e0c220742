/** Monitoring metrics (monitoring/metrics.py): conversion, empirical regret, PSI. */
module Metrics {
  import opened Sums

  const PSI_BINS: seq<real> := [0.0, 20.0, 40.0, 60.0, 80.0, 100.0]
  const EPS := 0.000001
  const MIN_PULLS := 5

  /** A served arm and its reward. */
  type Observation = (string, real)

  // ---------------------------------------------------------------- counts

  function Pulls(obs: seq<Observation>, arm: string): nat {
    if obs == [] then 0
    else Pulls(obs[..|obs| - 1], arm) + if obs[|obs| - 1].0 == arm then 1 else 0
  }

  function Hits(obs: seq<Observation>, arm: string): nat {
    if obs == [] then 0
    else Hits(obs[..|obs| - 1], arm) + if obs[|obs| - 1].0 == arm && obs[|obs| - 1].1 >= 1.0 then 1 else 0
  }

  predicate Qualified(obs: seq<Observation>, arm: string) {
    Pulls(obs, arm) >= MIN_PULLS
  }

  function Rate(obs: seq<Observation>, arm: string): real
    requires Pulls(obs, arm) > 0
  {
    (Hits(obs, arm) as real) / (Pulls(obs, arm) as real)
  }

  /** rates.get(arm, 0.0) */
  function RateOrZero(obs: seq<Observation>, arm: string): real {
    if Qualified(obs, arm) then Rate(obs, arm) else 0.0
  }

  ghost predicate IsBest(obs: seq<Observation>, best: real) {
    && (exists a :: Qualified(obs, a) && best == Rate(obs, a))
    && (forall a :: Qualified(obs, a) ==> Rate(obs, a) <= best)
  }

  /** Conversions of the observations whose arm qualifies in `all`. */
  function QualifiedHits(all: seq<Observation>, obs: seq<Observation>): nat {
    if obs == [] then 0
    else
      var o := obs[|obs| - 1];
      QualifiedHits(all, obs[..|obs| - 1]) + if Qualified(all, o.0) && o.1 >= 1.0 then 1 else 0
  }

  /** Σ (best - rates.get(arm, 0)) over the observations. */
  function GapTotal(all: seq<Observation>, obs: seq<Observation>, best: real): real {
    if obs == [] then 0.0
    else GapTotal(all, obs[..|obs| - 1], best) + (best - RateOrZero(all, obs[|obs| - 1].0))
  }

  function Conversions(rewards: seq<real>): nat {
    if rewards == [] then 0
    else Conversions(rewards[..|rewards| - 1]) + if rewards[|rewards| - 1] >= 1.0 then 1 else 0
  }

  function ConversionRate(rewards: seq<real>): real {
    if rewards == [] then 0.0 else (Conversions(rewards) as real) / (|rewards| as real)
  }

  function Rewards(obs: seq<Observation>): seq<real> {
    seq(|obs|, i requires 0 <= i < |obs| => obs[i].1)
  }

  // ---------------------------------------------------------------- the loops

  /** The rewards grouped by arm, as the first loop builds them. */
  ghost predicate Grouped(per: map<string, seq<real>>, obs: seq<Observation>) {
    && (forall a :: a in per <==> Pulls(obs, a) > 0)
    && (forall a :: a in per ==> |per[a]| == Pulls(obs, a) && Conversions(per[a]) == Hits(obs, a))
  }

  method GroupByArm(obs: seq<Observation>) returns (per: map<string, seq<real>>)
    ensures Grouped(per, obs)
  {
    per := map[];
    for k := 0 to |obs|
      invariant Grouped(per, obs[..k])
    {
      var arm, reward := obs[k].0, obs[k].1;
      assert obs[..k + 1][..k] == obs[..k];
      HitsAtMostPulls(obs[..k], arm);
      var prior := if arm in per then per[arm] else [];
      var grown := prior + [reward];
      assert grown[..|prior|] == prior;
      per := per[arm := grown];
    }
    assert obs[..|obs|] == obs;
  }

  method RatesOf(per: map<string, seq<real>>, ghost obs: seq<Observation>) returns (rates: map<string, real>)
    requires Grouped(per, obs)
    ensures forall a :: a in rates <==> Qualified(obs, a)
    ensures forall a :: a in rates ==> Qualified(obs, a) && rates[a] == Rate(obs, a)
  {
    rates := map a | a in per && |per[a]| >= MIN_PULLS :: (Conversions(per[a]) as real) / (|per[a]| as real);
  }

  method MaxValue(rates: map<string, real>) returns (best: real)
    requires rates != map[]
    ensures exists a :: a in rates && rates[a] == best
    ensures forall a :: a in rates ==> rates[a] <= best
  {
    var first :| first in rates;
    best := rates[first];
    var todo := rates.Keys - {first};
    while todo != {}
      invariant todo <= rates.Keys
      invariant exists a :: a in rates && rates[a] == best
      invariant forall a :: a in rates && a !in todo ==> rates[a] <= best
      decreases |todo|
    {
      var a :| a in todo;
      todo := todo - {a};
      if rates[a] > best {
        best := rates[a];
      }
    }
  }

  /** Zero without observations or without a qualified arm; otherwise the mean gap to the best
      qualified rate, clamped at zero. */
  ghost predicate IsRegret(obs: seq<Observation>, regret: real) {
    if forall a :: !Qualified(obs, a) then regret == 0.0
    else exists best :: IsBest(obs, best) && |obs| > 0 && regret == Clamped(GapTotal(obs, obs, best) / (|obs| as real))
  }

  function Clamped(r: real): real {
    if r < 0.0 then 0.0 else r
  }

  method EmpiricalRegret(obs: seq<Observation>) returns (regret: real)
    ensures IsRegret(obs, regret)
    ensures (forall a :: Pulls(obs, a) < 5) ==> regret == 0.0
    ensures (exists a :: Pulls(obs, a) >= 5) ==> exists best :: IsBest(obs, best) && 0.0 <= regret
  {
    if obs == [] {
      return 0.0;
    }
    var per := GroupByArm(obs);
    var rates := RatesOf(per, obs);
    if rates == map[] {
      return 0.0;
    }
    var best := MaxValue(rates);
    var total := 0.0;
    for k := 0 to |obs|
      invariant total == GapTotal(obs, obs[..k], best)
    {
      assert obs[..k + 1][..k] == obs[..k];
      total := total + (best - if obs[k].0 in rates then rates[obs[k].0] else 0.0);
    }
    assert obs[..|obs|] == obs;
    assert IsBest(obs, best);
    regret := Clamped(total / (|obs| as real));
  }

  // ---------------------------------------------------------------- regret is an accounting identity

  lemma {:induction false} HitsAtMostPulls(obs: seq<Observation>, arm: string)
    ensures Hits(obs, arm) <= Pulls(obs, arm) <= |obs|
  {
    if obs != [] {
      HitsAtMostPulls(obs[..|obs| - 1], arm);
    }
  }

  function ArmIn(arms: set<string>, o: Observation): bool {
    o.0 in arms
  }

  /** Σ of the rates of the observations served one of these arms. */
  function RateSum(all: seq<Observation>, obs: seq<Observation>, arms: set<string>): real {
    if obs == [] then 0.0
    else
      var o := obs[|obs| - 1];
      RateSum(all, obs[..|obs| - 1], arms) + if ArmIn(arms, o) then RateOrZero(all, o.0) else 0.0
  }

  function HitsOf(obs: seq<Observation>, arms: set<string>): nat {
    if obs == [] then 0
    else
      var o := obs[|obs| - 1];
      HitsOf(obs[..|obs| - 1], arms) + if ArmIn(arms, o) && o.1 >= 1.0 then 1 else 0
  }

  /** n times a rate, under a name. */
  function Share(n: nat, rate: real): real {
    (n as real) * rate
  }

  lemma ShareOnce(n: nat, rate: real)
    ensures Share(n + 1, rate) == Share(n, rate) + rate
    ensures Share(0, rate) == 0.0
  {
  }

  lemma {:induction false} SplitRate(all: seq<Observation>, obs: seq<Observation>, arms: set<string>, a: string)
    requires a in arms
    ensures RateSum(all, obs, arms) == RateSum(all, obs, arms - {a}) + Share(Pulls(obs, a), RateOrZero(all, a))
  {
    if obs == [] {
      ShareOnce(0, RateOrZero(all, a));
    } else {
      var k := |obs| - 1;
      SplitRate(all, obs[..k], arms, a);
      ShareOnce(Pulls(obs[..k], a), RateOrZero(all, a));
    }
  }

  lemma {:induction false} SplitHits(obs: seq<Observation>, arms: set<string>, a: string)
    requires a in arms
    ensures HitsOf(obs, arms) == HitsOf(obs, arms - {a}) + Hits(obs, a)
  {
    if obs != [] {
      SplitHits(obs[..|obs| - 1], arms, a);
    }
  }

  lemma ShareOfRate(obs: seq<Observation>, a: string)
    requires Qualified(obs, a)
    ensures Share(Pulls(obs, a), RateOrZero(obs, a)) == Hits(obs, a) as real
  {
    assert (Pulls(obs, a) as real) * Rate(obs, a) == Hits(obs, a) as real;
  }

  lemma {:induction false} NoArms(all: seq<Observation>, obs: seq<Observation>)
    ensures RateSum(all, obs, {}) == 0.0 && HitsOf(obs, {}) == 0
  {
    if obs != [] {
      NoArms(all, obs[..|obs| - 1]);
    }
  }

  /** Regrouped by arm, the rates of the served arms add up to their conversions. */
  lemma {:induction false} RatesAreHits(obs: seq<Observation>, arms: set<string>)
    requires forall a :: a in arms ==> Qualified(obs, a)
    ensures RateSum(obs, obs, arms) == HitsOf(obs, arms) as real
    decreases |arms|
  {
    if arms == {} {
      NoArms(obs, obs);
    } else {
      var a :| a in arms;
      RatesAreHits(obs, arms - {a});
      SplitRate(obs, obs, arms, a);
      SplitHits(obs, arms, a);
      ShareOfRate(obs, a);
    }
  }

  function QualifiedArms(obs: seq<Observation>): set<string> {
    set o | o in obs && Qualified(obs, o.0) :: o.0
  }

  lemma {:induction false} GapAccount(all: seq<Observation>, obs: seq<Observation>, best: real)
    requires forall o :: o in obs ==> o in all
    ensures GapTotal(all, obs, best) == Share(|obs|, best) - RateSum(all, obs, QualifiedArms(all))
    ensures QualifiedHits(all, obs) == HitsOf(obs, QualifiedArms(all))
  {
    if obs == [] {
      ShareOnce(0, best);
    } else {
      var k := |obs| - 1;
      assert obs[k] in obs && forall o :: o in obs[..k] ==> o in obs;
      GapAccount(all, obs[..k], best);
      ShareOnce(k, best);
    }
  }

  lemma {:induction false} GapNonnegative(all: seq<Observation>, obs: seq<Observation>, best: real)
    requires best >= 0.0 && forall a :: Qualified(all, a) ==> Rate(all, a) <= best
    ensures GapTotal(all, obs, best) >= 0.0
  {
    if obs != [] {
      GapNonnegative(all, obs[..|obs| - 1], best);
    }
  }

  lemma RateBounds(obs: seq<Observation>, arm: string)
    requires Pulls(obs, arm) > 0
    ensures 0.0 <= Rate(obs, arm) <= 1.0
  {
    HitsAtMostPulls(obs, arm);
    var p, h := Pulls(obs, arm) as real, Hits(obs, arm) as real;
    assert Rate(obs, arm) * p == h;
  }

  lemma MeanGap(gap: real, n: nat, best: real, hits: nat)
    requires n > 0 && gap == Share(n, best) - hits as real && gap >= 0.0
    ensures Clamped(gap / (n as real)) == gap / (n as real)
    ensures Share(n, Clamped(gap / (n as real))) == Share(n, best) - hits as real
    ensures 0.0 <= Clamped(gap / (n as real)) <= best
  {
    var c := n as real;
    var q := gap / c;
    assert q * c == gap;
    assert q >= 0.0;
    Quotient(gap, c, best);
  }

  lemma Quotient(gap: real, n: real, best: real)
    requires n > 0.0 && gap <= n * best
    ensures gap / n <= best
  {
    var q := gap / n;
    assert q * n == gap;
    if q > best {
      assert q * n > best * n;
    }
  }

  /** Whenever some arm qualifies: regret times N is N times the best rate minus the
      conversions of qualified arms, 0 <= regret <= best <= 1, and the final clamp never acts. */
  lemma RegretIdentity(obs: seq<Observation>, regret: real)
    returns (best: real)
    requires IsRegret(obs, regret) && exists a :: Qualified(obs, a)
    ensures IsBest(obs, best) && |obs| > 0
    ensures Share(|obs|, regret) == Share(|obs|, best) - QualifiedHits(obs, obs) as real
    ensures regret == GapTotal(obs, obs, best) / (|obs| as real)
    ensures 0.0 <= regret <= best <= 1.0
  {
    best :| IsBest(obs, best) && |obs| > 0 && regret == Clamped(GapTotal(obs, obs, best) / (|obs| as real));
    var a :| Qualified(obs, a) && best == Rate(obs, a);
    RateBounds(obs, a);
    GapAccount(obs, obs, best);
    RatesAreHits(obs, QualifiedArms(obs));
    GapNonnegative(obs, obs, best);
    MeanGap(GapTotal(obs, obs, best), |obs|, best, QualifiedHits(obs, obs));
  }

  // ---------------------------------------------------------------- order and conversion

  function ArmIndicator(arm: string): Observation -> real {
    (o: Observation) => if o.0 == arm then 1.0 else 0.0
  }

  function HitIndicator(arm: string): Observation -> real {
    (o: Observation) => if o.0 == arm && o.1 >= 1.0 then 1.0 else 0.0
  }

  function QualifiedHitIndicator(all: seq<Observation>): Observation -> real {
    (o: Observation) => if Qualified(all, o.0) && o.1 >= 1.0 then 1.0 else 0.0
  }

  lemma {:induction false} CountsAreSums(all: seq<Observation>, obs: seq<Observation>, arm: string)
    ensures Pulls(obs, arm) as real == SumBy(ArmIndicator(arm), obs)
    ensures Hits(obs, arm) as real == SumBy(HitIndicator(arm), obs)
    ensures QualifiedHits(all, obs) as real == SumBy(QualifiedHitIndicator(all), obs)
  {
    if obs != [] {
      CountsAreSums(all, obs[..|obs| - 1], arm);
    }
  }

  lemma CountsPermute(obs: seq<Observation>, obs': seq<Observation>, arm: string)
    requires multiset(obs) == multiset(obs')
    ensures Pulls(obs, arm) == Pulls(obs', arm) && Hits(obs, arm) == Hits(obs', arm)
    ensures QualifiedHits(obs, obs) == QualifiedHits(obs, obs')
  {
    CountsAreSums(obs, obs, arm);
    CountsAreSums(obs, obs', arm);
    SumPermutation(ArmIndicator(arm), obs, obs');
    SumPermutation(HitIndicator(arm), obs, obs');
    SumPermutation(QualifiedHitIndicator(obs), obs, obs');
  }

  lemma {:induction false} QualifiedHitsSame(all: seq<Observation>, all': seq<Observation>, obs: seq<Observation>)
    requires forall a :: Qualified(all, a) <==> Qualified(all', a)
    ensures QualifiedHits(all, obs) == QualifiedHits(all', obs)
  {
    if obs != [] {
      QualifiedHitsSame(all, all', obs[..|obs| - 1]);
    }
  }

  ghost predicate SameTallies(obs: seq<Observation>, obs': seq<Observation>) {
    && |obs| == |obs'| && QualifiedHits(obs, obs) == QualifiedHits(obs', obs')
    && forall a :: Pulls(obs, a) == Pulls(obs', a) && Hits(obs, a) == Hits(obs', a)
  }

  lemma SameCounts(obs: seq<Observation>, obs': seq<Observation>)
    requires multiset(obs) == multiset(obs')
    ensures SameTallies(obs, obs')
  {
    forall a ensures Pulls(obs, a) == Pulls(obs', a) && Hits(obs, a) == Hits(obs', a) {
      CountsPermute(obs, obs', a);
    }
    CountsPermute(obs, obs', "");
    QualifiedHitsSame(obs, obs', obs');
    assert |obs| == |multiset(obs)| == |multiset(obs')| == |obs'|;
  }

  lemma AlsoQualified(obs: seq<Observation>, obs': seq<Observation>, a: string)
    requires SameTallies(obs, obs')
    ensures Qualified(obs, a) <==> Qualified(obs', a)
  {
    assert Pulls(obs, a) == Pulls(obs', a) && Hits(obs, a) == Hits(obs', a);
  }

  lemma {:induction false} QualifiedOrder(obs: seq<Observation>, obs': seq<Observation>, a: string, r: real, r': real)
    requires SameTallies(obs, obs') && Qualified(obs, a) && IsRegret(obs, r) && IsRegret(obs', r')
    ensures r == r'
  {
    AlsoQualified(obs, obs', a);
    var best := RegretIdentity(obs, r);
    var best' := RegretIdentity(obs', r');
    SameBest(obs, obs', best, best');
    ShareCancel(|obs|, r, r');
  }

  lemma ShareCancel(n: nat, r: real, r': real)
    requires n > 0 && Share(n, r) == Share(n, r')
    ensures r == r'
  {
    CancelFactor(r, r', n as real);
  }

  lemma {:induction false} NoneQualified(obs: seq<Observation>, obs': seq<Observation>, r: real, r': real)
    requires SameTallies(obs, obs') && IsRegret(obs, r) && IsRegret(obs', r')
    requires forall a :: !Qualified(obs, a)
    ensures r == r'
  {
    forall a ensures !Qualified(obs', a) {
      AlsoQualified(obs, obs', a);
    }
  }

  /** Regret does not depend on the order of the observations, and it is one number: any two
      values the computation can return for permuted logs are equal. */
  lemma {:induction false} RegretIgnoresOrder(obs: seq<Observation>, obs': seq<Observation>, r: real, r': real)
    requires multiset(obs) == multiset(obs') && IsRegret(obs, r) && IsRegret(obs', r')
    ensures r == r'
  {
    SameCounts(obs, obs');
    if a :| Qualified(obs, a) {
      QualifiedOrder(obs, obs', a, r, r');
    } else {
      NoneQualified(obs, obs', r, r');
    }
  }

  lemma SameBest(obs: seq<Observation>, obs': seq<Observation>, best: real, best': real)
    requires SameTallies(obs, obs')
    requires IsBest(obs, best) && IsBest(obs', best')
    ensures best == best'
  {
    var b :| Qualified(obs, b) && best == Rate(obs, b);
    var b' :| Qualified(obs', b') && best' == Rate(obs', b');
    assert Qualified(obs', b) && Rate(obs', b) == best;
    assert Qualified(obs, b') && Rate(obs, b') == best';
  }

  lemma CancelFactor(r: real, r': real, n: real)
    requires n > 0.0 && r * n == r' * n
    ensures r == r'
  {
    assert (r * n) / n == r && (r' * n) / n == r';
  }

  lemma {:induction false} AllQualifiedHits(all: seq<Observation>, obs: seq<Observation>)
    requires forall o :: o in obs ==> Qualified(all, o.0)
    ensures QualifiedHits(all, obs) == Conversions(Rewards(obs))
  {
    if obs != [] {
      var k := |obs| - 1;
      assert obs[k] in obs && forall o :: o in obs[..k] ==> o in obs;
      AllQualifiedHits(all, obs[..k]);
      assert Rewards(obs)[..k] == Rewards(obs[..k]);
    }
  }

  /** When every served arm qualifies, regret is the best rate minus the conversion rate. */
  lemma RegretIsMissedConversion(obs: seq<Observation>, regret: real) returns (best: real)
    requires IsRegret(obs, regret) && obs != [] && forall o :: o in obs ==> Qualified(obs, o.0)
    ensures IsBest(obs, best) && regret == best - ConversionRate(Rewards(obs))
  {
    assert obs[0] in obs;
    best := RegretIdentity(obs, regret);
    AllQualifiedHits(obs, obs);
    MissedShare(|obs|, best, regret, QualifiedHits(obs, obs));
  }

  lemma MissedShare(n: nat, best: real, regret: real, hits: nat)
    requires n > 0 && Share(n, regret) == Share(n, best) - hits as real
    ensures regret == best - (hits as real) / (n as real)
  {
    var c := n as real;
    var q := (hits as real) / c;
    assert q * c == hits as real;
    assert (best - q) * c == regret * c;
    CancelFactor(best - q, regret, c);
  }

  // ---------------------------------------------------------------- population stability

  const NBINS := 5

  /** Bin i of the fixed edges; the last one is closed on the right. */
  predicate InBin(v: real, i: nat)
    requires i < NBINS
  {
    PSI_BINS[i] <= v < PSI_BINS[i + 1] || (i == NBINS - 1 && v == PSI_BINS[i + 1])
  }

  function CountIn(values: seq<real>, i: nat): nat
    requires i < NBINS
  {
    if values == [] then 0
    else CountIn(values[..|values| - 1], i) + if InBin(values[|values| - 1], i) then 1 else 0
  }

  function Counted(values: seq<real>): nat {
    CountIn(values, 0) + CountIn(values, 1) + CountIn(values, 2) + CountIn(values, 3) + CountIn(values, 4)
  }

  function Denominator(values: seq<real>): nat {
    if Counted(values) == 0 then 1 else Counted(values)
  }

  function Fraction(values: seq<real>, i: nat): real
    requires i < NBINS
  {
    (CountIn(values, i) as real) / (Denominator(values) as real)
  }

  function Fractions(values: seq<real>): (h: seq<real>)
    ensures |h| == NBINS
  {
    [Fraction(values, 0), Fraction(values, 1), Fraction(values, 2), Fraction(values, 3), Fraction(values, 4)]
  }

  /** Every percentile falls in exactly one bin, and nothing else falls in any. */
  lemma ExactlyOneBin(v: real)
    ensures forall i: nat :: i < 5 ==>
              (InBin(v, i) <==> 20.0 * (i as real) <= v < 20.0 * (i as real) + 20.0 || (i == 4 && v == 100.0))
    ensures 0.0 <= v <= 100.0 <==> exists i: nat :: i < NBINS && InBin(v, i)
    ensures forall i: nat, k: nat :: i < NBINS && k < NBINS && InBin(v, i) && InBin(v, k) ==> i == k
  {
    if 0.0 <= v <= 100.0 {
      assert InBin(v, 0) || InBin(v, 1) || InBin(v, 2) || InBin(v, 3) || InBin(v, 4);
    }
  }

  method Histogram(values: seq<real>) returns (h: seq<real>)
    ensures h == Fractions(values)
  {
    var counts := [0, 0, 0, 0, 0];
    for k := 0 to |values|
      invariant |counts| == NBINS
      invariant forall i: nat :: i < NBINS ==> counts[i] == CountIn(values[..k], i)
    {
      var v := values[k];
      assert values[..k + 1][..k] == values[..k];
      ExactlyOneBin(v);
      var i := 0;
      while i < NBINS
        invariant 0 <= i <= NBINS
        invariant forall b: nat :: b < i ==> !InBin(v, b)
        invariant |counts| == NBINS
        invariant forall b: nat :: b < NBINS ==> counts[b] == CountIn(values[..k], b)
      {
        if InBin(v, i) {
          counts := counts[i := counts[i] + 1];
          break;
        }
        i := i + 1;
      }
    }
    assert values[..|values|] == values;
    var total := counts[0] + counts[1] + counts[2] + counts[3] + counts[4];
    var denominator := if total == 0 then 1 else total;
    h := [];
    for i := 0 to NBINS
      invariant h == Fractions(values)[..i]
    {
      h := h + [(counts[i] as real) / (denominator as real)];
    }
  }

  lemma AddFractions(p: nat, q: nat, n: nat)
    requires n > 0
    ensures (p as real) / (n as real) + (q as real) / (n as real) == ((p + q) as real) / (n as real)
  {
  }

  lemma FractionsAddUp(a: nat, b: nat, c: nat, d: nat, e: nat, n: nat)
    requires n > 0 && a + b + c + d + e == n
    ensures (a as real) / (n as real) + (b as real) / (n as real) + (c as real) / (n as real)
            + (d as real) / (n as real) + (e as real) / (n as real) == 1.0
  {
    AddFractions(a, b, n);
    AddFractions(a + b, c, n);
    AddFractions(a + b + c, d, n);
    AddFractions(a + b + c + d, e, n);
  }

  lemma {:induction false} SomeCounted(values: seq<real>, v: real)
    requires v in values && 0.0 <= v <= 100.0
    ensures Counted(values) > 0
  {
    var last := |values| - 1;
    if values[last] == v {
      ExactlyOneBin(v);
    } else {
      assert v in values[..last];
      SomeCounted(values[..last], v);
    }
  }

  /** The bin fractions add up to one as soon as any value is a percentile. */
  lemma FractionsSumToOne(values: seq<real>, v: real)
    requires v in values && 0.0 <= v <= 100.0
    ensures var h := Fractions(values); h[0] + h[1] + h[2] + h[3] + h[4] == 1.0
  {
    SomeCounted(values, v);
    FractionsAddUp(CountIn(values, 0), CountIn(values, 1), CountIn(values, 2), CountIn(values, 3), CountIn(values, 4),
                   Counted(values));
  }

  function Ratio(x: real, y: real): real
    requires y != 0.0
  {
    x / y
  }

  /** What the logarithm is used for. */
  ghost predicate IsLog(ln: real -> real) {
    && ln(1.0) == 0.0
    && (forall x: real, y: real :: 0.0 < x < y ==> ln(x) < ln(y))
    && (forall x: real, y: real :: 0.0 < x && 0.0 < y ==> ln(Ratio(x, y)) == -ln(Ratio(y, x)))
  }

  function Smoothed(p: real): (q: real)
    ensures q > 0.0
  {
    if p < EPS then EPS else p
  }

  /** (c - r) * ln(c / r) */
  function Drift(r: real, c: real, ln: real -> real): real
    requires r > 0.0
  {
    (c - r) * ln(Ratio(c, r))
  }

  function Term(r: real, c: real, ln: real -> real): real {
    Drift(Smoothed(r), Smoothed(c), ln)
  }

  function TermSum(reference: seq<real>, current: seq<real>, ln: real -> real): real
    requires |reference| == |current|
  {
    if reference == [] then 0.0
    else
      var k := |reference| - 1;
      TermSum(reference[..k], current[..k], ln) + Term(reference[k], current[k], ln)
  }

  function PsiOf(reference: seq<real>, current: seq<real>, ln: real -> real): real {
    if reference == [] || current == [] then 0.0
    else
      var total := TermSum(Fractions(reference), Fractions(current), ln);
      if total < 0.0 then -total else total
  }

  method Psi(reference: seq<real>, current: seq<real>, ln: real -> real) returns (psi: real)
    ensures psi == PsiOf(reference, current, ln)
  {
    if reference == [] || current == [] {
      return 0.0;
    }
    var refH := Histogram(reference);
    var curH := Histogram(current);
    var total := 0.0;
    for k := 0 to |refH|
      invariant total == TermSum(refH[..k], curH[..k], ln)
    {
      assert refH[..k + 1][..k] == refH[..k] && curH[..k + 1][..k] == curH[..k];
      var r, c := Smoothed(refH[k]), Smoothed(curH[k]);
      total := total + Drift(r, c, ln);
    }
    assert refH[..|refH|] == refH && curH[..|refH|] == curH;
    psi := if total < 0.0 then -total else total;
  }

  lemma PositiveFactor(a: real, r: real)
    requires r > 0.0 && a * r > 0.0
    ensures a > 0.0
  {
    assert a == (a * r) / r;
  }

  lemma RatioAboveOne(r: real, c: real)
    requires 0.0 < r < c
    ensures 1.0 < Ratio(c, r)
  {
    var q := Ratio(c, r);
    assert q * r == c;
    assert (q - 1.0) * r == c - r;
    PositiveFactor(q - 1.0, r);
  }

  lemma ProductOfPositives(a: real, b: real)
    requires a > 0.0 && b > 0.0
    ensures a * b > 0.0
  {
  }

  lemma DriftPositive(x: real, y: real, ln: real -> real)
    requires IsLog(ln) && 0.0 < x < y
    ensures Drift(x, y, ln) > 0.0
  {
    RatioAboveOne(x, y);
    ProductOfPositives(y - x, ln(Ratio(y, x)));
  }

  lemma DriftSymmetric(x: real, y: real, ln: real -> real)
    requires IsLog(ln) && 0.0 < x && 0.0 < y
    ensures Drift(x, y, ln) == Drift(y, x, ln)
  {
    var p, q := ln(Ratio(y, x)), ln(Ratio(x, y));
    assert p == -q;
    assert (y - x) * p == (x - y) * q;
  }

  /** Each bin's contribution is non-negative, symmetric, and zero exactly for equal fractions. */
  lemma TermSign(r: real, c: real, ln: real -> real)
    requires IsLog(ln)
    ensures Term(r, c, ln) >= 0.0
    ensures Term(r, c, ln) == Term(c, r, ln)
    ensures Term(r, c, ln) == 0.0 <==> Smoothed(r) == Smoothed(c)
  {
    var x, y := Smoothed(r), Smoothed(c);
    DriftSymmetric(x, y, ln);
    if x < y {
      DriftPositive(x, y, ln);
    } else if y < x {
      DriftPositive(y, x, ln);
    } else {
      assert Ratio(y, x) == 1.0;
    }
  }

  lemma {:induction false} TermSumSign(a: seq<real>, b: seq<real>, ln: real -> real)
    requires |a| == |b| && IsLog(ln)
    ensures TermSum(a, b, ln) >= 0.0
    ensures TermSum(a, b, ln) == TermSum(b, a, ln)
    ensures TermSum(a, b, ln) == 0.0 <==> forall i :: 0 <= i < |a| ==> Smoothed(a[i]) == Smoothed(b[i])
  {
    if a != [] {
      var k := |a| - 1;
      TermSumSign(a[..k], b[..k], ln);
      TermSign(a[k], b[k], ln);
      if forall i :: 0 <= i < k ==> Smoothed(a[..k][i]) == Smoothed(b[..k][i]) {
        assert forall i :: 0 <= i < k ==> a[i] == a[..k][i] && b[i] == b[..k][i];
      } else {
        var i :| 0 <= i < k && Smoothed(a[..k][i]) != Smoothed(b[..k][i]);
        assert Smoothed(a[i]) != Smoothed(b[i]);
      }
    }
  }

  /** PSI is a sum of non-negative terms, so the final abs changes nothing; it is symmetric,
      and on non-empty samples zero exactly when the smoothed histograms agree. */
  lemma PsiIsDivergence(reference: seq<real>, current: seq<real>, ln: real -> real)
    requires IsLog(ln)
    ensures PsiOf(reference, current, ln) >= 0.0
    ensures PsiOf(reference, current, ln) == PsiOf(current, reference, ln)
    ensures reference != [] && current != [] ==>
              PsiOf(reference, current, ln) == TermSum(Fractions(reference), Fractions(current), ln)
    ensures reference != [] && current != [] ==>
              (PsiOf(reference, current, ln) == 0.0
               <==> forall i: nat :: i < NBINS ==> Smoothed(Fraction(reference, i)) == Smoothed(Fraction(current, i)))
  {
    var a, b := Fractions(reference), Fractions(current);
    TermSumSign(a, b, ln);
    assert forall i: nat :: i < NBINS ==> a[i] == Fraction(reference, i) && b[i] == Fraction(current, i);
  }

  /** A share of a bin, floored at one in a million. */
  function Floored(values: seq<real>, i: nat): real
    requires i < 5
  {
    var share := (CountIn(values, i) as real) / (if Counted(values) == 0 then 1 else Counted(values)) as real;
    if share < 0.000001 then 0.000001 else share
  }

  function PsiTerm(r: real, c: real, ln: real -> real): real
    requires r > 0.0
  {
    (c - r) * ln(Ratio(c, r))
  }

  lemma BinTerm(reference: seq<real>, current: seq<real>, i: nat, ln: real -> real)
    requires i < 5
    ensures Term(Fractions(reference)[i], Fractions(current)[i], ln)
         == PsiTerm(Floored(reference, i), Floored(current, i), ln)
  {
    FlooredIsSmoothed(reference, i);
    FlooredIsSmoothed(current, i);
    TermIs(Fraction(reference, i), Fraction(current, i), ln);
    assert Fractions(reference)[i] == Fraction(reference, i) && Fractions(current)[i] == Fraction(current, i);
  }

  lemma FlooredIsSmoothed(values: seq<real>, i: nat)
    requires i < 5
    ensures Smoothed(Fraction(values, i)) == Floored(values, i)
  {
  }

  lemma TermIs(r: real, c: real, ln: real -> real)
    ensures Term(r, c, ln) == PsiTerm(Smoothed(r), Smoothed(c), ln)
  {
  }

  lemma {:induction false} TermSumStep(a: seq<real>, b: seq<real>, k: nat, ln: real -> real)
    requires k < |a| == |b|
    ensures TermSum(a[..k + 1], b[..k + 1], ln) == TermSum(a[..k], b[..k], ln) + Term(a[k], b[k], ln)
  {
    assert a[..k + 1][..k] == a[..k] && b[..k + 1][..k] == b[..k];
  }

  lemma {:induction false} FiveTerms(a: seq<real>, b: seq<real>, ln: real -> real)
    requires |a| == |b| == 5
    ensures TermSum(a, b, ln)
         == Term(a[0], b[0], ln) + Term(a[1], b[1], ln) + Term(a[2], b[2], ln) + Term(a[3], b[3], ln)
            + Term(a[4], b[4], ln)
  {
    TermSumStep(a, b, 0, ln);
    TermSumStep(a, b, 1, ln);
    TermSumStep(a, b, 2, ln);
    TermSumStep(a, b, 3, ln);
    TermSumStep(a, b, 4, ln);
    assert a[..5] == a && b[..5] == b;
  }

  /** PSI term by term over the five bins: (c - r) ln(c / r) over the floored shares. */
  lemma PsiFormula(reference: seq<real>, current: seq<real>, ln: real -> real)
    requires IsLog(ln) && reference != [] && current != []
    ensures PsiOf(reference, current, ln)
         == PsiTerm(Floored(reference, 0), Floored(current, 0), ln)
            + PsiTerm(Floored(reference, 1), Floored(current, 1), ln)
            + PsiTerm(Floored(reference, 2), Floored(current, 2), ln)
            + PsiTerm(Floored(reference, 3), Floored(current, 3), ln)
            + PsiTerm(Floored(reference, 4), Floored(current, 4), ln)
  {
    PsiIsDivergence(reference, current, ln);
    FiveTerms(Fractions(reference), Fractions(current), ln);
    BinTerm(reference, current, 0, ln);
    BinTerm(reference, current, 1, ln);
    BinTerm(reference, current, 2, ln);
    BinTerm(reference, current, 3, ln);
    BinTerm(reference, current, 4, ln);
  }

  lemma SmallShare(k: nat, n: nat)
    requires 0 < n < 1000000
    ensures k == 0 ==> (k as real) / (n as real) == 0.0
    ensures k > 0 ==> (k as real) / (n as real) > 0.000001
  {
    var c := n as real;
    var q := (k as real) / c;
    assert q * c == k as real;
    if k > 0 {
      assert (q - 0.000001) * c > 0.0;
    }
  }

  /** The floor hides nothing below a million values: PSI is zero exactly when every bin has the same
      share in both populations. */
  lemma PsiZeroMeansEqual(reference: seq<real>, current: seq<real>, ln: real -> real)
    requires IsLog(ln) && reference != [] && current != []
    requires Counted(reference) < 1000000 && Counted(current) < 1000000
    ensures PsiOf(reference, current, ln) == 0.0
       <==> forall i: nat :: i < 5 ==> Fraction(reference, i) == Fraction(current, i)
  {
    PsiIsDivergence(reference, current, ln);
    forall i: nat | i < 5
      ensures Smoothed(Fraction(reference, i)) == Smoothed(Fraction(current, i))
         <==> Fraction(reference, i) == Fraction(current, i)
    {
      SmallShare(CountIn(reference, i), Denominator(reference));
      SmallShare(CountIn(current, i), Denominator(current));
    }
  }
}
