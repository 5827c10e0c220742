/** Thompson sampling with Beta(1,1) priors (models/thompson.py). The draws are an input. */
module Thompson {
  import opened Sums
  import opened Ranking
  import opened Sorting
  import opened Kernel
  import opened Ridge

  datatype ThompsonState = ThompsonState(nArms: nat, alpha: seq<real>, beta: seq<real>)

  /** Beta parameters only ever grow from one. */
  predicate Shaped(s: ThompsonState) {
    && |s.alpha| == |s.beta| == s.nArms
    && forall j :: 0 <= j < s.nArms ==> s.alpha[j] >= 1.0 && s.beta[j] >= 1.0
  }

  function Fresh(n: nat): (s: ThompsonState)
    ensures Shaped(s)
  {
    ThompsonState(n, seq(n, _ => 1.0), seq(n, _ => 1.0))
  }

  function Applied(s: ThompsonState, j: nat, r: real): (s': ThompsonState)
    requires Shaped(s) && j < s.nArms
    ensures Shaped(s')
  {
    if r >= 1.0 then s.(alpha := s.alpha[j := s.alpha[j] + 1.0])
    else s.(beta := s.beta[j := s.beta[j] + 1.0])
  }

  /** The untouched prior. */
  predicate Cold(s: ThompsonState, j: nat)
    requires Shaped(s) && j < s.nArms
  {
    s.alpha[j] == 1.0 && s.beta[j] == 1.0
  }

  function Row(s: ThompsonState, samples: seq<real>): nat -> RankedArm
    requires Shaped(s) && |samples| == s.nArms
  {
    (j: nat) => if j < s.nArms then
        var mean := s.alpha[j] / (s.alpha[j] + s.beta[j]);
        var bonus := samples[j] - mean;
        RankedArm(j, samples[j], mean, bonus,
                  ["policy:thompson", if Cold(s, j) then "cold_start" else ExploreOrExploit(bonus, mean)])
      else RankedArm(j, 0.0, 0.0, 0.0, [])
  }

  function Ranked(s: ThompsonState, samples: seq<real>, mask: seq<bool>, exclude: seq<nat>): seq<RankedArm>
    requires Shaped(s) && |samples| == s.nArms
  {
    StableSort(ByScore, Rows(s.nArms, mask, exclude, Row(s, samples)))
  }

  function ApplyUpdate(s: ThompsonState, u: Update): (t: ThompsonState)
    requires Shaped(s)
    ensures Shaped(t) && t.nArms == s.nArms
  {
    if u.arm < s.nArms then Applied(s, u.arm, u.r) else s
  }

  function Trained(s: ThompsonState, us: seq<Update>): (t: ThompsonState)
    requires Shaped(s)
    ensures Shaped(t) && t.nArms == s.nArms
  {
    if us == [] then s else ApplyUpdate(Trained(s, us[..|us| - 1]), us[|us| - 1])
  }

  /** alpha-1 and beta-1 count clicks and non-clicks. */
  lemma {:induction false} ParametersCount(n: nat, us: seq<Update>, j: nat)
    requires j < n
    requires forall u :: u in us ==> u.r == 0.0 || u.r == 1.0
    ensures Trained(Fresh(n), us).alpha[j] == 1.0 + Clicks(us, j) as real
    ensures Trained(Fresh(n), us).beta[j] == 1.0 + (Pulls(us, j) - Clicks(us, j)) as real
  {
    if us != [] {
      assert us[|us| - 1] in us;
      ParametersCount(n, us[..|us| - 1], j);
    }
  }

  /** Evidence is conserved: whatever the rewards, alpha + beta counts the arm's updates. */
  lemma {:induction false} EvidenceCount(n: nat, us: seq<Update>, j: nat)
    requires j < n
    ensures Trained(Fresh(n), us).alpha[j] + Trained(Fresh(n), us).beta[j] == 2.0 + Pulls(us, j) as real
  {
    if us != [] {
      EvidenceCount(n, us[..|us| - 1], j);
    }
  }

  function Win(j: nat): Update -> real {
    (u: Update) => if u.arm == j && u.r >= 1.0 then 1.0 else 0.0
  }

  function Miss(j: nat): Update -> real {
    (u: Update) => if u.arm == j && u.r < 1.0 then 1.0 else 0.0
  }

  lemma {:induction false} ParametersAreSums(n: nat, us: seq<Update>, j: nat)
    requires j < n
    ensures Trained(Fresh(n), us).alpha[j] == 1.0 + SumBy(Win(j), us)
    ensures Trained(Fresh(n), us).beta[j] == 1.0 + SumBy(Miss(j), us)
  {
    if us != [] {
      ParametersAreSums(n, us[..|us| - 1], j);
    }
  }

  /** The posterior depends only on the multiset of updates. */
  lemma TrainingOrderIrrelevant(n: nat, us: seq<Update>, vs: seq<Update>)
    requires multiset(us) == multiset(vs)
    ensures Trained(Fresh(n), us) == Trained(Fresh(n), vs)
  {
    var s, t := Trained(Fresh(n), us), Trained(Fresh(n), vs);
    forall j | 0 <= j < n ensures s.alpha[j] == t.alpha[j] && s.beta[j] == t.beta[j] {
      ParametersAreSums(n, us, j);
      ParametersAreSums(n, vs, j);
      SumPermutation(Win(j), us, vs);
      SumPermutation(Miss(j), us, vs);
    }
    assert s.alpha == t.alpha && s.beta == t.beta;
  }

  /** Unlike LinUCB's, Thompson's cold start means that the arm was never updated. */
  lemma ColdMeansNeverUpdated(n: nat, us: seq<Update>, j: nat)
    requires j < n
    ensures Cold(Trained(Fresh(n), us), j) <==> Pulls(us, j) == 0
  {
    EvidenceCount(n, us, j);
  }

  class ThompsonSampling {
    var nArms: nat
    var alpha: array<real>
    var beta: array<real>

    ghost predicate Valid()
      reads this, alpha, beta
    {
      alpha != beta && alpha.Length == nArms && beta.Length == nArms && Shaped(GetState())
    }

    function GetState(): ThompsonState
      reads this, alpha, beta
    {
      ThompsonState(nArms, alpha[..], beta[..])
    }

    constructor (n: nat)
      ensures Valid() && fresh(alpha) && fresh(beta)
      ensures GetState() == Fresh(n)
    {
      nArms := n;
      alpha := new real[n](_ => 1.0);
      beta := new real[n](_ => 1.0);
      new;
      assert alpha[..] == Fresh(n).alpha && beta[..] == Fresh(n).beta;
    }

    constructor FromSaved(st: ThompsonState)
      requires Shaped(st)
      ensures Valid() && fresh(alpha) && fresh(beta)
      ensures GetState() == st
    {
      nArms := st.nArms;
      alpha := new real[|st.alpha|](i requires 0 <= i < |st.alpha| => st.alpha[i]);
      beta := new real[|st.beta|](i requires 0 <= i < |st.beta| => st.beta[i]);
      new;
      assert alpha[..] == st.alpha && beta[..] == st.beta;
    }

    method Rank(samples: seq<real>, mask: seq<bool>, exclude: seq<nat>) returns (ranked: seq<RankedArm>)
      requires Valid() && |samples| == nArms <= |mask|
      ensures ranked == Ranked(GetState(), samples, mask, exclude)
    {
      var rows: seq<RankedArm> := [];
      for j := 0 to nArms
        invariant rows == Rows(j, mask, exclude, Row(GetState(), samples))
      {
        if !mask[j] || j in exclude {
          continue;
        }
        assert GetState().alpha[j] >= 1.0 && GetState().beta[j] >= 1.0;
        var mean := alpha[j] / (alpha[j] + beta[j]);
        var bonus := samples[j] - mean;
        var cold := alpha[j] == 1.0 && beta[j] == 1.0;
        rows := rows + [RankedArm(j, samples[j], mean, bonus,
                                  ["policy:thompson", if cold then "cold_start" else ExploreOrExploit(bonus, mean)])];
      }
      ranked := StableSort(ByScore, rows);
    }

    method Update(j: nat, reward: real)
      requires Valid() && j < nArms
      modifies alpha, beta
      ensures Valid() && nArms == old(nArms)
      ensures GetState() == Applied(old(GetState()), j, reward)
    {
      assert GetState().alpha[j] >= 1.0 && GetState().beta[j] >= 1.0;
      if reward >= 1.0 {
        alpha[j] := alpha[j] + 1.0;
      } else {
        beta[j] := beta[j] + 1.0;
      }
      assert GetState() == Applied(old(GetState()), j, reward);
    }
  }

  lemma {:induction false} RowsAgree(n: nat, mask: seq<bool>, exclude: seq<nat>, f: nat -> RankedArm,
                                     g: nat -> RankedArm)
    requires forall i: nat :: i < n ==> f(i) == g(i)
    ensures Rows(n, mask, exclude, f) == Rows(n, mask, exclude, g)
  {
    if n > 0 {
      RowsAgree(n - 1, mask, exclude, f, g);
    }
  }

  lemma TrainedAppend(n: nat, us: seq<Update>, u: Update)
    ensures Trained(Fresh(n), us + [u]) == ApplyUpdate(Trained(Fresh(n), us), u)
  {
    assert (us + [u])[..|us|] == us;
  }

  /** A click and a miss leave one more of each. */
  lemma ClickAndMiss(n: nat, us: seq<Update>, click: Update, miss: Update)
    requires click.arm == miss.arm < n && click.r >= 1.0 && miss.r < 1.0
    ensures
      var s, t, j := Trained(Fresh(n), us), Trained(Fresh(n), us + [click] + [miss]), click.arm;
      t == s.(alpha := s.alpha[j := s.alpha[j] + 1.0], beta := s.beta[j := s.beta[j] + 1.0])
  {
    TrainedAppend(n, us, click);
    TrainedAppend(n, us + [click], miss);
    var s := Trained(Fresh(n), us);
    assert ApplyUpdate(s, click) == s.(alpha := s.alpha[click.arm := s.alpha[click.arm] + 1.0]);
  }

  /** Rankings do not determine weights: after one click and one miss of an arm, one more of each
      changes its weights, and with the same draws every ranking stays the same, scores, means,
      bonuses and reasons included. */
  lemma BalancedUpdatesInvisible(n: nat, click: Update, miss: Update, samples: seq<real>, mask: seq<bool>,
                                 exclude: seq<nat>)
    returns (before: seq<Update>, after: seq<Update>)
    requires click.arm == miss.arm < n && click.r >= 1.0 && miss.r < 1.0 && |samples| == n
    ensures after == before + [click, miss]
    ensures Trained(Fresh(n), after) != Trained(Fresh(n), before)
    ensures Ranked(Trained(Fresh(n), after), samples, mask, exclude)
         == Ranked(Trained(Fresh(n), before), samples, mask, exclude)
  {
    before := [] + [click] + [miss];
    after := before + [click] + [miss];
    ClickAndMiss(n, [], click, miss);
    ClickAndMiss(n, before, click, miss);
    assert Trained(Fresh(n), []) == Fresh(n);
    var s, t, j := Trained(Fresh(n), before), Trained(Fresh(n), after), click.arm;
    assert s.alpha[j] == s.beta[j] == 2.0 && t.alpha[j] == t.beta[j] == 3.0;
    RowsAgree(n, mask, exclude, Row(s, samples), Row(t, samples));
  }
}
