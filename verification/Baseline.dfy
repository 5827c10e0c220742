/** The rule-based baseline (models/baseline.py). */
module Baseline {
  import opened Wrappers
  import opened Clients
  import opened Ranking
  import opened Sorting

  /** The business rules, first match wins; `None` when the income is not a number. */
  function TargetCategory(client: Client, segments: seq<string>, parse: Parser): Option<string> {
    var income := ToFloat(GetOr(client, INCOME, Num(0.0)), parse);
    if income == None then None
    else if Get(client, "segmento", Text("")) == Text("01 - ALTA RENDA") then Some("investimento")
    else if "SEG-VIP" in segments then Some("investimento")
    else if "SEG-INVESTIDOR-EXPERIENTE" in segments then Some("investimento")
    else if "SEG-SENIOR" in segments || "SEG-PROPRIETARIO" in segments then Some("seguro")
    else if "SEG-CREDITO-ATIVO" in segments || "SEG-SEM-CARTAO" in segments then Some("credito")
    else if "SEG-JOVEM" in segments then Some("credito")
    else if "SEG-PERFIL-FAMILIAR" in segments then Some("seguro")
    else if income.value > 80000.0 then Some("investimento")
    else Some("credito")
  }

  function Row(categories: seq<string>, target: string): nat -> RankedArm {
    (j: nat) => if j < |categories| then
        var score := if categories[j] == target then 1.0 else 0.0;
        RankedArm(j, score, score, 0.0, ["policy:baseline", "target_category:" + target])
      else RankedArm(j, 0.0, 0.0, 0.0, [])
  }

  function Ranked(categories: seq<string>, target: string, mask: seq<bool>, exclude: seq<nat>): seq<RankedArm> {
    StableSort(ByScoreThenArm, Rows(|categories|, mask, exclude, Row(categories, target)))
  }

  class DeterministicBaseline {
    const armCategories: seq<string>

    constructor (categories: seq<string>)
      ensures armCategories == categories
    {
      armCategories := categories;
    }

    method Rank(client: Client, segments: seq<string>, mask: seq<bool>, exclude: seq<nat>, parse: Parser)
      returns (ranked: Option<seq<RankedArm>>)
      requires |armCategories| <= |mask|
      ensures ranked.Some? <==> TargetCategory(client, segments, parse).Some?
      ensures ranked.Some? ==>
                ranked.value == Ranked(armCategories, TargetCategory(client, segments, parse).value, mask, exclude)
    {
      var category := TargetCategory(client, segments, parse);
      if category == None {
        return None;
      }
      var target := category.value;
      var rows: seq<RankedArm> := [];
      for j := 0 to |armCategories|
        invariant rows == Rows(j, mask, exclude, Row(armCategories, target))
      {
        if !mask[j] || j in exclude {
          continue;
        }
        var score := if armCategories[j] == target then 1.0 else 0.0;
        rows := rows + [RankedArm(j, score, score, 0.0, ["policy:baseline", "target_category:" + target])];
      }
      return Some(StableSort(ByScoreThenArm, rows));
    }
  }

  /** The target category comes first: every arm of it is listed before every arm outside it,
      and inside each group the catalogue order is kept. */
  lemma TargetFirst(categories: seq<string>, target: string, mask: seq<bool>, exclude: seq<nat>, i: nat, k: nat)
    requires i < k < |Ranked(categories, target, mask, exclude)|
    ensures
      var a, b := Ranked(categories, target, mask, exclude)[i].arm, Ranked(categories, target, mask, exclude)[k].arm;
      && a < |categories| && b < |categories|
      && (categories[b] == target ==> categories[a] == target)
      && ((categories[a] == target <==> categories[b] == target) ==> a < b)
  {
    var ranked := Ranked(categories, target, mask, exclude);
    SortedRowsContract(ByScoreThenArm, |categories|, mask, exclude, Row(categories, target));
    assert ranked[i] in ranked && ranked[k] in ranked;
    assert Precedes(ranked[i], ranked[k]);
  }
}
