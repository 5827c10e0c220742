/** Ranked arms and the order every model returns them in (models/base.py). */
module Ranking {
  import opened Sorting

  datatype RankedArm = RankedArm(arm: nat, score: real, pred: real, bonus: real, reasons: seq<string>)

  function Abs(r: real): real {
    if r < 0.0 then -r else r
  }

  /** Does the uncertainty bonus dominate the prediction? */
  function ExploreOrExploit(bonus: real, pred: real): string {
    if bonus > Abs(pred) then "explore" else "exploit"
  }

  predicate Kept(j: nat, mask: seq<bool>, exclude: seq<nat>) {
    j < |mask| && mask[j] && j !in exclude
  }

  /** The rows of the arms below n that are eligible and not excluded, in catalogue order. */
  function Rows(n: nat, mask: seq<bool>, exclude: seq<nat>, row: nat -> RankedArm): seq<RankedArm> {
    if n == 0 then []
    else Rows(n - 1, mask, exclude, row) + if Kept(n - 1, mask, exclude) then [row(n - 1)] else []
  }

  /** key = -score */
  predicate ByScore(a: RankedArm, b: RankedArm) {
    a.score >= b.score
  }

  /** key = (-score, arm_index) */
  predicate ByScoreThenArm(a: RankedArm, b: RankedArm) {
    a.score > b.score || (a.score == b.score && a.arm <= b.arm)
  }

  predicate Precedes(a: RankedArm, b: RankedArm) {
    a.score > b.score || (a.score == b.score && a.arm < b.arm)
  }

  /** Scores never increase and ties are in catalogue order. */
  predicate Canonical(s: seq<RankedArm>) {
    forall i, k :: 0 <= i < k < |s| ==> Precedes(s[i], s[k])
  }

  predicate Ascending(s: seq<RankedArm>) {
    forall i, k :: 0 <= i < k < |s| ==> s[i].arm < s[k].arm
  }

  /** What a ranking promises: every kept arm exactly once, in canonical order. */
  ghost predicate Contract(ranked: seq<RankedArm>, n: nat, mask: seq<bool>, exclude: seq<nat>, row: nat -> RankedArm) {
    && Canonical(ranked)
    && (forall r :: r in ranked ==> r.arm < n && Kept(r.arm, mask, exclude) && r == row(r.arm))
    && (forall j: nat :: j < n && Kept(j, mask, exclude) ==> row(j) in ranked)
    && (forall i, k :: 0 <= i < k < |ranked| ==> ranked[i].arm != ranked[k].arm)
  }

  lemma {:induction false} RowsMembers(n: nat, mask: seq<bool>, exclude: seq<nat>, row: nat -> RankedArm)
    requires forall j: nat :: row(j).arm == j
    ensures Ascending(Rows(n, mask, exclude, row))
    ensures forall r :: r in Rows(n, mask, exclude, row) ==> r.arm < n && Kept(r.arm, mask, exclude) && r == row(r.arm)
    ensures forall j: nat :: j < n && Kept(j, mask, exclude) ==> row(j) in Rows(n, mask, exclude, row)
  {
    if n > 0 {
      RowsMembers(n - 1, mask, exclude, row);
      var shorter := Rows(n - 1, mask, exclude, row);
      assert forall i :: 0 <= i < |shorter| ==> shorter[i] in shorter;
    }
  }

  lemma {:induction false} InsertCanonical(before: (RankedArm, RankedArm) -> bool, x: RankedArm, s: seq<RankedArm>)
    requires before == ByScore || before == ByScoreThenArm
    requires Canonical(s) && forall r :: r in s ==> x.arm < r.arm
    ensures Canonical(Insert(before, x, s))
  {
    var t := Insert(before, x, s);
    if s == [] {
    } else if before(x, s[0]) {
      forall k | 0 <= k < |s| ensures Precedes(x, s[k]) {
        assert s[k] in s;
        assert k > 0 ==> Precedes(s[0], s[k]);
      }
    } else {
      assert s[0] in s;
      InsertCanonical(before, x, s[1..]);
      InsertMultiset(before, x, s[1..]);
      forall k | 1 <= k < |t| ensures Precedes(t[0], t[k]) {
        assert t[k] in multiset(t[1..]);
        assert t[k] == x || t[k] in s[1..];
      }
    }
  }

  lemma {:induction false} SortCanonical(before: (RankedArm, RankedArm) -> bool, s: seq<RankedArm>)
    requires before == ByScore || before == ByScoreThenArm
    requires Ascending(s)
    ensures Canonical(StableSort(before, s))
  {
    if s != [] {
      SortCanonical(before, s[1..]);
      SortMembers(before, s[1..]);
      InsertCanonical(before, s[0], StableSort(before, s[1..]));
    }
  }

  /** A stable sort of rows in catalogue order keeps the contract, for either key. */
  lemma SortedRowsContract(before: (RankedArm, RankedArm) -> bool, n: nat, mask: seq<bool>, exclude: seq<nat>,
                           row: nat -> RankedArm)
    requires before == ByScore || before == ByScoreThenArm
    requires forall j: nat :: row(j).arm == j
    ensures Contract(StableSort(before, Rows(n, mask, exclude, row)), n, mask, exclude, row)
  {
    var rows := Rows(n, mask, exclude, row);
    RowsMembers(n, mask, exclude, row);
    SortCanonical(before, rows);
    SortMembers(before, rows);
    var ranked := StableSort(before, rows);
    forall i, k | 0 <= i < k < |ranked| ensures ranked[i].arm != ranked[k].arm {
      assert ranked[i] in ranked && ranked[k] in ranked && Precedes(ranked[i], ranked[k]);
    }
  }

  /** The contract leaves no freedom: two rankings that keep it are the same list, so
      neither the sort algorithm nor the choice between the two keys matters. */
  lemma {:induction false} ContractDetermines(s: seq<RankedArm>, t: seq<RankedArm>)
    requires Canonical(s) && Canonical(t)
    requires forall r :: r in s <==> r in t
    ensures s == t
  {
    assert s != [] ==> s[0] in s;
    assert t != [] ==> t[0] in t;
    if s != [] && t != [] {
      assert s[0] == t[0];
      forall r ensures r in s[1..] <==> r in t[1..] {
        TailMembers(s, r);
        TailMembers(t, r);
      }
      ContractDetermines(s[1..], t[1..]);
      assert s == [s[0]] + s[1..] && t == [t[0]] + t[1..];
    }
  }

  lemma TailMembers(s: seq<RankedArm>, r: RankedArm)
    requires s != [] && Canonical(s)
    ensures r in s[1..] <==> r in s && r != s[0]
  {
    if r in s[1..] {
      var k :| 0 <= k < |s[1..]| && s[1..][k] == r;
      assert Precedes(s[0], s[k + 1]);
    }
  }
}
