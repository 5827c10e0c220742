/** The auditable block of a ranking (audit.py). */
module Audit {
  import opened Wrappers
  import opened Clients
  import opened Catalog
  import opened Sorting

  const PROTECTED_ATTRIBUTES: seq<string> := ["sexo"]
  const MONITORED_ATTRIBUTES: seq<string> := [INCOME]

  datatype AuditBlock = AuditBlock(
    features: map<string, real>, segments: seq<string>, incomePercentile: real,
    eligible: seq<string>, excluded: seq<string>, monitored: seq<string>)

  function StripProtected(client: Client): Client {
    map k | k in client && k !in PROTECTED_ATTRIBUTES :: client[k]
  }

  /** Anything that is not a number becomes 0. */
  function Numeric(v: Value, parse: Parser): real {
    match ToFloat(v, parse)
    case Some(n) => n
    case None => 0.0
  }

  predicate StringLeq(a: string, b: string) {
    !StringLess(b, a)
  }

  /** `segments or client.get("segmentos_sinteticos") or []`, iterated; `None` is a TypeError. */
  function SegmentList(client: Client, segments: seq<string>): Option<seq<string>> {
    if segments != [] then Some(segments)
    else match GetOr(client, SEGMENTS, Items([]))
      case Items(xs) => Some(xs)
      case Text(s) => Some(seq(|s|, i requires 0 <= i < |s| => [s[i]]))
      case _ => None
  }

  function Build(client: Client, segments: seq<string>, ctxCols: seq<string>, percentile: real,
                 eligible: seq<string>, parse: Parser): Option<AuditBlock> {
    var listed := SegmentList(client, segments);
    if listed == None then None
    else Some(AuditBlock(
                map c | c in ctxCols :: Numeric(Get(client, c, Null), parse),
                StableSort(StringLeq, listed.value),
                percentile,
                StableSort(StringLeq, eligible),
                PROTECTED_ATTRIBUTES, MONITORED_ATTRIBUTES))
  }

  /** The protected value cannot reach anything computed from a stripped client. */
  lemma StripForgets(c1: Client, c2: Client)
    requires forall k :: k !in PROTECTED_ATTRIBUTES ==> (k in c1 <==> k in c2) && (k in c1 ==> c1[k] == c2[k])
    ensures StripProtected(c1) == StripProtected(c2)
    ensures forall k :: k in PROTECTED_ATTRIBUTES ==> k !in StripProtected(c1)
  {
    forall k ensures k in StripProtected(c1) <==> k in StripProtected(c2) {
    }
  }

  lemma {:induction false} StringsTotal(a: string, b: string)
    ensures StringLess(a, b) || StringLess(b, a) || a == b
    ensures !(StringLess(a, b) && StringLess(b, a))
  {
    if a != [] && b != [] && a[0] == b[0] {
      StringsTotal(a[1..], b[1..]);
    }
  }

  lemma {:induction false} StringsTransitive(a: string, b: string, c: string)
    requires StringLeq(a, b) && StringLeq(b, c)
    ensures StringLeq(a, c)
  {
    if a != [] && b != [] && c != [] && a[0] == b[0] == c[0] {
      StringsTransitive(a[1..], b[1..], c[1..]);
    }
  }

  /** The audit's lists are sorted rearrangements of what they record. */
  lemma ListsAreSorted(client: Client, segments: seq<string>, ctxCols: seq<string>, percentile: real,
                       eligible: seq<string>, parse: Parser)
    requires Build(client, segments, ctxCols, percentile, eligible, parse).Some?
    ensures
      var block := Build(client, segments, ctxCols, percentile, eligible, parse).value;
      && multiset(block.eligible) == multiset(eligible)
      && multiset(block.segments) == multiset(SegmentList(client, segments).value)
      && (forall i, k :: 0 <= i < k < |block.eligible| ==> StringLeq(block.eligible[i], block.eligible[k]))
      && (forall i, k :: 0 <= i < k < |block.segments| ==> StringLeq(block.segments[i], block.segments[k]))
  {
    forall a: string, b: string ensures StringLeq(a, b) || StringLeq(b, a) {
      StringsTotal(a, b);
    }
    forall a: string, b: string, c: string | StringLeq(a, b) && StringLeq(b, c) ensures StringLeq(a, c) {
      StringsTransitive(a, b, c);
    }
    var listed := SegmentList(client, segments).value;
    SortOrders(StringLeq, eligible);
    SortOrders(StringLeq, listed);
    SortMultiset(StringLeq, eligible);
    SortMultiset(StringLeq, listed);
  }

  /** The numbers of the block: for every context column, and no other name, what the client has in it,
      with 0 for what is no number; and the percentile as given. */
  lemma BlockRecords(c: Client, segments: seq<string>, ctxCols: seq<string>, percentile: real, eligible: seq<string>,
                     parse: Parser)
    requires Build(c, segments, ctxCols, percentile, eligible, parse).Some?
    ensures
      var block := Build(c, segments, ctxCols, percentile, eligible, parse).value;
      && (forall k :: k in block.features <==> k in ctxCols)
      && (forall k :: k in ctxCols && k in c && c[k].Num? ==> block.features[k] == c[k].n)
      && (forall k :: k in ctxCols && (k !in c || c[k].Null? || c[k].Items?) ==> block.features[k] == 0.0)
      && block.incomePercentile == percentile
      && block.excluded == ["sexo"] && block.monitored == ["renda_estimada_anual_brl"]
  {
  }

  /** Which segments are audited: the given ones; without any, the client's own list; without that, none. */
  lemma SegmentsAre(client: Client, segments: seq<string>)
    ensures segments != [] ==> SegmentList(client, segments) == Some(segments)
    ensures segments == [] && SEGMENTS in client && client[SEGMENTS].Items? ==>
              SegmentList(client, segments) == Some(client[SEGMENTS].xs)
    ensures segments == [] && (SEGMENTS !in client || client[SEGMENTS].Null?) ==>
              SegmentList(client, segments) == Some([])
  {
  }
}
