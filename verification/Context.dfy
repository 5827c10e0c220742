/** The context vector (models/context.py): bias, standardised numbers, segment one-hots. */
module Context {
  import opened Wrappers
  import opened Clients
  import opened LinearAlgebra

  const SEG_KEYS: seq<string> := [
    "SEG-JOVEM", "SEG-SENIOR", "SEG-ALTA-RENDA", "SEG-VIP", "SEG-CREDITO-ATIVO",
    "SEG-INVESTIDOR-EXPERIENTE", "SEG-PERFIL-FAMILIAR", "SEG-POUPADOR", "SEG-CONTRIBUINTE-IR",
    "SEG-INVESTIDOR-INICIANTE", "SEG-SEM-CARTAO", "SEG-PROPRIETARIO"]

  /** The saved dictionary; `segKeys` may be missing from an old state. */
  datatype SavedContext = SavedContext(ctxCols: seq<string>, segKeys: Option<seq<string>>, mu: seq<real>, sd: seq<real>)

  datatype ContextBuilder = ContextBuilder(ctxCols: seq<string>, segKeys: seq<string>, mu: seq<real>, sd: seq<real>)
  {
    function Dim(): nat {
      1 + |ctxCols| + |segKeys|
    }

    /** One standard deviation and one mean per column, none of the deviations zero. */
    predicate Valid() {
      |mu| == |sd| == |ctxCols| && forall i :: 0 <= i < |sd| ==> sd[i] != 0.0
    }

    function ToState(): SavedContext {
      SavedContext(ctxCols, Some(segKeys), mu, sd)
    }
  }

  /** The constructor: a zero deviation is replaced by one. */
  function Make(ctxCols: seq<string>, mu: seq<real>, sd: seq<real>, segKeys: Option<seq<string>>): (cb: ContextBuilder)
    requires |mu| == |sd| == |ctxCols|
    ensures cb.Valid()
  {
    ContextBuilder(ctxCols, if segKeys.Some? then segKeys.value else SEG_KEYS, mu,
                   seq(|sd|, i requires 0 <= i < |sd| => if sd[i] == 0.0 then 1.0 else sd[i]))
  }

  function FromState(st: SavedContext): ContextBuilder
    requires |st.mu| == |st.sd| == |st.ctxCols|
  {
    Make(st.ctxCols, st.mu, st.sd, st.segKeys)
  }

  /** The standardised numeric columns; `None` when a column is not a number. */
  function Numbers(cols: seq<string>, mu: seq<real>, sd: seq<real>, client: Client, parse: Parser): (v: Option<Vec>)
    requires |mu| == |sd| == |cols| && forall i :: 0 <= i < |sd| ==> sd[i] != 0.0
    ensures v.Some? ==> |v.value| == |cols|
  {
    if cols == [] then Some([])
    else
      var n := ToFloat(GetOr(client, cols[0], Num(0.0)), parse);
      var rest := Numbers(cols[1..], mu[1..], sd[1..], client, parse);
      if n.Some? && rest.Some? then Some([(n.value - mu[0]) / sd[0]] + rest.value) else None
  }

  function OneHots(keys: seq<string>, segments: seq<string>): (v: Vec)
    ensures |v| == |keys|
  {
    seq(|keys|, i requires 0 <= i < |keys| => if keys[i] in segments then 1.0 else 0.0)
  }

  function Build(cb: ContextBuilder, client: Client, segments: seq<string>, parse: Parser): (x: Option<Vec>)
    requires cb.Valid()
    ensures x.Some? ==> |x.value| == cb.Dim() && x.value[0] == 1.0
  {
    var num := Numbers(cb.ctxCols, cb.mu, cb.sd, client, parse);
    if num.Some? then Some([1.0] + num.value + OneHots(cb.segKeys, segments)) else None
  }

  /** Saving and reloading gives back the same builder: the zero-deviation guard is stable
      and the defaulted segment keys are written out. */
  lemma ContextRoundTrip(cb: ContextBuilder)
    requires cb.Valid()
    ensures FromState(cb.ToState()) == cb
  {
    assert FromState(cb.ToState()).sd == cb.sd;
  }

  /** Only the context columns of a client are looked at. */
  lemma {:induction false} NumbersLocal(cols: seq<string>, mu: seq<real>, sd: seq<real>, c1: Client, c2: Client,
                                        parse: Parser)
    requires |mu| == |sd| == |cols| && forall i :: 0 <= i < |sd| ==> sd[i] != 0.0
    requires forall k :: k in cols ==> Get(c1, k, Num(0.0)) == Get(c2, k, Num(0.0))
    ensures Numbers(cols, mu, sd, c1, parse) == Numbers(cols, mu, sd, c2, parse)
  {
    if cols != [] {
      assert cols[0] in cols && forall k :: k in cols[1..] ==> k in cols;
      NumbersLocal(cols[1..], mu[1..], sd[1..], c1, c2, parse);
    }
  }

  lemma {:induction false} NumbersAre(cols: seq<string>, mu: seq<real>, sd: seq<real>, client: Client, parse: Parser,
                                      i: nat)
    requires |mu| == |sd| == |cols| && forall k :: 0 <= k < |sd| ==> sd[k] != 0.0
    requires Numbers(cols, mu, sd, client, parse).Some? && i < |cols|
    ensures ToFloat(GetOr(client, cols[i], Num(0.0)), parse).Some?
    ensures Numbers(cols, mu, sd, client, parse).value[i]
         == (ToFloat(GetOr(client, cols[i], Num(0.0)), parse).value - mu[i]) / sd[i]
  {
    if i > 0 {
      NumbersAre(cols[1..], mu[1..], sd[1..], client, parse, i - 1);
    }
  }

  /** The layout of the vector: the bias, one standardised number per column, and one flag per
      segment key that is 1 exactly when the client is in that segment. */
  lemma BuildLayout(cb: ContextBuilder, client: Client, segments: seq<string>, parse: Parser, i: nat, k: nat)
    requires cb.Valid() && Build(cb, client, segments, parse).Some? && i < |cb.ctxCols| && k < |cb.segKeys|
    ensures
      var x := Build(cb, client, segments, parse).value;
      var n := ToFloat(GetOr(client, cb.ctxCols[i], Num(0.0)), parse);
      && |x| == cb.Dim() && x[0] == 1.0
      && n.Some? && x[1 + i] == (n.value - cb.mu[i]) / cb.sd[i]
      && (x[1 + |cb.ctxCols| + k] == 1.0 <==> cb.segKeys[k] in segments)
      && (x[1 + |cb.ctxCols| + k] == 0.0 <==> cb.segKeys[k] !in segments)
  {
    NumbersAre(cb.ctxCols, cb.mu, cb.sd, client, parse, i);
  }

  /** The whole vector depends on the client's context columns and on which segment keys are
      among its segments, and on nothing else. */
  lemma BuildLocal(cb: ContextBuilder, c1: Client, c2: Client, segs1: seq<string>, segs2: seq<string>, parse: Parser)
    requires cb.Valid()
    requires forall k :: k in cb.ctxCols ==> Get(c1, k, Num(0.0)) == Get(c2, k, Num(0.0))
    requires forall k :: k in cb.segKeys ==> (k in segs1 <==> k in segs2)
    ensures Build(cb, c1, segs1, parse) == Build(cb, c2, segs2, parse)
  {
    NumbersLocal(cb.ctxCols, cb.mu, cb.sd, c1, c2, parse);
    assert forall i :: 0 <= i < |cb.segKeys| ==> cb.segKeys[i] in cb.segKeys;
    assert OneHots(cb.segKeys, segs1) == OneHots(cb.segKeys, segs2);
  }
}
