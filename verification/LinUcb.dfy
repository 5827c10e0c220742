/** The LinUCB arm model (models/linucb.py): incremental inverse, scores and ranking. */
module LinUcb {
  import opened LinearAlgebra
  import opened ShermanMorrison
  import opened Ranking
  import opened Sorting
  import opened Wrappers

  datatype LinUcbState = LinUcbState(
    nArms: nat, d: nat, scale: real, lam: real,
    alpha: seq<real>, AInv: seq<Mat>, b: seq<Vec>)

  /** One applied observation: the context and the reward. */
  datatype Obs = Obs(x: Vec, r: real)

  predicate Shaped(s: LinUcbState) {
    && |s.alpha| == |s.AInv| == |s.b| == s.nArms
    && (forall j :: 0 <= j < s.nArms ==> Square(s.AInv[j], s.d))
    && (forall j :: 0 <= j < s.nArms ==> |s.b[j]| == s.d)
  }

  function Fresh(exploration: seq<real>, d: nat, scale: real, lam: real): (s: LinUcbState)
    requires lam > 0.0
    ensures Shaped(s)
  {
    var n := |exploration|;
    LinUcbState(n, d, scale, lam,
                seq(n, j requires 0 <= j < n => exploration[j] * scale),
                seq(n, _ => ScaledIdentity(d, 1.0 / lam)),
                seq(n, _ => Zero(d)))
  }

  /** The divisor of the update; `Kernel.DivisorAtLeastOne` shows it never gets near zero. */
  function Divisor(s: LinUcbState, j: nat, x: Vec): real
    requires Shaped(s) && j < s.nArms && |x| == s.d
  {
    1.0 + Quad(s.AInv[j], x)
  }

  function Applied(s: LinUcbState, j: nat, x: Vec, r: real): (s': LinUcbState)
    requires Shaped(s) && j < s.nArms && |x| == s.d
    requires Divisor(s, j, x) != 0.0
    ensures Shaped(s')
  {
    s.(AInv := s.AInv[j := Downdate(s.AInv[j], x)], b := s.b[j := Axpy(r, x, s.b[j])])
  }

  // ---------------------------------------------------------------- scoring

  function Theta(s: LinUcbState, j: nat): (theta: Vec)
    requires Shaped(s) && j < s.nArms
    ensures |theta| == s.d
  {
    MatVec(s.AInv[j], s.b[j])
  }

  function Prediction(s: LinUcbState, j: nat, x: Vec): real
    requires Shaped(s) && j < s.nArms && |x| == s.d
  {
    Dot(Theta(s, j), x)
  }

  function Floored(v: real): real {
    if v < 0.000000001 then 0.000000001 else v
  }

  /** `root` stands for the square root. */
  function Bonus(s: LinUcbState, j: nat, x: Vec, root: real -> real): real
    requires Shaped(s) && j < s.nArms && |x| == s.d
  {
    s.alpha[j] * root(Floored(Quad(s.AInv[j], x)))
  }

  /** b[j] is still all zeros. */
  predicate Cold(s: LinUcbState, j: nat)
    requires Shaped(s) && j < s.nArms
  {
    s.b[j] == Zero(s.d)
  }

  function Reasons(s: LinUcbState, j: nat, pred: real, bonus: real): seq<string>
    requires Shaped(s) && j < s.nArms
  {
    ["policy:linucb", if Cold(s, j) then "cold_start" else ExploreOrExploit(bonus, pred)]
  }

  /** The row of arm j; arms past the end do not occur in a ranking. */
  function Row(s: LinUcbState, x: Vec, root: real -> real): nat -> RankedArm
    requires Shaped(s) && |x| == s.d
  {
    (j: nat) => if j < s.nArms then
        var pred, bonus := Prediction(s, j, x), Bonus(s, j, x, root);
        RankedArm(j, pred + bonus, pred, bonus, Reasons(s, j, pred, bonus))
      else RankedArm(j, 0.0, 0.0, 0.0, [])
  }

  function Ranked(s: LinUcbState, x: Vec, mask: seq<bool>, exclude: seq<nat>, root: real -> real): seq<RankedArm>
    requires Shaped(s) && |x| == s.d
  {
    StableSort(ByScore, Rows(s.nArms, mask, exclude, Row(s, x, root)))
  }

  // ---------------------------------------------------------------- serialisation

  /** `from_state` divides alpha by the scale and the constructor multiplies it back; a
      ZeroDivisionError (`None`) needs a zero scale and at least one arm. */
  function FromState(st: LinUcbState): Option<LinUcbState> {
    if st.scale == 0.0 && st.alpha != [] then None
    else Some(st.(alpha := seq(|st.alpha|, j requires 0 <= j < |st.alpha| => (st.alpha[j] / st.scale) * st.scale)))
  }

  /** A model survives being saved and reloaded exactly when its scale is not zero (or it has
      no arms), and then it comes back unchanged. */
  lemma StateRoundTrip(s: LinUcbState)
    ensures s.scale != 0.0 || s.alpha == [] ==> FromState(s) == Some(s)
    ensures s.scale == 0.0 && s.alpha != [] ==> FromState(s) == None
  {
    if s.scale != 0.0 || s.alpha == [] {
      var back := FromState(s).value;
      forall j | 0 <= j < |s.alpha| ensures back.alpha[j] == s.alpha[j] {
        DivideThenMultiply(s.alpha[j], s.scale);
      }
      assert back.alpha == s.alpha;
    }
  }

  lemma DivideThenMultiply(a: real, c: real)
    requires c != 0.0
    ensures (a / c) * c == a
  {
  }

  // ---------------------------------------------------------------- the class

  class LinUCB {
    var nArms: nat
    var d: nat
    var scale: real
    var lam: real
    var alpha: seq<real>
    var AInv: seq<Mat>
    var b: seq<Vec>

    function GetState(): LinUcbState
      reads this
    {
      LinUcbState(nArms, d, scale, lam, alpha, AInv, b)
    }

    constructor (exploration: seq<real>, d: nat, scale: real, lam: real)
      requires lam > 0.0
      ensures GetState() == Fresh(exploration, d, scale, lam)
    {
      var n := |exploration|;
      this.nArms, this.d, this.scale, this.lam := n, d, scale, lam;
      this.alpha := seq(n, j requires 0 <= j < n => exploration[j] * scale);
      this.AInv := seq(n, _ => ScaledIdentity(d, 1.0 / lam));
      this.b := seq(n, _ => Zero(d));
    }

    constructor FromSaved(st: LinUcbState)
      requires FromState(st).Some?
      ensures GetState() == FromState(st).value
    {
      this.nArms, this.d, this.scale, this.lam := st.nArms, st.d, st.scale, st.lam;
      this.alpha := FromState(st).value.alpha;
      this.AInv, this.b := st.AInv, st.b;
    }

    method Rank(x: Vec, mask: seq<bool>, exclude: seq<nat>, root: real -> real) returns (ranked: seq<RankedArm>)
      requires Shaped(GetState()) && |x| == d && nArms <= |mask|
      ensures ranked == Ranked(GetState(), x, mask, exclude, root)
    {
      var rows: seq<RankedArm> := [];
      for j := 0 to nArms
        invariant rows == Rows(j, mask, exclude, Row(GetState(), x, root))
      {
        if !mask[j] || j in exclude {
          continue;
        }
        var pred := Dot(MatVec(AInv[j], b[j]), x);
        var bonus := alpha[j] * root(Floored(Dot(x, MatVec(AInv[j], x))));
        assert Row(GetState(), x, root)(j).score == pred + bonus;
        rows := rows + [RankedArm(j, pred + bonus, pred, bonus, Reasons(GetState(), j, pred, bonus))];
      }
      ranked := StableSort(ByScore, rows);
    }

    method Update(j: nat, reward: real, x: Vec)
      requires Shaped(GetState()) && j < nArms && |x| == d && Divisor(GetState(), j, x) != 0.0
      modifies this
      ensures GetState() == Applied(old(GetState()), j, x, reward)
    {
      var Ax := MatVec(AInv[j], x);
      AInv := AInv[j := AddOuter(AInv[j], -1.0 / (1.0 + Dot(x, Ax)), Ax)];
      b := b[j := Axpy(reward, x, b[j])];
    }
  }
}
