/**
  Reference definitions for stacking: the sum of a list of thicknesses, and the
  running tops obtained by laying the layers one on another from a base elevation.
*/
module Series {

  function Sum(ts: seq<real>): real
  {
    if ts == [] then 0.0 else ts[0] + Sum(ts[1..])
  }

  /** The top elevation of each layer when layers of thicknesses `ts` are stacked from `base`. */
  function Accumulate(base: real, ts: seq<real>): (tops: seq<real>)
    ensures |tops| == |ts|
    ensures ts != [] ==> tops[0] == base + ts[0]
    ensures forall i :: 0 < i < |ts| ==> tops[i] == tops[i - 1] + ts[i]
    decreases ts
  {
    if ts == [] then [] else [base + ts[0]] + Accumulate(base + ts[0], ts[1..])
  }

  /** The last running top is the base plus the total thickness. */
  lemma {:induction false} AccumulateLast(base: real, ts: seq<real>)
    requires ts != []
    ensures Accumulate(base, ts)[|ts| - 1] == base + Sum(ts)
    decreases ts
  {
    if |ts| > 1 {
      AccumulateLast(base + ts[0], ts[1..]);
    }
  }

  /** With no negative thickness the running tops never go down, and none is below the base. */
  lemma {:induction false} AccumulateMonotone(base: real, ts: seq<real>)
    requires forall i :: 0 <= i < |ts| ==> ts[i] >= 0.0
    ensures forall i :: 0 <= i < |ts| ==> base <= Accumulate(base, ts)[i]
    ensures forall i, j :: 0 <= i <= j < |ts| ==> Accumulate(base, ts)[i] <= Accumulate(base, ts)[j]
    decreases ts
  {
    if ts != [] {
      var rest := ts[1..];
      AccumulateMonotone(base + ts[0], rest);
      var tops := Accumulate(base, ts);
      assert tops[1..] == Accumulate(base + ts[0], rest);
      forall i, j | 0 <= i <= j < |ts|
        ensures tops[i] <= tops[j]
      {
        if 0 < i {
          assert tops[i] == tops[1..][i - 1] && tops[j] == tops[1..][j - 1];
        } else if 0 < j {
          assert tops[j] == tops[1..][j - 1];
        }
      }
    }
  }
}
