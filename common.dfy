/** Small value-level helpers shared by the training engine and the network layouts. */
module Common {

  datatype Option<T> = None | Some(value: T)

  /** Sum of a sequence of reals (Python's built-in `sum`). */
  function SumReal(s: seq<real>): real
  {
    if s == [] then 0.0 else SumReal(s[..|s| - 1]) + s[|s| - 1]
  }

  /** Sum of a sequence of widths. */
  function SumNat(s: seq<nat>): nat
  {
    if s == [] then 0 else SumNat(s[..|s| - 1]) + s[|s| - 1]
  }

  /** The arithmetic mean of a non-empty batch (`Tensor.mean()`). */
  function Mean(s: seq<real>): real
    requires |s| > 0
  {
    SumReal(s) / (|s| as real)
  }

  /** A list of `n` zeros. */
  function Zeros(n: nat): (r: seq<real>)
    ensures |r| == n && forall k :: 0 <= k < n ==> r[k] == 0.0
  {
    seq(n, _ => 0.0)
  }

  /** Concatenation of per-agent vectors into one row (`Tensor.flatten(1)` on one batch row). */
  function Flatten(xs: seq<seq<real>>): seq<real>
  {
    if xs == [] then [] else Flatten(xs[..|xs| - 1]) + xs[|xs| - 1]
  }

  /** The widths of the parts of a joint row. */
  function Widths(xs: seq<seq<real>>): (ws: seq<nat>)
    ensures |ws| == |xs| && forall k :: 0 <= k < |xs| ==> ws[k] == |xs[k]|
  {
    seq(|xs|, k requires 0 <= k < |xs| => |xs[k]|)
  }

  /** A flattened row is exactly as wide as the sum of the widths of its parts. */
  lemma {:induction false} FlattenWidth(xs: seq<seq<real>>)
    ensures |Flatten(xs)| == SumNat(Widths(xs))
  {
    if xs != [] {
      var init := xs[..|xs| - 1];
      FlattenWidth(init);
      assert Widths(xs)[..|xs| - 1] == Widths(init);
    }
  }

  /** Each part of a flattened row sits, unchanged, at the offset given by the widths before it. */
  lemma {:induction false} FlattenPart(xs: seq<seq<real>>, k: nat)
    requires k < |xs|
    ensures SumNat(Widths(xs[..k])) + |xs[k]| <= |Flatten(xs)|
    ensures Flatten(xs)[SumNat(Widths(xs[..k]))..SumNat(Widths(xs[..k])) + |xs[k]|] == xs[k]
  {
    var init := xs[..|xs| - 1];
    if k == |xs| - 1 {
      FlattenWidth(init);
      assert xs[..k] == init;
    } else {
      FlattenPart(init, k);
      assert init[..k] == xs[..k];
    }
  }
}
