/**
 * Width bookkeeping for the layer chains the agents are built from. A tensor is
 * described by its shape; an `nn.Sequential` is a chain of width-tagged layers, and
 * applying it either yields the output width or names the first `Linear` layer whose
 * declared input width differs from the width that reaches it. Only the zero-filled
 * output heads are modelled numerically, as dense layers over real matrices.
 */
module Layers {
  import opened Common

  /** A batch of `rows` row vectors, each `cols` wide. */
  datatype Shape = Shape(rows: nat, cols: nat)

  /** A batch of `batch` rows, each made of `parts` vectors `width` wide (a three-dimensional tensor). */
  datatype Shape3 = Shape3(batch: nat, parts: nat, width: nat)

  /** The layers the agents use, with the widths they are declared with. */
  datatype Layer = Linear(inW: nat, outW: nat) | ReLU | Tanh

  datatype Error =
      /** The `Linear` layer at position `layer` is declared for `expected` inputs but receives `got`. */
    | WidthMismatch(layer: nat, expected: nat, got: nat)
      /** `torch.cat` of tensors whose sizes differ outside the concatenated dimension. */
    | CatMismatch(left: nat, right: nat)
      /** The `len(neighbours_hx) == neighbours_n` assertion of the recurrent agents. */
    | NeighbourCount(expected: nat, got: nat)
      /** `hx` is still `None`: `init_hidden` has not been called. */
    | NoHiddenState

  datatype Result<T> = Ok(value: T) | Err(error: Error)
  {
    predicate IsFailure() { Err? }

    function PropagateFailure<U>(): Result<U>
      requires Err?
    {
      Err(error)
    }

    function Extract(): T
      requires Ok?
    {
      value
    }
  }

  /** The width the chain would produce if every layer fitted: the output width of its last `Linear`. */
  function Through(chain: seq<Layer>, w: nat): nat
  {
    if chain == [] then w
    else if chain[|chain| - 1].Linear? then chain[|chain| - 1].outW
    else Through(chain[..|chain| - 1], w)
  }

  /** Every `Linear` layer of the chain is declared for the width that reaches it. */
  predicate Fits(chain: seq<Layer>, w: nat)
  {
    forall i :: 0 <= i < |chain| && chain[i].Linear? ==> chain[i].inW == Through(chain[..i], w)
  }

  /** One layer at position `at`, applied to rows `w` wide. Activations keep the width. */
  function Step(l: Layer, at: nat, w: nat): Result<nat>
  {
    match l
    case Linear(inW, outW) => if inW == w then Ok(outW) else Err(WidthMismatch(at, inW, w))
    case _ => Ok(w)
  }

  /** `nn.Sequential(...)` applied to rows `w` wide: the output width, or the first layer that does not fit. */
  function Run(chain: seq<Layer>, w: nat): Result<nat>
  {
    if chain == [] then Ok(w)
    else
      var v :- Run(chain[..|chain| - 1], w);
      Step(chain[|chain| - 1], |chain| - 1, v)
  }

  /** A chain applied to a batch: the row count is kept, the width goes through the chain. */
  function Apply(chain: seq<Layer>, x: Shape): Result<Shape>
  {
    var w :- Run(chain, x.cols);
    Ok(Shape(x.rows, w))
  }

  /** `torch.cat((a, b), dim=1)`: the row counts must agree and the widths add up. */
  function Cat(a: Shape, b: Shape): Result<Shape>
  {
    if a.rows == b.rows then Ok(Shape(a.rows, a.cols + b.cols)) else Err(CatMismatch(a.rows, b.rows))
  }

  /** `t.flatten().unsqueeze(0)`: all entries of a batch in one row. */
  function FlatRow(x: Shape): Shape
  {
    Shape(1, x.rows * x.cols)
  }

  /**
   * The width checker is exact: a chain runs if and only if every `Linear` layer is
   * declared for the width reaching it, it then produces the width of its last
   * `Linear`, and otherwise it reports the first layer that does not fit, with the
   * width it was declared for and the width it received.
   */
  lemma {:induction false} RunMeaning(chain: seq<Layer>, w: nat)
    ensures Run(chain, w).Ok? <==> Fits(chain, w)
    ensures Run(chain, w).Ok? ==> Run(chain, w).value == Through(chain, w)
    ensures Run(chain, w).Err? ==>
      var e := Run(chain, w).error;
      && e.WidthMismatch? && e.layer < |chain| && chain[e.layer].Linear?
      && e.expected == chain[e.layer].inW && e.got == Through(chain[..e.layer], w)
      && e.expected != e.got && Fits(chain[..e.layer], w)
  {
    if chain != [] {
      var n := |chain| - 1;
      var init := chain[..n];
      RunMeaning(init, w);
      assert forall i :: 0 <= i < n ==> init[i] == chain[i] && init[..i] == chain[..i];
      assert chain[..n] == init;
      if Run(init, w).Err? {
        assert !Fits(chain, w);
      } else if chain[n].Linear? && chain[n].inW != Through(init, w) {
        assert !Fits(chain, w);
      } else {
        assert Fits(chain, w);
      }
    }
  }

  // ---------------------------------------------------------------------------
  // Numeric output heads

  type Matrix = seq<seq<real>>

  /** Every row of `m` is `cols` wide. */
  predicate Width(m: Matrix, cols: nat)
  {
    forall r :: 0 <= r < |m| ==> |m[r]| == cols
  }

  /** A `rows` × `cols` matrix of zeros (`torch.zeros(rows, cols)`). */
  function ZeroMatrix(rows: nat, cols: nat): (z: Matrix)
    ensures |z| == rows && Width(z, cols)
    ensures forall r, c :: 0 <= r < rows && 0 <= c < cols ==> z[r][c] == 0.0
  {
    seq(rows, _ => Zeros(cols))
  }

  /** An `nn.Linear(inW, outW)`: `weight` is `outW` rows of `inW` entries and `bias` has `outW` entries. */
  datatype Dense = Dense(weight: Matrix, bias: seq<real>)

  predicate DenseShaped(d: Dense, inW: nat, outW: nat)
  {
    |d.weight| == outW && Width(d.weight, inW) && |d.bias| == outW
  }

  function Dot(u: seq<real>, v: seq<real>): real
    requires |u| == |v|
  {
    if u == [] then 0.0 else Dot(u[..|u| - 1], v[..|v| - 1]) + u[|u| - 1] * v[|v| - 1]
  }

  /** The dense layer applied to every row: `x @ weight.T + bias`. */
  function ApplyDense(d: Dense, inW: nat, x: Matrix): (y: Matrix)
    requires DenseShaped(d, inW, |d.bias|) && Width(x, inW)
    ensures |y| == |x| && Width(y, |d.bias|)
  {
    seq(|x|, r requires 0 <= r < |x| =>
      seq(|d.bias|, o requires 0 <= o < |d.bias| => Dot(d.weight[o], x[r]) + d.bias[o]))
  }

  /** The layer after `weight.data.fill_(0)` and `bias.data.fill_(0)`. */
  function ZeroFilled(inW: nat, outW: nat): (d: Dense)
    ensures DenseShaped(d, inW, outW)
  {
    Dense(ZeroMatrix(outW, inW), Zeros(outW))
  }

  lemma {:induction false} DotZero(u: seq<real>, v: seq<real>)
    requires |u| == |v| && forall k :: 0 <= k < |u| ==> u[k] == 0.0
    ensures Dot(u, v) == 0.0
  {
    if u != [] {
      DotZero(u[..|u| - 1], v[..|v| - 1]);
    }
  }

  /** A zero-filled output head answers 0 for every input row, whatever the layers before it computed. */
  lemma {:induction false} ZeroHead(inW: nat, outW: nat, x: Matrix)
    requires Width(x, inW)
    ensures ApplyDense(ZeroFilled(inW, outW), inW, x) == ZeroMatrix(|x|, outW)
  {
    var d := ZeroFilled(inW, outW);
    var y := ApplyDense(d, inW, x);
    forall r, o | 0 <= r < |x| && 0 <= o < outW
      ensures y[r][o] == 0.0
    {
      DotZero(d.weight[o], x[r]);
    }
    assert forall r :: 0 <= r < |x| ==> y[r] == ZeroMatrix(|x|, outW)[r];
  }
}
