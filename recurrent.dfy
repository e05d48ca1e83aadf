/**
 * The recurrent agents of the grid example (ACCAgent, ACHACAgent, SIHAAgent and
 * SIHCAAgent, all built on LSTMAgentBase) and their containers. Each agent owns a
 * mutable pair of LSTM states `hx`/`cx` that starts unset, is zeroed by
 * `init_hidden`, advanced by `get_thought` and cut from its history by
 * `hidden_detach`. What `forward` and `critic` feed into the heads is checked on
 * shapes, branching on the number of neighbours as the source does.
 */
module Recurrent {
  import opened Common
  import opened Layers
  import opened Networks

  /** The recurrent agent classes. */
  datatype Kind = Acc | Achac | Siha | Sihca

  /**
   * The layer widths of a recurrent agent. For SIHCA, `critic` stands for both
   * heads of SIHCA_Critic, which are declared with the same input width.
   */
  datatype Layout = Layout(
    kind: Kind,
    neighboursN: nat,
    obsSpace: nat,
    actionSpace: nat,
    xLayer: seq<Layer>,
    pi: seq<Layer>,
    critic: seq<Layer>)

  /** The observation encoder every recurrent agent declares in front of `LSTMCell(32, hidden_size)`. */
  function XLayer(obsSpace: nat): seq<Layer>
  {
    [Linear(obsSpace, 64), ReLU, Linear(64, 32), ReLU]
  }

  /** The layouts exactly as the four constructors declare them for an agent among `nAgents`. */
  function LayoutAsWritten(kind: Kind, obsSpace: nat, nAgents: nat, actionSpace: nat): Layout
    requires nAgents >= 1
  {
    var h := HiddenSize;
    var nN := nAgents - 1;
    match kind
    case Acc => Layout(kind, nN, obsSpace, actionSpace, XLayer(obsSpace), [Linear(h * nAgents, actionSpace)], [Linear(h * nAgents, 1)])
    case Achac => Layout(kind, nN, obsSpace, actionSpace, XLayer(obsSpace), [Linear(h * nAgents, actionSpace)], [Linear(h * nAgents + nN, 1)])
    case Siha => Layout(kind, nN, obsSpace, actionSpace, XLayer(obsSpace), [Linear(h * 2, actionSpace)], [Linear(h * 2 + nN, 1)])
    case Sihca => Layout(kind, nN, obsSpace, actionSpace, XLayer(obsSpace), [Linear(h * 2, actionSpace)], [Linear(h + nAgents, 1)])
  }

  /**
   * The layouts with the lone-agent case of SIHA and SIHCA corrected: without
   * neighbours `forward` (and SIHA's `critic`) passes `hx` alone, so the heads that
   * receive it are declared `hidden_size` wide.
   */
  function NewLayout(kind: Kind, obsSpace: nat, nAgents: nat, actionSpace: nat): Layout
    requires nAgents >= 1
  {
    var written := LayoutAsWritten(kind, obsSpace, nAgents, actionSpace);
    if kind == Siha && nAgents == 1 then written.(pi := [Linear(HiddenSize, actionSpace)], critic := [Linear(HiddenSize, 1)])
    else if kind == Sihca && nAgents == 1 then written.(pi := [Linear(HiddenSize, actionSpace)])
    else written
  }

  /**
   * The `x` of `forward`. ACC and ACHAC first assert that one thought per neighbour
   * was passed. Without neighbours `x` is `hx`; otherwise `hx` is joined with the
   * neighbours' thoughts flattened into one row (ACC, ACHAC) or with the global
   * thought (SIHA, SIHCA).
   */
  function PolicyInput(l: Layout, hx: Result<Shape>, others: Shape): Result<Shape>
  {
    if (l.kind == Acc || l.kind == Achac) && others.rows != l.neighboursN then Err(NeighbourCount(l.neighboursN, others.rows))
    else
      var h :- hx;
      if l.neighboursN == 0 then Ok(h)
      else if l.kind == Acc || l.kind == Achac then Cat(h, FlatRow(others))
      else Cat(h, others)
  }

  /** `forward`'s policy logits, `pi(x)`. */
  function Policy(l: Layout, hx: Result<Shape>, others: Shape): Result<Shape>
  {
    var x :- PolicyInput(l, hx, others);
    Apply(l.pi, x)
  }

  /**
   * What the critic scores. ACC scores `forward`'s own `x`. ACHAC and SIHA join the
   * neighbours' actions, as one row, after the thoughts when there are neighbours, and
   * score `hx` alone otherwise. SIHCA scores the global thought beside the global
   * action and does not read `hx`.
   */
  function CriticInput(l: Layout, hx: Result<Shape>, others: Shape, actions: nat): Result<Shape>
  {
    match l.kind
    case Acc => PolicyInput(l, hx, others)
    case Achac =>
      var h :- hx;
      if l.neighboursN == 0 then Ok(h)
      else
        var x :- Cat(h, FlatRow(others));
        Cat(x, Shape(1, actions))
    case Siha =>
      var h :- hx;
      if l.neighboursN == 0 then Ok(h)
      else
        var x :- Cat(h, others);
        Cat(x, Shape(1, actions))
    case Sihca => Cat(others, Shape(1, actions))
  }

  /** The critic's value, `critic(x)` / `_critic(x)`. */
  function Value(l: Layout, hx: Result<Shape>, others: Shape, actions: nat): Result<Shape>
  {
    var x :- CriticInput(l, hx, others, actions);
    Apply(l.critic, x)
  }

  lemma {:induction false} SingleLinear(inW: nat, outW: nat, x: Shape)
    ensures Apply([Linear(inW, outW)], x) == if x.cols == inW then Ok(Shape(x.rows, outW)) else Err(WidthMismatch(0, inW, x.cols))
  {
    RunMeaning([Linear(inW, outW)], x.cols);
    assert [Linear(inW, outW)][..0] == [];
  }

  lemma {:induction false} CancelFactor(k: nat, a: nat, b: nat)
    requires k > 0 && k * a == k * b
    ensures a == b
  {
  }

  /**
   * ACCAgent.forward: with a hidden state of width `hidden_size`, the policy and the
   * critic accept exactly one thought per neighbour, and with neighbours a single
   * batch row and 32-wide thoughts, because `hidden + (n - 1) * hidden` is the declared
   * `hidden * n_agents`. They then give the logits and one value per row.
   */
  lemma {:induction false} AccShapes(obsSpace: nat, nAgents: nat, actionSpace: nat, rows: nat, others: Shape, actions: nat)
    requires nAgents >= 1
    ensures var l := NewLayout(Acc, obsSpace, nAgents, actionSpace);
      && (Policy(l, Ok(Shape(rows, HiddenSize)), others).Ok? <==>
            others.rows == nAgents - 1 && (nAgents >= 2 ==> rows == 1 && others.cols == HiddenSize))
      && (Policy(l, Ok(Shape(rows, HiddenSize)), others).Ok? ==>
            && Policy(l, Ok(Shape(rows, HiddenSize)), others) == Ok(Shape(rows, actionSpace))
            && Value(l, Ok(Shape(rows, HiddenSize)), others, actions) == Ok(Shape(rows, 1)))
  {
    var l := NewLayout(Acc, obsSpace, nAgents, actionSpace);
    var hx := Ok(Shape(rows, HiddenSize));
    if others.rows == nAgents - 1 {
      var x := PolicyInput(l, hx, others);
      if nAgents == 1 {
        assert x == Ok(Shape(rows, HiddenSize));
      } else if rows == 1 {
        assert x == Ok(Shape(1, HiddenSize + (nAgents - 1) * others.cols));
        if others.cols != HiddenSize {
          assert HiddenSize + (nAgents - 1) * others.cols != HiddenSize * nAgents by {
            if HiddenSize + (nAgents - 1) * others.cols == HiddenSize * nAgents {
              CancelFactor(nAgents - 1, others.cols, HiddenSize);
            }
          }
        }
      }
      if x.Ok? {
        SingleLinear(HiddenSize * nAgents, actionSpace, x.value);
        SingleLinear(HiddenSize * nAgents, 1, x.value);
      }
    }
  }

  /**
   * ACHACAgent: `forward` is ACC's. Its critic, declared `hidden * n + (n - 1)` wide,
   * accepts a lone agent's hidden state whatever else is passed, and with neighbours
   * it accepts their 32-wide thoughts for a single row exactly when one action per
   * neighbour is joined.
   */
  lemma {:induction false} AchacShapes(obsSpace: nat, nAgents: nat, actionSpace: nat, rows: nat, others: Shape, actions: nat)
    requires nAgents >= 1
    ensures var l := NewLayout(Achac, obsSpace, nAgents, actionSpace);
      && Policy(l, Ok(Shape(rows, HiddenSize)), others) == Policy(NewLayout(Acc, obsSpace, nAgents, actionSpace), Ok(Shape(rows, HiddenSize)), others)
      && (nAgents == 1 ==> Value(l, Ok(Shape(rows, HiddenSize)), others, actions) == Ok(Shape(rows, 1)))
      && (nAgents >= 2 && rows == 1 && others == Shape(nAgents - 1, HiddenSize) ==>
            (Value(l, Ok(Shape(rows, HiddenSize)), others, actions).Ok? <==> actions == nAgents - 1)
            && (actions == nAgents - 1 ==> Value(l, Ok(Shape(rows, HiddenSize)), others, actions) == Ok(Shape(1, 1))))
  {
    var l := NewLayout(Achac, obsSpace, nAgents, actionSpace);
    var hx := Ok(Shape(rows, HiddenSize));
    var x := CriticInput(l, hx, others, actions);
    if nAgents == 1 {
      assert x == Ok(Shape(rows, HiddenSize));
      SingleLinear(HiddenSize * nAgents + (nAgents - 1), 1, x.value);
    } else if rows == 1 && others == Shape(nAgents - 1, HiddenSize) {
      assert x == Ok(Shape(1, HiddenSize + (nAgents - 1) * HiddenSize + actions));
      assert HiddenSize + (nAgents - 1) * HiddenSize == HiddenSize * nAgents;
      SingleLinear(HiddenSize * nAgents + (nAgents - 1), 1, x.value);
    }
    assert PolicyInput(l, hx, others) == PolicyInput(NewLayout(Acc, obsSpace, nAgents, actionSpace), hx, others);
  }

  /**
   * As declared, a lone SIHA agent can neither act nor be scored, and a lone SIHCA
   * agent cannot act: `hx` alone is `hidden_size` wide but reaches heads declared
   * `2 * hidden_size` wide.
   */
  lemma {:induction false} LoneAgentAsWrittenFails(obsSpace: nat, actionSpace: nat, rows: nat, others: Shape, actions: nat)
    ensures Policy(LayoutAsWritten(Siha, obsSpace, 1, actionSpace), Ok(Shape(rows, HiddenSize)), others) == Err(WidthMismatch(0, 2 * HiddenSize, HiddenSize))
    ensures Value(LayoutAsWritten(Siha, obsSpace, 1, actionSpace), Ok(Shape(rows, HiddenSize)), others, actions) == Err(WidthMismatch(0, 2 * HiddenSize, HiddenSize))
    ensures Policy(LayoutAsWritten(Sihca, obsSpace, 1, actionSpace), Ok(Shape(rows, HiddenSize)), others) == Err(WidthMismatch(0, 2 * HiddenSize, HiddenSize))
  {
    SingleLinear(HiddenSize * 2, actionSpace, Shape(rows, HiddenSize));
    SingleLinear(HiddenSize * 2 + 0, 1, Shape(rows, HiddenSize));
  }

  /**
   * With the corrected layout every SIHA and SIHCA agent can act: alone on its own
   * hidden state, and among neighbours exactly on a global thought 32 wide over the
   * same batch.
   */
  lemma {:induction false} SiPolicyShapes(kind: Kind, obsSpace: nat, nAgents: nat, actionSpace: nat, rows: nat, others: Shape)
    requires kind == Siha || kind == Sihca
    requires nAgents >= 1
    ensures var l := NewLayout(kind, obsSpace, nAgents, actionSpace);
      && (nAgents == 1 ==> Policy(l, Ok(Shape(rows, HiddenSize)), others) == Ok(Shape(rows, actionSpace)))
      && (nAgents >= 2 ==>
            (Policy(l, Ok(Shape(rows, HiddenSize)), others).Ok? <==> others.rows == rows && others.cols == HiddenSize))
      && (Policy(l, Ok(Shape(rows, HiddenSize)), others).Ok? ==> Policy(l, Ok(Shape(rows, HiddenSize)), others) == Ok(Shape(rows, actionSpace)))
  {
    var l := NewLayout(kind, obsSpace, nAgents, actionSpace);
    var x := PolicyInput(l, Ok(Shape(rows, HiddenSize)), others);
    if nAgents == 1 {
      assert x == Ok(Shape(rows, HiddenSize));
      SingleLinear(HiddenSize, actionSpace, x.value);
    } else if others.rows == rows {
      assert x == Ok(Shape(rows, HiddenSize + others.cols));
      SingleLinear(HiddenSize * 2, actionSpace, x.value);
    }
  }

  /**
   * The corrected SIHA critic scores a lone agent's hidden state, and among
   * neighbours a single row of global thought exactly when one action per neighbour
   * is joined.
   */
  lemma {:induction false} SihaValueShapes(obsSpace: nat, nAgents: nat, actionSpace: nat, rows: nat, others: Shape, actions: nat)
    requires nAgents >= 1
    ensures var l := NewLayout(Siha, obsSpace, nAgents, actionSpace);
      && (nAgents == 1 ==> Value(l, Ok(Shape(rows, HiddenSize)), others, actions) == Ok(Shape(rows, 1)))
      && (nAgents >= 2 && rows == 1 && others == Shape(1, HiddenSize) ==>
            (Value(l, Ok(Shape(rows, HiddenSize)), others, actions).Ok? <==> actions == nAgents - 1)
            && (actions == nAgents - 1 ==> Value(l, Ok(Shape(rows, HiddenSize)), others, actions) == Ok(Shape(1, 1))))
  {
    var l := NewLayout(Siha, obsSpace, nAgents, actionSpace);
    var x := CriticInput(l, Ok(Shape(rows, HiddenSize)), others, actions);
    if nAgents == 1 {
      assert x == Ok(Shape(rows, HiddenSize));
      SingleLinear(HiddenSize, 1, x.value);
    } else if rows == 1 && others == Shape(1, HiddenSize) {
      assert x == Ok(Shape(1, HiddenSize * 2 + actions));
      SingleLinear(HiddenSize * 2 + (nAgents - 1), 1, x.value);
    }
  }

  /**
   * SIHCA's critic, declared `hidden + n_agents` wide, scores a single row of global
   * thought exactly when the global action has one entry per agent, with or without
   * neighbours and whether or not `hx` is set.
   */
  lemma {:induction false} SihcaValueShapes(obsSpace: nat, nAgents: nat, actionSpace: nat, hx: Result<Shape>, actions: nat)
    requires nAgents >= 1
    ensures var l := NewLayout(Sihca, obsSpace, nAgents, actionSpace);
      && (Value(l, hx, Shape(1, HiddenSize), actions).Ok? <==> actions == nAgents)
      && (actions == nAgents ==> Value(l, hx, Shape(1, HiddenSize), actions) == Ok(Shape(1, 1)))
  {
    var l := NewLayout(Sihca, obsSpace, nAgents, actionSpace);
    assert CriticInput(l, hx, Shape(1, HiddenSize), actions) == Ok(Shape(1, HiddenSize + actions));
    SingleLinear(HiddenSize + nAgents, 1, Shape(1, HiddenSize + actions));
  }

  // ---------------------------------------------------------------------------
  // Hidden-state lifecycle

  /** A batch of LSTM states, and whether it still carries the autograd history of the steps that made it. */
  datatype HiddenState = HiddenState(value: Matrix, tracked: bool)

  /** `x_layer` followed by one `LSTMCell` step: (input, hx, cx) to the new (hx, cx). */
  datatype Lstm = Lstm(step: (Matrix, Matrix, Matrix) -> (Matrix, Matrix))

  /** For an input of the declared width and states over the same batch, the step keeps the batch and the hidden width. */
  ghost predicate LstmShaped(lstm: Lstm, obsSpace: nat)
  {
    forall input, h, c ::
      Width(input, obsSpace) && |h| == |input| && Width(h, HiddenSize) && |c| == |input| && Width(c, HiddenSize) ==>
        && |lstm.step(input, h, c).0| == |input| && Width(lstm.step(input, h, c).0, HiddenSize)
        && |lstm.step(input, h, c).1| == |input| && Width(lstm.step(input, h, c).1, HiddenSize)
  }

  /** One recurrent agent: the arguments it was built with, its LSTM, and the mutable `hx`/`cx`. */
  class RecurrentAgent {
    const kind: Kind
    const obsSpace: nat
    const nAgents: nat
    const actionSpace: nat
    const hiddenSize: nat
    const lstm: Lstm
    var hx: Option<HiddenState>
    var cx: Option<HiddenState>

    ghost predicate Valid()
      reads this
    {
      && nAgents >= 1
      && hiddenSize == HiddenSize
      && LstmShaped(lstm, obsSpace)
      && (hx.Some? <==> cx.Some?)
      && (hx.Some? ==>
            |cx.value.value| == |hx.value.value| && Width(hx.value.value, hiddenSize) && Width(cx.value.value, hiddenSize))
    }

    /** `XAgent(obs_space, n_agents, action_space)`: `hx` and `cx` are still `None`. */
    constructor (kind: Kind, obsSpace: nat, nAgents: nat, actionSpace: nat, lstm: Lstm)
      requires nAgents >= 1 && LstmShaped(lstm, obsSpace)
      ensures Valid()
      ensures this.kind == kind && this.obsSpace == obsSpace && this.nAgents == nAgents && this.actionSpace == actionSpace
      ensures this.lstm == lstm && hx == None && cx == None
    {
      this.kind := kind;
      this.obsSpace := obsSpace;
      this.nAgents := nAgents;
      this.actionSpace := actionSpace;
      hiddenSize := HiddenSize;
      this.lstm := lstm;
      hx := None;
      cx := None;
    }

    /** The layers the constructor declares. */
    function Layers(): Layout
      reads this
      requires nAgents >= 1
    {
      NewLayout(kind, obsSpace, nAgents, actionSpace)
    }

    /** The shape of `hx`, or the failure of reading it while it is `None`. */
    function HxShape(): Result<Shape>
      reads this
    {
      if hx.None? then Err(NoHiddenState) else Ok(Shape(|hx.value.value|, hiddenSize))
    }

    /** `forward(...)` of this agent: the policy logits computed from its own `hx`. */
    function Forward(others: Shape): Result<Shape>
      reads this
      requires nAgents >= 1
    {
      Policy(Layers(), HxShape(), others)
    }

    /** `critic(...)` of this agent (for ACC, the value `forward` also returns). */
    function Critic(others: Shape, actions: nat): Result<Shape>
      reads this
      requires nAgents >= 1
    {
      Value(Layers(), HxShape(), others, actions)
    }

    /** Both states are `batch` × `hidden_size` zeros without history. */
    predicate Zeroed(batch: nat)
      reads this
    {
      && hx == Some(HiddenState(ZeroMatrix(batch, HiddenSize), false))
      && cx == Some(HiddenState(ZeroMatrix(batch, HiddenSize), false))
    }

    /** Both states hold the values they held before, now without history. */
    twostate predicate Detached()
      reads this
    {
      && old(hx).Some? && old(cx).Some?
      && hx == Some(HiddenState(old(hx).value.value, false))
      && cx == Some(HiddenState(old(cx).value.value, false))
    }

    /** `init_hidden(batch_size)`: both states become `batch` × `hidden_size` zeros without history. */
    method InitHidden(batch: nat)
      requires Valid()
      modifies this
      ensures Valid() && Zeroed(batch)
    {
      hx := Some(HiddenState(ZeroMatrix(batch, hiddenSize), false));
      cx := Some(HiddenState(ZeroMatrix(batch, hiddenSize), false));
    }

    /**
     * `hidden_detach()`: the same values without their history. While the states are
     * still `None` the call raises before anything has changed.
     */
    method HiddenDetach() returns (ok: bool)
      requires Valid()
      modifies this
      ensures Valid()
      ensures ok <==> old(hx).Some?
      ensures ok ==> Detached()
      ensures !ok ==> unchanged(this)
    {
      if hx.None? {
        return false;
      }
      hx := Some(HiddenState(hx.value.value, false));
      cx := Some(HiddenState(cx.value.value, false));
      ok := true;
    }

    /**
     * `get_thought(input)`: one LSTM step from the current states, which it replaces;
     * the new `hx` is the thought. It fails, changing nothing, while the states are
     * unset or when the input does not match their batch and the declared width.
     */
    method GetThought(input: Matrix) returns (thought: Option<Matrix>)
      requires Valid()
      modifies this
      ensures Valid()
      ensures thought.Some? <==> old(hx).Some? && |input| == |old(hx).value.value| && Width(input, obsSpace)
      ensures thought.Some? ==>
        var next := lstm.step(input, old(hx).value.value, old(cx).value.value);
        && hx == Some(HiddenState(next.0, true)) && cx == Some(HiddenState(next.1, true))
        && thought.value == next.0
      ensures thought.None? ==> hx == old(hx) && cx == old(cx)
    {
      if hx.None? || |input| != |hx.value.value| || !Width(input, obsSpace) {
        return None;
      }
      var next := lstm.step(input, hx.value.value, cx.value.value);
      hx := Some(HiddenState(next.0, true));
      cx := Some(HiddenState(next.1, true));
      thought := Some(next.0);
    }
  }

  /**
   * `forward` and `critic` read the agent's own `hx`: while it is unset (before `init_hidden`)
   * every head that reads it raises.
   */
  lemma {:induction false} HeadsReadHidden(a: RecurrentAgent, others: Shape, actions: nat)
    requires a.Valid()
    ensures a.hx.None? ==> a.Forward(others).Err?
    ensures a.hx.None? && a.kind != Sihca ==> a.Critic(others, actions).Err?
  {
  }

  /**
   * Once `init_hidden(batch)` has run, a lone agent of every kind acts on its own `hx`,
   * giving `batch` rows of logits, as soon as no neighbour thoughts are passed to ACC and
   * ACHAC (their `assert len(neighbours_hx) == neighbours_n`); every kind but SIHCA, whose
   * critic does not read `hx`, is then scored with one value per row.
   */
  lemma {:induction false} LoneAgentAfterInit(a: RecurrentAgent, batch: nat, others: Shape, actions: nat)
    requires a.Valid() && a.Zeroed(batch) && a.nAgents == 1
    ensures a.Forward(others).Ok? <==> (a.kind == Acc || a.kind == Achac ==> others.rows == 0)
    ensures a.Forward(others).Ok? ==> a.Forward(others) == Ok(Shape(batch, a.actionSpace))
    ensures a.Forward(others).Ok? && a.kind != Sihca ==> a.Critic(others, actions) == Ok(Shape(batch, 1))
  {
    assert a.HxShape() == Ok(Shape(batch, HiddenSize));
    match a.kind
    case Acc => AccShapes(a.obsSpace, 1, a.actionSpace, batch, others, actions);
    case Achac =>
      AccShapes(a.obsSpace, 1, a.actionSpace, batch, others, actions);
      AchacShapes(a.obsSpace, 1, a.actionSpace, batch, others, actions);
    case Siha =>
      SiPolicyShapes(Siha, a.obsSpace, 1, a.actionSpace, batch, others);
      SihaValueShapes(a.obsSpace, 1, a.actionSpace, batch, others, actions);
    case Sihca => SiPolicyShapes(Sihca, a.obsSpace, 1, a.actionSpace, batch, others);
  }

  /** ACCNet, ACHACNet, SIHANet and SIHCANet: one recurrent agent per observation space. */
  class RecurrentNet {
    const nAgents: nat
    const agents: seq<RecurrentAgent>

    ghost predicate Valid()
      reads this, agents
    {
      && |agents| == nAgents
      && (forall i, j :: 0 <= i < j < nAgents ==> agents[i] != agents[j])
      && (forall i :: 0 <= i < nAgents ==> agents[i].Valid())
    }

    /**
     * The `setattr` loop: agent `i` is built from the i-th observation width and action
     * count among `n` agents, with its own LSTM, and has no hidden state yet.
     */
    constructor (kind: Kind, obsSpaces: seq<nat>, actionSpaces: seq<nat>, lstms: seq<Lstm>)
      requires |obsSpaces| <= |actionSpaces| && |lstms| == |obsSpaces|
      requires forall i :: 0 <= i < |obsSpaces| ==> LstmShaped(lstms[i], obsSpaces[i])
      ensures Valid() && nAgents == |obsSpaces|
      ensures forall i :: 0 <= i < nAgents ==> fresh(agents[i])
      ensures forall i :: 0 <= i < nAgents ==>
        && agents[i].kind == kind && agents[i].obsSpace == obsSpaces[i]
        && agents[i].nAgents == nAgents && agents[i].actionSpace == actionSpaces[i]
        && agents[i].lstm == lstms[i] && agents[i].hx == None && agents[i].cx == None
    {
      var built: seq<RecurrentAgent> := [];
      var i := 0;
      while i < |obsSpaces|
        invariant i <= |obsSpaces| && |built| == i
        invariant forall j :: 0 <= j < i ==> fresh(built[j])
        invariant forall j, k :: 0 <= j < k < i ==> built[j] != built[k]
        invariant forall j :: 0 <= j < i ==>
          && built[j].Valid()
          && built[j].kind == kind && built[j].obsSpace == obsSpaces[j]
          && built[j].nAgents == |obsSpaces| && built[j].actionSpace == actionSpaces[j]
          && built[j].lstm == lstms[j] && built[j].hx == None && built[j].cx == None
      {
        var a := new RecurrentAgent(kind, obsSpaces[i], |obsSpaces|, actionSpaces[i], lstms[i]);
        built := built + [a];
        i := i + 1;
      }
      nAgents := |obsSpaces|;
      agents := built;
    }

    /** `agent(i)`: the attribute `agent_i`, which exists for 0 <= i < n only. */
    function AgentAt(i: int): (r: Option<RecurrentAgent>)
      reads this
      requires |agents| == nAgents
      ensures r.Some? <==> 0 <= i < nAgents
      ensures r.Some? ==> r.value == agents[i]
    {
      if 0 <= i < nAgents then Some(agents[i]) else None
    }

    /** `init_hidden(batch)`: every agent 0..n-1, and nothing else, starts over from `batch` × `hidden_size` zeros. */
    method InitHidden(batch: nat)
      requires Valid()
      modifies agents
      ensures Valid()
      ensures forall i :: 0 <= i < nAgents ==> agents[i].Zeroed(batch)
    {
      var i := 0;
      while i < nAgents
        invariant i <= nAgents && Valid()
        invariant forall j :: 0 <= j < i ==> agents[j].Zeroed(batch)
      {
        agents[i].InitHidden(batch);
        i := i + 1;
      }
    }

    /**
     * `hidden_detach()`: agents are detached in order. The first agent whose state is
     * still unset raises; it and every agent after it keep their states, while every
     * agent before it has been detached.
     */
    method HiddenDetach() returns (ok: bool, ghost failedAt: nat)
      requires Valid()
      modifies agents
      ensures Valid()
      ensures ok <==> forall i :: 0 <= i < nAgents ==> old(agents[i].hx).Some?
      ensures failedAt <= nAgents && (ok <==> failedAt == nAgents)
      ensures failedAt < nAgents ==> old(agents[failedAt].hx).None?
      ensures forall i :: 0 <= i < failedAt ==> agents[i].Detached()
      ensures forall i :: failedAt <= i < nAgents ==> unchanged(agents[i])
    {
      var i := 0;
      while i < nAgents
        invariant i <= nAgents && Valid()
        invariant forall j :: 0 <= j < i ==> agents[j].Detached()
        invariant forall j :: i <= j < nAgents ==> unchanged(agents[j])
      {
        var done := agents[i].HiddenDetach();
        if !done {
          ok, failedAt := false, i;
          return;
        }
        i := i + 1;
      }
      ok, failedAt := true, nAgents;
    }
  }
}
