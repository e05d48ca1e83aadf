/**
 * The feed-forward agents of the grid example and their containers: the layer
 * widths every constructor declares, the shape of what `forward` computes from
 * the shapes it is given, the `*Net` containers that hold one agent per
 * observation space, and the output heads the constructors fill with zeros.
 */
module Networks {
  import opened Common
  import opened Layers

  /** `hidden_size` of DQNConsensusAgent and of every recurrent agent. */
  const HiddenSize: nat := 32
  /** The width DDPGCritic encodes the joint observation into. */
  const ObsEncoding: nat := 128

  // ---------------------------------------------------------------------------
  // MADDPG

  /** DDPGCritic: `obs_x` encodes the joint observation, `_critic` scores it beside the joint action. */
  datatype DdpgCritic = DdpgCritic(obsX: seq<Layer>, critic: seq<Layer>)

  function NewDdpgCritic(obsW: nat, actionW: nat): DdpgCritic
  {
    DdpgCritic([Linear(obsW, ObsEncoding), ReLU], [Linear(actionW + ObsEncoding, 1)])
  }

  /** DDPGCritic.forward: `_critic(cat(action_n, obs_x(obs_n)))`. */
  function DdpgCriticForward(c: DdpgCritic, obs: Shape, action: Shape): Result<Shape>
  {
    var x :- Apply(c.obsX, obs);
    var joint :- Cat(action, x);
    Apply(c.critic, joint)
  }

  /**
   * The critic accepts exactly a batch of joint observations `obsW` wide beside as
   * many joint actions `actionW` wide, and answers one value per row.
   */
  lemma {:induction false} DdpgCriticShapes(obsW: nat, actionW: nat, obs: Shape, action: Shape)
    ensures DdpgCriticForward(NewDdpgCritic(obsW, actionW), obs, action) ==
      if obs.cols != obsW then Err(WidthMismatch(0, obsW, obs.cols))
      else if action.rows != obs.rows then Err(CatMismatch(action.rows, obs.rows))
      else if action.cols != actionW then Err(WidthMismatch(0, actionW + ObsEncoding, action.cols + ObsEncoding))
      else Ok(Shape(obs.rows, 1))
  {
    var c := NewDdpgCritic(obsW, actionW);
    RunMeaning(c.obsX, obs.cols);
    assert c.obsX[..1] == [Linear(obsW, ObsEncoding)];
    assert Through(c.obsX[..1], obs.cols) == ObsEncoding;
    assert c.obsX[..0] == [];
    if obs.cols == obsW && action.rows == obs.rows {
      RunMeaning(c.critic, action.cols + ObsEncoding);
      assert c.critic[..0] == [];
    }
  }

  /** The actor of DDPGAgent as declared: `Linear(num_in_pol, 32), ReLU, Linear(16, num_out_pol)`. */
  function DdpgActorAsWritten(numIn: nat, numOut: nat): seq<Layer>
  {
    [Linear(numIn, 32), ReLU, Linear(16, numOut)]
  }

  /** The declared actor runs on no input at all: a fitting input reaches a 16-wide layer with 32 values. */
  lemma {:induction false} DdpgActorAsWrittenNeverRuns(numIn: nat, numOut: nat, w: nat)
    ensures Run(DdpgActorAsWritten(numIn, numOut), w) ==
      if w == numIn then Err(WidthMismatch(2, 16, 32)) else Err(WidthMismatch(0, numIn, w))
  {
    var chain := DdpgActorAsWritten(numIn, numOut);
    RunMeaning(chain, w);
    assert chain[..0] == [];
    assert chain[..1] == [Linear(numIn, 32)];
    assert chain[..2] == [Linear(numIn, 32), ReLU];
    assert chain[..2][..1] == chain[..1];
  }

  /** The actor with its hidden widths agreeing, as the 32-wide first layer evidently intends. */
  function DdpgActor(numIn: nat, numOut: nat): seq<Layer>
  {
    [Linear(numIn, 32), ReLU, Linear(32, numOut)]
  }

  /** The corrected actor maps exactly the `num_in_pol`-wide observations to `num_out_pol` logits. */
  lemma {:induction false} DdpgActorRuns(numIn: nat, numOut: nat, w: nat)
    ensures Run(DdpgActor(numIn, numOut), w) == if w == numIn then Ok(numOut) else Err(WidthMismatch(0, numIn, w))
  {
    var chain := DdpgActor(numIn, numOut);
    RunMeaning(chain, w);
    assert chain[..0] == [];
    assert chain[..1] == [Linear(numIn, 32)];
    assert chain[..2] == [Linear(numIn, 32), ReLU];
    assert chain[..2][..1] == chain[..1];
  }

  /**
   * The per-agent vectors the training engine flattens into a joint row match the
   * widths MADDPGNet sums up for its critics: Σ len(obs_i) and Σ n_i.
   */
  lemma {:induction false} JointCriticFits(
    obsSpaces: seq<nat>, actionSpaces: seq<nat>, states: seq<seq<real>>, actions: seq<seq<real>>, rows: nat)
    requires Widths(states) == obsSpaces && Widths(actions) == actionSpaces
    ensures DdpgCriticForward(NewDdpgCritic(SumNat(obsSpaces), SumNat(actionSpaces)),
                              Shape(rows, |Flatten(states)|), Shape(rows, |Flatten(actions)|)) == Ok(Shape(rows, 1))
  {
    FlattenWidth(states);
    FlattenWidth(actions);
    DdpgCriticShapes(SumNat(obsSpaces), SumNat(actionSpaces), Shape(rows, |Flatten(states)|), Shape(rows, |Flatten(actions)|));
  }

  // ---------------------------------------------------------------------------
  // Agents and containers

  /** The feed-forward agent classes, by the layers their constructors declare. */
  datatype Agent =
    | DdpgAgent(actionSpace: nat, actor: seq<Layer>, jointCritic: DdpgCritic)
    | VdAgent(actionSpace: nat, critic: seq<Layer>)
    | CommAgent(actionSpace: nat, thought: seq<Layer>, critic: seq<Layer>)
    | ConsensusAgent(neighboursN: nat, actionSpace: nat, xLayer: seq<Layer>, critic: seq<Layer>, advantage: seq<Layer>)

  /** The feed-forward containers: MADDPGNet, VDNet, IDQNet, SICNet and DQNConsensusNet. */
  datatype Family = Maddpg | Vdn | Idqn | Sic | DqnConsensus

  /**
   * Agent `i` of a container built from the observation widths `len(obs_space_n[j])`
   * and the action counts `action_space_n[j].n`. MADDPGNet's critics see the sums over
   * all of them; SICNet's critic sees the thoughts of all `n` agents.
   */
  function MakeAgent(family: Family, obsSpaces: seq<nat>, actionSpaces: seq<nat>, i: nat): Agent
    requires i < |obsSpaces| <= |actionSpaces|
  {
    var n := |obsSpaces|;
    match family
    case Maddpg =>
      DdpgAgent(actionSpaces[i], DdpgActor(obsSpaces[i], actionSpaces[i]), NewDdpgCritic(SumNat(obsSpaces), SumNat(actionSpaces)))
    case Vdn => VdAgent(actionSpaces[i], [Linear(obsSpaces[i], 64), ReLU, Linear(64, actionSpaces[i])])
    case Idqn => VdAgent(actionSpaces[i], [Linear(obsSpaces[i], 64), ReLU, Linear(64, actionSpaces[i])])
    case Sic => CommAgent(actionSpaces[i], [Linear(obsSpaces[i], 32), Tanh], [Linear(32 * n, actionSpaces[i])])
    case DqnConsensus =>
      ConsensusAgent(n - 1, actionSpaces[i],
        [Linear(obsSpaces[i], 64), ReLU, Linear(64, HiddenSize), ReLU],
        [Linear(HiddenSize, 1)],
        [Linear(HiddenSize * 2, actionSpaces[i]), Tanh])
  }

  /** A container: agent `i` is the attribute `agent_i`. */
  datatype Net = Net(nAgents: nat, agents: seq<Agent>)

  /** A `*Net` constructor: one `setattr` per observation space, in order. */
  method BuildNet(family: Family, obsSpaces: seq<nat>, actionSpaces: seq<nat>) returns (net: Net)
    requires |obsSpaces| <= |actionSpaces|
    ensures net.nAgents == |obsSpaces| == |net.agents|
    ensures forall i :: 0 <= i < |obsSpaces| ==> net.agents[i] == MakeAgent(family, obsSpaces, actionSpaces, i)
  {
    var agents: seq<Agent> := [];
    var i := 0;
    while i < |obsSpaces|
      invariant i <= |obsSpaces| && |agents| == i
      invariant forall j :: 0 <= j < i ==> agents[j] == MakeAgent(family, obsSpaces, actionSpaces, j)
    {
      agents := agents + [MakeAgent(family, obsSpaces, actionSpaces, i)];
      i := i + 1;
    }
    net := Net(|obsSpaces|, agents);
  }

  /** `agent(i)`: the attribute `agent_i`, which exists for 0 <= i < n only (`AttributeError` otherwise). */
  function AgentAt(net: Net, i: int): (r: Option<Agent>)
    requires |net.agents| == net.nAgents
    ensures r.Some? <==> 0 <= i < net.nAgents
    ensures r.Some? ==> r.value == net.agents[i]
  {
    if 0 <= i < net.nAgents then Some(net.agents[i]) else None
  }

  /** Agent `i` of a built container is the one made from the i-th spaces, and there are no others. */
  lemma {:induction false} BuiltAgentAt(family: Family, obsSpaces: seq<nat>, actionSpaces: seq<nat>, net: Net, i: int)
    requires |obsSpaces| <= |actionSpaces|
    requires net.nAgents == |obsSpaces| == |net.agents|
    requires forall j :: 0 <= j < |obsSpaces| ==> net.agents[j] == MakeAgent(family, obsSpaces, actionSpaces, j)
    ensures AgentAt(net, i) == if 0 <= i < |obsSpaces| then Some(MakeAgent(family, obsSpaces, actionSpaces, i)) else None
  {
    if 0 <= i < |obsSpaces| {
      assert net.agents[i] == MakeAgent(family, obsSpaces, actionSpaces, i);
    }
  }

  // ---------------------------------------------------------------------------
  // Forward shapes of the feed-forward agents

  /** MADDPG's agent `i` maps its own observation to its own action logits, and its critic takes the joint widths. */
  lemma {:induction false} DdpgAgentShapes(obsSpaces: seq<nat>, actionSpaces: seq<nat>, i: nat, rows: nat)
    requires i < |obsSpaces| <= |actionSpaces|
    ensures var a := MakeAgent(Maddpg, obsSpaces, actionSpaces, i);
      && Apply(a.actor, Shape(rows, obsSpaces[i])) == Ok(Shape(rows, actionSpaces[i]))
      && DdpgCriticForward(a.jointCritic, Shape(rows, SumNat(obsSpaces)), Shape(rows, SumNat(actionSpaces))) == Ok(Shape(rows, 1))
  {
    DdpgActorRuns(obsSpaces[i], actionSpaces[i], obsSpaces[i]);
    DdpgCriticShapes(SumNat(obsSpaces), SumNat(actionSpaces), Shape(rows, SumNat(obsSpaces)), Shape(rows, SumNat(actionSpaces)));
  }

  /** VDAgent.forward: one Q-value per action from the agent's own observation, and only from that width. */
  lemma {:induction false} VdAgentShapes(family: Family, obsSpaces: seq<nat>, actionSpaces: seq<nat>, i: nat, x: Shape)
    requires family == Vdn || family == Idqn
    requires i < |obsSpaces| <= |actionSpaces|
    ensures Apply(MakeAgent(family, obsSpaces, actionSpaces, i).critic, x) ==
      if x.cols == obsSpaces[i] then Ok(Shape(x.rows, actionSpaces[i])) else Err(WidthMismatch(0, obsSpaces[i], x.cols))
  {
    var chain := MakeAgent(family, obsSpaces, actionSpaces, i).critic;
    RunMeaning(chain, x.cols);
    assert chain[..0] == [];
    assert chain[..1] == [Linear(obsSpaces[i], 64)];
    assert chain[..2] == [Linear(obsSpaces[i], 64), ReLU];
    assert chain[..2][..1] == chain[..1];
  }

  /**
   * CommAgent.forward: `_critic(cat(thought.unsqueeze(1), global_thought, dim=1).flatten(1))`.
   * The own thought is put in front of the `parts` others, and every batch row is flattened.
   */
  function CommForward(a: Agent, thought: Shape, others: Shape3): Result<Shape>
    requires a.CommAgent?
  {
    if thought.rows != others.batch then Err(CatMismatch(thought.rows, others.batch))
    else if thought.cols != others.width then Err(CatMismatch(thought.cols, others.width))
    else Apply(a.critic, Shape(thought.rows, (1 + others.parts) * thought.cols))
  }

  /**
   * SICNet's agent `i` turns its observation into a 32-wide message, and its critic
   * accepts its own message beside 32-wide messages of exactly the n - 1 other agents.
   */
  lemma {:induction false} CommAgentShapes(obsSpaces: seq<nat>, actionSpaces: seq<nat>, i: nat, rows: nat, parts: nat)
    requires i < |obsSpaces| <= |actionSpaces|
    ensures var a := MakeAgent(Sic, obsSpaces, actionSpaces, i);
      && Apply(a.thought, Shape(rows, obsSpaces[i])) == Ok(Shape(rows, 32))
      && (CommForward(a, Shape(rows, 32), Shape3(rows, parts, 32)).Ok? <==> parts == |obsSpaces| - 1)
      && (parts == |obsSpaces| - 1 ==> CommForward(a, Shape(rows, 32), Shape3(rows, parts, 32)) == Ok(Shape(rows, actionSpaces[i])))
  {
    var a := MakeAgent(Sic, obsSpaces, actionSpaces, i);
    RunMeaning(a.thought, obsSpaces[i]);
    assert a.thought[..0] == [];
    assert a.thought[..1] == [Linear(obsSpaces[i], 32)];
    RunMeaning(a.critic, (1 + parts) * 32);
    assert a.critic[..0] == [];
    assert (1 + parts) * 32 == 32 * |obsSpaces| <==> parts == |obsSpaces| - 1;
  }

  /**
   * DQNConsensusAgent.forward on shapes: the joined thoughts go into the advantage head,
   * the global thought alone into the critic, and the one-column critic is broadcast
   * over the advantages (both have the rows of the global thought once `cat` succeeded).
   */
  function ConsensusForward(a: Agent, local: Shape, global: Shape): Result<Shape>
    requires a.ConsensusAgent?
  {
    var x :- Cat(local, global);
    var q :- Apply(a.critic, global);
    var adv :- Apply(a.advantage, x);
    Ok(adv)
  }

  /**
   * DQNConsensusNet's agent `i` thinks in 32 wide, and its forward accepts exactly a
   * local and a global thought of that width over the same batch, giving one Q-value per action.
   */
  lemma {:induction false} ConsensusAgentShapes(obsSpaces: seq<nat>, actionSpaces: seq<nat>, i: nat, local: Shape, global: Shape)
    requires i < |obsSpaces| <= |actionSpaces|
    ensures var a := MakeAgent(DqnConsensus, obsSpaces, actionSpaces, i);
      && Apply(a.xLayer, Shape(local.rows, obsSpaces[i])) == Ok(Shape(local.rows, HiddenSize))
      && (ConsensusForward(a, local, global).Ok? <==>
            local.rows == global.rows && local.cols == HiddenSize && global.cols == HiddenSize)
      && (ConsensusForward(a, local, global).Ok? ==> ConsensusForward(a, local, global).value == Shape(local.rows, actionSpaces[i]))
  {
    var a := MakeAgent(DqnConsensus, obsSpaces, actionSpaces, i);
    RunMeaning(a.xLayer, obsSpaces[i]);
    assert a.xLayer[..0] == [];
    assert a.xLayer[..1] == [Linear(obsSpaces[i], 64)];
    assert a.xLayer[..2] == [Linear(obsSpaces[i], 64), ReLU];
    assert a.xLayer[..3] == [Linear(obsSpaces[i], 64), ReLU, Linear(64, HiddenSize)];
    assert a.critic[..0] == [];
    assert a.advantage[..0] == [];
    assert a.advantage[..1] == [Linear(HiddenSize * 2, actionSpaces[i])];
    RunMeaning(a.critic, global.cols);
    RunMeaning(a.advantage, local.cols + global.cols);
  }

  // ---------------------------------------------------------------------------
  // Zero-filled heads

  /** The declared widths of the layer each constructor fills with zeros. */
  function ZeroHeadWidths(a: Agent): (nat, nat)
  {
    match a
    case DdpgAgent(_, _, joint) => if joint.critic != [] && joint.critic[0].Linear? then (joint.critic[0].inW, joint.critic[0].outW) else (0, 0)
    case VdAgent(action, _) => (64, action)
    case CommAgent(action, _, critic) => if critic != [] && critic[0].Linear? then (critic[0].inW, critic[0].outW) else (0, 0)
    case ConsensusAgent(_, _, _, critic, _) => if critic != [] && critic[0].Linear? then (critic[0].inW, critic[0].outW) else (0, 0)
  }

  /**
   * Before any training the zero-filled head of every feed-forward agent answers 0
   * for every row reaching it: the critic value for DDPGCritic and the consensus
   * critic, every Q-value for VDAgent and CommAgent.
   */
  lemma {:induction false} InitialHeadAnswersZero(family: Family, obsSpaces: seq<nat>, actionSpaces: seq<nat>, i: nat, x: Matrix)
    requires i < |obsSpaces| <= |actionSpaces|
    requires Width(x, ZeroHeadWidths(MakeAgent(family, obsSpaces, actionSpaces, i)).0)
    ensures var (inW, outW) := ZeroHeadWidths(MakeAgent(family, obsSpaces, actionSpaces, i));
      && outW == (if family == Maddpg || family == DqnConsensus then 1 else actionSpaces[i])
      && ApplyDense(ZeroFilled(inW, outW), inW, x) == ZeroMatrix(|x|, outW)
  {
    var (inW, outW) := ZeroHeadWidths(MakeAgent(family, obsSpaces, actionSpaces, i));
    ZeroHead(inW, outW, x);
  }

  /** The rows of `a` each followed by the same row of `b` (`torch.cat((a, b), dim=1)` on values). */
  function CatRows(a: Matrix, b: Matrix): (c: Matrix)
    requires |a| == |b|
    ensures |c| == |a|
  {
    seq(|a|, r requires 0 <= r < |a| => a[r] + b[r])
  }

  /** DQNConsensusAgent.critic on values: `_critic(global_thought)`. */
  function ConsensusCritic(critic: Dense, global: Matrix): (q: Matrix)
    requires DenseShaped(critic, HiddenSize, 1) && Width(global, HiddenSize)
    ensures |q| == |global| && Width(q, 1)
  {
    ApplyDense(critic, HiddenSize, global)
  }

  /**
   * DQNConsensusAgent.forward on values: `critic(global) + advantage(cat(local, global))`,
   * the single critic column added to every advantage of the same row.
   */
  function ConsensusValue(critic: Dense, advantage: Matrix -> Matrix, local: Matrix, global: Matrix): Matrix
    requires DenseShaped(critic, HiddenSize, 1) && Width(global, HiddenSize)
    requires |local| == |global| && |advantage(CatRows(local, global))| == |global|
  {
    var q := ConsensusCritic(critic, global);
    var adv := advantage(CatRows(local, global));
    seq(|adv|, r requires 0 <= r < |adv| => seq(|adv[r]|, o requires 0 <= o < |adv[r]| => q[r][0] + adv[r][o]))
  }

  /** With its critic still zero-filled, the consensus agent's Q-values are exactly the advantages. */
  lemma {:induction false} ConsensusStartsAsAdvantage(advantage: Matrix -> Matrix, local: Matrix, global: Matrix)
    requires Width(global, HiddenSize) && |local| == |global| && |advantage(CatRows(local, global))| == |global|
    ensures ConsensusValue(ZeroFilled(HiddenSize, 1), advantage, local, global) == advantage(CatRows(local, global))
  {
    var adv := advantage(CatRows(local, global));
    var v := ConsensusValue(ZeroFilled(HiddenSize, 1), advantage, local, global);
    ZeroHead(HiddenSize, 1, global);
    assert forall r :: 0 <= r < |adv| ==> v[r] == adv[r];
  }
}
