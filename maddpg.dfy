/**
 * The MADDPG training engine: per-step update with terminal masking and actor
 * substitution, the action-selection map, the train and test episode loops, and
 * the train / test / save lifecycle.
 *
 * Tensors are flattened to one batch row at a time. The networks, the loss, the
 * optimizer, the target synchronisation and the environment are collaborators:
 * function-valued constants over an abstract parameter type P and environment state E.
 */
module MaddpgAlgo {
  import opened Common
  import opened Replay

  type Vec = seq<real>

  /** The networks of one model, as uninterpreted functions of its parameters. */
  datatype Nets<!P> = Nets(
    actor: (P, nat, Vec) -> Vec,         // model.agent(i).actor(obs_i): the logits of agent i
    critic: (P, nat, Vec, Vec) -> real,  // model.agent(i).critic(joint obs row, joint action row)
    onehot: Vec -> Vec,                  // onehot_from_logits
    gumbel: (Vec, real) -> Vec)          // gumbel_softmax(logits, hard=True) under the random draw u

  /** What one update draws at random: the sampled batch and, per agent and batch row, the Gumbel noise. */
  datatype Draw = Draw(batch: seq<Transition>, noise: seq<seq<real>>)

  /** The learning collaborators. */
  datatype Learning<!P> = Learning(
    smoothL1: (Vec, Vec) -> real,        // SmoothL1Loss()(pred, target).mean()
    optimize: (P, P, Draw) -> P,         // zero_grad, backward, clip_grad_norm_(10), step on the loss of this draw
    softUpdate: (P, P, real) -> P)       // soft_update(target, model, tau)

  /** What `env.step` returns (the `info` part is dropped). */
  datatype StepResult<E> = StepResult(env: E, obs: seq<Vec>, reward: seq<real>, done: seq<bool>)

  /** The environment as an abstract state machine. */
  datatype Env<!E> = Env(reset: E -> (E, seq<Vec>), step: (E, seq<Vec>) -> StepResult<E>)

  /** Every observation, reward and done list the environment produces has one entry per agent. */
  ghost predicate EnvShaped<E(!new)>(env: Env<E>, n: nat)
  {
    && (forall e :: |env.reset(e).1| == n)
    && (forall e, a :: |env.step(e, a).obs| == n && |env.step(e, a).reward| == n && |env.step(e, a).done| == n)
  }

  ghost predicate AllShaped(ts: seq<Transition>, n: nat)
  {
    forall k :: 0 <= k < |ts| ==> Shaped(ts[k], n)
  }

  // ---------------------------------------------------------------------------
  // Action selection
  // ---------------------------------------------------------------------------

  /**
   * `__select_action(model, obs_n, explore)` on one batch row: agent i acts on its own
   * logits, sampled with Gumbel noise when exploring and arg-max one-hot otherwise.
   */
  function SelectAction<P>(nets: Nets<P>, p: P, obs: seq<Vec>, n: nat, explore: bool, noise: seq<real>): (r: seq<Vec>)
    requires n <= |obs| && (explore ==> n <= |noise|)
    ensures |r| == n
  {
    seq(n, i requires 0 <= i < n =>
      var logits := nets.actor(p, i, obs[i]);
      if explore then nets.gumbel(logits, noise[i]) else nets.onehot(logits))
  }

  /** Decentralised execution: agent i's action depends only on its own observation (and its own draw). */
  lemma {:induction false} SelectionIsDecentralised<P>(nets: Nets<P>, p: P, obs: seq<Vec>, obs': seq<Vec>, n: nat,
                                    explore: bool, noise: seq<real>, noise': seq<real>, i: nat)
    requires n <= |obs| && n <= |obs'| && (explore ==> n <= |noise| && n <= |noise'|)
    requires i < n && obs[i] == obs'[i] && (explore ==> noise[i] == noise'[i])
    ensures SelectAction(nets, p, obs, n, explore, noise)[i] == SelectAction(nets, p, obs', n, explore, noise')[i]
  {
  }

  /** Without exploration the choice is deterministic: the one-hot arg-max of every agent's logits. */
  lemma {:induction false} GreedySelection<P>(nets: Nets<P>, p: P, obs: seq<Vec>, n: nat, noise: seq<real>)
    requires n <= |obs|
    ensures SelectAction(nets, p, obs, n, false, noise) == SelectAction(nets, p, obs, n, false, [])
    ensures forall i :: 0 <= i < n ==> SelectAction(nets, p, obs, n, false, noise)[i] == nets.onehot(nets.actor(p, i, obs[i]))
  {
  }

  // ---------------------------------------------------------------------------
  // The loss of one update
  // ---------------------------------------------------------------------------

  /** The stored joint actions of the batch, one row per transition (`action_batch`). */
  function Actions(batch: seq<Transition>): (rows: seq<seq<Vec>>)
    ensures |rows| == |batch| && forall k :: 0 <= k < |batch| ==> rows[k] == batch[k].action
  {
    seq(|batch|, k requires 0 <= k < |batch| => batch[k].action)
  }

  /** The bootstrap joint action of one row: the target model's non-exploring action on the next observations. */
  function TargetAction<P>(nets: Nets<P>, target: P, t: Transition, n: nat): Vec
    requires Shaped(t, n)
  {
    Flatten(SelectAction(nets, target, t.nextState, n, false, []))
  }

  /**
   * One row of the TD target: the target critic's value is masked to zero on terminal
   * rows before it is discounted and added to the reward.
   */
  function TdTarget(reward: real, done: bool, discount: real, q: real): (r: real)
    ensures done ==> r == reward
    ensures !done ==> r == reward + discount * q
  {
    var masked := if done then 0.0 else q;
    discount * masked + reward
  }

  /** Agent i's critic targets over the batch (`target_q_value`). */
  function CriticTargets<P>(nets: Nets<P>, target: P, batch: seq<Transition>, n: nat, i: nat, discount: real): (r: seq<real>)
    requires i < n && AllShaped(batch, n)
    ensures |r| == |batch|
  {
    seq(|batch|, row requires 0 <= row < |batch| =>
      TdTarget(batch[row].reward[i], batch[row].done[i], discount,
               nets.critic(target, i, Flatten(batch[row].nextState), TargetAction(nets, target, batch[row], n))))
  }

  /** Agent i's live critic on the stored joint observation and joint action (`pred_q_value`). */
  function PredictedQ<P>(nets: Nets<P>, live: P, batch: seq<Transition>, i: nat): (r: seq<real>)
    ensures |r| == |batch|
  {
    seq(|batch|, row requires 0 <= row < |batch| =>
      nets.critic(live, i, Flatten(batch[row].state), Flatten(batch[row].action)))
  }

  /** The joint actions with agent i's column replaced by `col` (`_action_batch[:, i] = ...`). */
  function Substituted(rows: seq<seq<Vec>>, i: nat, col: seq<Vec>): (r: seq<seq<Vec>>)
    requires |col| == |rows| && forall k :: 0 <= k < |rows| ==> i < |rows[k]|
    ensures |r| == |rows|
    ensures forall k :: 0 <= k < |rows| ==> |r[k]| == |rows[k]| && r[k][i] == col[k]
    ensures forall k, j :: 0 <= k < |rows| && 0 <= j < |rows[k]| && j != i ==> r[k][j] == rows[k][j]
  {
    seq(|rows|, k requires 0 <= k < |rows| => rows[k][i := col[k]])
  }

  /** Agent i's hard Gumbel sample on its own stored observation, one per row (`gumbel_softmax(actor_i, hard=True)`). */
  function PolicyColumn<P>(nets: Nets<P>, live: P, batch: seq<Transition>, i: nat, noise: seq<real>): (col: seq<Vec>)
    requires |noise| == |batch| && forall k :: 0 <= k < |batch| ==> i < |batch[k].state|
    ensures |col| == |batch|
  {
    seq(|batch|, row requires 0 <= row < |batch| => nets.gumbel(nets.actor(live, i, batch[row].state[i]), noise[row]))
  }

  /** The Gumbel noise of an update: one list per agent, one draw per batch row. */
  predicate NoiseFits(noise: seq<seq<real>>, n: nat, b: nat)
  {
    |noise| == n && forall i :: 0 <= i < n ==> |noise[i]| == b
  }

  /** Agent i's critic loss. */
  function CriticLoss<P>(nets: Nets<P>, learning: Learning<P>, live: P, target: P, batch: seq<Transition>,
                         n: nat, i: nat, discount: real): real
    requires i < n && AllShaped(batch, n)
  {
    learning.smoothL1(PredictedQ(nets, live, batch, i), CriticTargets(nets, target, batch, n, i, discount))
  }

  /** Agent i's live critic on the stored joint observation and the given joint actions, one value per row. */
  function JointScores<P>(nets: Nets<P>, live: P, batch: seq<Transition>, i: nat, joint: seq<seq<Vec>>): (r: seq<real>)
    requires |joint| == |batch|
    ensures |r| == |batch|
  {
    seq(|batch|, row requires 0 <= row < |batch| => nets.critic(live, i, Flatten(batch[row].state), Flatten(joint[row])))
  }

  /** Agent i's actor loss: minus the mean live critic value at the substituted joint action. */
  function ActorLoss<P>(nets: Nets<P>, live: P, batch: seq<Transition>, noise: seq<seq<real>>, n: nat, i: nat): real
    requires i < n && AllShaped(batch, n) && |batch| > 0 && NoiseFits(noise, n, |batch|)
  {
    -Mean(JointScores(nets, live, batch, i, Substituted(Actions(batch), i, PolicyColumn(nets, live, batch, i, noise[i]))))
  }

  /** The critic losses of agents 0 .. k - 1 (`q_loss_n` after k iterations). */
  function CriticLossSum<P>(nets: Nets<P>, learning: Learning<P>, live: P, target: P, batch: seq<Transition>,
                            n: nat, discount: real, k: nat): real
    requires k <= n && AllShaped(batch, n)
  {
    if k == 0 then 0.0
    else CriticLossSum(nets, learning, live, target, batch, n, discount, k - 1)
         + CriticLoss(nets, learning, live, target, batch, n, k - 1, discount)
  }

  /** The actor losses of agents 0 .. k - 1 (`actor_loss_n` after k iterations). */
  function ActorLossSum<P>(nets: Nets<P>, live: P, batch: seq<Transition>, noise: seq<seq<real>>, n: nat, k: nat): real
    requires k <= n && AllShaped(batch, n) && |batch| > 0 && NoiseFits(noise, n, |batch|)
  {
    if k == 0 then 0.0 else ActorLossSum(nets, live, batch, noise, n, k - 1) + ActorLoss(nets, live, batch, noise, n, k - 1)
  }

  /**
   * Terminal masking, per agent i and batch row: on a row where agent i is done the target is
   * its reward alone; otherwise the reward plus the discounted target critic evaluated at the
   * bootstrap action, which is every agent's target-model one-hot choice on the next
   * observations and so the same for every i.
   */
  lemma {:induction false} BootstrappedTarget<P>(nets: Nets<P>, target: P, batch: seq<Transition>, n: nat, i: nat, discount: real, row: nat)
    requires i < n && AllShaped(batch, n) && row < |batch|
    ensures var t := batch[row];
            CriticTargets(nets, target, batch, n, i, discount)[row]
              == if t.done[i] then t.reward[i]
                 else t.reward[i] + discount * nets.critic(target, i, Flatten(t.nextState), TargetAction(nets, target, t, n))
    ensures forall j :: 0 <= j < n ==>
              SelectAction(nets, target, batch[row].nextState, n, false, [])[j] == nets.onehot(nets.actor(target, j, batch[row].nextState[j]))
  {
    var t := batch[row];
    var q := nets.critic(target, i, Flatten(t.nextState), TargetAction(nets, target, t, n));
    assert CriticTargets(nets, target, batch, n, i, discount)[row] == TdTarget(t.reward[i], t.done[i], discount, q);
  }

  // ---------------------------------------------------------------------------
  // Terminal masking as written
  // ---------------------------------------------------------------------------

  /** The number of rows a boolean mask selects. */
  function Selected(mask: seq<bool>): (m: nat)
    ensures m <= |mask|
  {
    if mask == [] then 0 else Selected(mask[..|mask| - 1]) + (if mask[|mask| - 1] then 1 else 0)
  }

  /** A mask selects as many rows as it has exactly when it selects every row. */
  lemma {:induction false} SelectedAll(mask: seq<bool>)
    ensures Selected(mask) == |mask| <==> forall k :: 0 <= k < |mask| ==> mask[k]
  {
    if mask != [] {
      var init := mask[..|mask| - 1];
      SelectedAll(init);
      assert forall k :: 0 <= k < |init| ==> init[k] == mask[k];
    }
  }

  /** `dst[mask] = vals` with one value per selected row: the selected rows receive `vals` in order. */
  function Scatter(dst: seq<real>, mask: seq<bool>, vals: seq<real>): (r: seq<real>)
    requires |dst| == |mask| && |vals| == Selected(mask)
    ensures |r| == |dst|
  {
    if mask == [] then []
    else
      var k := |mask| - 1;
      if mask[k] then Scatter(dst[..k], mask[..k], vals[..|vals| - 1]) + [vals[|vals| - 1]]
      else Scatter(dst[..k], mask[..k], vals) + [dst[k]]
  }

  /** Under a mask that selects every row, the scatter is the values themselves. */
  lemma {:induction false} ScatterAll(dst: seq<real>, mask: seq<bool>, vals: seq<real>)
    requires |dst| == |mask| == |vals| && forall k :: 0 <= k < |mask| ==> mask[k]
    ensures Selected(mask) == |mask| && Scatter(dst, mask, vals) == vals
  {
    SelectedAll(mask);
    if mask != [] {
      var k := |mask| - 1;
      ScatterAll(dst[..k], mask[..k], vals[..k]);
      assert vals[..k] + [vals[k]] == vals;
    }
  }

  /**
   * Boolean-mask assignment `dst[mask] = value` where `value` has one row per batch row: the
   * value must broadcast to the selected rows, so it needs as many rows as the mask selects or
   * exactly one row (which every selected row receives); otherwise the assignment raises.
   */
  function MaskedAssign(dst: seq<real>, mask: seq<bool>, value: seq<real>): (r: Option<seq<real>>)
    requires |dst| == |mask|
    ensures r.Some? ==> |r.value| == |dst|
  {
    if |value| == Selected(mask) then Some(Scatter(dst, mask, value))
    else if |value| == 1 then Some(Scatter(dst, mask, seq(Selected(mask), _ => value[0])))
    else None
  }

  /**
   * With one value per row, the assignment succeeds exactly when there is at most one row or
   * the mask selects every row, and then each row holds its value where selected and its old
   * entry elsewhere.
   */
  lemma {:induction false} MaskedAssignMeaning(dst: seq<real>, mask: seq<bool>, value: seq<real>)
    requires |dst| == |mask| == |value|
    ensures MaskedAssign(dst, mask, value).Some? <==> |value| <= 1 || forall k :: 0 <= k < |mask| ==> mask[k]
    ensures MaskedAssign(dst, mask, value).Some? ==>
              forall k :: 0 <= k < |dst| ==> MaskedAssign(dst, mask, value).value[k] == if mask[k] then value[k] else dst[k]
  {
    SelectedAll(mask);
    if forall k :: 0 <= k < |mask| ==> mask[k] {
      ScatterAll(dst, mask, value);
    } else if |mask| == 1 {
      assert !mask[0];
      assert Selected(mask) == 0;
      assert Scatter(dst, mask, seq(0, _ => value[0])) == [dst[0]];
    }
  }

  /** Agent i's target critic on every row's next observations and bootstrap action. */
  function BootstrapQ<P>(nets: Nets<P>, target: P, batch: seq<Transition>, n: nat, i: nat): (r: seq<real>)
    requires i < n && AllShaped(batch, n)
    ensures |r| == |batch|
    ensures forall row :: 0 <= row < |batch| ==>
              r[row] == nets.critic(target, i, Flatten(batch[row].nextState), TargetAction(nets, target, batch[row], n))
  {
    seq(|batch|, row requires 0 <= row < |batch| =>
      nets.critic(target, i, Flatten(batch[row].nextState), TargetAction(nets, target, batch[row], n)))
  }

  /** `non_final_mask[:, i]`: the rows where agent i is not done. */
  function NonFinal(batch: seq<Transition>, n: nat, i: nat): (r: seq<bool>)
    requires i < n && AllShaped(batch, n)
    ensures |r| == |batch| && forall row :: 0 <= row < |batch| ==> (r[row] <==> !batch[row].done[i])
  {
    seq(|batch|, row requires 0 <= row < |batch| => !batch[row].done[i])
  }

  /** `(discount * column).squeeze(1) + reward_batch[:, i]` for a masked target column. */
  function Discounted(column: seq<real>, batch: seq<Transition>, n: nat, i: nat, discount: real): (r: seq<real>)
    requires i < n && AllShaped(batch, n) && |column| == |batch|
    ensures |r| == |batch| && forall row :: 0 <= row < |batch| ==> r[row] == discount * column[row] + batch[row].reward[i]
  {
    seq(|batch|, row requires 0 <= row < |batch| => discount * column[row] + batch[row].reward[i])
  }

  /**
   * Agent i's critic targets as the update writes them: the target critic's column over the
   * whole batch is assigned into the zero column at the non-final rows, then discounted and
   * added to the reward. `None` is the shape error the assignment raises.
   */
  function CriticTargetsAsWritten<P>(nets: Nets<P>, target: P, batch: seq<Transition>, n: nat, i: nat, discount: real): (r: Option<seq<real>>)
    requires i < n && AllShaped(batch, n)
    ensures r.Some? ==> |r.value| == |batch|
  {
    match MaskedAssign(Zeros(|batch|), NonFinal(batch, n, i), BootstrapQ(nets, target, batch, n, i))
    case None => None
    case Some(masked) => Some(Discounted(masked, batch, n, i, discount))
  }

  /** A column that is zero on agent i's terminal rows and the target critic elsewhere discounts to the intended targets. */
  lemma {:induction false} MaskedColumnTargets<P>(nets: Nets<P>, target: P, batch: seq<Transition>, n: nat, i: nat, discount: real,
                                                  column: seq<real>)
    requires i < n && AllShaped(batch, n) && |column| == |batch|
    requires forall row :: 0 <= row < |batch| ==>
               column[row] == if batch[row].done[i] then 0.0 else BootstrapQ(nets, target, batch, n, i)[row]
    ensures Discounted(column, batch, n, i, discount) == CriticTargets(nets, target, batch, n, i, discount)
  {
    var got := Discounted(column, batch, n, i, discount);
    var want := CriticTargets(nets, target, batch, n, i, discount);
    forall row | 0 <= row < |batch|
      ensures got[row] == want[row]
    {
      BootstrappedTarget(nets, target, batch, n, i, discount, row);
    }
  }

  /**
   * The written masking only works when the batch has at most one row or agent i is done on
   * no row of it; where it works it computes the intended targets.
   */
  lemma {:induction false} MaskingAsWritten<P>(nets: Nets<P>, target: P, batch: seq<Transition>, n: nat, i: nat, discount: real)
    requires i < n && AllShaped(batch, n)
    ensures CriticTargetsAsWritten(nets, target, batch, n, i, discount).Some? <==>
              |batch| <= 1 || forall row :: 0 <= row < |batch| ==> !batch[row].done[i]
    ensures CriticTargetsAsWritten(nets, target, batch, n, i, discount).Some? ==>
              CriticTargetsAsWritten(nets, target, batch, n, i, discount).value == CriticTargets(nets, target, batch, n, i, discount)
  {
    var mask := NonFinal(batch, n, i);
    var q := BootstrapQ(nets, target, batch, n, i);
    var zero := Zeros(|batch|);
    MaskedAssignMeaning(zero, mask, q);
    assert (forall k :: 0 <= k < |mask| ==> mask[k]) <==> forall row :: 0 <= row < |batch| ==> !batch[row].done[i];
    var m := MaskedAssign(zero, mask, q);
    if m.Some? {
      MaskedColumnTargets(nets, target, batch, n, i, discount, m.value);
    }
  }

  /** A batch of two rows on which the only agent is done on the first and not on the second makes the written masking raise. */
  lemma {:induction false} MixedBatchRaises<P>(nets: Nets<P>, target: P, discount: real, t0: Transition, t1: Transition)
    requires Shaped(t0, 1) && Shaped(t1, 1) && t0.done[0] && !t1.done[0]
    ensures CriticTargetsAsWritten(nets, target, [t0, t1], 1, 0, discount).None?
  {
    MaskingAsWritten(nets, target, [t0, t1], 1, 0, discount);
    assert [t0, t1][0].done[0];
  }

  /**
   * Actor substitution: in the joint action the actor loss of agent i scores, agent i's part
   * is its own policy sample and every other agent's part is the stored action.
   */
  lemma {:induction false} SubstitutionKeepsOthers<P>(nets: Nets<P>, live: P, batch: seq<Transition>, noise: seq<seq<real>>, n: nat, i: nat, row: nat, j: nat)
    requires i < n && AllShaped(batch, n) && NoiseFits(noise, n, |batch|) && row < |batch| && j < n
    ensures var joint := Substituted(Actions(batch), i, PolicyColumn(nets, live, batch, i, noise[i]));
            && joint[row][j] == (if j == i then nets.gumbel(nets.actor(live, i, batch[row].state[i]), noise[i][row])
                                 else batch[row].action[j])
            && joint[row][..i] + joint[row][i + 1..] == batch[row].action[..i] + batch[row].action[i + 1..]
  {
    var joint := Substituted(Actions(batch), i, PolicyColumn(nets, live, batch, i, noise[i]));
    assert joint[row][..i] == batch[row].action[..i];
    assert joint[row][i + 1..] == batch[row].action[i + 1..];
  }

  /** `_action_batch = action_batch.clone(); _action_batch[:, i] = col`: the stored rows are left as they were. */
  method ReplaceColumn(rows: seq<seq<Vec>>, i: nat, col: seq<Vec>) returns (r: seq<seq<Vec>>)
    requires |col| == |rows| && forall k :: 0 <= k < |rows| ==> i < |rows[k]|
    ensures r == Substituted(rows, i, col)
  {
    r := rows;
    var k := 0;
    while k < |rows|
      invariant 0 <= k <= |rows| && |r| == |rows|
      invariant forall m :: 0 <= m < k ==> r[m] == rows[m][i := col[m]]
      invariant forall m :: k <= m < |rows| ==> r[m] == rows[m]
    {
      r := r[k := r[k][i := col[k]]];
      k := k + 1;
    }
  }

  /**
   * The loss loop of `__update`: for every agent, its critic loss against the masked TD
   * target and its actor loss at the substituted joint action, summed separately.
   */
  method BatchLoss<P>(nets: Nets<P>, learning: Learning<P>, live: P, target: P, batch: seq<Transition>,
                      noise: seq<seq<real>>, n: nat, discount: real) returns (qLoss: real, actorLoss: real)
    requires AllShaped(batch, n) && |batch| > 0 && NoiseFits(noise, n, |batch|)
    ensures qLoss == CriticLossSum(nets, learning, live, target, batch, n, discount, n)
    ensures actorLoss == ActorLossSum(nets, live, batch, noise, n, n)
  {
    qLoss, actorLoss := 0.0, 0.0;
    for i := 0 to n
      invariant qLoss == CriticLossSum(nets, learning, live, target, batch, n, discount, i)
      invariant actorLoss == ActorLossSum(nets, live, batch, noise, n, i)
    {
      var q, a := AgentLoss(nets, learning, live, target, batch, noise, n, i, discount);
      qLoss, actorLoss := qLoss + q, actorLoss + a;
    }
  }

  /** One pass of the loss loop of `__update`: agent i's critic loss and actor loss. */
  method AgentLoss<P>(nets: Nets<P>, learning: Learning<P>, live: P, target: P, batch: seq<Transition>,
                      noise: seq<seq<real>>, n: nat, i: nat, discount: real) returns (qLoss: real, actorLoss: real)
    requires i < n && AllShaped(batch, n) && |batch| > 0 && NoiseFits(noise, n, |batch|)
    ensures qLoss == CriticLoss(nets, learning, live, target, batch, n, i, discount)
    ensures actorLoss == ActorLoss(nets, live, batch, noise, n, i)
  {
    var pred := PredictedQ(nets, live, batch, i);
    var targets := CriticTargets(nets, target, batch, n, i, discount);
    qLoss := learning.smoothL1(pred, targets);

    var joint := ReplaceColumn(Actions(batch), i, PolicyColumn(nets, live, batch, i, noise[i]));
    actorLoss := -Mean(JointScores(nets, live, batch, i, joint));
  }

  /** Pushing a well-shaped transition into a memory of well-shaped transitions keeps it so. */
  lemma {:induction false} PushKeepsShaped(contents: seq<Transition>, capacity: nat, t: Transition, n: nat)
    requires 0 < capacity && |contents| <= capacity && AllShaped(contents, n) && Shaped(t, n)
    ensures AllShaped(Pushed(contents, capacity, t), n)
  {
  }

  /** Entries sampled from a memory of well-shaped transitions are well-shaped. */
  lemma {:induction false} SampledShaped(batch: seq<Transition>, contents: seq<Transition>, n: nat)
    requires AllShaped(contents, n) && forall t :: t in batch ==> t in contents
    ensures AllShaped(batch, n)
  {
    forall k | 0 <= k < |batch|
      ensures Shaped(batch[k], n)
    {
      assert batch[k] in contents;
      var j :| 0 <= j < |contents| && contents[j] == batch[k];
    }
  }

  // ---------------------------------------------------------------------------
  // Episode bookkeeping
  // ---------------------------------------------------------------------------

  /** Python's `all(done_n)`. */
  predicate AllDone(done: seq<bool>)
  {
    forall k :: 0 <= k < |done| ==> done[k]
  }

  /** `terminal = all(done_n) or step >= episode_max_steps`, with `step` the count before the increment. */
  predicate EndsEpisode(done: seq<bool>, step: nat, maxSteps: int)
  {
    AllDone(done) || step >= maxSteps
  }

  /** An episode's steps: the last one, and only the last one, ends the episode. */
  ghost predicate Terminates(history: seq<Transition>, maxSteps: int)
  {
    && |history| >= 1
    && (forall t :: 0 <= t < |history| - 1 ==> !EndsEpisode(history[t].done, t, maxSteps))
    && EndsEpisode(history[|history| - 1].done, |history| - 1, maxSteps)
  }

  /** Each step starts from the observation the previous step returned (`obs_n = next_obs_n`). */
  ghost predicate Chained(history: seq<Transition>)
  {
    forall t, u :: 0 <= t && u == t + 1 && u < |history| ==> history[u].state == history[t].nextState
  }

  /** A step as the environment took it: `env.step(e, action)` returned `t`'s results and the state `e'`. */
  ghost predicate StepOf<E>(env: Env<E>, e: E, t: Transition, e': E)
  {
    var r := env.step(e, t.action);
    t.nextState == r.obs && t.reward == r.reward && t.done == r.done && e' == r.env
  }

  /**
   * An episode as the environment produced it from the state `start`: `envs[0]` is the
   * state `env.reset()` leaves, the first step starts from the observation it returns,
   * and step t takes the environment from `envs[t]` to `envs[t + 1]`.
   */
  ghost predicate Rollout<E>(env: Env<E>, start: E, envs: seq<E>, history: seq<Transition>)
  {
    && |envs| == |history| + 1
    && envs[0] == env.reset(start).0
    && (history != [] ==> history[0].state == env.reset(start).1)
    && forall t, u :: 0 <= t && u == t + 1 && u < |envs| ==> StepOf(env, envs[t], history[t], envs[u])
  }

  /** One more step taken by the environment. */
  lemma {:induction false} RolloutSnoc<E>(env: Env<E>, start: E, envs: seq<E>, history: seq<Transition>, t: Transition, e': E)
    requires Rollout(env, start, envs, history)
    requires history == [] ==> t.state == env.reset(start).1
    requires StepOf(env, envs[|history|], t, e')
    ensures Rollout(env, start, envs + [e'], history + [t])
  {
    var es, h := envs + [e'], history + [t];
    forall k, u | 0 <= k && u == k + 1 && u < |es|
      ensures StepOf(env, es[k], h[k], es[u])
    {
      if k < |history| {
        assert es[k] == envs[k] && h[k] == history[k] && es[u] == envs[u];
      } else {
        assert es[k] == envs[|history|] && h[k] == t && es[u] == e';
      }
    }
  }

  /**
   * An episode takes at most `episode_max_steps + 1` environment steps (one when the limit is
   * not positive), and exactly that many when no step reports every agent done.
   */
  lemma {:induction false} EpisodeLength(history: seq<Transition>, maxSteps: int)
    requires Terminates(history, maxSteps)
    ensures |history| <= (if maxSteps < 0 then 0 else maxSteps) + 1
    ensures (forall t :: 0 <= t < |history| ==> !AllDone(history[t].done))
            ==> |history| == (if maxSteps < 0 then 0 else maxSteps) + 1
  {
    var last := |history| - 1;
    assert EndsEpisode(history[last].done, last, maxSteps);
    if |history| >= 2 {
      assert !EndsEpisode(history[last - 1].done, last - 1, maxSteps);
    }
  }

  /** The first step at which every agent is done ends the episode, if it comes before the step limit. */
  lemma {:induction false} FirstAllDoneEnds(history: seq<Transition>, maxSteps: int, t: nat)
    requires Terminates(history, maxSteps)
    requires t < |history| && AllDone(history[t].done)
    ensures |history| <= t + 1
  {
  }

  /** Agent i's reward summed over the steps of an episode. */
  function RewardSum(history: seq<Transition>, i: nat): real
    requires forall t :: 0 <= t < |history| ==> i < |history[t].reward|
  {
    if history == [] then 0.0 else RewardSum(history[..|history| - 1], i) + history[|history| - 1].reward[i]
  }

  /** `ep_reward`: one running total per agent, each the sum of that agent's rewards so far. */
  ghost predicate EpisodeRewards(epReward: seq<real>, history: seq<Transition>, n: nat)
    requires AllShaped(history, n)
  {
    |epReward| == n && forall i :: 0 <= i < n ==> epReward[i] == RewardSum(history, i)
  }

  /**
   * The steps of an episode so far: well-shaped, each starting from the observation the
   * previous one returned, the current observation the last one's result, and none but
   * possibly the last one ending the episode.
   */
  ghost predicate EpisodeSoFar(history: seq<Transition>, obs: seq<Vec>, n: nat, maxSteps: int)
  {
    && AllShaped(history, n) && Chained(history)
    && (history != [] ==> obs == history[|history| - 1].nextState)
    && (forall t :: 0 <= t < |history| - 1 ==> !EndsEpisode(history[t].done, t, maxSteps))
  }

  /** `for i, r_n in enumerate(reward_n): ep_reward[i] += r_n`. */
  method AddRewards(acc: seq<real>, reward: seq<real>) returns (r: seq<real>)
    requires |reward| == |acc|
    ensures |r| == |acc| && forall i :: 0 <= i < |acc| ==> r[i] == acc[i] + reward[i]
  {
    r := acc;
    for i := 0 to |reward|
      invariant |r| == |acc|
      invariant forall j :: 0 <= j < i ==> r[j] == acc[j] + reward[j]
      invariant forall j :: i <= j < |acc| ==> r[j] == acc[j]
    {
      r := r[i := r[i] + reward[i]];
    }
  }

  /** One more step that starts from the current observation and follows a step that did not end the episode. */
  lemma {:induction false} ExtendEpisode(history: seq<Transition>, t: Transition, epReward: seq<real>, n: nat, maxSteps: int)
    requires EpisodeSoFar(history, t.state, n, maxSteps) && Shaped(t, n)
    requires history != [] ==> !EndsEpisode(history[|history| - 1].done, |history| - 1, maxSteps)
    requires |epReward| == n && forall i :: 0 <= i < n ==> epReward[i] == RewardSum(history, i) + t.reward[i]
    ensures EpisodeSoFar(history + [t], t.nextState, n, maxSteps)
    ensures EpisodeRewards(epReward, history + [t], n)
  {
    var h := history + [t];
    assert forall k :: 0 <= k < |history| ==> h[k] == history[k];
    assert AllShaped(h, n);
    assert Chained(h);
    forall i | 0 <= i < n
      ensures epReward[i] == RewardSum(h, i)
    {
      RewardSumSnoc(history, t, i);
    }
  }

  /** The reward sum of one more step. */
  lemma {:induction false} RewardSumSnoc(history: seq<Transition>, t: Transition, i: nat)
    requires (forall k :: 0 <= k < |history| ==> i < |history[k].reward|) && i < |t.reward|
    ensures RewardSum(history + [t], i) == RewardSum(history, i) + t.reward[i]
  {
    assert (history + [t])[..|history|] == history;
  }

  /** `train_loss = loss if train_loss is None else train_loss + loss`, applied when `loss is not None`. */
  function Accumulate(acc: Option<real>, loss: Option<real>): Option<real>
  {
    if loss.None? then acc else if acc.None? then loss else Some(acc.value + loss.value)
  }

  /** `train_loss` after the updates that returned `losses`, starting from `acc`. */
  function FoldLosses(acc: Option<real>, losses: seq<Option<real>>): Option<real>
  {
    if losses == [] then acc else Accumulate(FoldLosses(acc, losses[..|losses| - 1]), losses[|losses| - 1])
  }

  /** The sum of the losses that were returned, skipped updates counting nothing. */
  function ReturnedTotal(losses: seq<Option<real>>): real
  {
    if losses == [] then 0.0
    else ReturnedTotal(losses[..|losses| - 1]) + (if losses[|losses| - 1].Some? then losses[|losses| - 1].value else 0.0)
  }

  /** Folding one more update result into `train_loss`. */
  lemma {:induction false} FoldLossesSnoc(acc: Option<real>, losses: seq<Option<real>>, loss: Option<real>)
    ensures FoldLosses(acc, losses + [loss]) == Accumulate(FoldLosses(acc, losses), loss)
  {
    assert (losses + [loss])[..|losses|] == losses;
  }

  /** Folding two runs of updates one after the other is folding them together. */
  lemma {:induction false} FoldLossesAppend(acc: Option<real>, a: seq<Option<real>>, b: seq<Option<real>>)
    ensures FoldLosses(acc, a + b) == FoldLosses(FoldLosses(acc, a), b)
  {
    if b == [] {
      assert a + b == a;
    } else {
      var init := b[..|b| - 1];
      FoldLossesAppend(acc, a, init);
      assert (a + b)[..|a + b| - 1] == a + init;
    }
  }

  /** The number of updates that were not skipped. */
  function CountSome(losses: seq<Option<real>>): nat
  {
    if losses == [] then 0 else CountSome(losses[..|losses| - 1]) + (if losses[|losses| - 1].Some? then 1 else 0)
  }

  lemma {:induction false} CountSomeSnoc(losses: seq<Option<real>>, loss: Option<real>)
    ensures CountSome(losses + [loss]) == CountSome(losses) + (if loss.Some? then 1 else 0)
  {
    assert (losses + [loss])[..|losses|] == losses;
  }

  /** `train_loss` is `None` exactly when every update was skipped, and otherwise the sum of the returned losses. */
  lemma {:induction false} FoldLossesMeaning(losses: seq<Option<real>>)
    ensures FoldLosses(None, losses).None? <==> forall k :: 0 <= k < |losses| ==> losses[k].None?
    ensures FoldLosses(None, losses).Some? ==> FoldLosses(None, losses).value == ReturnedTotal(losses)
    ensures FoldLosses(None, losses).None? ==> ReturnedTotal(losses) == 0.0 && CountSome(losses) == 0
  {
    if losses != [] {
      var init := losses[..|losses| - 1];
      FoldLossesMeaning(init);
      assert forall k :: 0 <= k < |init| ==> init[k] == losses[k];
    }
  }

  /** The number of chunks `train(episodes)` runs: the least r >= 0 with 2 * r >= episodes (`range(0, episodes, 2)`). */
  function Chunks(episodes: int): (r: nat)
    ensures 2 * r >= episodes
    ensures r == 0 || 2 * (r - 1) < episodes
  {
    if episodes <= 0 then 0 else (episodes + 1) / 2
  }

  /** `Chunks(episodes)` is the only count of two-episode chunks that covers `episodes` without an extra chunk. */
  lemma {:induction false} ChunksExact(episodes: int, r: nat)
    requires 2 * r >= episodes && (r == 0 || 2 * (r - 1) < episodes)
    ensures r == Chunks(episodes)
  {
  }

  /** The lifecycle markers of k chunks. */
  function Repeat(block: seq<Phase>, k: nat): (r: seq<Phase>)
    ensures |r| == k * |block|
  {
    if k == 0 then [] else Repeat(block, k - 1) + block
  }

  /** Collaborator calls made by `__update`, tagged with the update counter at the time of the call. */
  datatype Call = Push | Sample(k: nat) | OptimizerStep(iter: nat) | SoftUpdate(iter: nat)

  /** Lifecycle markers: a `_train(k)` call, a `test(k)` call, a `save()` call. */
  datatype Phase = TrainRun(episodes: int) | TestRun(episodes: int) | Saved

  /** Appending one more chunk's markers, one at a time. */
  lemma {:induction false} RepeatChunk(prefix: seq<Phase>, k: nat)
    ensures prefix + Repeat(Chunk, k) + [TrainRun(2)] + [TestRun(1)] + [Saved] == prefix + Repeat(Chunk, k + 1)
  {
  }

  /** One chunk's markers, one at a time. */
  lemma {:induction false} ChunkPhases(prefix: seq<Phase>)
    ensures prefix + [TrainRun(2)] + [TestRun(1)] + [Saved] == prefix + Chunk
  {
  }

  /** One chunk of `train`: two training episodes, one test episode, one checkpoint. */
  const Chunk: seq<Phase> := [TrainRun(2), TestRun(1), Saved]

  /**
   * The bookkeeping after one step of `_train`: the terminal test, the running loss and the
   * episode rewards. The ghost parameters carry the episode so far; the contract extends them
   * by this step.
   */
  method RecordTrainStep(t: Transition, step: nat, epReward: seq<real>, trainLoss: Option<real>, loss: Option<real>,
                         maxSteps: int, n: nat, ghost acc: Option<real>, ghost history: seq<Transition>, ghost losses: seq<Option<real>>)
    returns (terminal: bool, epReward': seq<real>, trainLoss': Option<real>)
    requires Shaped(t, n) && step == |history|
    requires EpisodeSoFar(history, t.state, n, maxSteps)
    requires history != [] ==> !EndsEpisode(history[|history| - 1].done, |history| - 1, maxSteps)
    requires EpisodeRewards(epReward, history, n) && trainLoss == FoldLosses(acc, losses)
    ensures terminal == EndsEpisode(t.done, |history|, maxSteps)
    ensures EpisodeSoFar(history + [t], t.nextState, n, maxSteps)
    ensures EpisodeRewards(epReward', history + [t], n)
    ensures trainLoss' == FoldLosses(acc, losses + [loss])
  {
    terminal := AllDone(t.done) || step >= maxSteps;
    trainLoss' := trainLoss;
    if loss.Some? {
      trainLoss' := if trainLoss'.None? then loss else Some(trainLoss'.value + loss.value);
    }
    FoldLossesSnoc(acc, losses, loss);
    epReward' := AddRewards(epReward, t.reward);
    ExtendEpisode(history, t, epReward', n, maxSteps);
  }

  /** The steps of several episodes, one after the other. */
  function Concat(histories: seq<seq<Transition>>): (r: seq<Transition>)
  {
    if histories == [] then [] else Concat(histories[..|histories| - 1]) + histories[|histories| - 1]
  }

  /** Every action of every episode is the model's greedy choice on the step's observation. */
  ghost predicate Greedy<P>(nets: Nets<P>, model: P, histories: seq<seq<Transition>>, n: nat)
  {
    forall e, t :: 0 <= e < |histories| && 0 <= t < |histories[e]| ==>
      n <= |histories[e][t].state| && histories[e][t].action == SelectAction(nets, model, histories[e][t].state, n, false, [])
  }

  /** Every episode of a run is complete and its reward totals are its agents' sums. */
  ghost predicate EpisodesDone(rewards: seq<seq<real>>, histories: seq<seq<Transition>>, n: nat, maxSteps: int)
  {
    && |rewards| == |histories|
    && forall e :: 0 <= e < |histories| ==>
         && Terminates(histories[e], maxSteps) && Chained(histories[e]) && AllShaped(histories[e], n)
         && EpisodeRewards(rewards[e], histories[e], n)
  }

  lemma {:induction false} ConcatSnoc(histories: seq<seq<Transition>>, history: seq<Transition>)
    ensures Concat(histories + [history]) == Concat(histories) + history
  {
    assert (histories + [history])[..|histories|] == histories;
  }

  /** One more complete episode. */
  lemma {:induction false} EpisodesDoneSnoc(rewards: seq<seq<real>>, histories: seq<seq<Transition>>, epReward: seq<real>, history: seq<Transition>,
                         n: nat, maxSteps: int)
    requires EpisodesDone(rewards, histories, n, maxSteps)
    requires Terminates(history, maxSteps) && Chained(history) && AllShaped(history, n) && EpisodeRewards(epReward, history, n)
    ensures EpisodesDone(rewards + [epReward], histories + [history], n, maxSteps)
  {
    var rs, hs := rewards + [epReward], histories + [history];
    assert forall e :: 0 <= e < |histories| ==> hs[e] == histories[e] && rs[e] == rewards[e];
  }

  /** `for ep in range(episodes)` runs this many episodes. */
  function EpisodeCount(episodes: int): nat
  {
    if episodes < 0 then 0 else episodes
  }

  /** The state the environment is left in by the episodes whose states are `envss`, run from `start`. */
  function LastState<E>(start: E, envss: seq<seq<E>>): E
  {
    if envss == [] || envss[|envss| - 1] == [] then start else envss[|envss| - 1][|envss[|envss| - 1]| - 1]
  }

  /** Episode e of a run started from `start` resets the environment from the state the episodes before it left. */
  ghost predicate RunAt<E>(env: Env<E>, start: E, envss: seq<seq<E>>, histories: seq<seq<Transition>>, e: nat)
    requires e < |envss| && e < |histories|
  {
    Rollout(env, LastState(start, envss[..e]), envss[e], histories[e])
  }

  /** Episodes run one after the other: each one resets the environment from the state the previous one left. */
  ghost predicate Runs<E>(env: Env<E>, start: E, envss: seq<seq<E>>, histories: seq<seq<Transition>>)
  {
    && |envss| == |histories|
    && forall e :: 0 <= e < |histories| ==> RunAt(env, start, envss, histories, e)
  }

  /** One more episode, reset from where the previous ones left the environment. */
  lemma {:induction false} RunsSnoc<E>(env: Env<E>, start: E, envss: seq<seq<E>>, histories: seq<seq<Transition>>,
                                       envs: seq<E>, history: seq<Transition>)
    requires Runs(env, start, envss, histories)
    requires Rollout(env, LastState(start, envss), envs, history)
    ensures Runs(env, start, envss + [envs], histories + [history])
    ensures LastState(start, envss + [envs]) == envs[|envs| - 1]
  {
    var es, hs := envss + [envs], histories + [history];
    forall e | 0 <= e < |hs|
      ensures RunAt(env, start, es, hs, e)
    {
      if e < |histories| {
        assert RunAt(env, start, envss, histories, e);
        assert es[..e] == envss[..e] && es[e] == envss[e] && hs[e] == histories[e];
      } else {
        assert es[..e] == envss;
      }
    }
  }

  /**
   * Update t of a run of steps was skipped exactly when the memory, after pushing the
   * transitions up to and including step t, held fewer than `batch_size` entries.
   */
  ghost predicate SkipsTied(contents: seq<Transition>, capacity: nat, batchSize: nat,
                            history: seq<Transition>, losses: seq<Option<real>>)
    requires 0 < capacity && |contents| <= capacity
  {
    && |losses| == |history|
    && forall t :: 0 <= t < |history| ==> (losses[t].None? <==> batchSize > |PushAll(contents, capacity, history[..t + 1])|)
  }

  /** One more step and the result of its update. */
  lemma {:induction false} SkipsTiedSnoc(contents: seq<Transition>, capacity: nat, batchSize: nat,
                                         history: seq<Transition>, losses: seq<Option<real>>, t: Transition, loss: Option<real>)
    requires 0 < capacity && |contents| <= capacity
    requires SkipsTied(contents, capacity, batchSize, history, losses)
    requires loss.None? <==> batchSize > |PushAll(contents, capacity, history + [t])|
    ensures SkipsTied(contents, capacity, batchSize, history + [t], losses + [loss])
  {
    var h, ls := history + [t], losses + [loss];
    forall k | 0 <= k < |h|
      ensures ls[k].None? <==> batchSize > |PushAll(contents, capacity, h[..k + 1])|
    {
      if k < |history| {
        assert h[..k + 1] == history[..k + 1] && ls[k] == losses[k];
      } else {
        assert h[..k + 1] == h;
      }
    }
  }

  /** Two runs of steps one after the other, the second starting from the memory the first left. */
  lemma {:induction false} SkipsTiedAppend(contents: seq<Transition>, capacity: nat, batchSize: nat,
                                           h1: seq<Transition>, l1: seq<Option<real>>, h2: seq<Transition>, l2: seq<Option<real>>)
    requires 0 < capacity && |contents| <= capacity
    requires SkipsTied(contents, capacity, batchSize, h1, l1)
    requires SkipsTied(PushAll(contents, capacity, h1), capacity, batchSize, h2, l2)
    ensures SkipsTied(contents, capacity, batchSize, h1 + h2, l1 + l2)
  {
    var h, ls := h1 + h2, l1 + l2;
    forall k | 0 <= k < |h|
      ensures ls[k].None? <==> batchSize > |PushAll(contents, capacity, h[..k + 1])|
    {
      if k < |h1| {
        assert h[..k + 1] == h1[..k + 1] && ls[k] == l1[k];
      } else {
        var j := k - |h1|;
        assert h[..k + 1] == h1 + h2[..j + 1] && ls[k] == l2[j];
        PushAllAppend(contents, capacity, h1, h2[..j + 1]);
      }
    }
  }

  lemma {:induction false} CountSomeAppend(a: seq<Option<real>>, b: seq<Option<real>>)
    ensures CountSome(a + b) == CountSome(a) + CountSome(b)
  {
    if b == [] {
      assert a + b == a;
    } else {
      var init := b[..|b| - 1];
      CountSomeAppend(a, init);
      assert (a + b)[..|a + b| - 1] == a + init;
    }
  }

  /** Two runs of episodes one after the other, the second starting where the first left the environment. */
  lemma {:induction false} RunsAppend<E>(env: Env<E>, start: E, a: seq<seq<E>>, ha: seq<seq<Transition>>,
                                         b: seq<seq<E>>, hb: seq<seq<Transition>>)
    requires Runs(env, start, a, ha) && Runs(env, LastState(start, a), b, hb)
    ensures Runs(env, start, a + b, ha + hb)
    ensures LastState(start, a + b) == LastState(LastState(start, a), b)
  {
    var es, hs := a + b, ha + hb;
    forall e | 0 <= e < |hs|
      ensures RunAt(env, start, es, hs, e)
    {
      if e < |ha| {
        assert RunAt(env, start, a, ha, e);
        assert es[..e] == a[..e] && es[e] == a[e] && hs[e] == ha[e];
      } else {
        var k := e - |ha|;
        assert RunAt(env, LastState(start, a), b, hb, k);
        assert es[..e] == a + b[..k] && es[e] == b[k] && hs[e] == hb[k];
        if k == 0 {
          assert a + b[..k] == a;
        } else {
          assert RunAt(env, LastState(start, a), b, hb, k - 1);
          assert b[..k][k - 1] == b[k - 1];
        }
      }
    }
    if b == [] {
      assert es == a;
    } else {
      assert RunAt(env, LastState(start, a), b, hb, |b| - 1);
    }
  }

  /**
   * What one pass of `train`'s loop did: its training episodes and the results of their
   * updates, its test episodes, and the environment states of all of them in order.
   */
  datatype ChunkLog<P, E> = ChunkLog(trained: seq<seq<Transition>>, trainScore: seq<seq<real>>,
                                     losses: seq<Option<real>>, trainLoss: Option<real>,
                                     tested: seq<seq<Transition>>, testScore: seq<seq<real>>, tester: P,
                                     envss: seq<seq<E>>)

  /** Every training transition of a run of chunks, in order. */
  function Trained<P, E>(chunks: seq<ChunkLog<P, E>>): seq<Transition>
  {
    if chunks == [] then [] else Trained(chunks[..|chunks| - 1]) + Concat(chunks[|chunks| - 1].trained)
  }

  /** Every update result of a run of chunks, in order. */
  function ChunkLosses<P, E>(chunks: seq<ChunkLog<P, E>>): seq<Option<real>>
  {
    if chunks == [] then [] else ChunkLosses(chunks[..|chunks| - 1]) + chunks[|chunks| - 1].losses
  }

  /** Every episode of a run of chunks in the order it ran: each chunk's training episodes, then its test episodes. */
  function ChunkEpisodes<P, E>(chunks: seq<ChunkLog<P, E>>): seq<seq<Transition>>
  {
    if chunks == [] then [] else ChunkEpisodes(chunks[..|chunks| - 1]) + (chunks[|chunks| - 1].trained + chunks[|chunks| - 1].tested)
  }

  /** The environment states of every episode of a run of chunks, in the same order. */
  function ChunkEnvss<P, E>(chunks: seq<ChunkLog<P, E>>): seq<seq<E>>
  {
    if chunks == [] then [] else ChunkEnvss(chunks[..|chunks| - 1]) + chunks[|chunks| - 1].envss
  }

  /**
   * What one pass of `train`'s loop promises: two complete training episodes with their reward
   * totals and the loss their updates summed to, and one complete test episode whose every
   * action is the greedy choice of the model it was tested with.
   */
  ghost predicate ChunkDone<P, E>(nets: Nets<P>, c: ChunkLog<P, E>, n: nat, maxSteps: int)
  {
    && |c.trained| == 2 && EpisodesDone(c.trainScore, c.trained, n, maxSteps)
    && c.trainLoss == FoldLosses(None, c.losses)
    && |c.tested| == 1 && EpisodesDone(c.testScore, c.tested, n, maxSteps)
    && Greedy(nets, c.tester, c.tested, n)
  }

  /** Every chunk of a run did what one pass of the loop promises. */
  ghost predicate ChunksDone<P, E>(nets: Nets<P>, chunks: seq<ChunkLog<P, E>>, n: nat, maxSteps: int)
  {
    forall k :: 0 <= k < |chunks| ==> ChunkDone(nets, chunks[k], n, maxSteps)
  }

  /** The logs of a run of chunks with one more chunk. */
  lemma {:induction false} ChunkLogSnoc<P, E>(chunks: seq<ChunkLog<P, E>>, c: ChunkLog<P, E>)
    ensures Trained(chunks + [c]) == Trained(chunks) + Concat(c.trained)
    ensures ChunkLosses(chunks + [c]) == ChunkLosses(chunks) + c.losses
    ensures ChunkEpisodes(chunks + [c]) == ChunkEpisodes(chunks) + (c.trained + c.tested)
    ensures ChunkEnvss(chunks + [c]) == ChunkEnvss(chunks) + c.envss
  {
    var cs := chunks + [c];
    assert cs[..|chunks|] == chunks;
    assert forall k :: 0 <= k < |chunks| ==> cs[k] == chunks[k];
  }

  /** One more pass of the loop that did what it promises. */
  lemma {:induction false} ChunksDoneSnoc<P, E>(nets: Nets<P>, chunks: seq<ChunkLog<P, E>>, c: ChunkLog<P, E>, n: nat, maxSteps: int)
    requires ChunksDone(nets, chunks, n, maxSteps) && ChunkDone(nets, c, n, maxSteps)
    ensures ChunksDone(nets, chunks + [c], n, maxSteps)
  {
    var cs := chunks + [c];
    assert forall k :: 0 <= k < |chunks| ==> cs[k] == chunks[k];
  }

  /** One more chunk's training episodes, pushed into the memory the earlier chunks left. */
  lemma {:induction false} ChunkSkipsSnoc<P, E>(contents: seq<Transition>, capacity: nat, batchSize: nat,
                                             chunks: seq<ChunkLog<P, E>>, c: ChunkLog<P, E>)
    requires 0 < capacity && |contents| <= capacity
    requires SkipsTied(contents, capacity, batchSize, Trained(chunks), ChunkLosses(chunks))
    requires SkipsTied(PushAll(contents, capacity, Trained(chunks)), capacity, batchSize, Concat(c.trained), c.losses)
    ensures SkipsTied(contents, capacity, batchSize, Trained(chunks + [c]), ChunkLosses(chunks + [c]))
    ensures PushAll(contents, capacity, Trained(chunks + [c]))
              == PushAll(PushAll(contents, capacity, Trained(chunks)), capacity, Concat(c.trained))
    ensures CountSome(ChunkLosses(chunks + [c])) == CountSome(ChunkLosses(chunks)) + CountSome(c.losses)
  {
    ChunkLogSnoc(chunks, c);
    PushAllAppend(contents, capacity, Trained(chunks), Concat(c.trained));
    SkipsTiedAppend(contents, capacity, batchSize, Trained(chunks), ChunkLosses(chunks), Concat(c.trained), c.losses);
    CountSomeAppend(ChunkLosses(chunks), c.losses);
  }

  /** One more chunk's episodes, run from where the earlier chunks left the environment. */
  lemma {:induction false} ChunkRunsSnoc<P, E>(env: Env<E>, start: E, chunks: seq<ChunkLog<P, E>>, c: ChunkLog<P, E>)
    requires Runs(env, start, ChunkEnvss(chunks), ChunkEpisodes(chunks))
    requires Runs(env, LastState(start, ChunkEnvss(chunks)), c.envss, c.trained + c.tested)
    ensures Runs(env, start, ChunkEnvss(chunks + [c]), ChunkEpisodes(chunks + [c]))
    ensures LastState(start, ChunkEnvss(chunks + [c])) == LastState(LastState(start, ChunkEnvss(chunks)), c.envss)
  {
    ChunkLogSnoc(chunks, c);
    RunsAppend(env, start, ChunkEnvss(chunks), ChunkEpisodes(chunks), c.envss, c.trained + c.tested);
  }

  // ---------------------------------------------------------------------------
  // The training run
  // ---------------------------------------------------------------------------

  class Maddpg<P, E(!new)> {
    const nets: Nets<P>
    const learning: Learning<P>
    const env: Env<E>
    const nAgents: nat
    const discount: real
    const batchSize: nat
    const tau: real
    const episodeMaxSteps: int
    const totalEpisodes: nat           // set by the constructor, never read
    const memory: ReplayMemory
    var model: P
    var targetModel: P
    var updateIter: nat
    var envState: E
    ghost var calls: seq<Call>
    ghost var phases: seq<Phase>

    ghost predicate Valid()
      reads this, memory
    {
      && memory.Valid()
      && 1 <= batchSize
      && EnvShaped(env, nAgents)
      && AllShaped(memory.contents, nAgents)
    }

    /** `MADDPG.__init__`: the target model starts as a copy of the live model's parameters. */
    constructor (nets: Nets<P>, learning: Learning<P>, env: Env<E>, env0: E, nAgents: nat, model0: P,
                 discount: real, batchSize: nat, memLen: nat, tau: real, episodeMaxSteps: int)
      requires 1 <= batchSize && 1 <= memLen && EnvShaped(env, nAgents)
      ensures Valid() && fresh(memory)
      ensures this.nets == nets && this.learning == learning && this.env == env && envState == env0
      ensures this.nAgents == nAgents && this.discount == discount && this.batchSize == batchSize
      ensures this.tau == tau && this.episodeMaxSteps == episodeMaxSteps && totalEpisodes == 10
      ensures memory.capacity == memLen && memory.contents == []
      ensures model == model0 && targetModel == model0 && updateIter == 0
      ensures calls == [] && phases == []
    {
      this.nets := nets;
      this.learning := learning;
      this.env := env;
      this.nAgents := nAgents;
      this.discount := discount;
      this.batchSize := batchSize;
      this.tau := tau;
      this.episodeMaxSteps := episodeMaxSteps;
      envState := env0;
      memory := new ReplayMemory(memLen);
      totalEpisodes := 10;
      model := model0;
      targetModel := model0;
      updateIter := 0;
      calls := [];
      phases := [];
    }

    /**
     * `__update`: push the transition; skip when the memory holds fewer than `batch_size`
     * entries; otherwise sample, sum every agent's actor and critic loss, take one optimizer
     * step, then one soft target update from the stepped model, then bump the counter.
     */
    method Update(t: Transition) returns (loss: Option<real>, draw: Draw)
      requires Valid() && Shaped(t, nAgents)
      modifies this, memory
      ensures Valid()
      ensures memory.contents == Pushed(old(memory.contents), memory.capacity, t)
      ensures envState == old(envState) && phases == old(phases)
      ensures loss.None? <==> batchSize > |memory.contents|
      ensures loss.None? ==>
        && model == old(model) && targetModel == old(targetModel) && updateIter == old(updateIter)
        && calls == old(calls) + [Push]
      ensures loss.Some? ==>
        && |draw.batch| == batchSize && DrawnFrom(draw.batch, memory.contents) && NoiseFits(draw.noise, nAgents, batchSize)
        && AllShaped(draw.batch, nAgents)
        && loss.value == ActorLossSum(nets, old(model), draw.batch, draw.noise, nAgents, nAgents)
                         + CriticLossSum(nets, learning, old(model), old(targetModel), draw.batch, nAgents, discount, nAgents)
        && model == learning.optimize(old(model), old(targetModel), draw)
        && targetModel == learning.softUpdate(old(targetModel), model, tau)
        && updateIter == old(updateIter) + 1
        && calls == old(calls) + [Push, Sample(batchSize), OptimizerStep(old(updateIter)), SoftUpdate(old(updateIter))]
    {
      PushKeepsShaped(memory.contents, memory.capacity, t, nAgents);
      memory.Push(t);
      if batchSize > |memory.contents| {
        calls := calls + [Push];
        return None, Draw([], []);
      }
      var batch := memory.Sample(batchSize);
      SampledShaped(batch, memory.contents, nAgents);
      var someNoise := seq(nAgents, _ => Zeros(batchSize));
      assert NoiseFits(someNoise, nAgents, batchSize);
      var noise: seq<seq<real>> :| NoiseFits(noise, nAgents, batchSize);

      var qLoss, actorLoss := BatchLoss(nets, learning, model, targetModel, batch, noise, nAgents, discount);
      loss := Some(actorLoss + qLoss);
      draw := Draw(batch, noise);
      model := learning.optimize(model, targetModel, draw);
      targetModel := learning.softUpdate(targetModel, model, tau);
      calls := calls + [Push, Sample(batchSize), OptimizerStep(updateIter), SoftUpdate(updateIter)];
      updateIter := updateIter + 1;
    }

    /**
     * An exploring action from the live model, one environment step, and one `__update` on
     * the resulting transition.
     */
    method ExploreStep(obs: seq<Vec>) returns (t: Transition, loss: Option<real>, draw: Draw)
      requires Valid() && |obs| == nAgents
      modifies this, memory
      ensures Valid() && phases == old(phases) && Shaped(t, nAgents) && t.state == obs
      ensures exists u :: |u| == nAgents && t.action == SelectAction(nets, old(model), obs, nAgents, true, u)
      ensures StepOf(env, old(envState), t, envState)
      ensures memory.contents == Pushed(old(memory.contents), memory.capacity, t)
      ensures loss.None? <==> batchSize > |memory.contents|
      ensures loss.None? ==>
        && model == old(model) && targetModel == old(targetModel) && updateIter == old(updateIter)
        && calls == old(calls) + [Push]
      ensures loss.Some? ==>
        && |draw.batch| == batchSize && DrawnFrom(draw.batch, memory.contents) && NoiseFits(draw.noise, nAgents, batchSize)
        && AllShaped(draw.batch, nAgents)
        && loss.value == ActorLossSum(nets, old(model), draw.batch, draw.noise, nAgents, nAgents)
                         + CriticLossSum(nets, learning, old(model), old(targetModel), draw.batch, nAgents, discount, nAgents)
        && model == learning.optimize(old(model), old(targetModel), draw)
        && targetModel == learning.softUpdate(old(targetModel), model, tau)
        && updateIter == old(updateIter) + 1
        && calls == old(calls) + [Push, Sample(batchSize), OptimizerStep(old(updateIter)), SoftUpdate(old(updateIter))]
    {
      assert |Zeros(nAgents)| == nAgents;
      var u: seq<real> :| |u| == nAgents;
      var action := SelectAction(nets, model, obs, nAgents, true, u);
      var res := env.step(envState, action);
      envState := res.env;
      t := Transition(obs, action, res.obs, res.reward, res.done);
      loss, draw := Update(t);
    }

    /**
     * One episode of `_train`: reset, then step with exploring actions, push and update after
     * every step, until a step ends the episode; rewards are summed per agent and returned
     * losses are added to the running `train_loss`. The ghost `envs` are the environment
     * states the episode passes through.
     */
    method TrainEpisode(acc: Option<real>)
      returns (epReward: seq<real>, trainLoss: Option<real>, ghost history: seq<Transition>,
               ghost losses: seq<Option<real>>, ghost envs: seq<E>)
      requires Valid()
      modifies this, memory
      ensures Valid() && phases == old(phases)
      ensures Rollout(env, old(envState), envs, history) && envState == envs[|history|]
      ensures Terminates(history, episodeMaxSteps) && Chained(history) && AllShaped(history, nAgents)
      ensures EpisodeRewards(epReward, history, nAgents)
      ensures memory.contents == PushAll(old(memory.contents), memory.capacity, history)
      ensures SkipsTied(old(memory.contents), memory.capacity, batchSize, history, losses)
      ensures updateIter == old(updateIter) + CountSome(losses)
      ensures trainLoss == FoldLosses(acc, losses)
    {
      ghost var start := envState;
      var reset := env.reset(envState);
      envState := reset.0;
      var obs := reset.1;
      var terminal := false;
      var step: nat := 0;
      epReward := Zeros(nAgents);
      trainLoss := acc;
      history, losses, envs := [], [], [envState];
      while !terminal
        invariant Valid() && phases == old(phases)
        invariant |obs| == nAgents && step == |history|
        invariant Rollout(env, start, envs, history) && envState == envs[|history|]
        invariant history == [] ==> obs == reset.1
        invariant EpisodeSoFar(history, obs, nAgents, episodeMaxSteps)
        invariant terminal <==> history != [] && EndsEpisode(history[|history| - 1].done, |history| - 1, episodeMaxSteps)
        invariant EpisodeRewards(epReward, history, nAgents)
        invariant memory.contents == PushAll(old(memory.contents), memory.capacity, history)
        invariant SkipsTied(old(memory.contents), memory.capacity, batchSize, history, losses)
        invariant updateIter == old(updateIter) + CountSome(losses)
        invariant trainLoss == FoldLosses(acc, losses)
        decreases if terminal then 0 else if step <= episodeMaxSteps then episodeMaxSteps - step + 2 else 1
      {
        ghost var contents0 := old(memory.contents);
        ghost var e := envState;
        var t, loss, _ := ExploreStep(obs);
        PushAllSnoc(contents0, memory.capacity, history, t);
        SkipsTiedSnoc(contents0, memory.capacity, batchSize, history, losses, t, loss);
        CountSomeSnoc(losses, loss);
        RolloutSnoc(env, start, envs, history, t, envState);
        terminal, epReward, trainLoss := RecordTrainStep(t, step, epReward, trainLoss, loss, episodeMaxSteps, nAgents, acc, history, losses);
        obs := t.nextState;
        step := step + 1;
        history, losses, envs := history + [t], losses + [loss], envs + [envState];
      }
    }

    /** One episode of `test`: deterministic actions, no push, no update. */
    method TestEpisode() returns (epReward: seq<real>, ghost history: seq<Transition>, ghost envs: seq<E>)
      requires Valid()
      modifies this
      ensures Valid() && unchanged(memory)
      ensures model == old(model) && targetModel == old(targetModel) && updateIter == old(updateIter)
      ensures calls == old(calls) && phases == old(phases)
      ensures Rollout(env, old(envState), envs, history) && envState == envs[|history|]
      ensures Terminates(history, episodeMaxSteps) && Chained(history) && AllShaped(history, nAgents)
      ensures forall t :: 0 <= t < |history| ==> history[t].action == SelectAction(nets, model, history[t].state, nAgents, false, [])
      ensures EpisodeRewards(epReward, history, nAgents)
    {
      ghost var start := envState;
      var reset := env.reset(envState);
      envState := reset.0;
      var obs := reset.1;
      var terminal := false;
      var step: nat := 0;
      epReward := Zeros(nAgents);
      history, envs := [], [envState];
      while !terminal
        invariant Valid() && unchanged(memory)
        invariant model == old(model) && targetModel == old(targetModel) && updateIter == old(updateIter)
        invariant calls == old(calls) && phases == old(phases)
        invariant |obs| == nAgents && step == |history|
        invariant Rollout(env, start, envs, history) && envState == envs[|history|]
        invariant history == [] ==> obs == reset.1
        invariant EpisodeSoFar(history, obs, nAgents, episodeMaxSteps)
        invariant forall t :: 0 <= t < |history| ==> history[t].action == SelectAction(nets, model, history[t].state, nAgents, false, [])
        invariant terminal <==> history != [] && EndsEpisode(history[|history| - 1].done, |history| - 1, episodeMaxSteps)
        invariant EpisodeRewards(epReward, history, nAgents)
        decreases if terminal then 0 else if step <= episodeMaxSteps then episodeMaxSteps - step + 2 else 1
      {
        var action := SelectAction(nets, model, obs, nAgents, false, []);
        var res := env.step(envState, action);
        var t := Transition(obs, action, res.obs, res.reward, res.done);
        RolloutSnoc(env, start, envs, history, t, res.env);
        envState := res.env;
        terminal := AllDone(res.done) || step >= episodeMaxSteps;
        obs := res.obs;
        step := step + 1;
        epReward := AddRewards(epReward, res.reward);
        ExtendEpisode(history, t, epReward, nAgents, episodeMaxSteps);
        history, envs := history + [t], envs + [envState];
      }
    }

    /**
     * `_train(episodes)`: that many training episodes, one after the other, with the running
     * loss carried across them; it returns each episode's reward totals and the loss sum, which
     * stays `None` while every update was skipped.
     */
    method TrainEpisodes(episodes: int)
      returns (trainRewards: seq<seq<real>>, trainLoss: Option<real>, ghost histories: seq<seq<Transition>>,
               ghost losses: seq<Option<real>>, ghost envss: seq<seq<E>>)
      requires Valid()
      modifies this, memory
      ensures Valid() && phases == old(phases) + [TrainRun(episodes)]
      ensures |histories| == EpisodeCount(episodes) && EpisodesDone(trainRewards, histories, nAgents, episodeMaxSteps)
      ensures Runs(env, old(envState), envss, histories) && envState == LastState(old(envState), envss)
      ensures memory.contents == PushAll(old(memory.contents), memory.capacity, Concat(histories))
      ensures SkipsTied(old(memory.contents), memory.capacity, batchSize, Concat(histories), losses)
      ensures updateIter == old(updateIter) + CountSome(losses)
      ensures trainLoss == FoldLosses(None, losses)
    {
      trainRewards, trainLoss, histories, losses, envss := [], None, [], [], [];
      for ep := 0 to EpisodeCount(episodes)
        invariant Valid() && phases == old(phases)
        invariant |histories| == ep && EpisodesDone(trainRewards, histories, nAgents, episodeMaxSteps)
        invariant Runs(env, old(envState), envss, histories) && envState == LastState(old(envState), envss)
        invariant memory.contents == PushAll(old(memory.contents), memory.capacity, Concat(histories))
        invariant SkipsTied(old(memory.contents), memory.capacity, batchSize, Concat(histories), losses)
        invariant updateIter == old(updateIter) + CountSome(losses)
        invariant trainLoss == FoldLosses(None, losses)
      {
        var epReward;
        ghost var history, epLosses, envs;
        epReward, trainLoss, history, epLosses, envs := TrainEpisode(trainLoss);
        PushAllAppend(old(memory.contents), memory.capacity, Concat(histories), history);
        SkipsTiedAppend(old(memory.contents), memory.capacity, batchSize, Concat(histories), losses, history, epLosses);
        CountSomeAppend(losses, epLosses);
        RunsSnoc(env, old(envState), envss, histories, envs, history);
        ConcatSnoc(histories, history);
        FoldLossesAppend(None, losses, epLosses);
        EpisodesDoneSnoc(trainRewards, histories, epReward, history, nAgents, episodeMaxSteps);
        trainRewards, histories, losses, envss := trainRewards + [epReward], histories + [history], losses + epLosses, envss + [envs];
      }
      phases := phases + [TrainRun(episodes)];
    }

    /**
     * `test(episodes)`: that many deterministic episodes, without storing or learning. With no
     * episode at all, the reward logging after the loop reads an unbound `ep_reward` and raises;
     * the result is then `None`.
     */
    method Test(episodes: int) returns (testRewards: Option<seq<seq<real>>>, ghost histories: seq<seq<Transition>>,
                                        ghost envss: seq<seq<E>>)
      requires Valid()
      modifies this
      ensures Valid() && unchanged(memory) && phases == old(phases) + [TestRun(episodes)]
      ensures model == old(model) && targetModel == old(targetModel) && updateIter == old(updateIter) && calls == old(calls)
      ensures testRewards.None? <==> episodes <= 0
      ensures |histories| == EpisodeCount(episodes)
      ensures Runs(env, old(envState), envss, histories) && envState == LastState(old(envState), envss)
      ensures testRewards.Some? ==> EpisodesDone(testRewards.value, histories, nAgents, episodeMaxSteps)
      ensures Greedy(nets, model, histories, nAgents)
    {
      var rewards: seq<seq<real>> := [];
      histories, envss := [], [];
      for ep := 0 to EpisodeCount(episodes)
        invariant Valid() && unchanged(memory) && phases == old(phases)
        invariant model == old(model) && targetModel == old(targetModel) && updateIter == old(updateIter) && calls == old(calls)
        invariant |histories| == ep && EpisodesDone(rewards, histories, nAgents, episodeMaxSteps)
        invariant Runs(env, old(envState), envss, histories) && envState == LastState(old(envState), envss)
        invariant Greedy(nets, model, histories, nAgents)
      {
        var epReward;
        ghost var history, envs;
        epReward, history, envs := TestEpisode();
        RunsSnoc(env, old(envState), envss, histories, envs, history);
        EpisodesDoneSnoc(rewards, histories, epReward, history, nAgents, episodeMaxSteps);
        rewards, histories, envss := rewards + [epReward], histories + [history], envss + [envs];
      }
      phases := phases + [TestRun(episodes)];
      testRewards := if episodes <= 0 then None else Some(rewards);
    }

    /** `save()`: the model's parameters are written out; nothing the engine holds changes. */
    method Save()
      modifies this
      ensures phases == old(phases) + [Saved]
      ensures model == old(model) && targetModel == old(targetModel) && updateIter == old(updateIter)
      ensures calls == old(calls) && envState == old(envState)
    {
      phases := phases + [Saved];
    }

    /** `_train(2)` as `train`'s loop calls it. */
    method TrainPair()
      returns (trainScore: seq<seq<real>>, trainLoss: Option<real>, ghost histories: seq<seq<Transition>>,
               ghost losses: seq<Option<real>>, ghost envss: seq<seq<E>>)
      requires Valid()
      modifies this, memory
      ensures Valid() && phases == old(phases) + [TrainRun(2)] && |histories| == 2
      ensures Runs(env, old(envState), envss, histories) && envState == LastState(old(envState), envss)
      ensures memory.contents == PushAll(old(memory.contents), memory.capacity, Concat(histories))
      ensures SkipsTied(old(memory.contents), memory.capacity, batchSize, Concat(histories), losses)
      ensures updateIter == old(updateIter) + CountSome(losses)
      ensures EpisodesDone(trainScore, histories, nAgents, episodeMaxSteps) && trainLoss == FoldLosses(None, losses)
    {
      var score, loss;
      score, loss, histories, losses, envss := TrainEpisodes(2);
      trainScore, trainLoss := score, loss;
    }

    /** `test(1)` as `train`'s loop calls it. */
    method TestOne() returns (testScore: Option<seq<seq<real>>>, ghost histories: seq<seq<Transition>>, ghost envss: seq<seq<E>>)
      requires Valid()
      modifies this
      ensures Valid() && unchanged(memory) && phases == old(phases) + [TestRun(1)] && |histories| == 1
      ensures model == old(model) && targetModel == old(targetModel) && updateIter == old(updateIter) && calls == old(calls)
      ensures Runs(env, old(envState), envss, histories) && envState == LastState(old(envState), envss)
      ensures testScore.Some? && EpisodesDone(testScore.value, histories, nAgents, episodeMaxSteps)
      ensures Greedy(nets, model, histories, nAgents)
    {
      var test;
      test, histories, envss := Test(1);
      testScore := test;
    }

    /**
     * One pass of `train`'s loop: `_train(2)`, then `test(1)`, then `save()`. Only the
     * training episodes reach the memory and the counter; all three episodes run the
     * environment one after the other.
     */
    method TrainChunk() returns (trainScore: seq<seq<real>>, trainLoss: Option<real>, testScore: Option<seq<seq<real>>>,
                                 ghost log: ChunkLog<P, E>)
      requires Valid()
      modifies this, memory
      ensures Valid() && phases == old(phases) + Chunk
      ensures |log.trained| == 2 && |log.tested| == 1
      ensures memory.contents == PushAll(old(memory.contents), memory.capacity, Concat(log.trained))
      ensures SkipsTied(old(memory.contents), memory.capacity, batchSize, Concat(log.trained), log.losses)
      ensures updateIter == old(updateIter) + CountSome(log.losses)
      ensures Runs(env, old(envState), log.envss, log.trained + log.tested) && envState == LastState(old(envState), log.envss)
      ensures ChunkDone(nets, log, nAgents, episodeMaxSteps) && log.tester == model
      ensures log.trainScore == trainScore && log.trainLoss == trainLoss && testScore == Some(log.testScore)
    {
      ghost var trained, losses, trainEnvss, tested, testEnvss;
      trainScore, trainLoss, trained, losses, trainEnvss := TrainPair();
      testScore, tested, testEnvss := TestOne();
      Save();
      ChunkPhases(old(phases));
      RunsAppend(env, old(envState), trainEnvss, trained, testEnvss, tested);
      log := ChunkLog(trained, trainScore, losses, trainLoss, tested, testScore.value, model, trainEnvss + testEnvss);
    }

    /**
     * The memory, the counter and the environment state are what the chunks in `chunks`
     * left, run from the environment state `start`, the memory `contents` and the counter `iter`.
     */
    ghost predicate ChunksLeft(start: E, contents: seq<Transition>, iter: nat, prefix: seq<Phase>, chunks: seq<ChunkLog<P, E>>)
      reads this, memory
    {
      && phases == prefix + Repeat(Chunk, |chunks|)
      && 0 < memory.capacity && |contents| <= memory.capacity
      && ChunksDone(nets, chunks, nAgents, episodeMaxSteps)
      && (chunks != [] ==> chunks[|chunks| - 1].tester == model)
      && memory.contents == PushAll(contents, memory.capacity, Trained(chunks))
      && SkipsTied(contents, memory.capacity, batchSize, Trained(chunks), ChunkLosses(chunks))
      && updateIter == iter + CountSome(ChunkLosses(chunks))
      && Runs(env, start, ChunkEnvss(chunks), ChunkEpisodes(chunks))
      && envState == LastState(start, ChunkEnvss(chunks))
    }

    /** One more pass of `train`'s loop, logged after the earlier ones. */
    method NextChunk(ghost start: E, ghost contents: seq<Transition>, ghost iter: nat, ghost prefix: seq<Phase>,
                     ghost chunks: seq<ChunkLog<P, E>>)
      returns (ghost chunks': seq<ChunkLog<P, E>>)
      requires Valid() && ChunksLeft(start, contents, iter, prefix, chunks)
      modifies this, memory
      ensures Valid() && |chunks'| == |chunks| + 1 && ChunksLeft(start, contents, iter, prefix, chunks')
    {
      RepeatChunk(prefix, |chunks|);
      ChunkPhases(prefix + Repeat(Chunk, |chunks|));
      var trainScore, trainLoss, testScore;
      ghost var log;
      trainScore, trainLoss, testScore, log := TrainChunk();
      ChunkLogSnoc(chunks, log);
      ChunkSkipsSnoc(contents, memory.capacity, batchSize, chunks, log);
      ChunkRunsSnoc(env, start, chunks, log);
      ChunksDoneSnoc(nets, chunks, log, nAgents, episodeMaxSteps);
      chunks' := chunks + [log];
    }

    /**
     * `train(episodes)`: for every `ep in range(0, episodes, 2)`, two training episodes, one
     * test episode and one checkpoint, in that order. The ghost `chunks` log what each pass did.
     */
    method Train(episodes: int) returns (ghost chunks: seq<ChunkLog<P, E>>)
      requires Valid()
      modifies this, memory
      ensures Valid() && phases == old(phases) + Repeat(Chunk, Chunks(episodes))
      ensures |chunks| == Chunks(episodes)
      ensures ChunksDone(nets, chunks, nAgents, episodeMaxSteps)
      ensures chunks != [] ==> chunks[|chunks| - 1].tester == model
      ensures memory.contents == PushAll(old(memory.contents), memory.capacity, Trained(chunks))
      ensures SkipsTied(old(memory.contents), memory.capacity, batchSize, Trained(chunks), ChunkLosses(chunks))
      ensures updateIter == old(updateIter) + CountSome(ChunkLosses(chunks))
      ensures Runs(env, old(envState), ChunkEnvss(chunks), ChunkEpisodes(chunks))
      ensures envState == LastState(old(envState), ChunkEnvss(chunks))
    {
      ghost var start, contents, iter := envState, memory.contents, updateIter;
      var ep := 0;
      chunks := [];
      assert Trained(chunks) == [] && ChunkLosses(chunks) == [] && ChunkEnvss(chunks) == [] && ChunkEpisodes(chunks) == [];
      assert phases == old(phases) + Repeat(Chunk, 0);
      while ep < episodes
        invariant Valid() && ep == 2 * |chunks| && (|chunks| == 0 || ep - 2 < episodes)
        invariant ChunksLeft(start, contents, iter, old(phases), chunks)
        decreases episodes - ep
      {
        chunks := NextChunk(start, contents, iter, old(phases), chunks);
        ep := ep + 2;
      }
      ChunksExact(episodes, |chunks|);
    }
  }
}
