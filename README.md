# MADDPG engine and grid-example networks, modelled in Dafny

This project models two parts of a multi-agent reinforcement-learning library.

The first is the MADDPG training engine of `marl/algo/maddpg.py`:

- the per-step update: push, skip while the replay memory is underfull, per-agent TD targets with terminal masking, actor substitution of one agent's action column, summed losses, then one optimizer step, one soft target update and one counter bump;
- the action-selection map over agents, exploring or greedy;
- the training and test episode loops, with their termination rule and per-agent reward sums;
- the `train` lifecycle: chunks of two training episodes, one test episode and one save.

The second is the agent containers of `examples/grid_env/networks.py`:

- the `*Net` containers and `agent(i)`;
- the width bookkeeping of every agent class, checked layer by layer;
- the `hx`/`cx` lifecycle of the recurrent agents: `init_hidden`, `get_thought`, `hidden_detach`;
- the zero-filled output heads.

Tensors are reduced to what the code's control flow depends on. In the engine, a batch row is a list of per-agent real vectors. The networks, the loss, the optimizer, `soft_update`, `gumbel_softmax`, `onehot_from_logits` and the environment are function-valued collaborators over an abstract parameter type. In the networks, a tensor is its shape, and a `nn.Sequential` is a chain of width-tagged layers. Running a chain either yields the output width or names the first `Linear` layer whose declared input width differs from what reaches it. Only the zero-filled heads are modelled on real matrices.

The files:

- `common.dfy`: sums, `Option`, flattening.
- `replay.dfy`: the replay-memory contract the engine relies on.
- `maddpg.dfy`: the engine, a class `Maddpg` with the loss definitions as functions.
- `layers.dfy`: the width checker and dense heads.
- `networks.dfy`: the feed-forward agents and containers.
- `recurrent.dfy`: the recurrent agents as classes with mutable `hx`/`cx`.

Three points on how the model reads the code:

- Done flags are per agent: the environment returns `done_n`, the episode ends on `all(done_n)`, and the update masks with column i of the stored flags (`non_final_mask[:, i]`).
- `test(episodes)` with `episodes <= 0` fails: it reads `ep_reward`, which was never bound (marl/algo/maddpg.py:169-171). `Test` returns `None` in that case.
- `ReplayMemory` is not part of this model. The engine relies on its documented contract: push evicts the oldest entry at capacity, and `sample(k)` returns k stored entries at distinct positions.

## Model

| member | source | states |
|---|---|---|
| Common.FlattenPart | marl/algo/maddpg.py:40-42 | each agent's vector sits unchanged in the joint row `flatten(1)` builds, at the offset of the widths before it, and the row is as wide as the sum of the widths |
| Replay.ReplayMemory.constructor | marl/algo/maddpg.py:15 | a new memory of the given capacity is empty |
| Replay.ReplayMemory.Push | marl/algo/maddpg.py:26 | the contents become the old contents with the transition appended, the oldest evicted once at capacity; the capacity bound is kept |
| Replay.ReplayMemory.Sample | marl/algo/maddpg.py:31 | k entries of the memory at k distinct positions (sampling without replacement), each one a stored transition |
| Replay.Pushed | marl/algo/maddpg.py:26 | one push keeps the newest `capacity` entries of the old contents plus the new one, and the new one is last |
| Replay.PushAllKeepsNewest | marl/algo/maddpg.py:26 | after any run of pushes the memory holds exactly the newest `capacity` of everything pushed, in order |
| Replay.Overfilled | marl/algo/maddpg.py:26 | after C + k pushes into an empty memory of capacity C, only the last C transitions remain: length C, the first k gone |
| Replay.PushAllAppend | marl/algo/maddpg.py:26 | pushing two runs one after the other is pushing their concatenation |
| MaddpgAlgo.SelectAction | marl/algo/maddpg.py:93-104 | one action per agent, agent i acting on its own logits (Gumbel sample when exploring, one-hot arg-max otherwise) |
| MaddpgAlgo.SelectionIsDecentralised | marl/algo/maddpg.py:96-102 | agent i's action depends only on agent i's observation and draw, whatever the other agents observe |
| MaddpgAlgo.GreedySelection | marl/algo/maddpg.py:100-101 | without exploration the selection ignores the random draw and is every agent's one-hot arg-max |
| MaddpgAlgo.TdTarget | marl/algo/maddpg.py:50-55 | a terminal row's target is its reward; any other row's is reward plus discount times the target critic's value |
| MaddpgAlgo.BootstrappedTarget | marl/algo/maddpg.py:50-55 | the intended critic target of agent i on a row is its reward when agent i is done there, otherwise reward + discount × target critic at the bootstrap action, which is every agent's target-model one-hot choice on the next observations and the same for every i |
| MaddpgAlgo.MaskedAssignMeaning | marl/algo/maddpg.py:53 | a boolean-mask assignment of one value per row succeeds exactly when there is at most one row or every row is selected, and then each row holds its value where selected and its old entry elsewhere |
| MaddpgAlgo.MaskingAsWritten | marl/algo/maddpg.py:50-55 | the written masking of the target critic succeeds exactly when the batch has at most one row or agent i is done on no row, and where it succeeds it equals the intended targets |
| MaddpgAlgo.MixedBatchRaises | marl/algo/maddpg.py:53 | a two-row batch whose only agent is done on the first row and not on the second makes the written masking raise |
| MaddpgAlgo.Substituted | marl/algo/maddpg.py:61-62 | in every row agent i's column becomes the new value, every other column keeps its stored value, and the row count and widths are kept |
| MaddpgAlgo.ReplaceColumn | marl/algo/maddpg.py:61-62 | the column assignment on a clone, built row by row in a loop, yields exactly the substituted joint actions; the stored rows are an input and stay as they were |
| MaddpgAlgo.SubstitutionKeepsOthers | marl/algo/maddpg.py:60-64 | in the joint action agent i's actor loss scores, agent i's part is its own Gumbel policy sample and every other part is the stored action |
| MaddpgAlgo.BatchLoss | marl/algo/maddpg.py:45-65 | the per-agent loop accumulates exactly the sum over all agents of the critic losses and, separately, of the actor losses |
| MaddpgAlgo.PushKeepsShaped | marl/algo/maddpg.py:26 | pushing a transition with one entry per agent keeps every stored transition so shaped |
| MaddpgAlgo.SampledShaped | marl/algo/maddpg.py:31-32 | a batch sampled from well-shaped contents is well-shaped |
| MaddpgAlgo.Maddpg.constructor | marl/algo/maddpg.py:13-23 | empty memory of capacity `mem_len`, target model equal to the live model, counter 0, `total_episodes` 10, no collaborator called yet |
| MaddpgAlgo.Maddpg.Update | marl/algo/maddpg.py:25-90 | always pushes first; returns `None` exactly when `batch_size` exceeds the memory length after the push, leaving model, target and counter unchanged with only the push called. Otherwise it samples `batch_size` distinct entries and returns actor-loss sum + critic-loss sum of the pre-step model. It then takes one optimizer step, then one soft update from the stepped model, then increments the counter by 1, with the calls in that order |
| MaddpgAlgo.Maddpg.ExploreStep | marl/algo/maddpg.py:117-124 | an exploring action from the live model, one `env.step` from the current environment state, and the resulting transition pushed. The loss is `None` exactly when the memory after the push holds fewer than `batch_size` entries, and then model, target and counter are unchanged with only the push called. Otherwise the loss, the optimizer step, the soft update, the counter and the call log are those `Update` states |
| MaddpgAlgo.EpisodeLength | marl/algo/maddpg.py:112-128 | an episode ended by the termination rule takes at most `episode_max_steps + 1` steps, and exactly that many when no step has every agent done |
| MaddpgAlgo.FirstAllDoneEnds | marl/algo/maddpg.py:122 | the first step at which every agent is done is the last step of the episode |
| MaddpgAlgo.AddRewards | marl/algo/maddpg.py:132-133 | every agent's running total grows by that agent's reward of the step, and nothing else changes |
| MaddpgAlgo.ExtendEpisode | marl/algo/maddpg.py:127-133 | a step taken from the current observation after a non-terminal step extends the episode: still chained and shaped, and every reward total is that agent's sum over the longer episode |
| MaddpgAlgo.RecordTrainStep | marl/algo/maddpg.py:122-133 | `terminal` is exactly the termination rule at this step; the reward totals and `train_loss` are those of the episode and update results extended by this step |
| MaddpgAlgo.FoldLossesAppend | marl/algo/maddpg.py:129-130 | accumulating `train_loss` over two runs of updates in turn equals accumulating over both at once |
| MaddpgAlgo.FoldLossesMeaning | marl/algo/maddpg.py:109-130 | `train_loss` is `None` exactly when every update was skipped, and otherwise the sum of the returned losses |
| MaddpgAlgo.EpisodesDoneSnoc | marl/algo/maddpg.py:111-135 | appending one complete episode and its reward totals keeps every recorded episode complete with its own agents' sums |
| MaddpgAlgo.Maddpg.TrainEpisode | marl/algo/maddpg.py:111-135 | one training episode, which is the environment's rollout from `env.reset()`, with each step taken by `env.step` from the state the previous step left. The termination rule ends it at its last step and at no earlier step. `ep_reward[i]` is agent i's reward sum. The memory is the old memory after pushing all the episode's transitions in order. The update of step t is skipped exactly when the memory after pushing steps 0..t holds fewer than `batch_size` entries; the counter rises by the number of updates not skipped, and `train_loss` is the old one with every returned loss added |
| MaddpgAlgo.Maddpg.TrainEpisodes | marl/algo/maddpg.py:106-142 | `_train(episodes)` runs `max(episodes, 0)` complete episodes and returns their reward totals. Each episode is an environment rollout that starts from the state the previous one left. The memory holds all their transitions pushed in order. Each update is skipped exactly when the memory after its push is below `batch_size`, and the counter rises by the number of updates not skipped. The loss is `None` exactly when every update was skipped, else the sum of the returned losses |
| MaddpgAlgo.Maddpg.TestEpisode | marl/algo/maddpg.py:148-166 | one test episode is the environment's rollout from `env.reset()` with greedy actions only. It is complete and chained, and sums every agent's rewards; memory, model, target, counter and call log are untouched |
| MaddpgAlgo.Maddpg.Test | marl/algo/maddpg.py:144-173 | `test(episodes)` runs `max(episodes, 0)` greedy episodes, each an environment rollout from the state the previous one left. It never touches memory, models, counter or collaborators. It fails exactly when `episodes <= 0`, and otherwise returns every episode's agent reward sums |
| MaddpgAlgo.Maddpg.Save | marl/algo/maddpg.py:180 | records one checkpoint and changes nothing the engine holds |
| MaddpgAlgo.Chunks | marl/algo/maddpg.py:177 | `range(0, episodes, 2)` has the least r >= 0 with 2r >= episodes elements, i.e. ceil(episodes / 2) for positive episodes |
| MaddpgAlgo.RunsAppend | marl/algo/maddpg.py:112 | two runs of episodes, the second started from the state the first left, are together one run of all the episodes, and they end in the second's last state |
| MaddpgAlgo.Maddpg.TrainPair | marl/algo/maddpg.py:178 | `_train(2)` plays two complete episodes, each ended by the termination rule and each an environment run from the state the previous one left, and returns their agents' reward sums and the sum of the returned losses (`None` when every update was skipped). The memory holds all their transitions pushed in order, each update is skipped exactly when the memory after its push is below `batch_size`, and the counter rises by the updates not skipped |
| MaddpgAlgo.Maddpg.TestOne | marl/algo/maddpg.py:179 | `test(1)` plays one complete episode, ended by the termination rule, with every action the live model's greedy choice, as an environment run from the current state. It returns that episode's agents' reward sums and leaves memory, model, target, counter and call log as they were |
| MaddpgAlgo.Maddpg.TrainChunk | marl/algo/maddpg.py:178-180 | one pass of `train`'s loop records `_train(2)`, then `test(1)`, then `save()`. Its log holds two complete training episodes with their reward sums and loss, and one complete test episode with its reward sums, whose every action is the greedy choice of the model the pass ends with. Only the training episodes reach the memory (pushed in order), the skipped updates and the counter; the three episodes run the environment one after the other, the test episode from the state the training ones left |
| MaddpgAlgo.ChunkSkipsSnoc | marl/algo/maddpg.py:177-179 | one more pass of the loop extends the pushes, the skipped-update rule and the counter of the passes before it to all training episodes so far |
| MaddpgAlgo.ChunksDoneSnoc | marl/algo/maddpg.py:177-179 | one more complete pass of the loop keeps every logged pass complete |
| MaddpgAlgo.ChunkRunsSnoc | marl/algo/maddpg.py:177-179 | one more pass of the loop, started from the state the earlier passes left, extends their environment run by its own three episodes |
| MaddpgAlgo.Maddpg.NextChunk | marl/algo/maddpg.py:177-180 | one more pass of `train`'s loop keeps the lifecycle markers, the memory, the counter and the environment state equal to what all passes so far, logged in order, produced from the state at entry, with every logged pass complete as `TrainChunk` states and the last one tested with the current model |
| MaddpgAlgo.Maddpg.Train | marl/algo/maddpg.py:175-180 | `train(episodes)` runs exactly ceil(episodes / 2) chunks, each `_train(2)`, then `test(1)`, then `save()`, in that order. Every chunk has two complete training episodes, with their reward sums and loss, and one complete greedy test episode, the last one tested with the final model. The memory holds every training transition of every chunk pushed in order, each update is skipped exactly when the memory after its push is below `batch_size`, the counter rises by the updates not skipped, and all episodes, training and test interleaved chunk by chunk, are one environment run from the state at entry |
| Layers.RunMeaning | examples/grid_env/networks.py:8-11 | a layer chain runs iff every `Linear` is declared for the width reaching it. It then yields the output width of its last `Linear`. Otherwise it reports the first layer that does not fit, with its declared and received widths |
| Layers.ZeroHead | examples/grid_env/networks.py:13-14 | a dense layer with zero-filled weight and bias answers a zero matrix for every input batch |
| Networks.DdpgCriticShapes | examples/grid_env/networks.py:8-19 | DDPGCritic accepts exactly observations `obs` wide and actions `action` wide over the same batch (the action meets a 128-wide encoding at an `action + 128` layer) and gives one value per row; each other case names its error |
| Networks.JointCriticFits | examples/grid_env/networks.py:46-51 | per-agent observations and actions of the declared widths, flattened, fit MADDPGNet's critic built on Σ len(obs_i) and Σ n_i |
| Networks.DdpgActorAsWrittenNeverRuns | examples/grid_env/networks.py:32-34 | the declared actor fails on every input: a fitting input reaches the 16-wide layer with 32 values |
| Networks.DdpgActorRuns | examples/grid_env/networks.py:32-34 | the corrected actor maps exactly `num_in_pol`-wide input to `num_out_pol` logits |
| Networks.DdpgAgentShapes | examples/grid_env/networks.py:22-51 | MADDPGNet's agent i, built with the corrected actor (see Findings), maps its own observation to its own logits, and its critic scores the joint widths to one value per row |
| Networks.BuildNet | examples/grid_env/networks.py:45-51 | a container holds exactly `len(obs_space_n)` agents, agent i built from the i-th observation width and action count |
| Networks.AgentAt | examples/grid_env/networks.py:53-54 | `agent(i)` exists exactly for 0 <= i < n and is then the i-th agent |
| Networks.BuiltAgentAt | examples/grid_env/networks.py:83-89 | in a built container `agent(i)` is the agent made from the i-th spaces for 0 <= i < n, and there is no other |
| Networks.VdAgentShapes | examples/grid_env/networks.py:68-76 | a VDN or IDQN agent gives one Q-value per action exactly on input of its own observation width, and otherwise names the first layer |
| Networks.CommAgentShapes | examples/grid_env/networks.py:102-112 | a SIC agent's message is 32 wide, and its critic accepts its message with 32-wide messages of exactly the n - 1 others, giving one value per action |
| Networks.ConsensusAgentShapes | examples/grid_env/networks.py:414-433 | a consensus agent thinks 32 wide, and `forward` accepts exactly a local and a global thought 32 wide over the same batch, giving one value per action |
| Networks.InitialHeadAnswersZero | examples/grid_env/networks.py:13-14 | the zero-filled head of every feed-forward agent (DDPGCritic and the consensus critic with one output, VDAgent and CommAgent with one per action) answers 0 for any input |
| Networks.ConsensusStartsAsAdvantage | examples/grid_env/networks.py:431-436 | while the critic is zero-filled, the consensus agent's `critic(g) + advantage(cat(l, g))` equals the advantage alone |
| Recurrent.AccShapes | examples/grid_env/networks.py:161-179 | ACC's `forward` runs iff one thought per neighbour is passed and, with neighbours, a single row of 32-wide thoughts. Then `hidden + (n-1)*hidden` meets the declared `hidden*n`, and it gives the logits and one value per row |
| Recurrent.AchacShapes | examples/grid_env/networks.py:217-243 | ACHAC's `forward` is ACC's. A lone agent's critic scores `hx`. With neighbours, the `hidden*n + (n-1)` critic accepts their thoughts exactly when one action per neighbour is joined |
| Recurrent.LoneAgentAsWrittenFails | examples/grid_env/networks.py:284-308 | as declared, a lone SIHA agent can neither act nor be scored, and a lone SIHCA agent cannot act: `hx` (32) reaches a 64-wide layer |
| Recurrent.SiPolicyShapes | examples/grid_env/networks.py:295-300 | with the corrected lone-agent heads, a SIHA or SIHCA agent acts alone on `hx`, and among neighbours exactly on a same-batch 32-wide global thought |
| Recurrent.SihaValueShapes | examples/grid_env/networks.py:302-308 | the corrected SIHA critic scores a lone agent's `hx`, and among neighbours a single row exactly when one action per neighbour is joined |
| Recurrent.SihcaValueShapes | examples/grid_env/networks.py:363-380 | SIHCA's `hidden + n_agents` critic scores a single global-thought row exactly when the global action has n entries, whatever `hx` holds |
| Recurrent.RecurrentAgent.constructor | examples/grid_env/networks.py:128-136 | a new recurrent agent keeps its construction arguments and starts with `hx` and `cx` unset |
| Recurrent.RecurrentAgent.InitHidden | examples/grid_env/networks.py:138-140 | both states become batch × 32 zeros without history |
| Recurrent.RecurrentAgent.GetThought | examples/grid_env/networks.py:167-170 | one LSTM step from the current states replaces `hx` and `cx` and returns the new `hx`. It fails, changing nothing, exactly when the states are unset or the input does not match their batch and the observation width |
| Recurrent.HeadsReadHidden | examples/grid_env/networks.py:172-179 | while `hx` is unset (as `__init__` leaves it) `forward` raises for every kind and `critic` raises for every kind but SIHCA |
| Recurrent.LoneAgentAfterInit | examples/grid_env/networks.py:138-179 | after `init_hidden(batch)` a lone agent acts exactly when ACC and ACHAC are passed no neighbour thoughts, giving `batch` rows of logits, and every kind but SIHCA is then scored with one value per row |
| Recurrent.RecurrentAgent.HiddenDetach | examples/grid_env/networks.py:145-147 | both states keep their values and lose their history; it fails, changing nothing, exactly when they are unset |
| Recurrent.RecurrentNet.constructor | examples/grid_env/networks.py:186-189 | one fresh, distinct recurrent agent per observation space, agent i built from the i-th spaces among n, none with a hidden state |
| Recurrent.RecurrentNet.AgentAt | examples/grid_env/networks.py:191-192 | `agent(i)` exists exactly for 0 <= i < n and is then the i-th agent |
| Recurrent.RecurrentNet.InitHidden | examples/grid_env/networks.py:194-196 | every agent 0..n-1 is zeroed for the batch, and nothing outside the agents changes |
| Recurrent.RecurrentNet.HiddenDetach | examples/grid_env/networks.py:198-200 | agents are detached in order. It succeeds iff every agent had a state. Otherwise the first unset agent raises: the agents before it are detached and it and the later ones are unchanged |

## Left out

- PyTorch numerics are abstracted away: `Linear` weights other than the zero-filled heads, ReLU/Tanh values, `LSTMCell` internals, SmoothL1 loss, backward, `clip_grad_norm_(10)`, the optimizer and the formula of `soft_update`. These are uninterpreted collaborator functions.
- Randomness (memory sampling, Gumbel noise) is nondeterministic choice. Uniformity is not modelled.
- Logging (`writer.add_scalar`), `print`, device placement, `torch.no_grad` and the train/eval mode toggles are left out: no control flow depends on them.
- `_Base` is not part of this model. The learning rate, the optimizer object, the environment construction and `episode_max_steps` become constructor parameters, and `save` only records a checkpoint marker.
- `ReplayMemory`, `Transition`, `soft_update`, `gumbel_softmax` and `onehot_from_logits` live in `marl/utils`, which is not part of this model. Each is given the contract the engine relies on.
- MaddpgAlgo.Maddpg.constructor: requires `batch_size >= 1` and `mem_len >= 1`. With `batch_size` 0 the skip test at marl/algo/maddpg.py:28 never skips, `sample(0)` returns an empty list, and `Transition(*zip(*[]))` at marl/algo/maddpg.py:32 raises a `TypeError`; a negative `batch_size` makes `sample` raise. With zero capacity the memory cannot hold the pushed entry. The model leaves these raising updates out instead of modelling them.
- MaddpgAlgo.Maddpg.constructor: also requires `EnvShaped`: every observation list of `env.reset()` and every observation, reward and done list of `env.step` has one entry per agent. The code assumes this without checking it.
- MaddpgAlgo.Maddpg.TrainEpisodes: states the memory, the counter, the skipped updates and the environment run over all episodes, but not the model, target model and call log after them; `Update` and `ExploreStep` state those for each call.
- MaddpgAlgo.Maddpg.Train and MaddpgAlgo.Maddpg.TrainChunk (also TrainPair and NextChunk): the same holds for the training loop; the model, target model and call log after each chunk are not stated, and the model each earlier chunk was tested with is logged but not tied to the models the training passed through.
- MaddpgAlgo.Maddpg.TrainEpisode: states the counter, the skipped updates and the pushes over the episode, but not the sequence of models, targets and calls it passes through; `Update` and `ExploreStep` state those for each call.
- MaddpgAlgo.Maddpg.Update and MaddpgAlgo.BootstrappedTarget: the update computes its critic targets with the intended terminal masking. The written masking raises on a batch that mixes done and not-done rows for an agent (see Findings), which the update does not model.
- MaddpgAlgo.Maddpg.Update and MaddpgAlgo.Maddpg.ExploreStep: `torch.FloatTensor` over the batch (marl/algo/maddpg.py:34-37) and over `obs_n` (marl/algo/maddpg.py:117) raises unless every agent's observation width is the same, and likewise for the action widths. The model accepts agents of mixed widths and does not capture this error.
- Recurrent.RecurrentAgent: a recurrent agent is built with the corrected lone-agent heads (`NewLayout`, see Findings), so `Forward` and `Critic` of a lone SIHA agent, and `Forward` of a lone SIHCA agent, return a result where the heads as declared raise (`LoneAgentAsWrittenFails` states that failure on `LayoutAsWritten`).
- The zero-filled critics of the recurrent agents (examples/grid_env/networks.py:164-165, 220-221, 287-288) are modelled by width only; `InitialHeadAnswersZero` covers the feed-forward heads.
- Networks.BuildNet, Networks.MakeAgent and Recurrent.RecurrentNet.constructor: require at least as many action spaces as observation spaces. With fewer, `action_space_n[i]` in the containers' constructors (for example examples/grid_env/networks.py:47-51 and 317-319) raises an `IndexError`, which the model does not capture.
- Networks.DdpgAgentShapes: the model builds MADDPGNet's agents, and so `BuildNet` for MADDPG, with the corrected actor; the actor as declared never runs (see Findings).
- `total_episodes` is set to 10 and never read.
- Both `main.py` files are CLI glue and are left out. examples/particle-envs/main.py builds `MADDPG(...)` with the arguments of the `__init__` in `marl/algo/maddpg.py`, but calls `train()` without `episodes`. examples/grid_env/main.py also passes `discrete_action_space`, `train_episodes` and `episode_max_steps`, which that `__init__` does not take, and calls `train(test_interval=...)`. The model follows the signatures in `marl/algo/maddpg.py`.
- Tensors whose batch dimension is greater than one are modelled by shape only, for example the `cat` of a multi-row `hx` with a flattened neighbour row.
- SIHCA_Critic: its two heads (`q_val`, and `adv` followed by Tanh) are modelled by their common input width only; the difference `q - adv` is not computed.
- `get_thought` of DQNConsensusAgent is `x_layer` alone and keeps no state. It is covered by the width of `xLayer`.
- The claim that `hx` is non-zero after one `get_thought` depends on LSTM weights, which are outside the model.
- The `device` argument of `init_hidden` only moves tensors and is left out.

## Findings

| source | as written | input that shows it | evidently intended | confidence | as-written member | corrected member |
|---|---|---|---|---|---|---|
| examples/grid_env/networks.py:32-34 | the DDPG actor is `Linear(num_in_pol, 32), ReLU, Linear(16, num_out_pol)` | any observation batch `num_in_pol` wide: 32 values reach the layer declared for 16 | `Linear(32, num_out_pol)` | not executed | Networks.DdpgActorAsWrittenNeverRuns | Networks.DdpgActorRuns |
| examples/grid_env/networks.py:284-308 | SIHA declares `pi` on `hidden*2` and `_critic` on `hidden*2 + neighbours_n`, yet with `neighbours_n == 0` both `forward` and `critic` pass `hx` alone | a SIHANet built for one agent: `hx` is 32 wide, and `pi` expects 64 | heads declared `hidden_size` wide when there are no neighbours | not executed | Recurrent.LoneAgentAsWrittenFails | Recurrent.SiPolicyShapes |
| examples/grid_env/networks.py:364-376 | SIHCA declares `pi` on `hidden*2`, yet with `neighbours_n == 0` `forward` passes `hx` alone | a SIHCANet built for one agent: `hx` is 32 wide, and `pi` expects 64 | `pi` declared `hidden_size` wide when there are no neighbours | not executed | Recurrent.LoneAgentAsWrittenFails | Recurrent.SiPolicyShapes |
| marl/algo/maddpg.py:50-54 | `target_next_obs_q[non_final_mask[:, i]] = target_critic(...)` assigns the critic's full batch column to the non-final rows | `batch_size` 2 with agent i's done flags `[True, False]`: one selected row receives a two-row value, and the assignment raises | the target critic's value on exactly the non-final rows, zero on terminal rows | not executed | MaddpgAlgo.MixedBatchRaises | MaddpgAlgo.BootstrappedTarget |
