# Multiband GAN training loops: a Dafny model

The repository trains GANs for continual learning, one task at a time.
For each task, `train_multiband_gan` does four things in order:

1. It trains a local GAN on the task. This is either the WGAN-GP trainer or the hinge-loss BigGAN trainer.
2. It records the task's per-class example counts in a shared class table.
3. It takes a copy of the local discriminator as the global discriminator.
4. It produces a global generator. At the first task this is a copy of the local generator. Later, the previous global generator is distilled on a shuffled mix of replayed earlier-task data and the current task's data.

This project models the discrete bookkeeping of those loops. Networks, losses and optimisers are opaque. A network is an object whose parameters change only through optimiser steps, and it is represented by the history of the steps applied to it. Each step records the decisions the loop made for it:

- the epoch and the batch;
- the objective, or the parameter group of the global optimiser;
- how many learning-rate scheduler steps are in force;
- the condition ids;
- for distillation, the shuffled noise, ids and targets.

Modules:

- `Tensors` (`tensors.dfy`): batches and examples; `torch.unique` as `SortedDistinct`.
- `Networks` (`networks.dfy`): the `Network` class (`Copy` is `copy.deepcopy`, `Step` is one `optimizer.step()`) and the shared `ClassTable` dictionary.
- `ClassCounts` (`class_counts.dfy`): the epoch-0 histogram, a unique-plus-counts scatter-add into an array.
- `Shuffle` (`shuffle.dfy`): `torch.randperm` indexing, `Gather`, of parallel sequences.
- `Conditions` (`conditions.dfy`): the fixed-width condition-id vector of the sample grids.
- `LocalTraining` (`local_training.dfy`): `train_local_biggan`, `train_local_wgan_gp` and `train_local`.
- `GlobalTraining` (`global_training.dfy`): `train_global_generator`.
- `Multiband` (`multiband.dfy`): `train_multiband_gan`.

Every imperative loop is a Dafny method with the source's loops. Each method is proved against a specification function of its inputs:

- `LocalTraining.CriticSchedule`, `GeneratorSchedule` and `Grids`;
- `GlobalTraining.Schedule`, `Recovered` and `Grids`;
- `ClassCounts.Histogram`.

Lemmas about those functions then state what the source promises.

External calls and randomness are parameters of the model:

- `generate_previous_data(budget)` at batch i of epoch e is `replay(budget, e, i)`.
- `optimize_noise`, `torch.randn` and `torch.randperm` at batch i of epoch e are the fields of `draw(e, i)`.

Their contracts are `WellFormedReplay` and `WellFormedDraw`. They require equal lengths, one latent code per image, and a shuffle that is a permutation. `WellFormedReplay` also assumes that `generate_previous_data` returns no rows when `n_prev_examples` is 0 or negative, or when `task_id` is 0. The replayed examples are whatever the oracle returns; nothing is assumed about which generator produced them.

## Model

| member | source | states |
|---|---|---|
| Networks.Network.Copy | gan_experiments/training_functions.py:422 | `copy.deepcopy` of a network gives a new object whose step history and `class_table` equal the source's. |
| Networks.Network.Step | gan_experiments/training_functions.py:520 | `optimizer.step()` appends exactly one update to the network's history and leaves its `class_table` unchanged. |
| Networks.ClassTable.Record | gan_experiments/multiband_training.py:59 | `class_table[task_id] = counts` sets that entry and keeps every other entry. |
| Tensors.SortedDistinct | gan_experiments/training_functions.py:130 | `np.sort(torch.unique(ids))` is strictly increasing and holds exactly the values of its input. It is non-empty for non-empty input and no longer than it. |
| Tensors.SortedDistinctIsUnique | gan_experiments/training_functions.py:130 | Any strictly sorted sequence with exactly the values of s is `SortedDistinct(s)`, so the sorted unique classes are determined by the labels alone. |
| ClassCounts.UniqueCounts | gan_experiments/training_functions.py:42 | `torch.unique(labels, return_counts=True)` gives the sorted distinct labels and, for each one, its positive number of occurrences. A value occurs in the labels iff it is among the classes. |
| ClassCounts.AddBatchCounts | gan_experiments/training_functions.py:41-43 | `table_tmp[classes] += counts` turns the histogram of the labels seen so far into the histogram of those labels followed by this batch's labels. |
| ClassCounts.HistogramTotal | gan_experiments/training_functions.py:196-203 | When every label is one of the `num_classes` classes, the table's entries are non-negative and add up to the number of labels counted. |
| Conditions.PaddedConditions | gan_experiments/training_functions.py:322-338 | The grid condition vector (blocks of `num_gen_images // k` copies per class, padded with the first class) always has exactly `num_gen_images` ids, and every one of them is one of the given classes. |
| Conditions.PaddedConditionsShape | gan_experiments/training_functions.py:322-338 | The grid condition vector has exactly `num_gen_images` ids. The first `k * (num_gen_images // k)` of them are one block of `num_gen_images // k` copies per class, in the given order. The remaining ones are the first class. |
| Conditions.PaddedConditionsCounts | gan_experiments/training_functions.py:130-146 | For sorted distinct classes, each class occurs `num_gen_images // k` times, the first class `num_gen_images % k` more, and no other id occurs. |
| Shuffle.Gather | gan_experiments/training_functions.py:508-510 | `x[shuffle]` has one row per entry of the index sequence. Its content is stated by ShufflePreservesRows and ShuffleKeepsRowsTogether. |
| Shuffle.ShufflePreservesRows | gan_experiments/training_functions.py:507-508 | Indexing a sequence by a permutation of its indices keeps its length and its multiset of elements. |
| Shuffle.ShuffleKeepsRowsTogether | gan_experiments/training_functions.py:507-510 | One permutation applied to examples, noise and ids shuffles whole (example, noise, id) rows. Every row survives intact, and only the order changes. |
| LocalTraining.TrainBatch | gan_experiments/training_functions.py:200-286 | Per batch, in epoch 0 only, the histogram grows by the batch's labels. The critic takes one step. The generator takes one step iff `i % n_critic_steps == 0`. The ids are the labels, or the task id once per image. |
| LocalTraining.TrainEpoch | gan_experiments/training_functions.py:200-313 | One pass over the loader appends exactly the epoch's critic and generator steps. In epoch 0 it fills the histogram from zero with all labels; later epochs leave it unchanged. It returns the last batch's ids. |
| LocalTraining.SampleGrid | gan_experiments/training_functions.py:315-340 | After an epoch that is a multiple of 50, one grid is appended, built from the last batch's ids; otherwise none. |
| LocalTraining.RunEpoch | gan_experiments/training_functions.py:198-343 | One epoch, its grid, and (for WGAN-GP) the scheduler step that advances the next epoch's decays. |
| LocalTraining.TrainAdversarial | gan_experiments/training_functions.py:196-345 | After `n_epochs` epochs the table has length `num_classes` and holds the histogram of the epoch-0 labels (all zero when no epoch ran). The networks hold exactly the scheduled steps, and the grids are those of epochs 0, 50, 100, ... |
| LocalTraining.TrainLocalBigGan | gan_experiments/training_functions.py:16-152 | The hinge-loss trainer: the same histogram, with critic and generator schedules whose steps all have zero scheduler decays. |
| LocalTraining.TrainLocalWganGp | gan_experiments/training_functions.py:155-345 | The WGAN-GP trainer: the same histogram, with schedules whose epoch-e steps come after e exponential-scheduler steps. |
| LocalTraining.TrainLocal | gan_experiments/training_functions.py:370-400 | Dispatches to the hinge trainer exactly when `local_GD` is given, and to the WGAN-GP trainer otherwise. |
| LocalTraining.CriticStepsEveryBatch | gan_experiments/training_functions.py:221-265 | The critic steps once on every batch of every epoch: E·B steps, among them the step of each (epoch, batch), and no other step. |
| LocalTraining.GeneratorStepsExactly | gan_experiments/training_functions.py:269-286 | The generator's step for (e, i) is scheduled iff `e < E` and `i % n_critic_steps == 0`, and every generator step is of that form. |
| LocalTraining.GeneratorSteppedBeforeEveryLog | gan_experiments/training_functions.py:87-100 | Batch 0 always steps the generator. So when batch i's losses are logged, the generator has already been stepped in that epoch, and `g_loss` is defined. |
| LocalTraining.StepsShape | gan_experiments/training_functions.py:207-215 | Every local step carries the run's objective and its epoch's decays (the epoch for WGAN-GP, 0 for hinge). Its ids are the batch's ids; in unconditional mode they are the task id, one per image. |
| LocalTraining.GridsShape | gan_experiments/training_functions.py:315-338 | Grids are built after every epoch 0, 50, 100, ... below E and after no other epoch. Each has exactly `num_gen_images` ids: the task id in unconditional mode, and otherwise only classes seen in the last batch. |
| GlobalTraining.Truncate | gan_experiments/training_functions.py:444 | Python's `int()` on a float rounds toward zero: the floor for non-negative values, the ceiling for negative ones. |
| GlobalTraining.ReplayBudget | gan_experiments/training_functions.py:444 | `n_prev_examples` is 0 at task 0. For task ≥ 3 the multiplier stays at 3. For a non-negative limit it is the floor of `batch_size * min(task_id, 3) * limit`. |
| GlobalTraining.DistillBatch | gan_experiments/training_functions.py:459-520 | One batch: replay, current rows, concatenation, one shuffle, one step. In epoch 0 the cache grows by this batch's recovered codes. Later epochs read entry i unchanged. The generation-only path keeps the cache empty. |
| GlobalTraining.DistillEpoch | gan_experiments/training_functions.py:459-547 | One pass appends exactly the epoch's steps. After it, the cache holds one entry per batch in batch order, or is empty on the generation-only path. It returns the last batch's labels. |
| GlobalTraining.LearnedTaskGrids | gan_experiments/training_functions.py:551-594 | One grid per learned task 0..task_id, built from the last batch's labels. |
| GlobalTraining.GlobalEpoch | gan_experiments/training_functions.py:459-600 | One epoch extends the schedule, the cache and the grids (grids after every tenth epoch). |
| GlobalTraining.WarmupSwitch | gan_experiments/training_functions.py:430-457 | The per-epoch optimiser and scheduler (PhaseAt, DecaysAt) satisfy the loop's epoch-by-epoch rule. Epoch 0 has a scheduler that has not stepped, and covers all parameters only when the warmup is 0. Each later epoch keeps the previous optimiser with one more scheduler step, except the warmup epoch, which starts an all-parameter optimiser with a new scheduler. |
| GlobalTraining.EndWarmup | gan_experiments/training_functions.py:450-457 | At `epoch == warmup_rounds` the optimiser switches to all parameters and the scheduler restarts. Otherwise both carry on. |
| GlobalTraining.Distill | gan_experiments/training_functions.py:422-600 | Starts from a fresh deep copy of the previous global generator and appends exactly the scheduled steps. After the first epoch the cache holds the recovered codes, one entry per batch; it stays empty on the generation-only path or with no epochs. The grids are those of epochs 0, 10, 20, .... |
| GlobalTraining.TrainGlobalGenerator | gan_experiments/training_functions.py:403-603 | `train_global_generator`: the distillation run of its arguments, including the replay budget, applied to a fresh copy of the previous global generator. |
| GlobalTraining.DistillStepsEveryBatch | gan_experiments/training_functions.py:459-520 | The global generator takes E·B steps, among them the step of each (epoch, batch). |
| GlobalTraining.DistillStepsOnly | gan_experiments/training_functions.py:459-520 | Every global step is the step of some batch of an epoch already run. |
| GlobalTraining.WarmupPhases | gan_experiments/training_functions.py:430-457 | A step updates all parameters iff `0 <= warmup_rounds <= epoch`, and otherwise the translator only. Its decays count from the warmup epoch afresh, and otherwise from epoch 0. A warmup that is negative or at least `n_epochs` never switches. |
| GlobalTraining.StepRows | gan_experiments/training_functions.py:498-510 | A step's three tensors have length "replayed + current". Its multiset of (target, noise, id) rows is exactly the replayed rows plus the current rows. |
| GlobalTraining.NoReplayAtFirstTask | gan_experiments/training_functions.py:444-467 | With nothing to replay (task 0, or a zero budget), a step trains on exactly the current task's rows. |
| GlobalTraining.CurrentRowsShape | gan_experiments/training_functions.py:468-496 | The current rows are one per image, and their ids are the labels, or the task id. They are either the real images with the codes recovered in epoch 0, identical in every epoch, or (on the generation-only path) examples tagged as produced by the local generator from this epoch's fresh noise. |
| GlobalTraining.GridIdsShape | gan_experiments/training_functions.py:552-587 | A learned task t's grid has `num_gen_images` ids: all equal to t, or under class conditioning all in `[2t, 2t + n)`, where n is the number of distinct labels of the last batch. |
| GlobalTraining.GlobalGridsShape | gan_experiments/training_functions.py:549-594 | Grids exist exactly for every epoch that is a multiple of 10 and every learned task 0..task_id. |
| Multiband.LocalEpochs | gan_experiments/multiband_training.py:43 | The local epoch count is at least `n_local_epochs`. It equals `n_local_epochs` iff the task is not the first or there are no global epochs. Local epochs plus distillation epochs always total `n_local + n_global`. |
| Multiband.TrainMultibandGan | gan_experiments/multiband_training.py:39-89 | Local training runs `n_local + n_global` epochs at task 0 and `n_local` otherwise. With a table, entry `task_id` and the local generator's `class_table` become the histogram and other entries are kept; without one, nothing is written. The returned discriminator is a fresh copy of the trained local one. At task 0 the global generator is a copy of the local generator. Otherwise it is the distillation run with `biggan_training` iff `local_GD` is given. The local generator returned is the one passed in. |

## Left out

- Numerics: forward and backward passes, the hinge, WGAN-GP and MSE losses, Adam, ExponentialLR arithmetic and learning rates are opaque. A step is recorded with its inputs, not its numeric effect.
- The gradient penalty, `optimize_noise` and `generate_previous_data` are not part of this model. The last two are oracles with length contracts, and the gradient penalty only enters the critic loss.
- `generate_previous_data` is assumed to return nothing when `n_prev_examples <= 0` or `task_id == 0`. Its code is not part of this model. GlobalTraining.NoReplayAtFirstTask rests on this assumption, and for a negative budget the behaviour is assumed, not derived.
- Randomness (`torch.randn`, `np.random.normal`, `torch.randperm`) is supplied through the `draw` parameter. The local trainers' `z` and `fixed_noise` only feed the opaque losses and images, so they are not represented.
- Logging and device plumbing are not modelled: `print`, `wandb.log`, `wandb.Image`, the `i % 40` and `i % 20` log conditions, `.to`/`.cpu`, `torch.cuda.empty_cache`, `set_detect_anomaly` and the train/eval mode toggles. The sample grids' condition ids are returned as values so they can be stated.
- GlobalTraining.ReplayBudget: the product is computed in exact reals, so float rounding of `batch_size * min(task_id, 3) * limit` before truncation is not modelled.
- LocalTraining.TrainLocal requires `n_critic_steps > 0`. Both local trainers compute `i % n_critic_steps`, which raises for 0.
- LocalTraining.TrainLocal requires every label to lie in `[0, num_classes)`. The trainers index `table_tmp` with the labels, and a negative label, which torch reads from the end of the table, is not modelled.
- LocalTraining.TrainLocal requires a non-empty loader in class-conditioned mode with at least one epoch. The grid code of both local trainers reads the ids of the last batch, which are unbound when the loader is empty.
- GlobalTraining.TrainGlobalGenerator requires a non-empty loader in class-conditioned mode with at least one epoch. Its grid code reads `curr_labels`, which is unbound when the loader is empty.
- Empty batches are not modelled: every batch is assumed to hold at least one image, with one label per image. In unconditional mode `train_local_wgan_gp` and `train_local_biggan` would accept an empty batch, which adds nothing to the histogram.
- Multiband.TrainMultibandGan: the class table and the local generator's `class_table` each receive the histogram by value. `train_multiband_gan` stores one tensor object in both, and that aliasing is not modelled.
- The loader yields the same batches in the same order in every epoch. `train_global_generator` relies on this when it reads `curr_noise_all[i]`.
- A batch's condition ids in class-conditioned mode are its label sequence. A one-label batch is used as is and a longer one through `torch.squeeze`, and both give that sequence.
- The BigGAN `shared` embedding of the ids is recorded as the `embedded` flag of each distillation step, not applied.
