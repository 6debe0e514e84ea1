/** The global distillation trainer `train_global_generator`. The global
    generator is a deep copy of the previous one, fitted by mean-squared
    error to a shuffled mix of replayed previous-task rows and current-task
    rows. Modelled: the replay budget, the two-phase optimiser with its
    scheduler reset at the warmup epoch, the recovered-noise cache written
    in epoch 0 and read afterwards, the concatenation and the single
    permutation applied to the three parallel tensors, and the per-task
    sample grids built every 10 epochs. */
module GlobalTraining {
  import opened Tensors
  import opened Networks
  import opened Conditions
  import opened Shuffle

  /** Sample grids are built after each epoch whose index is a multiple of
      this. */
  const GlobalGridEvery: nat := 10

  /** At most this many previous tasks' worth of replay per batch. */
  const MaxReplayTasks: nat := 3

  function Min(a: int, b: int): int
  {
    if a <= b then a else b
  }

  /** Python's `int()` on a float: rounds toward zero. */
  function Truncate(x: real): (r: int)
    ensures 0.0 <= x ==> r as real <= x < (r + 1) as real
    ensures x < 0.0 ==> (r - 1) as real < x <= r as real
  {
    if x >= 0.0 then x.Floor else -((-x).Floor)
  }

  /** `int(batch_size * min(task_id, 3) * limit_previous_examples)`: the
      number of replayed examples each batch asks for. Zero at task 0; the
      multiplier stops growing after three previous tasks; for a
      non-negative limit it is the floor of the product. */
  function ReplayBudget(batchSize: nat, taskId: nat, limit: real): (n: int)
    ensures taskId == 0 ==> n == 0
    ensures taskId >= MaxReplayTasks ==> n == Truncate((batchSize * MaxReplayTasks) as real * limit)
    ensures 0.0 <= limit ==>
      0 <= n && n as real <= (batchSize * Min(taskId, MaxReplayTasks)) as real * limit < (n + 1) as real
  {
    var examples := (batchSize * Min(taskId, MaxReplayTasks)) as real;
    ProductSign(examples, limit);
    Truncate(examples * limit)
  }

  lemma ProductSign(a: real, b: real)
    ensures a == 0.0 ==> a * b == 0.0
    ensures 0.0 <= a && 0.0 <= b ==> 0.0 <= a * b
  {
  }

  /** What `generate_previous_data` returns: parallel replayed examples,
      their noise and their condition ids. */
  datatype Replay = Replay(examples: seq<Example>, noise: seq<Noise>, ids: seq<int>)

  /** The results of the random or external calls made for one batch of one
      epoch: the latent codes `optimize_noise` recovers (only asked for in
      epoch 0), the fresh `torch.randn` noise of the generation-only path and
      the `torch.randperm` shuffle. */
  datatype Draw = Draw(recovered: seq<Noise>, sampled: seq<Noise>, perm: seq<nat>)

  /** Everything one distillation run depends on. `replay(budget, e, i)` and
      `draw(e, i)` stand for the external calls made at batch i of epoch e. */
  datatype Distillation = Distillation(
    taskId: nat, budget: int, loader: seq<Batch>, warmupRounds: int, classCond: bool,
    embedded: bool, onlyGenerations: bool, numGenImages: nat,
    replay: (int, nat, nat) -> Replay, draw: (nat, nat) -> Draw)

  /** The replay contract: three parallel tensors, empty when nothing is
      asked for or there is no previous task. */
  predicate WellFormedReplay(r: Replay, budget: int, taskId: nat)
  {
    |r.examples| == |r.noise| == |r.ids| && (budget <= 0 || taskId == 0 ==> |r.ids| == 0)
  }

  /** One latent code per image, and a permutation of all concatenated rows. */
  predicate WellFormedDraw(d: Draw, b: Batch, replayed: nat)
  {
    |d.recovered| == |b.images| && |d.sampled| == |b.images| &&
    IsPermutation(d.perm, replayed + |b.images|)
  }

  /** The external calls of batch i in epoch e keep their contracts. */
  ghost predicate ValidAt(d: Distillation, e: nat, i: nat)
    requires i < |d.loader|
  {
    WellFormedReplay(d.replay(d.budget, e, i), d.budget, d.taskId) &&
    WellFormedDraw(d.draw(e, i), d.loader[i], |d.replay(d.budget, e, i).ids|)
  }

  ghost predicate ValidDistillation(d: Distillation)
  {
    WellFormedLoader(d.loader) &&
    forall e: nat, i: nat :: i < |d.loader| ==> ValidAt(d, e, i)
  }

  /** The optimiser covers the translator only, until the epoch equal to
      `warmup_rounds` replaces it by one over all parameters. */
  function PhaseAt(warmupRounds: int, epoch: nat): Phase
  {
    if 0 <= warmupRounds <= epoch then AllParameters else TranslatorOnly
  }

  /** Scheduler steps taken by the scheduler in force during `epoch`; a new
      scheduler starts at the warmup epoch. */
  function DecaysAt(warmupRounds: int, epoch: nat): nat
  {
    if 0 <= warmupRounds <= epoch then epoch - warmupRounds else epoch
  }

  /** The optimiser and its scheduler epoch by epoch, as the loop reassigns
      them: epoch 0 starts with a scheduler that has not stepped, over all
      parameters only when the warmup is 0; each later epoch keeps the
      previous epoch's optimiser and its scheduler has stepped once more,
      except the warmup epoch, which starts an all-parameter optimiser with a
      new scheduler. */
  lemma WarmupSwitch(warmupRounds: int, epoch: nat)
    ensures epoch == 0 ==>
      (PhaseAt(warmupRounds, 0) == AllParameters <==> warmupRounds == 0) && DecaysAt(warmupRounds, 0) == 0
    ensures epoch > 0 ==>
      PhaseAt(warmupRounds, epoch) ==
        (if epoch == warmupRounds then AllParameters else PhaseAt(warmupRounds, epoch - 1)) &&
      DecaysAt(warmupRounds, epoch) ==
        (if epoch == warmupRounds then 0 else DecaysAt(warmupRounds, epoch - 1) + 1)
  {
  }

  /** The current task's condition ids: its labels, or the task id once per
      image. */
  function CurrentIds(d: Distillation, i: nat): (ids: seq<int>)
    requires ValidDistillation(d) && i < |d.loader|
    ensures |ids| == |d.loader[i].images|
  {
    if d.classCond then d.loader[i].labels else Repeat(d.taskId, |d.loader[i].images|)
  }

  /** The current task's noise: fresh noise on the generation-only path,
      otherwise the codes recovered for this batch in epoch 0. */
  function CurrentNoise(d: Distillation, e: nat, i: nat): (z: seq<Noise>)
    requires ValidDistillation(d) && i < |d.loader|
    ensures |z| == |d.loader[i].images|
  {
    assert ValidAt(d, e, i) && ValidAt(d, 0, i);
    if d.onlyGenerations then d.draw(e, i).sampled else d.draw(0, i).recovered
  }

  function Reals(images: seq<Image>): seq<Example>
  {
    seq(|images|, k requires 0 <= k < |images| => Real(images[k]))
  }

  /** The frozen local generator applied row by row:
      `curr_local_generator(curr_noise, curr_task_ids)`. */
  function Generate(z: seq<Noise>, ids: seq<int>): seq<Example>
    requires |z| == |ids|
  {
    seq(|z|, k requires 0 <= k < |z| => Generated(z[k], ids[k], LocalGenerator))
  }

  /** The current task's target examples: the real batch, or the local
      generator's output on fresh noise. */
  function CurrentExamples(d: Distillation, e: nat, i: nat): (x: seq<Example>)
    requires ValidDistillation(d) && i < |d.loader|
    ensures |x| == |d.loader[i].images|
  {
    assert ValidAt(d, e, i);
    if d.onlyGenerations then Generate(d.draw(e, i).sampled, CurrentIds(d, i))
    else Reals(d.loader[i].images)
  }

  /** The replayed (target, noise, id) rows of batch i in epoch e. */
  function ReplayRows(d: Distillation, e: nat, i: nat): (rows: seq<Sample>)
    requires ValidDistillation(d) && i < |d.loader|
    ensures |rows| == |d.replay(d.budget, e, i).ids|
  {
    assert ValidAt(d, e, i);
    var r := d.replay(d.budget, e, i);
    Zip(r.examples, r.noise, r.ids)
  }

  /** The current task's (target, noise, id) rows of batch i in epoch e. */
  function CurrentRows(d: Distillation, e: nat, i: nat): (rows: seq<Sample>)
    requires ValidDistillation(d) && i < |d.loader|
    ensures |rows| == |d.loader[i].images|
  {
    Zip(CurrentExamples(d, e, i), CurrentNoise(d, e, i), CurrentIds(d, i))
  }

  /** The noise, condition ids and targets of batch i in epoch e: replayed
      rows then current rows, all three indexed by the same permutation. */
  function Shuffled(d: Distillation, e: nat, i: nat): (seq<Noise>, seq<int>, seq<Example>)
    requires ValidDistillation(d) && i < |d.loader|
  {
    assert ValidAt(d, e, i) && ValidAt(d, 0, i);
    var r := d.replay(d.budget, e, i);
    var p := d.draw(e, i).perm;
    PermutationShape(p, |r.ids| + |d.loader[i].images|);
    (Gather(r.noise + CurrentNoise(d, e, i), p),
     Gather(r.ids + CurrentIds(d, i), p),
     Gather(r.examples + CurrentExamples(d, e, i), p))
  }

  /** The global generator's update at batch i of epoch e. */
  function StepAt(d: Distillation, e: nat, i: nat): Update
    requires ValidDistillation(d) && i < |d.loader|
  {
    var inputs := Shuffled(d, e, i);
    DistillStep(e, i, PhaseAt(d.warmupRounds, e), DecaysAt(d.warmupRounds, e), d.embedded,
                inputs.0, inputs.1, inputs.2)
  }

  /** Updates of epoch e over its first k batches. */
  function EpochSteps(d: Distillation, e: nat, k: nat): seq<Update>
    requires ValidDistillation(d) && k <= |d.loader|
  {
    seq(k, i requires 0 <= i < k => StepAt(d, e, i))
  }

  /** The loop step of an epoch: one more batch appends its update. */
  lemma EpochStepsNext(d: Distillation, e: nat, k: nat)
    requires ValidDistillation(d) && k < |d.loader|
    ensures EpochSteps(d, e, k + 1) == EpochSteps(d, e, k) + [StepAt(d, e, k)]
  {
    assert EpochSteps(d, e, k + 1)[..k] == EpochSteps(d, e, k);
  }

  /** Updates of the first E epochs. */
  function Schedule(d: Distillation, E: nat): seq<Update>
    requires ValidDistillation(d)
  {
    if E == 0 then [] else Schedule(d, E - 1) + EpochSteps(d, e := E - 1, k := |d.loader|)
  }

  /** The recovered-noise cache after epoch 0 has seen k batches. */
  function Recovered(d: Distillation, k: nat): seq<seq<Noise>>
  {
    seq(k, i requires 0 <= i < k => d.draw(0, i).recovered)
  }

  lemma RecoveredStep(d: Distillation, i: nat)
    ensures Recovered(d, i + 1) == Recovered(d, i) + [d.draw(0, i).recovered]
  {
  }

  /** Condition ids of the grid for learned task t: the task id, or under
      class conditioning the classes `[2t, 2t + n)` padded to the grid's
      width, n being the number of distinct labels of the last batch. */
  function GridIds(d: Distillation, t: nat): seq<int>
    requires ValidDistillation(d) && (d.classCond ==> |d.loader| > 0)
  {
    if !d.classCond then Repeat(t, d.numGenImages)
    else PaddedConditions(Range(2 * t, |SortedDistinct(d.loader[|d.loader| - 1].labels)|), d.numGenImages)
  }

  /** The grids of learned tasks 0 .. n-1 after epoch e. */
  function TaskGrids(d: Distillation, e: nat, n: nat): seq<Grid>
    requires ValidDistillation(d) && (d.classCond ==> |d.loader| > 0)
  {
    if n == 0 then [] else TaskGrids(d, e, n - 1) + [Grid(e, n - 1, GridIds(d, n - 1))]
  }

  /** The grids of the first E epochs. */
  function Grids(d: Distillation, E: nat): seq<Grid>
    requires ValidDistillation(d) && (d.classCond && E > 0 ==> |d.loader| > 0)
  {
    if E == 0 then []
    else Grids(d, E - 1) + if (E - 1) % GlobalGridEvery == 0 then TaskGrids(d, E - 1, d.taskId + 1) else []
  }

  /** One batch: replay, current rows (real images with cached codes, or
      generations from fresh noise), concatenation, one shuffle for all three
      tensors, one optimiser step. Returns `curr_labels`. */
  method DistillBatch(d: Distillation, epoch: nat, i: nat, phase: Phase, decays: nat,
                      noiseCache: seq<seq<Noise>>, globalGenerator: Network)
    returns (noiseCache': seq<seq<Noise>>, currLabels: Option<seq<int>>)
    requires ValidDistillation(d) && i < |d.loader|
    requires phase == PhaseAt(d.warmupRounds, epoch) && decays == DecaysAt(d.warmupRounds, epoch)
    requires noiseCache == if d.onlyGenerations then [] else if epoch == 0 then Recovered(d, i) else Recovered(d, |d.loader|)
    modifies globalGenerator
    ensures globalGenerator.updates == old(globalGenerator.updates) + [StepAt(d, epoch, i)]
    ensures globalGenerator.classTable == old(globalGenerator.classTable)
    ensures noiseCache' == if d.onlyGenerations then [] else if epoch == 0 then Recovered(d, i + 1) else noiseCache
    ensures currLabels == if d.classCond then Some(d.loader[i].labels) else None
  {
    assert ValidAt(d, epoch, i) && ValidAt(d, 0, i);
    var batch := d.loader[i];
    var prev := d.replay(d.budget, epoch, i);
    currLabels := if d.classCond then Some(batch.labels) else None;
    var currTaskIds := if d.classCond then batch.labels else Repeat(d.taskId, |batch.images|);
    var currExamples: seq<Example>;
    var currNoise: seq<Noise>;
    noiseCache' := noiseCache;
    if !d.onlyGenerations {
      currExamples := Reals(batch.images);
      if epoch == 0 {
        // latent recovery against the frozen local generator, once per batch
        currNoise := d.draw(0, i).recovered;
        noiseCache' := noiseCache + [currNoise];
        RecoveredStep(d, i);
      } else {
        currNoise := noiseCache[i];
      }
    } else {
      currNoise := d.draw(epoch, i).sampled;
      currExamples := Generate(currNoise, currTaskIds);
    }
    var examplesConcat := prev.examples + currExamples;
    var noiseConcat := prev.noise + currNoise;
    var taskIdsConcat := prev.ids + currTaskIds;
    var shuffle := d.draw(epoch, i).perm;
    PermutationShape(shuffle, |taskIdsConcat|);
    examplesConcat := Gather(examplesConcat, shuffle);
    noiseConcat := Gather(noiseConcat, shuffle);
    taskIdsConcat := Gather(taskIdsConcat, shuffle);
    globalGenerator.Step(DistillStep(epoch, i, phase, decays, d.embedded,
                                     noiseConcat, taskIdsConcat, examplesConcat));
  }

  /** One pass over the loader. */
  method DistillEpoch(d: Distillation, epoch: nat, phase: Phase, decays: nat,
                      noiseCache: seq<seq<Noise>>, globalGenerator: Network)
    returns (noiseCache': seq<seq<Noise>>, currLabels: Option<seq<int>>)
    requires ValidDistillation(d)
    requires phase == PhaseAt(d.warmupRounds, epoch) && decays == DecaysAt(d.warmupRounds, epoch)
    requires noiseCache == if d.onlyGenerations || epoch == 0 then [] else Recovered(d, |d.loader|)
    modifies globalGenerator
    ensures globalGenerator.updates == old(globalGenerator.updates) + EpochSteps(d, epoch, |d.loader|)
    ensures globalGenerator.classTable == old(globalGenerator.classTable)
    ensures noiseCache' == if d.onlyGenerations then [] else Recovered(d, |d.loader|)
    ensures d.classCond && |d.loader| > 0 ==> currLabels == Some(d.loader[|d.loader| - 1].labels)
  {
    noiseCache' := noiseCache;
    currLabels := None;
    var i := 0;
    while i < |d.loader|
      invariant i <= |d.loader|
      invariant globalGenerator.updates == old(globalGenerator.updates) + EpochSteps(d, epoch, i)
      invariant globalGenerator.classTable == old(globalGenerator.classTable)
      invariant noiseCache' == if d.onlyGenerations then [] else if epoch == 0 then Recovered(d, i) else Recovered(d, |d.loader|)
      invariant d.classCond && i > 0 ==> currLabels == Some(d.loader[i - 1].labels)
    {
      noiseCache', currLabels := DistillBatch(d, epoch, i, phase, decays, noiseCache', globalGenerator);
      EpochStepsNext(d, epoch, i);
      AppendAssoc(old(globalGenerator.updates), EpochSteps(d, epoch, i), [StepAt(d, epoch, i)]);
      i := i + 1;
    }
  }

  /** The grids of every task learned so far, 0 .. task_id. */
  method LearnedTaskGrids(d: Distillation, epoch: nat, currLabels: Option<seq<int>>)
    returns (grid: seq<Grid>)
    requires ValidDistillation(d)
    requires d.classCond ==> |d.loader| > 0 && currLabels == Some(d.loader[|d.loader| - 1].labels)
    ensures grid == TaskGrids(d, epoch, d.taskId + 1)
  {
    if d.classCond {
      assert WellFormedBatch(d.loader[|d.loader| - 1]);
    }
    grid := [];
    var learnedTaskId := 0;
    while learnedTaskId <= d.taskId
      invariant learnedTaskId <= d.taskId + 1
      invariant grid == TaskGrids(d, epoch, learnedTaskId)
    {
      var taskIds;
      if !d.classCond {
        taskIds := Repeat(learnedTaskId, d.numGenImages);
      } else {
        var nClassesPerTask := |SortedDistinct(currLabels.value)|;
        var classesToGenerate := Range(learnedTaskId * 2, nClassesPerTask);
        taskIds := PaddedConditions(classesToGenerate, d.numGenImages);
      }
      assert taskIds == GridIds(d, learnedTaskId);
      grid := grid + [Grid(epoch, learnedTaskId, taskIds)];
      learnedTaskId := learnedTaskId + 1;
    }
  }

  /** The run that `train_global_generator` performs for these arguments. */
  function DistillationOf(batchSize: nat, taskId: nat, limitPreviousExamples: real,
                          taskLoader: seq<Batch>, warmupRounds: int, numGenImages: nat,
                          classCond: bool, bigganTraining: bool, onlyGenerations: bool,
                          generatePreviousData: (int, nat, nat) -> Replay,
                          draw: (nat, nat) -> Draw): Distillation
  {
    Distillation(taskId, ReplayBudget(batchSize, taskId, limitPreviousExamples), taskLoader,
                 warmupRounds, classCond, bigganTraining, onlyGenerations, numGenImages,
                 generatePreviousData, draw)
  }

  /** The generator's history, the noise cache and the grids after E epochs
      of the run, starting from the history `before`. */
  ghost predicate Distilled(d: Distillation, E: nat, generator: Network, before: seq<Update>,
                            noiseCache: seq<seq<Noise>>, grids: seq<Grid>)
    requires ValidDistillation(d) && (d.classCond && E > 0 ==> |d.loader| > 0)
    reads generator
  {
    generator.updates == before + Schedule(d, E) &&
    noiseCache == (if d.onlyGenerations || E == 0 then [] else Recovered(d, |d.loader|)) &&
    grids == Grids(d, E)
  }

  /** One epoch of distillation followed, every 10 epochs, by the grids of
      all learned tasks. */
  method GlobalEpoch(d: Distillation, epoch: nat, phase: Phase, decays: nat, ghost before: seq<Update>,
                     noiseCache: seq<seq<Noise>>, grids: seq<Grid>, globalGenerator: Network)
    returns (noiseCache': seq<seq<Noise>>, grids': seq<Grid>)
    requires ValidDistillation(d) && (d.classCond ==> |d.loader| > 0)
    requires phase == PhaseAt(d.warmupRounds, epoch) && decays == DecaysAt(d.warmupRounds, epoch)
    requires Distilled(d, epoch, globalGenerator, before, noiseCache, grids)
    modifies globalGenerator
    ensures Distilled(d, epoch + 1, globalGenerator, before, noiseCache', grids')
    ensures globalGenerator.classTable == old(globalGenerator.classTable)
  {
    var currLabels;
    noiseCache', currLabels := DistillEpoch(d, epoch, phase, decays, noiseCache, globalGenerator);
    AppendAssoc(before, Schedule(d, epoch), EpochSteps(d, epoch, |d.loader|));
    grids' := grids;
    if epoch % GlobalGridEvery == 0 {
      var grid := LearnedTaskGrids(d, epoch, currLabels);
      grids' := grids + grid;
    }
  }

  /** `if epoch == warmup_rounds`: the translator-only optimiser and its
      scheduler are replaced by an optimiser over all parameters with a
      scheduler that has not stepped yet. */
  method EndWarmup(warmupRounds: int, epoch: nat, phase: Phase, decays: nat)
    returns (phase': Phase, decays': nat)
    requires epoch == 0 ==> phase == TranslatorOnly && decays == 0
    requires epoch > 0 ==> phase == PhaseAt(warmupRounds, epoch - 1) && decays == DecaysAt(warmupRounds, epoch - 1) + 1
    ensures phase' == PhaseAt(warmupRounds, epoch) && decays' == DecaysAt(warmupRounds, epoch)
  {
    phase', decays' := phase, decays;
    if epoch == warmupRounds {
      phase' := AllParameters;
      decays' := 0;
    }
  }

  /** The epoch loop: the translator-only warmup, then from epoch
      `warmup_rounds` on a new optimiser over all parameters with a new
      scheduler. */
  method Distill(d: Distillation, nEpochs: nat, currGlobalGenerator: Network)
    returns (globalGenerator: Network, noiseCache: seq<seq<Noise>>, grids: seq<Grid>)
    requires ValidDistillation(d) && (d.classCond && nEpochs > 0 ==> |d.loader| > 0)
    ensures fresh(globalGenerator)
    ensures globalGenerator.updates == currGlobalGenerator.updates + Schedule(d, nEpochs)
    ensures globalGenerator.classTable == currGlobalGenerator.classTable
    ensures noiseCache == if d.onlyGenerations || nEpochs == 0 then [] else Recovered(d, |d.loader|)
    ensures grids == Grids(d, nEpochs)
  {
    globalGenerator := new Network.Copy(currGlobalGenerator);
    var phase := TranslatorOnly;
    var decays := 0;
    noiseCache := [];
    grids := [];
    var epoch := 0;
    while epoch < nEpochs
      invariant epoch <= nEpochs
      invariant epoch == 0 ==> phase == TranslatorOnly && decays == 0
      invariant epoch > 0 ==> phase == PhaseAt(d.warmupRounds, epoch - 1) && decays == DecaysAt(d.warmupRounds, epoch - 1) + 1
      invariant Distilled(d, epoch, globalGenerator, currGlobalGenerator.updates, noiseCache, grids)
      invariant globalGenerator.classTable == currGlobalGenerator.classTable
    {
      phase, decays := EndWarmup(d.warmupRounds, epoch, phase, decays);
      noiseCache, grids := GlobalEpoch(d, epoch, phase, decays, currGlobalGenerator.updates,
                                       noiseCache, grids, globalGenerator);
      decays := decays + 1;
      epoch := epoch + 1;
    }
  }

  /** `train_global_generator`. The previous global generator and the local
      generator are read-only oracles: nothing here may modify them. */
  method TrainGlobalGenerator(batchSize: nat, taskId: nat, limitPreviousExamples: real,
                              currGlobalGenerator: Network, nEpochs: nat, taskLoader: seq<Batch>,
                              currLocalGenerator: Network, warmupRounds: int, numGenImages: nat,
                              classCond: bool, bigganTraining: bool, onlyGenerations: bool,
                              generatePreviousData: (int, nat, nat) -> Replay,
                              draw: (nat, nat) -> Draw)
    returns (globalGenerator: Network, noiseCache: seq<seq<Noise>>, grids: seq<Grid>)
    requires ValidDistillation(DistillationOf(batchSize, taskId, limitPreviousExamples, taskLoader,
                                              warmupRounds, numGenImages, classCond, bigganTraining,
                                              onlyGenerations, generatePreviousData, draw))
    requires classCond && nEpochs > 0 ==> |taskLoader| > 0
    ensures var d := DistillationOf(batchSize, taskId, limitPreviousExamples, taskLoader,
                                    warmupRounds, numGenImages, classCond, bigganTraining,
                                    onlyGenerations, generatePreviousData, draw);
      fresh(globalGenerator) &&
      globalGenerator.updates == currGlobalGenerator.updates + Schedule(d, nEpochs) &&
      globalGenerator.classTable == currGlobalGenerator.classTable &&
      noiseCache == (if onlyGenerations || nEpochs == 0 then [] else Recovered(d, |taskLoader|)) &&
      grids == Grids(d, nEpochs)
  {
    var d := DistillationOf(batchSize, taskId, limitPreviousExamples, taskLoader, warmupRounds,
                            numGenImages, classCond, bigganTraining, onlyGenerations,
                            generatePreviousData, draw);
    globalGenerator, noiseCache, grids := Distill(d, nEpochs, currGlobalGenerator);
  }

  lemma {:induction false} ScheduleLength(d: Distillation, E: nat)
    requires ValidDistillation(d)
    ensures |Schedule(d, E)| == E * |d.loader|
  {
    if E > 0 {
      ScheduleLength(d, E - 1);
      assert (E - 1) * |d.loader| + |d.loader| == E * |d.loader|;
    }
  }

  lemma {:induction false} StepScheduled(d: Distillation, E: nat, e: nat, i: nat)
    requires ValidDistillation(d) && e < E && i < |d.loader|
    ensures StepAt(d, e, i) in Schedule(d, E)
  {
    var last := EpochSteps(d, E - 1, |d.loader|);
    assert Schedule(d, E) == Schedule(d, E - 1) + last;
    if e == E - 1 {
      assert last[i] == StepAt(d, e, i);
    } else {
      StepScheduled(d, E - 1, e, i);
    }
  }

  /** The global generator takes one step per batch of every epoch: E * B
      steps, among them the step of each (epoch, batch). */
  lemma DistillStepsEveryBatch(d: Distillation, E: nat)
    requires ValidDistillation(d)
    ensures |Schedule(d, E)| == E * |d.loader|
    ensures forall e: nat, i: nat :: e < E && i < |d.loader| ==> StepAt(d, e, i) in Schedule(d, E)
  {
    ScheduleLength(d, E);
    forall e: nat, i: nat | e < E && i < |d.loader| ensures StepAt(d, e, i) in Schedule(d, E) {
      StepScheduled(d, E, e, i);
    }
  }

  /** Every step of the global generator is the step of some batch of an
      epoch already run. */
  lemma {:induction false} DistillStepsOnly(d: Distillation, E: nat)
    requires ValidDistillation(d)
    ensures forall u :: u in Schedule(d, E) ==>
      exists e: nat, i: nat :: e < E && i < |d.loader| && u == StepAt(d, e, i)
  {
    if E > 0 {
      var B := |d.loader|;
      DistillStepsOnly(d, E - 1);
      forall u | u in Schedule(d, E)
        ensures exists e: nat, i: nat :: e < E && i < B && u == StepAt(d, e, i)
      {
        if u in EpochSteps(d, E - 1, B) {
          var i :| 0 <= i < B && EpochSteps(d, E - 1, B)[i] == u;
        }
      }
    }
  }

  /** Warmup: steps of the epochs before `warmup_rounds` update the
      translator only; from that epoch on they update all parameters, and the
      scheduler's decays count from that epoch afresh. A negative warmup, or
      one of at least E epochs, never switches within E epochs. */
  lemma WarmupPhases(d: Distillation, E: nat)
    requires ValidDistillation(d)
    ensures forall u :: u in Schedule(d, E) ==>
      u.DistillStep? && u.epoch < E && u.batch < |d.loader| && u.embedded == d.embedded &&
      (u.phase == AllParameters <==> 0 <= d.warmupRounds <= u.epoch) &&
      u.decays == (if 0 <= d.warmupRounds <= u.epoch then u.epoch - d.warmupRounds else u.epoch)
    ensures d.warmupRounds < 0 || d.warmupRounds >= E ==>
      forall u :: u in Schedule(d, E) ==> u.phase == TranslatorOnly
  {
    DistillStepsOnly(d, E);
  }

  /** Each step trains on all the replayed rows and all the current rows and
      nothing else, under one shuffle: every (target, noise, id) row keeps
      its three parts together. */
  lemma StepRows(d: Distillation, e: nat, i: nat)
    requires ValidDistillation(d) && i < |d.loader|
    ensures var u, r := StepAt(d, e, i), d.replay(d.budget, e, i);
      u.DistillStep? &&
      |u.targets| == |u.noise| == |u.ids| == |r.ids| + |d.loader[i].images| &&
      multiset(Zip(u.targets, u.noise, u.ids)) == multiset(ReplayRows(d, e, i)) + multiset(CurrentRows(d, e, i))
  {
    assert ValidAt(d, e, i) && ValidAt(d, 0, i);
    var r := d.replay(d.budget, e, i);
    var examples, noise, ids := CurrentExamples(d, e, i), CurrentNoise(d, e, i), CurrentIds(d, i);
    var p := d.draw(e, i).perm;
    ZipAppend(r.examples, r.noise, r.ids, examples, noise, ids);
    ShuffleKeepsRowsTogether(r.examples + examples, r.noise + noise, r.ids + ids, p);
  }

  /** With nothing to replay (the first task, or a budget of zero) a step
      trains on exactly the current task's rows. */
  lemma NoReplayAtFirstTask(d: Distillation, e: nat, i: nat)
    requires ValidDistillation(d) && i < |d.loader| && (d.taskId == 0 || d.budget <= 0)
    ensures var u := StepAt(d, e, i);
      u.DistillStep? && |u.ids| == |d.loader[i].images| &&
      multiset(Zip(u.targets, u.noise, u.ids)) == multiset(CurrentRows(d, e, i))
  {
    assert ValidAt(d, e, i);
    StepRows(d, e, i);
    assert ReplayRows(d, e, i) == [];
  }

  /** The current task's rows, one per image: real images with the codes
      recovered for this batch in epoch 0, identical in every epoch; or, on
      the generation-only path, the local generator's output on this epoch's
      fresh noise. Ids are the labels, or the task id. */
  lemma CurrentRowsShape(d: Distillation, e: nat, i: nat)
    requires ValidDistillation(d) && i < |d.loader|
    ensures var rows := CurrentRows(d, e, i);
      (forall k :: 0 <= k < |rows| ==>
        rows[k].id == (if d.classCond then d.loader[i].labels[k] else d.taskId) &&
        if d.onlyGenerations then
          rows[k].noise == d.draw(e, i).sampled[k] && rows[k].example == Generated(rows[k].noise, rows[k].id, LocalGenerator)
        else
          rows[k].noise == d.draw(0, i).recovered[k] && rows[k].example == Real(d.loader[i].images[k])) &&
      (!d.onlyGenerations ==> rows == CurrentRows(d, 0, i))
  {
    assert ValidAt(d, e, i) && ValidAt(d, 0, i);
  }

  lemma {:induction false} TaskGridsShape(d: Distillation, e: nat, n: nat)
    requires ValidDistillation(d) && (d.classCond ==> |d.loader| > 0)
    ensures forall g :: g in TaskGrids(d, e, n) ==> g.epoch == e && g.task < n && g.ids == GridIds(d, g.task)
    ensures forall t: nat :: t < n ==> Grid(e, t, GridIds(d, t)) in TaskGrids(d, e, n)
  {
    if n > 0 {
      TaskGridsShape(d, e, n - 1);
    }
  }

  /** The ids of learned task t's grid: `num_gen_images` of them, all equal
      to t, or under class conditioning all among the classes 2t .. 2t+n-1,
      n being the number of distinct labels of the last batch. */
  lemma GridIdsShape(d: Distillation, t: nat)
    requires ValidDistillation(d) && (d.classCond ==> |d.loader| > 0)
    ensures |GridIds(d, t)| == d.numGenImages
    ensures !d.classCond ==> forall id :: id in GridIds(d, t) ==> id == t
    ensures d.classCond ==> forall id :: id in GridIds(d, t) ==>
      2 * t <= id < 2 * t + |SortedDistinct(d.loader[|d.loader| - 1].labels)|
  {
    if d.classCond {
      var n := |SortedDistinct(d.loader[|d.loader| - 1].labels)|;
      var classes := Range(2 * t, n);
      PaddedConditionsShape(classes, d.numGenImages);
      PaddedConditionsCounts(classes, d.numGenImages);
      forall id | id in GridIds(d, t) ensures 2 * t <= id < 2 * t + n {
        assert id in multiset(GridIds(d, t));
        var k :| 0 <= k < n && classes[k] == id;
      }
    }
  }

  /** Grids are built after epochs 0, 10, 20, ... for every task learned so
      far, 0 .. task_id, and for nothing else. */
  lemma {:induction false} GlobalGridsShape(d: Distillation, E: nat)
    requires ValidDistillation(d) && (d.classCond && E > 0 ==> |d.loader| > 0)
    ensures forall g :: g in Grids(d, E) ==>
      g.epoch < E && g.epoch % GlobalGridEvery == 0 && g.task <= d.taskId && g.ids == GridIds(d, g.task)
    ensures forall e: nat, t: nat :: e < E && e % GlobalGridEvery == 0 && t <= d.taskId ==>
      Grid(e, t, GridIds(d, t)) in Grids(d, E)
  {
    if E > 0 {
      GlobalGridsShape(d, E - 1);
      TaskGridsShape(d, E - 1, d.taskId + 1);
    }
  }
}
