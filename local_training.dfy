/** The local trainers: `train_local_wgan_gp`, `train_local_biggan` and the
    dispatcher `train_local`. The losses, gradients and Adam arithmetic are
    opaque; what is modelled is which optimiser steps fire, in which order,
    with which condition ids and at which point of the learning-rate
    schedule, the per-class histogram filled in epoch 0, and the sample grids
    built every 50 epochs. */
module LocalTraining {
  import opened Tensors
  import opened Networks
  import opened ClassCounts
  import opened Conditions

  /** The combined generator/discriminator wrapper `local_GD` that selects
      the hinge-loss BigGAN trainer. */
  datatype PairWrapper = PairWrapper(handle: nat)

  /** A sample grid is built after each epoch whose index is a multiple of
      this. */
  const GridEvery: nat := 50

  /** What the local step schedule depends on. */
  datatype LocalRun = LocalRun(objective: Objective, loader: seq<Batch>, taskId: nat,
                               nCriticSteps: nat, classCond: bool, numGenImages: nat)

  predicate ValidRun(run: LocalRun)
  {
    run.nCriticSteps > 0 && WellFormedLoader(run.loader)
  }

  /** In class-conditioned mode a grid needs the last batch's labels. */
  predicate GridsDefined(run: LocalRun, nEpochs: nat)
  {
    run.classCond && nEpochs > 0 ==> |run.loader| > 0
  }

  /** The condition ids fed with a batch: its labels, or the task id once per
      image. */
  function BatchIds(b: Batch, taskId: nat, classCond: bool): seq<int>
  {
    if classCond then b.labels else Repeat(taskId, |b.images|)
  }

  /** Scheduler steps taken before epoch `epoch`: the WGAN-GP trainer steps
      its exponential schedulers once per epoch; the hinge trainer has none. */
  function Decays(objective: Objective, epoch: nat): nat
  {
    if objective == WganGp then epoch else 0
  }

  function StepAt(run: LocalRun, e: nat, i: nat): Update
    requires i < |run.loader|
  {
    AdversarialStep(run.objective, e, i, Decays(run.objective, e),
                    BatchIds(run.loader[i], run.taskId, run.classCond))
  }

  /** Critic updates of epoch e over its first k batches. */
  function CriticEpoch(run: LocalRun, e: nat, k: nat): seq<Update>
    requires k <= |run.loader|
  {
    seq(k, i requires 0 <= i < k => StepAt(run, e, i))
  }

  /** The loop step of an epoch: one more batch appends its critic update. */
  lemma CriticEpochNext(run: LocalRun, e: nat, k: nat)
    requires k < |run.loader|
    ensures CriticEpoch(run, e, k + 1) == CriticEpoch(run, e, k) + [StepAt(run, e, k)]
  {
    assert CriticEpoch(run, e, k + 1)[..k] == CriticEpoch(run, e, k);
  }

  /** Generator updates of epoch e over its first k batches. */
  function GeneratorEpoch(run: LocalRun, e: nat, k: nat): seq<Update>
    requires ValidRun(run) && k <= |run.loader|
  {
    if k == 0 then []
    else GeneratorEpoch(run, e, k - 1) +
         if (k - 1) % run.nCriticSteps == 0 then [StepAt(run, e, k - 1)] else []
  }

  /** Critic updates of the first E epochs. */
  function CriticSchedule(run: LocalRun, E: nat): seq<Update>
  {
    if E == 0 then [] else CriticSchedule(run, E - 1) + CriticEpoch(run, E - 1, |run.loader|)
  }

  /** Generator updates of the first E epochs. */
  function GeneratorSchedule(run: LocalRun, E: nat): seq<Update>
    requires ValidRun(run)
  {
    if E == 0 then [] else GeneratorSchedule(run, E - 1) + GeneratorEpoch(run, E - 1, |run.loader|)
  }

  /** Condition ids of a local sample grid. */
  function GridIds(run: LocalRun): seq<int>
    requires ValidRun(run) && (run.classCond ==> |run.loader| > 0)
  {
    if !run.classCond then Repeat(run.taskId, run.numGenImages)
    else PaddedConditions(SortedDistinct(run.loader[|run.loader| - 1].labels), run.numGenImages)
  }

  /** The sample grids of the first E epochs. */
  function Grids(run: LocalRun, E: nat): seq<Grid>
    requires ValidRun(run) && GridsDefined(run, E)
  {
    if E == 0 then []
    else Grids(run, E - 1) + if (E - 1) % GridEvery == 0 then [Grid(E - 1, run.taskId, GridIds(run))] else []
  }

  /** The networks' histories after E epochs of the run. */
  ghost predicate Trained(run: LocalRun, E: nat, generator: Network, discriminator: Network,
                          generatorBefore: seq<Update>, discriminatorBefore: seq<Update>)
    requires ValidRun(run)
    reads generator, discriminator
  {
    generator.updates == generatorBefore + GeneratorSchedule(run, E) &&
    discriminator.updates == discriminatorBefore + CriticSchedule(run, E)
  }

  /** One batch: in epoch 0 its labels are counted; the critic steps; the
      generator steps when the batch index is a multiple of
      `n_critic_steps`. Returns the batch's condition ids. */
  method TrainBatch(run: LocalRun, epoch: nat, i: nat, decays: nat, tableTmp: array<int>,
                    localGenerator: Network, localDiscriminator: Network)
    returns (taskIds: seq<int>)
    requires ValidRun(run) && i < |run.loader| && LoaderLabelsInRange(run.loader, tableTmp.Length)
    requires decays == Decays(run.objective, epoch)
    requires epoch == 0 ==> tableTmp[..] == Histogram(AllLabels(run.loader[..i]), tableTmp.Length)
    requires localGenerator != localDiscriminator
    modifies tableTmp, localGenerator, localDiscriminator
    ensures tableTmp[..] == if epoch == 0 then Histogram(AllLabels(run.loader[..i + 1]), tableTmp.Length) else old(tableTmp[..])
    ensures localDiscriminator.updates == old(localDiscriminator.updates) + [StepAt(run, epoch, i)]
    ensures localGenerator.updates ==
      old(localGenerator.updates) + if i % run.nCriticSteps == 0 then [StepAt(run, epoch, i)] else []
    ensures localGenerator.classTable == old(localGenerator.classTable)
    ensures localDiscriminator.classTable == old(localDiscriminator.classTable)
    ensures taskIds == BatchIds(run.loader[i], run.taskId, run.classCond)
  {
    var batch := run.loader[i];
    if epoch == 0 {
      HistogramExtend(run.loader, i);
      AddBatchCounts(tableTmp, batch.labels, AllLabels(run.loader[..i]));
    }
    taskIds := if run.classCond then batch.labels else Repeat(run.taskId, |batch.images|);
    localDiscriminator.Step(AdversarialStep(run.objective, epoch, i, decays, taskIds));
    if i % run.nCriticSteps == 0 {
      localGenerator.Step(AdversarialStep(run.objective, epoch, i, decays, taskIds));
    }
  }

  /** One pass over the loader. Returns the condition ids of the last
      batch. */
  method TrainEpoch(run: LocalRun, epoch: nat, decays: nat, tableTmp: array<int>,
                    localGenerator: Network, localDiscriminator: Network)
    returns (taskIds: seq<int>)
    requires ValidRun(run) && LoaderLabelsInRange(run.loader, tableTmp.Length)
    requires decays == Decays(run.objective, epoch)
    requires epoch == 0 ==> tableTmp[..] == Histogram([], tableTmp.Length)
    requires localGenerator != localDiscriminator
    modifies tableTmp, localGenerator, localDiscriminator
    ensures tableTmp[..] == if epoch == 0 then Histogram(AllLabels(run.loader), tableTmp.Length) else old(tableTmp[..])
    ensures localGenerator.updates == old(localGenerator.updates) + GeneratorEpoch(run, epoch, |run.loader|)
    ensures localDiscriminator.updates == old(localDiscriminator.updates) + CriticEpoch(run, epoch, |run.loader|)
    ensures localGenerator.classTable == old(localGenerator.classTable)
    ensures localDiscriminator.classTable == old(localDiscriminator.classTable)
    ensures |run.loader| > 0 ==> taskIds == BatchIds(run.loader[|run.loader| - 1], run.taskId, run.classCond)
  {
    var n := tableTmp.Length;
    taskIds := [];
    var i := 0;
    assert run.loader[..0] == [];
    while i < |run.loader|
      invariant i <= |run.loader|
      invariant tableTmp[..] == if epoch == 0 then Histogram(AllLabels(run.loader[..i]), n) else old(tableTmp[..])
      invariant localGenerator.updates == old(localGenerator.updates) + GeneratorEpoch(run, epoch, i)
      invariant localDiscriminator.updates == old(localDiscriminator.updates) + CriticEpoch(run, epoch, i)
      invariant localGenerator.classTable == old(localGenerator.classTable)
      invariant localDiscriminator.classTable == old(localDiscriminator.classTable)
      invariant i > 0 ==> taskIds == BatchIds(run.loader[i - 1], run.taskId, run.classCond)
    {
      taskIds := TrainBatch(run, epoch, i, decays, tableTmp, localGenerator, localDiscriminator);
      CriticEpochNext(run, epoch, i);
      AppendAssoc(old(localDiscriminator.updates), CriticEpoch(run, epoch, i), [StepAt(run, epoch, i)]);
      AppendAssoc(old(localGenerator.updates), GeneratorEpoch(run, epoch, i),
                  if i % run.nCriticSteps == 0 then [StepAt(run, epoch, i)] else []);
      i := i + 1;
    }
    assert run.loader[..i] == run.loader;
  }

  /** The grid built after epoch `epoch`, if any; `taskIds` still holds the
      condition ids of the epoch's last batch. */
  method SampleGrid(run: LocalRun, epoch: nat, taskIds: seq<int>) returns (grid: seq<Grid>)
    requires ValidRun(run) && GridsDefined(run, epoch + 1)
    requires |run.loader| > 0 ==> taskIds == BatchIds(run.loader[|run.loader| - 1], run.taskId, run.classCond)
    ensures Grids(run, epoch + 1) == Grids(run, epoch) + grid
  {
    grid := [];
    if epoch % GridEvery == 0 {
      var ids;
      if !run.classCond {
        ids := Repeat(run.taskId, run.numGenImages);
      } else {
        ids := PaddedConditions(SortedDistinct(taskIds), run.numGenImages);
      }
      grid := [Grid(epoch, run.taskId, ids)];
    }
  }

  /** One iteration of the epoch loop: the batches, then the sample grid if
      the epoch index is a multiple of 50, then the scheduler step of the
      WGAN-GP trainer. */
  method RunEpoch(run: LocalRun, epoch: nat, decays: nat, tableTmp: array<int>,
                  localGenerator: Network, localDiscriminator: Network)
    returns (grid: seq<Grid>, decays': nat)
    requires ValidRun(run) && LoaderLabelsInRange(run.loader, tableTmp.Length)
    requires GridsDefined(run, epoch + 1)
    requires decays == Decays(run.objective, epoch)
    requires epoch == 0 ==> tableTmp[..] == Histogram([], tableTmp.Length)
    requires localGenerator != localDiscriminator
    modifies tableTmp, localGenerator, localDiscriminator
    ensures tableTmp[..] == if epoch == 0 then Histogram(AllLabels(run.loader), tableTmp.Length) else old(tableTmp[..])
    ensures localGenerator.updates == old(localGenerator.updates) + GeneratorEpoch(run, epoch, |run.loader|)
    ensures localDiscriminator.updates == old(localDiscriminator.updates) + CriticEpoch(run, epoch, |run.loader|)
    ensures localGenerator.classTable == old(localGenerator.classTable)
    ensures localDiscriminator.classTable == old(localDiscriminator.classTable)
    ensures Grids(run, epoch + 1) == Grids(run, epoch) + grid
    ensures decays' == Decays(run.objective, epoch + 1)
  {
    var taskIds := TrainEpoch(run, epoch, decays, tableTmp, localGenerator, localDiscriminator);
    grid := SampleGrid(run, epoch, taskIds);
    decays' := if run.objective == WganGp then decays + 1 else decays;
  }

  /** The loop shared by both local trainers: `objective` selects which one. */
  method TrainAdversarial(objective: Objective, nEpochs: nat, taskLoader: seq<Batch>,
                          localGenerator: Network, localDiscriminator: Network,
                          numGenImages: nat, taskId: nat, nCriticSteps: nat,
                          classCond: bool, numClasses: nat)
    returns (tableTmp: array<int>, grids: seq<Grid>)
    requires nCriticSteps > 0 && WellFormedLoader(taskLoader)
    requires LoaderLabelsInRange(taskLoader, numClasses)
    requires classCond && nEpochs > 0 ==> |taskLoader| > 0
    requires localGenerator != localDiscriminator
    modifies localGenerator, localDiscriminator
    ensures fresh(tableTmp) && tableTmp.Length == numClasses
    ensures tableTmp[..] == Histogram(if nEpochs == 0 then [] else AllLabels(taskLoader), numClasses)
    ensures var run := LocalRun(objective, taskLoader, taskId, nCriticSteps, classCond, numGenImages);
      Trained(run, nEpochs, localGenerator, localDiscriminator,
              old(localGenerator.updates), old(localDiscriminator.updates)) &&
      grids == Grids(run, nEpochs)
    ensures localGenerator.classTable == old(localGenerator.classTable)
    ensures localDiscriminator.classTable == old(localDiscriminator.classTable)
  {
    var run := LocalRun(objective, taskLoader, taskId, nCriticSteps, classCond, numGenImages);
    tableTmp := new int[numClasses](_ => 0);
    assert tableTmp[..] == Histogram([], numClasses);
    grids := [];
    var decays := 0;
    var epoch := 0;
    while epoch < nEpochs
      invariant epoch <= nEpochs
      invariant decays == Decays(objective, epoch)
      invariant tableTmp[..] == Histogram(if epoch == 0 then [] else AllLabels(taskLoader), numClasses)
      invariant Trained(run, epoch, localGenerator, localDiscriminator,
                        old(localGenerator.updates), old(localDiscriminator.updates))
      invariant localGenerator.classTable == old(localGenerator.classTable)
      invariant localDiscriminator.classTable == old(localDiscriminator.classTable)
      invariant grids == Grids(run, epoch)
    {
      var grid;
      grid, decays := RunEpoch(run, epoch, decays, tableTmp, localGenerator, localDiscriminator);
      AppendAssoc(old(localGenerator.updates), GeneratorSchedule(run, epoch), GeneratorEpoch(run, epoch, |taskLoader|));
      AppendAssoc(old(localDiscriminator.updates), CriticSchedule(run, epoch), CriticEpoch(run, epoch, |taskLoader|));
      grids := grids + grid;
      epoch := epoch + 1;
    }
  }

  /** `train_local_biggan`: hinge loss through the pair wrapper, no
      learning-rate scheduler. */
  method TrainLocalBigGan(nEpochs: nat, taskLoader: seq<Batch>, localGenerator: Network,
                          localDiscriminator: Network, localGD: PairWrapper, numGenImages: nat,
                          taskId: nat, nCriticSteps: nat, classCond: bool, numClasses: nat)
    returns (tableTmp: array<int>, grids: seq<Grid>)
    requires nCriticSteps > 0 && WellFormedLoader(taskLoader)
    requires LoaderLabelsInRange(taskLoader, numClasses)
    requires classCond && nEpochs > 0 ==> |taskLoader| > 0
    requires localGenerator != localDiscriminator
    modifies localGenerator, localDiscriminator
    ensures fresh(tableTmp) && tableTmp.Length == numClasses
    ensures tableTmp[..] == Histogram(if nEpochs == 0 then [] else AllLabels(taskLoader), numClasses)
    ensures var run := LocalRun(Hinge, taskLoader, taskId, nCriticSteps, classCond, numGenImages);
      Trained(run, nEpochs, localGenerator, localDiscriminator,
              old(localGenerator.updates), old(localDiscriminator.updates)) &&
      grids == Grids(run, nEpochs)
    ensures localGenerator.classTable == old(localGenerator.classTable)
    ensures localDiscriminator.classTable == old(localDiscriminator.classTable)
  {
    tableTmp, grids := TrainAdversarial(Hinge, nEpochs, taskLoader, localGenerator, localDiscriminator,
                                        numGenImages, taskId, nCriticSteps, classCond, numClasses);
  }

  /** `train_local_wgan_gp`: Wasserstein loss with gradient penalty, two
      Adam optimisers and their exponential schedulers. */
  method TrainLocalWganGp(nEpochs: nat, taskLoader: seq<Batch>, localGenerator: Network,
                          localDiscriminator: Network, numGenImages: nat, taskId: nat,
                          nCriticSteps: nat, classCond: bool, numClasses: nat)
    returns (tableTmp: array<int>, grids: seq<Grid>)
    requires nCriticSteps > 0 && WellFormedLoader(taskLoader)
    requires LoaderLabelsInRange(taskLoader, numClasses)
    requires classCond && nEpochs > 0 ==> |taskLoader| > 0
    requires localGenerator != localDiscriminator
    modifies localGenerator, localDiscriminator
    ensures fresh(tableTmp) && tableTmp.Length == numClasses
    ensures tableTmp[..] == Histogram(if nEpochs == 0 then [] else AllLabels(taskLoader), numClasses)
    ensures var run := LocalRun(WganGp, taskLoader, taskId, nCriticSteps, classCond, numGenImages);
      Trained(run, nEpochs, localGenerator, localDiscriminator,
              old(localGenerator.updates), old(localDiscriminator.updates)) &&
      grids == Grids(run, nEpochs)
    ensures localGenerator.classTable == old(localGenerator.classTable)
    ensures localDiscriminator.classTable == old(localDiscriminator.classTable)
  {
    tableTmp, grids := TrainAdversarial(WganGp, nEpochs, taskLoader, localGenerator, localDiscriminator,
                                        numGenImages, taskId, nCriticSteps, classCond, numClasses);
  }

  /** The objective `train_local` picks. */
  function ObjectiveFor(localGD: Option<PairWrapper>): Objective
  {
    if localGD.Some? then Hinge else WganGp
  }

  /** `train_local`: the hinge trainer exactly when a pair wrapper is given. */
  method TrainLocal(localGenerator: Network, localDiscriminator: Network, nEpochs: nat,
                    taskLoader: seq<Batch>, taskId: nat, numGenImages: nat, nCriticSteps: nat,
                    classCond: bool, numClasses: nat, localGD: Option<PairWrapper>)
    returns (tableTmp: array<int>, grids: seq<Grid>)
    requires nCriticSteps > 0 && WellFormedLoader(taskLoader)
    requires LoaderLabelsInRange(taskLoader, numClasses)
    requires classCond && nEpochs > 0 ==> |taskLoader| > 0
    requires localGenerator != localDiscriminator
    modifies localGenerator, localDiscriminator
    ensures fresh(tableTmp) && tableTmp.Length == numClasses
    ensures tableTmp[..] == Histogram(if nEpochs == 0 then [] else AllLabels(taskLoader), numClasses)
    ensures var run := LocalRun(if localGD.Some? then Hinge else WganGp, taskLoader, taskId,
                                nCriticSteps, classCond, numGenImages);
      Trained(run, nEpochs, localGenerator, localDiscriminator,
              old(localGenerator.updates), old(localDiscriminator.updates)) &&
      grids == Grids(run, nEpochs)
    ensures localGenerator.classTable == old(localGenerator.classTable)
    ensures localDiscriminator.classTable == old(localDiscriminator.classTable)
  {
    if localGD.Some? {
      tableTmp, grids := TrainLocalBigGan(nEpochs, taskLoader, localGenerator, localDiscriminator,
                                          localGD.value, numGenImages, taskId, nCriticSteps,
                                          classCond, numClasses);
    } else {
      tableTmp, grids := TrainLocalWganGp(nEpochs, taskLoader, localGenerator, localDiscriminator,
                                          numGenImages, taskId, nCriticSteps, classCond, numClasses);
    }
  }

  // ---------------------------------------------------------------------
  // Properties of the local step schedule

  lemma {:induction false} CriticScheduleLength(run: LocalRun, E: nat)
    ensures |CriticSchedule(run, E)| == E * |run.loader|
  {
    if E > 0 {
      CriticScheduleLength(run, E - 1);
      assert (E - 1) * |run.loader| + |run.loader| == E * |run.loader|;
    }
  }

  lemma {:induction false} CriticStepScheduled(run: LocalRun, E: nat, e: nat, i: nat)
    requires e < E && i < |run.loader|
    ensures StepAt(run, e, i) in CriticSchedule(run, E)
  {
    var last := CriticEpoch(run, E - 1, |run.loader|);
    assert CriticSchedule(run, E) == CriticSchedule(run, E - 1) + last;
    if e == E - 1 {
      assert last[i] == StepAt(run, e, i);
    } else {
      CriticStepScheduled(run, E - 1, e, i);
    }
  }

  lemma {:induction false} CriticStepsOnly(run: LocalRun, E: nat)
    ensures forall u :: u in CriticSchedule(run, E) ==>
      exists e, i :: 0 <= e < E && 0 <= i < |run.loader| && u == StepAt(run, e, i)
  {
    if E > 0 {
      var B := |run.loader|;
      CriticStepsOnly(run, E - 1);
      forall u | u in CriticSchedule(run, E)
        ensures exists e, i :: 0 <= e < E && 0 <= i < B && u == StepAt(run, e, i)
      {
        if u in CriticEpoch(run, E - 1, B) {
          var j :| 0 <= j < B && CriticEpoch(run, E - 1, B)[j] == u;
        }
      }
    }
  }

  /** The critic steps exactly once per batch of every epoch: E * B steps,
      one at each (epoch, batch), and no other. */
  lemma CriticStepsEveryBatch(run: LocalRun, E: nat)
    ensures |CriticSchedule(run, E)| == E * |run.loader|
    ensures forall e, i :: 0 <= e < E && 0 <= i < |run.loader| ==> StepAt(run, e, i) in CriticSchedule(run, E)
    ensures forall u :: u in CriticSchedule(run, E) ==>
      exists e, i :: 0 <= e < E && 0 <= i < |run.loader| && u == StepAt(run, e, i)
  {
    CriticScheduleLength(run, E);
    CriticStepsOnly(run, E);
    forall e, i | 0 <= e < E && 0 <= i < |run.loader| ensures StepAt(run, e, i) in CriticSchedule(run, E) {
      CriticStepScheduled(run, E, e, i);
    }
  }

  lemma {:induction false} GeneratorEpochSteps(run: LocalRun, e: nat, k: nat)
    requires ValidRun(run) && k <= |run.loader|
    ensures forall i :: 0 <= i < |run.loader| ==>
      (StepAt(run, e, i) in GeneratorEpoch(run, e, k) <==> i < k && i % run.nCriticSteps == 0)
    ensures forall u :: u in GeneratorEpoch(run, e, k) ==>
      exists i :: 0 <= i < k && i % run.nCriticSteps == 0 && u == StepAt(run, e, i)
  {
    if k > 0 {
      GeneratorEpochSteps(run, e, k - 1);
    }
  }

  /** The generator steps exactly on the batches whose index is a multiple
      of `n_critic_steps`, in every epoch, and nowhere else. */
  lemma {:induction false} GeneratorStepsExactly(run: LocalRun, E: nat)
    requires ValidRun(run)
    ensures forall e, i :: 0 <= e && 0 <= i < |run.loader| ==>
      (StepAt(run, e, i) in GeneratorSchedule(run, E) <==> e < E && i % run.nCriticSteps == 0)
    ensures forall u :: u in GeneratorSchedule(run, E) ==>
      exists e, i :: 0 <= e < E && 0 <= i < |run.loader| && i % run.nCriticSteps == 0 && u == StepAt(run, e, i)
  {
    if E > 0 {
      var B := |run.loader|;
      GeneratorStepsExactly(run, E - 1);
      GeneratorEpochSteps(run, E - 1, B);
      forall u | u in GeneratorSchedule(run, E)
        ensures exists e, i :: 0 <= e < E && 0 <= i < B && i % run.nCriticSteps == 0 && u == StepAt(run, e, i)
      {
        if u in GeneratorEpoch(run, E - 1, B) {
          var i :| 0 <= i < B && i % run.nCriticSteps == 0 && u == StepAt(run, E - 1, i);
        }
      }
    }
  }

  /** Batch 0 steps the generator, so within every epoch the generator has
      been stepped by the time any batch's losses are logged: the logged
      generator loss is always one computed in the current epoch. */
  lemma {:induction false} GeneratorSteppedBeforeEveryLog(run: LocalRun, e: nat, i: nat)
    requires ValidRun(run) && i < |run.loader|
    ensures StepAt(run, e, 0) in GeneratorEpoch(run, e, i + 1)
  {
    GeneratorEpochSteps(run, e, i + 1);
  }

  /** Every recorded step carries the run's objective, the scheduler decays
      of its epoch (one per elapsed epoch for WGAN-GP, none for the hinge
      trainer) and the condition ids of its batch; in unconditional mode those
      are the task id, once per image of the batch. */
  lemma StepsShape(run: LocalRun, E: nat)
    requires ValidRun(run)
    ensures forall u :: u in CriticSchedule(run, E) || u in GeneratorSchedule(run, E) ==>
      u.AdversarialStep? && u.objective == run.objective && u.epoch < E && u.batch < |run.loader| &&
      u.decays == (if run.objective == WganGp then u.epoch else 0) &&
      u.ids == BatchIds(run.loader[u.batch], run.taskId, run.classCond) &&
      (!run.classCond ==> |u.ids| == |run.loader[u.batch].images| && forall id :: id in u.ids ==> id == run.taskId)
  {
    CriticStepsEveryBatch(run, E);
    GeneratorStepsExactly(run, E);
  }

  /** Grids are built after epochs 0, 50, 100, ... and after no other
      epoch; each has exactly `num_gen_images` condition ids: the task id in
      unconditional mode, and in class-conditioned mode only classes seen in
      the last batch. */
  lemma {:induction false} GridsShape(run: LocalRun, E: nat)
    requires ValidRun(run) && GridsDefined(run, E)
    ensures E > 0 ==> |Grids(run, E)| > 0 && Grids(run, E)[0].epoch == 0
    ensures forall g :: g in Grids(run, E) ==>
      g.epoch < E && g.epoch % GridEvery == 0 && g.task == run.taskId && |g.ids| == run.numGenImages &&
      (!run.classCond ==> forall id :: id in g.ids ==> id == run.taskId) &&
      (run.classCond ==> forall id :: id in g.ids ==> id in run.loader[|run.loader| - 1].labels)
    ensures forall e: nat :: e < E && e % GridEvery == 0 ==> Grid(e, run.taskId, GridIds(run)) in Grids(run, E)
  {
    if E > 0 {
      GridsShape(run, E - 1);
      assert E - 1 == 0 ==> Grids(run, E) == [Grid(0, run.taskId, GridIds(run))];
      forall e: nat | e < E && e % GridEvery == 0 ensures Grid(e, run.taskId, GridIds(run)) in Grids(run, E) {
        if e == E - 1 {
          assert Grids(run, E) == Grids(run, E - 1) + [Grid(E - 1, run.taskId, GridIds(run))];
        }
      }
    }
  }
}
