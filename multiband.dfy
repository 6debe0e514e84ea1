/** `train_multiband_gan`: one task of continual learning. The local GAN is
    trained on the task; its class histogram is recorded; the global
    discriminator becomes a copy of the local one; and the global generator
    is either a copy of the local generator (first task) or the previous
    global generator distilled on the new task. */
module Multiband {
  import opened Tensors
  import opened Networks
  import opened ClassCounts
  import LocalTraining
  import GlobalTraining

  /** Local epochs of a task: the first task has no global generator to
      distill into, so it also spends the global epochs on local training.
      Either way a task runs `n_local + n_global` epochs in all. */
  function LocalEpochs(taskId: nat, nLocalEpochs: nat, nGlobalEpochs: nat): (n: nat)
    ensures n >= nLocalEpochs
    ensures n + (if taskId > 0 then nGlobalEpochs else 0) == nLocalEpochs + nGlobalEpochs
    ensures n == nLocalEpochs <==> taskId > 0 || nGlobalEpochs == 0
  {
    if taskId == 0 then nLocalEpochs + nGlobalEpochs else nLocalEpochs
  }

  method TrainMultibandGan(taskId: nat, localDiscriminator: Network, localGenerator: Network,
                           localTaskLoader: seq<Batch>, globalTaskLoader: seq<Batch>,
                           nLocalEpochs: nat, nGlobalEpochs: nat, numGenImages: nat,
                           nCriticSteps: nat, batchSize: nat, limitPreviousExamples: real,
                           currGlobalGenerator: Network?, warmupRounds: int, classCond: bool,
                           classTable: ClassTable?, numClasses: nat,
                           localGD: Option<LocalTraining.PairWrapper>, onlyGenerations: bool,
                           generatePreviousData: (int, nat, nat) -> GlobalTraining.Replay,
                           draw: (nat, nat) -> GlobalTraining.Draw)
    returns (localGenerator': Network, globalGenerator: Network, globalDiscriminator: Network)
    requires nCriticSteps > 0 && WellFormedLoader(localTaskLoader)
    requires LoaderLabelsInRange(localTaskLoader, numClasses)
    requires classCond && LocalEpochs(taskId, nLocalEpochs, nGlobalEpochs) > 0 ==> |localTaskLoader| > 0
    requires localGenerator != localDiscriminator
    requires taskId > 0 ==>
      currGlobalGenerator != null &&
      GlobalTraining.ValidDistillation(
        GlobalTraining.DistillationOf(batchSize, taskId, limitPreviousExamples, globalTaskLoader,
                                      warmupRounds, numGenImages, classCond, localGD.Some?,
                                      onlyGenerations, generatePreviousData, draw)) &&
      (classCond && nGlobalEpochs > 0 ==> |globalTaskLoader| > 0)
    modifies localGenerator, localDiscriminator, classTable
    ensures localGenerator' == localGenerator
    ensures var run := LocalTraining.LocalRun(LocalTraining.ObjectiveFor(localGD), localTaskLoader, taskId,
                                              nCriticSteps, classCond, numGenImages);
      LocalTraining.Trained(run, LocalEpochs(taskId, nLocalEpochs, nGlobalEpochs),
                            localGenerator, localDiscriminator,
                            old(localGenerator.updates), old(localDiscriminator.updates))
    ensures var counts := Histogram(if LocalEpochs(taskId, nLocalEpochs, nGlobalEpochs) == 0 then []
                                    else AllLabels(localTaskLoader), numClasses);
      if classTable != null then
        classTable.entries == old(classTable.entries)[taskId := counts] &&
        localGenerator.classTable == Some(counts)
      else
        localGenerator.classTable == old(localGenerator.classTable)
    ensures localDiscriminator.classTable == old(localDiscriminator.classTable)
    ensures fresh(globalDiscriminator)
    ensures globalDiscriminator.updates == localDiscriminator.updates
    ensures globalDiscriminator.classTable == localDiscriminator.classTable
    ensures fresh(globalGenerator)
    ensures taskId == 0 ==>
      globalGenerator.updates == localGenerator.updates &&
      globalGenerator.classTable == localGenerator.classTable
    ensures taskId > 0 ==>
      var d := GlobalTraining.DistillationOf(batchSize, taskId, limitPreviousExamples, globalTaskLoader,
                                             warmupRounds, numGenImages, classCond, localGD.Some?,
                                             onlyGenerations, generatePreviousData, draw);
      globalGenerator.updates == currGlobalGenerator.updates + GlobalTraining.Schedule(d, nGlobalEpochs) &&
      globalGenerator.classTable == currGlobalGenerator.classTable
  {
    var tmpTable, localGrids := LocalTraining.TrainLocal(
      localGenerator, localDiscriminator, LocalEpochs(taskId, nLocalEpochs, nGlobalEpochs),
      localTaskLoader, taskId, numGenImages, nCriticSteps, classCond, numClasses, localGD);
    if classTable != null {
      classTable.Record(taskId, tmpTable[..]);
      localGenerator.classTable := Some(tmpTable[..]);
    }
    globalDiscriminator := new Network.Copy(localDiscriminator);
    if taskId == 0 {
      globalGenerator := new Network.Copy(localGenerator);
    } else {
      var noiseCache, globalGrids;
      globalGenerator, noiseCache, globalGrids := GlobalTraining.TrainGlobalGenerator(
        batchSize, taskId, limitPreviousExamples, currGlobalGenerator, nGlobalEpochs,
        globalTaskLoader, localGenerator, warmupRounds, numGenImages, classCond, localGD.Some?,
        onlyGenerations, generatePreviousData, draw);
    }
    localGenerator' := localGenerator;
  }
}
