/** The networks, seen from the training loops: opaque objects whose
    parameters change only through optimiser steps. A network's parameters
    are modelled by the history of the optimiser updates applied to it, each
    update recording what the loop decided for that step (which batch, which
    objective or parameter group, how far the learning-rate schedule has
    decayed, which condition ids and inputs were fed). */
module Networks {
  import opened Tensors

  /** Local adversarial objective: WGAN with gradient penalty (separate
      Adam optimisers and exponential schedulers), or the hinge loss of the
      combined BigGAN generator/discriminator wrapper. */
  datatype Objective = WganGp | Hinge

  /** Which parameters the global optimiser covers. */
  datatype Phase = TranslatorOnly | AllParameters

  datatype Update =
    /** One optimiser step of a local critic or generator at (epoch, batch),
        taken after `decays` scheduler steps, with these condition ids. */
    | AdversarialStep(objective: Objective, epoch: nat, batch: nat, decays: nat, ids: seq<int>)
    /** One distillation step of the global generator: the shuffled noise,
        condition ids and target examples it was fitted to. `embedded` is set
        when the ids go through the generator's shared class embedding. */
    | DistillStep(epoch: nat, batch: nat, phase: Phase, decays: nat, embedded: bool,
                  noise: seq<Noise>, ids: seq<int>, targets: seq<Example>)

  class Network {
    /** Every optimiser update applied so far, oldest first. */
    var updates: seq<Update>
    /** The generator's `class_table` attribute, once assigned. */
    var classTable: Option<seq<int>>

    /** `copy.deepcopy`: a distinct network equal to the source. */
    constructor Copy(source: Network)
      ensures updates == source.updates && classTable == source.classTable
    {
      updates := source.updates;
      classTable := source.classTable;
    }

    /** `optimizer.step()`: applies one update and changes nothing else. */
    method Step(u: Update)
      modifies this
      ensures updates == old(updates) + [u]
      ensures classTable == old(classTable)
    {
      updates := updates + [u];
    }
  }

  /** The dictionary from task id to per-class example counts, shared by
      reference between the caller and the training code. */
  class ClassTable {
    var entries: map<nat, seq<int>>

    constructor ()
      ensures entries == map[]
    {
      entries := map[];
    }

    /** `class_table[task_id] = counts`. */
    method Record(taskId: nat, counts: seq<int>)
      modifies this
      ensures entries == old(entries)[taskId := counts]
    {
      entries := entries[taskId := counts];
    }
  }

  /** Histories grow by appending; regrouping the appended pieces. */
  lemma AppendAssoc(a: seq<Update>, b: seq<Update>, c: seq<Update>)
    ensures a + b + c == a + (b + c)
  {
  }
}
