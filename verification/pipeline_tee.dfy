/**
 * AperturePipelineTee: a bin that fans one stream out to several branches,
 * putting a queue in front of each. The model keeps the branch-to-queue
 * table; pads, linking and element states are GStreamer's business.
 */
module Pipeline {

  /** A GStreamer element, compared by identity. */
  class Element {
    constructor () { }
  }

  class Tee {
    /** The `queues` hash table: each branch and the queue that feeds it. */
    var queues: map<Element, Element>

    /** aperture_pipeline_tee_new: a tee with no branches. */
    constructor ()
      ensures queues == map[]
    {
      queues := map[];
    }

    /**
     * aperture_pipeline_tee_add_branch: makes a new queue and records it as
     * the queue of `branch`.
     */
    method AddBranch(branch: Element) returns (queue: Element)
      modifies this
      ensures fresh(queue)
      ensures branch in queues && queues[branch] == queue
      ensures queues == old(queues)[branch := queue]
      ensures branch !in old(queues) ==> |queues| == |old(queues)| + 1
    {
      queue := new Element();
      queues := queues[branch := queue];
    }

    /**
     * aperture_pipeline_tee_remove_branch: drops the entry of `branch`; the
     * other branches keep their queues. The function refuses (returns at
     * once) when `branch` is not in the table.
     */
    method RemoveBranch(branch: Element)
      modifies this
      ensures branch !in queues
      ensures queues.Keys == old(queues).Keys - {branch}
      ensures forall b :: b in queues ==> queues[b] == old(queues)[b]
      ensures branch in old(queues) ==> |queues| == |old(queues)| - 1
    {
      if branch !in queues {
        return;
      }
      queues := queues - {branch};
    }
  }

  /** Adding a new branch and then removing it restores the table. */
  method AddThenRemove(tee: Tee, branch: Element)
    requires branch !in tee.queues
    modifies tee
    ensures tee.queues == old(tee.queues)
  {
    var _ := tee.AddBranch(branch);
    tee.RemoveBranch(branch);
  }
}
