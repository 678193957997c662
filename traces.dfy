/** What "stop at the first failing step, undo nothing" means for a recorded run. */
module Traces {
  import opened Wrappers
  import opened Plugin

  /**
   * A run stops at its first failing step, where `failureAt` gives the
   * error each step's collaborator returns: every call but the last one
   * succeeded; a collaborator error names the last step made and carries
   * that collaborator's own error; a failing last call always ends the run
   * with its error; and a successful run saw no failure at all.
   */
  ghost predicate StopsAtFirstFailure(failureAt: Step -> Option<Cause>, run: Run) {
    && (forall k :: 0 <= k < |run.calls| - 1 ==> failureAt(StepOf(run.calls[k])) == None)
    && (run.outcome.Err? && run.outcome.error.CollaboratorErr? ==>
          run.calls != []
          && StepOf(run.calls[|run.calls| - 1]) == run.outcome.error.step
          && failureAt(run.outcome.error.step) == Some(run.outcome.error.cause))
    && (run.calls != [] && failureAt(StepOf(run.calls[|run.calls| - 1])).Some? ==>
          run.outcome == Err(CollaboratorErr(StepOf(run.calls[|run.calls| - 1]),
                                             failureAt(StepOf(run.calls[|run.calls| - 1])).value)))
    && (run.outcome.Ok? ==> forall k :: 0 <= k < |run.calls| ==> failureAt(StepOf(run.calls[k])) == None)
  }

  /** Calls that all succeeded can be put in front of a run that stops at its first failure. */
  lemma PrependSucceeded(failureAt: Step -> Option<Cause>, pre: seq<Call>, run: Run)
    requires forall k :: 0 <= k < |pre| ==> failureAt(StepOf(pre[k])) == None
    requires StopsAtFirstFailure(failureAt, run)
    ensures StopsAtFirstFailure(failureAt, Run(run.outcome, pre + run.calls))
  {
  }
}
