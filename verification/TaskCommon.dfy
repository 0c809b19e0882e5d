/** Vocabulary shared by the task engine (server/src/runner/task_common.h). */
module TaskCommon {

  datatype Status = Pending | Running | Success | Failed | Skipped | Canceled | Timeout

  /** The results on which a DAG is marked as failed. */
  predicate FailureLike(st: Status) {
    st.Failed? || st.Timeout? || st.Canceled?
  }

  /** What a task run is meant to report, and the statuses of a node that has run. */
  predicate Finished(st: Status) {
    st.Success? || FailureLike(st)
  }

  datatype Option<+T> = None | Some(value: T)
}
