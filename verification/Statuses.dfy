/** The status enumerations shared by the workflow engine and the task store. */
module Statuses {
  datatype RunStatus = PENDING | RUNNING | SUCCEEDED | FAILED | CANCELLED | SKIPPED | WAITING_FOR_HUMAN

  datatype AgentRunStatus = PENDING | RUNNING | SUCCEEDED | FAILED | CANCELLED | TIMED_OUT | BUDGET_EXCEEDED

  /** A workflow run that a terminal decision may still claim. */
  predicate Claimable(status: RunStatus) {
    status == RunStatus.PENDING || status == RunStatus.RUNNING || status == RunStatus.WAITING_FOR_HUMAN
  }

  /** An agent run that a cancellation may still claim. */
  predicate ActiveAgent(status: AgentRunStatus) {
    status == AgentRunStatus.PENDING || status == AgentRunStatus.RUNNING
  }
}
