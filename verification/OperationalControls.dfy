/** Pause and freeze switches that gate verification and settlement plans. */
module OperationalControls {
  import opened Text
  import opened Schemas

  datatype BlockReason = PauseVerification | PauseSettlement | FreezeTask | FreezeAgent

  datatype Controls = Controls(
    pauseSettlement: bool,
    pausePayout: bool,
    pauseVerification: bool,
    frozenTaskIds: set<string>,
    frozenAgentIds: set<string>)
  {
    function VerificationBlockReason(task: TaskContract): Option<BlockReason>
    {
      if pauseVerification then Some(PauseVerification) else FreezeReason(task)
    }

    function SettlementBlockReason(task: TaskContract): Option<BlockReason>
    {
      if pauseSettlement then Some(PauseSettlement) else FreezeReason(task)
    }

    function FreezeReason(task: TaskContract): Option<BlockReason>
    {
      if task.taskId in frozenTaskIds then Some(FreezeTask)
      else if task.agentId in frozenAgentIds then Some(FreezeAgent)
      else None
    }
  }
}
