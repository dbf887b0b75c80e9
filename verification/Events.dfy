/** The event vocabulary (src/agentforge/core/events/types.py). A draft is an event
    before the store has given it a sequence number. */
module Events {
  import opened Domain

  datatype EventBody =
    | InstanceCreated(workflowId: string, workflowVersion: string, context: Data, budget: Option<real>)
    | InstanceStatusChanged(wfFrom: WorkflowStatus, wfTo: WorkflowStatus)
    | InstanceCompleted(outputs: Data)
    | InstanceFailed(errorType: string, errorMessage: string)
    | WorkflowRequeued(requeued: Option<StepId>)
    | WorkflowBudgetAdjusted(newLimit: Option<real>)
    | StepStatusChanged(stepId: StepId, stFrom: StepStatus, stTo: StepStatus)
    | StepStarted(stepId: StepId, attempt: nat, workerId: string, modelSelected: Option<string>)
    | StepCompleted(stepId: StepId, attempt: nat, output: Data, modelUsed: Option<string>)
    | StepFailed(stepId: StepId, attempt: nat, errorType: string, errorMessage: string, retryable: bool)
    | StepRetryScheduled(stepId: StepId, nextAttempt: nat, runAt: Time)
    | StepSkipped(stepId: StepId)
    | StepCompensated(stepId: StepId, action: string)
    | LLMCallRecorded(stepId: StepId, attempt: nat, recording: Recording)
    | ToolCallRecorded(stepId: StepId, attempt: nat)
    | SideEffectIntentRecorded(stepId: StepId, effectName: string, key: string)
    | SideEffectExecuted(stepId: StepId, key: string)
    | SideEffectCompensated(stepId: StepId, key: string)
    | EscalationRaised(escalationId: string, stepId: StepId, reason: string, deadline: Option<Time>, autoAction: string)
    | EscalationResolved(escalationId: string, stepId: StepId, resolution: string, modified: Data)
    | EscalationTimedOut(escalationId: string, stepId: StepId, autoAction: string)
    | CostCharged(charged: Option<StepId>, amount: real, tokensIn: int, tokensOut: int)
    | BudgetExceeded(stepId: StepId, projected: real, remaining: real)

  datatype Draft = Draft(body: EventBody, at: Time)

  datatype Event = Event(instanceId: string, tenantId: string, sequence: int, draft: Draft)
}
