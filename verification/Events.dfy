/** Events of the asynchronous event log (internal/eventlog/types.go). */
module Events {
  import opened Prelude

  datatype Decision = Decision(requestId: string, tenantId: string, selectedModel: string, selectedProvider: string,
      blocked: bool)

  datatype Attempt = Attempt(
    requestId: string, tenantId: string, projectId: string, providerId: string, modelId: string,
    index: nat, success: bool, errorCode: string, inputTokens: int, outputTokens: int,
    actualCostUsd: real, estimatedCostUsd: real)

  const DECISION := "decision"
  const ATTEMPT := "attempt"

  /** The kind says which of the two payloads counts; either may be missing. */
  datatype Event = Event(kind: string, decision: Option<Decision>, attempt: Option<Attempt>)
}
