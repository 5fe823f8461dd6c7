/** The policy document (internal/policy/types.go): rules, their conditions and their routes. */
module PolicyTypes {
  import opened Prelude

  const PROFILE_CHEAP := "cheap"
  const PROFILE_BALANCED := "balanced"
  const PROFILE_PREMIUM := "premium"
  const RETENTION_NONE := "none"
  const CAP_STREAMING := "streaming"
  const CAP_TOOL_USE := "tool_use"
  const CAP_JSON_SCHEMA := "json_schema"
  const CAP_VISION := "vision"
  const CAP_LONG_CONTEXT := "long_context"

  datatype Block = Block(code: string, reason: string, status: int)

  /** Text fields are unset when empty. */
  datatype Force = Force(
    modelProfile: string, modelProfileName: string, provider: string, model: string,
    verifier: Option<bool>, contextPipeline: Option<bool>, timeoutMs: Option<int>, retention: string)

  datatype Constraints = Constraints(
    allowedProviders: seq<string>, deniedProviders: seq<string>,
    allowedModels: seq<string>, deniedModels: seq<string>,
    requireCapabilities: seq<string>, denyCapabilities: seq<string>,
    maxCostUsd: Option<real>, maxLatencyMs: Option<int>, retention: string,
    fallbackModelProfiles: seq<string>)

  datatype Defaults = Defaults(
    modelProfile: string, modelProfileName: string, provider: string, model: string,
    verifier: Option<bool>, timeoutMs: Option<int>, retention: string,
    maxCostUsd: Option<real>, maxLatencyMs: Option<int>)

  datatype Hints = Hints(
    tier: string, model: string, provider: string, fallbackTier: string, fallbackModels: seq<string>,
    verifier: Option<bool>, maxCostUsd: Option<real>, timeoutMs: Option<int>, retention: string,
    requireCapability: string)

  datatype Route = Route(
    block: Option<Block>, force: Option<Force>, constraints: Option<Constraints>,
    defaults: Option<Defaults>, reason: string, hints: Hints)

  const NO_FORCE := Force("", "", "", "", None, None, None, "")
  const NO_CONSTRAINTS := Constraints([], [], [], [], [], [], None, None, "", [])
  const NO_DEFAULTS := Defaults("", "", "", "", None, None, "", None, None)
  const NO_HINTS := Hints("", "", "", "", [], None, None, None, "", "")
  const NO_ROUTE := Route(None, None, None, None, "", NO_HINTS)

  /** Conditions of a rule; an absent list or set does not restrict. */
  datatype When = When(
    always: bool,
    taskTypes: Option<seq<string>>, riskLevels: Option<seq<string>>,
    tenants: Option<seq<string>>, projects: Option<seq<string>>,
    promptTokensGt: Option<int>, promptTokensLt: Option<int>,
    containsAny: seq<string>, anyFileMatches: seq<string>,
    requiresToolUse: Option<bool>, requiresJsonSchema: Option<bool>, requiresVision: Option<bool>,
    sensitivities: Option<seq<string>>, routerModes: Option<seq<string>>)

  datatype Rule = Rule(id: string, description: string, when_: When, route: Route)

  /** A policy document; a default timeout of zero is none. */
  datatype Document = Document(version: string, defaultTimeoutMs: int, rules: seq<Rule>)

  /** What a request shows to the policy. */
  datatype Input = Input(
    tenantId: string, projectId: string, taskType: string, riskLevel: string, sensitivity: string,
    promptTokens: int, containsText: string, keywords: seq<string>, filesTouched: seq<string>,
    requiresToolUse: bool, requiresJsonSchema: bool, requiresVision: bool, routerMode: string)
}
