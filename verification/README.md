# Verified model of the LLM router

The router decides which language model answers a request. It compiles a
policy document, filters and ranks the models of a registry, streams the answer
from a chain of candidates, and accounts for the cost. This project states that
logic in Dafny and proves what its design promises, for all inputs, all runs and
all behaviours of providers and clients.

| module | component |
|---|---|
| `Globs`, `GlobLimits` | file globs of the policy language: translation to regular-expression text, a reader of such text, its meaning; where that and the documentation part |
| `PolicyTypes`, `Validation`, `Policy`, `PolicyLaws`, `PolicyFacts`, `References` | the policy document; validating, compiling and evaluating it; what an evaluation means field by field, and what it can name |
| `Registry` | registry snapshots, their indexes, reloading |
| `Engine`, `Scoring`, `Decision` | the hard filter; ranking and the fallback chain; the decision |
| `FilterFacts`, `ScoreFacts`, `DecisionFacts` | the same three in the literal names and numbers of tiers, tasks, risks, capabilities, weights and fields, stated independently of the definitions they use |
| `FilterLimits`, `DecisionLimits` | which promises filter and decision keep, and exactly when |
| `Narrowing`, `Widening` | what a rule or the conservative mark does to the set of candidates, from the policy through the filter; exactly when a merge adds one |
| `Events`, `Streaming`, `Sse` | streaming with fallback; the event-stream format on both sides of the relay |
| `EventQueue`, `Spend`, `Accounting` | the bounded queue in every interleaving; the spend books; money followed from the stream to the books |
| `Health` | the rolling window of outcomes per provider |
| `Perceptron` | the multiclass perceptron trainer |
| `Frontier` | the cost/quality frontier and its recommendations |
| `Cost` | fixed-point prices, money as text, the what-if simulation |
| `TermSearch` | whole-word search that skips ahead |
| `Prelude`, `Sorting`, `Sums`, `Samples` | shared vocabulary; small registries and requests for the cases |

Conventions of the model:

- Go's (value, error) pairs and nil pointers are `Result` and `Option`. Floating-point numbers are `real`; 64-bit integers are unbounded except in `Cost`, where range and wrap-around are explicit.
- A library sort is any ordered rearrangement; a proof never relies on how ties fall. A map iteration may visit its keys in any order.
- A provider attempt is a script: failing to open, closing at once, staying silent past the timeout, losing the client, or sending any finite sequence of chunks. Timeouts are outcomes, not clock readings.
- The queue is a system of steps taken in any order by callers, worker and cancellation; the handler may panic.

Where the code does something its documentation does not say, the model follows
the code, and a lemma shows where the two part:

- Two allowlists without a common value merge to the empty list, and an empty list does not restrict. The policy notes say that allowlists intersect. `PolicyLaws.AllowlistsMeetIff`, `Narrowing.MergeNarrowsIff` and, for candidates of every forced route, `Widening.CandidatesNarrowIff` say exactly when they do; `PolicyLaws.DisjointAllowlistsWiden` is a case where they do not.
- The dot of the translated `**` does not match a line feed, and characters beyond ASCII are escaped byte by byte. `GlobLimits.GlobReadAsDocumentedIff`, `GlobLimits.GlobReadOnLinesIff` and `GlobLimits.PathReadAsDocumentedIff` say exactly which globs and which paths that concerns; `Globs.LineFeedEscapesDoubleStar` and `GlobLimits.ShortestRefused` are cases.
- A policy block is not honoured when routing is disabled: exactly when, `DecisionLimits.BlockHonouredIff`; a case, `DecisionLimits.RoutedDespiteBlock`.
- The policy reference (06-engineering/01-routing-policy-reference.md:277-280) says that force and constraints win over a client override. The client's model comes first, and only the lists are checked: exactly when force and constraints bind the client, `DecisionLimits.ForceBindsClientIff` and `DecisionLimits.ConstraintsBindClientIff`; a case, `DecisionLimits.ClientOverridesForce`. A forced timeout or verifier does not reach such a route: `DecisionLimits.PinnedTermsKeptIff`.
- The policy reference lets `contains_any` match the prompt. The engine does not pass the prompt on: `DecisionLimits.OnlyKeywordsMention`. It also names 451 as the default status of a block; the code uses 403.
- A model named by id is used whether or not it is enabled: exactly when it could have been offered, `DecisionLimits.PinnedIsOfferedIff`; a case, `DecisionLimits.DisabledModelIsRouted`.
- A provider that closes its channel after the first chunk counts as a success: exactly when, `Streaming.SilentCloseIsSuccess`; a case, `Streaming.OneChunkClosesSilently`. A client that leaves before the first chunk leaves no record: `Streaming.ReportsInOrder`.
- Provider ids of which one is the other followed by a NUL collide in the pair index: exactly when, `Registry.PairKeyInjectiveIff` and `Registry.LookupsAreScansIff`; a family of cases, `Registry.PairKeyCollides`.
- Negative amounts are written but not read back: `Cost.MoneyRoundTripIff`.
- Multiplying all prices changes the score of a candidate with a negative estimate when no candidate costs anything: exactly when, `Scoring.PriceScaleInvariance`; a case, `DecisionLimits.DoubledRebateMoves`.
- A policy cannot deny `json_schema`: `FilterLimits.DenialHonouredIff`, with the case in `FilterLimits.JsonSchemaStays`. The engine never reads a cost ceiling: `FilterLimits.CeilingKeptIff` and `DecisionLimits.CeilingChangesNothing`, with the case in `FilterLimits.CeilingExceeded`.
- Reported savings wrap in 64 bits: exactly when they are right, `Cost.SavingsExactIff`, and their percentage, `Cost.PercentExactIff`.

## Model

| member | source | states |
|---|---|---|
| Globs.CompiledGlobMeaning | internal/policy/compiled.go:413-443 | for every glob and path, the emitted text is a well-formed regular expression, and searching for it accepts exactly what the UTF-8 bytes of the glob denote, each taken as a character, with double stars standing for text without line feeds |
| Globs.CompiledGlobIsDocumentedGlob | internal/policy/compiled.go:413-443 | for every ASCII glob and every path without line feeds the compiled glob accepts exactly the documented meaning |
| Globs.EmittedTextReads | internal/policy/compiled.go:413-443 | whatever the bytes, the emitted text reads back completely, as exactly their pieces between two anchors: escaping is right for every byte |
| GlobLimits.GlobReadAsDocumentedIff | internal/policy/compiled.go:413-443 | a compiled glob accepts exactly the documented paths, over all paths whatever their text, iff the glob is ASCII and holds no double star |
| GlobLimits.GlobReadOnLinesIff | internal/policy/compiled.go:413-443 | over all paths without line feeds it does iff the glob is ASCII, or holds a line feed and so denotes none of them |
| GlobLimits.PathReadAsDocumentedIff | internal/policy/compiled.go:413-443 | a path is accepted as documented by every compiled glob iff it is ASCII without line feed |
| GlobLimits.ShortestRefused | internal/policy/compiled.go:439 | every glob beyond ASCII denotes a path that its compiled form refuses |
| Globs.LineFeedEscapesDoubleStar | internal/policy/compiled.go:428 | a path for which compiled and documented meaning differ |
| Globs.CompileGlob | internal/policy/compiled.go:413-443 | the one-pass translation refuses exactly the blank globs and otherwise yields what the emitted text reads back as |
| Globs.OperatorsSpelled | internal/policy/compiled.go:413-443 | the fourteen operators of the reader, by name: alone none stands for a character except the dot, behind a backslash each stands for itself |
| Globs.CodeUnitsDecode | internal/policy/compiled.go:439 | the bytes of a character decode to its number, in the length and with the lead byte of UTF-8 |
| GlobLimits.AnyFileDenoted | internal/policy/compiled.go:401-411 | with compiled globs, some file matches iff some file, backslashes read as slashes, is denoted by some glob, as long as for each file and glob one of the two is ASCII and a file name with a line feed meets no double star |
| Globs.MatchesAnyFile | internal/policy/compiled.go:401-411 | the nested search finds a match iff there is one |
| PolicyLaws.CompiledMatcherMeaning | internal/policy/compiled.go:295-355 | a compiled matcher accepts exactly the inputs that meet the conditions of the rule as written |
| PolicyFacts.CompiledRuleMatches | internal/policy/compiled.go:105-118 | a rule of a compiled policy matches exactly when the conditions of the same rule of the document hold |
| PolicyFacts.CompiledFields | internal/policy/compiled.go:99-117 | a compiled policy has the version, timeout and rules of its document and the version of its registry; each rule the id, description, reason and block of its own |
| Validation.Validate | internal/policy/parser.go:33-94 | a policy is refused iff some route names a provider or model that the snapshot does not hold |
| Validation.KnownSpelled | internal/policy/parser.go:57-89 | whatever a known route names, list by list and field by field, is in the snapshot: forced and default provider, model and profile model, the four lists, and two hints |
| Validation.KnownWhenSpelled | internal/policy/parser.go:57-89 | a route is known as soon as all of these are |
| Policy.Compile | internal/policy/compiled.go:95-120 | compilation succeeds iff policy and snapshot are there, all references are known and no glob is blank; rules keep their order, with matchers and normalised routes |
| References.EvaluatedKnown | internal/policy/compiled.go:95-169 | for every input, every provider and model that an evaluation of a compiled policy names is in the snapshot it was compiled against |
| Policy.Evaluate | internal/policy/compiled.go:150-169 | the loop yields the merge of exactly the fired rules: their ids, explanations and route, blocked iff the last fired rule blocks |
| PolicyFacts.EvaluationFields | internal/policy/compiled.go:150-169 | an evaluation carries the version and the ids of the fired rules in order, and is blocked iff some matching rule has a block |
| PolicyFacts.RulesExplained | internal/policy/compiled.go:189-198 | beside the ignored force fields, each fired rule is explained by its id, its description if any and its reason if any, each once |
| PolicyLaws.FiredFront | internal/policy/compiled.go:156-167 | the fired rules are the matching ones up to and including the first that blocks, and the evaluation is blocked iff there is such a rule |
| PolicyLaws.BlockedHasBlock | internal/policy/compiled.go:163-166 | an evaluation is blocked iff its route carries a block, so reading the block of a blocked one is safe |
| PolicyLaws.MergedBlock | internal/policy/compiled.go:445-466 | the block of a blocked evaluation is that of the rule that stopped it |
| PolicyLaws.MergedFields | internal/policy/compiled.go:445-746 | every force and defaults field of the merged route is the first value set by a fired rule; every hint and the reason is the last |
| PolicyFacts.MergedForceSpelled | internal/policy/compiled.go:468-534 | profile, profile model, provider, model and retention of the merged force are each the first that a fired rule sets in the same field |
| PolicyFacts.MergedForceLimitsSpelled | internal/policy/compiled.go:468-534 | verifier, context pipeline and timeout of the merged force likewise |
| PolicyFacts.MergedDefaultsSpelled | internal/policy/compiled.go:678-711 | profile, profile model, provider, model and retention of the merged defaults likewise |
| PolicyFacts.MergedDefaultLimitsSpelled | internal/policy/compiled.go:678-711 | verifier, timeout, cost and latency of the merged defaults likewise |
| PolicyFacts.MergedHintsSpelled | internal/policy/compiled.go:445-746 | tier, model, provider, fallback tier and retention of the merged hints, and the reason, are each the last that a fired rule sets |
| PolicyFacts.MergedHintLimitsSpelled | internal/policy/compiled.go:713-746 | fallback models, verifier, cost, timeout and capability of the merged hints likewise |
| PolicyLaws.MergedSections | internal/policy/compiled.go:445-466 | force, constraints and defaults are present iff some fired rule has them |
| PolicyLaws.MergedLists | internal/policy/compiled.go:536-558 | a value is denied, required or a fallback profile iff some fired rule says so |
| PolicyFacts.MergedListsSpelled | internal/policy/compiled.go:536-558 | the denied providers, denied models, required capabilities, denied capabilities and fallback profiles, each list by its own name |
| PolicyLaws.MergedCeilings | internal/policy/compiled.go:536-558 | cost and latency ceilings are the least of those set by fired rules |
| PolicyLaws.MergedRetention | internal/policy/compiled.go:656-661 | retention is none iff some fired rule says none, otherwise the first one set |
| PolicyFacts.MergedRetentionSpelled | internal/policy/compiled.go:656-661 | merged retention is "none" iff some fired rule says "none", otherwise the first that is set |
| PolicyLaws.MergedAllowlists | internal/policy/compiled.go:536-558 | the merged allowlists are those of the fired rules, narrowed one after the other |
| PolicyLaws.AllowlistsMeetIff | internal/policy/compiled.go:636-654 | the merged allowlist permits exactly what all lists permit iff some value is permitted by all of them |
| PolicyLaws.DisjointAllowlistsWiden | internal/policy/compiled.go:636-654 | three lists whose merge permits a value that the first two exclude |
| PolicyLaws.UnionLaw | internal/policy/compiled.go:663-676 | a union holds exactly the values of both lists, each once |
| PolicyLaws.ShadowsExplained | internal/policy/compiled.go:468-534 | for every rule and force field, exactly as many "ignored" explanations as times that rule sets the field after another fired rule did |
| PolicyLaws.NormalizedHints | internal/policy/compiled.go:560-613 | after normalisation each hint shows in force or defaults unless the field was set, the timeout going to the force when there is one; no other field changes |
| PolicyLaws.NormalizedConstraints | internal/policy/compiled.go:560-613 | constraint hints only add values, and set a ceiling or retention only where none was set |
| Policy.NormalizeRouteHints | internal/policy/compiled.go:560-613 | the step-by-step rewriting yields the normalised route of the laws above |
| Policy.IntersectIfBoth | internal/policy/compiled.go:636-654 | the set-based loop computes the merge of two allowlists that the laws speak of |
| Policy.UnionValues | internal/policy/compiled.go:663-676 | the loop over both lists computes their union, first occurrences in order |
| Narrowing.MergeNarrowsIff | internal/policy/compiled.go:536-558 | merging constraints lets no additional model through the lists iff both pairs of allowlists share a value or one is empty, or every value common to a pair is denied by one side |
| Widening.CandidatesNarrowIff | internal/engine/filter.go:24-126 | whatever the route forces, merging constraints adds no candidate, for any request, health and registry that can be built, iff the closed condition `Widens` fails: some model can meet the force, no required capability is denied, one pair of allowlists is disjoint (for a forced provider: with that provider outside the first and not denied), and the other pair lets something through |
| Widening.WidensAdds | internal/engine/filter.go:24-126 | when the condition holds: a registry of one model, and a request, for which the merge makes that model a candidate that the first constraints refuse |
| Narrowing.MergeAdmits | internal/engine/filter.go:83-126 | merged constraints admit a model (lists, latency, required and denied capabilities) iff both admit it, when the allowlists meet |
| Narrowing.AppendedRuleNarrows | internal/policy/compiled.go:536-558 | appending a matching rule that only constrains keeps exactly the candidates that meet its constraints |
| Narrowing.RulesDecide | internal/engine/filter.go:24-163 | policy and filter together: a model is a candidate iff it meets the merged force and the constraints of every fired rule taken one by one |
| Narrowing.InsertedRuleNarrows | internal/policy/compiled.go:150-169 | inserting a rule that only constrains anywhere in the policy never adds a candidate, and removes exactly those its constraints refuse |
| Narrowing.ConservativeNarrows | internal/engine/filter.go:131-163 | the conservative mark removes exactly the candidates below the balanced tier, in every router mode and for every force |
| Engine.HardFilterLaw | internal/engine/filter.go:58-126 | the filter gives no reason iff tier, health, lists, latency, capabilities, force and mode are all met |
| Engine.FilterCandidates | internal/engine/filter.go:24-56 | the candidates are exactly the enabled models of active providers that meet every condition, in id order; exactly the other offered models are excluded, with the filter's reason |
| FilterFacts.CandidateSpelled | internal/engine/filter.go:24-126 | a model is a candidate iff, in literal tiers, tasks, risks and capabilities: it is in service, can do what request and policy need, one by one, has a tier that suffices, a provider at a tenth of health or more, is on the lists, fast enough, undenied, as forced, and fits the mode |
| FilterFacts.RiskyTasksPremium | internal/engine/filter.go:128-163 | without a known forced profile, candidates for security review, database migration and unknown high risk are premium; those for hard debugging, long context, high or critical risk are balanced or premium |
| FilterFacts.CheapSuffices | internal/engine/filter.go:128-163 | for every other job without the conservative mark, a cheap model in service that can do what is asked is a candidate |
| FilterFacts.ExclusionSpelled | internal/engine/filter.go:58-126 | the reason of an exclusion is that of the first condition that fails, in the order of the filter |
| FilterFacts.UsableSpelled | internal/engine/fallback.go:44-61 | a usable fallback is another model, of a listed profile when there is a list, and of no lower tier at high or critical risk |
| Scoring.ScoreCandidates | internal/engine/score.go:22-66 | the ranking is a rearrangement of the candidates with their scores, best first |
| Scoring.RankingLaw | internal/engine/score.go:22-66 | a ranking holds exactly the candidates, each with its score, in descending order |
| ScoreFacts.ScoreSpelled | internal/engine/score.go:22-154 | the score as one sum: measured quality or else the prior of the tier, fit to the floor, health, estimate and latency as shares of the largest, and penalty, each in numbers, under the weights of the mode |
| ScoreFacts.TierDifference | internal/engine/score.go:68-146 | the exact difference of the scores of two unmeasured candidates that differ in tier only, by tier, floor, risk and mode |
| ScoreFacts.PremiumAheadOfCheap | internal/engine/score.go:68-146 | for a simple request with the default weights an unmeasured premium model is ahead of the same model as a cheap one by exactly 0.08 |
| ScoreFacts.EstimateSpelled | internal/engine/score.go:148-156 | the estimate is prompt tokens at the input rate plus output tokens at the output rate, nothing without a price |
| ScoreFacts.ModesSpelled | internal/engine/score.go:158-169 | what cheap and premium mode change in the weights, and that no other mode changes anything |
| Scoring.DominanceRanksFirst | internal/engine/score.go:68-95 | with the default weights, in every router mode, a candidate no worse in any respect and different in some ranks strictly before the other |
| Scoring.PriceScaleInvariance | internal/engine/score.go:22-95 | multiplying all prices by one positive constant leaves a score unchanged, whatever the weights, iff the estimate is not negative, or some candidate costs something, or the constant or the cost weight makes no difference |
| DecisionLimits.DoubledRebateMoves | internal/engine/score.go:22-95 | in a registry that can be built, a sole candidate of negative estimate whose score moves when its prices double |
| Scoring.BuildFallbackChain | internal/engine/fallback.go:17-42 | the loop with early exit yields the first two usable models of the ranking |
| Scoring.ChainLaw | internal/engine/fallback.go:17-61 | at most two fallbacks, distinct, never the primary, never of a lower tier at high or critical risk, of a listed profile when there is a list; all usable ones when fewer than two |
| Scoring.ChainOrder | internal/engine/fallback.go:17-42 | the chain is in ranking order and every usable model left out ranks behind all of it |
| Decision.DecisionEngine.Decide | internal/engine/engine.go:70-153 | the outcome, with route id, timeout, verifier and policy version, is that of disabled mode or block, else of the named or forced model, else of the automatic path over a ranking of exactly the candidates |
| DecisionFacts.ConditionsSpelled | internal/engine/engine.go:240-258 | the conditions of a rule hold for a request, each against its own field: task, risk, tenant, project, sensitivity, mode, tokens, tools, schema, vision, keywords, files |
| DecisionFacts.TenantBarredIff | internal/engine/engine.go:70-121 | under a policy that bars one tenant, with routing enabled, exactly the requests of that tenant are blocked, with the code of the block and status 403 |
| DecisionFacts.ConservativeSpelled | internal/engine/engine.go:50-61 | a request counts as uncertain iff the switch is on and its task is unknown, or its confidence is known and below a half |
| DecisionFacts.MarkSpelled | internal/engine/engine.go:70-93 | the mark is set exactly then, unless routing is disabled, and nothing else of the request changes |
| DecisionFacts.BlockedOutcome | internal/engine/engine.go:93-111 | a blocked request gets the code of the block, its status or else 403, and the policy version |
| DecisionFacts.DisabledOutcome | internal/engine/engine.go:155-187 | with routing disabled the client's model is used as it is called iff the lists permit it; without one the request fails |
| DecisionFacts.PinnedOutcome | internal/engine/engine.go:189-238 | a named or forced model is not found, refused by the lists, or used, each field of the outcome from its own place |
| DecisionFacts.RoutedFields | internal/engine/engine.go:123-153 | an automatic route, field by field: route id, model, fallbacks, estimate in dollars |
| Decision.DecisionEngine.DecideAuto | internal/engine/engine.go:123-152 | the automatic path fails iff there is no candidate and otherwise takes the first of the ranking with the chain behind it |
| Decision.AutoPathLaw | internal/engine/engine.go:123-152 | the automatic path gives no route iff no model passes every filter; otherwise it names a passing model of highest score and at most two different passing models that may stand in for it |
| Decision.PrimaryIsBest | internal/engine/engine.go:123-133 | no route iff no model passes every filter; otherwise the primary passes and no passing model scores higher |
| Decision.FallbacksAreSafe | internal/engine/fallback.go:17-61 | fallbacks pass every filter, differ from each other and the primary, keep the tier at high risk, and are complete when fewer than two |
| Decision.FallbacksAreBest | internal/engine/fallback.go:17-61 | fallbacks come best first and no usable candidate left out scores higher than one chosen |
| DecisionLimits.BlockHonouredIff | internal/engine/engine.go:84-111 | the decision on a blocked request is a route iff routing is disabled and the client names a model that the lists permit |
| DecisionLimits.RoutedDespiteBlock | internal/engine/engine.go:84-87 | under a policy that blocks everything, a client that disables routing is routed to the model it names |
| DecisionLimits.PinnedByIdIff | internal/engine/engine.go:189-229 | a model that the client or the policy names by id is routed to iff the lists permit it |
| DecisionLimits.PinnedIsOfferedIff | internal/engine/engine.go:196-204 | a named model is one that routing could offer iff it was not found by id, or is enabled at an active provider and can chat |
| DecisionLimits.DisabledModelIsRouted | internal/engine/engine.go:196-204 | in a registry that can be built, a disabled model that the client names is routed to |
| DecisionLimits.ForcedModelIsFound | internal/engine/engine.go:118-121 | with a policy compiled against the registry in use, a model that the policy forces is always found |
| DecisionLimits.TimeoutLaw | internal/engine/engine.go:260-274 | the timeout is the first that a fired rule forces, else the first default of a fired rule, else the document's, else by context size |
| DecisionLimits.VerifierLaw | internal/engine/engine.go:276-284 | the verifier likewise, else by task type |
| DecisionLimits.ClientReachesIff | internal/engine/engine.go:113-121 | whatever model the client names, the model it is routed to has a property iff every model of the registry that the lists permit has it |
| DecisionLimits.ForceBindsClientIff | internal/engine/engine.go:113-121 | a client cannot leave the merged force by naming a model iff every permitted model of the registry meets that force |
| DecisionLimits.ConstraintsBindClientIff | internal/engine/engine.go:206-219 | the same for latency and capabilities in the merged constraints |
| DecisionLimits.PinnedTermsKeptIff | internal/engine/engine.go:221-228 | on a named or forced model, a forced timeout or verifier is kept iff it asks for none |
| DecisionLimits.ClientOverridesForce | internal/engine/engine.go:113-121 | under a policy that forces another provider, a verifier and a timeout, a client that names a model gets it without all three |
| DecisionLimits.OnlyKeywordsMention | internal/engine/engine.go:240-258 | a policy term is mentioned by a request iff it is one of its keywords: the prompt text is not passed on |
| DecisionLimits.CeilingChangesNothing | internal/engine/engine.go:123-152 | no cost ceiling of a policy changes an outcome of the automatic path |
| FilterLimits.CeilingKeptIff | internal/engine/filter.go:83-102 | under a cost ceiling all candidates cost at most the ceiling iff they did without it |
| FilterLimits.CeilingExceeded | internal/engine/filter.go:83-102 | in a registry that can be built, a request of five dollars is a candidate under a ceiling of one |
| FilterLimits.DenyingOne | internal/engine/filter.go:83-102 | denying one more capability takes away exactly the candidates for which the filter looks it up and finds it |
| FilterLimits.DenialHonouredIff | internal/engine/filter.go:83-102 | denying a capability keeps out every model that has it, for any request, route, registry and health, iff it is not `json_schema` |
| Decision.FindByProviderModelId | internal/engine/engine.go:231-238 | finds the first offered chat model, in id order, with the provider's name, and nothing iff there is none |
| Decision.DecidePinned | internal/engine/engine.go:189-229 | a named model is unknown, refused iff it violates a list, or used as it is |
| Registry.NewSnapshot | internal/registry/snapshot.go:26-88 | a definition is accepted iff it meets all rules, and the snapshot then indexes it completely |
| Registry.AcceptsSpelled | internal/registry/snapshot.go:26-88 | what a definition must meet, in texts and positions: a version, providers and models that are shown, known, different in id and in the joined key |
| Registry.SnapshotHolds | internal/registry/snapshot.go:26-88 | a snapshot holds each provider and model of its definition under its own id, and nothing else |
| Registry.PairKeyInjectiveIff | internal/registry/snapshot.go:210-212 | the keys of two providers never clash, whatever the model names, iff neither id is the other followed by a NUL |
| Registry.PairKeyInjective | internal/registry/snapshot.go:210-212 | between such ids a key stands for one pair |
| Registry.PairKeyCollides | internal/registry/snapshot.go:210-212 | with a NUL two different pairs share a key |
| Registry.LookupsAreScansIff | internal/registry/snapshot.go:120-129 | lookups for a provider return exactly the model with the pair, whatever the model name, iff no other provider's model has a key that starts with the provider's id and a NUL |
| Registry.LookupIsScan | internal/registry/snapshot.go:120-129 | under that condition lookup by pair returns a model iff that model is in the definition and has the pair |
| Registry.NulFreeLookups | internal/registry/snapshot.go:120-129 | where no provider id holds a NUL every lookup is a scan |
| Registry.PairsRefusedIff | internal/registry/snapshot.go:76-79 | two models whose provider ids do not extend each other through a NUL clash iff they really have the same provider and provider name |
| Registry.ListsPartition | internal/registry/snapshot.go:81-86 | each model id is in the list of its own provider and of no other |
| Registry.SnapshotWellKeyed | internal/registry/snapshot.go:57-83 | in every snapshot each model is filed under its own id, which filter and decision rely on |
| Registry.EnabledModelsWithCapabilities | internal/registry/snapshot.go:143-160 | exactly the enabled models of active providers with the capabilities, in id order |
| Registry.OfferedSpelled | internal/registry/snapshot.go:143-160 | a model is offered iff it is in the snapshot, enabled, its provider active, and it has each capability that is required |
| Registry.Store.Reload | internal/registry/snapshot.go:198-208 | after any sequence of reloads the active snapshot is that of the last accepted definition |
| Streaming.Exchange.StreamWithFallback | internal/server/chat.go:267-448 | for every list of candidates and every behaviour of each, what the client gets, what is recorded, and which attempts are cancelled, each exactly once, equal the declarative answer; told apart from it, health, log and client each learn what the scripts say, entry by entry |
| Streaming.OneAnswer | internal/server/chat.go:329-447 | the client gets nothing (iff it left), one error (iff nobody served), or one stream of one candidate: payloads, then at most one terminator |
| Streaming.AnswerTrue | internal/server/chat.go:329-447 | the answer by the scripts alone: the stream of the first candidate with a good first chunk, nothing when the client left first, or one error with the status and code of the last attempt |
| Streaming.HealthTrue | internal/server/chat.go:286-292 | the health tracker is told once for each recorded attempt: its own provider, and success iff it was served to the end without an error |
| Streaming.LogTrue | internal/server/chat.go:293-320 | the log holds one event for each recorded attempt, in order: ids, index, success, error code, tokens and costs each from its own place |
| Streaming.ErrorsNamed | internal/server/chat.go:957-978 | the status and code of each provider error |
| Streaming.ReportsInOrder | internal/server/chat.go:286-447 | records carry 0, 1, 2, ... and their candidates, all but the last are failures, one for each attempt except a lost client's, and the last succeeds iff a candidate served to the end without error |
| Streaming.NoFallbackAfterService | internal/server/chat.go:390-443 | the first candidate whose first chunk is good is the last one attempted |
| Streaming.EndsAt | internal/server/chat.go:390-443 | a stream is the payloads before its first terminal chunk and the matching terminator, recorded with the last usage read |
| Streaming.SilentCloseIsSuccess | internal/server/chat.go:390-443 | every served attempt is recorded as a success iff the client saw the end mark or the channel just closed, never both; in the second case the client saw payloads only |
| Sse.ReadStream | internal/provider/openai.go:164-192 | the read loop sends exactly the chunks the text stands for, or the first so many when it is cancelled |
| Sse.OneTerminalChunk | internal/provider/openai.go:164-232 | for any valid text: data chunks and then exactly one chunk that ends the stream |
| Sse.FramesSpelled | internal/server/chat.go:515-528 | what goes over the wire for a payload, for the end of a stream and for an error, in literal text |
| Sse.LinesSpelled | internal/provider/openai.go:196-232 | what a line stands for, in literal text: a data line for its payload, the end mark for the end, any other for nothing |
| Sse.RelayRoundTrip | internal/server/chat.go:515-519 | reading the router's output gives exactly the chunks read from any upstream body that ended normally |
| EventQueue.StepKeepsInv | internal/eventlog/queue.go:35-82 | each step keeps: accepted is taken followed by waiting, calls are accepted plus dropped, the buffer within capacity, drops only when full |
| EventQueue.EnqueueSpelled | internal/eventlog/queue.go:33-41 | an event joins the end of the buffer when there is room and is counted as dropped when there is none |
| EventQueue.WorkerSpelled | internal/eventlog/queue.go:55-82 | when the worker may take, notice a cancellation or return, and what each of these does to the queue |
| EventQueue.DropsAreFull | internal/eventlog/queue.go:33-41 | in every interleaving the drop counter counts exactly the calls that found the buffer full |
| EventQueue.EveryRunKeepsInv | internal/eventlog/queue.go:35-82 | the invariant holds after every interleaving; the worker returns only after cancellation and with everything accepted so far taken |
| EventQueue.NoLossBelowCapacity | internal/eventlog/queue.go:33-41 | if the buffer was never full, every event was taken once, in order |
| EventQueue.HistoryGrows | internal/eventlog/queue.go:35-82 | no later step takes back a call, a reception or a drop |
| EventQueue.Queue.Enqueue | internal/eventlog/queue.go:35-41 | the method is the enqueue step of the system |
| EventQueue.Queue.Run | internal/eventlog/queue.go:55-82 | whatever arrives, is cancelled or panics around it, the worker loop is a run of the step system, hands over what it takes in order, and returns only cancelled and with all accepted before taken |
| EventQueue.Queue.DrainAll | internal/eventlog/queue.go:70-79 | once callers stop, the drain loop ends: with an empty buffer and all accepted events taken, unless a handler panics |
| Spend.ModelRows | internal/spend/tracker.go:59-131 | after any events the row of a model has as many requests as unblocked decisions, and the cost and tokens of the successful attempts, for that model |
| Spend.TenantRows | internal/spend/tracker.go:59-131 | the row of a tenant likewise; events without a tenant have no row |
| Spend.RowsOpen | internal/spend/tracker.go:83-117 | a model has a row iff some event opened it, with the provider of the first that did |
| Spend.Totals | internal/spend/tracker.go:59-187 | all model costs add up to the realised cost of all successes, all requests to the unblocked decisions, all tenant costs to the successes with a tenant |
| Spend.DecisionSpelled | internal/spend/tracker.go:72-98 | a decision adds one request to its model and tenant unless blocked, and no cost |
| Spend.AttemptSpelled | internal/spend/tracker.go:100-131 | a successful attempt adds its actual cost, or its estimate when that is zero, and its tokens; a failed one nothing |
| Spend.Tracker.Handle | internal/spend/tracker.go:59-131 | the maps updated in place stay the books of all events handled |
| Spend.Tracker.TotalRequests | internal/spend/tracker.go:169-177 | the sum over all models is the number of unblocked decisions handled |
| Spend.Tracker.TotalCostUsd | internal/spend/tracker.go:180-188 | the sum over all models is the realised cost of all successful attempts handled |
| Spend.Tracker.ByModel | internal/spend/tracker.go:134-150 | one row for each model, exactly as in the books, most requests first |
| Spend.SortRowsDesc | internal/spend/tracker.go:190-204 | the in-place sort yields the same rows, most requests first |
| Accounting.RequestChargedOnce | internal/server/chat.go:286-447 | the events of a streamed request cost nothing unless it was served to the end, and then exactly the charge of the serving candidate, to its model and tenant only |
| Accounting.MoneyConserved | internal/eventlog/queue.go:35-82 | in every interleaving, for every model: what all enqueued events cost is what the books hold plus what waits plus what was dropped, and as many were dropped as counted |
| Accounting.TenantMoneyConserved | internal/eventlog/queue.go:35-82 | the same for every named tenant |
| Accounting.TotalMoneyConserved | internal/eventlog/queue.go:35-82 | the same for the sums over all models and over all named tenants |
| Accounting.RequestsConserved | internal/server/chat.go:286-447 | however the events of any streamed requests interleave on their way into the queue, with any events that are no successes, and whatever the worker does: for every view, what was taken, what waits and what was dropped cost exactly the charges of the requests, each once |
| Accounting.BooksMatchRequests | internal/spend/tracker.go:59-188 | with everything handled and nothing dropped, every row and total of the books is the charges of the requests it concerns |
| Health.Tracker.Record | internal/health/tracker.go:46-59 | appends to the history of one provider and leaves all others alone |
| Health.Tracker.ProviderHealth | internal/health/tracker.go:63-81 | the ring yields the documented score of the provider's history |
| Health.FullRing | internal/health/tracker.go:46-81 | a full ring holds as many successes as the last hundred outcomes |
| Health.ExcludedIff | internal/engine/filter.go:58-73 | with the tracker's score, the filter refuses a model for its provider's health iff its tier suffices and the provider has at least five outcomes and less than a tenth successes among the recent ones; a provider that is not failing never costs a model its place |
| Health.Tracker.Providers | internal/health/tracker.go:84-102 | all tracked providers with the documented score of their histories |
| Health.ScoreInUnit | internal/health/tracker.go:61-62 | scores are between 0 and 1 |
| Health.ScoreSpelled | internal/health/tracker.go:61-81 | a score is 1 before five outcomes, then the share of successes among the last hundred |
| Perceptron.MistakeBound | internal/classifier/experiment.go:248-280 | if some model separates the examples by a margin and their norms are bounded, squared margin times all updates is at most twice the squared radius times the squared norm of that model |
| Perceptron.StoppedEarlyIsPerfect | internal/classifier/experiment.go:274-276 | if training stops early, the model labels every example right |
| Perceptron.WideMarginIsLearnt | internal/classifier/experiment.go:248-280 | examples separated widely enough for the number of epochs are all labelled right after training |
| Perceptron.UpdateEffect | internal/classifier/experiment.go:262-272 | one correction moves the model towards every separating model and lengthens it by at most twice the example's squared norm |
| Perceptron.CauchySchwarz | internal/classifier/experiment.go:242-246 | the square of the inner product of two models is at most the product of their squared norms |
| Perceptron.TrainLinearPerceptron | internal/classifier/experiment.go:248-280 | the nested loops over the weight maps compute the training run that the bounds speak of, whatever order features are visited in |
| Perceptron.UpdateSpelled | internal/classifier/experiment.go:262-272 | a correction adds the example to the vector of its label and takes it from that of the prediction, biases by one, and touches nothing else |
| Perceptron.TrainingSpelled | internal/classifier/experiment.go:248-280 | training is at most fourteen epochs from a model that scores everything 0 |
| Perceptron.Predict | internal/classifier/experiment.go:282-313 | the first label of highest score, with a confidence between a half and one that grows with the margin over the runner-up |
| Perceptron.ConfidenceGrows | internal/classifier/experiment.go:304-312 | more margin never means less confidence; it is a half without margin and one from the full margin on |
| Perceptron.ConfidenceSpelled | internal/classifier/experiment.go:304-312 | the confidence rises evenly from a half without margin to one at margin six |
| Perceptron.BestIsBest | internal/classifier/experiment.go:282-313 | the scan finds the first label of highest score |
| Perceptron.SecondIsSecond | internal/classifier/experiment.go:282-313 | the scan finds the highest score among the other labels |
| Perceptron.PredictedSpelled | internal/classifier/experiment.go:282-313 | in scores: the prediction is the first label of highest score, nothing without labels, and the runner-up has the highest score of the others |
| Perceptron.SortedUniqueLabels | internal/classifier/experiment.go:324-336 | exactly the labels that occur, each once, in order |
| Frontier.MarkFrontier | internal/evals/frontier.go:236-249 | marks in place exactly the models that no other dominates |
| Frontier.BuildFrontier | internal/evals/frontier.go:224-249 | sorting and marking rearranges the models in cost order and flags exactly the frontier |
| Frontier.CoveredByFrontier | internal/evals/frontier.go:236-260 | every model off the frontier is dominated by one on it |
| Frontier.FrontierSpelled | internal/evals/frontier.go:236-260 | in costs and qualities: a model is on the frontier unless another costs no more, is no worse, and is better in one of the two |
| Frontier.PicksSpelled | internal/evals/frontier.go:317-380 | what each pick promises in costs, qualities and ids, with the tolerance of 0.05 |
| Frontier.FrontierNotEmpty | internal/evals/frontier.go:236-260 | a non-empty list has a non-empty frontier |
| Frontier.FrontierRises | internal/evals/frontier.go:224-260 | along the sorted frontier cost and quality rise strictly together, or are both equal |
| Frontier.PicksAreGlobal | internal/evals/frontier.go:346-380 | the lowest-cost and highest-quality picks of the frontier are so among all models, ties by the same rules |
| Frontier.BestValueIsGlobal | internal/evals/frontier.go:317-344 | the best-value pick of the frontier is the cheapest of all models within tolerance of the best quality of all models |
| Frontier.SelectBestValue | internal/evals/frontier.go:317-344 | the pick is the first in cost order of those within tolerance, with its ties |
| Frontier.TiesAreGlobal | internal/evals/frontier.go:382-394 | the models tied with a frontier pick are all the models of that cost and quality, on the frontier or not |
| Frontier.TiesSpelled | internal/evals/frontier.go:382-394 | reported ties are empty when the chosen model is alone, and otherwise one id for each model of that cost and quality, in order |
| Frontier.Recommend | internal/evals/frontier.go:262-315 | recommendations name each model once, each is optimal among all models for its kind and lists all models tied with it, and all three picks are among them when the frontier has more than one model |
| Frontier.RecommendationSpelled | internal/evals/frontier.go:262-315 | what a recommended model offers among all models, in cost and quality: least cost, best quality, quality within 0.05 of the best, or both the least and the best; and how many ties are listed |
| Cost.EstimateIsExact | internal/cost/cost.go:53-90 | the estimate is the exact price rounded down per component; overflow iff a component or the total exceeds 64 bits |
| Cost.RefusedIff | internal/cost/cost.go:53-59 | other errors iff currency, rates or token counts make no sense |
| Cost.EstimateSpelled | internal/cost/cost.go:53-131 | every outcome of an estimate in the order of the checks: currency, rates, a rate set, tokens, and then tokens times rate over a million rounded down, within 64 bits |
| Cost.SeparatePricing | internal/cost/cost.go:53-131 | pricing n usages one by one gives at most the price of their sum, and falls short by at most 2(n-1) micro-dollars |
| Cost.MoneyRoundTrip | internal/cost/cost.go:133-158 | every non-negative amount survives writing and reading |
| Cost.MoneyRoundTripIff | internal/cost/cost.go:133-158 | an amount survives iff it is not negative |
| Cost.AmountSpelled | internal/cost/cost.go:154-158 | an amount as text: whole dollars, a point and six digits; a sign goes before the dollars unless they are none, and takes one of the six places when the rest is below a tenth |
| Cost.ParseAcceptsIff | internal/cost/cost.go:133-152 | a decimal is read as m iff it is exactly m micro-dollars, not negative, within 64 bits |
| Cost.RefusalSpelled | internal/cost/cost.go:133-152 | which text is refused and why: no decimal or negative, finer than a micro-dollar, beyond 64 bits |
| Cost.DecimalSpelled | internal/cost/cost.go:138 | digits with a point among or around them are read as that decimal, with an optional sign |
| Cost.OnlyDecimals | internal/cost/cost.go:138 | whatever is read as a plain decimal consists of a sign in front, digits, and one point at most |
| Cost.RunSimulation | internal/spend/simulator.go:70-100 | fails iff some request has no price, and otherwise reports the simulation over the exact sums, wrapped in 64 bits |
| Cost.ReportSpelled | internal/spend/simulator.go:70-100 | each field of the report from the sums over the requests |
| Cost.SumsSpelled | internal/spend/simulator.go:74-92 | one more request adds its price on the baseline, its own price, and the weighted difference |
| Cost.WeightsSpelled | internal/spend/simulator.go:22-65 | by default a low-risk saving counts fully, medium 0.85, high a half, critical a fifth, any other a half |
| Cost.SavingsExactIff | internal/spend/simulator.go:86-94 | the reported savings are the exact difference iff that is in range |
| Cost.ReportMakesSense | internal/spend/simulator.go:70-100 | with no routed rate above the baseline and exact savings in range: reported savings are not negative, risk-adjusted savings lie between nothing and the savings, and the percentage between 0 and 100 when the baseline sum is in range |
| Cost.PercentExactIff | internal/spend/simulator.go:94-98 | the reported percentage is the exact share iff the baseline sum is in range or nothing is saved |
| Cost.RiskBetween | internal/spend/simulator.go:56-91 | weighting each saving by a fraction keeps the sum between nothing and the savings |
| Cost.SavingsNonNegative | internal/spend/simulator.go:70-100 | baseline cost is at least actual cost when no routed rate exceeds the baseline rate |
| TermSearch.ContainsTerm | internal/classifier/features.go:252-274 | finds a term iff it occurs bounded by non-word characters or the edge of the text (anywhere, for a term with other characters), although it jumps past each rejected occurrence |
| TermSearch.ContainsAnyTerm | internal/classifier/features.go:243-250 | some term is found iff one of them is |
| TermSearch.FoundSpelled | internal/classifier/features.go:252-296 | when a term occurs, in positions and character classes |
| TermSearch.NoneInside | internal/classifier/features.go:252-274 | no whole-word occurrence starts inside another occurrence, so the jump misses none |

## Left out

- Policy.Compile: does not model reading the document from YAML, or the cache of compiled policies by tenant and project.
- Globs.CompiledGlobMeaning: paths are valid UTF-8 text; globs are too.
- PolicyLaws.CompiledMatcherMeaning: lower-casing is ASCII only.
- Scoring.DominanceRanksFirst: rounding of floating-point scores is not modelled; scores are reals.
- Decision.DecisionEngine.Decide: does not model the texts of reasons in the decision.
- Streaming.Exchange.StreamWithFallback: does not model durations, response header fields other than the model name, the texts of error messages, or endless streams.
- Sse.RelayRoundTrip: bodies are valid UTF-8 text; reading the usage counts out of a payload is a parameter, not a JSON parser.
- Accounting.MoneyConserved: the handler is the spend tracker, which does not panic; other handlers of the queue are not modelled.
- Spend.Tracker.ByModel: tenant rows are sorted by the same routine and not listed again; the mutex is not modelled, each call is one step.
- Health.Tracker.ProviderHealth: the position counter does not overflow; the mutex is not modelled, each call is one step.
- Frontier.Recommend: does not model the texts of reasons, or the blending of measured quality with the registry's prior.
- Cost.ParseAcceptsIff: speaks of plain decimals; the fraction, exponent, hexadecimal and underscore syntax of the arbitrary-precision library is not part of this model.
- Cost.RunSimulation: the risk-adjusted amount is rounded but not cut to 64 bits; lower-casing of risk levels is ASCII only.
- Perceptron.MistakeBound: feature extraction from prompts is not modelled; examples are arbitrary labelled vectors over the reals.
- Building the list of streaming candidates from a decision, and the older single-provider streaming path: no more than a copy of fields, and a special case.
- The decision cache, because its key omits parts of a request.
- HTTP handlers, authentication, dashboards, metrics, configuration files, the budget ledger, retention and retry: input, output and plumbing.
- Keyword tables of the task and risk classifier, secret masking and path patterns: fixed tables and arbitrary regular expressions.
