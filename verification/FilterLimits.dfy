/**
 What the filter does not do: denying a capability it does not look at, and holding
 candidates to a cost ceiling (internal/engine/filter.go).
 */
module FilterLimits {
  import opened Prelude
  import opened Registry
  import opened PolicyTypes
  import Policy
  import opened Engine
  import Narrowing
  import opened Samples
  import Scoring

  // ---------------------------------------------------------------- denied capabilities

  /** The capabilities a policy can name. */
  predicate HasCapability(c: Capabilities, name: string) {
    if name == CAP_STREAMING then c.streaming
    else if name == CAP_TOOL_USE then c.toolCalls
    else if name == CAP_JSON_SCHEMA then c.jsonSchema
    else if name == CAP_VISION then c.vision
    else if name == CAP_LONG_CONTEXT then c.longContext
    else false
  }

  /** The route with one more denied capability. */
  function Denying(r: Route, name: string): Route {
    var c := Policy.OrConstraints(r.constraints);
    r.(constraints := Some(c.(denyCapabilities := c.denyCapabilities + [name])))
  }

  lemma DenyingConstraints(m: Model, r: Route, name: string)
    ensures Narrowing.ConstraintsAdmit(m, Denying(r, name).constraints) <==>
            Narrowing.ConstraintsAdmit(m, r.constraints) && !HasDeniable(m.capabilities, name)
  {
    hide HasDeniable;
    var c, d := Policy.OrConstraints(r.constraints), Denying(r, name).constraints.value;
    assert forall n :: n in d.denyCapabilities <==> n in c.denyCapabilities || n == name;
  }

  /** Denying a capability takes away exactly the candidates for which the filter finds it. */
  lemma DenyingOne(m: Model, job: Job, r: Route, name: string, s: Snapshot, health: HealthScores, streaming: bool)
    ensures Candidate(m, job, Denying(r, name), s, health, streaming) <==>
            Candidate(m, job, r, s, health, streaming) && !HasDeniable(m.capabilities, name)
  {
    hide Candidate, HasDeniable, Narrowing.ConstraintsAdmit;
    Narrowing.CandidateSplits(m, job, r, s, health, streaming);
    Narrowing.CandidateSplits(m, job, Denying(r, name), s, health, streaming);
    Narrowing.ForceDecidesRest(m, job, r, Denying(r, name), s, health, streaming);
    DenyingConstraints(m, r, name);
  }

  /** The filter finds every capability that a policy can name, except `json_schema`. */
  lemma DeniableIff(c: Capabilities, name: string)
    ensures HasDeniable(c, name) <==> HasCapability(c, name) && name != CAP_JSON_SCHEMA
  {
    assert |CAP_JSON_SCHEMA| == 11 && |CAP_STREAMING| == 9 && |CAP_TOOL_USE| == 8 && |CAP_VISION| == 6
        && |CAP_LONG_CONTEXT| == 12;
  }

  /** Denying a capability keeps out every model that has it exactly when it is not `json_schema`. */
  lemma DenialHonouredIff(name: string)
    ensures (forall m: Model, job, r, s, health, streaming ::
               HasCapability(m.capabilities, name) ==> !Candidate(m, job, Denying(r, name), s, health, streaming))
            <==> name != CAP_JSON_SCHEMA
  {
    hide Candidate, HasCapability, HasDeniable;
    if name == CAP_JSON_SCHEMA {
      JsonSchemaStays();
    } else {
      forall m: Model, job, r, s, health, streaming | HasCapability(m.capabilities, name)
        ensures !Candidate(m, job, Denying(r, name), s, health, streaming)
      {
        DenyingOne(m, job, r, name, s, health, streaming);
        DeniableIff(m.capabilities, name);
      }
    }
  }

  /** In a registry that can be, a model with JSON schema support stays a candidate under a policy that denies it. */
  lemma JsonSchemaStays()
    ensures var m := SampleModel(Rates("", 0, 0));
            && Holdable(m) && HasCapability(m.capabilities, CAP_JSON_SCHEMA)
            && Candidate(m, SampleJob(0, 0), Denying(NO_ROUTE, CAP_JSON_SCHEMA), Shelf(m), HEALTHY, false)
  {
    var m := SampleModel(Rates("", 0, 0));
    SampleIsHoldable(m);
    CheapIsCandidate(m, NO_ROUTE, 0, 0);
    hide Candidate;
    DenyingOne(m, SampleJob(0, 0), NO_ROUTE, CAP_JSON_SCHEMA, Shelf(m), HEALTHY, false);
    DeniableIff(m.capabilities, CAP_JSON_SCHEMA);
    assert |CAP_JSON_SCHEMA| == 11 && |CAP_STREAMING| == 9 && |CAP_TOOL_USE| == 8;
  }

  // ---------------------------------------------------------------- cost ceilings

  /** The route with another cost ceiling. */
  function WithCeiling(r: Route, ceiling: Option<real>): Route {
    r.(constraints := Some(Policy.OrConstraints(r.constraints).(maxCostUsd := ceiling)))
  }

  /** No cost ceiling ever changes what is a candidate. */
  lemma CeilingIgnored(m: Model, job: Job, r: Route, ceiling: Option<real>, s: Snapshot, health: HealthScores,
                       streaming: bool)
    ensures Candidate(m, job, WithCeiling(r, ceiling), s, health, streaming)
            <==> Candidate(m, job, r, s, health, streaming)
  {
    assert Narrowing.ConstraintsAdmit(m, WithCeiling(r, ceiling).constraints)
        <==> Narrowing.ConstraintsAdmit(m, r.constraints) by {
      hide HasDeniable;
    }
    hide Candidate, Narrowing.ConstraintsAdmit;
    Narrowing.CandidateSplits(m, job, r, s, health, streaming);
    Narrowing.CandidateSplits(m, job, WithCeiling(r, ceiling), s, health, streaming);
    Narrowing.ForceDecidesRest(m, job, r, WithCeiling(r, ceiling), s, health, streaming);
  }

  /** The estimate of the model is within the ceiling. */
  predicate Within(m: Model, job: Job, ceiling: real) { Scoring.EstimateMicro(m, job) <= ceiling * 1000000.0 }

  /** So all candidates keep to a ceiling exactly when they would without it. */
  lemma CeilingKeptIff(job: Job, r: Route, ceiling: real, s: Snapshot, health: HealthScores, streaming: bool)
    ensures (forall m :: Candidate(m, job, WithCeiling(r, Some(ceiling)), s, health, streaming)
                         ==> Within(m, job, ceiling))
            <==> (forall m :: Candidate(m, job, r, s, health, streaming) ==> Within(m, job, ceiling))
  {
    hide Candidate, Within;
    forall m
      ensures Candidate(m, job, WithCeiling(r, Some(ceiling)), s, health, streaming)
              <==> Candidate(m, job, r, s, health, streaming)
    {
      CeilingIgnored(m, job, r, Some(ceiling), s, health, streaming);
    }
  }

  /**
   In a registry that can be, a model that takes five dollars for the request is a candidate
   under a ceiling of one.
   */
  lemma CeilingExceeded()
    ensures var m, job := SampleModel(Rates("USD", 5000000, 0)), SampleJob(1000000, 0);
            && Holdable(m) && !Within(m, job, 1.0)
            && Candidate(m, job, WithCeiling(NO_ROUTE, Some(1.0)), Shelf(m), HEALTHY, false)
  {
    var rates := Rates("USD", 5000000, 0);
    var m, job := SampleModel(rates), SampleJob(1000000, 0);
    SampleIsHoldable(m);
    CheapIsCandidate(m, NO_ROUTE, 1000000, 0);
    CeilingIgnored(m, job, NO_ROUTE, Some(1.0), Shelf(m), HEALTHY, false);
    hide Candidate;
    assert Scoring.EstimateMicro(m, job) == 5000000.0;
  }
}
