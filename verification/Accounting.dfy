/**
 From the stream handler through the queue to the spend tracker: what a request
 is charged, and where every event's money ends up.
 */
module Accounting {
  import opened Prelude
  import opened Events
  import opened Streaming
  import opened Spend
  import Sums
  import Q = EventQueue

  lemma {:induction false} CostConcat(a: seq<Event>, b: seq<Event>, v: View)
    ensures Cost(a + b, v) == Cost(a, v) + Cost(b, v)
  {
    if b == [] {
      assert a + b == a;
    } else {
      CostConcat(a, b[..|b| - 1], v);
      assert (a + b)[..|a + b| - 1] == a + b[..|b| - 1];
    }
  }

  lemma {:induction false} FailuresAreFree(events: seq<Event>, v: View)
    requires forall i :: 0 <= i < |events| ==> !Success(events[i])
    ensures Cost(events, v) == 0.0
  {
    if events != [] {
      FailuresAreFree(events[..|events| - 1], v);
    }
  }

  lemma {:induction false} AttemptsAreNoRequests(events: seq<Event>, v: View)
    requires forall i :: 0 <= i < |events| ==> events[i].kind == ATTEMPT
    ensures Requests(events, v) == 0
  {
    if events != [] {
      AttemptsAreNoRequests(events[..|events| - 1], v);
    }
  }

  /** The charge of a served attempt: its realised cost when usage was sent and has a price, else the estimate. */
  function Charge(meta: Meta, r: Report): real {
    var priced := if CarriesUsage(Chunk("", false, None, r.inputTokens, r.outputTokens)) && meta.costFn.Some?
                  then meta.costFn.value(r.candidate.modelId, r.candidate.providerId, r.inputTokens, r.outputTokens)
                      else 0.0;
    if priced == 0.0 then meta.estimatedCostUsd else priced
  }

  lemma OneCharge(meta: Meta, front: seq<Event>, r: Report, v: View)
    requires Succeeded(r)
    ensures Cost(front + [EventOf(meta, r)], v) == Cost(front, v) +
            if Concerns(v, r.candidate.modelId, meta.tenantId) then Charge(meta, r) else 0.0
  {
    assert (front + [EventOf(meta, r)])[..|front|] == front;
  }

  lemma EventSucceeds(meta: Meta, r: Report)
    ensures Success(EventOf(meta, r)) <==> Succeeded(r)
  {
  }

  /** Reports of which all but the last are failures cost the charge of the last, if that is a success. */
  lemma LastReportCharged(meta: Meta, rs: seq<Report>, v: View)
    requires rs != [] && forall i :: 0 <= i < |rs| - 1 ==> !Succeeded(rs[i])
    ensures var last := rs[|rs| - 1];
            Cost(EventsOf(meta, rs), v) ==
                if Succeeded(last) && Concerns(v, last.candidate.modelId, meta.tenantId) then Charge(meta, last)
                else 0.0
  {
    hide Cost, Charge, Success, EventOf;
    var n := |rs| - 1;
    var es := EventsOf(meta, rs);
    forall i | 0 <= i < |rs| ensures Success(es[i]) <==> Succeeded(rs[i]) { EventSucceeds(meta, rs[i]); }
    if Succeeded(rs[n]) {
      FailuresAreFree(es[..n], v);
      OneCharge(meta, es[..n], rs[n], v);
      assert es == es[..n] + [EventOf(meta, rs[n])];
    } else {
      FailuresAreFree(es, v);
    }
  }

  /**
   A streamed request is charged once: nothing unless its stream ended without an
   error, and then exactly the charge of the candidate that served, to that model
   and to the tenant of the request.
   */
  lemma RequestChargedOnce(meta: Meta, candidates: seq<Candidate>, scripts: seq<Script>)
    requires |candidates| == |scripts|
    ensures var es, rs := EventsOf(meta, Reports(candidates, scripts)), Reports(candidates, scripts);
            && (forall v :: Requests(es, v) == 0)
            && (if rs != [] && Succeeded(rs[|rs| - 1]) then
                  var r := rs[|rs| - 1];
                  && Cost(es, OfAll) == Cost(es, OfModel(r.candidate.modelId)) == Cost(es, OfTenant(meta.tenantId))
                      == Charge(meta, r)
                  && forall m :: m != r.candidate.modelId ==> Cost(es, OfModel(m)) == 0.0
                else forall v :: Cost(es, v) == 0.0)
  {
    ReportsInOrder(candidates, scripts);
    hide Reports, Charge, Cost;
    var rs := Reports(candidates, scripts);
    var es := EventsOf(meta, rs);
    forall v ensures Requests(es, v) == 0 { AttemptsAreNoRequests(es, v); }
    if rs == [] {
      forall v ensures Cost(es, v) == 0.0 { FailuresAreFree(es, v); }
    } else {
      forall v
        ensures Cost(es, v) == if Succeeded(rs[|rs| - 1]) && Concerns(v, rs[|rs| - 1].candidate.modelId, meta.tenantId)
                then Charge(meta, rs[|rs| - 1]) else 0.0
      {
        LastReportCharged(meta, rs, v);
      }
    }
  }

  // ---------------------------------------------------------------- conservation through the queue

  function AllEvents(calls: seq<Q.Call>): seq<Event> {
    if calls == [] then [] else AllEvents(calls[..|calls| - 1]) + [calls[|calls| - 1].event]
  }

  /** The events of the calls that found the buffer full. */
  function Dropped(calls: seq<Q.Call>, capacity: nat): seq<Event> {
    if calls == [] then []
    else
      var last := calls[|calls| - 1];
      Dropped(calls[..|calls| - 1], capacity) + if last.waiting < capacity then [] else [last.event]
  }

  lemma DroppedStep(calls: seq<Q.Call>, capacity: nat)
    requires calls != []
    ensures var front, e := calls[..|calls| - 1], [calls[|calls| - 1].event];
            && AllEvents(calls) == AllEvents(front) + e
            && if calls[|calls| - 1].waiting < capacity
               then Q.Accepted(calls, capacity) == Q.Accepted(front, capacity) + e
                    && Dropped(calls, capacity) == Dropped(front, capacity)
               else Q.Accepted(calls, capacity) == Q.Accepted(front, capacity)
                    && Dropped(calls, capacity) == Dropped(front, capacity) + e
  {
    var front := calls[..|calls| - 1];
    assert Q.Accepted(front, capacity) + [] == Q.Accepted(front, capacity)
        && Dropped(front, capacity) + [] == Dropped(front, capacity);
  }

  lemma {:induction false} CallsSplit(calls: seq<Q.Call>, capacity: nat, v: View)
    ensures Cost(AllEvents(calls), v) == Cost(Q.Accepted(calls, capacity), v) + Cost(Dropped(calls, capacity), v)
    ensures |Dropped(calls, capacity)| == |calls| - |Q.Accepted(calls, capacity)|
  {
    if calls != [] {
      hide Cost, Dropped, AllEvents, Q.Accepted;
      var front, e := calls[..|calls| - 1], [calls[|calls| - 1].event];
      CallsSplit(front, capacity, v);
      DroppedStep(calls, capacity);
      CostConcat(AllEvents(front), e, v);
      CostConcat(Q.Accepted(front, capacity), e, v);
      CostConcat(Dropped(front, capacity), e, v);
    }
  }

  /** In every interleaving: accepted is taken and waiting, and all calls are accepted or dropped. */
  lemma CostsSplit(size: int, steps: seq<Q.Step>, v: View)
    requires Q.IsRun(Q.Initial(size), steps)
    ensures var s := Q.After(Q.Initial(size), steps);
            && Cost(AllEvents(s.calls), v)
                == Cost(s.taken, v) + Cost(s.buffer, v) + Cost(Dropped(s.calls, s.capacity), v)
            && |Dropped(s.calls, s.capacity)| == s.dropped
  {
    Q.EveryRunKeepsInv(size, steps);
    hide Cost, Dropped, AllEvents, Q.IsRun;
    var s := Q.After(Q.Initial(size), steps);
    CallsSplit(s.calls, s.capacity, v);
    CostConcat(s.taken, s.buffer, v);
  }

  /**
   No money is lost or counted twice on the way: in every interleaving, what all
   enqueued events cost a model is what its row holds after the events taken so far,
   plus what is waiting, plus what was dropped; and only as many events are dropped
   as the drop counter says.
   */
  lemma MoneyConserved(size: int, steps: seq<Q.Step>, id: string)
    requires Q.IsRun(Q.Initial(size), steps)
    ensures var s := Q.After(Q.Initial(size), steps);
            && Cost(AllEvents(s.calls), OfModel(id)) ==
                 ModelOr(BooksOf(s.taken), id, "").costUsd + Cost(s.buffer, OfModel(id))
                     + Cost(Dropped(s.calls, s.capacity), OfModel(id))
            && |Dropped(s.calls, s.capacity)| == s.dropped
  {
    hide Cost, Dropped, AllEvents, Q.IsRun, Q.After, BooksOf;
    CostsSplit(size, steps, OfModel(id));
    ModelRows(Q.After(Q.Initial(size), steps).taken, id);
  }

  /** The same for the rows of named tenants. */
  lemma TenantMoneyConserved(size: int, steps: seq<Q.Step>, id: string)
    requires Q.IsRun(Q.Initial(size), steps) && id != ""
    ensures var s := Q.After(Q.Initial(size), steps);
            Cost(AllEvents(s.calls), OfTenant(id)) ==
              TenantOr(BooksOf(s.taken), id).costUsd + Cost(s.buffer, OfTenant(id))
                  + Cost(Dropped(s.calls, s.capacity), OfTenant(id))
  {
    hide Cost, Dropped, AllEvents, Q.IsRun, Q.After, BooksOf;
    CostsSplit(size, steps, OfTenant(id));
    TenantRows(Q.After(Q.Initial(size), steps).taken, id);
  }

  /** And for the totals over all models and over all named tenants. */
  lemma TotalMoneyConserved(size: int, steps: seq<Q.Step>)
    requires Q.IsRun(Q.Initial(size), steps)
    ensures var s := Q.After(Q.Initial(size), steps);
            var b := BooksOf(s.taken);
            && Cost(AllEvents(s.calls), OfAll) ==
                 Sums.Sum(b.byModel.Keys, ModelCosts(b)) + Cost(s.buffer, OfAll)
                     + Cost(Dropped(s.calls, s.capacity), OfAll)
            && Cost(AllEvents(s.calls), OfSomeTenant) ==
                 Sums.Sum(b.byTenant.Keys, TenantCosts(b)) + Cost(s.buffer, OfSomeTenant)
                     + Cost(Dropped(s.calls, s.capacity), OfSomeTenant)
  {
    hide Cost, Dropped, AllEvents, Q.IsRun, Q.After, BooksOf, Sums.Sum, ModelCosts, TenantCosts;
    CostsSplit(size, steps, OfAll);
    CostsSplit(size, steps, OfSomeTenant);
    Totals(Q.After(Q.Initial(size), steps).taken);
  }

  // ---------------------------------------------------------------- many requests at once

  /** A streamed request: who asked, the candidates, and what each of them does. */
  datatype Streamed = Streamed(meta: Meta, candidates: seq<Candidate>, scripts: seq<Script>)

  predicate WellFormed(q: Streamed) { |q.candidates| == |q.scripts| }

  function ReportsOf(q: Streamed): seq<Report>
    requires WellFormed(q)
  {
    Reports(q.candidates, q.scripts)
  }

  /** The candidate that served the request to its end, if any, in its report. */
  function Served(q: Streamed): Option<Report>
    requires WellFormed(q)
  {
    var rs := ReportsOf(q);
    if rs != [] && Succeeded(rs[|rs| - 1]) then Some(rs[|rs| - 1]) else None
  }

  /** What a view of the books owes to one request. */
  function ChargeOf(q: Streamed, v: View): real
    requires WellFormed(q)
  {
    match Served(q)
    case None => 0.0
    case Some(r) => if Concerns(v, r.candidate.modelId, q.meta.tenantId) then Charge(q.meta, r) else 0.0
  }

  function ChargesOf(qs: seq<Streamed>, v: View): real
    requires forall i :: 0 <= i < |qs| ==> WellFormed(qs[i])
  {
    if qs == [] then 0.0 else ChargesOf(qs[..|qs| - 1], v) + ChargeOf(qs[|qs| - 1], v)
  }

  lemma RequestCosts(q: Streamed, v: View)
    requires WellFormed(q)
    ensures Cost(EventsOf(q.meta, ReportsOf(q)), v) == ChargeOf(q, v)
  {
    ReportsInOrder(q.candidates, q.scripts);
    hide Reports, Charge, Cost;
    var rs := ReportsOf(q);
    if rs == [] {
      FailuresAreFree(EventsOf(q.meta, rs), v);
    } else {
      LastReportCharged(q.meta, rs, v);
    }
  }

  /** `all` holds the events of the streams, each stream in its own order, in any order between them. */
  ghost predicate Interleaves(all: seq<Event>, streams: seq<seq<Event>>)
    decreases |all|
  {
    if all == [] then forall i :: 0 <= i < |streams| ==> streams[i] == []
    else exists i :: 0 <= i < |streams| && EndsWith(streams[i], all[|all| - 1])
                  && Interleaves(all[..|all| - 1], streams[i := streams[i][..|streams[i]| - 1]])
  }

  predicate EndsWith(s: seq<Event>, e: Event) { s != [] && s[|s| - 1] == e }

  function StreamsCost(streams: seq<seq<Event>>, v: View): real {
    if streams == [] then 0.0 else StreamsCost(streams[..|streams| - 1], v) + Cost(streams[|streams| - 1], v)
  }

  /** Taking an event from the end of one stream takes its cost from the sum. */
  lemma {:induction false} StreamsCostTake(streams: seq<seq<Event>>, i: nat, v: View)
    requires i < |streams| && streams[i] != []
    ensures var s := streams[i];
            StreamsCost(streams, v) == StreamsCost(streams[i := s[..|s| - 1]], v) + Cost(s, v) - Cost(s[..|s| - 1], v)
  {
    hide Cost;
    var n, s := |streams| - 1, streams[i];
    var less := streams[i := s[..|s| - 1]];
    if i < n {
      StreamsCostTake(streams[..n], i, v);
      assert less[..n] == streams[..n][i := s[..|s| - 1]];
    } else {
      assert less[..n] == streams[..n];
    }
  }

  lemma {:induction false} EmptyStreamsCost(streams: seq<seq<Event>>, v: View)
    requires forall i :: 0 <= i < |streams| ==> streams[i] == []
    ensures StreamsCost(streams, v) == 0.0
  {
    if streams != [] {
      EmptyStreamsCost(streams[..|streams| - 1], v);
    }
  }

  lemma LastEventCost(s: seq<Event>, t: seq<Event>, v: View)
    requires s != [] && t != [] && s[|s| - 1] == t[|t| - 1]
    ensures Cost(s, v) - Cost(s[..|s| - 1], v) == Cost(t, v) - Cost(t[..|t| - 1], v)
  {
  }

  /** However streams are interleaved, the cost is the sum of theirs. */
  lemma {:induction false} InterleavedCost(all: seq<Event>, streams: seq<seq<Event>>, v: View)
    requires Interleaves(all, streams)
    ensures Cost(all, v) == StreamsCost(streams, v)
    decreases |all|
  {
    if all == [] {
      EmptyStreamsCost(streams, v);
    } else {
      var front := all[..|all| - 1];
      var i :| 0 <= i < |streams| && EndsWith(streams[i], all[|all| - 1])
               && Interleaves(front, streams[i := streams[i][..|streams[i]| - 1]]);
      hide Cost, StreamsCost, Interleaves;
      InterleavedCost(front, streams[i := streams[i][..|streams[i]| - 1]], v);
      StreamsCostTake(streams, i, v);
      LastEventCost(all, streams[i], v);
    }
  }

  /** The event streams of the requests, behind a stream of other events. */
  function StreamsOf(others: seq<Event>, qs: seq<Streamed>): (ss: seq<seq<Event>>)
    requires forall i :: 0 <= i < |qs| ==> WellFormed(qs[i])
    ensures |ss| == |qs| + 1
  {
    [others] + seq(|qs|, i requires 0 <= i < |qs| => EventsOf(qs[i].meta, ReportsOf(qs[i])))
  }

  lemma StreamsOfLast(others: seq<Event>, qs: seq<Streamed>)
    requires qs != [] && forall i :: 0 <= i < |qs| ==> WellFormed(qs[i])
    ensures var n, ss := |qs| - 1, StreamsOf(others, qs);
            ss[..n + 1] == StreamsOf(others, qs[..n]) && ss[n + 1] == EventsOf(qs[n].meta, ReportsOf(qs[n]))
  {
    hide EventsOf, ReportsOf;
  }

  lemma StreamsCostLast(streams: seq<seq<Event>>, v: View)
    requires streams != []
    ensures var n := |streams| - 1; StreamsCost(streams, v) == StreamsCost(streams[..n], v) + Cost(streams[n], v)
  {
  }

  lemma {:induction false} StreamsOfCost(others: seq<Event>, qs: seq<Streamed>, v: View)
    requires forall i :: 0 <= i < |qs| ==> WellFormed(qs[i])
    requires forall i :: 0 <= i < |others| ==> !Success(others[i])
    ensures StreamsCost(StreamsOf(others, qs), v) == ChargesOf(qs, v)
  {
    if qs == [] {
      FailuresAreFree(others, v);
      assert StreamsOf(others, qs) == [others] && [others][..0] == [];
    } else {
      hide Cost, ChargeOf, EventsOf, ReportsOf, StreamsOf, StreamsCost, ChargesOf, Success, WellFormed;
      var n := |qs| - 1;
      StreamsOfCost(others, qs[..n], v);
      RequestCosts(qs[n], v);
      StreamsOfLast(others, qs);
      StreamsCostLast(StreamsOf(others, qs), v);
      ChargesLast(qs, v);
    }
  }

  lemma ChargesLast(qs: seq<Streamed>, v: View)
    requires qs != [] && forall i :: 0 <= i < |qs| ==> WellFormed(qs[i])
    ensures var n := |qs| - 1; ChargesOf(qs, v) == ChargesOf(qs[..n], v) + ChargeOf(qs[n], v)
  {
  }

  /**
   From the requests to the books: however the events of any streamed requests, and
   any events that are not successes, interleave on their way into the queue, and
   whatever worker and callers do, the books of a view with what waits and what was
   dropped hold exactly the charges of the requests, each once.
   */
  lemma RequestsConserved(size: int, steps: seq<Q.Step>, others: seq<Event>, qs: seq<Streamed>, v: View)
    requires Q.IsRun(Q.Initial(size), steps)
    requires forall i :: 0 <= i < |qs| ==> WellFormed(qs[i])
    requires forall i :: 0 <= i < |others| ==> !Success(others[i])
    requires Interleaves(AllEvents(Q.After(Q.Initial(size), steps).calls), StreamsOf(others, qs))
    ensures var s := Q.After(Q.Initial(size), steps);
            Cost(s.taken, v) + Cost(s.buffer, v) + Cost(Dropped(s.calls, s.capacity), v) == ChargesOf(qs, v)
  {
    hide Cost, Dropped, AllEvents, Q.IsRun, Q.After, Interleaves, StreamsOf, StreamsCost, ChargesOf;
    CostsSplit(size, steps, v);
    InterleavedCost(AllEvents(Q.After(Q.Initial(size), steps).calls), StreamsOf(others, qs), v);
    StreamsOfCost(others, qs, v);
  }

  /**
   So, once everything is handled and nothing was dropped, the totals of the books are the
   charges of the requests.
   */
  lemma BooksMatchRequests(size: int, steps: seq<Q.Step>, others: seq<Event>, qs: seq<Streamed>)
    requires Q.IsRun(Q.Initial(size), steps)
    requires forall i :: 0 <= i < |qs| ==> WellFormed(qs[i])
    requires forall i :: 0 <= i < |others| ==> !Success(others[i])
    requires var s := Q.After(Q.Initial(size), steps);
             Interleaves(AllEvents(s.calls), StreamsOf(others, qs)) && s.buffer == [] && s.dropped == 0
    ensures var b := BooksOf(Q.After(Q.Initial(size), steps).taken);
            && Sums.Sum(b.byModel.Keys, ModelCosts(b)) == ChargesOf(qs, OfAll)
            && Sums.Sum(b.byTenant.Keys, TenantCosts(b)) == ChargesOf(qs, OfSomeTenant)
            && (forall id :: ModelOr(b, id, "").costUsd == ChargesOf(qs, OfModel(id)))
            && (forall id :: id != "" ==> TenantOr(b, id).costUsd == ChargesOf(qs, OfTenant(id)))
  {
    var s := Q.After(Q.Initial(size), steps);
    CostsSplit(size, steps, OfAll);
    hide Dropped, AllEvents, Q.IsRun, Q.After, Interleaves, StreamsOf, ChargesOf, BooksOf, Sums.Sum, ModelCosts,
        TenantCosts;
    forall v ensures Cost(s.taken, v) == ChargesOf(qs, v) {
      RequestsConserved(size, steps, others, qs, v);
    }
    hide Cost;
    Totals(s.taken);
    forall id ensures ModelOr(BooksOf(s.taken), id, "").costUsd == ChargesOf(qs, OfModel(id)) {
      ModelRows(s.taken, id);
    }
    forall id | id != "" ensures TenantOr(BooksOf(s.taken), id).costUsd == ChargesOf(qs, OfTenant(id)) {
      TenantRows(s.taken, id);
    }
  }
}
