/**
 The bounded event queue (internal/eventlog/queue.go) as a step system: any number
 of callers enqueue, one worker takes and handles, cancellation may come at any
 time, in every interleaving.
 */
module EventQueue {
  import opened Prelude
  import opened Events

  const DEFAULT_SIZE := 4096

  /** Running, draining after cancellation, returned, or stopped by a handler panic while draining. */
  datatype Phase = Running | Draining | Returned | Crashed

  /** A call of Enqueue, with the number of events that were waiting at that moment. */
  datatype Call = Call(event: Event, waiting: nat)

  datatype State = State(
    capacity: nat, buffer: seq<Event>, dropped: nat, cancelled: bool, phase: Phase,
    calls: seq<Call>,         // history: every Enqueue so far
    taken: seq<Event>,        // history: every event the worker received, in order
    callsAtReturn: nat)       // history: how many calls came before the worker returned

  datatype Step =
    | Enqueue(e: Event)
    | Cancel
    | Take(panics: bool)        // the worker receives while running; a panicking handler is recovered
    | NoticeCancel              // the worker sees the cancellation
    | DrainTake(panics: bool)   // the worker receives while draining; a panic is not recovered
    | DrainEmpty                // the worker finds the buffer empty while draining

  function Initial(size: int): State {
    State(if size <= 0 then DEFAULT_SIZE else size, [], 0, false, Running, [], [], 0)
  }

  predicate Enabled(s: State, step: Step) {
    match step
    case Enqueue(_) => true
    case Cancel => true
    case Take(_) => s.phase == Running && s.buffer != []
    case NoticeCancel => s.phase == Running && s.cancelled
    case DrainTake(_) => s.phase == Draining && s.buffer != []
    case DrainEmpty => s.phase == Draining && s.buffer == []
  }

  function Next(s: State, step: Step): State
    requires Enabled(s, step)
  {
    match step
    case Enqueue(e) =>
      var s1 := s.(calls := s.calls + [Call(e, |s.buffer|)]);
      if |s.buffer| < s.capacity then s1.(buffer := s.buffer + [e]) else s1.(dropped := s.dropped + 1)
    case Cancel => s.(cancelled := true)
    case Take(panics) => s.(buffer := s.buffer[1..], taken := s.taken + [s.buffer[0]])
    case NoticeCancel => s.(phase := Draining)
    case DrainTake(panics) => s.(buffer := s.buffer[1..], taken := s.taken + [s.buffer[0]], phase :=
        if panics then Crashed else Draining)
    case DrainEmpty => s.(phase := Returned, callsAtReturn := |s.calls|)
  }

  /** A run: each step is enabled where it is taken. */
  ghost predicate IsRun(start: State, steps: seq<Step>) {
    steps == [] || (IsRun(start, steps[..|steps| - 1])
        && Enabled(After(start, steps[..|steps| - 1]), steps[|steps| - 1]))
  }

  ghost function After(start: State, steps: seq<Step>): State {
    if steps == [] then start
    else
      var before := After(start, steps[..|steps| - 1]);
      if Enabled(before, steps[|steps| - 1]) then Next(before, steps[|steps| - 1]) else before
  }

  /** The events of the calls that found room. */
  function Accepted(calls: seq<Call>, capacity: nat): seq<Event> {
    if calls == [] then []
    else
      var last := calls[|calls| - 1];
      Accepted(calls[..|calls| - 1], capacity) + if last.waiting < capacity then [last.event] else []
  }

  /** What every interleaving keeps. */
  ghost predicate Inv(s: State) {
    // first in, first out; nothing accepted is lost or duplicated
    && Accepted(s.calls, s.capacity) == s.taken + s.buffer
    // every call is either accepted or counted as dropped
    && |s.calls| == |Accepted(s.calls, s.capacity)| + s.dropped
    && |s.buffer| <= s.capacity
    // a call is dropped only when the buffer was full
    && (forall i :: 0 <= i < |s.calls| ==> s.calls[i].waiting <= s.capacity)
    // the worker leaves its loop only after cancellation
    && (s.phase != Running ==> s.cancelled)
    // and returns only with everything accepted so far taken
    && (s.phase == Returned ==> s.callsAtReturn <= |s.calls|
                                && s.taken == Accepted(s.calls[..s.callsAtReturn], s.capacity))
  }

  lemma AcceptedSnoc(calls: seq<Call>, c: Call, capacity: nat)
    ensures Accepted(calls + [c], capacity) == Accepted(calls, capacity) +
            if c.waiting < capacity then [c.event] else []
  {
    assert (calls + [c])[..|calls|] == calls;
  }

  lemma EnqueueKeepsInv(s: State, e: Event)
    requires Inv(s)
    ensures Inv(Next(s, Enqueue(e)))
  {
    var c := Call(e, |s.buffer|);
    AcceptedSnoc(s.calls, c, s.capacity);
    assert (s.taken + s.buffer) + [e] == s.taken + (s.buffer + [e]);
    if s.phase == Returned {
      assert (s.calls + [c])[..s.callsAtReturn] == s.calls[..s.callsAtReturn];
    }
  }

  lemma TakeKeepsOrder(taken: seq<Event>, buffer: seq<Event>)
    requires buffer != []
    ensures (taken + [buffer[0]]) + buffer[1..] == taken + buffer
  {
  }

  lemma StepKeepsInv(s: State, step: Step)
    requires Inv(s) && Enabled(s, step)
    ensures Inv(Next(s, step))
  {
    match step {
      case Enqueue(e) => EnqueueKeepsInv(s, e);
      case Take(_) => TakeKeepsOrder(s.taken, s.buffer);
      case DrainTake(_) => TakeKeepsOrder(s.taken, s.buffer);
      case DrainEmpty => assert s.calls[..|s.calls|] == s.calls;
      case _ =>
    }
  }

  /** The invariant holds after every run, whatever the interleaving. */
  lemma {:induction false} EveryRunKeepsInv(size: int, steps: seq<Step>)
    requires IsRun(Initial(size), steps)
    ensures Inv(After(Initial(size), steps))
  {
    if steps != [] {
      EveryRunKeepsInv(size, steps[..|steps| - 1]);
      StepKeepsInv(After(Initial(size), steps[..|steps| - 1]), steps[|steps| - 1]);
    }
  }

  lemma {:induction false} AcceptedCount(calls: seq<Call>, capacity: nat)
    requires forall i :: 0 <= i < |calls| ==> calls[i].waiting < capacity
    ensures |Accepted(calls, capacity)| == |calls|
  {
    if calls != [] {
      AcceptedCount(calls[..|calls| - 1], capacity);
    }
  }

  /** Once nothing runs any more and the buffer never filled up, every event was handled, once, in order. */
  lemma NoLossBelowCapacity(size: int, steps: seq<Step>)
    requires IsRun(Initial(size), steps)
    requires var s := After(Initial(size), steps);
             s.phase == Returned && s.buffer == [] && forall i :: 0 <= i < |s.calls| ==> s.calls[i].waiting < s.capacity
    ensures var s := After(Initial(size), steps);
            s.dropped == 0 && |s.taken| == |s.calls| && s.taken == Accepted(s.calls, s.capacity)
  {
    EveryRunKeepsInv(size, steps);
    var s := After(Initial(size), steps);
    AcceptedCount(s.calls, s.capacity);
  }

  /** A step keeps what was decided before it: earlier calls, earlier receptions, the capacity. */
  lemma {:induction false} HistoryGrows(start: State, steps: seq<Step>, n: nat)
    requires n <= |steps|
    ensures var early, late := After(start, steps[..n]), After(start, steps);
            early.calls <= late.calls && early.taken <= late.taken && early.capacity == late.capacity
                && early.dropped <= late.dropped
    decreases |steps|
  {
    if n < |steps| {
      var front := steps[..|steps| - 1];
      HistoryGrows(start, front, n);
      assert front[..n] == steps[..n];
    } else {
      assert steps[..n] == steps;
    }
  }

  // ---------------------------------------------------------------- the queue object

  /** The later state is reached from the earlier one by a run of the step system. */
  ghost predicate Reaches(early: State, late: State) {
    exists steps :: IsRun(early, steps) && After(early, steps) == late
  }

  lemma ReachesItself(s: State)
    ensures Reaches(s, s)
  {
    assert IsRun(s, []) && After(s, []) == s;
  }

  lemma ReachesOneMore(early: State, late: State, step: Step)
    requires Reaches(early, late) && Enabled(late, step)
    ensures Reaches(early, Next(late, step))
  {
    var steps :| IsRun(early, steps) && After(early, steps) == late;
    var more := steps + [step];
    assert more[..|more| - 1] == steps;
    assert IsRun(early, more) && After(early, more) == Next(late, step);
  }

  /**
   What happens around one turn of the worker: events arriving before it, a cancellation, the
   pick of the scheduler, a panic of the handler.
   */
  datatype Turn = Turn(arrivals: seq<Event>, cancels: bool, picksEvent: bool, panics: bool)

  /** The queue with its channel buffer and drop counter, the context of its worker, and where the worker is. */
  class Queue {
    const capacity: nat
    var buffer: seq<Event>
    var dropped: int
    var cancelled: bool
    var phase: Phase
    ghost var calls: seq<Call>
    ghost var taken: seq<Event>
    ghost var callsAtReturn: nat

    ghost function Abstract(): State
      requires dropped >= 0
      reads this
    {
      State(capacity, buffer, dropped, cancelled, phase, calls, taken, callsAtReturn)
    }

    ghost predicate Valid()
      reads this
    {
      dropped >= 0 && Inv(Abstract())
    }

    constructor (size: int)
      ensures Valid() && Abstract() == Initial(size)
    {
      capacity := if size <= 0 then DEFAULT_SIZE else size;
      buffer, dropped, cancelled, phase := [], 0, false, Running;
      calls, taken, callsAtReturn := [], [], 0;
    }

    method Enqueue(e: Event)
      requires Valid()
      modifies this
      ensures Valid() && Abstract() == Next(old(Abstract()), Step.Enqueue(e))
    {
      StepKeepsInv(Abstract(), Step.Enqueue(e));
      calls := calls + [Call(e, |buffer|)];
      if |buffer| < capacity {
        buffer := buffer + [e];
      } else {
        dropped := dropped + 1;
      }
    }

    method CancelContext()
      requires Valid()
      modifies this
      ensures Valid() && Abstract() == Next(old(Abstract()), Cancel)
    {
      StepKeepsInv(Abstract(), Cancel);
      cancelled := true;
    }

    /** The worker receives: while running a panic of the handler is recovered, while draining it is not. */
    method Receive(panics: bool) returns (e: Event)
      requires Valid() && buffer != [] && (phase == Running || phase == Draining)
      modifies this
      ensures Valid() && e == old(buffer)[0]
      ensures Abstract() == Next(old(Abstract()), if old(phase) == Running then Take(panics) else DrainTake(panics))
    {
      StepKeepsInv(Abstract(), if phase == Running then Take(panics) else DrainTake(panics));
      e := buffer[0];
      buffer := buffer[1..];
      taken := taken + [e];
      if phase == Draining && panics {
        phase := Crashed;
      }
    }

    /** The worker sees the cancellation, or the empty buffer while draining. */
    method Advance()
      requires Valid() && ((phase == Running && cancelled) || (phase == Draining && buffer == []))
      modifies this
      ensures Valid() && Abstract() == Next(old(Abstract()), if old(phase) == Running then NoticeCancel else DrainEmpty)
    {
      StepKeepsInv(Abstract(), if phase == Running then NoticeCancel else DrainEmpty);
      if phase == Running {
        phase := Draining;
      } else {
        phase := Returned;
        callsAtReturn := |calls|;
      }
    }

    method Backlog() returns (n: nat)
      requires Valid()
      ensures n == |buffer| <= capacity
    {
      n := |buffer|;
    }

    /** Events arriving one after the other. */
    method Admit(arrivals: seq<Event>, ghost early: State)
      requires Valid() && Reaches(early, Abstract())
      modifies this
      ensures Valid() && Reaches(early, Abstract())
      ensures phase == old(phase) && cancelled == old(cancelled) && taken == old(taken)
      ensures |buffer| <= old(|buffer|) + |arrivals|
      ensures old(buffer) <= buffer && |calls| == old(|calls|) + |arrivals|
              && dropped - old(dropped) == |arrivals| - (|buffer| - old(|buffer|))
    {
      hide Reaches, Inv;
      for i := 0 to |arrivals|
        invariant Valid() && Reaches(early, Abstract())
        invariant phase == old(phase) && cancelled == old(cancelled) && taken == old(taken)
        invariant |buffer| <= old(|buffer|) + i
        invariant old(buffer) <= buffer && |calls| == old(|calls|) + i
                && dropped - old(dropped) == i - (|buffer| - old(|buffer|))
      {
        ReachesOneMore(early, Abstract(), Step.Enqueue(arrivals[i]));
        Enqueue(arrivals[i]);
      }
    }

    /**
     The worker loop over any finite stretch of what may happen around it.  All it
     does is a run of the step system, so that it keeps the invariant; and it hands
     the events it takes to the handler, in order.
     */
    method Run(turns: seq<Turn>) returns (handled: seq<Event>)
      requires Valid() && phase == Running
      modifies this
      ensures Valid() && Reaches(old(Abstract()), Abstract())
      ensures taken == old(taken) + handled
      ensures phase == Returned ==> cancelled && taken == Accepted(calls[..callsAtReturn], capacity)
      ensures phase == Crashed ==> exists i :: 0 <= i < |turns| && turns[i].panics
      ensures (forall i :: 0 <= i < |turns| ==> !turns[i].cancels) && !old(cancelled) ==> phase == Running
    {
      hide Reaches, Inv, Enabled, Accepted;
      handled := [];
      ghost var early := Abstract();
      ReachesItself(early);
      var i := 0;
      while i < |turns| && (phase == Running || phase == Draining)
        invariant i <= |turns| && Valid() && Reaches(early, Abstract())
        invariant taken == old(taken) + handled
        invariant phase == Crashed ==> exists k :: 0 <= k < i && turns[k].panics
        invariant (forall k :: 0 <= k < i ==> !turns[k].cancels) && !old(cancelled) ==> phase == Running && !cancelled
      {
        Admit(turns[i].arrivals, early);
        if turns[i].cancels {
          ReachesOneMore(early, Abstract(), Cancel);
          CancelContext();
        }
        if buffer != [] && (phase == Draining || !cancelled || turns[i].picksEvent) {
          ReachesOneMore(early, Abstract(),
              if phase == Running then Take(turns[i].panics) else DrainTake(turns[i].panics));
          var e := Receive(turns[i].panics);
          handled := handled + [e];
        } else if phase == Draining || cancelled {
          ReachesOneMore(early, Abstract(), if phase == Running then NoticeCancel else DrainEmpty);
          Advance();
        }
        i := i + 1;
      }
      ReturnedLaw(Abstract());
    }

    /**
     The drain loop ends once callers stop, whatever arrived meanwhile: it returns
     with an empty buffer and everything accepted taken, unless a handler panics.
     */
    method DrainAll(arrivals: seq<seq<Event>>, panics: seq<bool>) returns (handled: seq<Event>)
      requires Valid() && phase == Draining
      modifies this
      ensures Valid() && Reaches(old(Abstract()), Abstract())
      ensures taken == old(taken) + handled
      ensures phase == Returned || phase == Crashed
      ensures phase == Returned ==> buffer == [] && taken == Accepted(calls, capacity)
      ensures phase == Crashed ==> exists i :: 0 <= i < |panics| && panics[i]
    {
      hide Reaches, Inv, Enabled, Accepted;
      handled := [];
      ghost var early := Abstract();
      ReachesItself(early);
      var i := 0;
      while phase == Draining
        invariant Valid() && Reaches(early, Abstract())
        invariant taken == old(taken) + handled
        invariant phase == Draining || phase == Crashed
        invariant phase == Crashed ==> exists k :: 0 <= k < |panics| && panics[k]
        decreases if i < |arrivals| then |arrivals| - i else 0, |buffer|, if phase == Draining then 1 else 0
      {
        Admit(if i < |arrivals| then arrivals[i] else [], early);
        if buffer == [] {
          ReachesOneMore(early, Abstract(), DrainEmpty);
          Advance();
          EmptyLaw(Abstract());
          return;
        }
        var panic := i < |panics| && panics[i];
        ReachesOneMore(early, Abstract(), DrainTake(panic));
        var e := Receive(panic);
        handled := handled + [e];
        i := i + 1;
      }
    }
  }

  lemma ReturnedLaw(s: State)
    requires Inv(s)
    ensures s.phase == Returned ==> s.cancelled && s.callsAtReturn <= |s.calls|
                                    && s.taken == Accepted(s.calls[..s.callsAtReturn], s.capacity)
  {
  }

  lemma EmptyLaw(s: State)
    requires Inv(s) && s.buffer == []
    ensures s.taken == Accepted(s.calls, s.capacity)
  {
  }

  // ---------------------------------------------------------------- spelt out

  /** A queue starts empty, with the size asked for, or 4096 when that is not positive. */
  lemma InitialSpelled(size: int)
    ensures var s := Initial(size);
            && s.capacity == (if size > 0 then size else 4096) && s.buffer == [] && s.dropped == 0 && !s.cancelled
            && s.phase == Running && s.calls == [] && s.taken == []
  {
  }

  /** An event joins the end of the buffer when there is room, and is counted as dropped when there is none. */
  lemma EnqueueSpelled(s: State, e: Event)
    ensures var t := Next(s, Step.Enqueue(e));
            && t.capacity == s.capacity && t.taken == s.taken && t.phase == s.phase && t.cancelled == s.cancelled
            && |t.calls| == |s.calls| + 1 && t.calls[|s.calls|].event == e
            && if |s.buffer| < s.capacity then t.buffer == s.buffer + [e] && t.dropped == s.dropped
               else t.buffer == s.buffer && t.dropped == s.dropped + 1
  {
  }

  /**
   The worker takes the oldest event; it notices a cancellation only if there is one, and
   returns only from an empty buffer.
   */
  lemma WorkerSpelled(s: State, panics: bool)
    ensures Enabled(s, Take(panics)) <==> s.phase == Running && |s.buffer| > 0
    ensures Enabled(s, DrainTake(panics)) <==> s.phase == Draining && |s.buffer| > 0
    ensures Enabled(s, NoticeCancel) <==> s.phase == Running && s.cancelled
    ensures Enabled(s, DrainEmpty) <==> s.phase == Draining && |s.buffer| == 0
    ensures Enabled(s, Take(panics)) ==>
              var t := Next(s, Take(panics));
              t.taken == s.taken + [s.buffer[0]] && [s.buffer[0]] + t.buffer == s.buffer && t.phase == Running
                  && t.dropped == s.dropped
    ensures Enabled(s, DrainTake(panics)) ==>
              var t := Next(s, DrainTake(panics));
              && t.taken == s.taken + [s.buffer[0]] && [s.buffer[0]] + t.buffer == s.buffer && t.dropped == s.dropped
              && t.phase == if panics then Crashed else Draining
    ensures Enabled(s, NoticeCancel) ==> Next(s, NoticeCancel) == s.(phase := Draining)
    ensures Enabled(s, DrainEmpty) ==> Next(s, DrainEmpty) == s.(phase := Returned, callsAtReturn := |s.calls|)
    ensures Next(s, Cancel) == s.(cancelled := true)
  {
  }

  /** Along a run the drop counter counts exactly the calls that found the buffer full. */
  function FoundFull(calls: seq<Call>, capacity: nat): nat {
    if calls == [] then 0
    else FoundFull(calls[..|calls| - 1], capacity) + if calls[|calls| - 1].waiting >= capacity then 1 else 0
  }

  lemma {:induction false} AcceptedAndFull(calls: seq<Call>, capacity: nat)
    ensures |Accepted(calls, capacity)| + FoundFull(calls, capacity) == |calls|
  {
    if calls != [] {
      AcceptedAndFull(calls[..|calls| - 1], capacity);
    }
  }

  lemma DropsAreFull(size: int, steps: seq<Step>)
    requires IsRun(Initial(size), steps)
    ensures var s := After(Initial(size), steps);
            && s.dropped == FoundFull(s.calls, s.capacity)
            && forall i :: 0 <= i < |s.calls| ==> s.calls[i].waiting <= s.capacity
  {
    EveryRunKeepsInv(size, steps);
    var s := After(Initial(size), steps);
    AcceptedAndFull(s.calls, s.capacity);
  }
}
