/** `create_owned_task`: an operation that is handed over is used exactly once, on every path.

    One creation is a small machine: the synchronous call, whose surroundings are a record of
    everything that may go wrong, and then the wrapper's life as a task, where the loop, a canceller
    and the operation itself take turns in any order. */
module TaskAdmission {
  import opened EventLoops
  import opened Options

  /** The start gate: a future that holds `None` to admit the payload or an error to refuse it. */
  datatype Gate = Missing | Unset | Holding(opening: Option<Error>) | GateCancelled

  /** The wrapper coroutine around the operation. */
  datatype Phase = Unstepped | AtGate | Awaiting | Spent

  datatype Creation = Creation(
    gate: Gate,
    phase: Phase,
    cancelling: bool,          // a cancel that the next step will throw in
    callback: bool,            // `close_unstarted` is a done callback of the task
    called: bool,              // ... and has been called
    started: bool,
    unstartedClosed: bool,
    starts: nat,               // how often the operation was awaited
    closes: nat)               // how often its `close` was asked for

  const FRESH := Creation(Missing, Unstepped, false, false, false, false, false, 0, 0)

  // ---------------------------------------------------------------- surroundings

  datatype Receipt = Private | Explicit | Stale

  /** How far a factory has let the wrapper run before the constructor came back. */
  datatype Eagerness = Lazy | ReachedGate | CancelledAtGate

  datatype Construction =
    | Constructs
    | Fails(matches: nat, query: Option<Error>)   // matching tasks found; or the search itself failed

  datatype Surroundings = Surroundings(
    receipt: Receipt,
    early: Option<Error>,          // no loop, no future, no factory lookup, or a foreign loop
    gated: bool,                   // whether the gate was made before that
    construction: Construction,
    eagerness: Eagerness,
    factory: bool,                 // a custom task factory is installed
    native: bool,                  // the constructors are asyncio's own
    inspection: Option<Error>,     // or looking at them failed
    publication: Option<Error>,    // metadata or callback refused
    callback: bool)                // whether the callback was registered in spite of that

  datatype Result = Returned | RaisedOpening | RaisedUnknown | RaisedRefusal | RaisedAtGate

  predicate Early(w: Surroundings) {
    w.receipt == Stale || w.early.Some?
  }

  predicate Matched(w: Surroundings) {
    w.construction.Fails? && w.construction.query.None? && w.construction.matches == 1
  }

  /** The failure does not say whether a task was accepted. */
  predicate Unknown(w: Surroundings) {
    && w.construction.Fails?
    && !Matched(w)
    && (w.construction.query.Some? || w.construction.matches > 0 || w.inspection.Some? || w.factory || !w.native)
  }

  /** The wrapper is certainly in no task's hands and can be closed. */
  predicate Orphaned(w: Surroundings) {
    w.construction.Fails? && w.construction.query.None? && w.construction.matches == 0 && w.inspection.None?
  }

  /** An accepted task whose publication went wrong, or which its constructor raised over. */
  predicate OpeningFails(w: Surroundings) {
    Matched(w) || (w.construction.Constructs? && w.publication.Some?)
  }

  predicate AcceptsATask(w: Surroundings) {
    !Early(w) && (w.construction.Constructs? || Matched(w))
  }

  const OPENING := Ordinary(0)

  // ---------------------------------------------------------------- steps

  function CloseUnstarted(c: Creation): Creation {
    if c.started || c.unstartedClosed then c else c.(unstartedClosed := true, closes := c.closes + 1)
  }

  function SetGate(c: Creation, opening: Option<Error>): Creation {
    if c.gate == Unset then c.(gate := Holding(opening)) else c
  }

  function FailStart(c: Creation, opening: Error): Creation {
    SetGate(CloseUnstarted(c), Some(opening))
  }

  /** What the constructor has done to the wrapper by the time it returns or raises. */
  function Constructed(w: Surroundings): Creation {
    match w.eagerness
    case Lazy => FRESH.(gate := Unset)
    case ReachedGate => FRESH.(gate := Unset, phase := AtGate)
    case CancelledAtGate => FRESH.(gate := GateCancelled, phase := AtGate)
  }

  function Registered(w: Surroundings): bool {
    w.publication.None? || w.callback
  }

  function Refuse(c: Creation): Creation {
    c.(phase := Spent, closes := c.closes + 1)
  }

  function Create(w: Surroundings): Creation {
    if Early(w) then Refuse(FRESH.(gate := if w.gated then Unset else Missing))
    else if OpeningFails(w) then FailStart(Constructed(w).(callback := Registered(w)), OPENING)
    else if Unknown(w) then
      SetGate(CloseUnstarted(Constructed(w).(phase := if Orphaned(w) then Spent else Constructed(w).phase)),
              Some(OPENING))
    else if w.construction.Fails? then Refuse(Constructed(w))
    else SetGate(Constructed(w).(callback := true), None)
  }

  function ResultOf(w: Surroundings): Result {
    if Early(w) then RaisedRefusal
    else if OpeningFails(w) then if w.receipt == Private then Returned else RaisedOpening
    else if Unknown(w) then RaisedUnknown
    else if w.construction.Fails? then RaisedRefusal
    else if w.eagerness == CancelledAtGate then RaisedAtGate   // `set_result` on a cancelled future
    else Returned
  }

  datatype Event = Step | Cancel | Finish | Callbacks

  /** The wrapper passes its gate: it starts the operation, or it ends. */
  function PassGate(c: Creation): Creation {
    if c.gate == Holding(None) && !c.cancelling then
      c.(phase := Awaiting, started := true, starts := c.starts + 1)
    else c.(phase := Spent)
  }

  function Next(c: Creation, e: Event): Creation {
    match e
    case Step =>
      if c.phase == Unstepped && c.gate == Unset && !c.cancelling then c.(phase := AtGate)
      else if c.phase == Unstepped || (c.phase == AtGate && c.gate != Unset) then PassGate(c)
      else c
    case Cancel =>
      if c.phase == AtGate && c.gate == Unset then c.(gate := GateCancelled)
      else if c.phase == Unstepped || c.phase == AtGate then c.(cancelling := true)
      else c                                       // reaches the operation, or nobody
    case Finish => if c.phase == Awaiting then c.(phase := Spent) else c
    case Callbacks => if c.phase == Spent && c.callback && !c.called then CloseUnstarted(c.(called := true)) else c
  }

  function After(c: Creation, events: seq<Event>): Creation
    decreases |events|
  {
    if events == [] then c else After(Next(c, events[0]), events[1..])
  }

  // ---------------------------------------------------------------- the invariant

  predicate Settled(c: Creation) {
    c.phase == Spent && (c.callback ==> c.called)
  }

  /** Unused so far, and somebody is still going to use it. */
  predicate Promised(c: Creation) {
    && c.starts == 0 && c.closes == 0
    && !c.started && !c.unstartedClosed
    && c.callback && !c.called
    && (c.gate == Holding(None) || c.gate == GateCancelled)
    && c.phase != Awaiting
  }

  predicate Running(c: Creation) {
    c.starts == 1 && c.closes == 0 && c.started && c.gate == Holding(None) && (c.phase == Awaiting || c.phase == Spent)
  }

  /** Closed; whatever steps the wrapper still takes cannot start the operation. */
  predicate Closed(c: Creation) {
    && c.starts == 0 && c.closes == 1
    && !c.started
    && c.phase != Awaiting
    && (c.gate == Holding(None) || c.gate == Unset || c.gate == Missing ==> c.phase == Spent)
    && (c.unstartedClosed || !c.callback)
  }

  predicate Inv(c: Creation) {
    Promised(c) || Running(c) || Closed(c)
  }

  lemma CreateEstablishesInv(w: Surroundings)
    ensures Inv(Create(w))
  {
    if Early(w) {
    } else if OpeningFails(w) {
      assert Closed(Create(w));
    } else if Unknown(w) {
      assert Closed(Create(w));
    } else if w.construction.Fails? {
      assert Closed(Create(w));
    } else {
      assert Promised(Create(w));
    }
  }

  lemma NextKeepsInv(c: Creation, e: Event)
    requires Inv(c)
    ensures Inv(Next(c, e))
    ensures Closed(c) ==> Closed(Next(c, e))
  {
  }

  lemma {:induction false} RunKeepsInv(c: Creation, events: seq<Event>)
    requires Inv(c)
    ensures Inv(After(c, events))
    ensures Closed(c) ==> Closed(After(c, events))
    decreases |events|
  {
    if events != [] {
      NextKeepsInv(c, events[0]);
      RunKeepsInv(Next(c, events[0]), events[1..]);
    }
  }

  // ---------------------------------------------------------------- what a caller may rely on

  /** Started or closed unstarted, never both and never twice; and one of them by the time the call
      has ended and its task is terminal. */
  lemma TheOperationIsUsedOnce(w: Surroundings, events: seq<Event>)
    ensures After(Create(w), events).starts + After(Create(w), events).closes <= 1
    ensures Settled(After(Create(w), events)) ==>
      After(Create(w), events).starts + After(Create(w), events).closes == 1
  {
    CreateEstablishesInv(w);
    RunKeepsInv(Create(w), events);
  }

  /** A call that raises has decided: its operation never starts, whatever its task still does. */
  lemma ARaiseNeverStarts(w: Surroundings, events: seq<Event>)
    requires ResultOf(w) != Returned
    ensures After(Create(w), events).starts == 0
  {
    CreateEstablishesInv(w);
    RunKeepsInv(Create(w), events);
    if ResultOf(w) == RaisedAtGate {
      StaysShut(Create(w), events);
    }
  }

  /** A cancelled gate stays cancelled. */
  lemma {:induction false} StaysShut(c: Creation, events: seq<Event>)
    requires Promised(c) && c.gate == GateCancelled
    ensures After(c, events).starts == 0
    decreases |events|
  {
    if events != [] {
      var d := Next(c, events[0]);
      if Promised(d) {
        StaysShut(d, events[1..]);
      } else {
        RunKeepsInv(d, events[1..]);
      }
    }
  }

  /** The payload is reached exactly by calls that return an unblemished task. */
  lemma StartsIff(w: Surroundings)
    ensures After(Create(w), [Step]).starts == 1 <==> ResultOf(w) == Returned && !OpeningFails(w)
  {
    var c := Create(w);
    GateOpensIff(w);
    CreateEstablishesInv(w);
    assert After(c, [Step]) == Next(c, Step) by {
      assert [Step][1..] == [];
    }
  }

  lemma GateOpensIff(w: Surroundings)
    ensures Promised(Create(w)) && Create(w).gate == Holding(None) && !Create(w).cancelling
            <==> ResultOf(w) == Returned && !OpeningFails(w)
  {
  }

  /** What a call comes to, from its surroundings alone.  A task is returned, with its operation about to
      start, exactly if nothing at all went wrong and the factory has not cancelled it at its gate. */
  lemma AHealthyCallStarts(w: Surroundings)
    ensures ResultOf(w) == Returned && After(Create(w), [Step]).starts == 1
       <==> && w.receipt != Stale && w.early.None? && w.construction.Constructs? && w.publication.None?
            && w.eagerness != CancelledAtGate
  {
    StartsIff(w);
  }

  /** ... and which error is raised otherwise: refused, and nobody has the task; unknown, and somebody
      may have it; accepted, and the caller that asked for a receipt has it. */
  lemma RaisesIff(w: Surroundings)
    ensures ResultOf(w) == RaisedRefusal
       <==> || w.receipt == Stale || w.early.Some?
            || (w.construction == Fails(0, None) && w.inspection.None? && !w.factory && w.native)
    ensures ResultOf(w) == RaisedUnknown
       <==> && w.receipt != Stale && w.early.None? && w.construction.Fails? && w.construction != Fails(1, None)
            && (w.construction != Fails(0, None) || w.inspection.Some? || w.factory || !w.native)
    ensures ResultOf(w) == RaisedOpening
       <==> && w.receipt == Explicit && w.early.None?
            && (w.construction == Fails(1, None) || (w.construction.Constructs? && w.publication.Some?))
    ensures ResultOf(w) == RaisedAtGate
       <==> && w.receipt != Stale && w.early.None? && w.construction.Constructs? && w.publication.None?
            && w.eagerness == CancelledAtGate
  {
  }

  /** The call closes the operation itself unless it has handed it on unblemished, and it closes the
      wrapper, so that it never steps, exactly if no task can have it. */
  lemma ClosedByTheCallIff(w: Surroundings)
    ensures Create(w).closes == 0 <==>
      w.receipt != Stale && w.early.None? && w.construction.Constructs? && w.publication.None?
    ensures Create(w).phase == Spent <==>
      w.receipt == Stale || w.early.Some? || (w.construction == Fails(0, None) && w.inspection.None?)
  {
  }

  /** Somebody runs the task before anybody cancels it. */
  predicate StepsFirst(events: seq<Event>) {
    exists i :: 0 <= i < |events| && events[i] == Step && forall j :: 0 <= j < i ==> events[j] != Cancel
  }

  lemma StepsFirstTail(events: seq<Event>)
    requires events != [] && events[0] != Step
    ensures StepsFirst(events) <==> events[0] != Cancel && StepsFirst(events[1..])
  {
    if StepsFirst(events) {
      var i :| 0 <= i < |events| && events[i] == Step && forall j :: 0 <= j < i ==> events[j] != Cancel;
      assert events[1..][i - 1] == Step;
    }
    if events[0] != Cancel && StepsFirst(events[1..]) {
      var i :| 0 <= i < |events[1..]| && events[1..][i] == Step && forall j :: 0 <= j < i ==> events[1..][j] != Cancel;
      assert events[i + 1] == Step;
      forall j | 0 <= j < i + 1
        ensures events[j] != Cancel
      {
        assert j > 0 ==> events[j] == events[1..][j - 1];
      }
    }
  }

  lemma {:induction false} RunStartsIff(c: Creation, events: seq<Event>)
    requires Promised(c) && c.phase != Spent
    ensures After(c, events).starts == 1 <==> c.gate == Holding(None) && !c.cancelling && StepsFirst(events)
    decreases |events|
  {
    if events != [] {
      var d := Next(c, events[0]);
      if Promised(d) && d.phase != Spent {
        RunStartsIff(d, events[1..]);
        StepsFirstTail(events);
      } else if Running(d) {
        StaysStarted(d, events[1..]);
      } else {
        StaysUnstarted(d, events[1..]);
        if events[0] != Step { StepsFirstTail(events); }
      }
    }
  }

  lemma {:induction false} StaysStarted(c: Creation, events: seq<Event>)
    requires Running(c)
    ensures After(c, events).starts == 1
    decreases |events|
  {
    if events != [] {
      StaysStarted(Next(c, events[0]), events[1..]);
    }
  }

  lemma {:induction false} StaysUnstarted(c: Creation, events: seq<Event>)
    requires Inv(c) && c.starts == 0 && c.phase == Spent
    ensures After(c, events).starts == 0
    decreases |events|
  {
    if events != [] {
      NextKeepsInv(c, events[0]);
      StaysUnstarted(Next(c, events[0]), events[1..]);
    }
  }

  /** Over every later run: the operation starts exactly in the task of a healthy call that is run
      before it is cancelled. */
  lemma StartsInTheEndIff(w: Surroundings, events: seq<Event>)
    ensures After(Create(w), events).starts == 1
       <==> && w.receipt != Stale && w.early.None? && w.construction.Constructs? && w.publication.None?
            && w.eagerness != CancelledAtGate && StepsFirst(events)
  {
    CreateEstablishesInv(w);
    if Promised(Create(w)) {
      RunStartsIff(Create(w), events);
    } else {
      RunKeepsInv(Create(w), events);
    }
  }

  /** From anywhere a step, the end of the operation and the callbacks settle the matter, so the
      promise above is always kept. */
  lemma NobodyForgets(w: Surroundings, events: seq<Event>)
    ensures Settled(After(After(Create(w), events), [Step, Finish, Callbacks]))
  {
    CreateEstablishesInv(w);
    RunKeepsInv(Create(w), events);
    var c := After(Create(w), events);
    assert [Step, Finish, Callbacks][1..] == [Finish, Callbacks];
    assert [Finish, Callbacks][1..] == [Callbacks];
    assert After(c, [Step, Finish, Callbacks]) == Next(Next(Next(c, Step), Finish), Callbacks);
  }

  /** A caller without a receipt is told of its task by the return value.  The exception: a factory
      that lets the task run to the gate and cancels it there, for then opening the gate raises. */
  lemma APrivateCallerMissesItsTaskIff(w: Surroundings)
    requires w.receipt == Private && AcceptsATask(w)
    ensures ResultOf(w) != Returned <==>
      w.construction.Constructs? && w.publication.None? && w.eagerness == CancelledAtGate
  {
  }

  lemma AnAcceptedTaskMayBeMissed()
    ensures exists w: Surroundings :: w.receipt == Private && AcceptsATask(w) && ResultOf(w) == RaisedAtGate
  {
    var w := Surroundings(Private, None, true, Constructs, CancelledAtGate, true, true, None, None, true);
    assert AcceptsATask(w) && ResultOf(w) == RaisedAtGate;
  }

  // ---------------------------------------------------------------- the closure and its variables

  class OwnedCreation {
    var gate: Gate
    var phase: Phase
    var cancelling: bool
    var callback: bool
    var called: bool
    var started: bool
    var unstartedClosed: bool
    var starts: nat
    var closes: nat

    function Snapshot(): Creation
      reads this
    {
      Creation(gate, phase, cancelling, callback, called, started, unstartedClosed, starts, closes)
    }

    constructor ()
      ensures Snapshot() == FRESH
    {
      gate, phase, cancelling, callback, called := Missing, Unstepped, false, false, false;
      started, unstartedClosed, starts, closes := false, false, 0, 0;
    }

    method CloseOperation()
      modifies this
      ensures Snapshot() == CloseUnstarted(old(Snapshot()))
    {
      if !started && !unstartedClosed {
        unstartedClosed := true;
        closes := closes + 1;
      }
    }

    method OpenGate(opening: Option<Error>)
      modifies this
      ensures Snapshot() == SetGate(old(Snapshot()), opening)
    {
      if gate == Unset {
        gate := Holding(opening);
      }
    }

    method RefuseStart(opening: Error)
      modifies this
      ensures Snapshot() == FailStart(old(Snapshot()), opening)
    {
      CloseOperation();
      OpenGate(Some(opening));
    }

    /** The call, in the order of its statements. */
    method CreateTask(w: Surroundings) returns (r: Result)
      requires Snapshot() == FRESH
      modifies this
      ensures Snapshot() == Create(w) && r == ResultOf(w)
      ensures Inv(Snapshot())
    {
      CreateEstablishesInv(w);
      if Early(w) {
        gate := if w.gated then Unset else Missing;
        phase, closes := Spent, closes + 1;
        return RaisedRefusal;
      }
      gate := if w.eagerness == CancelledAtGate then GateCancelled else Unset;
      phase := if w.eagerness == Lazy then Unstepped else AtGate;
      if w.construction.Fails? {
        if w.construction.query.None? && w.construction.matches == 1 {
          callback := Registered(w);
          RefuseStart(OPENING);
          return if w.receipt == Private then Returned else RaisedOpening;
        }
        if Unknown(w) {
          if Orphaned(w) {
            phase := Spent;
          }
          CloseOperation();
          OpenGate(Some(OPENING));
          return RaisedUnknown;
        }
        phase, closes := Spent, closes + 1;
        return RaisedRefusal;
      }
      callback := Registered(w);
      if w.publication.Some? {
        RefuseStart(OPENING);
        return if w.receipt == Private then Returned else RaisedOpening;
      }
      if gate == GateCancelled {
        return RaisedAtGate;
      }
      OpenGate(None);
      return Returned;
    }

    /** One turn of the accepted task, its canceller, its operation or its callbacks. */
    method Take(e: Event)
      modifies this
      ensures Snapshot() == Next(old(Snapshot()), e)
    {
      match e {
        case Step =>
          if phase == Unstepped || phase == AtGate {
            if gate == Unset && !cancelling {
              phase := AtGate;
            } else if phase == Unstepped || gate != Unset {
              if gate == Holding(None) && !cancelling {
                phase, started, starts := Awaiting, true, starts + 1;
              } else {
                phase := Spent;
              }
            }
          }
        case Cancel =>
          if phase == AtGate && gate == Unset {
            gate := GateCancelled;
          } else if phase == Unstepped || phase == AtGate {
            cancelling := true;
          }
        case Finish =>
          if phase == Awaiting {
            phase := Spent;
          }
        case Callbacks =>
          if phase == Spent && callback && !called {
            called := true;
            CloseOperation();
          }
      }
    }
  }
}
