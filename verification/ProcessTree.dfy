/** Ending a private process group: the poll loop, the escalation from SIGTERM to SIGKILL and on to
    the final bounded waits, and a launch without a cancellation gap.

    The operating system is part of the script.  Three of the loop's tasks stand for the completion
    task, for `proc.wait()`, and for the extinction of the group, which is done once no member is
    left and stays so. */
module ProcessTree {
  import opened EventLoops
  import opened Options
  import opened OwnedTasks

  const POLL := 50_000
  const FLOOR := 10_000

  datatype Signal = Term | Kill

  class ProcessGroup {
    const completion: Task
    const reaped: Task
    const extinction: Task
    var signals: seq<Signal>
    ghost var signalledAt: seq<int>

    constructor (completion: Task, reaped: Task, extinction: Task)
      ensures this.completion == completion && this.reaped == reaped && this.extinction == extinction
      ensures signals == [] && signalledAt == []
    {
      this.completion, this.reaped, this.extinction := completion, reaped, extinction;
      signals, signalledAt := [], [];
    }

    method Send(loop: EventLoop, s: Signal)
      modifies this
      ensures signals == old(signals) + [s] && signalledAt == old(signalledAt) + [loop.now]
    {
      signals, signalledAt := signals + [s], signalledAt + [loop.now];
    }

    /** The completion has settled and the group has no member left. */
    predicate Over(done: set<Task>) {
      completion in done && extinction in done
    }

    /** A bounded wait that a completion ends early. */
    predicate LooksOut(w: Awaited) {
      && w.until.Some? && w.tasks <= {completion}
      && (completion in w.tasks || completion in w.done)
    }

    /** What the last wait for the direct child decides: without it, or with members of the group left,
        the cleanup fails for that reason. */
    predicate Reaps(w: Awaited, until: int, c: Cleanup) {
      && w.tasks == {reaped} && w.until == Some(until)
      && (c.Completed? || (c.CleanupError? && c.cause.Unsettled?) ==>
            w.how.Woken? && reaped in w.done && extinction in w.done)
      && (c.CleanupError? && c.cause.NotReaped? ==> w.how.TimedOut? && reaped !in w.done)
      && (c.CleanupError? && c.cause.Survivors? ==> w.how.Woken? && reaped in w.done && extinction !in w.done)
    }
  }

  /** How a bounded wait ended; `Aborted` when the suspension itself raised. */
  datatype Sweep = Extinct | Expired | Aborted(error: Error)

  twostate predicate Undisturbed(loop: EventLoop)
    reads loop
  {
    loop.raised == old(loop.raised) && loop.failures == old(loop.failures)
  }

  method WaitForCompletionAndTreeExit(loop: EventLoop, p: ProcessGroup, timeout: int) returns (s: Sweep)
    modifies loop`turns, loop`now, loop`done, loop`raised, loop`failures, loop`raisedAt, loop`waits
    ensures loop.Advanced()
    ensures loop.now <= old(loop.now) + Later(timeout, 0)
    ensures s.Extinct? ==> p.Over(loop.done)
    ensures s.Expired? ==> !p.Over(loop.done) && loop.now == old(loop.now) + Later(timeout, 0)
    ensures s.Aborted? <==> !Undisturbed(loop)
    ensures p.Over(old(loop.done)) ==> s.Extinct? && unchanged(loop)
    // looks again at least once in every poll interval, and does not overlook the end
    ensures loop.now - old(loop.now) <= POLL * (|loop.waits| - |old(loop.waits)|)
    ensures forall k :: |old(loop.waits)| <= k < |loop.waits| - 1 ==> !p.Over(loop.waits[k].done)
    ensures forall k :: |old(loop.waits)| <= k < |loop.waits| ==> p.LooksOut(loop.waits[k])
  {
    hide Reaction, Continues;
    var deadline := loop.now + Later(timeout, 0);
    while !p.Over(loop.done) && loop.now < deadline
      invariant loop.Advanced() && Undisturbed(loop)
      invariant loop.now <= deadline
      invariant p.Over(old(loop.done)) ==> unchanged(loop)
      invariant loop.now - old(loop.now) <= POLL * (|loop.waits| - |old(loop.waits)|)
      invariant |old(loop.waits)| < |loop.waits| ==> loop.waits[|loop.waits| - 1].done == loop.done
      invariant forall k :: |old(loop.waits)| <= k < |loop.waits| - 1 ==> !p.Over(loop.waits[k].done)
      invariant forall k :: |old(loop.waits)| <= k < |loop.waits| ==> p.LooksOut(loop.waits[k])
      decreases p.completion !in loop.done, deadline - loop.now
    {
      var until := if deadline - loop.now < POLL then deadline else loop.now + POLL;
      var awaited: set<Task> := if p.completion in loop.done then {} else {p.completion};
      var w := loop.Wait(awaited, false, Some(until));
      assert w.Woken? ==> p.completion in awaited * loop.done;
      if w.Interrupted? || w.Failed? {
        return Aborted(w.error);
      }
    }
    return if p.Over(loop.done) then Extinct else Expired;
  }

  // ---------------------------------------------------------------- terminating

  datatype Cause = NotReaped | Survivors | Unsettled

  datatype Cleanup =
    | Completed(end: End)            // what the completion returned or raised
    | CleanupError(cause: Cause)
    | AbortedBy(error: Error)
    | Stuck                          // the cancelled completion never ends

  /** `_cancel_task`: one cancel, and no way on before the task has settled. */
  method CancelTask(loop: EventLoop, task: Task) returns (s: Sweep, stuck: bool)
    modifies loop
    ensures loop.Advanced()
    ensures s.Aborted? <==> !Undisturbed(loop)
    ensures !s.Aborted? ==> stuck == (task !in loop.done)
    ensures stuck ==> loop.turns == []
    ensures loop.sent == old(loop.sent) + (if task in old(loop.done) then [] else [task])
    ensures loop.sentAt == old(loop.sentAt) + (if task in old(loop.done) then [] else [old(loop.now)])
  {
    hide Reaction, Continues;
    if task !in loop.done {
      loop.Cancel(task);
    }
    stuck := false;
    var w := loop.Wait({task}, false, None);
    assert if task in loop.done then task in {task} * loop.done else {task} * loop.done == {};
    if w.Interrupted? || w.Failed? {
      return Aborted(w.error), false;
    }
    return Extinct, w.Hung?;
  }

  /** Grace and first reap timeout as given, the two last waits with their floor. */
  function Budget(grace: int, reap: int): int {
    Later(grace, 0) + Later(reap, 0) + 2 * Later(reap, FLOOR)
  }

  /** The escalation as a whole: nothing, SIGTERM at once, SIGKILL only after an expired grace. */
  ghost predicate Escalated(p: ProcessGroup, signals: seq<Signal>, times: seq<int>, start: int, grace: int)
    reads p
  {
    || (p.signals == signals && p.signalledAt == times)
    || (p.signals == signals + [Term] && p.signalledAt == times + [start])
    || (p.signals == signals + [Term, Kill] && p.signalledAt == times + [start, start + Later(grace, 0)])
  }

  /** SIGTERM and SIGKILL, each with its bounded wait. */
  method Escalate(loop: EventLoop, p: ProcessGroup, grace: int, reap: int) returns (s: Sweep)
    modifies loop`turns, loop`now, loop`done, loop`raised, loop`failures, loop`raisedAt, loop`waits
    modifies p
    ensures loop.Advanced()
    ensures s.Extinct? ==> p.Over(loop.done)
    ensures s.Aborted? <==> !Undisturbed(loop)
    ensures loop.now <= old(loop.now) + Later(grace, 0) + Later(reap, 0)
    ensures s.Expired? ==> loop.now == old(loop.now) + Later(grace, 0) + Later(reap, 0)
    ensures Escalated(p, old(p.signals), old(p.signalledAt), old(loop.now), grace)
    ensures p.signals != old(p.signals)
    ensures s.Expired? ==> p.signals == old(p.signals) + [Term, Kill]
  {
    p.Send(loop, Term);
    s := WaitForCompletionAndTreeExit(loop, p, grace);
    if !s.Expired? {
      return;
    }
    p.Send(loop, Kill);
    assert p.signals == old(p.signals) + [Term, Kill];
    assert p.signalledAt == old(p.signalledAt) + [old(loop.now), old(loop.now) + Later(grace, 0)];
    s := WaitForCompletionAndTreeExit(loop, p, reap);
  }

  twostate predicate CancelsAtMostOnce(loop: EventLoop, task: Task, latest: int)
    reads loop
  {
    || (loop.sent == old(loop.sent) && loop.sentAt == old(loop.sentAt))
    || (loop.sent == old(loop.sent) + [task]
        && exists at :: at <= latest && loop.sentAt == old(loop.sentAt) + [at])
  }

  /** What follows an expired SIGKILL wait: the direct child, the group, the completion. */
  method ReapAndSettle(loop: EventLoop, p: ProcessGroup, reap: int) returns (c: Cleanup)
    modifies loop
    ensures loop.Advanced()
    ensures c.Completed? ==>
      p.Over(loop.done) && c.end == loop.ends(p.completion) && loop.sent == old(loop.sent)
      && loop.now <= old(loop.now) + 2 * Later(reap, FLOOR)
    ensures c.CleanupError? ==> p.completion in loop.done
    ensures c.Stuck? ==> loop.turns == [] && p.completion !in loop.done
    ensures c.AbortedBy? <==> !Undisturbed(loop)
    ensures CancelsAtMostOnce(loop, p.completion, old(loop.now) + 2 * Later(reap, FLOOR))
    ensures c.CleanupError? && !c.cause.Survivors? ==> loop.now >= old(loop.now) + Later(reap, FLOOR)
    ensures c.CleanupError? && c.cause.NotReaped? ==> p.reaped !in old(loop.done)
    ensures c.CleanupError? && c.cause.Survivors? ==> p.extinction !in old(loop.done)
    ensures c.CleanupError? && c.cause.Unsettled? ==> loop.sent == old(loop.sent) + [p.completion]
    ensures |old(loop.waits)| < |loop.waits|
            && p.Reaps(loop.waits[|old(loop.waits)|], old(loop.now) + Later(reap, FLOOR), c)
  {
    hide Reaction, Continues;
    var w := loop.Wait({p.reaped}, false, Some(loop.now + Later(reap, FLOOR)));
    assert if p.reaped in loop.done then p.reaped in {p.reaped} * loop.done else {p.reaped} * loop.done == {};
    if w.Interrupted? || w.Failed? {
      return AbortedBy(w.error);
    }
    var cause := if w.TimedOut? then NotReaped else if p.extinction !in loop.done then Survivors else Unsettled;
    if cause.Unsettled? {
      if p.completion !in loop.done {
        w := loop.Wait({p.completion}, false, Some(loop.now + Later(reap, FLOOR)));
        if w.Interrupted? || w.Failed? {
          return AbortedBy(w.error);
        }
      }
      if p.completion in loop.done {
        return Completed(loop.ends(p.completion));
      }
    }
    ghost var at := loop.now;
    var s, stuck := CancelTask(loop, p.completion);
    assert loop.sentAt == old(loop.sentAt) || loop.sentAt == old(loop.sentAt) + [at];
    if s.Aborted? {
      return AbortedBy(s.error);
    }
    return if stuck then Stuck else CleanupError(cause);
  }

  method TerminateAndAwait(loop: EventLoop, p: ProcessGroup, grace: int, reap: int) returns (c: Cleanup)
    modifies loop, p
    ensures loop.Advanced()
    ensures p.Over(old(loop.done)) <==> unchanged(loop) && unchanged(p) && c.Completed?
    ensures c.Completed? ==>
      p.Over(loop.done) && c.end == loop.ends(p.completion) && loop.sent == old(loop.sent)
      && loop.now <= old(loop.now) + Budget(grace, reap)
    ensures Escalated(p, old(p.signals), old(p.signalledAt), old(loop.now), grace)
    ensures c.CleanupError? || c.Stuck? ==> p.signals == old(p.signals) + [Term, Kill]
    ensures c.CleanupError? ==> p.completion in loop.done
    ensures c.CleanupError? ==>
      exists k, until :: |old(loop.waits)| <= k < |loop.waits| && p.Reaps(loop.waits[k], until, c)
    ensures c.CleanupError? ==>
      loop.now >= old(loop.now) + Later(grace, 0) + Later(reap, 0)
                  + if c.cause.Survivors? then 0 else Later(reap, FLOOR)
    ensures c.Stuck? ==> loop.turns == [] && p.completion !in loop.done
    ensures c.AbortedBy? <==> !Undisturbed(loop)
    ensures CancelsAtMostOnce(loop, p.completion, old(loop.now) + Budget(grace, reap))
  {
    if p.Over(loop.done) {
      return Completed(loop.ends(p.completion));
    }
    var s := Escalate(loop, p, grace, reap);
    match s {
      case Extinct => return Completed(loop.ends(p.completion));
      case Aborted(error) => return AbortedBy(error);
      case Expired => c := ReapAndSettle(loop, p, reap);
    }
  }

  // ---------------------------------------------------------------- the callers of a cleanup task

  const CLEANUP_ERROR := Ordinary(1)

  /** How a task ends whose body is `_terminate_and_await`. */
  function EndOf(c: Cleanup): Option<End> {
    match c
    case Completed(end) => Some(end)
    case CleanupError(_) => Some(Raises(CLEANUP_ERROR))
    case AbortedBy(error) => Some(Raises(error))
    case Stuck => None
  }

  /** The body of a cleanup task: it has a value only over a settled completion and an extinct group. */
  method CleanupTask(loop: EventLoop, p: ProcessGroup, grace: int, reap: int) returns (end: Option<End>)
    modifies loop, p
    ensures loop.Advanced()
    ensures end.None? ==> loop.turns == [] && p.completion !in loop.done
    ensures end.Some? ==> p.completion in loop.done || !Undisturbed(loop)
    ensures end.Some? && end.value.Value? ==> p.Over(loop.done) && end.value == loop.ends(p.completion)
  {
    var c := TerminateAndAwait(loop, p, grace, reap);
    return EndOf(c);
  }

  datatype Ending = Invalid | Ended(r: Raising) | Suspended

  /** How a task ends whose body came to this. */
  function EndOfCall(r: Raising): End {
    if r.RaisesError? then Raises(r.error) else Value(if r.value.Some? then r.value.value else 0)
  }

  /** Nothing went wrong in observing a task. */
  predicate Seen(admission: Admission, removal: Option<Error>) {
    AdmissionErrors(admission) + RemovalErrors(admission, removal) == []
  }

  /** The join of a private task, to which nothing is forwarded. */
  method JoinTask(loop: EventLoop, select: Selector, task: Task, pending: Option<Error>, admission: Admission,
                  removal: Option<Error>)
    returns (j: Join)
    modifies loop
    ensures loop.Advanced() && Continues(old(loop.Books()), loop.Books())
    ensures if task in loop.done then j.Joined? else j.StillWaiting? && loop.turns == []
    ensures loop.sent == old(loop.sent)
    ensures j.Joined? ==> j.outcome == OutcomeOf(
      select, loop.ends(task), Kept(pending, Since(loop.raised, old(loop.raised))),
      AdmissionErrors(admission) + Since(loop.failures, old(loop.failures)) + RemovalErrors(admission, removal), [])
  {
    hide Reaction, Continues, WaitedFor, Timed, FailedIn, OutcomeOf, Kept;
    j := AwaitOwnedTask(loop, select, task, pending, NoForward, admission, removal);
  }

  /** The caller of a private cleanup task: no way out, not even by cancellation, before it ends. */
  method TerminateProcessTree(loop: EventLoop, select: Selector, cleanup: Task, grace: int, reap: int,
                              admission: Admission, removal: Option<Error>)
    returns (e: Ending)
    modifies loop
    ensures loop.Advanced()
    ensures e.Invalid? <==> grace < 0 || reap <= 0
    ensures e.Invalid? ==> unchanged(loop)
    ensures !e.Invalid? ==> if cleanup in loop.done then e.Ended? else e.Suspended? && loop.turns == []
    ensures loop.sent == old(loop.sent)
    ensures e.Ended? ==> (e.r.Returns? <==> loop.ends(cleanup).Value? && Undisturbed(loop) && Seen(admission, removal))
    ensures e.Ended? ==> e.r == RaiseOwnedOutcome(select, OutcomeOf(
      select, loop.ends(cleanup), Kept(None, Since(loop.raised, old(loop.raised))),
      AdmissionErrors(admission) + Since(loop.failures, old(loop.failures)) + RemovalErrors(admission, removal), []))
    // with `_terminate_and_await` for its body, whatever that has come to
    ensures e.Ended? ==>
      forall k :: EndOf(k) == Some(loop.ends(cleanup)) ==>
        (e.r.Returns? <==> k.Completed? && k.end.Value? && Undisturbed(loop) && Seen(admission, removal))
  {
    hide Continues;
    if grace < 0 || reap <= 0 {
      return Invalid;
    }
    var j := JoinTask(loop, select, cleanup, None, admission, removal);
    e := if j.Joined? then Ended(RaiseOwnedOutcome(select, j.outcome)) else Suspended;
  }

  /** What an outcome without forwarding says of the task and its observer. */
  lemma Decided(select: Selector, end: End, pending: Option<Error>, cancels: seq<Error>, publication: seq<Error>)
    ensures
      var o := OutcomeOf(select, end, Kept(pending, cancels), publication, []);
      var r := RaiseOwnedOutcome(select, o);
      && (o.error.None? <==> end.Value? && publication == [])
      && (o.cancellation.None? <==> pending.None? && cancels == [])
      && (r.Returns? <==> o.error.None? && o.cancellation.None?)
      && (r.Returns? ==> r.value == Some(end.value))
      && o.cancellation == Kept(pending, cancels)
  {
    AValueComesOutIff(select, end, Kept(pending, cancels), publication, []);
  }

  /** `joined` lists the tasks that the call has created; each is joined before the call ends.  `faults`
      is what went wrong in observing the launch.  A handle comes out only of an undisturbed launch; a
      launch that succeeded under cancellation is followed by the tree cleanup, exactly if there were
      no such faults. */
  method StartAsyncProcess(loop: EventLoop, select: Selector, arguments: nat, launch: Task, cleanup: Task,
                           admission: Admission, removal: Option<Error>)
    returns (e: Ending, joined: seq<Task>, ghost faults: seq<Error>)
    requires launch != cleanup
    modifies loop
    ensures loop.Advanced()
    ensures e.Invalid? <==> arguments == 0
    ensures e.Invalid? ==> unchanged(loop) && joined == []
    ensures e.Suspended? ==> loop.turns == [] && exists t :: t in joined && t !in loop.done
    ensures e.Ended? ==> launch in joined && (forall t :: t in joined ==> t in loop.done)
    ensures e.Ended? && e.r.Returns? ==>
      loop.ends(launch).Value? && e.r.value == Some(loop.ends(launch).value) && Undisturbed(loop)
    ensures e.Ended? && loop.raised != old(loop.raised) ==> EndOfCall(e.r).Raises?
    ensures faults != [] ==> !Seen(admission, removal) || loop.failures != old(loop.failures)
    ensures e.Ended? && !Seen(admission, removal) ==> faults != []
    ensures !e.Invalid? && !Seen(admission, removal) ==> joined == [launch]
    ensures e.Ended? && loop.ends(launch).Value? ==> (e.r.RaisesError? && cleanup !in joined <==> faults != [])
    ensures e.Ended? && cleanup in joined ==>
      loop.ends(launch).Value? && loop.raised != old(loop.raised) && e.r.RaisesError?
    ensures loop.sent == old(loop.sent)
    ensures Continues(old(loop.Books()), loop.Books())
    // what comes out is the outcome of the task that was joined last, with the first cancellation of all
    ensures e.Ended? ==>
      var cancels, failed := Since(loop.raised, old(loop.raised)), Since(loop.failures, old(loop.failures));
      if cleanup in joined then
        e.r == RaiseOwnedOutcome(select, OutcomeOf(select, loop.ends(cleanup), Kept(None, cancels), failed, []))
      else
        && faults == AdmissionErrors(admission) + failed + RemovalErrors(admission, removal)
        && e.r == RaiseOwnedOutcome(select, OutcomeOf(select, loop.ends(launch), Kept(None, cancels), faults, []))
  {
    hide Continues, OutcomeOf, RaiseOwnedOutcome, Kept, EndOfCall;
    ContinuesTheSame(loop.Books());
    faults := [];
    if arguments == 0 {
      return Invalid, [], [];
    }
    joined := [launch];
    var j := JoinTask(loop, select, launch, None, admission, removal);
    faults := AdmissionErrors(admission) + Since(loop.failures, old(loop.failures)) + RemovalErrors(admission, removal);
    if !j.Joined? {
      assert launch in joined;
      return Suspended, joined, [];
    }
    ghost var cancels := Since(loop.raised, old(loop.raised));
    Decided(select, loop.ends(launch), None, cancels, faults);
    if j.outcome.cancellation.None? || j.outcome.error.Some? {
      var r := RaiseOwnedOutcome(select, j.outcome);
      LaunchMeans(select, loop.ends(launch), cancels, faults, r);
      return Ended(r), joined, faults;
    }
    joined := joined + [cleanup];
    ghost var before, raised := loop.Books(), loop.raised;
    var k := JoinTask(loop, select, cleanup, j.outcome.cancellation, Admitted, None);
    ContinuesOn(old(loop.Books()), before, loop.Books());
    assert cleanup in joined;
    if !k.Joined? {
      return Suspended, joined, faults;
    }
    var r := RaiseOwnedOutcome(select, k.outcome);
    KeptOn(cancels, Since(loop.raised, raised));
    assert Since(loop.raised, old(loop.raised)) == cancels + Since(loop.raised, raised);
    NoFaults(Since(loop.failures, old(loop.failures)));
    SweepMeans(select, loop.ends(cleanup), cancels, Since(loop.raised, raised),
               Since(loop.failures, old(loop.failures)), r);
    return Ended(r), joined, faults;
  }

  /** A call that ends with the join of its launch. */
  lemma LaunchMeans(select: Selector, end: End, cancels: seq<Error>, faults: seq<Error>, r: Raising)
    requires r == RaiseOwnedOutcome(select, OutcomeOf(select, end, Kept(None, cancels), faults, []))
    ensures r.Returns? <==> end.Value? && cancels == [] && faults == []
    ensures r.Returns? ==> r.value == Some(end.value)
    ensures cancels != [] ==> EndOfCall(r).Raises?
  {
    hide OutcomeOf, RaiseOwnedOutcome, Kept;
    Decided(select, end, None, cancels, faults);
  }

  /** A call that ends with the join of its cleanup, which follows a cancellation. */
  lemma SweepMeans(select: Selector, end: End, cancels: seq<Error>, later: seq<Error>, failed: seq<Error>, r: Raising)
    requires cancels != []
    requires r == RaiseOwnedOutcome(select, OutcomeOf(select, end, Kept(None, cancels + later), failed, []))
    ensures r.RaisesError? && EndOfCall(r).Raises?
  {
    hide OutcomeOf, RaiseOwnedOutcome, Kept;
    Decided(select, end, None, cancels + later, failed);
  }

  lemma KeptOn(first: seq<Error>, later: seq<Error>)
    ensures Kept(Kept(None, first), later) == Kept(None, first + later)
  {
  }

  /** The body of a launch task: one that was cancelled while it ran never ends with a handle. */
  method LaunchTask(loop: EventLoop, select: Selector, arguments: nat, launch: Task, cleanup: Task,
                    admission: Admission, removal: Option<Error>)
    returns (end: Option<End>)
    requires launch != cleanup && arguments > 0
    modifies loop
    ensures loop.Advanced()
    ensures end.Some? && loop.raised != old(loop.raised) ==> end.value.Raises?
    ensures end.Some? && end.value.Value? ==> end.value == loop.ends(launch)
  {
    hide Continues;
    ghost var faults;
    var e, joined;
    e, joined, faults := StartAsyncProcess(loop, select, arguments, launch, cleanup, admission, removal);
    end := if e.Ended? then Some(EndOfCall(e.r)) else None;
  }

  /** A call whose observation of the launch cannot be set up: the launch succeeds, the call raises,
      and no cleanup follows. */
  method AnUnobservedLaunchIsLeftRunning(select: Selector, launch: Task, cleanup: Task, handle: int, error: Error)
    returns (e: Ending, joined: seq<Task>, loop: EventLoop)
    requires launch != cleanup
    ensures fresh(loop) && loop.ends(launch) == Value(handle) && launch in loop.done
    ensures e.Ended? && e.r.RaisesError? && cleanup !in joined
  {
    hide Reaction;
    var turns := [Turn(0, Finishes({launch}))];
    loop := new EventLoop((t: Task) => Value(handle), turns, 0, {});
    ghost var faults;
    e, joined, faults := StartAsyncProcess(loop, select, 1, launch, cleanup, NoFuture(error), None);
    assert turns[..0] == [] && turns[..1] == turns && turns[1..] == [];
  }
}
