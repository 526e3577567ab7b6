/** Joining tasks that must not be abandoned: `await_owned_task`, the two bounded observations and
    `raise_owned_outcome`, each proved for every script of the event loop.

    How several errors are composed into one is decided elsewhere; here it is any function of the
    non-empty sequence of errors that are present. */
module OwnedTasks {
  import opened EventLoops
  import opened Options
  import opened Sequences

  type Selector = seq<Error> -> Error

  datatype Outcome = Outcome(result: Option<int>, error: Option<Error>, cancellation: Option<Error>)

  function Compose(select: Selector, errors: seq<Error>): (e: Option<Error>)
    ensures e.None? <==> errors == []
  {
    if errors == [] then None else Some(select(errors))
  }

  function Present(e: Option<Error>): seq<Error> {
    if e.None? then [] else [e.value]
  }

  /** The first cancellation is kept; later ones are absorbed. */
  function Kept(pending: Option<Error>, cancels: seq<Error>): Option<Error> {
    if pending.Some? || cancels == [] then pending else Some(cancels[0])
  }

  // ---------------------------------------------------------------- raise_owned_outcome

  datatype Raising = Returns(value: Option<int>) | RaisesError(error: Error)

  /** Control before cancellation before ordinary failure. */
  function RaiseOwnedOutcome(select: Selector, o: Outcome): Raising {
    if (o.error.Some? && o.error.value.Control?) || (o.cancellation.Some? && o.cancellation.value.Control?) then
      RaisesError(select(Present(o.error) + Present(o.cancellation)))
    else if o.cancellation.Some? then RaisesError(o.cancellation.value)
    else if o.error.Some? then RaisesError(o.error.value)
    else Returns(o.result)
  }

  lemma ReturnsOnlyWithoutErrorOrCancellation(select: Selector, o: Outcome)
    ensures RaiseOwnedOutcome(select, o).Returns? <==> o.error.None? && o.cancellation.None?
    ensures RaiseOwnedOutcome(select, o).Returns? ==> RaiseOwnedOutcome(select, o).value == o.result
  {
  }

  /** What a raised error is made of: the outcome's own error, or the caller's cancellation. */
  datatype Ingredient = Own(error: Error) | Callers(error: Error)

  function Arguments(o: Outcome): seq<Ingredient> {
    var own := if o.error.Some? then [Own(o.error.value)] else [];
    var callers := if o.cancellation.Some? then [Callers(o.cancellation.value)] else [];
    if AnyControl(own + callers) then own + callers else if callers != [] then callers else own
  }

  predicate AnyControl(arguments: seq<Ingredient>) {
    exists a :: a in arguments && a.error.Control?
  }

  function Errors(arguments: seq<Ingredient>): seq<Error> {
    seq(|arguments|, i requires 0 <= i < |arguments| => arguments[i].error)
  }

  /** Control is composed from everything; anything else comes out as it is. */
  function MadeOf(select: Selector, arguments: seq<Ingredient>): Error
    requires arguments != []
  {
    if AnyControl(arguments) then select(Errors(arguments)) else arguments[0].error
  }

  /** Whatever is raised is made of these, and a cancellation of the caller is always one of them. */
  lemma RaisedIsMadeOf(select: Selector, o: Outcome)
    ensures RaiseOwnedOutcome(select, o)
         == if Arguments(o) == [] then Returns(o.result) else RaisesError(MadeOf(select, Arguments(o)))
    ensures o.cancellation.Some? ==> Callers(o.cancellation.value) in Arguments(o)
  {
    var own := if o.error.Some? then [Own(o.error.value)] else [];
    var callers := if o.cancellation.Some? then [Callers(o.cancellation.value)] else [];
    var all := own + callers;
    assert Errors(all) == Present(o.error) + Present(o.cancellation);
    assert o.error.Some? ==> Own(o.error.value) in all;
    assert o.cancellation.Some? ==> Callers(o.cancellation.value) in all && Callers(o.cancellation.value) in callers;
  }

  // ---------------------------------------------------------------- await_owned_task

  datatype Forwarding = NoForward | Native | Routed(failure: Option<Error>)

  /** Whether observing the task could be set up at all. */
  datatype Admission = Admitted | NoFuture(error: Error) | NoCallback(error: Error)

  datatype Join =
    | Joined(outcome: Outcome)
    | Raised(error: Error)
    | StillWaiting              // the script ended with the caller suspended

  function AdmissionErrors(a: Admission): seq<Error> {
    if a.Admitted? then [] else [a.error]
  }

  /** Removing the callback fails only where there is one to remove. */
  function RemovalErrors(a: Admission, removal: Option<Error>): seq<Error> {
    if a.NoFuture? then [] else Present(removal)
  }

  function OwnError(e: End): seq<Error> {
    if e.Raises? then [e.error] else []
  }

  function ForwardErrors(f: Forwarding, forwarded: bool): seq<Error> {
    if forwarded && f.Routed? then Present(f.failure) else []
  }

  /** The task's own error, composed with what went wrong in observing and in forwarding. */
  function Composed(select: Selector, end: End, publication: seq<Error>, forward: seq<Error>): (e: Option<Error>)
    ensures e.None? <==> end.Value? && publication == [] && forward == []
  {
    var error := if publication == [] then Compose(select, OwnError(end))
                 else Compose(select, OwnError(end) + publication);
    if forward == [] then error else Compose(select, Present(error) + forward)
  }

  /** A result only where nothing went wrong; the first cancellation beside it. */
  function OutcomeOf(select: Selector, end: End, cancellation: Option<Error>, publication: seq<Error>,
                     forward: seq<Error>): Outcome
  {
    var error := Composed(select, end, publication, forward);
    Outcome(if error.None? && end.Value? then Some(end.value) else None, error, cancellation)
  }

  /** The composition keeps such evidence, and makes none up. */
  ghost predicate Retains(select: Selector, keeps: Error -> bool) {
    forall errors: seq<Error> :: errors != [] ==> (keeps(select(errors)) <==> exists e :: e in errors && keeps(e))
  }

  /** The error of an outcome carries evidence exactly if the task's own error does, or something that went
      wrong in observing the task or in forwarding to it. */
  lemma ComposedIsMadeOf(select: Selector, end: End, publication: seq<Error>, forward: seq<Error>, keeps: Error -> bool)
    requires Retains(select, keeps)
    ensures
      var error := Composed(select, end, publication, forward);
      (error.Some? && keeps(error.value))
      <==> || (end.Raises? && keeps(end.error))
           || (exists e :: e in publication && keeps(e))
           || (exists e :: e in forward && keeps(e))
  {
    var own := OwnError(end);
    var all := own + publication;
    assert forall e :: e in all <==> e in own || e in publication;
    assert own + [] == own;
    var error := Compose(select, all);
    assert error == if publication == [] then Compose(select, own) else Compose(select, own + publication);
    var parts := Present(error) + forward;
    assert forall e :: e in parts <==> e in Present(error) || e in forward;
    if forward != [] && error.Some? {
      assert error.value in parts;
    }
  }

  /** From the join to the caller: a value comes out exactly if the task has one, nobody was cancelled,
      and neither observing nor forwarding failed; then it is the task's own. */
  lemma AValueComesOutIff(select: Selector, end: End, cancellation: Option<Error>, publication: seq<Error>,
                          forward: seq<Error>)
    ensures
      var r := RaiseOwnedOutcome(select, OutcomeOf(select, end, cancellation, publication, forward));
      && (r.Returns? <==> end.Value? && cancellation.None? && publication == [] && forward == [])
      && (r.Returns? ==> r.value == Some(end.value))
      && (cancellation.Some? && !cancellation.value.Control?
          && !(Composed(select, end, publication, forward).Some?
               && Composed(select, end, publication, forward).value.Control?)
          ==> r == RaisesError(cancellation.value))
  {
  }

  lemma NoFaults(failed: seq<Error>)
    ensures AdmissionErrors(Admitted) + failed + RemovalErrors(Admitted, None) == failed
  {
  }

  const RECHECK := 10_000

  /** What a history has gained since it was `before`. */
  function Since(history: seq<Error>, before: seq<Error>): seq<Error>
    requires before <= history
  {
    history[|before|..]
  }

  /** What an observer has met and done, in order. */
  datatype Record = Record(raised: seq<Error>, raisedAt: seq<int>, failures: seq<Error>,
                           sent: seq<Task>, sentAt: seq<int>, waits: seq<Awaited>)

  ghost function RecordOf(loop: EventLoop): Record
    reads loop
  {
    Record(loop.raised, loop.raisedAt, loop.failures, loop.sent, loop.sentAt, loop.waits)
  }

  /** Nothing that was on record is lost. */
  predicate Extends(a: Record, b: Record) {
    && a.raised <= b.raised && a.raisedAt <= b.raisedAt && a.failures <= b.failures
    && a.sent <= b.sent && a.sentAt <= b.sentAt && a.waits <= b.waits
  }

  /** What the record has gained since it was `a`. */
  function Gain(a: Record, b: Record): Record
    requires Extends(a, b)
  {
    Record(b.raised[|a.raised|..], b.raisedAt[|a.raisedAt|..], b.failures[|a.failures|..],
           b.sent[|a.sent|..], b.sentAt[|a.sentAt|..], b.waits[|a.waits|..])
  }

  /** One more wait: a cancellation that comes out of it is forwarded unless one has been already. */
  function Heard(r: Record, task: Task, forwarding: Forwarding, already: bool, wait: Awaited, now: int): Record {
    match wait.how
    case Interrupted(error) =>
      var sends := forwarding == Native && !already;
      Record(r.raised + [error], r.raisedAt + [now], r.failures,
             if sends then r.sent + [task] else r.sent, if sends then r.sentAt + [now] else r.sentAt, r.waits + [wait])
    case Failed(error) => r.(failures := r.failures + [error], waits := r.waits + [wait])
    case _ => r.(waits := r.waits + [wait])
  }

  function Waited(task: Task, timed: bool, began: int, how: Wake, at: int, done: set<Task>): Awaited {
    if timed then Awaited({}, false, Some(began + RECHECK), how, at, done)
    else Awaited({task}, false, None, how, at, done)
  }

  /** One suspension of `await_owned_task`: on the completion, or, once its callback could not be
      published, on a timer. */
  method Observe(loop: EventLoop, task: Task, timed: bool) returns (w: Wake)
    requires task !in loop.done
    modifies loop`turns, loop`now, loop`done, loop`raised, loop`failures, loop`raisedAt, loop`waits
    ensures loop.Advanced()
    ensures
      var wait := Waited(task, timed, old(loop.now), w, loop.now, loop.done);
      RecordOf(loop) == Heard(old(RecordOf(loop)), task, NoForward, false, wait, loop.now)
      || (w.Hung? && RecordOf(loop) == old(RecordOf(loop)))
    ensures w.Hung? ==> loop.turns == [] && task !in loop.done
    ensures w.Hung? || task in loop.done || Distance(loop) < old(Distance(loop))
            || |loop.turns| < old(|loop.turns|)
    ensures Continues(old(loop.Books()), loop.Books())
  {
    hide Reaction, Continues;
    ContinuesTheSame(loop.Books());
    if !timed {
      w := loop.Wait({task}, false, None);
    } else if loop.turns == [] {
      w := Hung;
    } else {
      w := loop.Wait({}, false, Some(loop.now + RECHECK));
    }
    assert if task in loop.done then task in {task} * loop.done else {task} * loop.done == {};
  }

  /** How long the script still lets the caller sleep before its next happening. */
  function Distance(loop: EventLoop): nat
    reads loop
  {
    if loop.turns == [] then 0 else Later(0, loop.turns[0].at - loop.now)
  }

  /** When the first of the cancellations since `from` arrived. */
  function FirstAt(arrivals: seq<int>, from: nat): int {
    if from < |arrivals| then arrivals[from] else 0
  }

  /** One pass of the loop: the suspension, and the only forwarding of a cancellation. */
  method ObserveAndForward(loop: EventLoop, task: Task, timed: bool, forwarding: Forwarding, already: bool)
    returns (w: Wake)
    requires task !in loop.done
    modifies loop
    ensures loop.Advanced()
    ensures
      var wait := Waited(task, timed, old(loop.now), w, loop.now, loop.done);
      RecordOf(loop) == Heard(old(RecordOf(loop)), task, forwarding, already, wait, loop.now)
      || (w.Hung? && RecordOf(loop) == old(RecordOf(loop)))
    ensures w.Hung? ==> loop.turns == [] && task !in loop.done
    ensures w.Hung? || task in loop.done || Distance(loop) < old(Distance(loop))
            || |loop.turns| < old(|loop.turns|)
    ensures Continues(old(loop.Books()), loop.Books())
  {
    hide Reaction, Continues;
    w := Observe(loop, task, timed);
    if w.Interrupted? && forwarding == Native && !already {
      loop.Cancel(task);
    }
  }

  /** The waits between two states of the loop; only the last may have ended with the task done. */
  predicate WaitedFor(task: Task, waits0: seq<Awaited>, done0: set<Task>, waits: seq<Awaited>, done: set<Task>) {
    && waits0 <= waits
    && (if |waits| == |waits0| then done == done0 else waits[|waits| - 1].done == done)
    && forall k :: |waits0| <= k < |waits| - 1 ==> task !in waits[k].done
  }

  lemma WaitedForNothing(task: Task, waits: seq<Awaited>, done: set<Task>)
    ensures WaitedFor(task, waits, done, waits, done)
  {
  }

  lemma WaitedAgain(task: Task, waits0: seq<Awaited>, done0: set<Task>, waits: seq<Awaited>, done: set<Task>,
                    later: Awaited)
    requires WaitedFor(task, waits0, done0, waits, done) && task !in done
    ensures WaitedFor(task, waits0, done0, waits + [later], later.done)
  {
  }

  /** Some of these waits failed. */
  predicate FailedIn(waits: seq<Awaited>, from: nat, to: nat) {
    exists k :: from <= k < to <= |waits| && waits[k].how.Failed?
  }

  /** The first cancellation, and no other, has been forwarded, and that at its arrival. */
  predicate Forwards(a: Record, b: Record, task: Task, forwarding: Forwarding, forwarded: bool) {
    && |b.raised| - |a.raised| == |b.raisedAt| - |a.raisedAt| >= 0
    && (forwarded <==> forwarding != NoForward && |b.raised| > |a.raised|)
    && b.sent == a.sent + SentTo(task, forwarding, |b.raised| > |a.raised|)
    && b.sentAt == a.sentAt + SentAt(b.raisedAt, |a.raisedAt|, forwarding)
  }

  /** What the loop of the default mode has come to since the record was `a`: the first cancellation is
      kept and forwarded at its arrival, failures of observation add up, and from the first of them on
      the waits are timed. */
  ghost predicate Observed(a: Record, b: Record, task: Task, pending: Option<Error>, opening: seq<Error>,
                           forwarding: Forwarding, cancellation: Option<Error>, publication: seq<Error>,
                           forwarded: bool)
  {
    && a.raised <= b.raised && a.failures <= b.failures && a.raisedAt <= b.raisedAt && a.waits <= b.waits
    && cancellation == Kept(pending, Since(b.raised, a.raised))
    && publication == opening + Since(b.failures, a.failures)
    && Forwards(a, b, task, forwarding, forwarded)
    && (publication == opening <==> !FailedIn(b.waits, |a.waits|, |b.waits|))
    && Timed(task, opening != [], b.waits, |a.waits|)
  }

  /** The waits have a timer from the first fault in observing on, and not before. */
  ghost predicate Timed(task: Task, faulty: bool, waits: seq<Awaited>, from: nat) {
    forall k :: from <= k < |waits| ==> WaitsTimed(task, waits[k], faulty || FailedIn(waits, from, k))
  }

  /** A wait on the task alone, or on nothing but the timer. */
  predicate WaitsTimed(task: Task, w: Awaited, timed: bool) {
    w.tasks == (if timed then {} else {task}) && (w.until.Some? <==> timed)
  }

  lemma TimedAgain(task: Task, faulty: bool, waits: seq<Awaited>, from: nat, wait: Awaited)
    requires from <= |waits| && Timed(task, faulty, waits, from)
    requires WaitsTimed(task, wait, faulty || FailedIn(waits, from, |waits|))
    ensures Timed(task, faulty, waits + [wait], from)
    ensures FailedIn(waits + [wait], from, |waits| + 1) <==> FailedIn(waits, from, |waits|) || wait.how.Failed?
  {
    var longer := waits + [wait];
    forall k | from <= k <= |waits|
      ensures FailedIn(longer, from, k) <==> FailedIn(waits, from, k)
    {
      if FailedIn(waits, from, k) {
        var j :| from <= j < k && waits[j].how.Failed?;
        assert longer[j].how.Failed?;
      }
      if FailedIn(longer, from, k) {
        var j :| from <= j < k && longer[j].how.Failed?;
        assert waits[j].how.Failed?;
      }
    }
    if wait.how.Failed? {
      assert longer[|waits|].how.Failed?;
    }
    if FailedIn(waits, from, |waits|) {
      var j :| from <= j < |waits| && waits[j].how.Failed?;
      assert longer[j].how.Failed?;
    }
  }

  lemma SentNext(before: seq<Task>, sent: seq<Task>, task: Task, forwarding: Forwarding, already: bool)
    requires sent == before + SentTo(task, forwarding, already)
    ensures (if forwarding == Native && !already then sent + [task] else sent)
         == before + SentTo(task, forwarding, true)
  {
  }

  lemma SentAtNext(before: seq<int>, sent: seq<int>, arrivals: seq<int>, from: nat, forwarding: Forwarding, now: int)
    requires from <= |arrivals| && sent == before + SentAt(arrivals, from, forwarding)
    ensures (if forwarding == Native && from == |arrivals| then sent + [now] else sent)
         == before + SentAt(arrivals + [now], from, forwarding)
  {
  }

  lemma ForwardsNext(a: Record, b: Record, task: Task, forwarding: Forwarding, forwarded: bool, wait: Awaited, now: int)
    requires Forwards(a, b, task, forwarding, forwarded) && wait.how.Interrupted?
    ensures Forwards(a, Heard(b, task, forwarding, forwarded, wait, now), task, forwarding, forwarding != NoForward)
  {
    hide SentTo, SentAt;
    SentNext(a.sent, b.sent, task, forwarding, |b.raised| > |a.raised|);
    SentAtNext(a.sentAt, b.sentAt, b.raisedAt, |a.raisedAt|, forwarding, now);
  }

  lemma ForwardsStill(a: Record, b: Record, task: Task, forwarding: Forwarding, forwarded: bool, wait: Awaited,
                      now: int)
    requires Forwards(a, b, task, forwarding, forwarded) && !wait.how.Interrupted?
    ensures Forwards(a, Heard(b, task, forwarding, forwarded, wait, now), task, forwarding, forwarded)
  {
  }

  lemma ObservedNothing(a: Record, task: Task, pending: Option<Error>, opening: seq<Error>, forwarding: Forwarding)
    ensures Observed(a, a, task, pending, opening, forwarding, pending, opening, false)
  {
  }

  lemma ObservedInterruption(a: Record, b: Record, task: Task, pending: Option<Error>, opening: seq<Error>,
                             forwarding: Forwarding, cancellation: Option<Error>, publication: seq<Error>,
                             forwarded: bool, wait: Awaited, now: int)
    requires Observed(a, b, task, pending, opening, forwarding, cancellation, publication, forwarded)
    requires wait.how.Interrupted? && WaitsTimed(task, wait, publication != [])
    ensures Observed(a, Heard(b, task, forwarding, forwarded, wait, now), task, pending, opening, forwarding,
                     if cancellation.None? then Some(wait.how.error) else cancellation, publication,
                     forwarding != NoForward)
  {
    hide Timed, FailedIn, Kept, Forwards;
    ForwardsNext(a, b, task, forwarding, forwarded, wait, now);
    GainedOne(a.raised, b.raised, wait.how.error);
    KeptNext(pending, Since(b.raised, a.raised), wait.how.error);
    TimedAgain(task, opening != [], b.waits, |a.waits|, wait);
  }

  lemma ObservedFailure(a: Record, b: Record, task: Task, pending: Option<Error>, opening: seq<Error>,
                        forwarding: Forwarding, cancellation: Option<Error>, publication: seq<Error>,
                        forwarded: bool, wait: Awaited, now: int)
    requires Observed(a, b, task, pending, opening, forwarding, cancellation, publication, forwarded)
    requires wait.how.Failed? && WaitsTimed(task, wait, publication != [])
    ensures Observed(a, Heard(b, task, forwarding, forwarded, wait, now), task, pending, opening, forwarding,
                     cancellation, publication + [wait.how.error], forwarded)
  {
    hide Timed, FailedIn, Kept, Forwards;
    ForwardsStill(a, b, task, forwarding, forwarded, wait, now);
    GainedOne(a.failures, b.failures, wait.how.error);
    Regroup(opening, Since(b.failures, a.failures), [wait.how.error]);
    TimedAgain(task, opening != [], b.waits, |a.waits|, wait);
  }

  lemma ObservedQuietly(a: Record, b: Record, task: Task, pending: Option<Error>, opening: seq<Error>,
                        forwarding: Forwarding, cancellation: Option<Error>, publication: seq<Error>,
                        forwarded: bool, wait: Awaited, now: int)
    requires Observed(a, b, task, pending, opening, forwarding, cancellation, publication, forwarded)
    requires !wait.how.Interrupted? && !wait.how.Failed? && WaitsTimed(task, wait, publication != [])
    ensures Observed(a, Heard(b, task, forwarding, forwarded, wait, now), task, pending, opening, forwarding,
                     cancellation, publication, forwarded)
  {
    hide Timed, FailedIn, Kept, Forwards;
    ForwardsStill(a, b, task, forwarding, forwarded, wait, now);
    TimedAgain(task, opening != [], b.waits, |a.waits|, wait);
  }

  /** The loop of the default mode: there is no way out before the task is done. */
  method ObserveToTheEnd(loop: EventLoop, task: Task, pending: Option<Error>, forwarding: Forwarding,
                         opening: seq<Error>)
    returns (cancellation: Option<Error>, publication: seq<Error>, forwarded: bool)
    modifies loop
    ensures loop.Advanced()
    ensures task !in loop.done ==> loop.turns == []
    ensures task in old(loop.done) ==> unchanged(loop)
    ensures Observed(old(RecordOf(loop)), RecordOf(loop), task, pending, opening, forwarding,
                     cancellation, publication, forwarded)
    ensures Continues(old(loop.Books()), loop.Books())
    ensures task in loop.done ==> WaitedFor(task, old(loop.waits), old(loop.done), loop.waits, loop.done)
  {
    hide Reaction, Continues, WaitedFor, Distance, Observed, Heard;
    ContinuesTheSame(loop.Books());
    WaitedForNothing(task, loop.waits, loop.done);
    ghost var start := RecordOf(loop);
    cancellation, publication, forwarded := pending, opening, false;
    ObservedNothing(start, task, pending, opening, forwarding);
    while task !in loop.done
      invariant loop.Advanced()
      invariant task !in old(loop.done) || unchanged(loop)
      invariant Observed(start, RecordOf(loop), task, pending, opening, forwarding, cancellation, publication,
                         forwarded)
      invariant Continues(old(loop.Books()), loop.Books())
      invariant WaitedFor(task, old(loop.waits), old(loop.done), loop.waits, loop.done)
      decreases task !in loop.done, |loop.turns|, Distance(loop)
    {
      ghost var books, b, done, began := loop.Books(), RecordOf(loop), loop.done, loop.now;
      var w := ObserveAndForward(loop, task, publication != [], forwarding, forwarded);
      ContinuesOn(old(loop.Books()), books, loop.Books());
      ghost var wait := Waited(task, publication != [], began, w, loop.now, loop.done);
      HeardWaits(b, task, forwarding, forwarded, wait, loop.now);
      if w.Interrupted? {
        ObservedInterruption(start, b, task, pending, opening, forwarding, cancellation, publication, forwarded,
                             wait, loop.now);
        cancellation := if cancellation.None? then Some(w.error) else cancellation;
        forwarded := forwarding != NoForward;
      } else if w.Failed? {
        ObservedFailure(start, b, task, pending, opening, forwarding, cancellation, publication, forwarded,
                        wait, loop.now);
        publication := publication + [w.error];
      } else {
        ObservedQuietly(start, b, task, pending, opening, forwarding, cancellation, publication, forwarded,
                        wait, loop.now);
        if w.Hung? {
          return;
        }
      }
      WaitedAgain(task, old(loop.waits), old(loop.done), b.waits, done, wait);
    }
  }

  lemma HeardWaits(r: Record, task: Task, forwarding: Forwarding, already: bool, wait: Awaited, now: int)
    ensures Heard(r, task, forwarding, already, wait, now).waits == r.waits + [wait]
  {
  }

  lemma KeptNext(pending: Option<Error>, cancels: seq<Error>, error: Error)
    ensures Kept(pending, cancels + [error])
         == if Kept(pending, cancels).None? then Some(error) else Kept(pending, cancels)
  {
  }

  /** The default mode. */
  method AwaitOwnedTask(loop: EventLoop, select: Selector, task: Task, pending: Option<Error>,
                        forwarding: Forwarding, admission: Admission, removal: Option<Error>)
    returns (j: Join)
    modifies loop
    ensures loop.Advanced()
    ensures if task in loop.done then j.Joined? else j.StillWaiting? && loop.turns == []
    ensures loop.sentAt == old(loop.sentAt) + SentAt(loop.raisedAt, |old(loop.raisedAt)|, forwarding)
    ensures task in old(loop.done) ==> unchanged(loop)
    ensures Continues(old(loop.Books()), loop.Books())
    ensures task in loop.done ==> WaitedFor(task, old(loop.waits), old(loop.done), loop.waits, loop.done)
    ensures Timed(task, admission != Admitted, loop.waits, |old(loop.waits)|)
    ensures
      var cancels, failed := Since(loop.raised, old(loop.raised)), Since(loop.failures, old(loop.failures));
      && loop.sent == old(loop.sent) + SentTo(task, forwarding, cancels != [])
      && (j.Joined? ==> j.outcome == OutcomeOf(
            select, loop.ends(task), Kept(pending, cancels),
            AdmissionErrors(admission) + failed + RemovalErrors(admission, removal),
            ForwardErrors(forwarding, cancels != [])))
  {
    hide Reaction, Continues, WaitedFor, FailedIn, Timed;
    var cancellation, publication, forwarded :=
      ObserveToTheEnd(loop, task, pending, forwarding, AdmissionErrors(admission));
    if task !in loop.done {
      return StillWaiting;
    }
    publication := publication + RemovalErrors(admission, removal);
    return Joined(OutcomeOf(select, loop.ends(task), cancellation, publication,
                            ForwardErrors(forwarding, forwarded)));
  }

  /** `defer_cancellation=False`: the first withdrawal leaves, and nothing is ever sent to the task. */
  method BorrowOwnedTask(loop: EventLoop, select: Selector, task: Task, admission: Admission,
                         removal: Option<Error>)
    returns (j: Join)
    modifies loop`turns, loop`now, loop`done, loop`raised, loop`failures, loop`raisedAt, loop`waits
    ensures loop.Advanced()
    ensures
      var cancels, failed := Since(loop.raised, old(loop.raised)), Since(loop.failures, old(loop.failures));
      var publication := AdmissionErrors(admission) + failed + RemovalErrors(admission, removal);
      && |cancels| <= 1
      && (j.Joined? <==> task in loop.done && cancels == [])
      && (j.Joined? ==> j.outcome == OutcomeOf(select, loop.ends(task), None, publication, []))
      && (j.Raised? ==> cancels + publication != [] && j.error == select(cancels + publication))
      && (j.StillWaiting? ==> loop.turns == [])
    // it waits for the task, and not once the task is done
    ensures forall k :: |old(loop.waits)| <= k < |loop.waits| ==> WaitsTimed(task, loop.waits[k], false)
    ensures forall k :: |old(loop.waits)| <= k < |loop.waits| - 1 ==> task !in loop.waits[k].done
    ensures task in old(loop.done) ==> loop.waits == old(loop.waits)
  {
    hide Reaction, Continues;
    ghost var raised, failures := loop.raised, loop.failures;
    var publication := AdmissionErrors(admission);
    var withdrawal: seq<Error> := [];
    while task !in loop.done && withdrawal == [] && publication == []
      invariant loop.Advanced()
      invariant withdrawal == Since(loop.raised, raised) && |withdrawal| <= 1
      invariant publication == AdmissionErrors(admission) + Since(loop.failures, failures)
      invariant forall k :: |old(loop.waits)| <= k < |loop.waits| ==> WaitsTimed(task, loop.waits[k], false)
      invariant forall k ::
        |old(loop.waits)| <= k < |loop.waits| - (if task in loop.done then 1 else 0) ==> task !in loop.waits[k].done
      invariant task in old(loop.done) ==> loop.waits == old(loop.waits)
      decreases task !in loop.done, |loop.turns|, Distance(loop)
    {
      var w := Observe(loop, task, false);
      if w.Hung? {
        return StillWaiting;
      }
      if w.Failed? {
        publication := publication + [w.error];
      }
      if w.Interrupted? {
        withdrawal := [w.error];
      }
    }
    publication := publication + RemovalErrors(admission, removal);
    if withdrawal != [] || task !in loop.done {
      return Raised(select(withdrawal + publication));
    }
    return Joined(OutcomeOf(select, loop.ends(task), None, publication, []));
  }

  /** A cancellation is forwarded at most once, however many arrive. */
  function SentTo(task: Task, forwarding: Forwarding, cancelled: bool): seq<Task> {
    if forwarding == Native && cancelled then [task] else []
  }

  /** ... and at the very time of the first of them. */
  function SentAt(arrivals: seq<int>, from: nat, forwarding: Forwarding): seq<int> {
    if forwarding == Native && from < |arrivals| then [arrivals[from]] else []
  }

  // ---------------------------------------------------------------- wait_owned_or_pending

  datatype Observation =
    | Settled(join: Join)
    | Pending(cancellation: Error)
    | Escaped(error: Error)       // observing failed
    | Rejected                    // the grace is not a finite positive number
    | Unfinished                  // the script ended with the caller suspended

  /** The observing loop: the first cancellation starts the only timer and sends the only cancel. */
  method Watch(loop: EventLoop, task: Task, grace: int, forwarding: Forwarding)
    returns (w: Wake, cancellation: Option<Error>)
    requires grace > 0
    modifies loop
    ensures loop.Advanced()
    ensures w.Hung? ==> loop.turns == [] && loop.raised == old(loop.raised) && task !in loop.done
    ensures w.Failed? <==> loop.failures != old(loop.failures)
    ensures w.Woken? ==> task in loop.done
    ensures w.TimedOut? ==> task !in loop.done && cancellation.Some? && |old(loop.raisedAt)| < |loop.raisedAt|
                            && loop.now == FirstAt(loop.raisedAt, |old(loop.raisedAt)|) + grace
    ensures !w.Interrupted?
    ensures cancellation == Kept(None, Since(loop.raised, old(loop.raised)))
    ensures loop.sent == old(loop.sent) + SentTo(task, forwarding, loop.raised != old(loop.raised))
    ensures loop.sentAt == old(loop.sentAt) + SentAt(loop.raisedAt, |old(loop.raisedAt)|, forwarding)
    // it waits for the task all the time, and not once the task is done
    ensures forall k :: |old(loop.waits)| <= k < |loop.waits| ==> loop.waits[k].tasks == {task}
    ensures forall k :: |old(loop.waits)| <= k < |loop.waits| - 1 ==> task !in loop.waits[k].done
    ensures task in old(loop.done) ==> loop.waits == old(loop.waits)
  {
    hide Reaction, Continues;
    var timer: Option<int> := None;
    cancellation, w := None, Woken;
    while task !in loop.done && (timer.None? || loop.now < timer.value)
      invariant loop.Advanced() && loop.failures == old(loop.failures)
      invariant cancellation == Kept(None, Since(loop.raised, old(loop.raised)))
      invariant timer.Some? <==> loop.raised != old(loop.raised)
      invariant timer.Some? ==> |old(loop.raisedAt)| < |loop.raisedAt| && loop.now <= timer.value
                                && timer.value == FirstAt(loop.raisedAt, |old(loop.raisedAt)|) + grace
      invariant timer.None? ==> loop.raisedAt == old(loop.raisedAt)
      invariant forall k :: |old(loop.waits)| <= k < |loop.waits| ==> loop.waits[k].tasks == {task}
      invariant forall k ::
        |old(loop.waits)| <= k < |loop.waits| - (if task in loop.done then 1 else 0) ==> task !in loop.waits[k].done
      invariant task in old(loop.done) ==> loop.waits == old(loop.waits)
      invariant loop.sentAt == old(loop.sentAt) + SentAt(loop.raisedAt, |old(loop.raisedAt)|, forwarding)
      invariant loop.sent == old(loop.sent) + SentTo(task, forwarding, loop.raised != old(loop.raised))
      decreases task !in loop.done, timer.None? || loop.now < timer.value, |loop.turns|
    {
      w := loop.Wait({task}, false, timer);
      assert if task in loop.done then task in {task} * loop.done else {task} * loop.done == {};
      if w.Hung? || w.Failed? {
        return;
      }
      if w.Interrupted? && cancellation.None? {
        cancellation := Some(w.error);
        timer := Some(loop.now + grace);
        if forwarding == Native {
          loop.Cancel(task);
        }
      }
    }
    w := if task in loop.done then Woken else TimedOut;
  }

  method WaitOwnedOrPending(loop: EventLoop, select: Selector, task: Task, grace: Option<int>,
                            cancelOnCaller: bool, admission: Admission, removal: Option<Error>)
    returns (o: Observation)
    modifies loop
    ensures loop.Advanced()
    ensures o.Rejected? <==> grace.None? || grace.value <= 0
    ensures o.Rejected? ==> unchanged(loop)
    ensures o.Unfinished? ==> loop.turns == [] && loop.raised == old(loop.raised) && task !in loop.done
    ensures o.Escaped? ==> old(loop.failures) < loop.failures
    ensures loop.sentAt == old(loop.sentAt)
                           + SentAt(loop.raisedAt, |old(loop.raisedAt)|, if cancelOnCaller then Native else NoForward)
    ensures
      var cancels := Since(loop.raised, old(loop.raised));
      && loop.sent == old(loop.sent) + SentTo(task, if cancelOnCaller then Native else NoForward, cancels != [])
      && (o.Pending? ==> cancels != [] && o.cancellation == cancels[0] && task !in loop.done)
      && (o.Pending? ==> loop.now == FirstAt(loop.raisedAt, |old(loop.raisedAt)|) + grace.value)
      && (o.Settled? ==> task in loop.done && o.join == Joined(OutcomeOf(
            select, loop.ends(task), Kept(None, cancels),
            AdmissionErrors(admission) + RemovalErrors(admission, removal), [])))
  {
    hide Reaction, Continues, WaitedFor;
    if grace.None? || grace.value <= 0 {
      return Rejected;
    }
    var w, cancellation := Watch(loop, task, grace.value, if cancelOnCaller then Native else NoForward);
    match w {
      case Hung => return Unfinished;
      case Failed(error) => return Escaped(error);
      case TimedOut => return Pending(cancellation.value);
      case Woken =>
        var j := AwaitOwnedTask(loop, select, task, cancellation, NoForward, admission, removal);
        var errors := AdmissionErrors(admission);
        assert errors + [] + RemovalErrors(admission, removal) == errors + RemovalErrors(admission, removal);
        return Settled(j);
    }
  }

  // ---------------------------------------------------------------- wait_owned_tasks_until

  datatype Snapshot =
    | Observed(finished: set<Task>, pending: set<Task>, withdrawal: Option<Error>)
    | ObservationFailed(error: Error)
    | DeadlineRejected

  /** Errors that come one after the other: each is composed with what there was before it. */
  function Accumulated(select: Selector, cancels: seq<Error>): (w: Option<Error>)
    ensures w.None? <==> cancels == []
  {
    if cancels == [] then None
    else Some(select(Present(Accumulated(select, cancels[..|cancels| - 1])) + [cancels[|cancels| - 1]]))
  }

  lemma AccumulatedAppends(select: Selector, cancels: seq<Error>, error: Error)
    ensures Accumulated(select, cancels + [error]) == Some(select(Present(Accumulated(select, cancels)) + [error]))
  {
    assert (cancels + [error])[..|cancels|] == cancels;
  }

  lemma SatisfiedByAll(tasks: set<Task>, done: set<Task>)
    ensures Satisfied(tasks, true, done) <==> tasks - done == {}
  {
    assert tasks - done == {} ==> forall t :: t in tasks ==> t in done || t in tasks - done;
  }

  predicate WaitsForAll(tasks: set<Task>, w: Awaited, deadline: int) {
    && w.all && w.until == Some(deadline)
    && w.tasks <= tasks <= w.tasks + w.done
    && (w.how.TimedOut? ==> !(tasks <= w.done) && w.at == deadline)
  }

  /** No `sent` in the frame: observing cancels nothing. */
  method WaitOwnedTasksUntil(loop: EventLoop, select: Selector, tasks: set<Task>, deadline: Option<int>)
    returns (s: Snapshot)
    modifies loop`turns, loop`now, loop`done, loop`raised, loop`failures, loop`raisedAt, loop`waits
    ensures loop.Advanced()
    ensures s.DeadlineRejected? <==> deadline.None?
    ensures s.DeadlineRejected? ==> unchanged(loop)
    ensures deadline.Some? ==> loop.now <= Later(old(loop.now), deadline.value)
    ensures s.Observed? ==> s.finished == tasks * loop.done && s.pending == tasks - loop.done
    ensures s.Observed? ==> s.pending == {} || loop.now >= deadline.value
    ensures s.Observed? ==> s.withdrawal == Accumulated(select, Since(loop.raised, old(loop.raised)))
    ensures s.ObservationFailed? <==> deadline.Some? && loop.failures != old(loop.failures)
    // each wait is for all that is left, up to the deadline, and none goes on when nothing is left
    ensures deadline.Some? ==>
      forall k :: |old(loop.waits)| <= k < |loop.waits| ==> WaitsForAll(tasks, loop.waits[k], deadline.value)
    ensures forall k :: |old(loop.waits)| <= k < |loop.waits| - 1 ==> !(tasks <= loop.waits[k].done)
    ensures tasks <= old(loop.done) ==> loop.waits == old(loop.waits)
  {
    hide Reaction, Continues, Accumulated, Satisfied;
    if deadline.None? {
      return DeadlineRejected;
    }
    ghost var raised := loop.raised;
    var pending := tasks - loop.done;
    var withdrawal: Option<Error> := None;
    while pending != {}
      invariant loop.Advanced() && loop.failures == old(loop.failures)
      invariant loop.now <= Later(old(loop.now), deadline.value)
      invariant tasks - loop.done <= pending <= tasks
      invariant withdrawal == Accumulated(select, Since(loop.raised, raised))
      invariant forall k :: |old(loop.waits)| <= k < |loop.waits| ==> WaitsForAll(tasks, loop.waits[k], deadline.value)
      invariant forall k ::
        |old(loop.waits)| <= k < |loop.waits| - (if tasks <= loop.done then 1 else 0) ==> !(tasks <= loop.waits[k].done)
      invariant tasks <= old(loop.done) ==> loop.waits == old(loop.waits)
      invariant |old(loop.waits)| < |loop.waits| ==> loop.waits[|loop.waits| - 1].done == loop.done
      decreases pending, |loop.turns|, loop.now < deadline.value
    {
      pending := pending - loop.done;
      if pending == {} || loop.now >= deadline.value {
        break;
      }
      ghost var before := Since(loop.raised, raised);
      var w := loop.Wait(pending, true, deadline);
      SatisfiedByAll(pending, loop.done);
      if w.Failed? {
        return ObservationFailed(w.error);
      }
      if w.Interrupted? {
        withdrawal := Some(select(Present(withdrawal) + [w.error]));
        assert Since(loop.raised, raised) == before + [w.error];
        AccumulatedAppends(select, before, w.error);
      } else {
        assert Since(loop.raised, raised) == before;
        pending := pending - loop.done;
      }
    }
    return Snapshot.Observed(tasks - pending, pending, withdrawal);
  }
}
