/** `gather_owned`: admit every operation, observe the children, join whatever was accepted. */
module OwnedGather {
  import opened EventLoops
  import opened Options
  import opened OwnedTasks
  import opened Sequences

  /** What creating the task of one operation comes to. */
  datatype Op =
    | Accepted(task: Task)
    | PublicationFailed(task: Task, error: Error)   // accepted, then raised: the child exists
    | Refused(error: Error)

  datatype Gathering = Results(values: seq<Option<int>>) | Terminal(error: Error) | Unfinished

  /** The children of the operations that are attempted: with sibling cancellation, the first
      operation that fails is the last. */
  function Children(ops: seq<Op>, stop: bool): seq<Task> {
    if ops == [] then []
    else Child(ops[0]) + if stop && !ops[0].Accepted? then [] else Children(ops[1..], stop)
  }

  function Child(op: Op): seq<Task> {
    if op.Refused? then [] else [op.task]
  }

  predicate AllAccepted(ops: seq<Op>) {
    ops == [] || (ops[0].Accepted? && AllAccepted(ops[1..]))
  }

  lemma {:induction false} ChildrenInOrder(ops: seq<Op>, stop: bool)
    requires AllAccepted(ops)
    ensures |Children(ops, stop)| == |ops|
    ensures forall k :: 0 <= k < |ops| ==> ops[k].Accepted? && Children(ops, stop)[k] == ops[k].task
  {
    if ops != [] {
      ChildrenInOrder(ops[1..], stop);
    }
  }

  /** The children that a cancel pass reaches, in the order in which it reaches them. */
  function Running(children: seq<Task>, done: set<Task>): (r: seq<Task>)
    ensures forall t :: t in r <==> t in children && t !in done
  {
    if children == [] then []
    else (if children[0] in done then [] else [children[0]]) + Running(children[1..], done)
  }

  predicate Finished(children: seq<Task>, done: set<Task>) {
    forall t :: t in children ==> t in done
  }

  /** Some child is done and ended in an error. */
  predicate Failing(children: seq<Task>, ends: Task -> End, done: set<Task>) {
    exists t :: t in children && t in done && ends(t).Raises?
  }

  /** A wait that ends the observation: it raised, it is the only one of a race, it shows a failing
      child, or it leaves none to wait for. */
  predicate Ending(children: seq<Task>, ends: Task -> End, w: Awaited, race: bool) {
    !w.how.Woken? || race || Failing(children, ends, w.done) || Finished(children, w.done)
  }

  /** A wait for the next of those children that are left, however long it takes. */
  predicate WaitsForRest(children: seq<Task>, w: Awaited) {
    && !w.all && w.until.None?
    && (forall t :: t in w.tasks ==> t in children)
    && (forall t :: t in children ==> t in w.tasks || t in w.done)
  }

  /** The observation that began at wait `from` ended with wait `n`. */
  predicate EndedAt(children: seq<Task>, ends: Task -> End, waits: seq<Awaited>, race: bool, from: nat, n: int) {
    && from <= n < |waits|
    && Ending(children, ends, waits[n], race)
    && (forall k :: from <= k <= n ==> WaitsForRest(children, waits[k]))
    && forall k :: from <= k < n ==> !Ending(children, ends, waits[k], race)
  }

  /** Whom the cancel pass behind such an observation reaches. */
  function Passed(children: seq<Task>, ends: Task -> End, w: Awaited, stop: bool, race: bool): seq<Task> {
    if (race && w.how.Woken?) || (stop && (!w.how.Woken? || Failing(children, ends, w.done)))
    then Running(children, w.done)
    else []
  }

  /** What has been waited for when the admission is over: each child whose publication failed, in its
      turn.  With sibling cancellation the first operation that fails is the last. */
  ghost predicate Admits(ops: seq<Op>, stop: bool, waits0: seq<Awaited>, done0: set<Task>, waits: seq<Awaited>,
                         done: set<Task>)
  {
    if ops == [] then waits == waits0 && done == done0
    else
      match ops[0]
      case Accepted(_) => Admits(ops[1..], stop, waits0, done0, waits, done)
      case Refused(_) =>
        if stop then waits == waits0 && done == done0 else Admits(ops[1..], stop, waits0, done0, waits, done)
      case PublicationFailed(task, _) =>
        exists m, over ::
          0 <= m <= |waits| && task in over && WaitedFor(task, waits0, done0, waits[..m], over)
          && if stop then m == |waits| && over == done else Admits(ops[1..], stop, waits[..m], over, waits, done)
  }

  /** What the joins of one task have met. */
  datatype Met = Met(task: Task, cancels: seq<Error>, failures: seq<Error>)

  datatype Cause =
    | Refusal(error: Error)
    | Opening(error: Error)       // of an accepted child, which is joined on the spot
    | Disturbance(error: Error)   // the observation was cancelled, or failed
    | Showing(error: Error)       // the observation came upon a child that had failed

  /** What stands in the way of results before the final join. */
  datatype Trouble = Trouble(cause: Cause, met: Met)

  datatype Account = Account(admitted: seq<Trouble>, watched: Option<Trouble>, joins: seq<Met>)

  /** The trouble that the end of the observation shows, if any. */
  predicate Shows(children: seq<Task>, ends: Task -> End, w: Awaited, trouble: Option<Trouble>) {
    match w.how
    case Interrupted(e) => trouble.Some? && trouble.value.cause == Disturbance(e)
                           && trouble.value.met.cancels == [e] && trouble.value.met.failures == []
    case Failed(e) => trouble.Some? && trouble.value.cause == Disturbance(e)
                      && trouble.value.met.cancels == [] && trouble.value.met.failures == [e]
    case Woken => if Failing(children, ends, w.done) then trouble.Some? && ShowsChild(children, ends, w, trouble.value)
                  else trouble.None?
    case _ => false
  }

  predicate ShowsChild(children: seq<Task>, ends: Task -> End, w: Awaited, trouble: Trouble) {
    var t := trouble.met.task;
    && t in children && t in w.tasks * w.done
    && trouble.cause.Showing? && ends(t) == Raises(trouble.cause.error)
    && trouble.met.cancels == [] == trouble.met.failures
  }

  /** Whom the gather cancels once the admission is over, after `m` waits, and what the observation has
      come upon. */
  ghost predicate SendsAfter(ops: seq<Op>, stop: bool, race: bool, ends: Task -> End, waits: seq<Awaited>, m: nat,
                             done: set<Task>, cancels: seq<Task>, watched: Option<Trouble>)
  {
    var children := Children(ops, stop);
    if stop && !AllAccepted(ops) then cancels == Running(children, done) && watched.None?
    else if children == [] then cancels == [] && watched.None?
    else exists n :: EndedAt(children, ends, waits, race, m, n)
                     && cancels == Passed(children, ends, waits[n], stop, race)
                     && Shows(children, ends, waits[n], watched)
  }

  /** Which cancels the gather sends, and what its observation has come upon, from its operations and from
      how its waits ended. */
  ghost predicate Sends(ops: seq<Op>, stop: bool, race: bool, ends: Task -> End, waits0: seq<Awaited>, done0: set<Task>,
                        waits: seq<Awaited>, cancels: seq<Task>, watched: Option<Trouble>)
  {
    exists m, done :: 0 <= m <= |waits| && Admits(ops, stop, waits0, done0, waits[..m], done)
                      && SendsAfter(ops, stop, race, ends, waits, m, done, cancels, watched)
  }

  // ---------------------------------------------------------------- what the error is made of

  function OutcomeFor(select: Selector, ends: Task -> End, m: Met): Outcome {
    OutcomeOf(select, ends(m.task), Kept(None, m.cancels), m.failures, [])
  }

  function TroubleError(select: Selector, ends: Task -> End, t: Trouble): Error {
    if t.cause.Opening? then
      var o := OutcomeFor(select, ends, t.met);
      select([t.cause.error] + Present(o.error) + Present(o.cancellation))
    else t.cause.error
  }

  function TroubleErrors(select: Selector, ends: Task -> End, troubles: seq<Trouble>): seq<Error> {
    seq(|troubles|, i requires 0 <= i < |troubles| => TroubleError(select, ends, troubles[i]))
  }

  function Mets(troubles: seq<Trouble>): seq<Met> {
    seq(|troubles|, i requires 0 <= i < |troubles| => troubles[i].met)
  }

  function Troubles(a: Account): seq<Trouble> {
    if a.watched.Some? then a.admitted + [a.watched.value] else a.admitted
  }

  /** What one joined child adds to the errors: not its own plain cancellation. */
  function Selected(o: Outcome): seq<Error> {
    (if o.error.Some? && !o.error.value.Cancelled? then [o.error.value] else []) + Present(o.cancellation)
  }

  function JoinErrors(select: Selector, ends: Task -> End, joins: seq<Met>): seq<Error> {
    if joins == [] then []
    else JoinErrors(select, ends, joins[..|joins| - 1]) + Selected(OutcomeFor(select, ends, joins[|joins| - 1]))
  }

  /** Everything that stands in the way of results, as it is composed in the end. */
  function Problems(select: Selector, ends: Task -> End, a: Account): seq<Error> {
    Present(Accumulated(select, TroubleErrors(select, ends, Troubles(a)))) + JoinErrors(select, ends, a.joins)
  }

  function Cancels(mets: seq<Met>): seq<Error> {
    if mets == [] then [] else Cancels(mets[..|mets| - 1]) + mets[|mets| - 1].cancels
  }

  function Failures(mets: seq<Met>): seq<Error> {
    if mets == [] then [] else Failures(mets[..|mets| - 1]) + mets[|mets| - 1].failures
  }

  /** Whatever came out of the waits in between is in one of these, in its order. */
  predicate Brings(a: Record, b: Record, mets: seq<Met>) {
    b.raised == a.raised + Cancels(mets) && b.failures == a.failures + Failures(mets)
  }

  /** The operations that are attempted and not accepted. */
  function FailedOps(ops: seq<Op>, stop: bool): seq<Op> {
    if ops == [] then []
    else if ops[0].Accepted? then FailedOps(ops[1..], stop)
    else [ops[0]] + if stop then [] else FailedOps(ops[1..], stop)
  }

  predicate Fits(op: Op, t: Trouble) {
    match op
    case Accepted(_) => false
    case Refused(error) => t.cause == Refusal(error) && t.met.cancels == [] == t.met.failures
    case PublicationFailed(task, error) => t.cause == Opening(error) && t.met.task == task
  }

  predicate FitAll(failed: seq<Op>, troubles: seq<Trouble>) {
    |troubles| == |failed| && forall k :: 0 <= k < |failed| ==> Fits(failed[k], troubles[k])
  }

  /** The account of a whole gather. */
  predicate Recounts(ops: seq<Op>, stop: bool, a: Account, before: Record, after: Record) {
    && FitAll(FailedOps(ops, stop), a.admitted)
    && |a.joins| == |Children(ops, stop)|
    && (forall k :: 0 <= k < |a.joins| ==> a.joins[k].task == Children(ops, stop)[k])
    && Brings(before, after, Mets(Troubles(a)) + a.joins)
  }

  /** The join of a task brings evidence: its own error does, or a failure in observing it, or the first
      cancellation. */
  predicate FaultKeeps(ends: Task -> End, m: Met, keeps: Error -> bool) {
    || (ends(m.task).Raises? && keeps(ends(m.task).error))
    || exists f :: f in m.failures && keeps(f)
  }

  predicate CancelKeeps(m: Met, keeps: Error -> bool) {
    m.cancels != [] && keeps(m.cancels[0])
  }

  predicate TroubleKeeps(ends: Task -> End, t: Trouble, keeps: Error -> bool) {
    keeps(t.cause.error) || (t.cause.Opening? && (FaultKeeps(ends, t.met, keeps) || CancelKeeps(t.met, keeps)))
  }

  /** At the final join a fault counts unless it comes to a plain cancellation. */
  predicate JoinKeeps(select: Selector, ends: Task -> End, m: Met, keeps: Error -> bool) {
    var o := OutcomeFor(select, ends, m);
    (o.error.Some? && !o.error.value.Cancelled? && FaultKeeps(ends, m, keeps)) || CancelKeeps(m, keeps)
  }

  lemma OutcomeKeeps(select: Selector, ends: Task -> End, m: Met, keeps: Error -> bool)
    requires Retains(select, keeps)
    ensures
      var o := OutcomeFor(select, ends, m);
      && (o.error.Some? ==> (keeps(o.error.value) <==> FaultKeeps(ends, m, keeps)))
      && (o.error.None? ==> !FaultKeeps(ends, m, keeps))
      && (o.cancellation.Some? && keeps(o.cancellation.value) <==> CancelKeeps(m, keeps))
  {
    ComposedIsMadeOf(select, ends(m.task), m.failures, [], keeps);
  }

  lemma TroubleErrorKeeps(select: Selector, ends: Task -> End, t: Trouble, keeps: Error -> bool)
    requires Retains(select, keeps)
    ensures keeps(TroubleError(select, ends, t)) <==> TroubleKeeps(ends, t, keeps)
  {
    if t.cause.Opening? {
      OutcomeKeeps(select, ends, t.met, keeps);
      var o := OutcomeFor(select, ends, t.met);
      var parts := [t.cause.error] + Present(o.error) + Present(o.cancellation);
      assert parts[0] == t.cause.error;
      assert forall e :: e in parts <==> e == t.cause.error || e in Present(o.error) || e in Present(o.cancellation);
      hide OutcomeFor, FaultKeeps, CancelKeeps;
      assert keeps(select(parts)) <==> exists e :: e in parts && keeps(e);
      assert o.error.Some? ==> o.error.value in parts;
      assert o.cancellation.Some? ==> o.cancellation.value in parts;
    }
  }

  lemma {:induction false} AccumulatedKeeps(select: Selector, errors: seq<Error>, keeps: Error -> bool)
    requires Retains(select, keeps) && errors != []
    ensures keeps(Accumulated(select, errors).value) <==> exists e :: e in errors && keeps(e)
  {
    var before, last := errors[..|errors| - 1], errors[|errors| - 1];
    assert errors == before + [last];
    var parts := Present(Accumulated(select, before)) + [last];
    assert last in parts;
    if before != [] {
      AccumulatedKeeps(select, before, keeps);
      assert Accumulated(select, before).value in parts;
    }
  }

  lemma {:induction false} JoinErrorsKeep(select: Selector, ends: Task -> End, joins: seq<Met>, keeps: Error -> bool)
    requires Retains(select, keeps)
    ensures (exists e :: e in JoinErrors(select, ends, joins) && keeps(e))
       <==> exists m :: m in joins && JoinKeeps(select, ends, m, keeps)
  {
    hide OutcomeFor, FaultKeeps, CancelKeeps, Retains;
    if joins != [] {
      var before, last := joins[..|joins| - 1], joins[|joins| - 1];
      assert joins == before + [last];
      JoinErrorsKeep(select, ends, before, keeps);
      OutcomeKeeps(select, ends, last, keeps);
      var o := OutcomeFor(select, ends, last);
      assert o.cancellation.Some? ==> o.cancellation.value in Selected(o);
      assert (exists e :: e in Selected(o) && keeps(e)) <==> JoinKeeps(select, ends, last, keeps);
    }
  }

  /** Evidence comes out of the gather exactly if something that stood in the way of results carries it:
      nothing is lost on the way, and nothing is made up. */
  lemma WhatIsRaisedIsMadeOf(select: Selector, ends: Task -> End, a: Account, keeps: Error -> bool)
    requires Retains(select, keeps) && Problems(select, ends, a) != []
    ensures keeps(select(Problems(select, ends, a)))
       <==> || (exists t :: t in Troubles(a) && TroubleKeeps(ends, t, keeps))
            || (exists m :: m in a.joins && JoinKeeps(select, ends, m, keeps))
  {
    hide TroubleKeeps, JoinKeeps, TroubleError, JoinErrors;
    var troubles, errors := Troubles(a), TroubleErrors(select, ends, Troubles(a));
    var primary, problems := Accumulated(select, errors), Problems(select, ends, a);
    JoinErrorsKeep(select, ends, a.joins, keeps);
    forall k | 0 <= k < |troubles|
      ensures keeps(errors[k]) <==> TroubleKeeps(ends, troubles[k], keeps)
    {
      TroubleErrorKeeps(select, ends, troubles[k], keeps);
    }
    EvidenceAmong(troubles, errors, ends, keeps);
    assert forall e :: e in problems <==> e in Present(primary) || e in JoinErrors(select, ends, a.joins);
    if errors != [] {
      AccumulatedKeeps(select, errors, keeps);
      assert primary.value in problems;
    }
  }

  /** Control, wherever there is any, else the first error. */
  function ControlFirst(errors: seq<Error>): Error {
    if errors == [] then Ordinary(0)
    else if errors[0].Control? || forall e :: e in errors ==> !e.Control? then errors[0]
    else ControlFirst(errors[1..])
  }

  lemma {:induction false} ControlFirstKeeps(errors: seq<Error>)
    ensures errors != [] ==> (ControlFirst(errors).Control? <==> exists e :: e in errors && e.Control?)
  {
    if errors != [] {
      ControlFirstKeeps(errors[1..]);
      assert errors == [errors[0]] + errors[1..];
    }
  }

  /** There is such a composition, with evidence that not every error carries. */
  lemma ControlIsRetained()
    ensures Retains(errors => ControlFirst(errors), (e: Error) => e.Control?)
  {
    forall errors: seq<Error> | errors != []
      ensures ControlFirst(errors).Control? <==> exists e :: e in errors && e.Control?
    {
      ControlFirstKeeps(errors);
    }
  }

  lemma EvidenceAmong(troubles: seq<Trouble>, errors: seq<Error>, ends: Task -> End, keeps: Error -> bool)
    requires |errors| == |troubles|
    requires forall k :: 0 <= k < |troubles| ==> (keeps(errors[k]) <==> TroubleKeeps(ends, troubles[k], keeps))
    ensures (exists e :: e in errors && keeps(e)) <==> exists t :: t in troubles && TroubleKeeps(ends, t, keeps)
  {
    hide TroubleKeeps;
    if e :| e in errors && keeps(e) {
      var k :| 0 <= k < |errors| && errors[k] == e;
      assert troubles[k] in troubles;
    }
    if t :| t in troubles && TroubleKeeps(ends, t, keeps) {
      var k :| 0 <= k < |troubles| && troubles[k] == t;
      assert errors[k] in errors;
    }
  }

  lemma {:induction false} BringsOn(a: Record, b: Record, c: Record, mets: seq<Met>, more: seq<Met>)
    requires Brings(a, b, mets) && Brings(b, c, more)
    ensures Brings(a, c, mets + more)
    decreases |more|
  {
    if more == [] {
      assert mets + more == mets;
      Regroup(a.raised, Cancels(mets), []);
      Regroup(a.failures, Failures(mets), []);
    } else {
      var init, last := more[..|more| - 1], more[|more| - 1];
      assert (mets + more)[..|mets + more| - 1] == mets + init;
      var d := b.(raised := b.raised + Cancels(init), failures := b.failures + Failures(init));
      BringsOn(a, b, d, mets, init);
      Regroup(b.raised, Cancels(init), last.cancels);
      Regroup(b.failures, Failures(init), last.failures);
      Regroup(a.raised, Cancels(mets + init), last.cancels);
      Regroup(a.failures, Failures(mets + init), last.failures);
    }
  }

  lemma BringsNothing(a: Record, b: Record)
    requires a.raised == b.raised && a.failures == b.failures
    ensures Brings(a, b, [])
  {
  }

  lemma BringsOnly(a: Record, b: Record, c: Record, m: Met)
    requires Brings(a, b, [])
    requires Brings(b, c, [m])
          || (b.raised == c.raised && b.failures == c.failures && m.cancels == [] == m.failures)
    ensures Brings(a, c, [m])
  {
    if b.raised == c.raised && b.failures == c.failures && m.cancels == [] == m.failures {
      BringsOne(b, c, m);
    }
    BringsOn(a, b, c, [], [m]);
    assert [] + [m] == [m];
  }

  /** Cancels that are sent make no difference. */
  lemma BringsAlike(a: Record, b: Record, c: Record, mets: seq<Met>)
    requires Brings(a, b, mets) && b.raised == c.raised && b.failures == c.failures
    ensures Brings(a, c, mets)
  {
  }

  lemma BringsOne(a: Record, b: Record, m: Met)
    requires b.raised == a.raised + m.cancels && b.failures == a.failures + m.failures
    ensures Brings(a, b, [m])
  {
    assert [m][..0] == [];
    assert Cancels([m]) == m.cancels && Failures([m]) == m.failures;
  }

  // ---------------------------------------------------------------- admission

  /** The account of the admission so far. */
  predicate Tells(select: Selector, ends: Task -> End, failed: seq<Op>, troubles: seq<Trouble>, primary: Option<Error>,
                  a: Record, b: Record)
  {
    && FitAll(failed, troubles)
    && primary == Accumulated(select, TroubleErrors(select, ends, troubles))
    && Brings(a, b, Mets(troubles))
  }

  lemma TellsNothing(select: Selector, ends: Task -> End, a: Record)
    ensures Tells(select, ends, [], [], None, a, a)
  {
    assert TroubleErrors(select, ends, []) == [] && Mets([]) == [];
    BringsNothing(a, a);
  }

  lemma OneMoreError(select: Selector, ends: Task -> End, troubles: seq<Trouble>, t: Trouble)
    ensures Accumulated(select, TroubleErrors(select, ends, troubles + [t]))
         == Some(select(Present(Accumulated(select, TroubleErrors(select, ends, troubles)))
                        + [TroubleError(select, ends, t)]))
    ensures Mets(troubles + [t]) == Mets(troubles) + [t.met]
  {
    assert TroubleErrors(select, ends, troubles + [t])
        == TroubleErrors(select, ends, troubles) + [TroubleError(select, ends, t)];
    AccumulatedAppends(select, TroubleErrors(select, ends, troubles), TroubleError(select, ends, t));
  }

  lemma TellsMore(select: Selector, ends: Task -> End, failed: seq<Op>, troubles: seq<Trouble>, primary: Option<Error>,
                  a: Record, b: Record, op: Op, t: Trouble, c: Record)
    requires Tells(select, ends, failed, troubles, primary, a, b)
    requires Fits(op, t) && Brings(b, c, [t.met])
    ensures Tells(select, ends, failed + [op], troubles + [t],
                  Some(select(Present(primary) + [TroubleError(select, ends, t)])), a, c)
  {
    hide Accumulated, TroubleErrors, TroubleError, Mets, Brings, Fits;
    OneMoreError(select, ends, troubles, t);
    BringsOn(a, b, c, Mets(troubles), [t.met]);
  }

  /** One pass of the admission loop: a child whose publication failed is joined on the spot. */
  method Admit(loop: EventLoop, select: Selector, op: Op) 
    returns (error: Option<Error>, hung: bool, ghost trouble: Option<Trouble>)
    modifies loop
    ensures loop.Advanced() && loop.sent == old(loop.sent)
    ensures hung ==> op.PublicationFailed? && loop.turns == []
    ensures op.Accepted? ==> unchanged(loop)
    ensures !hung ==> (error.None? <==> op.Accepted?)
    ensures !hung && op.PublicationFailed? ==>
      op.task in loop.done && WaitedFor(op.task, old(loop.waits), old(loop.done), loop.waits, loop.done)
    ensures op.Refused? ==> unchanged(loop)
    ensures !hung ==> if op.Accepted? then trouble.None? else trouble.Some? && Fits(op, trouble.value)
    ensures !hung && trouble.Some? ==>
      && error == Some(TroubleError(select, loop.ends, trouble.value))
      && Brings(old(RecordOf(loop)), RecordOf(loop), [trouble.value.met])
  {
    hide Reaction, Continues, WaitedFor, Timed, FailedIn, Brings, OutcomeOf, Kept;
    error, hung, trouble := None, false, None;
    ghost var before := RecordOf(loop);
    match op {
      case Accepted(_) =>
      case Refused(refusal) =>
        error := Some(refusal);
        trouble := Some(Trouble(Refusal(refusal), Met(0, [], [])));
        BringsOne(before, before, Met(0, [], []));
      case PublicationFailed(task, opening) =>
        var j := AwaitOwnedTask(loop, select, task, None, NoForward, Admitted, None);
        if j.Joined? {
          error := Some(select([opening] + Present(j.outcome.error) + Present(j.outcome.cancellation)));
          ghost var met := Met(task, Since(loop.raised, old(loop.raised)), Since(loop.failures, old(loop.failures)));
          trouble := Some(Trouble(Opening(opening), met));
          NoFaults(met.failures);
          BringsOne(before, RecordOf(loop), met);
        } else {
          hung := true;
        }
    }
  }

  /** Whatever the rest of the operations come to from here, all of them come to from the beginning. */
  ghost predicate Onward(rest: seq<Op>, ops: seq<Op>, stop: bool, waits: seq<Awaited>, done: set<Task>,
                         waits0: seq<Awaited>, done0: set<Task>)
  {
    forall later, end :: Admits(rest, stop, waits, done, later, end) ==> Admits(ops, stop, waits0, done0, later, end)
  }

  lemma {:induction false} AdmissionGoesOn(ops: seq<Op>, stop: bool, waits0: seq<Awaited>, done0: set<Task>,
                                           waits: seq<Awaited>, done: set<Task>)
    requires Admits(ops, stop, waits0, done0, waits, done)
    ensures waits0 <= waits
  {
    if ops != [] && !(stop && ops[0].Refused?) {
      if ops[0].PublicationFailed? {
        var m, over :| 0 <= m <= |waits| && ops[0].task in over
          && WaitedFor(ops[0].task, waits0, done0, waits[..m], over)
          && if stop then m == |waits| && over == done else Admits(ops[1..], stop, waits[..m], over, waits, done);
      } else {
        AdmissionGoesOn(ops[1..], stop, waits0, done0, waits, done);
      }
    }
  }

  lemma NoneAdmitted(ops: seq<Op>, stop: bool, waits: seq<Awaited>, done: set<Task>)
    ensures Onward(ops, ops, stop, waits, done, waits, done)
  {
  }

  lemma AllAdmitted(ops: seq<Op>, stop: bool, waits: seq<Awaited>, done: set<Task>, waits0: seq<Awaited>,
                    done0: set<Task>)
    requires Onward([], ops, stop, waits, done, waits0, done0)
    ensures Admits(ops, stop, waits0, done0, waits, done)
  {
    assert Admits([], stop, waits, done, waits, done);
  }

  lemma AdmittedOne(op: Op, rest: seq<Op>, ops: seq<Op>, stop: bool, waits: seq<Awaited>, done: set<Task>,
                    now: seq<Awaited>, doneNow: set<Task>, waits0: seq<Awaited>, done0: set<Task>)
    requires Onward([op] + rest, ops, stop, waits, done, waits0, done0)
    requires if op.PublicationFailed? then op.task in doneNow && WaitedFor(op.task, waits, done, now, doneNow)
             else now == waits && doneNow == done
    ensures if stop && !op.Accepted? then Admits(ops, stop, waits0, done0, now, doneNow)
            else Onward(rest, ops, stop, now, doneNow, waits0, done0)
  {
    hide WaitedFor;
    assert ([op] + rest)[1..] == rest;
    assert now[..|now|] == now;
    if stop && !op.Accepted? {
      assert Admits([op] + rest, stop, waits, done, now, doneNow);
    } else {
      forall later, end | Admits(rest, stop, now, doneNow, later, end)
        ensures Admits(ops, stop, waits0, done0, later, end)
      {
        AdmissionGoesOn(rest, stop, now, doneNow, later, end);
        assert later[..|now|] == now;
        assert Admits([op] + rest, stop, waits, done, later, end);
      }
    }
  }

  /** What is left of the operations completes what has been done. */
  predicate Covers(children: seq<Task>, failed: seq<Op>, rest: seq<Op>, ops: seq<Op>, stop: bool) {
    && children + Children(rest, stop) == Children(ops, stop)
    && failed + FailedOps(rest, stop) == FailedOps(ops, stop)
    && (if failed == [] then AllAccepted(rest) <==> AllAccepted(ops) else !AllAccepted(ops))
  }

  lemma CoversNothing(ops: seq<Op>, stop: bool)
    ensures Covers([], [], ops, ops, stop)
  {
  }

  lemma CoversOne(children: seq<Task>, failed: seq<Op>, op: Op, rest: seq<Op>, ops: seq<Op>, stop: bool)
    requires Covers(children, failed, [op] + rest, ops, stop)
    ensures if op.Accepted? then Covers(children + Child(op), failed, rest, ops, stop)
            else if stop then
              children + Child(op) == Children(ops, stop) && failed + [op] == FailedOps(ops, stop) && !AllAccepted(ops)
            else Covers(children + Child(op), failed + [op], rest, ops, stop)
    ensures !op.Accepted? ==> !AllAccepted(ops)
  {
    assert ([op] + rest)[1..] == rest;
    Regroup(children, Child(op), if stop && !op.Accepted? then [] else Children(rest, stop));
    Regroup(failed, [op], if stop then [] else FailedOps(rest, stop));
    assert failed + [op] + [] == failed + [op] && children + Child(op) + [] == children + Child(op);
  }

  lemma CoversAll(children: seq<Task>, failed: seq<Op>, ops: seq<Op>, stop: bool)
    requires Covers(children, failed, [], ops, stop)
    ensures children == Children(ops, stop) && failed == FailedOps(ops, stop)
    ensures failed == [] <==> AllAccepted(ops)
  {
  }

  method AdmitAll(loop: EventLoop, select: Selector, ops: seq<Op>, stop: bool)
    returns (children: seq<Task>, primary: Option<Error>, hung: bool, ghost troubles: seq<Trouble>)
    modifies loop
    ensures loop.Advanced() && loop.sent == old(loop.sent)
    ensures hung ==> loop.turns == []
    ensures !hung ==> children == Children(ops, stop)
    ensures !hung ==> (primary.None? <==> AllAccepted(ops))
    ensures AllAccepted(ops) ==> !hung && unchanged(loop)
    ensures !hung ==> Admits(ops, stop, old(loop.waits), old(loop.done), loop.waits, loop.done)
    ensures !hung ==>
      Tells(select, loop.ends, FailedOps(ops, stop), troubles, primary, old(RecordOf(loop)), RecordOf(loop))
  {
    hide Reaction, Continues, WaitedFor, Admits, Onward, Tells, Brings, TroubleError, Fits, Covers, Children, FailedOps,
      AllAccepted;
    children, primary, hung, troubles := [], None, false, [];
    ghost var failed: seq<Op>, start := [], RecordOf(loop);
    TellsNothing(select, loop.ends, start);
    NoneAdmitted(ops, stop, loop.waits, loop.done);
    CoversNothing(ops, stop);
    var rest := ops;
    while rest != []
      invariant loop.Advanced() && loop.sent == old(loop.sent)
      invariant !hung
      invariant Covers(children, failed, rest, ops, stop)
      invariant if failed == [] then primary.None? && unchanged(loop) else primary.Some? && !stop
      invariant Onward(rest, ops, stop, loop.waits, loop.done, old(loop.waits), old(loop.done))
      invariant Tells(select, loop.ends, failed, troubles, primary, start, RecordOf(loop))
    {
      ghost var waits, done, record := loop.waits, loop.done, RecordOf(loop);
      var op := rest[0];
      assert [op] + rest[1..] == rest;
      rest := rest[1..];
      var error: Option<Error>;
      ghost var trouble;
      error, hung, trouble := Admit(loop, select, op);
      CoversOne(children, failed, op, rest, ops, stop);
      if hung {
        return;
      }
      AdmittedOne(op, rest, ops, stop, waits, done, loop.waits, loop.done, old(loop.waits), old(loop.done));
      children := children + Child(op);
      if error.Some? {
        TellsMore(select, loop.ends, failed, troubles, primary, start, record, op, trouble.value, RecordOf(loop));
        failed, troubles := failed + [op], troubles + [trouble.value];
        primary := Some(select(Present(primary) + [error.value]));
        if stop {
          return;
        }
      }
    }
    AllAdmitted(ops, stop, loop.waits, loop.done, old(loop.waits), old(loop.done));
    CoversAll(children, failed, ops, stop);
  }

  // ---------------------------------------------------------------- observation

  /** In the middle of the observation that began at wait `from`: the children not waited for any more
      have ended, and not in an error. */
  predicate Watching(children: seq<Task>, ends: Task -> End, race: bool, waits: seq<Awaited>, from: nat,
                     pending: set<Task>, done: set<Task>)
  {
    && from <= |waits| && pending != {}
    && (forall t :: t in pending ==> t in children)
    && (forall t :: t in children && t !in pending ==> t in done && !ends(t).Raises?)
    && (race ==> |waits| == from)
    && forall k :: from <= k < |waits| ==> WaitsForRest(children, waits[k]) && !Ending(children, ends, waits[k], race)
  }

  /** The observation is over, and this is what it has come upon. */
  predicate Seen(children: seq<Task>, ends: Task -> End, race: bool, waits: seq<Awaited>, from: nat, done: set<Task>,
                 trouble: Option<Trouble>, observed: bool)
  {
    if children == [] then !observed && trouble.None? && |waits| == from
    else
      && from < |waits|
      && var w := waits[|waits| - 1];
      && EndedAt(children, ends, waits, race, from, |waits| - 1) && w.done == done
      && Shows(children, ends, w, trouble)
      && (race ==> |waits| == from + 1)
      && (observed <==> race && w.how.Woken?)
  }

  lemma WatchingAll(children: seq<Task>, ends: Task -> End, race: bool, waits: seq<Awaited>, pending: set<Task>,
                    done: set<Task>)
    requires pending == set t | t in children
    ensures if pending == {} then Seen(children, ends, race, waits, |waits|, done, None, false)
            else Watching(children, ends, race, waits, |waits|, pending, done)
  {
    if children != [] {
      assert children[0] in pending;
    }
  }

  /** A disturbance of the observation. */
  function TroubleOf(w: Awaited): Trouble
    requires w.how.Interrupted? || w.how.Failed?
  {
    Trouble(Disturbance(w.how.error), Met(0, if w.how.Interrupted? then [w.how.error] else [],
                                          if w.how.Failed? then [w.how.error] else []))
  }

  lemma SeenDisturbed(children: seq<Task>, ends: Task -> End, race: bool, waits: seq<Awaited>, from: nat,
                      pending: set<Task>, done: set<Task>, last: Awaited)
    requires Watching(children, ends, race, waits, from, pending, done) && done <= last.done
    requires last.tasks == pending && !last.all && last.until.None? && (last.how.Interrupted? || last.how.Failed?)
    ensures Seen(children, ends, race, waits + [last], from, last.done, Some(TroubleOf(last)), false)
  {
  }

  lemma SeenFailing(children: seq<Task>, ends: Task -> End, race: bool, waits: seq<Awaited>, from: nat,
                    pending: set<Task>, done: set<Task>, last: Awaited, t: Task)
    requires Watching(children, ends, race, waits, from, pending, done) && done <= last.done
    requires last.tasks == pending && !last.all && last.until.None? && last.how.Woken?
    requires t in pending * last.done && ends(t).Raises?
    ensures Seen(children, ends, race, waits + [last], from, last.done,
                 Some(Trouble(Showing(ends(t).error), Met(t, [], []))), race)
  {
  }

  lemma WatchingLess(children: seq<Task>, ends: Task -> End, race: bool, waits: seq<Awaited>, from: nat,
                     pending: set<Task>, done: set<Task>, last: Awaited)
    requires Watching(children, ends, race, waits, from, pending, done) && done <= last.done
    requires last.tasks == pending && !last.all && last.until.None? && last.how.Woken?
    requires forall t :: t in pending * last.done ==> !ends(t).Raises?
    ensures
      var left := pending - pending * last.done;
      if race || left == {} then Seen(children, ends, race, waits + [last], from, last.done, None, race)
      else Watching(children, ends, race, waits + [last], from, left, last.done)
  {
    var left := pending - pending * last.done;
    var p :| p in pending;
    assert children != [];
    assert !Failing(children, ends, last.done);
    if left != {} {
      var t :| t in left;
      assert t in children && t !in last.done;
    } else {
      forall t | t in children
        ensures t in last.done
      {
        assert t !in left;
      }
      assert Finished(children, last.done);
    }
  }

  /** What the end of the observation says of the children. */
  lemma SeenMeans(children: seq<Task>, ends: Task -> End, race: bool, waits: seq<Awaited>, from: nat, done: set<Task>,
                  trouble: Option<Trouble>, observed: bool)
    requires Seen(children, ends, race, waits, from, done, trouble, observed)
    ensures trouble.None? ==> if race then observed == (children != []) else Finished(children, done)
    ensures trouble.Some? ==> !trouble.value.cause.Opening?
    ensures Failing(children, ends, done) ==> trouble.Some?
    ensures trouble.Some? && trouble.value.met.cancels == [] == trouble.value.met.failures ==>
      Failing(children, ends, done)
    ensures race && children != [] ==> |waits| == from + 1 && waits[from].done == done
    ensures observed ==> race
    ensures children == [] ==> trouble.None?
  {
  }

  lemma BroughtBy(a: Record, b: Record, trouble: Option<Trouble>)
    requires Brings(a, b, if trouble.None? then [] else [trouble.value.met])
    ensures b.raised == a.raised && b.failures == a.failures
       <==> trouble.None? || trouble.value.met.cancels == [] == trouble.value.met.failures
  {
    if trouble.Some? {
      var m := trouble.value.met;
      assert [m][..0] == [];
      assert Cancels([m]) == [] + m.cancels && Failures([m]) == [] + m.failures;
    }
  }

  /** One suspension of the observation. */
  method AwaitSome(loop: EventLoop, pending: set<Task>) returns (w: Wake)
    modifies loop`turns, loop`now, loop`done, loop`raised, loop`failures, loop`raisedAt, loop`waits
    ensures loop.Advanced()
    ensures loop.waits == old(loop.waits) + [Awaited(pending, false, None, w, loop.now, loop.done)]
    ensures
      var last := Awaited(pending, false, None, w, loop.now, loop.done);
      if w.Interrupted? || w.Failed? then Brings(old(RecordOf(loop)), RecordOf(loop), [TroubleOf(last).met])
      else loop.raised == old(loop.raised) && loop.failures == old(loop.failures)
    ensures w.Woken? ==> pending * loop.done != {}
    ensures w.Hung? ==> loop.turns == []
    ensures !w.TimedOut?
  {
    hide Reaction, Continues, Brings;
    ghost var before := RecordOf(loop);
    w := loop.Wait(pending, false, None);
    ghost var last := Awaited(pending, false, None, w, loop.now, loop.done);
    if w.Interrupted? || w.Failed? {
      assert loop.raised + [] == loop.raised && loop.failures + [] == loop.failures;
      BringsOne(before, RecordOf(loop), TroubleOf(last).met);
    }
  }

  /** Waits for the children one completion at a time, until an error, the first outcome of a race,
      or the end. */
  method Observe(loop: EventLoop, select: Selector, children: seq<Task>, race: bool, known: Option<Error>)
    returns (primary: Option<Error>, observed: bool, hung: bool, ghost trouble: Option<Trouble>)
    modifies loop`turns, loop`now, loop`done, loop`raised, loop`failures, loop`raisedAt, loop`waits
    ensures loop.Advanced()
    ensures hung ==> loop.turns == []
    ensures !hung ==>
      && Seen(children, loop.ends, race, loop.waits, |old(loop.waits)|, loop.done, trouble, observed)
      && primary == (if trouble.None? then known else Some(select(Present(known) + [trouble.value.cause.error])))
      && Brings(old(RecordOf(loop)), RecordOf(loop), if trouble.None? then [] else [trouble.value.met])
  {
    hide Watching, Seen, Brings;
    primary, observed, hung, trouble := known, false, false, None;
    ghost var before := RecordOf(loop);
    BringsNothing(before, before);
    ghost var from := |loop.waits|;
    var pending := set t | t in children;
    WatchingAll(children, loop.ends, race, loop.waits, pending, loop.done);
    var over := pending == {};
    while !over
      invariant loop.Advanced() && from <= |loop.waits|
      invariant if over then Seen(children, loop.ends, race, loop.waits, from, loop.done, trouble, observed)
                else Watching(children, loop.ends, race, loop.waits, from, pending, loop.done) && trouble.None?
      invariant !over ==> !observed
      invariant primary == if trouble.None? then known else Some(select(Present(known) + [trouble.value.cause.error]))
      invariant Brings(before, RecordOf(loop), if trouble.None? then [] else [trouble.value.met])
      decreases !over, pending
    {
      ghost var waits, done, record := loop.waits, loop.done, RecordOf(loop);
      var w := AwaitSome(loop, pending);
      ghost var last := Awaited(pending, false, None, w, loop.now, loop.done);
      if w.Hung? {
        hung := true;
        return;
      }
      if !w.Woken? {
        SeenDisturbed(children, loop.ends, race, waits, from, pending, done, last);
        BringsOnly(before, record, RecordOf(loop), TroubleOf(last).met);
        trouble, primary, over := Some(TroubleOf(last)), Some(select(Present(known) + [w.error])), true;
      } else {
        BringsAlike(before, record, RecordOf(loop), []);
        var finished := pending * loop.done;
        observed := race;
        if t :| t in finished && loop.ends(t).Raises? {
          SeenFailing(children, loop.ends, race, waits, from, pending, done, last, t);
          trouble := Some(Trouble(Showing(loop.ends(t).error), Met(t, [], [])));
          BringsOnly(before, record, RecordOf(loop), trouble.value.met);
          primary, over := Some(select(Present(known) + [loop.ends(t).error])), true;
        } else {
          WatchingLess(children, loop.ends, race, waits, from, pending, done, last);
          pending := pending - finished;
          over := race || pending == {};
        }
      }
    }
  }

  // ---------------------------------------------------------------- the cancel pass and the join

  method CancelRunning(loop: EventLoop, children: seq<Task>)
    modifies loop`sent, loop`sentAt
    ensures loop.sent == old(loop.sent) + Running(children, loop.done)
  {
    var rest := children;
    while rest != []
      invariant loop.sent + Running(rest, loop.done) == old(loop.sent) + Running(children, loop.done)
    {
      var child := rest[0];
      rest := rest[1..];
      Regroup(loop.sent, if child in loop.done then [] else [child], Running(rest, loop.done));
      if child !in loop.done {
        loop.Cancel(child);
      }
    }
  }

  function ResultOf(e: End): Option<int> {
    if e.Value? then Some(e.value) else None
  }

  /** A child that ends the gather with no error of its own: by a value or by a plain cancellation. */
  predicate Harmless(select: Selector, e: End) {
    e.Value? || select([e.error]).Cancelled?
  }

  method Join(loop: EventLoop, select: Selector, child: Task)
    returns (result: Option<int>, errors: seq<Error>, hung: bool, ghost met: Met)
    modifies loop
    ensures loop.Advanced() && loop.sent == old(loop.sent)
    ensures if hung then loop.turns == [] else child in loop.done
    ensures !hung && loop.failures == old(loop.failures) ==> result == ResultOf(loop.ends(child))
    ensures !hung && errors == [] ==> loop.raised == old(loop.raised)
    ensures child in old(loop.done) ==>
      !hung && loop.raised == old(loop.raised) && loop.failures == old(loop.failures)
    ensures !hung && loop.raised == old(loop.raised) && loop.failures == old(loop.failures) ==>
      (errors == [] <==> Harmless(select, loop.ends(child)))
    ensures Brings(old(RecordOf(loop)), RecordOf(loop), [met]) && met.task == child
    ensures !hung ==>
      result == OutcomeFor(select, loop.ends, met).result && errors == Selected(OutcomeFor(select, loop.ends, met))
  {
    hide Reaction, Continues, WaitedFor, Timed, FailedIn, Brings;
    ghost var before := RecordOf(loop);
    var j := AwaitOwnedTask(loop, select, child, None, NoForward, Admitted, None);
    met := Met(child, Since(loop.raised, old(loop.raised)), Since(loop.failures, old(loop.failures)));
    BringsOne(before, RecordOf(loop), met);
    NoFaults(met.failures);
    if !j.Joined? {
      return None, [], true, met;
    }
    return j.outcome.result, Selected(j.outcome), false, met;
  }

  predicate Succeeds(children: seq<Task>, ends: Task -> End) {
    forall t :: t in children ==> ends(t).Value?
  }

  lemma NoJoinErrors(select: Selector, ends: Task -> End)
    ensures JoinErrors(select, ends, []) == []
  {
  }

  lemma OneMoreJoin(select: Selector, ends: Task -> End, joins: seq<Met>, m: Met)
    ensures JoinErrors(select, ends, joins + [m])
         == JoinErrors(select, ends, joins) + Selected(OutcomeFor(select, ends, m))
  {
    assert (joins + [m])[..|joins|] == joins;
  }

  method JoinAll(loop: EventLoop, select: Selector, children: seq<Task>)
    returns (results: seq<Option<int>>, errors: seq<Error>, hung: bool, ghost joins: seq<Met>)
    modifies loop
    ensures loop.Advanced() && loop.sent == old(loop.sent)
    ensures if hung then loop.turns == [] else Finished(children, loop.done) && |results| == |children|
    ensures !hung && loop.failures == old(loop.failures) ==>
      forall k :: 0 <= k < |children| ==> results[k] == ResultOf(loop.ends(children[k]))
    ensures !hung && errors == [] ==> loop.raised == old(loop.raised)
    ensures Finished(children, old(loop.done)) ==>
      !hung && loop.raised == old(loop.raised) && loop.failures == old(loop.failures)
    ensures !hung && loop.raised == old(loop.raised) && loop.failures == old(loop.failures) ==>
      (errors == [] <==> forall t :: t in children ==> Harmless(select, loop.ends(t)))
    ensures !hung ==>
      && |joins| == |children| && errors == JoinErrors(select, loop.ends, joins)
      && (forall k :: 0 <= k < |joins| ==>
            joins[k].task == children[k] && results[k] == OutcomeFor(select, loop.ends, joins[k]).result)
      && Brings(old(RecordOf(loop)), RecordOf(loop), joins)
  {
    hide OutcomeFor, Brings, JoinErrors, Selected;
    results, errors, hung, joins := [], [], false, [];
    ghost var before := RecordOf(loop);
    BringsNothing(before, before);
    NoJoinErrors(select, loop.ends);
    for i := 0 to |children|
      invariant loop.Advanced() && loop.sent == old(loop.sent)
      invariant |results| == i
      invariant forall k :: 0 <= k < i ==> children[k] in loop.done
      invariant errors == [] ==> loop.raised == old(loop.raised)
      invariant loop.failures == old(loop.failures) ==>
        forall k :: 0 <= k < i ==> results[k] == ResultOf(loop.ends(children[k]))
      invariant Finished(children, old(loop.done)) ==>
        loop.raised == old(loop.raised) && loop.failures == old(loop.failures)
      invariant loop.raised == old(loop.raised) && loop.failures == old(loop.failures) ==>
        (errors == [] <==> forall k :: 0 <= k < i ==> Harmless(select, loop.ends(children[k])))
      invariant |joins| == i && errors == JoinErrors(select, loop.ends, joins)
      invariant forall k :: 0 <= k < i ==>
        joins[k].task == children[k] && results[k] == OutcomeFor(select, loop.ends, joins[k]).result
      invariant Brings(before, RecordOf(loop), joins)
    {
      assert children[i] in children;
      var result, error;
      ghost var met, record := Met(0, [], []), RecordOf(loop);
      result, error, hung, met := Join(loop, select, children[i]);
      if hung {
        return;
      }
      BringsOn(before, record, RecordOf(loop), joins, [met]);
      OneMoreJoin(select, loop.ends, joins, met);
      joins := joins + [met];
      results := results + [result];
      errors := errors + error;
    }
  }

  // ---------------------------------------------------------------- gather_owned

  /** Waits that come later make no difference to what was sent. */
  lemma LaterWaits(ops: seq<Op>, stop: bool, race: bool, ends: Task -> End, waits0: seq<Awaited>, done0: set<Task>,
                   waits: seq<Awaited>, longer: seq<Awaited>, cancels: seq<Task>, watched: Option<Trouble>)
    requires waits <= longer
    requires Sends(ops, stop, race, ends, waits0, done0, waits, cancels, watched)
    ensures Sends(ops, stop, race, ends, waits0, done0, longer, cancels, watched)
  {
    hide Passed, Admits, Ending, Shows;
    var children := Children(ops, stop);
    var m, done :| 0 <= m <= |waits| && Admits(ops, stop, waits0, done0, waits[..m], done)
                   && SendsAfter(ops, stop, race, ends, waits, m, done, cancels, watched);
    assert longer[..m] == waits[..m];
    if !(stop && !AllAccepted(ops)) && children != [] {
      var n :| EndedAt(children, ends, waits, race, m, n) && cancels == Passed(children, ends, waits[n], stop, race)
               && Shows(children, ends, waits[n], watched);
      assert EndedAt(children, ends, longer, race, m, n);
    }
  }

  /** Everything before the final join: admission, observation, and the cancel pass. */
  method AdmitAndObserve(loop: EventLoop, select: Selector, ops: seq<Op>, stop: bool, race: bool)
    returns (children: seq<Task>, primary: Option<Error>, hung: bool,
             ghost admitted: seq<Trouble>, ghost watched: Option<Trouble>)
    modifies loop
    ensures loop.Advanced()
    ensures if hung then loop.turns == [] else children == Children(ops, stop)
    ensures !hung && primary.None? ==> AllAccepted(ops) && loop.raised == old(loop.raised)
                                       && loop.failures == old(loop.failures)
    ensures !hung && primary.None? && !race ==> Finished(children, loop.done) && Succeeds(children, loop.ends)
    ensures !hung && race && AllAccepted(ops) && ops != [] && loop.raised == old(loop.raised)
            && loop.failures == old(loop.failures) ==>
      |old(loop.waits)| < |loop.waits|
      && (primary.None? <==> !Failing(children, loop.ends, loop.waits[|old(loop.waits)|].done))
    ensures !hung && ops == [] ==> primary.None?
    ensures !hung && primary.Some? && AllAccepted(ops) && Succeeds(children, loop.ends) ==>
      loop.raised != old(loop.raised) || loop.failures != old(loop.failures)
    ensures hung || (!race && (!stop || primary.None?)) ==> loop.sent == old(loop.sent)
    ensures !hung ==>
      old(loop.sent) <= loop.sent
      && Sends(ops, stop, race, loop.ends, old(loop.waits), old(loop.done), loop.waits,
               loop.sent[|old(loop.sent)|..], watched)
    ensures !hung ==>
      var a := Account(admitted, watched, []);
      && FitAll(FailedOps(ops, stop), admitted)
      && primary == Accumulated(select, TroubleErrors(select, loop.ends, Troubles(a)))
      && Brings(old(RecordOf(loop)), RecordOf(loop), Mets(Troubles(a)))
  {
    hide EndedAt, Admits, Running, Ending, Sends, Children, Brings, Seen, FitAll, TroubleError, TroubleErrors, Tells,
      Accumulated, FailedOps, Mets;
    watched := None;
    ghost var start := RecordOf(loop);
    children, primary, hung, admitted := AdmitAll(loop, select, ops, stop);
    if hung {
      return;
    }
    ghost var known, between := primary, RecordOf(loop);
    BringsNothing(between, between);
    AcceptedChildren(ops, stop);
    ghost var waits, done := loop.waits, loop.done;
    var observed := false;
    if primary.None? || !stop {
      primary, observed, hung, watched := Observe(loop, select, children, race, primary);
      if hung {
        return;
      }
      SeenMeans(children, loop.ends, race, loop.waits, |waits|, loop.done, watched, observed);
      BroughtBy(between, RecordOf(loop), watched);
    }
    ghost var after := RecordOf(loop);
    TellsInTheEnd(select, loop.ends, ops, stop, admitted, known, start, between, watched, primary, after);
    if observed || (primary.Some? && stop) {
      CancelRunning(loop, children);
    }
    Gained(old(loop.sent), Running(children, loop.done));
    SendsAtOnce(ops, stop, race, loop.ends, old(loop.waits), old(loop.done), waits, done, loop.waits, loop.done,
                loop.sent[|old(loop.sent)|..], observed, primary.Some?, watched);
    BringsAlike(start, after, RecordOf(loop), Mets(Troubles(Account(admitted, watched, []))));
  }

  /** The observation adds its trouble, if it has come upon any. */
  lemma TellsInTheEnd(select: Selector, ends: Task -> End, ops: seq<Op>, stop: bool, admitted: seq<Trouble>,
                      known: Option<Error>, a: Record, b: Record, watched: Option<Trouble>, primary: Option<Error>,
                      c: Record)
    requires Tells(select, ends, FailedOps(ops, stop), admitted, known, a, b)
    requires primary == if watched.None? then known
                        else Some(select(Present(known) + [watched.value.cause.error]))
    requires watched.Some? ==> !watched.value.cause.Opening?
    requires Brings(b, c, if watched.None? then [] else [watched.value.met])
    ensures
      var all := Account(admitted, watched, []);
      && FitAll(FailedOps(ops, stop), admitted)
      && primary == Accumulated(select, TroubleErrors(select, ends, Troubles(all)))
      && Brings(a, c, Mets(Troubles(all)))
  {
    hide Accumulated, TroubleErrors, OutcomeFor, Brings, Fits, FailedOps, Mets;
    BringsOn(a, b, c, Mets(admitted), if watched.None? then [] else [watched.value.met]);
    if watched.Some? {
      OneMoreError(select, ends, admitted, watched.value);
    } else {
      assert Mets(admitted) + [] == Mets(admitted);
    }
  }

  /** The cancel pass, seen from the histories as they stand when it is made. */
  lemma SendsAtOnce(ops: seq<Op>, stop: bool, race: bool, ends: Task -> End, waits0: seq<Awaited>, done0: set<Task>,
                    admitted: seq<Awaited>, doneThen: set<Task>, waits: seq<Awaited>, done: set<Task>,
                    cancels: seq<Task>, observed: bool, failed: bool, watched: Option<Trouble>)
    requires cancels == if observed || (failed && stop) then Running(Children(ops, stop), done) else []
    requires admitted <= waits && Admits(ops, stop, waits0, done0, admitted, doneThen)
    requires stop && !AllAccepted(ops) ==> failed && done == doneThen && watched.None?
    requires !(stop && !AllAccepted(ops)) ==>
      && Seen(Children(ops, stop), ends, race, waits, |admitted|, done, watched, observed)
      && (stop ==> (failed <==> watched.Some?))
    ensures Sends(ops, stop, race, ends, waits0, done0, waits, cancels, watched)
  {
    hide Ending, Admits, Running;
    assert waits[..|admitted|] == admitted;
    if !(stop && !AllAccepted(ops)) && Children(ops, stop) != [] {
      assert cancels == Passed(Children(ops, stop), ends, waits[|waits| - 1], stop, race);
    }
    assert SendsAfter(ops, stop, race, ends, waits, |admitted|, doneThen, cancels, watched);
  }

  lemma AcceptedChildren(ops: seq<Op>, stop: bool)
    ensures AllAccepted(ops) ==> (Children(ops, stop) == [] <==> ops == [])
  {
  }

  lemma SameTroubles(admitted: seq<Trouble>, watched: Option<Trouble>, joins: seq<Met>)
    ensures Troubles(Account(admitted, watched, joins)) == Troubles(Account(admitted, watched, []))
  {
  }

  method GatherOwned(loop: EventLoop, select: Selector, ops: seq<Op>, stop: bool, race: bool)
    returns (g: Gathering, ghost account: Account)
    modifies loop
    ensures loop.Advanced()
    ensures g.Unfinished? ==> loop.turns == []
    ensures !g.Unfinished? ==> Finished(Children(ops, stop), loop.done)
    ensures !race && !g.Unfinished? ==>
      (g.Results? <==> AllAccepted(ops) && Succeeds(Children(ops, stop), loop.ends)
                       && loop.raised == old(loop.raised) && loop.failures == old(loop.failures))
    // a race has results exactly if it was not disturbed, what it saw first was no failure, and every
    // child ended in a value or in a plain cancellation
    ensures race && !g.Unfinished? && loop.failures == old(loop.failures) ==>
      (g.Results? <==>
         && AllAccepted(ops) && loop.raised == old(loop.raised)
         && (ops == [] || (|old(loop.waits)| < |loop.waits|
                           && !Failing(Children(ops, stop), loop.ends, loop.waits[|old(loop.waits)|].done)))
         && forall t :: t in Children(ops, stop) ==> Harmless(select, loop.ends(t)))
    ensures g.Results? ==> AllAccepted(ops) && |g.values| == |Children(ops, stop)| && loop.raised == old(loop.raised)
    ensures g.Results? && loop.failures == old(loop.failures) ==>
      forall k :: 0 <= k < |g.values| ==> g.values[k] == ResultOf(loop.ends(Children(ops, stop)[k]))
    ensures !race && (!stop || g.Results?) ==> loop.sent == old(loop.sent)
    ensures !g.Unfinished? ==>
      old(loop.sent) <= loop.sent
      && Sends(ops, stop, race, loop.ends, old(loop.waits), old(loop.done), loop.waits,
               loop.sent[|old(loop.sent)|..], account.watched)
    // what comes out is made of what went wrong, all of it and nothing else
    ensures !g.Unfinished? ==>
      && Recounts(ops, stop, account, old(RecordOf(loop)), RecordOf(loop))
      && (if Problems(select, loop.ends, account) != [] then g == Terminal(select(Problems(select, loop.ends, account)))
          else g.Results? && |g.values| == |account.joins|
               && forall k :: 0 <= k < |g.values| ==>
                    g.values[k] == OutcomeFor(select, loop.ends, account.joins[k]).result)
  {
    hide Sends, Brings, FitAll, TroubleErrors, Accumulated, FailedOps, Mets, JoinErrors, OutcomeFor, Troubles;
    ghost var start := RecordOf(loop);
    var children, primary, hung;
    ghost var admitted, watched;
    children, primary, hung, admitted, watched := AdmitAndObserve(loop, select, ops, stop, race);
    account := Account(admitted, watched, []);
    if hung {
      return Gathering.Unfinished, account;
    }
    ghost var between := RecordOf(loop);
    ghost var waits := loop.waits;
    var results, errors;
    ghost var joins;
    results, errors, hung, joins := JoinAll(loop, select, children);
    if hung {
      return Gathering.Unfinished, account;
    }
    BringsOn(start, between, RecordOf(loop), Mets(Troubles(account)), joins);
    SameTroubles(admitted, watched, joins);
    account := Account(admitted, watched, joins);
    LaterWaits(ops, stop, race, loop.ends, old(loop.waits), old(loop.done), waits, loop.waits,
               loop.sent[|old(loop.sent)|..], watched);
    var all := Present(primary) + errors;
    g := if all == [] then Results(results) else Terminal(select(all));
  }
}
