/** A scripted event loop: what the rest of the world does while one coroutine is suspended.

    The script is any finite sequence of timed happenings, so a method that waits on this loop is
    proved for every order of completions, caller cancellations and observation failures.  Timers
    are exact; time is counted in microseconds.  Once the script has run out nothing but the clock
    moves, and a wait without a timer hangs. */
module EventLoops {
  import opened Options

  type Task = nat

  /** The three classes of exceptions that ownership tells apart. */
  datatype Error = Ordinary(id: int) | Cancelled(id: int) | Control(id: int)

  /** How a task ends. */
  datatype End = Value(value: int) | Raises(error: Error)

  datatype Happening =
    | Finishes(tasks: set<Task>)
    | CancelsCaller(error: Error)        // `CancelledError` comes out of the suspension
    | FailsObservation(error: Error)     // the waiting itself raises something else

  datatype Turn = Turn(at: int, what: Happening)

  datatype Wake = Woken | TimedOut | Interrupted(error: Error) | Failed(error: Error) | Hung

  /** What was waited for, all or any of it, and how long at most; how the wait ended, and when, and what
      was done then. */
  datatype Awaited = Awaited(tasks: set<Task>, all: bool, until: Option<int>, how: Wake, at: int, done: set<Task>)

  function Later(a: int, b: int): (m: int)
    ensures m >= a && m >= b && (m == a || m == b)
  {
    if a >= b then a else b
  }

  /** `ALL_COMPLETED` and `FIRST_COMPLETED` of `asyncio.wait`. */
  predicate Satisfied(tasks: set<Task>, all: bool, done: set<Task>) {
    if all then tasks <= done else tasks * done != {}
  }

  /** What a wait depends on. */
  datatype Instant = Instant(turns: seq<Turn>, now: int, done: set<Task>)

  /** The next happening is due, or comes before anything ends the wait. */
  predicate Happens(i: Instant, tasks: set<Task>, all: bool, until: Option<int>) {
    && i.turns != []
    && (i.turns[0].at <= i.now
        || (!Satisfied(tasks, all, i.done)
            && (until.None? || (i.now < until.value && i.turns[0].at < until.value))))
  }

  /** The first thing that ends a wait, and the instant at which it does. */
  function Reaction(i: Instant, tasks: set<Task>, all: bool, until: Option<int>): (Wake, Instant)
    decreases |i.turns|
  {
    if Happens(i, tasks, all, until) then
      var next := Instant(i.turns[1..], Later(i.now, i.turns[0].at), i.done);
      match i.turns[0].what
      case Finishes(finished) => Reaction(next.(done := i.done + finished), tasks, all, until)
      case CancelsCaller(error) => (Interrupted(error), next)
      case FailsObservation(error) => (Failed(error), next)
    else if Satisfied(tasks, all, i.done) then (Woken, i)
    else if until.None? then (Hung, i)
    else (TimedOut, i.(now := Later(i.now, until.value)))
  }

  function FinishedIn(turns: seq<Turn>): set<Task> {
    if turns == [] then {}
    else (if turns[0].what.Finishes? then turns[0].what.tasks else {}) + FinishedIn(turns[1..])
  }

  function CancelsIn(turns: seq<Turn>): seq<Error> {
    if turns == [] then []
    else (if turns[0].what.CancelsCaller? then [turns[0].what.error] else []) + CancelsIn(turns[1..])
  }

  function FailuresIn(turns: seq<Turn>): seq<Error> {
    if turns == [] then []
    else (if turns[0].what.FailsObservation? then [turns[0].what.error] else []) + FailuresIn(turns[1..])
  }

  datatype Ledger = Ledger(turns: seq<Turn>, done: set<Task>, raised: seq<Error>, failures: seq<Error>)

  /** The script is used up from the front, and nothing on it is passed over. */
  predicate Continues(a: Ledger, b: Ledger) {
    && |b.turns| <= |a.turns|
    && var used := |a.turns| - |b.turns|;
       && b.turns == a.turns[used..]
       && b.done == a.done + FinishedIn(a.turns[..used])
       && b.raised == a.raised + CancelsIn(a.turns[..used])
       && b.failures == a.failures + FailuresIn(a.turns[..used])
  }

  lemma PartsOf(turns: seq<Turn>, k: nat)
    requires 0 < k <= |turns|
    ensures turns[..k][1..] == turns[1..][..k - 1] && turns[1..][k - 1..] == turns[k..] && turns[..k][0] == turns[0]
  {
  }

  lemma {:induction false} FinishedInParts(turns: seq<Turn>, k: nat)
    requires k <= |turns|
    ensures FinishedIn(turns) == FinishedIn(turns[..k]) + FinishedIn(turns[k..])
  {
    if k == 0 {
      assert turns[0..] == turns;
    } else {
      PartsOf(turns, k);
      FinishedInParts(turns[1..], k - 1);
    }
  }

  lemma {:induction false} CancelsInParts(turns: seq<Turn>, k: nat)
    requires k <= |turns|
    ensures CancelsIn(turns) == CancelsIn(turns[..k]) + CancelsIn(turns[k..])
  {
    if k == 0 {
      assert turns[0..] == turns;
    } else {
      PartsOf(turns, k);
      CancelsInParts(turns[1..], k - 1);
    }
  }

  lemma {:induction false} FailuresInParts(turns: seq<Turn>, k: nat)
    requires k <= |turns|
    ensures FailuresIn(turns) == FailuresIn(turns[..k]) + FailuresIn(turns[k..])
  {
    if k == 0 {
      assert turns[0..] == turns;
    } else {
      PartsOf(turns, k);
      FailuresInParts(turns[1..], k - 1);
    }
  }

  lemma ContinuesOn(a: Ledger, b: Ledger, c: Ledger)
    requires Continues(a, b) && Continues(b, c)
    ensures Continues(a, c)
  {
    hide FinishedIn, CancelsIn, FailuresIn;
    var k, n := |a.turns| - |b.turns|, |a.turns| - |c.turns|;
    var used := a.turns[..n];
    FinishedInParts(used, k);
    CancelsInParts(used, k);
    FailuresInParts(used, k);
    assert used[..k] == a.turns[..k];
    assert used[k..] == b.turns[..n - k];
    assert c.turns == a.turns[n..];
  }

  lemma ContinuesTheSame(a: Ledger)
    ensures Continues(a, a)
  {
    assert a.turns[..0] == [] && a.turns[0..] == a.turns;
  }

  lemma OneTurn(t: Turn)
    ensures FinishedIn([t]) == if t.what.Finishes? then t.what.tasks else {}
    ensures CancelsIn([t]) == if t.what.CancelsCaller? then [t.what.error] else []
    ensures FailuresIn([t]) == if t.what.FailsObservation? then [t.what.error] else []
  {
    assert [t][1..] == [];
  }

  lemma UsesOne(a: Ledger)
    requires a.turns != []
    ensures
      var what := a.turns[0].what;
      Continues(a, Ledger(a.turns[1..], a.done + (if what.Finishes? then what.tasks else {}),
                          a.raised + (if what.CancelsCaller? then [what.error] else []),
                          a.failures + if what.FailsObservation? then [what.error] else []))
  {
    assert a.turns[..1] == [a.turns[0]];
    OneTurn(a.turns[0]);
  }

  class EventLoop {
    const ends: Task -> End
    var turns: seq<Turn>
    var now: int
    var done: set<Task>
    /** The cancellations that the coroutine has sent to tasks, in order. */
    var sent: seq<Task>
    ghost var sentAt: seq<int>
    /** What has come out of the coroutine's own suspensions, in order. */
    ghost var raised: seq<Error>
    ghost var failures: seq<Error>
    /** When each cancellation of the coroutine arrived, and how its waits ended. */
    ghost var raisedAt: seq<int>
    ghost var waits: seq<Awaited>

    constructor (ends: Task -> End, turns: seq<Turn>, now: int, done: set<Task>)
      ensures this.ends == ends && this.turns == turns && this.now == now && this.done == done
      ensures sent == [] && raised == [] == failures && raisedAt == [] && waits == [] && sentAt == []
    {
      this.ends, this.turns, this.now, this.done, this.sent := ends, turns, now, done, [];
      raised, failures, raisedAt, waits, sentAt := [], [], [], [], [];
    }

    /** Time and the script only go on; a task that is done stays done. */
    twostate predicate Advanced()
      reads this
    {
      && |turns| <= |old(turns)|
      && old(now) <= now
      && old(done) <= done
      && old(raised) <= raised
      && old(failures) <= failures
      && old(raisedAt) <= raisedAt
      && old(waits) <= waits
      && |raisedAt| - |old(raisedAt)| == |raised| - |old(raised)|
    }

    ghost function Books(): Ledger
      reads this`turns, this`done, this`raised, this`failures
    {
      Ledger(turns, done, raised, failures)
    }

    method Cancel(t: Task)
      modifies this`sent, this`sentAt
      ensures sent == old(sent) + [t] && sentAt == old(sentAt) + [now]
    {
      sent, sentAt := sent + [t], sentAt + [now];
    }

    /** The next happening takes place; it ends a wait unless it is only a completion. */
    method Happen() returns (w: Option<Wake>)
      requires turns != []
      modifies this`turns, this`now, this`done, this`raised, this`failures, this`raisedAt
      ensures Continues(old(Books()), Books())
      ensures turns == old(turns)[1..] && now == Later(old(now), old(turns)[0].at)
      ensures
        var what := old(turns)[0].what;
        && done == (if what.Finishes? then old(done) + what.tasks else old(done))
        && w == (match what
                 case Finishes(_) => None
                 case CancelsCaller(error) => Some(Interrupted(error))
                 case FailsObservation(error) => Some(Failed(error)))
        && raised == old(raised) + (if what.CancelsCaller? then [what.error] else [])
        && raisedAt == old(raisedAt) + (if what.CancelsCaller? then [now] else [])
        && failures == old(failures) + (if what.FailsObservation? then [what.error] else [])
    {
      hide Continues;
      UsesOne(Books());
      var t := turns[0];
      turns, now := turns[1..], Later(now, t.at);
      match t.what {
        case Finishes(tasks) =>
          done := done + tasks;
          assert raised + [] == raised && failures + [] == failures;
          return None;
        case CancelsCaller(error) =>
          raised, raisedAt := raised + [error], raisedAt + [now];
          assert done + {} == done && failures + [] == failures;
          return Some(Interrupted(error));
        case FailsObservation(error) =>
          failures := failures + [error];
          assert raised + [] == raised && done + {} == done;
          return Some(Failed(error));
      }
    }

    /** `asyncio.wait(tasks, timeout=until - now, return_when=...)`.  Happenings that are already due
        come first, so a cancellation may meet even a wait that has nothing to wait for. */
    method Wait(tasks: set<Task>, all: bool, until: Option<int>) returns (w: Wake)
      modifies this`turns, this`now, this`done, this`raised, this`failures, this`raisedAt, this`waits
      ensures Advanced()
      ensures (w, Instant(turns, now, done)) == Reaction(old(Instant(turns, now, done)), tasks, all, until)
      ensures Continues(old(Books()), Books())
      ensures raised == old(raised) + if w.Interrupted? then [w.error] else []
      ensures failures == old(failures) + if w.Failed? then [w.error] else []
      ensures raisedAt == old(raisedAt) + if w.Interrupted? then [now] else []
      ensures waits == old(waits) + [Awaited(tasks, all, until, w, now, done)]
      ensures w.Woken? ==> Satisfied(tasks, all, done)
      ensures w.TimedOut? ==> until.Some? && now >= until.value && !Satisfied(tasks, all, done)
      ensures w.TimedOut? && turns != [] ==> turns[0].at >= until.value
      ensures w.Hung? ==> until.None? && turns == [] && !Satisfied(tasks, all, done)
      ensures until.Some? ==> now <= Later(old(now), until.value)
      ensures turns == old(turns) || |turns| < |old(turns)|
      ensures w.Interrupted? || w.Failed? ==> |turns| < |old(turns)|
    {
      hide Continues;
      ContinuesTheSame(Books());
      var ended: Option<Wake> := None;
      while ended.None? && Happens(Instant(turns, now, done), tasks, all, until)
        invariant Continues(old(Books()), Books())
        invariant ended.None? ==>
          Reaction(Instant(turns, now, done), tasks, all, until)
          == Reaction(old(Instant(turns, now, done)), tasks, all, until)
        invariant ended.Some? ==>
          (ended.value, Instant(turns, now, done)) == Reaction(old(Instant(turns, now, done)), tasks, all, until)
        invariant ended.Some? ==> ended.value.Interrupted? || ended.value.Failed?
        invariant old(now) <= now && old(done) <= done && waits == old(waits)
        invariant raised == old(raised) + if ended.Some? && ended.value.Interrupted? then [ended.value.error] else []
        invariant failures == old(failures) + if ended.Some? && ended.value.Failed? then [ended.value.error] else []
        invariant raisedAt == old(raisedAt) + if ended.Some? && ended.value.Interrupted? then [now] else []
        invariant until.Some? ==> now <= Later(old(now), until.value)
        invariant turns == old(turns) || |turns| < |old(turns)|
        invariant ended.Some? ==> |turns| < |old(turns)|
        decreases |turns|
      {
        ghost var before := Books();
        ended := Happen();
        ContinuesOn(old(Books()), before, Books());
      }
      w := if ended.Some? then ended.value
           else if Satisfied(tasks, all, done) then Woken
           else if until.None? then Hung
           else TimedOut;
      now := if w.TimedOut? then Later(now, until.value) else now;
      waits := waits + [Awaited(tasks, all, until, w, now, done)];
    }
  }
}
