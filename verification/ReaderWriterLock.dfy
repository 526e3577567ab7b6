/** The writer-preferring asynchronous reader/writer lock, as one event loop runs it.

    A coroutine of the lock runs without interruption between two suspension points, so each such
    stretch is one atomic action.  A request is one call of `acquire` or `acquire_read`; it stays in
    `requests` until its lease is released or the call leaves with `CancelledError`.

    `asyncio.Event` keeps one future for each sleeper: `set` resolves all of them, and does nothing
    at all when the flag is already up; a resolved sleeper does not look at the flag again. */
module ReaderWriterLock {

  type Request = nat

  /** `Asleep`: suspended on an unresolved future of the event.  `Woken`: the future is resolved and
      the task is ready to run.  `Cancelled`: ready to run, and `CancelledError` will be thrown in. */
  datatype Phase =
    | WriterAsleep | WriterWoken | WriterCancelled | WriterHolds
    | ReaderAsleep | ReaderWoken | ReaderCancelled | ReaderHolds

  datatype Role = WaitingWriter | HoldingWriter | WaitingReader | HoldingReader

  function RoleOf(p: Phase): Role {
    match p
    case WriterAsleep | WriterWoken | WriterCancelled => WaitingWriter
    case WriterHolds => HoldingWriter
    case ReaderAsleep | ReaderWoken | ReaderCancelled => WaitingReader
    case ReaderHolds => HoldingReader
  }

  datatype Lock = Lock(
    readers: int,
    writer: bool,
    waitingWriters: int,
    changed: bool,
    requests: map<Request, Phase>)

  const UNUSED: Lock := Lock(0, false, 0, false, map[])

  function Members(m: map<Request, Phase>, k: Role): set<Request> {
    set r | r in m && RoleOf(m[r]) == k
  }

  // ---------------------------------------------------------------- the event

  function WakePhase(p: Phase): Phase {
    match p
    case WriterAsleep => WriterWoken
    case ReaderAsleep => ReaderWoken
    case _ => p
  }

  function Wake(m: map<Request, Phase>): map<Request, Phase> {
    map r | r in m :: WakePhase(m[r])
  }

  function SetChanged(l: Lock): Lock {
    if l.changed then l else l.(changed := true, requests := Wake(l.requests))
  }

  // ---------------------------------------------------------------- actions

  datatype Action =
    | BeginWrite(r: Request)
    | BeginRead(r: Request)
    | TryRead(r: Request)
    | Resume(r: Request)
    | Cancel(r: Request)
    | Release(r: Request)
    | Downgrade(r: Request)
    | ReleaseRead(r: Request)

  predicate Enabled(l: Lock, a: Action) {
    match a
    case BeginWrite(r) => r !in l.requests
    case BeginRead(r) => r !in l.requests
    case TryRead(r) => r !in l.requests
    case Resume(r) => r in l.requests &&
      l.requests[r] in {WriterWoken, WriterCancelled, ReaderWoken, ReaderCancelled}
    case Cancel(r) => r in l.requests &&
      l.requests[r] in {WriterAsleep, WriterWoken, ReaderAsleep, ReaderWoken}
    case Release(r) => r in l.requests && l.requests[r] == WriterHolds
    case Downgrade(r) => r in l.requests && l.requests[r] == WriterHolds
    case ReleaseRead(r) => r in l.requests && l.requests[r] == ReaderHolds
  }

  /** One pass of the loop in `acquire` for a request already counted in `waitingWriters`. */
  function WriterPass(l: Lock, r: Request): Lock {
    if !l.writer && l.readers == 0 then
      SetChanged(l.(writer := true, waitingWriters := l.waitingWriters - 1,
                    requests := l.requests[r := WriterHolds]))
    else
      l.(changed := false, requests := l.requests[r := WriterAsleep])
  }

  /** One pass of the loop in `acquire_read`. */
  function ReaderPass(l: Lock, r: Request): Lock {
    if !(l.writer || l.waitingWriters != 0) then
      l.(readers := l.readers + 1, requests := l.requests[r := ReaderHolds])
    else
      l.(changed := false, requests := l.requests[r := ReaderAsleep])
  }

  function Next(l: Lock, a: Action): Lock
    requires Enabled(l, a)
  {
    match a
    case BeginWrite(r) => WriterPass(l.(waitingWriters := l.waitingWriters + 1), r)
    case BeginRead(r) => ReaderPass(l, r)
    case TryRead(r) =>
      if l.writer || l.waitingWriters != 0 then l
      else l.(readers := l.readers + 1, requests := l.requests[r := ReaderHolds])
    case Resume(r) => (
      match l.requests[r]
      case WriterWoken => WriterPass(l, r)
      case WriterCancelled =>
        SetChanged(l.(waitingWriters := l.waitingWriters - 1, requests := l.requests - {r}))
      case ReaderWoken => ReaderPass(l, r)
      case _ => l.(requests := l.requests - {r}))
    case Cancel(r) =>
      l.(requests := l.requests[r := if RoleOf(l.requests[r]) == WaitingWriter then WriterCancelled
                                     else ReaderCancelled])
    case Release(r) => SetChanged(l.(writer := false, requests := l.requests - {r}))
    case Downgrade(r) =>
      SetChanged(l.(writer := false, readers := l.readers + 1,
                    requests := l.requests[r := ReaderHolds]))
    case ReleaseRead(r) => SetChanged(l.(readers := l.readers - 1, requests := l.requests - {r}))
  }

  // ---------------------------------------------------------------- runs

  predicate IsRun(l: Lock, run: seq<Action>)
    decreases |run|
  {
    run == [] || (Enabled(l, run[0]) && IsRun(Next(l, run[0]), run[1..]))
  }

  function After(l: Lock, run: seq<Action>): Lock
    requires IsRun(l, run)
    decreases |run|
  {
    if run == [] then l else After(Next(l, run[0]), run[1..])
  }

  // ---------------------------------------------------------------- what every action keeps

  ghost predicate Counted(l: Lock) {
    && l.waitingWriters == |Members(l.requests, WaitingWriter)|
    && l.readers == |Members(l.requests, HoldingReader)|
    && |Members(l.requests, HoldingWriter)| == (if l.writer then 1 else 0)
  }

  ghost predicate Excluded(l: Lock) {
    l.writer ==> l.readers == 0
  }

  /** A raised flag leaves nobody asleep, so no `set` is ever wasted on a sleeper; and every sleeper
      is kept asleep by a holder, or for a reader by a queued writer. */
  ghost predicate SleepJustified(l: Lock) {
    forall r :: r in l.requests ==>
      && (l.requests[r] == WriterAsleep ==> !l.changed && (l.writer || l.readers > 0))
      && (l.requests[r] == ReaderAsleep ==> !l.changed && (l.writer || l.waitingWriters > 0))
  }

  ghost predicate Inv(l: Lock) {
    Counted(l) && Excluded(l) && SleepJustified(l)
  }

  lemma MembersPut(m: map<Request, Phase>, r: Request, p: Phase, k: Role)
    ensures Members(m[r := p], k) ==
            if RoleOf(p) == k then Members(m, k) + {r} else Members(m, k) - {r}
  {
  }

  lemma MembersDrop(m: map<Request, Phase>, r: Request, k: Role)
    ensures Members(m - {r}, k) == Members(m, k) - {r}
  {
  }

  lemma MembersWake(m: map<Request, Phase>, k: Role)
    ensures Members(Wake(m), k) == Members(m, k)
  {
  }

  lemma SetChangedKeeps(l: Lock)
    requires Counted(l) && Excluded(l)
    requires l.changed ==> SleepJustified(l)
    ensures Inv(SetChanged(l))
  {
    forall k ensures Members(Wake(l.requests), k) == Members(l.requests, k) {
      MembersWake(l.requests, k);
    }
  }

  /** Every role's members, and hence every counter, after one request changes its phase. */
  lemma PutCounts(m: map<Request, Phase>, r: Request, p: Phase)
    ensures forall k :: |Members(m[r := p], k)| == |Members(m, k)|
              - (if r in m && RoleOf(m[r]) == k then 1 else 0) + (if RoleOf(p) == k then 1 else 0)
  {
    forall k ensures |Members(m[r := p], k)| == |Members(m, k)|
              - (if r in m && RoleOf(m[r]) == k then 1 else 0) + (if RoleOf(p) == k then 1 else 0)
    {
      MembersPut(m, r, p, k);
    }
  }

  lemma DropCounts(m: map<Request, Phase>, r: Request)
    requires r in m
    ensures forall k :: |Members(m - {r}, k)| == |Members(m, k)| - (if RoleOf(m[r]) == k then 1 else 0)
  {
    forall k ensures |Members(m - {r}, k)| == |Members(m, k)| - (if RoleOf(m[r]) == k then 1 else 0) {
      MembersDrop(m, r, k);
    }
  }

  /** `SleepJustified` for everyone but `r`, which is the request now running. */
  ghost predicate OthersJustified(l: Lock, r: Request) {
    forall q :: q in l.requests && q != r ==>
      && (l.requests[q] == WriterAsleep ==> !l.changed && (l.writer || l.readers > 0))
      && (l.requests[q] == ReaderAsleep ==> !l.changed && (l.writer || l.waitingWriters > 0))
  }

  lemma WriterPassKeeps(l: Lock, r: Request)
    requires r in l.requests && RoleOf(l.requests[r]) == WaitingWriter
    requires Counted(l) && Excluded(l) && OthersJustified(l, r)
    ensures Inv(WriterPass(l, r))
  {
    PutCounts(l.requests, r, WriterHolds);
    PutCounts(l.requests, r, WriterAsleep);
    if !l.writer && l.readers == 0 {
      SetChangedKeeps(l.(writer := true, waitingWriters := l.waitingWriters - 1,
                         requests := l.requests[r := WriterHolds]));
    }
  }

  lemma ReaderPassKeeps(l: Lock, r: Request)
    requires r in l.requests ==> RoleOf(l.requests[r]) == WaitingReader
    requires Counted(l) && Excluded(l) && OthersJustified(l, r)
    ensures Inv(ReaderPass(l, r))
  {
    PutCounts(l.requests, r, ReaderHolds);
    PutCounts(l.requests, r, ReaderAsleep);
  }

  lemma BeginWriteKeeps(l: Lock, r: Request)
    requires Inv(l) && r !in l.requests
    ensures Inv(Next(l, BeginWrite(r)))
  {
    // Counting the request first, as the code does, is entering the queue and then one pass.
    var queued := l.(waitingWriters := l.waitingWriters + 1, requests := l.requests[r := WriterWoken]);
    PutCounts(l.requests, r, WriterWoken);
    WriterPassKeeps(queued, r);
    assert queued.requests[r := WriterHolds] == l.requests[r := WriterHolds];
    assert queued.requests[r := WriterAsleep] == l.requests[r := WriterAsleep];
  }

  lemma ResumeKeeps(l: Lock, r: Request)
    requires Inv(l) && Enabled(l, Resume(r))
    ensures Inv(Next(l, Resume(r)))
  {
    match l.requests[r] {
      case WriterWoken => WriterPassKeeps(l, r);
      case WriterCancelled =>
        DropCounts(l.requests, r);
        SetChangedKeeps(l.(waitingWriters := l.waitingWriters - 1, requests := l.requests - {r}));
      case ReaderWoken => ReaderPassKeeps(l, r);
      case _ => DropCounts(l.requests, r);
    }
  }

  lemma CancelKeeps(l: Lock, r: Request)
    requires Inv(l) && Enabled(l, Cancel(r))
    ensures Inv(Next(l, Cancel(r)))
  {
    PutCounts(l.requests, r, WriterCancelled);
    PutCounts(l.requests, r, ReaderCancelled);
  }

  lemma LeaseEndKeeps(l: Lock, a: Action)
    requires Inv(l) && Enabled(l, a) && (a.Release? || a.Downgrade? || a.ReleaseRead?)
    ensures Inv(Next(l, a))
  {
    var r := a.r;
    match a {
      case Release(_) =>
        DropCounts(l.requests, r);
        SetChangedKeeps(l.(writer := false, requests := l.requests - {r}));
      case Downgrade(_) =>
        PutCounts(l.requests, r, ReaderHolds);
        SetChangedKeeps(l.(writer := false, readers := l.readers + 1,
                           requests := l.requests[r := ReaderHolds]));
      case ReleaseRead(_) =>
        DropCounts(l.requests, r);
        SetChangedKeeps(l.(readers := l.readers - 1, requests := l.requests - {r}));
    }
  }

  /** The invariant is inductive. */
  lemma NextKeepsInv(l: Lock, a: Action)
    requires Inv(l) && Enabled(l, a)
    ensures Inv(Next(l, a))
  {
    match a
    case BeginWrite(r) => BeginWriteKeeps(l, r);
    case BeginRead(r) => ReaderPassKeeps(l, r);
    case TryRead(r) => ReaderPassKeeps(l, r);
    case Resume(r) => ResumeKeeps(l, r);
    case Cancel(r) => CancelKeeps(l, r);
    case _ => LeaseEndKeeps(l, a);
  }

  lemma {:induction false} RunKeepsInv(l: Lock, run: seq<Action>)
    requires Inv(l) && IsRun(l, run)
    ensures Inv(After(l, run))
    decreases |run|
  {
    if run != [] {
      NextKeepsInv(l, run[0]);
      RunKeepsInv(Next(l, run[0]), run[1..]);
    }
  }

  /** Safety over whole runs, from the constructor on and under any cancellations: exact counters,
      no writer beside a reader or another writer, and no sleeper without a reason. */
  lemma EveryRunIsSafe(run: seq<Action>)
    requires IsRun(UNUSED, run)
    ensures Inv(After(UNUSED, run))
  {
    assert forall k :: Members(UNUSED.requests, k) == {};
    RunKeepsInv(UNUSED, run);
  }

  // ---------------------------------------------------------------- no lost wakeup, no deadlock

  predicate Locked(l: Lock) {
    l.writer || l.readers > 0
  }

  /** When nothing holds the lock and someone waits, some waiter is ready to run. */
  lemma NoLostWakeup(run: seq<Action>) returns (ready: Request)
    requires IsRun(UNUSED, run)
    requires !Locked(After(UNUSED, run)) && After(UNUSED, run).requests != map[]
    ensures Enabled(After(UNUSED, run), Resume(ready))
  {
    EveryRunIsSafe(run);
    ready := SomeWaiterReady(After(UNUSED, run));
  }

  lemma SomeWaiterReady(l: Lock) returns (ready: Request)
    requires Inv(l) && !Locked(l) && l.requests != map[]
    ensures Enabled(l, Resume(ready))
  {
    NobodyHolds(l);
    if w :| w in Members(l.requests, WaitingWriter) {
      ready := w;
    } else {
      assert Members(l.requests, WaitingWriter) == {};
      ready :| ready in l.requests;
    }
  }

  lemma NobodyHolds(l: Lock)
    requires Inv(l) && !Locked(l)
    ensures forall r :: r in l.requests ==> RoleOf(l.requests[r]) in {WaitingWriter, WaitingReader}
  {
    forall r | r in l.requests ensures RoleOf(l.requests[r]) in {WaitingWriter, WaitingReader} {
      assert Members(l.requests, HoldingWriter) == {} == Members(l.requests, HoldingReader);
      assert r !in Members(l.requests, HoldingWriter) && r !in Members(l.requests, HoldingReader);
    }
  }

  /** Everything that can still happen once no new call arrives. */
  predicate Winddown(a: Action) {
    !a.BeginWrite? && !a.BeginRead? && !a.TryRead?
  }

  function Woken(m: map<Request, Phase>): set<Request> {
    set r | r in m && m[r] in {WriterWoken, ReaderWoken}
  }

  function Asleep(m: map<Request, Phase>): set<Request> {
    set r | r in m && m[r] in {WriterAsleep, ReaderAsleep}
  }

  function Weight(m: map<Request, Phase>): nat {
    3 * |Members(m, WaitingWriter)| + 2 * |Members(m, WaitingReader)|
    + 2 * |Members(m, HoldingWriter)| + |Members(m, HoldingReader)|
  }

  function Unsettled(m: map<Request, Phase>): nat {
    2 * |Woken(m)| + |Asleep(m)|
  }

  function Budget(m: map<Request, Phase>): nat {
    Weight(m) * (2 * |m| + 1) + Unsettled(m)
  }

  lemma SubsetSize<T>(a: set<T>, b: set<T>)
    requires a <= b
    ensures |a| <= |b|
  {
    assert |b| == |a| + |b - a|;
  }

  lemma UnsettledBound(m: map<Request, Phase>)
    ensures Unsettled(m) <= 2 * |m|
  {
    var w, s := Woken(m), Asleep(m);
    assert w !! s && w + s <= m.Keys;
    SubsetSize(w + s, m.Keys);
  }

  lemma WakeKeepsWeight(m: map<Request, Phase>)
    ensures Weight(Wake(m)) == Weight(m) && |Wake(m)| == |m|
  {
    forall k ensures Members(Wake(m), k) == Members(m, k) {
      MembersWake(m, k);
    }
    assert Wake(m).Keys == m.Keys;
  }

  lemma Product(a: nat, b: nat, c: nat, d: nat)
    requires a <= b && c <= d
    ensures a * c <= b * d
  {
    assert a * c <= b * c <= b * d;
  }

  lemma LighterBudget(m: map<Request, Phase>, n: map<Request, Phase>)
    requires Weight(n) < Weight(m) && |n| <= |m|
    ensures Budget(n) < Budget(m)
  {
    hide Weight, Unsettled;
    UnsettledBound(n);
    var c := 2 * |m| + 1;
    Product(Weight(n), Weight(m) - 1, 2 * |n| + 1, c);
    assert Weight(m) * c == (Weight(m) - 1) * c + c;
  }

  /** A request that leaves its role pays for every sleeper it may wake. */
  lemma LighterSpends(m: map<Request, Phase>, n: map<Request, Phase>)
    requires Weight(n) < Weight(m) && |n| <= |m|
    ensures Budget(n) < Budget(m)
    ensures Budget(Wake(n)) < Budget(m)
  {
    hide Weight, Budget, Wake;
    WakeKeepsWeight(n);
    LighterBudget(m, n);
    LighterBudget(m, Wake(n));
  }

  /** A step that takes a request closer to a decision: back to sleep, or cancelled. */
  predicate Settles(from: Phase, to: Phase) {
    && RoleOf(from) == RoleOf(to)
    && to !in {WriterWoken, ReaderWoken}
    && (from in {WriterWoken, ReaderWoken}
        || (from in {WriterAsleep, ReaderAsleep} && to in {WriterCancelled, ReaderCancelled}))
  }

  lemma SettlingKeepsWeight(m: map<Request, Phase>, r: Request, p: Phase)
    requires r in m && Settles(m[r], p)
    ensures Weight(m[r := p]) == Weight(m) && |m[r := p]| == |m|
  {
    PutCounts(m, r, p);
    assert m[r := p].Keys == m.Keys;
  }

  lemma WokenSettles(m: map<Request, Phase>, r: Request, p: Phase)
    requires r in m && Settles(m[r], p) && m[r] in {WriterWoken, ReaderWoken}
    ensures Unsettled(m[r := p]) < Unsettled(m)
  {
    var n := m[r := p];
    assert Woken(n) == Woken(m) - {r};
    SubsetSize(Asleep(n), Asleep(m) + {r});
  }

  lemma SleeperSettles(m: map<Request, Phase>, r: Request, p: Phase)
    requires r in m && Settles(m[r], p) && m[r] !in {WriterWoken, ReaderWoken}
    ensures Unsettled(m[r := p]) < Unsettled(m)
  {
    var n := m[r := p];
    assert Woken(n) == Woken(m);
    assert Asleep(n) == Asleep(m) - {r};
  }

  /** Going back to sleep, or being cancelled, settles one request and wakes nobody. */
  lemma SettlingSpends(m: map<Request, Phase>, r: Request, p: Phase)
    requires r in m && Settles(m[r], p)
    ensures Budget(m[r := p]) < Budget(m)
  {
    SettlingKeepsWeight(m, r, p);
    if m[r] in {WriterWoken, ReaderWoken} { WokenSettles(m, r, p); } else { SleeperSettles(m, r, p); }
  }

  lemma DropSpends(m: map<Request, Phase>, r: Request)
    requires r in m
    ensures Budget(m - {r}) < Budget(m)
    ensures Budget(Wake(m - {r})) < Budget(m)
  {
    DropCounts(m, r);
    assert (m - {r}).Keys == m.Keys - {r};
    LighterSpends(m, m - {r});
  }

  lemma GrantSpends(m: map<Request, Phase>, r: Request, p: Phase)
    requires r in m
    requires (RoleOf(m[r]) == WaitingWriter && p == WriterHolds)
             || (RoleOf(m[r]) == WaitingReader && p == ReaderHolds)
             || (m[r] == WriterHolds && p == ReaderHolds)
    ensures Budget(m[r := p]) < Budget(m)
    ensures Budget(Wake(m[r := p])) < Budget(m)
  {
    PutCounts(m, r, p);
    assert m[r := p].Keys == m.Keys;
    LighterSpends(m, m[r := p]);
  }

  lemma WinddownSpends(l: Lock, a: Action)
    requires Enabled(l, a) && Winddown(a)
    ensures Budget(Next(l, a).requests) < Budget(l.requests)
  {
    hide Budget;
    var r, m := a.r, l.requests;
    match a {
      case Resume(_) =>
        match m[r] {
          case WriterWoken => GrantSpends(m, r, WriterHolds); SettlingSpends(m, r, WriterAsleep);
          case ReaderWoken => GrantSpends(m, r, ReaderHolds); SettlingSpends(m, r, ReaderAsleep);
          case _ => DropSpends(m, r);
        }
      case Cancel(_) =>
        SettlingSpends(m, r, if RoleOf(m[r]) == WaitingWriter then WriterCancelled else ReaderCancelled);
      case Downgrade(_) => GrantSpends(m, r, ReaderHolds);
      case _ => DropSpends(m, r);
    }
  }

  /** Nothing is ready to run and every lease has been given back. */
  ghost predicate Quiet(l: Lock) {
    forall r :: !Enabled(l, Resume(r)) && !Enabled(l, Release(r)) && !Enabled(l, ReleaseRead(r))
  }

  lemma QuietIsEmpty(l: Lock)
    requires Inv(l) && Quiet(l)
    ensures l.requests == map[]
  {
    forall r
      ensures r !in Members(l.requests, HoldingWriter) && r !in Members(l.requests, HoldingReader)
    {
      assert r in Members(l.requests, HoldingWriter) ==> Enabled(l, Release(r));
      assert r in Members(l.requests, HoldingReader) ==> Enabled(l, ReleaseRead(r));
    }
    assert Members(l.requests, HoldingWriter) == {} == Members(l.requests, HoldingReader);
    if l.requests != map[] {
      var r := SomeWaiterReady(l);
    }
  }

  /** Liveness: once arrivals stop, every schedule is finite, and a schedule that ends with nothing
      ready and no lease out has left no request waiting.  So no wakeup is lost, waiters never
      deadlock, and they never keep waking each other for ever. */
  lemma {:induction false} EveryScheduleDrains(l: Lock, run: seq<Action>)
    requires Inv(l) && IsRun(l, run)
    requires forall a :: a in run ==> Winddown(a)
    ensures |run| <= Budget(l.requests)
    ensures Quiet(After(l, run)) ==> After(l, run).requests == map[]
    decreases |run|
  {
    if run == [] {
      if Quiet(l) { QuietIsEmpty(l); }
    } else {
      NextKeepsInv(l, run[0]);
      WinddownSpends(l, run[0]);
      assert forall a :: a in run[1..] ==> a in run;
      EveryScheduleDrains(Next(l, run[0]), run[1..]);
    }
  }

  // ---------------------------------------------------------------- the abstract lock

  /** What the callers can see: who holds what, and who waits for what. */
  datatype View = View(
    writer: set<Request>, readers: set<Request>,
    waitingWriters: set<Request>, waitingReaders: set<Request>)

  function Seen(m: map<Request, Phase>): View {
    View(Members(m, HoldingWriter), Members(m, HoldingReader),
         Members(m, WaitingWriter), Members(m, WaitingReader))
  }

  function ViewOf(l: Lock): View {
    Seen(l.requests)
  }

  datatype Effect =
    | Unseen
    | QueueWriter(r: Request) | QueueReader(r: Request)
    | GrantWriter(r: Request) | GrantReader(r: Request)
    | Withdraw(r: Request)
    | EndWrite(r: Request) | Demote(r: Request) | EndRead(r: Request)

  /** A writer-preferring lock: a writer enters an empty room, a reader only a room without a writer
      and without a queued writer, and a call queues only when it may not enter. */
  ghost predicate Allowed(v: View, e: Effect) {
    match e
    case Unseen => true
    case QueueWriter(r) => v.writer + v.readers != {}
    case QueueReader(r) => v.writer + v.waitingWriters != {}
    case GrantWriter(r) => v.writer + v.readers == {}
    case GrantReader(r) => v.writer + v.waitingWriters == {}
    case Withdraw(r) => r in v.waitingWriters + v.waitingReaders
    case EndWrite(r) => v.writer == {r}
    case Demote(r) => v.writer == {r}
    case EndRead(r) => r in v.readers
  }

  function Perform(v: View, e: Effect): View {
    match e
    case Unseen => v
    case QueueWriter(r) => v.(waitingWriters := v.waitingWriters + {r})
    case QueueReader(r) => v.(waitingReaders := v.waitingReaders + {r})
    case GrantWriter(r) => v.(writer := {r}, waitingWriters := v.waitingWriters - {r})
    case GrantReader(r) =>
      v.(readers := v.readers + {r}, waitingReaders := v.waitingReaders - {r})
    case Withdraw(r) =>
      v.(waitingWriters := v.waitingWriters - {r}, waitingReaders := v.waitingReaders - {r})
    case EndWrite(r) => v.(writer := {})
    case Demote(r) => v.(writer := {}, readers := v.readers + {r})
    case EndRead(r) => v.(readers := v.readers - {r})
  }

  /** Which of the abstract effects an action has, read off the counters alone. */
  function EffectOf(l: Lock, a: Action): Effect
    requires Enabled(l, a)
  {
    var free := !l.writer && l.readers == 0;
    var open := !l.writer && l.waitingWriters == 0;
    match a
    case BeginWrite(r) => if free then GrantWriter(r) else QueueWriter(r)
    case BeginRead(r) => if open then GrantReader(r) else QueueReader(r)
    case TryRead(r) => if open then GrantReader(r) else Unseen
    case Resume(r) => (
      match l.requests[r]
      case WriterWoken => if free then GrantWriter(r) else Unseen
      case ReaderWoken => if open then GrantReader(r) else Unseen
      case _ => Withdraw(r))
    case Cancel(r) => Unseen
    case Release(r) => EndWrite(r)
    case Downgrade(r) => Demote(r)
    case ReleaseRead(r) => EndRead(r)
  }

  /** What the counters tell about the view, and the view about the phase of `r`. */
  ghost predicate Shown(v: View, l: Lock, r: Request) {
    && (l.writer <==> v.writer != {})
    && (l.readers == 0 <==> v.readers == {})
    && (l.waitingWriters == 0 <==> v.waitingWriters == {})
    && (v.writer == {} || v.readers == {})
    && (r in v.writer <==> r in l.requests && l.requests[r] == WriterHolds)
    && (r in v.writer ==> v.writer == {r})
    && (r in v.readers <==> r in l.requests && l.requests[r] == ReaderHolds)
    && (r in v.waitingWriters <==> r in l.requests && RoleOf(l.requests[r]) == WaitingWriter)
    && (r in v.waitingReaders <==> r in l.requests && RoleOf(l.requests[r]) == WaitingReader)
  }

  lemma CountersShowView(l: Lock, r: Request)
    requires Inv(l)
    ensures Shown(ViewOf(l), l, r)
  {
    var w := Members(l.requests, HoldingWriter);
    if r in w {
      assert |w - {r}| == 0;
      assert w == {r};
    }
  }

  /** `r` leaves whatever role it had and takes the role of `p`. */
  function Moved(v: View, r: Request, k: Role): View {
    View(if k == HoldingWriter then v.writer + {r} else v.writer - {r},
         if k == HoldingReader then v.readers + {r} else v.readers - {r},
         if k == WaitingWriter then v.waitingWriters + {r} else v.waitingWriters - {r},
         if k == WaitingReader then v.waitingReaders + {r} else v.waitingReaders - {r})
  }

  function Left(v: View, r: Request): View {
    View(v.writer - {r}, v.readers - {r}, v.waitingWriters - {r}, v.waitingReaders - {r})
  }

  lemma SeenAfterPut(m: map<Request, Phase>, r: Request, p: Phase)
    ensures Seen(m[r := p]) == Seen(Wake(m[r := p])) == Moved(Seen(m), r, RoleOf(p))
  {
    forall k ensures Members(m[r := p], k) == Members(Wake(m[r := p]), k)
                     == if RoleOf(p) == k then Members(m, k) + {r} else Members(m, k) - {r} {
      MembersPut(m, r, p, k);
      MembersWake(m[r := p], k);
    }
  }

  lemma SeenAfterDrop(m: map<Request, Phase>, r: Request)
    ensures Seen(m - {r}) == Seen(Wake(m - {r})) == Left(Seen(m), r)
  {
    forall k ensures Members(m - {r}, k) == Members(Wake(m - {r}), k) == Members(m, k) - {r} {
      MembersDrop(m, r, k);
      MembersWake(m - {r}, k);
    }
  }

  /** One pass for a request that is new or already queued for writing. */
  lemma WriterPassRefines(l: Lock, v: View, r: Request)
    requires v == ViewOf(l) && Shown(v, l, r) && r !in v.writer + v.readers + v.waitingReaders
    ensures
      var free := !l.writer && l.readers == 0;
      ViewOf(WriterPass(l, r)) == Perform(v, if free then GrantWriter(r) else QueueWriter(r))
  {
    SeenAfterPut(l.requests, r, WriterHolds);
    SeenAfterPut(l.requests, r, WriterAsleep);
  }

  lemma ReaderPassRefines(l: Lock, v: View, r: Request)
    requires v == ViewOf(l) && Shown(v, l, r) && r !in v.writer + v.readers + v.waitingWriters
    ensures
      var open := !l.writer && l.waitingWriters == 0;
      ViewOf(ReaderPass(l, r)) == Perform(v, if open then GrantReader(r) else QueueReader(r))
  {
    SeenAfterPut(l.requests, r, ReaderHolds);
    SeenAfterPut(l.requests, r, ReaderAsleep);
  }

  lemma CancelRefines(l: Lock, r: Request)
    requires Enabled(l, Cancel(r))
    ensures ViewOf(Next(l, Cancel(r))) == ViewOf(l)
  {
    var p := if RoleOf(l.requests[r]) == WaitingWriter then WriterCancelled else ReaderCancelled;
    SeenAfterPut(l.requests, r, p);
    SeenAfterPut(l.requests, r, l.requests[r]);
    assert l.requests[r := l.requests[r]] == l.requests;
  }

  lemma LeavingRefines(l: Lock, v: View, a: Action)
    requires v == ViewOf(l) && Enabled(l, a) && Shown(v, l, a.r)
    requires a.Release? || a.Downgrade? || a.ReleaseRead?
             || (a.Resume? && l.requests[a.r] in {WriterCancelled, ReaderCancelled})
    ensures ViewOf(Next(l, a)) == Perform(v, EffectOf(l, a))
  {
    SeenAfterPut(l.requests, a.r, ReaderHolds);
    SeenAfterDrop(l.requests, a.r);
  }

  /** Refinement: every action of the code is one permitted effect on the abstract lock, and the
      effect is the one that the counters, not the set of tasks, select. */
  lemma RefinesWriterPreferringLock(l: Lock, a: Action)
    requires Inv(l) && Enabled(l, a)
    ensures Allowed(ViewOf(l), EffectOf(l, a))
    ensures ViewOf(Next(l, a)) == Perform(ViewOf(l), EffectOf(l, a))
  {
    CountersShowView(l, a.r);
    ShownRefines(l, ViewOf(l), a);
  }

  lemma ShownRefines(l: Lock, v: View, a: Action)
    requires v == ViewOf(l) && Shown(v, l, a.r) && Enabled(l, a)
    ensures Allowed(v, EffectOf(l, a))
    ensures ViewOf(Next(l, a)) == Perform(v, EffectOf(l, a))
  {
    var r := a.r;
    match a
    case BeginWrite(_) =>
      SeenAfterPut(l.requests, r, WriterHolds);
      SeenAfterPut(l.requests, r, WriterAsleep);
    case BeginRead(_) => ReaderPassRefines(l, v, r);
    case TryRead(_) => ReaderPassRefines(l, v, r);
    case Cancel(_) => CancelRefines(l, r);
    case Resume(_) =>
      if l.requests[r] == WriterWoken { WriterPassRefines(l, v, r); }
      else if l.requests[r] == ReaderWoken { ReaderPassRefines(l, v, r); }
      else { LeavingRefines(l, v, a); }
    case _ => LeavingRefines(l, v, a);
  }

  /** What an action does in terms of the sets alone; `p` is the phase of the request that it is about. */
  function InSets(v: View, a: Action, p: Phase): View {
    var r, free, open := a.r, v.writer + v.readers == {}, v.writer + v.waitingWriters == {};
    match a
    case BeginWrite(_) => if free then v.(writer := {r}) else v.(waitingWriters := v.waitingWriters + {r})
    case BeginRead(_) =>
      if open then v.(readers := v.readers + {r}) else v.(waitingReaders := v.waitingReaders + {r})
    case TryRead(_) => if open then v.(readers := v.readers + {r}) else v
    case Cancel(_) => v
    case Release(_) => v.(writer := {})
    case Downgrade(_) => v.(writer := {}, readers := v.readers + {r})
    case ReleaseRead(_) => v.(readers := v.readers - {r})
    case Resume(_) =>
      if p == WriterWoken then
        if free then v.(writer := {r}, waitingWriters := v.waitingWriters - {r}) else v
      else if p == ReaderWoken then
        if open then v.(readers := v.readers + {r}, waitingReaders := v.waitingReaders - {r}) else v
      else v.(waitingWriters := v.waitingWriters - {r}, waitingReaders := v.waitingReaders - {r})
  }

  lemma EffectInSets(l: Lock, v: View, a: Action)
    requires Enabled(l, a) && Shown(v, l, a.r) && Allowed(v, EffectOf(l, a))
    ensures Perform(v, EffectOf(l, a)) == InSets(v, a, if a.r in l.requests then l.requests[a.r] else WriterAsleep)
  {
    var r := a.r;
    assert r !in v.waitingWriters ==> v.waitingWriters - {r} == v.waitingWriters;
    assert r !in v.waitingReaders ==> v.waitingReaders - {r} == v.waitingReaders;
  }

  /** Every action does just that: who is let in and who queues follows from the sets, and a request that
      was cancelled while it waited is gone once it runs. */
  lemma EachActionInSets(l: Lock, a: Action)
    requires Inv(l) && Enabled(l, a)
    ensures ViewOf(Next(l, a)) == InSets(ViewOf(l), a, if a.r in l.requests then l.requests[a.r] else WriterAsleep)
    ensures a.Resume? && l.requests[a.r] in {WriterCancelled, ReaderCancelled} ==> a.r !in Next(l, a).requests
  {
    hide Inv, Shown, ViewOf, Perform, Allowed, InSets;
    CountersShowView(l, a.r);
    RefinesWriterPreferringLock(l, a);
    EffectInSets(l, ViewOf(l), a);
  }

  /** `w` stays queued for writing from the start of the run to its end. */
  predicate QueuedThroughout(l: Lock, run: seq<Action>, w: Request)
    requires IsRun(l, run)
    decreases |run|
  {
    w in Members(l.requests, WaitingWriter) && (run == [] || QueuedThroughout(Next(l, run[0]), run[1..], w))
  }

  /** The writers that a run turns into readers. */
  function Downgraded(run: seq<Action>): set<Request> {
    if run == [] then {} else (if run[0].Downgrade? then {run[0].r} else {}) + Downgraded(run[1..])
  }

  /** Writer preference over runs: while one writer waits, readers only leave, save by `downgrade`. */
  lemma {:induction false} ReadersOnlyLeaveWhileAWriterWaits(l: Lock, run: seq<Action>, w: Request)
    requires Inv(l) && IsRun(l, run) && QueuedThroughout(l, run, w)
    ensures ViewOf(After(l, run)).readers <= ViewOf(l).readers + Downgraded(run)
    ensures After(l, run).readers <= l.readers + |Downgraded(run)|
    decreases |run|
  {
    if run != [] {
      NextKeepsInv(l, run[0]);
      RefinesWriterPreferringLock(l, run[0]);
      ReadersOnlyLeaveWhileAWriterWaits(Next(l, run[0]), run[1..], w);
      RunKeepsInv(Next(l, run[0]), run[1..]);
    }
    RunKeepsInv(l, run);
    UnionSize(ViewOf(l).readers, Downgraded(run));
    SubsetSize(ViewOf(After(l, run)).readers, ViewOf(l).readers + Downgraded(run));
  }

  lemma UnionSize<T>(a: set<T>, b: set<T>)
    ensures |a + b| <= |a| + |b|
  {
    assert a + b == a + (b - a);
    SubsetSize(b - a, b);
  }

  // ---------------------------------------------------------------- the class

  class AsyncReaderWriterLock {
    var readers: int
    var writer: bool
    var waitingWriters: int
    var changed: bool
    /** The event loop's side of the lock: which calls sleep, are ready to run, or hold a lease. */
    ghost var requests: map<Request, Phase>

    ghost function Snapshot(): (l: Lock)
      reads this
    {
      Lock(readers, writer, waitingWriters, changed, requests)
    }

    constructor ()
      ensures Snapshot() == UNUSED
    {
      readers, writer, waitingWriters, changed := 0, false, 0, false;
      requests := map[];
    }

    method Changed()
      modifies this
      ensures Snapshot() == SetChanged(old(Snapshot()))
    {
      if !changed {
        changed := true;
        requests := Wake(requests);
      }
    }

    /** The `while True` of `acquire`, up to the grant or the next suspension. */
    method AcquirePass(ghost r: Request) returns (granted: bool)
      modifies this
      ensures Snapshot() == WriterPass(old(Snapshot()), r)
      ensures granted <==> r in requests && requests[r] == WriterHolds
    {
      granted := false;
      var asleep := false;
      while !granted && !asleep
        invariant !granted && !asleep ==> Snapshot() == old(Snapshot())
        invariant granted || asleep ==> Snapshot() == WriterPass(old(Snapshot()), r)
        invariant granted ==> r in requests && requests[r] == WriterHolds
        invariant asleep ==> !granted && r in requests && requests[r] == WriterAsleep
        decreases !granted && !asleep
      {
        if !writer && readers == 0 {
          granted := true;
          writer := true;
          waitingWriters := waitingWriters - 1;
          requests := requests[r := WriterHolds];
          Changed();
        } else {
          changed := false;
          if writer || readers != 0 {
            asleep := true;
            requests := requests[r := WriterAsleep];
          }
        }
      }
    }

    method Acquire(ghost r: Request) returns (granted: bool)
      requires Enabled(Snapshot(), BeginWrite(r))
      modifies this
      ensures Snapshot() == Next(old(Snapshot()), BeginWrite(r))
      ensures granted <==> requests[r] == WriterHolds
    {
      waitingWriters := waitingWriters + 1;
      granted := AcquirePass(r);
    }

    /** A writer's task runs again: `Event.wait` returns, or raises `CancelledError`. */
    method ResumeAcquire(ghost r: Request, cancelled: bool) returns (granted: bool)
      requires r in requests && requests[r] == (if cancelled then WriterCancelled else WriterWoken)
      modifies this
      ensures Snapshot() == Next(old(Snapshot()), Resume(r))
      ensures granted <==> r in requests && requests[r] == WriterHolds
    {
      if cancelled {
        waitingWriters := waitingWriters - 1;
        requests := requests - {r};
        Changed();
        return false;
      }
      granted := AcquirePass(r);
    }

    /** `ok` is false where the code raises `RuntimeError`. */
    method ReleaseWriter(ghost r: Request) returns (ok: bool)
      requires writer ==> Enabled(Snapshot(), Release(r))
      modifies this
      ensures ok <==> old(writer)
      ensures Snapshot() == if ok then Next(old(Snapshot()), Release(r)) else old(Snapshot())
    {
      if !writer {
        return false;
      }
      writer := false;
      requests := requests - {r};
      Changed();
      return true;
    }

    method DowngradeWriter(ghost r: Request) returns (lease: DowngradedReaderLease?)
      requires writer ==> Enabled(Snapshot(), Downgrade(r))
      modifies this
      ensures lease == null <==> !old(writer)
      ensures lease != null ==> fresh(lease) && lease.lock == this && lease.request == r && !lease.released
      ensures Snapshot() == if lease != null then Next(old(Snapshot()), Downgrade(r)) else old(Snapshot())
    {
      if !writer {
        return null;
      }
      writer := false;
      readers := readers + 1;
      requests := requests[r := ReaderHolds];
      Changed();
      lease := new DowngradedReaderLease(this, r);
    }

    method TryAcquireRead(ghost r: Request) returns (granted: bool)
      requires r !in requests || RoleOf(requests[r]) == WaitingReader
      modifies this
      ensures granted <==> !(old(writer) || old(waitingWriters) != 0)
      ensures Snapshot() ==
        if granted
        then old(Snapshot()).(readers := old(readers) + 1, requests := old(requests)[r := ReaderHolds])
        else old(Snapshot())
      ensures old(Enabled(Snapshot(), TryRead(r))) ==> Snapshot() == Next(old(Snapshot()), TryRead(r))
    {
      if writer || waitingWriters != 0 {
        return false;
      }
      readers := readers + 1;
      requests := requests[r := ReaderHolds];
      return true;
    }

    /** `acquire_read`, first entered or run again after `Event.wait` returned. */
    method AcquireRead(ghost r: Request) returns (granted: bool)
      requires r !in requests || requests[r] == ReaderWoken
      modifies this
      ensures Snapshot() == Next(old(Snapshot()), if r in old(requests) then Resume(r) else BeginRead(r))
      ensures granted <==> requests[r] == ReaderHolds
    {
      granted := false;
      var asleep := false;
      while !granted && !asleep
        invariant !granted && !asleep ==> Snapshot() == old(Snapshot())
        invariant granted || asleep ==> Snapshot() == ReaderPass(old(Snapshot()), r)
        invariant granted ==> r in requests && requests[r] == ReaderHolds
        invariant asleep ==> !granted && r in requests && requests[r] == ReaderAsleep
        decreases !granted && !asleep
      {
        granted := TryAcquireRead(r);
        if !granted {
          changed := false;
          if writer || waitingWriters != 0 {
            asleep := true;
            requests := requests[r := ReaderAsleep];
          }
        }
      }
    }

    method ReleaseReader(ghost r: Request) returns (ok: bool)
      requires readers != 0 ==> Enabled(Snapshot(), ReleaseRead(r))
      modifies this
      ensures ok <==> old(readers) != 0
      ensures Snapshot() == if ok then Next(old(Snapshot()), ReleaseRead(r)) else old(Snapshot())
    {
      if readers == 0 {
        return false;
      }
      readers := readers - 1;
      requests := requests - {r};
      Changed();
      return true;
    }
  }

  class DowngradedReaderLease {
    const lock: AsyncReaderWriterLock
    ghost const request: Request
    var released: bool

    constructor (lock: AsyncReaderWriterLock, ghost request: Request)
      ensures this.lock == lock && this.request == request && !released
    {
      this.lock := lock;
      this.request := request;
      released := false;
    }

    /** Leaving the lease twice releases the reader once. */
    method Exit()
      requires !released ==> lock.readers != 0 && Enabled(lock.Snapshot(), ReleaseRead(request))
      modifies this, lock
      ensures released
      ensures lock.Snapshot() ==
        if old(released) then old(lock.Snapshot()) else Next(old(lock.Snapshot()), ReleaseRead(request))
    {
      if !released {
        released := true;
        var _ := lock.ReleaseReader(request);
      }
    }
  }
}
