/** `OwnedAsyncIterator`: one producer task (the owner), one cancellation watcher, one reader and a
    closer, run by an event loop with a FIFO queue of ready handles.

    A coroutine runs without interruption from one suspension to the next, so each such stretch is
    one transition.  `Tick` runs the oldest ready handle.  The reader's and the closer's calls, and
    every cancellation, may come between any two ticks. */
module OwnedIterator {
  import EventLoops

  type Error = EventLoops.Error

  datatype Entry = Item(value: int) | Interrupted | Terminal

  /** `Admitting`: suspended before `_run`.  `InSource`: inside the source's `anext`.
      `AtHandshake`: in `_continue.wait()`.  `InClose`: inside the source's own `aclose`. */
  datatype OwnerPc = Admitting | InSource | AtHandshake | InClose | Finished

  datatype WatcherPc = NotStarted | Watching | Ended(cancelled: bool)

  datatype CallerPc = Away | AtQueue | JoinsOwner | JoinsWatcher

  datatype Handle =
    | OwnerStep | WatcherStep | ReaderStep | CloserStep
    | CancelOwnerIfRunning | PublishCompletion | WatchNeverStarted

  /** The FIFO ready queue: the place of each handle in the order in which they were scheduled. */
  datatype Ready = Ready(place: map<Handle, nat>, next: nat) {
    predicate Has(h: Handle) { h in place }

    ghost predicate Ordered() {
      forall h :: h in place ==> place[h] < next
    }

    predicate Oldest(h: Handle) {
      h in place && forall g :: g in place ==> place[h] <= place[g]
    }

    function With(h: Handle): (r: Ready)
      ensures forall g :: r.Has(g) <==> Has(g) || g == h
      ensures Ordered() ==> r.Ordered()
    {
      if h in place then this else Ready(place[h := next], next + 1)
    }

    function WithIf(c: bool, h: Handle): (r: Ready)
      ensures forall g :: r.Has(g) <==> Has(g) || (c && g == h)
      ensures Ordered() ==> r.Ordered()
    {
      if c then With(h) else this
    }

    function Without(h: Handle): (r: Ready)
      ensures forall g :: r.Has(g) <==> Has(g) && g != h
      ensures Ordered() ==> r.Ordered()
    {
      Ready(place - {h}, next)
    }
  }

  /** The iterator's own fields. */
  datatype Fields = Fields(
    queue: seq<Entry>,
    continueSet: bool,
    stopSet: bool,
    itemOutstanding: bool,
    waitingForContinue: bool,
    interruptAfterContinue: bool,
    closed: bool,
    interruptedByCleanup: bool,
    terminalPublished: bool,
    watchStarted: bool)

  /** The event loop's side of the three tasks and of `aclose`. */
  datatype Loop = Loop(
    ready: Ready,
    owner: OwnerPc,
    ownerCancelPending: bool,     // CancelledError is thrown in at the owner's next step
    ownerCancelling: bool,        // cancelled by anybody but its own source; never taken back
    deadlines: nat,               // cancels by deadlines inside the source that it has not taken back
    watcher: WatcherPc,
    watcherCancelPending: bool,
    reader: CallerPc,
    readerCancelPending: bool,
    closer: CallerPc)

  datatype State = State(it: Fields, loop: Loop, log: History)

  datatype History = History(
    yielded: seq<int>,            // what the source produced
    delivered: seq<int>,          // what `__anext__` returned
    dropped: seq<int>,            // produced after the stop, never queued
    terminals: nat,               // TERMINAL entries published
    watcherCancelled: bool,       // somebody cancelled the watcher before it ended
    cancelsSent: nat,             // `owner.cancel()` calls made by the iterator
    turn: TurnLog,
    losses: LossLog,
    readerJoined: bool,           // the terminal path of `__anext__` completed
    closerJoined: bool)           // the `aclose` that closed the iterator completed

  /** Of the interrupt that is scheduled behind the handshake. */
  datatype TurnLog = TurnLog(
    releasedFirst: bool,          // the handshake was released when it was scheduled
    sourceRan: bool,              // the source ran since
    cutOff: bool)                 // `CancelledError` came out of the handshake since

  /** Interrupts that found the owner cancelled by a deadline of its own source, and went nowhere. */
  datatype LossLog = LossLog(
    handOver: bool,               // the watcher's
    stop: bool,                   // that of `aclose`, or of a watcher that lost its observation
    withheld: bool)               // the watcher's cancellation carried control evidence

  const NEW_ITERATOR: State := State(
    Fields([], false, false, false, false, false, false, false, false, false),
    Loop(Ready(map[OwnerStep := 0, WatcherStep := 1], 2), Admitting, false, false, 0,
         NotStarted, false, Away, false, Away),
    History([], [], [], 0, false, 0, TurnLog(false, false, false), LossLog(false, false, false), false, false))

  // ---------------------------------------------------------------- the event loop

  function Schedule(s: State, h: Handle): State {
    s.(loop := s.loop.(ready := s.loop.ready.With(h)))
  }

  /** `Queue.put_nowait`: a reader suspended in `get` becomes ready. */
  function Put(s: State, e: Entry): State {
    s.(it := s.it.(queue := s.it.queue + [e]),
       loop := s.loop.(ready := s.loop.ready.WithIf(s.loop.reader == AtQueue, ReaderStep)))
  }

  function SetContinue(s: State): State {
    var wakes := !s.it.continueSet && s.loop.owner == AtHandshake;
    s.(it := s.it.(continueSet := true), loop := s.loop.(ready := s.loop.ready.WithIf(wakes, OwnerStep)))
  }

  /** `Task.cancel` on the owner. */
  function CancelOwner(s: State): State {
    if s.loop.owner == Finished then s
    else Schedule(s.(loop := s.loop.(ownerCancelPending := true, ownerCancelling := true)), OwnerStep)
  }

  /** `_cancel_owner_if_running` reaches an owner that runs and has not been cancelled before. */
  predicate Reaches(s: State) {
    s.loop.owner != Finished && !s.loop.ownerCancelling && s.loop.deadlines == 0
  }

  /** ... and misses one that only a deadline of its own source has cancelled. */
  predicate Misses(s: State) {
    s.loop.owner != Finished && !s.loop.ownerCancelling && s.loop.deadlines > 0
  }

  function CancelIfRunning(s: State): State {
    s.(loop := s.loop.(ownerCancelPending := s.loop.ownerCancelPending || Reaches(s),
                       ownerCancelling := s.loop.ownerCancelling || Reaches(s),
                       ready := s.loop.ready.WithIf(Reaches(s), OwnerStep)),
       log := s.log.(cancelsSent := s.log.cancelsSent + if Reaches(s) then 1 else 0))
  }

  /** What an interrupt that misses costs: a hand-over of the watcher, a stop, or both. */
  function Noted(s: State, handOver: bool, stop: bool): LossLog {
    LossLog(s.log.losses.handOver || (handOver && Misses(s)), s.log.losses.stop || (stop && Misses(s)),
            s.log.losses.withheld)
  }

  function InterruptFor(s: State, handOver: bool, stop: bool): State {
    var t := CancelIfRunning(s);
    t.(log := t.log.(losses := Noted(s, handOver, stop)))
  }

  function ScheduleInterrupt(s: State): State {
    s.(loop := s.loop.(ready := s.loop.ready.With(CancelOwnerIfRunning)),
       log := s.log.(turn := TurnLog(s.loop.owner == AtHandshake && s.it.continueSet, false, false)))
  }

  /** The owner's task ends: its done callbacks publish completion and wake whoever joins it. */
  function FinishOwner(s: State): State {
    s.(loop := s.loop.(owner := Finished,
                       ready := s.loop.ready.With(PublishCompletion)
                                            .WithIf(s.loop.watcher == Watching, WatcherStep)
                                            .WithIf(s.loop.reader == JoinsOwner, ReaderStep)
                                            .WithIf(s.loop.closer == JoinsOwner, CloserStep)))
  }

  function EndWatcher(s: State, cancelled: bool): State {
    s.(loop := s.loop.(watcher := Ended(cancelled),
                       ready := s.loop.ready.With(WatchNeverStarted)
                                            .WithIf(s.loop.reader == JoinsWatcher, ReaderStep)
                                            .WithIf(s.loop.closer == JoinsWatcher, CloserStep)))
  }

  // ---------------------------------------------------------------- the owner

  datatype SourceAct = Park | Yield(value: int) | Exhaust | Raise(error: Error)

  /** What `Task.cancel` throws into a suspended coroutine. */
  const INTERRUPTION: Error := EventLoops.Cancelled(0)

  /** How a failure of the watcher's own observation shows: not at all, as a `CancelledError` that
      carries control evidence, or as any other error. */
  datatype Observation = Sound | Evidence | Broken

  /** What the source, its factory and the cleanup predicate do during one step of the owner. */
  datatype Choice = Choice(
    admitting: bool,          // the owner's factory has not let it into `_run` yet
    act: SourceAct,
    cleanupRequested: bool,
    closeParks: bool,         // the source's `aclose` suspends
    takenBack: nat,           // how many cancels of its own deadlines the source takes back
    observation: Observation) // what the watcher meets in observing the owner

  function Publish(s: State): State {
    if s.it.terminalPublished then s
    else
      Put(s.(it := s.it.(terminalPublished := true), log := s.log.(terminals := s.log.terminals + 1)), Terminal)
  }

  /** The `finally` of `_run`: close the source, publish, end the task. */
  function LeaveLoop(s: State, c: Choice): State {
    if c.closeParks then s.(loop := s.loop.(owner := InClose)) else FinishOwner(Publish(s))
  }

  function Raised(s: State, e: Error, c: Choice): State {
    if e.Cancelled? && (s.it.stopSet || c.cleanupRequested)
    then LeaveLoop(Put(s.(it := s.it.(interruptedByCleanup := true)), Interrupted), c)
    else LeaveLoop(s, c)
  }

  /** The source runs until it suspends, produces an item, ends, or raises. */
  function SourceTurn(s: State, c: Choice): State {
    match c.act
    case Park => s.(loop := s.loop.(owner := InSource))
    case Exhaust => LeaveLoop(s, c)
    case Raise(e) => Raised(s, e, c)
    case Yield(v) => Yielded(s, v, c)
  }

  /** The body of `async for item in iterator`. */
  function Yielded(s: State, v: int, c: Choice): State {
    var t := s.(log := s.log.(yielded := s.log.yielded + [v]));
    if s.it.stopSet then LeaveLoop(t.(log := t.log.(dropped := t.log.dropped + [v])), c) else Offer(t, v)
  }

  /** The item goes into the queue and the owner parks at the handshake. */
  function Offer(s: State, v: int): State {
    var t := Put(s, Item(v));
    t.(it := t.it.(waitingForContinue := true),
       loop := t.loop.(owner := AtHandshake, ready := t.loop.ready.WithIf(t.it.continueSet, OwnerStep)))
  }

  /** `_continue.wait()` returns, or `CancelledError` comes out of it. */
  function HandshakeTurn(s: State, cancel: bool, c: Choice): State {
    if cancel then Raised(s.(log := s.log.(turn := s.log.turn.(cutOff := !s.log.turn.sourceRan))),
                            INTERRUPTION, c)
    else
      var u := s.(it := s.it.(continueSet := false), log := s.log.(turn := s.log.turn.(sourceRan := true)));
      if u.it.stopSet then LeaveLoop(u, c) else SourceTurn(u, c)
  }

  /** Before `_run`: a cancellation ends the task, and the source is never touched. */
  function AdmittingTurn(s: State, cancel: bool, c: Choice): State {
    if cancel then FinishOwner(s) else if c.admitting then s else SourceTurn(s, c)
  }

  /** `Task.uncancel`, as `asyncio.timeout` calls it on the way out of a deadline that has passed. */
  function TakeBack(s: State, c: Choice): State {
    s.(loop := s.loop.(deadlines := if c.takenBack <= s.loop.deadlines then s.loop.deadlines - c.takenBack else 0))
  }

  function OwnerTurn(s: State, c: Choice): State {
    OwnerGoesOn(TakeBack(s.(loop := s.loop.(ownerCancelPending := false)), c), s.loop.ownerCancelPending, c)
  }

  function OwnerGoesOn(s: State, cancel: bool, c: Choice): State {
    match s.loop.owner
    case Admitting => AdmittingTurn(s, cancel, c)
    case InSource => SourceTurn(s, c)
    case AtHandshake => HandshakeTurn(s.(it := s.it.(waitingForContinue := false)), cancel, c)
    case InClose => LeaveLoop(s, c)
    case Finished => s
  }

  // ---------------------------------------------------------------- the watcher

  function HandOver(s: State): State {
    if s.loop.owner == Finished then EndWatcher(s, false)
    else if s.it.itemOutstanding then EndWatcher(s.(it := s.it.(interruptAfterContinue := true)), true)
    else if s.it.waitingForContinue then EndWatcher(ScheduleInterrupt(s), true)
    else EndWatcher(InterruptFor(s, true, false), true)
  }

  function ObserverLost(s: State): State {
    EndWatcher(InterruptFor(SetContinue(s.(it := s.it.(stopSet := true))), true, true), false)
  }

  /** `CancelledError` comes out of the observation. */
  function WatchInterrupted(s: State, o: Observation): State {
    match o
    case Sound => HandOver(s)
    case Evidence => EndWatcher(s.(log := s.log.(losses := s.log.losses.(withheld := true))), true)
    case Broken => ObserverLost(s)
  }

  /** The owner has ended, or the observation has. */
  function WatchResumed(s: State, o: Observation): State {
    if o == Broken then ObserverLost(s)
    else if s.loop.owner == Finished then EndWatcher(s, o == Evidence)
    else s
  }

  function WatcherTurn(s0: State, c: Choice): State {
    var cancel := s0.loop.watcherCancelPending;
    var s := s0.(loop := s0.loop.(watcherCancelPending := false));
    match s.loop.watcher
    case NotStarted =>
      if cancel then EndWatcher(s, true)
      else
        var t := s.(it := s.it.(watchStarted := true), loop := s.loop.(watcher := Watching));
        WatchResumed(t, c.observation)
    case Watching => if cancel then WatchInterrupted(s, c.observation) else WatchResumed(s, c.observation)
    case Ended(_) => s
  }

  predicate NeverStarted(s: State) {
    s.loop.watcher == Ended(true) && !s.it.watchStarted && s.loop.owner != Finished
  }

  function NeverStartedTurn(s: State): State {
    if NeverStarted(s) then InterruptFor(s, true, false) else s
  }

  // ---------------------------------------------------------------- the reader and the closer

  /** `_join_source_owners`: first the owner, then the watcher; `Away` once both are done. */
  function JoinPc(s: State): CallerPc {
    if s.loop.owner != Finished then JoinsOwner else if !s.loop.watcher.Ended? then JoinsWatcher else Away
  }

  function JoinReader(s: State): State {
    s.(loop := s.loop.(reader := JoinPc(s)),
       log := s.log.(readerJoined := s.log.readerJoined || JoinPc(s) == Away))
  }

  function JoinCloser(s: State): State {
    s.(loop := s.loop.(closer := JoinPc(s)),
       log := s.log.(closerJoined := s.log.closerJoined || JoinPc(s) == Away))
  }

  function TakeEntry(s: State): State
    requires s.it.queue != []
  {
    var e := s.it.queue[0];
    var taken := if e.Item? then [e.value] else [];
    var t := s.(it := s.it.(queue := s.it.queue[1..],
                            itemOutstanding := s.it.itemOutstanding || e.Item?,
                            closed := s.it.closed || e == Terminal),
                loop := s.loop.(reader := Away),
                log := s.log.(delivered := s.log.delivered + taken));
    if e == Terminal then JoinReader(t) else t
  }

  function ReaderTurn(s: State): State {
    match s.loop.reader
    case AtQueue =>
      if s.loop.readerCancelPending then s.(loop := s.loop.(reader := Away, readerCancelPending := false))
      else if s.it.queue == [] then s else TakeEntry(s)
    case Away => s
    case _ => JoinReader(s)
  }

  function CloserTurn(s: State): State {
    if s.loop.closer == Away then s else JoinCloser(s)
  }

  function Release(s: State): State {
    if !s.it.itemOutstanding then s
    else
      var t := SetContinue(s.(it := s.it.(itemOutstanding := false)));
      if t.it.interruptAfterContinue then ScheduleInterrupt(t.(it := t.it.(interruptAfterContinue := false)))
      else t
  }

  /** A call of `__anext__`, up to its return or its first suspension. */
  function Anext(s: State): State {
    if s.it.closed then s
    else
      var t := Release(s);
      if t.it.queue != [] then TakeEntry(t) else t.(loop := t.loop.(reader := AtQueue))
  }

  /** A call of `aclose`, up to its return or its first suspension. */
  function Aclose(s: State): State {
    if s.it.closed then s
    else
      var t := SetContinue(s.(it := s.it.(closed := true, stopSet := true)));
      JoinCloser(if t.it.interruptedByCleanup then t else InterruptFor(t, false, true))
  }

  // ---------------------------------------------------------------- runs

  datatype Action =
    | CallAnext | CallAclose
    | CancelReader | CancelWatcher
    | CancelOwnerDirectly       // the event loop is torn down
    | DeadlineFires             // of an `asyncio.timeout` inside the source
    | ResumeWatcher             // the watcher's wait itself fails
    | ResumeOwner               // what the owner awaits has completed
    | Tick(handle: Handle, choice: Choice)      // run the oldest ready handle

  predicate Enabled(s: State, a: Action) {
    match a
    case CallAnext => s.loop.reader == Away
    case CancelReader => s.loop.reader != Away
    case CancelWatcher => !s.loop.watcher.Ended?
    case CancelOwnerDirectly => s.loop.owner != Finished
    case DeadlineFires => s.loop.owner in {InSource, AtHandshake, InClose}
    case ResumeWatcher => s.loop.watcher == Watching
    case ResumeOwner => s.loop.owner in {Admitting, InSource, InClose}
    case Tick(h, _) => s.loop.ready.Oldest(h)
    case CallAclose => true
  }

  function RunHandle(s: State, h: Handle, c: Choice): State {
    match h
    case OwnerStep => OwnerTurn(s, c)
    case WatcherStep => WatcherTurn(s, c)
    case ReaderStep => ReaderTurn(s)
    case CloserStep => CloserTurn(s)
    case CancelOwnerIfRunning => InterruptFor(s, true, false)
    case PublishCompletion => Publish(s)
    case WatchNeverStarted => NeverStartedTurn(s)
  }

  function Next(s: State, a: Action): State
    requires Enabled(s, a)
  {
    match a
    case CallAnext => Anext(s)
    case CallAclose => Aclose(s)
    case CancelReader =>
      // A join absorbs the cancellation; a suspended `get` does not.
      if s.loop.reader == AtQueue then Schedule(s.(loop := s.loop.(readerCancelPending := true)), ReaderStep)
      else s
    case CancelWatcher =>
      Schedule(s.(loop := s.loop.(watcherCancelPending := true), log := s.log.(watcherCancelled := true)),
               WatcherStep)
    case CancelOwnerDirectly => CancelOwner(s)
    case DeadlineFires =>
      Schedule(s.(loop := s.loop.(ownerCancelPending := true, deadlines := s.loop.deadlines + 1)), OwnerStep)
    case ResumeWatcher => Schedule(s, WatcherStep)
    case ResumeOwner => Schedule(s, OwnerStep)
    case Tick(h, c) => RunHandle(s.(loop := s.loop.(ready := s.loop.ready.Without(h))), h, c)
  }

  predicate IsRun(s: State, run: seq<Action>)
    decreases |run|
  {
    run == [] || (Enabled(s, run[0]) && IsRun(Next(s, run[0]), run[1..]))
  }

  function After(s: State, run: seq<Action>): State
    requires IsRun(s, run)
    decreases |run|
  {
    if run == [] then s else After(Next(s, run[0]), run[1..])
  }

  // ---------------------------------------------------------------- the invariant

  /** Whoever can go on is in the ready queue. */
  ghost predicate LoopOk(s: State) {
    && s.loop.ready.Ordered()
    && (s.loop.ready.Has(OwnerStep) ==> s.loop.owner != Finished)
    && (s.loop.ownerCancelPending ==> s.loop.ready.Has(OwnerStep))
    && (s.loop.owner == AtHandshake ==>
          (s.loop.ready.Has(OwnerStep) <==> s.it.continueSet || s.loop.ownerCancelPending))
    && (s.loop.watcher == NotStarted ==> s.loop.ready.Has(WatcherStep))
    && (s.loop.ready.Has(WatcherStep) ==> !s.loop.watcher.Ended?)
    && (s.loop.watcherCancelPending ==> s.loop.ready.Has(WatcherStep))
    && (s.loop.watcher == Watching && s.loop.owner == Finished ==> s.loop.ready.Has(WatcherStep))
    && (s.loop.ready.Has(ReaderStep) ==> s.loop.reader != Away)
    && (s.loop.readerCancelPending ==> s.loop.reader == AtQueue && s.loop.ready.Has(ReaderStep))
    && (s.loop.reader == AtQueue && s.it.queue != [] ==> s.loop.ready.Has(ReaderStep))
    && (s.loop.ready.Has(CloserStep) ==> s.loop.closer != Away)
  }

  ghost predicate JoinsOk(s: State) {
    && (s.loop.reader == JoinsOwner ==> s.loop.owner == Finished && s.loop.ready.Has(ReaderStep))
    && (s.loop.reader == JoinsWatcher ==>
          s.loop.owner == Finished && (s.loop.watcher.Ended? ==> s.loop.ready.Has(ReaderStep)))
    && (s.loop.closer == JoinsOwner && s.loop.owner == Finished ==> s.loop.ready.Has(CloserStep))
    && (s.loop.closer == JoinsWatcher ==>
          s.loop.owner == Finished && (s.loop.watcher.Ended? ==> s.loop.ready.Has(CloserStep)))
    && s.loop.closer != AtQueue
    && (s.loop.closer != Away || s.loop.reader in {JoinsOwner, JoinsWatcher} ==> s.it.closed)
    && (s.loop.closer != Away ==> s.it.stopSet)
    && (s.log.readerJoined || s.log.closerJoined ==> s.loop.owner == Finished && s.loop.watcher.Ended?)
  }

  function Rank(e: Entry): nat {
    match e case Item(_) => 0 case Interrupted => 1 case Terminal => 2
  }

  /** item? INTERRUPTED? TERMINAL? */
  ghost predicate Shape(q: seq<Entry>) {
    forall i, j :: 0 <= i < j < |q| ==> Rank(q[i]) < Rank(q[j])
  }

  ghost predicate QueueOk(s: State) {
    && Shape(s.it.queue)
    && (Interrupted in s.it.queue ==> s.it.interruptedByCleanup)
    && (Terminal in s.it.queue ==> s.it.terminalPublished)
    && (s.it.terminalPublished ==> s.loop.owner == Finished)
    && (s.loop.owner == Finished && !s.it.terminalPublished ==> s.loop.ready.Has(PublishCompletion))
    && (s.loop.ready.Has(PublishCompletion) ==> s.loop.owner == Finished)
    && (s.it.terminalPublished ==> Terminal in s.it.queue || (s.it.closed && s.loop.reader != AtQueue))
    && s.log.terminals == (if s.it.terminalPublished then 1 else 0)
  }

  function Unread(q: seq<Entry>): seq<int> {
    if q != [] && q[0].Item? then [q[0].value] else []
  }

  ghost predicate HandshakeOk(s: State) {
    && s.log.yielded == s.log.delivered + Unread(s.it.queue) + s.log.dropped
    && (s.log.dropped != [] ==> s.it.stopSet && |s.log.dropped| == 1 && s.loop.owner in {InClose, Finished})
    && (s.it.itemOutstanding ==> s.log.dropped == [] && s.loop.reader == Away)
    && (s.it.itemOutstanding || s.log.dropped != [] ==> Unread(s.it.queue) == [])
    && (s.it.waitingForContinue <==> s.loop.owner == AtHandshake)
    && (s.loop.owner in {Admitting, InSource} ==> NothingProduced(s))
    && (s.loop.owner == AtHandshake ==> AtHandshakeOk(s))
  }

  ghost predicate NothingProduced(s: State) {
    && !s.it.itemOutstanding
    && !s.it.interruptedByCleanup
    && s.it.queue == []
    && (s.it.continueSet ==> s.it.stopSet)
  }

  /** The item is in the queue, or with the reader, or its release is already on its way. */
  ghost predicate AtHandshakeOk(s: State) {
    && !s.it.interruptedByCleanup
    && (s.it.queue == [] || (|s.it.queue| == 1 && s.it.queue[0].Item?))
    && (s.it.queue == [] && !s.it.itemOutstanding ==> s.it.continueSet)
    && (s.it.continueSet && !s.it.stopSet ==> s.it.queue == [] && !s.it.itemOutstanding)
    && (s.it.stopSet ==> s.it.continueSet)
  }

  /** A cancellation of the watcher is on its way to the owner, or has arrived. */
  ghost predicate CancellationUnderway(s: State) {
    || s.loop.owner == Finished
    || s.loop.ownerCancelling
    || s.loop.watcherCancelPending
    || (s.loop.watcher == Ended(true) && !s.it.watchStarted && s.loop.ready.Has(WatchNeverStarted))
    || (s.it.interruptAfterContinue && s.it.itemOutstanding)
    || s.loop.ready.Has(CancelOwnerIfRunning)
  }

  ghost predicate WatchOk(s: State) {
    && (s.loop.watcher == NotStarted || s.loop.watcher == Ended(true) || s.it.watchStarted)
    && (s.loop.watcher == NotStarted ==> !s.it.watchStarted)
    && (s.it.interruptAfterContinue ==> s.loop.watcher == Ended(true) && s.it.itemOutstanding)
    && (s.loop.ready.Has(CancelOwnerIfRunning) ==>
          s.loop.watcher == Ended(true) && !s.it.interruptAfterContinue)
    && (s.it.interruptAfterContinue || s.loop.ready.Has(CancelOwnerIfRunning) ==> s.it.watchStarted)
    && s.log.cancelsSent <= 1
    && (s.log.cancelsSent == 1 ==> s.loop.ownerCancelling)
    && (s.it.stopSet ==>
          s.loop.owner == Finished || s.loop.ownerCancelling || s.it.interruptedByCleanup || s.log.losses.stop)
    && (s.it.interruptedByCleanup ==> s.loop.owner in {InClose, Finished})
  }

  /** The watcher's hand-over is made once: after it went nowhere nothing else is on its way. */
  ghost predicate LossOk(s: State) {
    && (s.log.watcherCancelled ==> CancellationUnderway(s) || GivenUp(s))
    && (GivenUp(s) ==>
          && s.loop.watcher.Ended?
          && (s.it.watchStarted || !s.loop.ready.Has(WatchNeverStarted))
          && !s.loop.watcherCancelPending
          && !s.it.interruptAfterContinue
          && !s.loop.ready.Has(CancelOwnerIfRunning))
  }

  predicate GivenUp(s: State) {
    s.log.losses.handOver || s.log.losses.withheld
  }

  /** The owner's step stands ahead of the scheduled interrupt. */
  ghost predicate OwnerFirst(r: Ready) {
    r.Has(OwnerStep) && r.Has(CancelOwnerIfRunning)
    && r.place[OwnerStep] < r.place[CancelOwnerIfRunning]
  }

  /** The owner's step, if there is one, stands behind the scheduled interrupt. */
  ghost predicate OwnerBehind(r: Ready) {
    r.Has(OwnerStep) && r.Has(CancelOwnerIfRunning) ==>
      r.place[CancelOwnerIfRunning] < r.place[OwnerStep]
  }

  /** Where the owner is while an interrupt is scheduled: a source released before it runs first,
      unless a deadline cuts the handshake off; one that was not does not run at all. */
  ghost predicate TurnOk(s: State) {
    s.loop.ready.Has(CancelOwnerIfRunning) && !s.loop.ownerCancelling ==>
      if s.log.turn.cutOff then !s.log.turn.sourceRan && s.loop.owner in {InClose, Finished}
      else if s.log.turn.releasedFirst then s.log.turn.sourceRan || ReleasedAhead(s)
      else !s.log.turn.sourceRan && (ReleasedBehind(s) || s.loop.owner in {InClose, Finished})
  }

  ghost predicate ReleasedAhead(s: State) {
    s.loop.owner == AtHandshake && s.it.continueSet && OwnerFirst(s.loop.ready)
  }

  ghost predicate ReleasedBehind(s: State) {
    s.loop.owner == AtHandshake && (s.loop.ownerCancelPending || OwnerBehind(s.loop.ready))
  }

  ghost predicate Inv(s: State) {
    LoopOk(s) && JoinsOk(s) && QueueOk(s) && HandshakeOk(s) && WatchOk(s) && LossOk(s) && TurnOk(s)
  }

  // ---------------------------------------------------------------- the owner keeps the invariant

  /** The owner is running, and would satisfy the invariant if it suspended at `pc` now. */
  ghost predicate RunningTo(s: State, pc: OwnerPc) {
    Inv(s.(loop := s.loop.(owner := pc))) && !s.loop.ready.Has(OwnerStep)
  }

  lemma FinishKeeps(s: State)
    requires RunningTo(s, InClose)
    ensures Inv(FinishOwner(s))
  {
  }

  /** Publishing belongs to the owner's last step; the result is as if the ended task published. */
  lemma PublishKeeps(s: State)
    requires Inv(s) && s.loop.owner == Finished
    ensures Inv(Publish(s))
  {
    assert Unread(s.it.queue + [Terminal]) == Unread(s.it.queue);
  }

  lemma PublishThenFinish(s: State)
    requires !s.it.terminalPublished
    ensures
      var t, u := FinishOwner(Publish(s)), Publish(FinishOwner(s));
      && t == u.(loop := u.loop.(ready := t.loop.ready))
      && forall h :: t.loop.ready.Has(h) <==> u.loop.ready.Has(h)
  {
  }

  /** The order of the ready queue matters only while an interrupt is scheduled. */
  lemma SameHandlesKeep(s: State, r: Ready)
    requires Inv(s) && s.loop.owner == Finished && r.Ordered()
    requires forall h :: r.Has(h) <==> s.loop.ready.Has(h)
    ensures Inv(s.(loop := s.loop.(ready := r)))
  {
  }

  lemma PublishAndFinishKeeps(s: State)
    requires RunningTo(s, InClose)
    ensures Inv(FinishOwner(Publish(s)))
  {
    FinishKeeps(s);
    PublishKeeps(FinishOwner(s));
    PublishThenFinish(s);
    SameHandlesKeep(Publish(FinishOwner(s)), FinishOwner(Publish(s)).loop.ready);
  }

  lemma LeaveLoopKeeps(s: State, c: Choice)
    requires RunningTo(s, InClose)
    ensures Inv(LeaveLoop(s, c))
  {
    if !c.closeParks { PublishAndFinishKeeps(s); }
  }

  lemma InterruptedEntryKeeps(s: State)
    requires RunningTo(s, InClose) && !s.it.interruptedByCleanup
    ensures RunningTo(Put(s.(it := s.it.(interruptedByCleanup := true)), Interrupted), InClose)
  {
    assert Unread(s.it.queue + [Interrupted]) == Unread(s.it.queue);
  }

  lemma RaisedKeeps(s: State, e: Error, c: Choice)
    requires RunningTo(s, InClose) && !s.it.interruptedByCleanup
    ensures Inv(Raised(s, e, c))
  {
    if e.Cancelled? && (s.it.stopSet || c.cleanupRequested) {
      InterruptedEntryKeeps(s);
      LeaveLoopKeeps(Put(s.(it := s.it.(interruptedByCleanup := true)), Interrupted), c);
    } else {
      LeaveLoopKeeps(s, c);
    }
  }

  lemma DroppedKeeps(s: State, v: int)
    requires RunningTo(s, InSource) && s.it.stopSet
    ensures RunningTo(s.(log := s.log.(yielded := s.log.yielded + [v], dropped := s.log.dropped + [v])),
                      InClose)
  {
  }

  function QueuedItem(s: State, v: int, r: Ready): State {
    s.(it := s.it.(queue := s.it.queue + [Item(v)], waitingForContinue := true),
       loop := s.loop.(ready := r, owner := AtHandshake),
       log := s.log.(yielded := s.log.yielded + [v]))
  }

  lemma QueuedItemKeeps(s: State, v: int, r: Ready)
    requires RunningTo(s, InSource) && !s.it.stopSet && r.Ordered()
    requires forall g :: r.Has(g) <==> s.loop.ready.Has(g) || (s.loop.reader == AtQueue && g == ReaderStep)
    ensures !s.it.continueSet && Inv(QueuedItem(s, v, r))
  {
  }

  lemma QueuedKeeps(s: State, c: Choice, v: int)
    requires RunningTo(s, InSource) && c.act == Yield(v) && !s.it.stopSet
    ensures Inv(SourceTurn(s, c))
  {
    var r := s.loop.ready.WithIf(s.loop.reader == AtQueue, ReaderStep);
    QueuedItemKeeps(s, v, r);
    assert SourceTurn(s, c) == QueuedItem(s, v, r);
  }

  lemma YieldKeeps(s: State, c: Choice, v: int)
    requires RunningTo(s, InSource) && c.act == Yield(v)
    ensures Inv(SourceTurn(s, c))
  {
    if s.it.stopSet {
      DroppedKeeps(s, v);
      LeaveLoopKeeps(s.(log := s.log.(yielded := s.log.yielded + [v], dropped := s.log.dropped + [v])), c);
    } else {
      QueuedKeeps(s, c, v);
    }
  }

  lemma SourceTurnKeeps(s: State, c: Choice)
    requires RunningTo(s, InSource)
    ensures Inv(SourceTurn(s, c))
  {
    match c.act
    case Park =>
    case Exhaust => LeaveLoopKeeps(s, c);
    case Raise(e) => RaisedKeeps(s, e, c);
    case Yield(v) => YieldKeeps(s, c, v);
  }

  ghost predicate OwnerDue(s: State) {
    Inv(s) && s.loop.ready.Oldest(OwnerStep)
  }

  /** The owner's step has begun. */
  function OwnerStarts(s: State, c: Choice): State {
    TakeBack(s.(loop := s.loop.(ready := s.loop.ready.Without(OwnerStep), ownerCancelPending := false)), c)
  }

  function OwnerRuns(s: State, c: Choice): State {
    OwnerTurn(s.(loop := s.loop.(ready := s.loop.ready.Without(OwnerStep))), c)
  }

  lemma NeverAdmittedKeeps(s: State, c: Choice)
    requires OwnerDue(s) && s.loop.owner == Admitting && (s.loop.ownerCancelPending || c.admitting)
    ensures Inv(OwnerRuns(s, c))
  {
    if s.loop.ownerCancelPending {
      FinishKeeps(OwnerStarts(s, c));
    }
  }

  lemma SourceRunsKeeps(s: State, c: Choice)
    requires OwnerDue(s)
    requires s.loop.owner == InSource
             || (s.loop.owner == Admitting && !s.loop.ownerCancelPending && !c.admitting)
    ensures Inv(OwnerRuns(s, c))
  {
    SourceTurnKeeps(OwnerStarts(s, c), c);
  }

  lemma InterruptedTurnKeeps(s: State, c: Choice)
    requires OwnerDue(s) && s.loop.owner == AtHandshake && s.loop.ownerCancelPending
    ensures Inv(OwnerRuns(s, c))
  {
    hide Raised;
    var t := OwnerStarts(s, c);
    RaisedKeeps(t.(it := t.it.(waitingForContinue := false),
                   log := t.log.(turn := t.log.turn.(cutOff := !t.log.turn.sourceRan))), INTERRUPTION, c);
  }

  function Resumed(s: State, c: Choice): State {
    var t := OwnerStarts(s, c);
    t.(it := t.it.(waitingForContinue := false, continueSet := false),
       log := t.log.(turn := t.log.turn.(sourceRan := true)))
  }

  lemma StoppedTurnKeeps(s: State, c: Choice)
    requires OwnerDue(s) && s.loop.owner == AtHandshake && !s.loop.ownerCancelPending && s.it.stopSet
    ensures Inv(OwnerRuns(s, c))
  {
    LeaveLoopKeeps(Resumed(s, c), c);
  }

  lemma ReleasedTurnKeeps(s: State, c: Choice)
    requires OwnerDue(s) && s.loop.owner == AtHandshake && !s.loop.ownerCancelPending && !s.it.stopSet
    ensures Inv(OwnerRuns(s, c))
  {
    SourceTurnKeeps(Resumed(s, c), c);
  }

  lemma ClosingTurnKeeps(s: State, c: Choice)
    requires OwnerDue(s) && s.loop.owner == InClose
    ensures Inv(OwnerRuns(s, c))
  {
    LeaveLoopKeeps(OwnerStarts(s, c), c);
  }

  lemma OwnerRunsKeeps(s: State, c: Choice)
    requires OwnerDue(s)
    ensures Inv(OwnerRuns(s, c))
  {
    match s.loop.owner
    case Admitting =>
      if s.loop.ownerCancelPending || c.admitting { NeverAdmittedKeeps(s, c); }
      else { SourceRunsKeeps(s, c); }
    case AtHandshake =>
      if s.loop.ownerCancelPending { InterruptedTurnKeeps(s, c); }
      else if s.it.stopSet { StoppedTurnKeeps(s, c); }
      else { ReleasedTurnKeeps(s, c); }
    case InSource => SourceRunsKeeps(s, c);
    case InClose => ClosingTurnKeeps(s, c);
    case Finished =>
  }

  // ---------------------------------------------------------------- the watcher keeps the invariant

  function WatcherRuns(s: State, c: Choice): State {
    WatcherTurn(s.(loop := s.loop.(ready := s.loop.ready.Without(WatcherStep))), c)
  }

  ghost predicate WatcherDue(s: State) {
    Inv(s) && s.loop.ready.Has(WatcherStep)
  }

  lemma NeverWatchedKeeps(s: State, c: Choice)
    requires WatcherDue(s) && s.loop.watcher == NotStarted && s.loop.watcherCancelPending
    ensures Inv(WatcherRuns(s, c))
  {
  }

  /** The watcher is past its first line and runs; a cancellation may be what it just met. */
  ghost predicate WatcherRunning(s: State) {
    && Inv(s.(loop := s.loop.(ready := s.loop.ready.With(WatcherStep), watcherCancelPending := true)))
    && !s.loop.ready.Has(WatcherStep) && s.loop.ready.Ordered() && !s.loop.watcherCancelPending
    && s.loop.watcher == Watching
  }

  /** The watcher's step has begun. */
  function WatcherStarts(s: State): State {
    s.(it := s.it.(watchStarted := true),
       loop := s.loop.(ready := s.loop.ready.Without(WatcherStep), watcherCancelPending := false, watcher := Watching))
  }

  lemma WatcherStartsRunning(s: State)
    requires WatcherDue(s) && !s.loop.watcher.Ended?
    ensures WatcherRunning(WatcherStarts(s))
  {
  }

  lemma NothingToWatchKeeps(s: State, cancelled: bool)
    requires WatcherRunning(s) && s.loop.owner == Finished
    ensures Inv(EndWatcher(s, cancelled))
  {
  }

  lemma DeferredHandOverKeeps(s: State)
    requires WatcherRunning(s) && s.loop.owner != Finished && s.it.itemOutstanding
    ensures Inv(HandOver(s))
  {
  }

  lemma ScheduledHandOverKeeps(s: State)
    requires WatcherRunning(s) && s.loop.owner != Finished && !s.it.itemOutstanding && s.it.waitingForContinue
    ensures Inv(HandOver(s))
  {
  }

  lemma DirectHandOverKeeps(s: State)
    requires WatcherRunning(s) && s.loop.owner != Finished && !s.it.itemOutstanding && !s.it.waitingForContinue
    ensures Inv(HandOver(s))
  {
  }

  lemma HandOverKeeps(s: State)
    requires WatcherRunning(s)
    ensures Inv(HandOver(s))
  {
    if s.loop.owner == Finished { NothingToWatchKeeps(s, false); }
    else if s.it.itemOutstanding { DeferredHandOverKeeps(s); }
    else if s.it.waitingForContinue { ScheduledHandOverKeeps(s); }
    else { DirectHandOverKeeps(s); }
  }

  lemma WithheldKeeps(s: State)
    requires WatcherRunning(s)
    ensures Inv(WatchInterrupted(s, Evidence))
  {
  }

  lemma ObserverLostReachesKeeps(s: State)
    requires WatcherRunning(s) && Reaches(s)
    ensures Inv(ObserverLost(s))
  {
  }

  lemma ObserverLostMissesKeeps(s: State)
    requires WatcherRunning(s) && Misses(s)
    ensures Inv(ObserverLost(s))
  {
  }

  lemma ObserverLostLateKeeps(s: State)
    requires WatcherRunning(s) && !Reaches(s) && !Misses(s)
    ensures Inv(ObserverLost(s))
  {
  }

  lemma ObserverLostKeeps(s: State)
    requires WatcherRunning(s)
    ensures Inv(ObserverLost(s))
  {
    if Reaches(s) { ObserverLostReachesKeeps(s); }
    else if Misses(s) { ObserverLostMissesKeeps(s); }
    else { ObserverLostLateKeeps(s); }
  }

  lemma StillWatchingKeeps(s: State)
    requires WatcherDue(s) && !s.loop.watcher.Ended? && !s.loop.watcherCancelPending && s.loop.owner != Finished
    ensures Inv(WatcherStarts(s))
  {
  }

  /** Both ways into the body of the watcher agree with `WatcherStarts`. */
  lemma WatcherBody(s: State, c: Choice)
    requires WatcherDue(s)
    requires s.loop.watcher == Watching || (s.loop.watcher == NotStarted && !s.loop.watcherCancelPending)
    ensures
      var t := WatcherStarts(s);
      WatcherRuns(s, c) == if s.loop.watcherCancelPending then WatchInterrupted(t, c.observation)
                           else WatchResumed(t, c.observation)
  {
    assert s.loop.watcher == Watching ==> s.it.watchStarted;
  }

  lemma WatcherRunsKeeps(s: State, c: Choice)
    requires WatcherDue(s)
    ensures Inv(WatcherRuns(s, c))
  {
    hide HandOver, ObserverLost, WatcherTurn, WatcherRuns;
    if s.loop.watcher == NotStarted && s.loop.watcherCancelPending {
      NeverWatchedKeeps(s, c);
    } else {
      var t := WatcherStarts(s);
      WatcherBody(s, c);
      WatcherStartsRunning(s);
      if c.observation == Broken { ObserverLostKeeps(t); }
      else if s.loop.watcherCancelPending {
        if c.observation == Sound { HandOverKeeps(t); } else { WithheldKeeps(t); }
      }
      else if t.loop.owner == Finished { NothingToWatchKeeps(t, c.observation == Evidence); }
      else { StillWatchingKeeps(s); }
    }
  }

  // ---------------------------------------------------------------- reader, closer and callbacks

  /** The reader runs: it is not scheduled, and would satisfy the invariant if its call returned now. */
  ghost predicate ReaderRunning(s: State) {
    && Inv(s.(loop := s.loop.(reader := Away, readerCancelPending := false)))
    && !s.loop.ready.Has(ReaderStep)
    && !s.loop.readerCancelPending
  }

  lemma TakeItemKeeps(s: State)
    requires ReaderRunning(s) && s.it.queue != [] && s.it.queue[0].Item? && !s.it.itemOutstanding
    ensures Inv(TakeEntry(s))
  {
  }

  lemma TakeInterruptedKeeps(s: State)
    requires ReaderRunning(s) && s.it.queue != [] && s.it.queue[0] == Interrupted
    ensures Inv(TakeEntry(s))
  {
  }

  lemma JoinReaderKeeps(s: State)
    requires ReaderRunning(s) && s.it.closed && !s.it.itemOutstanding && s.loop.owner == Finished
    ensures Inv(JoinReader(s))
  {
  }

  function TakenTerminal(s: State): State
    requires s.it.queue != []
  {
    s.(it := s.it.(queue := s.it.queue[1..], closed := true), loop := s.loop.(reader := Away),
       log := s.log.(delivered := s.log.delivered + []))
  }

  lemma TakenTerminalKeeps(s: State)
    requires ReaderRunning(s) && s.it.queue != [] && s.it.queue[0] == Terminal
    ensures ReaderRunning(TakenTerminal(s)) && TakenTerminal(s).loop.owner == Finished
  {
    assert s.log.delivered + [] == s.log.delivered;
  }

  lemma TakeEntryKeeps(s: State)
    requires ReaderRunning(s) && s.it.queue != [] && !s.it.itemOutstanding
    ensures Inv(TakeEntry(s))
  {
    match s.it.queue[0]
    case Item(_) => TakeItemKeeps(s);
    case Interrupted => TakeInterruptedKeeps(s);
    case Terminal => TakenTerminalKeeps(s); JoinReaderKeeps(TakenTerminal(s));
  }

  lemma ReaderStarts(s: State)
    requires Inv(s) && s.loop.ready.Has(ReaderStep)
    ensures !s.it.itemOutstanding
    ensures ReaderRunning(s.(loop := s.loop.(ready := s.loop.ready.Without(ReaderStep),
                                             readerCancelPending := false)))
  {
  }

  lemma ReaderRunsKeeps(s: State)
    requires Inv(s) && s.loop.ready.Has(ReaderStep)
    ensures Inv(ReaderTurn(s.(loop := s.loop.(ready := s.loop.ready.Without(ReaderStep)))))
  {
    var p := s.(loop := s.loop.(ready := s.loop.ready.Without(ReaderStep)));
    ReaderStarts(s);
    if s.loop.reader == AtQueue {
      if !s.loop.readerCancelPending && s.it.queue != [] { TakeEntryKeeps(p); }
    } else {
      JoinReaderKeeps(p);
    }
  }

  ghost predicate CloserRunning(s: State) {
    Inv(s.(loop := s.loop.(closer := Away))) && !s.loop.ready.Has(CloserStep) && s.it.closed
  }

  lemma JoinCloserKeeps(s: State)
    requires CloserRunning(s) && s.it.stopSet
    ensures Inv(JoinCloser(s))
  {
  }

  lemma CloserStarts(s: State)
    requires Inv(s) && s.loop.ready.Has(CloserStep)
    ensures s.loop.closer != Away && s.it.stopSet
    ensures CloserRunning(s.(loop := s.loop.(ready := s.loop.ready.Without(CloserStep))))
  {
  }

  lemma CloserRunsKeeps(s: State)
    requires Inv(s) && s.loop.ready.Has(CloserStep)
    ensures Inv(CloserTurn(s.(loop := s.loop.(ready := s.loop.ready.Without(CloserStep)))))
  {
    CloserStarts(s);
    JoinCloserKeeps(s.(loop := s.loop.(ready := s.loop.ready.Without(CloserStep))));
  }

  lemma InterruptRunsKeeps(s: State)
    requires Inv(s) && s.loop.ready.Has(CancelOwnerIfRunning)
    ensures Inv(InterruptFor(s.(loop := s.loop.(ready := s.loop.ready.Without(CancelOwnerIfRunning))), true, false))
  {
  }

  /** Nothing waits for this callback, save a cancellation that came before the watcher's first step. */
  lemma NeverStartedGoneKeeps(s: State)
    requires Inv(s) && !NeverStarted(s)
    ensures Inv(NeverStartedTurn(s.(loop := s.loop.(ready := s.loop.ready.Without(WatchNeverStarted)))))
  {
  }

  lemma NeverStartedCancelsKeeps(s: State)
    requires Inv(s) && NeverStarted(s)
    ensures Inv(NeverStartedTurn(s.(loop := s.loop.(ready := s.loop.ready.Without(WatchNeverStarted)))))
  {
  }

  lemma NeverStartedRunsKeeps(s: State)
    requires Inv(s) && s.loop.ready.Has(WatchNeverStarted)
    ensures Inv(NeverStartedTurn(s.(loop := s.loop.(ready := s.loop.ready.Without(WatchNeverStarted)))))
  {
    if NeverStarted(s) { NeverStartedCancelsKeeps(s); } else { NeverStartedGoneKeeps(s); }
  }

  lemma FirstPublishKeeps(s: State)
    requires Inv(s) && s.loop.ready.Has(PublishCompletion) && !s.it.terminalPublished
    ensures Inv(Publish(s.(loop := s.loop.(ready := s.loop.ready.Without(PublishCompletion)))))
  {
    assert Unread(s.it.queue + [Terminal]) == Unread(s.it.queue);
  }

  lemma PublishRunsKeeps(s: State)
    requires Inv(s) && s.loop.ready.Has(PublishCompletion)
    ensures Inv(Publish(s.(loop := s.loop.(ready := s.loop.ready.Without(PublishCompletion)))))
  {
    if !s.it.terminalPublished { FirstPublishKeeps(s); }
  }

  // ---------------------------------------------------------------- calls and cancellations

  lemma PlainReleaseKeeps(s: State)
    requires Inv(s) && s.it.itemOutstanding && !s.it.interruptAfterContinue
    ensures Inv(SetContinue(s.(it := s.it.(itemOutstanding := false))))
  {
  }

  lemma InterruptingReleaseKeeps(s: State)
    requires Inv(s) && s.it.itemOutstanding && s.it.interruptAfterContinue
    ensures
      var t := SetContinue(s.(it := s.it.(itemOutstanding := false)));
      Inv(ScheduleInterrupt(t.(it := t.it.(interruptAfterContinue := false))))
  {
  }

  lemma ReleaseKeeps(s: State)
    requires Inv(s) && s.loop.reader == Away
    ensures Inv(Release(s)) && Release(s).loop.reader == Away && !Release(s).it.itemOutstanding
    ensures Release(s).it.closed == s.it.closed && Release(s).it.queue == s.it.queue
  {
    if s.it.itemOutstanding {
      if s.it.interruptAfterContinue { InterruptingReleaseKeeps(s); } else { PlainReleaseKeeps(s); }
    }
  }

  lemma WaitingAtQueueKeeps(s: State)
    requires Inv(s) && s.loop.reader == Away && !s.it.itemOutstanding && !s.it.closed && s.it.queue == []
    ensures Inv(s.(loop := s.loop.(reader := AtQueue)))
  {
  }

  lemma AnextKeeps(s: State)
    requires Inv(s) && s.loop.reader == Away
    ensures Inv(Anext(s))
  {
    if !s.it.closed {
      var t := Release(s);
      ReleaseKeeps(s);
      if t.it.queue != [] { TakeEntryKeeps(t); } else { WaitingAtQueueKeeps(t); }
    }
  }

  function Stopping(s: State): State {
    var t := SetContinue(s.(it := s.it.(closed := true, stopSet := true)));
    if t.it.interruptedByCleanup then t else InterruptFor(t, false, true)
  }

  lemma StoppingKeeps(s: State)
    requires Inv(s) && !s.it.closed
    ensures Inv(Stopping(s)) && Stopping(s).it.closed && !Stopping(s).loop.ready.Has(CloserStep)
    ensures Stopping(s).loop.closer == Away && Stopping(s).it.stopSet
  {
  }

  lemma AcloseKeeps(s: State)
    requires Inv(s)
    ensures Inv(Aclose(s))
  {
    if !s.it.closed {
      StoppingKeeps(s);
      JoinCloserKeeps(Stopping(s));
    }
  }

  lemma CancelReaderKeeps(s: State)
    requires Inv(s) && s.loop.reader != Away
    ensures Inv(Next(s, CancelReader))
  {
  }

  lemma CancelWatcherKeeps(s: State)
    requires Inv(s) && !s.loop.watcher.Ended?
    ensures Inv(Next(s, CancelWatcher))
  {
  }

  lemma CancelOwnerKeeps(s: State)
    requires Inv(s) && s.loop.owner != Finished
    ensures Inv(CancelOwner(s))
  {
  }

  lemma ResumeOwnerKeeps(s: State)
    requires Inv(s) && s.loop.owner in {Admitting, InSource, InClose}
    ensures Inv(Schedule(s, OwnerStep))
  {
  }

  lemma DeadlineFiresKeeps(s: State)
    requires Inv(s) && s.loop.owner in {InSource, AtHandshake, InClose}
    ensures Inv(Next(s, DeadlineFires))
  {
  }

  lemma ResumeWatcherKeeps(s: State)
    requires Inv(s) && s.loop.watcher == Watching
    ensures Inv(Schedule(s, WatcherStep))
  {
  }

  lemma TickKeeps(s: State, h: Handle, c: Choice)
    requires Inv(s) && s.loop.ready.Oldest(h)
    ensures Inv(RunHandle(s.(loop := s.loop.(ready := s.loop.ready.Without(h))), h, c))
  {
    match h
    case OwnerStep => OwnerRunsKeeps(s, c);
    case WatcherStep => WatcherRunsKeeps(s, c);
    case ReaderStep => ReaderRunsKeeps(s);
    case CloserStep => CloserRunsKeeps(s);
    case CancelOwnerIfRunning => InterruptRunsKeeps(s);
    case PublishCompletion => PublishRunsKeeps(s);
    case WatchNeverStarted => NeverStartedRunsKeeps(s);
  }

  /** The invariant is inductive. */
  lemma NextKeepsInv(s: State, a: Action)
    requires Inv(s) && Enabled(s, a)
    ensures Inv(Next(s, a))
  {
    match a
    case CallAnext => AnextKeeps(s);
    case CallAclose => AcloseKeeps(s);
    case CancelReader => CancelReaderKeeps(s);
    case CancelWatcher => CancelWatcherKeeps(s);
    case CancelOwnerDirectly => CancelOwnerKeeps(s);
    case DeadlineFires => DeadlineFiresKeeps(s);
    case ResumeWatcher => ResumeWatcherKeeps(s);
    case ResumeOwner => ResumeOwnerKeeps(s);
    case Tick(h, c) => TickKeeps(s, h, c);
  }

  lemma {:induction false} RunKeepsInv(s: State, run: seq<Action>)
    requires Inv(s) && IsRun(s, run)
    ensures Inv(After(s, run))
    decreases |run|
  {
    if run != [] {
      NextKeepsInv(s, run[0]);
      RunKeepsInv(Next(s, run[0]), run[1..]);
    }
  }

  lemma NewIteratorOk()
    ensures Inv(NEW_ITERATOR)
  {
  }

  lemma EveryRunIsSafe(run: seq<Action>)
    requires IsRun(NEW_ITERATOR, run)
    ensures Inv(After(NEW_ITERATOR, run))
  {
    NewIteratorOk();
    RunKeepsInv(NEW_ITERATOR, run);
  }

  // ---------------------------------------------------------------- what a run guarantees

  function Reached(run: seq<Action>): State
    requires IsRun(NEW_ITERATOR, run)
  {
    After(NEW_ITERATOR, run)
  }

  /** The reader sees a prefix of what the source produced, at most one item behind; the missing item
      is waiting in the queue, or was produced after the stop. */
  lemma DeliveryIsExact(run: seq<Action>)
    requires IsRun(NEW_ITERATOR, run)
    ensures
      var s := Reached(run);
      && s.log.delivered <= s.log.yielded
      && |s.log.yielded| <= |s.log.delivered| + 1
      && s.log.yielded == s.log.delivered + Unread(s.it.queue) + s.log.dropped
      && (s.log.dropped != [] ==> s.it.stopSet)
  {
    EveryRunIsSafe(run);
  }

  lemma ReaderAtQueueHoldsNothing(run: seq<Action>)
    requires IsRun(NEW_ITERATOR, run)
    ensures Reached(run).loop.reader == AtQueue ==> !Reached(run).it.itemOutstanding
  {
    EveryRunIsSafe(run);
  }

  lemma TakingSparesTheProducer(s: State)
    requires s.it.queue != []
    ensures SameProducer(TakeEntry(s), s)
  {
  }

  /** The reader's state after its wait for an item ended with `CancelledError`. */
  function GaveUp(s: State): State {
    s.(loop := s.loop.(reader := Away, readerCancelPending := false,
                       ready := s.loop.ready.Without(ReaderStep)))
  }

  lemma CancelledGetGivesUp(s: State, c: Choice)
    requires s.loop.reader == AtQueue && s.loop.readerCancelPending && s.loop.ready.Oldest(ReaderStep)
    ensures Next(s, Tick(ReaderStep, c)) == GaveUp(s)
  {
    var p := s.(loop := s.loop.(ready := s.loop.ready.Without(ReaderStep)));
    assert Next(s, Tick(ReaderStep, c)) == RunHandle(p, ReaderStep, c) == ReaderTurn(p);
  }

  /** Cancelling a reader that waits for an item changes nothing but the reader: what is queued stays
      queued, and its next call does not release the producer a second time. */
  lemma CancelledReaderLosesNothing(run: seq<Action>, c: Choice)
    requires IsRun(NEW_ITERATOR, run)
    requires Reached(run).loop.reader == AtQueue && Reached(run).loop.readerCancelPending
    requires Reached(run).loop.ready.Oldest(ReaderStep)
    ensures Next(Reached(run), Tick(ReaderStep, c)) == GaveUp(Reached(run))
    ensures SameProducer(Anext(GaveUp(Reached(run))), GaveUp(Reached(run)))
  {
    ReaderAtQueueHoldsNothing(run);
    CancelledGetGivesUp(Reached(run), c);
    SecondCallReleasesNothing(GaveUp(Reached(run)));
  }

  predicate SameProducer(s: State, t: State) {
    && s.it.continueSet == t.it.continueSet
    && s.loop.owner == t.loop.owner
    && s.loop.ready.place == t.loop.ready.place
  }

  lemma SecondCallReleasesNothing(t: State)
    requires !t.it.itemOutstanding
    ensures SameProducer(Anext(t), t)
  {
    if t.it.closed || t.it.queue == [] { SecondCallWaits(t); } else { SecondCallTakes(t); }
  }

  lemma SecondCallWaits(t: State)
    requires !t.it.itemOutstanding && (t.it.closed || t.it.queue == [])
    ensures SameProducer(Anext(t), t)
  {
  }

  lemma SecondCallTakes(t: State)
    requires !t.it.itemOutstanding && !t.it.closed && t.it.queue != []
    ensures SameProducer(Anext(t), t)
  {
    TakingSparesTheProducer(t);
  }

  /** item? INTERRUPTED? TERMINAL?, with TERMINAL published once; once the owner is done and nobody
      closed the iterator, TERMINAL is there or its publication is scheduled. */
  lemma QueueIsWellFormed(run: seq<Action>)
    requires IsRun(NEW_ITERATOR, run)
    ensures
      var s := Reached(run);
      && Shape(s.it.queue)
      && s.log.terminals <= 1
      && (s.loop.owner == Finished && !s.it.closed ==>
            Terminal in s.it.queue || s.loop.ready.Has(PublishCompletion))
  {
    EveryRunIsSafe(run);
  }

  /** No deadlock: when no handle is ready and a caller is suspended, the owner waits for the source
      itself, neither parked at the handshake nor finished. */
  lemma NobodyIsStranded(run: seq<Action>)
    requires IsRun(NEW_ITERATOR, run)
    requires forall h :: !Reached(run).loop.ready.Has(h)
    requires Reached(run).loop.reader != Away || Reached(run).loop.closer != Away
    ensures Reached(run).loop.owner in {Admitting, InSource, InClose}
  {
    EveryRunIsSafe(run);
  }

  ghost predicate BothDone(s: State) {
    s.loop.owner == Finished && s.loop.watcher.Ended?
  }

  /** The `aclose` that closes the iterator, and the terminal path of `__anext__`, complete only after
      both tasks are done. */
  lemma JoinsAreComplete(run: seq<Action>)
    requires IsRun(NEW_ITERATOR, run)
    ensures Reached(run).log.readerJoined || Reached(run).log.closerJoined ==> BothDone(Reached(run))
  {
    EveryRunIsSafe(run);
  }

  /** The call of `aclose` does not suspend. */
  predicate AcloseReturnsAtOnce(s: State) {
    Aclose(s).loop.closer == s.loop.closer
  }

  /** Not every `aclose` joins: one that returns at once leaves a task running exactly when it found
      the iterator already closed by somebody whose join is not over. */
  lemma AcloseLeavesATaskIff(run: seq<Action>)
    requires IsRun(NEW_ITERATOR, run)
    ensures
      var s := Reached(run);
      AcloseReturnsAtOnce(s) && !BothDone(Aclose(s)) <==> s.it.closed && !BothDone(s)
  {
    EveryRunIsSafe(run);
  }

  lemma SecondAcloseDoesNotWait()
    ensures IsRun(NEW_ITERATOR, [CallAclose])
    ensures
      var s := Reached([CallAclose]);
      s.loop.closer == JoinsOwner && AcloseReturnsAtOnce(s) && Aclose(s) == s && s.loop.owner == Admitting
  {
    assert [CallAclose][1..] == [];
  }

  /** A cancellation of the watcher went nowhere: the source runs on, nobody has cancelled its owner,
      and nothing is on its way. */
  ghost predicate Lost(s: State) {
    s.log.watcherCancelled && !CancellationUnderway(s)
  }

  /** Exactly when a cancellation of the watcher is lost, whenever it came: its hand-over found the
      owner cancelled by nothing but a deadline of its own source, or it carried control evidence. */
  lemma CancellationIsLostIff(run: seq<Action>)
    requires IsRun(NEW_ITERATOR, run)
    requires Reached(run).log.watcherCancelled
    ensures
      var s := Reached(run);
      Lost(s) <==> GivenUp(s) && s.loop.owner != Finished && !s.loop.ownerCancelling
  {
    EveryRunIsSafe(run);
  }

  /** What a step of the owner has no part in. */
  predicate SameCancels(s: State, t: State) {
    && t.loop.ownerCancelling == s.loop.ownerCancelling
    && t.log.losses == s.log.losses
    && t.log.watcherCancelled == s.log.watcherCancelled
  }

  lemma LeavingSparesCancels(s: State, c: Choice)
    ensures SameCancels(s, LeaveLoop(s, c))
  {
  }

  lemma RaisingSparesCancels(s: State, e: Error, c: Choice)
    ensures SameCancels(s, Raised(s, e, c))
  {
    hide LeaveLoop;
    LeavingSparesCancels(s, c);
    LeavingSparesCancels(Put(s.(it := s.it.(interruptedByCleanup := true)), Interrupted), c);
  }

  lemma YieldingSparesCancels(s: State, v: int, c: Choice)
    ensures SameCancels(s, Yielded(s, v, c))
  {
    hide LeaveLoop;
    var t := s.(log := s.log.(yielded := s.log.yielded + [v]));
    LeavingSparesCancels(t.(log := t.log.(dropped := t.log.dropped + [v])), c);
  }

  lemma SourceSparesCancels(s: State, c: Choice)
    ensures SameCancels(s, SourceTurn(s, c))
  {
    hide LeaveLoop, Raised, Yielded;
    match c.act
    case Park =>
    case Exhaust => LeavingSparesCancels(s, c);
    case Raise(e) => RaisingSparesCancels(s, e, c);
    case Yield(v) => YieldingSparesCancels(s, v, c);
  }

  lemma HandshakeSparesCancels(s: State, cancel: bool, c: Choice)
    ensures SameCancels(s, HandshakeTurn(s, cancel, c))
  {
    hide LeaveLoop, Raised, SourceTurn;
    RaisingSparesCancels(s.(log := s.log.(turn := s.log.turn.(cutOff := !s.log.turn.sourceRan))), INTERRUPTION, c);
    var u := s.(it := s.it.(continueSet := false), log := s.log.(turn := s.log.turn.(sourceRan := true)));
    LeavingSparesCancels(u, c);
    SourceSparesCancels(u, c);
  }

  lemma OwnerSparesCancels(s: State, c: Choice)
    ensures SameCancels(s, OwnerTurn(s, c))
  {
    hide LeaveLoop, SourceTurn, HandshakeTurn;
    var t := TakeBack(s.(loop := s.loop.(ownerCancelPending := false)), c);
    var u := t.(it := t.it.(waitingForContinue := false));
    LeavingSparesCancels(t, c);
    SourceSparesCancels(t, c);
    HandshakeSparesCancels(u, s.loop.ownerCancelPending, c);
  }

  lemma ReaderSparesCancels(s: State)
    ensures SameCancels(s, ReaderTurn(s)) && SameCancels(s, CloserTurn(s)) && SameCancels(s, Publish(s))
  {
  }

  lemma AnextSparesCancels(s: State)
    ensures SameCancels(s, Anext(s))
  {
  }

  /** Once lost, a cancellation of the watcher stays lost until the owner ends by itself or is
      cancelled from elsewhere. */
  lemma LostForGood(s: State, a: Action)
    requires Inv(s) && Lost(s) && Enabled(s, a)
    requires a != CallAclose && a != CancelOwnerDirectly
    ensures Next(s, a).loop.owner == Finished || Lost(Next(s, a))
  {
    hide OwnerTurn, ReaderTurn, CloserTurn, Publish, Anext, WatcherTurn;
    NextKeepsInv(s, a);
    match a
    case CallAnext => AnextSparesCancels(s);
    case Tick(h, c) =>
      var p := s.(loop := s.loop.(ready := s.loop.ready.Without(h)));
      OwnerSparesCancels(p, c);
      ReaderSparesCancels(p);
    case _ =>
  }

  /** Otherwise it has arrived once nothing is ready, or it waits for the next `__anext__`. */
  lemma CancellationArrivesOrWaits(run: seq<Action>)
    requires IsRun(NEW_ITERATOR, run)
    requires Reached(run).log.watcherCancelled && !Lost(Reached(run))
    requires forall h :: !Reached(run).loop.ready.Has(h)
    ensures
      var s := Reached(run);
      || s.loop.owner == Finished
      || s.loop.ownerCancelling
      || (s.it.interruptAfterContinue && s.it.itemOutstanding)
  {
    EveryRunIsSafe(run);
  }

  /** A stop interrupts the owner too, unless it misses in the same way. */
  lemma StopInterruptsOrMisses(run: seq<Action>)
    requires IsRun(NEW_ITERATOR, run)
    requires Reached(run).it.stopSet && Reached(run).loop.owner != Finished
    ensures
      var s := Reached(run);
      s.loop.ownerCancelling || s.it.interruptedByCleanup || s.log.losses.stop
  {
    EveryRunIsSafe(run);
  }

  /** Exactly when the `aclose` that closes leaves the source uninterrupted: it finds the owner
      cancelled by nothing but a deadline of its own source. */
  lemma AcloseMissesIff(run: seq<Action>)
    requires IsRun(NEW_ITERATOR, run)
    requires !Reached(run).it.closed && Reached(run).loop.owner != Finished
    ensures
      var s := Reached(run);
      var t := Aclose(s);
      !t.loop.ownerCancelling && !t.it.interruptedByCleanup <==> Misses(s) && !s.it.interruptedByCleanup
  {
    EveryRunIsSafe(run);
  }

  /** The iterator cancels its owner at most once, whichever of its ways come together. */
  lemma OwnerIsCancelledOnce(run: seq<Action>)
    requires IsRun(NEW_ITERATOR, run)
    ensures Reached(run).log.cancelsSent <= 1
  {
    EveryRunIsSafe(run);
  }

  /** When a scheduled interrupt is about to cancel the owner, the source has had its turn exactly if
      its handshake was released before the interrupt was scheduled, and no deadline of its own has
      since thrown it out of the handshake. */
  lemma SourceHadItsTurnIff(run: seq<Action>)
    requires IsRun(NEW_ITERATOR, run)
    requires Reached(run).loop.ready.Oldest(CancelOwnerIfRunning) && Reaches(Reached(run))
    ensures
      var t := Reached(run).log.turn;
      t.sourceRan <==> t.releasedFirst && !t.cutOff
  {
    EveryRunIsSafe(run);
  }

  /** The interrupt that `__anext__` schedules always stands behind a released handshake. */
  lemma DeferredInterruptIsReleased(run: seq<Action>)
    requires IsRun(NEW_ITERATOR, run)
    requires
      var s := Reached(run);
      && s.loop.reader == Away && !s.it.closed
      && s.it.itemOutstanding && s.it.interruptAfterContinue
      && s.loop.owner == AtHandshake
    ensures Anext(Reached(run)).log.turn.releasedFirst && Anext(Reached(run)).loop.ready.Has(CancelOwnerIfRunning)
  {
    EveryRunIsSafe(run);
  }

  lemma {:induction false} RunConcat(s: State, a: seq<Action>, b: seq<Action>)
    requires IsRun(s, a) && IsRun(After(s, a), b)
    ensures IsRun(s, a + b) && After(s, a + b) == After(After(s, a), b)
    decreases |a|
  {
    if a == [] {
      assert a + b == b;
    } else {
      RunConcat(Next(s, a[0]), a[1..], b);
      assert (a + b)[1..] == a[1..] + b;
    }
  }

  /** The run that shows the limit of the promised turn: the watcher is cancelled while an item
      is queued but unread, so it schedules the interrupt at once; the reader then takes the item and
      asks for the next one in the same turn, and the interrupt overtakes the released source. */
  const IDLE: Choice := Choice(false, Park, false, false, 0, Sound)

  const STARTED: seq<Action> := [Tick(OwnerStep, IDLE), Tick(WatcherStep, IDLE)]
  const REQUESTED: seq<Action> := [CallAnext, ResumeOwner, CancelWatcher]
  const PRODUCED: seq<Action> := [Tick(OwnerStep, IDLE.(act := Yield(7))), Tick(WatcherStep, IDLE)]
  const REQUESTED_AGAIN: seq<Action> := [Tick(ReaderStep, IDLE), CallAnext]

  const BOTH_STARTED: State :=
    NEW_ITERATOR.(it := NEW_ITERATOR.it.(watchStarted := true),
                  loop := NEW_ITERATOR.loop.(owner := InSource, watcher := Watching, ready := Ready(map[], 2)))

  const CANCELLED_EARLY: State :=
    BOTH_STARTED.(loop := BOTH_STARTED.loop.(reader := AtQueue, watcherCancelPending := true,
                                             ready := Ready(map[OwnerStep := 2, WatcherStep := 3], 4)),
                  log := BOTH_STARTED.log.(watcherCancelled := true))

  const PARKED: State :=
    CANCELLED_EARLY.(
      it := CANCELLED_EARLY.it.(waitingForContinue := true, queue := [Item(7)]),
      loop := CANCELLED_EARLY.loop.(
        owner := AtHandshake, ready := Ready(map[WatcherStep := 3, ReaderStep := 4], 5)),
      log := CANCELLED_EARLY.log.(yielded := [7]))

  const UNREAD: State :=
    PARKED.(
      loop := PARKED.loop.(
        watcherCancelPending := false, watcher := Ended(true),
        ready := Ready(map[ReaderStep := 4, CancelOwnerIfRunning := 5, WatchNeverStarted := 6], 7)))

  const OVERTAKEN: State :=
    UNREAD.(
      it := UNREAD.it.(queue := [], continueSet := true),
      loop := UNREAD.loop.(
        ready := Ready(map[CancelOwnerIfRunning := 5, WatchNeverStarted := 6, OwnerStep := 7], 8)),
      log := UNREAD.log.(delivered := [7]))

  lemma OneAction(s: State, a: Action)
    requires Enabled(s, a)
    ensures IsRun(s, [a]) && After(s, [a]) == Next(s, a)
  {
    assert [a][1..] == [];
    assert After(Next(s, a), []) == Next(s, a);
  }

  lemma TwoActions(s: State, a: Action, b: Action)
    requires Enabled(s, a) && Enabled(Next(s, a), b)
    ensures IsRun(s, [a, b]) && After(s, [a, b]) == Next(Next(s, a), b)
  {
    assert [a, b][1..] == [b];
    OneAction(Next(s, a), b);
  }

  lemma StartedRun()
    ensures IsRun(NEW_ITERATOR, STARTED) && After(NEW_ITERATOR, STARTED) == BOTH_STARTED
  {
    var s := Next(NEW_ITERATOR, STARTED[0]);
    assert s.loop.ready.place == map[WatcherStep := 1];
    assert Next(s, STARTED[1]).loop.ready.place == map[];
    assert Next(s, STARTED[1]) == BOTH_STARTED;
    TwoActions(NEW_ITERATOR, STARTED[0], STARTED[1]);
  }

  lemma RequestedRun()
    ensures IsRun(BOTH_STARTED, REQUESTED) && After(BOTH_STARTED, REQUESTED) == CANCELLED_EARLY
  {
    var s := Next(BOTH_STARTED, CallAnext);
    assert s == BOTH_STARTED.(loop := BOTH_STARTED.loop.(reader := AtQueue));
    var t := Next(s, ResumeOwner);
    assert t == s.(loop := s.loop.(ready := Ready(map[OwnerStep := 2], 3)));
    assert REQUESTED[1..] == [ResumeOwner, CancelWatcher] && REQUESTED[1..][1..] == [CancelWatcher];
    assert Next(t, CancelWatcher).loop.ready.place == map[OwnerStep := 2, WatcherStep := 3];
  }

  lemma ProducedStep()
    ensures Enabled(CANCELLED_EARLY, PRODUCED[0]) && Next(CANCELLED_EARLY, PRODUCED[0]) == PARKED
  {
    assert Next(CANCELLED_EARLY, PRODUCED[0]).loop.ready.place == map[WatcherStep := 3, ReaderStep := 4];
  }

  const HANDING_OVER: State :=
    PARKED.(loop := PARKED.loop.(watcherCancelPending := false, ready := Ready(map[ReaderStep := 4], 5)))

  lemma HandingOver()
    ensures HandOver(HANDING_OVER) == UNREAD
  {
  }

  lemma ScheduledStep()
    ensures Enabled(PARKED, PRODUCED[1]) && Next(PARKED, PRODUCED[1]) == UNREAD
  {
    hide HandOver, ObserverLost;
    HandingOver();
    assert PARKED.loop.ready.Without(WatcherStep).place == map[ReaderStep := 4];
    assert Next(PARKED, PRODUCED[1]) == HandOver(HANDING_OVER);
  }

  lemma ProducedRun()
    ensures IsRun(CANCELLED_EARLY, PRODUCED) && After(CANCELLED_EARLY, PRODUCED) == UNREAD
  {
    ProducedStep();
    ScheduledStep();
    TwoActions(CANCELLED_EARLY, PRODUCED[0], PRODUCED[1]);
  }

  lemma RequestedAgainRun()
    ensures IsRun(UNREAD, REQUESTED_AGAIN) && After(UNREAD, REQUESTED_AGAIN) == OVERTAKEN
  {
    var s := Next(UNREAD, REQUESTED_AGAIN[0]);
    assert s.loop.ready.place == map[CancelOwnerIfRunning := 5, WatchNeverStarted := 6];
    var t := Next(s, CallAnext);
    assert t.loop.ready.place == map[CancelOwnerIfRunning := 5, WatchNeverStarted := 6, OwnerStep := 7];
    assert t == OVERTAKEN;
    TwoActions(UNREAD, REQUESTED_AGAIN[0], CallAnext);
  }

  lemma InterruptMayOvertakeTheSource() returns (run: seq<Action>)
    ensures IsRun(NEW_ITERATOR, run)
    ensures
      var s := Reached(run);
      && s.loop.ready.Oldest(CancelOwnerIfRunning) && Reaches(s)
      && s.loop.owner == AtHandshake && s.it.continueSet
      && !s.log.turn.releasedFirst && !s.log.turn.sourceRan
  {
    StartedRun();
    RequestedRun();
    ProducedRun();
    RequestedAgainRun();
    RunConcat(NEW_ITERATOR, STARTED, REQUESTED);
    RunConcat(NEW_ITERATOR, STARTED + REQUESTED, PRODUCED);
    RunConcat(NEW_ITERATOR, STARTED + REQUESTED + PRODUCED, REQUESTED_AGAIN);
    run := STARTED + REQUESTED + PRODUCED + REQUESTED_AGAIN;
  }

  /** A run that loses a cancellation: the watcher is cancelled, a deadline inside the source fires in
      the same turn of the loop, the hand-over finds the owner cancelling and leaves it alone, and the
      source takes its deadline's cancel back and goes on waiting. */
  const TOGETHER: seq<Action> := [CancelWatcher, DeadlineFires]
  const APART: seq<Action> := [Tick(WatcherStep, IDLE), Tick(OwnerStep, IDLE.(takenBack := 1))]

  const BOTH_CANCELLED: State :=
    BOTH_STARTED.(loop := BOTH_STARTED.loop.(watcherCancelPending := true, ownerCancelPending := true, deadlines := 1,
                                             ready := Ready(map[WatcherStep := 2, OwnerStep := 3], 4)),
                  log := BOTH_STARTED.log.(watcherCancelled := true))

  const MISSED: State :=
    BOTH_CANCELLED.(loop := BOTH_CANCELLED.loop.(watcherCancelPending := false, watcher := Ended(true),
                                                 ready := Ready(map[OwnerStep := 3, WatchNeverStarted := 4], 5)),
                    log := BOTH_CANCELLED.log.(losses := LossLog(true, false, false)))

  const UNDISTURBED: State :=
    MISSED.(loop := MISSED.loop.(ownerCancelPending := false, deadlines := 0,
                                 ready := Ready(map[WatchNeverStarted := 4], 5)))

  lemma TogetherRun()
    ensures IsRun(BOTH_STARTED, TOGETHER) && After(BOTH_STARTED, TOGETHER) == BOTH_CANCELLED
  {
    assert Next(Next(BOTH_STARTED, CancelWatcher), DeadlineFires).loop.ready.place ==
           map[WatcherStep := 2, OwnerStep := 3];
    TwoActions(BOTH_STARTED, CancelWatcher, DeadlineFires);
  }

  lemma ApartRun()
    ensures IsRun(BOTH_CANCELLED, APART) && After(BOTH_CANCELLED, APART) == UNDISTURBED
  {
    assert Next(BOTH_CANCELLED, APART[0]).loop.ready.place == map[OwnerStep := 3, WatchNeverStarted := 4];
    assert Next(BOTH_CANCELLED, APART[0]) == MISSED;
    assert Next(MISSED, APART[1]).loop.ready.place == map[WatchNeverStarted := 4];
    assert Next(MISSED, APART[1]) == UNDISTURBED;
    TwoActions(BOTH_CANCELLED, APART[0], APART[1]);
  }

  lemma ADeadlineMayLoseACancellation() returns (run: seq<Action>)
    ensures IsRun(NEW_ITERATOR, run)
    ensures
      var s := Reached(run);
      Lost(s) && s.loop.owner == InSource && s.loop.deadlines == 0 && !s.loop.ready.Has(OwnerStep)
  {
    StartedRun();
    TogetherRun();
    ApartRun();
    RunConcat(NEW_ITERATOR, STARTED, TOGETHER);
    RunConcat(NEW_ITERATOR, STARTED + TOGETHER, APART);
    run := STARTED + TOGETHER + APART;
  }

  /** A run in which `aclose` misses: the source takes its deadline's cancel back, waits on, and the
      closer waits for it. */
  const CLOSED_LATE: seq<Action> := [DeadlineFires, CallAclose]
  const ON_AND_ON: seq<Action> := [Tick(OwnerStep, IDLE.(takenBack := 1))]

  const CLOSING: State :=
    BOTH_STARTED.(it := BOTH_STARTED.it.(closed := true, stopSet := true, continueSet := true),
                  loop := BOTH_STARTED.loop.(ownerCancelPending := true, deadlines := 1, closer := JoinsOwner,
                                             ready := Ready(map[OwnerStep := 2], 3)),
                  log := BOTH_STARTED.log.(losses := LossLog(false, true, false)))

  const STUCK: State :=
    CLOSING.(loop := CLOSING.loop.(ownerCancelPending := false, deadlines := 0, ready := Ready(map[], 3)))

  lemma ClosedLateRun()
    ensures IsRun(BOTH_STARTED, CLOSED_LATE) && After(BOTH_STARTED, CLOSED_LATE) == CLOSING
  {
    assert Next(BOTH_STARTED, DeadlineFires).loop.ready.place == map[OwnerStep := 2];
    TwoActions(BOTH_STARTED, DeadlineFires, CallAclose);
  }

  lemma OnAndOnRun()
    ensures IsRun(CLOSING, ON_AND_ON) && After(CLOSING, ON_AND_ON) == STUCK
  {
    assert Next(CLOSING, ON_AND_ON[0]).loop.ready.place == map[];
    OneAction(CLOSING, ON_AND_ON[0]);
  }

  lemma ACloserMayWaitForASourceThatRunsOn() returns (run: seq<Action>)
    ensures IsRun(NEW_ITERATOR, run)
    ensures
      var s := Reached(run);
      && s.loop.closer == JoinsOwner && s.it.stopSet && s.loop.owner == InSource
      && !s.loop.ownerCancelling && s.loop.deadlines == 0
      && forall h :: !s.loop.ready.Has(h)
  {
    StartedRun();
    ClosedLateRun();
    OnAndOnRun();
    RunConcat(NEW_ITERATOR, STARTED, CLOSED_LATE);
    RunConcat(NEW_ITERATOR, STARTED + CLOSED_LATE, ON_AND_ON);
    run := STARTED + CLOSED_LATE + ON_AND_ON;
  }

  // ---------------------------------------------------------------- winding down

  /** The source ends at its next turn, and so does whatever stands between it and the end. */
  predicate Ends(c: Choice) {
    !c.admitting && !c.closeParks && (c.act.Exhaust? || c.act.Raise?)
  }

  /** A stop has reached the owner: it is cancelled and will run, or it has ended. */
  ghost predicate Stopped(s: State) {
    && Inv(s)
    && s.loop.ownerCancelling
    && (s.loop.owner == Finished || s.loop.ready.Has(OwnerStep))
  }

  /** An `aclose` that does not miss brings about just that. */
  lemma AcloseStops(s: State)
    requires Inv(s) && !s.it.closed && Reaches(s) && !s.it.interruptedByCleanup
    ensures Stopped(Aclose(s))
  {
    AcloseKeeps(s);
  }

  function One(b: bool): nat {
    if b then 1 else 0
  }

  function Handles(r: Ready): nat {
    One(r.Has(OwnerStep)) + One(r.Has(WatcherStep)) + One(r.Has(ReaderStep)) + One(r.Has(CloserStep))
    + One(r.Has(CancelOwnerIfRunning)) + One(r.Has(PublishCompletion)) + One(r.Has(WatchNeverStarted))
  }

  /** The handles that are ready, and those that the ends of the tasks may still make ready. */
  function Left(s: State): (n: nat)
    ensures n <= 21
  {
    Handles(s.loop.ready)
    + (if s.loop.owner == Finished then 0 else 6)
    + (if s.loop.watcher.Ended? then 0 else 6)
    + (if s.it.terminalPublished then 0 else 2)
  }

  function Begun(s: State, h: Handle): State {
    s.(loop := s.loop.(ready := s.loop.ready.Without(h)))
  }

  /** The owner has ended and everything else is as it was, but for what that makes ready. */
  ghost predicate OwnerEnded(s: State, t: State) {
    && t.loop.owner == Finished
    && t.loop.watcher == s.loop.watcher
    && (s.it.terminalPublished ==> t.it.terminalPublished)
    && (forall h :: t.loop.ready.Has(h) ==>
          s.loop.ready.Has(h) || h in {PublishCompletion, WatcherStep, ReaderStep, CloserStep})
  }

  lemma LeavingEnds(s: State, c: Choice)
    requires Ends(c)
    ensures OwnerEnded(s, LeaveLoop(s, c)) && LeaveLoop(s, c).loop.ownerCancelling == s.loop.ownerCancelling
  {
  }

  lemma RaisingEnds(s: State, e: Error, c: Choice)
    requires Ends(c)
    ensures OwnerEnded(s, Raised(s, e, c)) && Raised(s, e, c).loop.ownerCancelling == s.loop.ownerCancelling
  {
    hide LeaveLoop;
    LeavingEnds(s, c);
    LeavingEnds(Put(s.(it := s.it.(interruptedByCleanup := true)), Interrupted), c);
  }

  lemma SourceEnds(s: State, c: Choice)
    requires Ends(c)
    ensures OwnerEnded(s, SourceTurn(s, c)) && SourceTurn(s, c).loop.ownerCancelling == s.loop.ownerCancelling
  {
    hide LeaveLoop, Raised;
    LeavingEnds(s, c);
    if c.act.Raise? {
      RaisingEnds(s, c.act.error, c);
    }
  }

  lemma OwnerTickEnds(s: State, c: Choice)
    requires Ends(c) && s.loop.owner != Finished
    ensures OwnerEnded(s, OwnerTurn(s, c)) && OwnerTurn(s, c).loop.ownerCancelling == s.loop.ownerCancelling
  {
    hide LeaveLoop, Raised, SourceTurn;
    var t := TakeBack(s.(loop := s.loop.(ownerCancelPending := false)), c);
    var u := t.(it := t.it.(waitingForContinue := false));
    var v := u.(log := u.log.(turn := u.log.turn.(cutOff := !u.log.turn.sourceRan)));
    var w := u.(it := u.it.(continueSet := false), log := u.log.(turn := u.log.turn.(sourceRan := true)));
    LeavingEnds(t, c);
    SourceEnds(t, c);
    RaisingEnds(v, INTERRUPTION, c);
    LeavingEnds(w, c);
    SourceEnds(w, c);
  }

  lemma OwnerTickSpends(s: State, c: Choice)
    requires Stopped(s) && Ends(c) && s.loop.ready.Oldest(OwnerStep)
    ensures Stopped(Next(s, Tick(OwnerStep, c))) && Left(Next(s, Tick(OwnerStep, c))) < Left(s)
  {
    hide OwnerTurn;
    NextKeepsInv(s, Tick(OwnerStep, c));
    OwnerTickEnds(Begun(s, OwnerStep), c);
  }

  /** What no other step than the owner's touches. */
  predicate SameOwner(s: State, t: State) {
    && t.loop.owner == s.loop.owner
    && t.loop.ownerCancelling == s.loop.ownerCancelling
    && (s.loop.ready.Has(OwnerStep) ==> t.loop.ready.Has(OwnerStep))
  }

  /** The step has ended the watcher, or has made nothing ready. */
  ghost predicate WatcherStepped(s: State, t: State) {
    && SameOwner(s, t)
    && t.it.terminalPublished == s.it.terminalPublished
    && (t.loop.watcher.Ended? || !s.loop.watcher.Ended?)
    && (forall h :: t.loop.ready.Has(h) ==>
          s.loop.ready.Has(h)
          || (t.loop.watcher.Ended?
              && h in {WatchNeverStarted, ReaderStep, CloserStep, CancelOwnerIfRunning, OwnerStep}))
  }

  lemma HandOverSteps(s: State)
    requires s.loop.ownerCancelling
    ensures WatcherStepped(s, HandOver(s))
  {
  }

  lemma ObserverLostSteps(s: State)
    requires s.loop.ownerCancelling
    ensures WatcherStepped(s, ObserverLost(s))
  {
  }

  lemma WatcherSteps(s: State, c: Choice)
    requires s.loop.ownerCancelling && !s.loop.watcher.Ended?
    ensures WatcherStepped(s, WatcherTurn(s, c))
  {
    hide HandOver, ObserverLost;
    var t := s.(loop := s.loop.(watcherCancelPending := false));
    var u := t.(it := t.it.(watchStarted := true), loop := t.loop.(watcher := Watching));
    HandOverSteps(t);
    ObserverLostSteps(t);
    ObserverLostSteps(u);
  }

  lemma WatcherTickSpends(s: State, c: Choice)
    requires Stopped(s) && s.loop.ready.Oldest(WatcherStep)
    ensures Stopped(Next(s, Tick(WatcherStep, c))) && Left(Next(s, Tick(WatcherStep, c))) < Left(s)
  {
    hide WatcherTurn;
    NextKeepsInv(s, Tick(WatcherStep, c));
    WatcherSteps(Begun(s, WatcherStep), c);
  }

  /** Nothing new is ready. */
  ghost predicate NothingNew(s: State, t: State) {
    && SameOwner(s, t)
    && t.it.terminalPublished == s.it.terminalPublished
    && t.loop.watcher == s.loop.watcher
    && forall h :: t.loop.ready.Has(h) ==> s.loop.ready.Has(h)
  }

  lemma TakingAddsNothing(s: State)
    requires s.it.queue != []
    ensures NothingNew(s, TakeEntry(s))
  {
  }

  lemma CallersAddNothing(s: State)
    ensures NothingNew(s, ReaderTurn(s)) && NothingNew(s, CloserTurn(s))
  {
    hide TakeEntry;
    if s.it.queue != [] {
      TakingAddsNothing(s);
    }
  }

  lemma InterruptsAddNothing(s: State)
    requires s.loop.ownerCancelling
    ensures NothingNew(s, InterruptFor(s, true, false)) && NothingNew(s, NeverStartedTurn(s))
  {
  }

  lemma QuietSpends(s: State, h: Handle, t: State)
    requires Stopped(s) && s.loop.ready.Has(h) && h != OwnerStep
    requires Inv(t) && NothingNew(Begun(s, h), t)
    ensures Stopped(t) && Left(t) < Left(s)
  {
    hide Inv, Handles;
    FewerHandles(s.loop.ready, t.loop.ready, h);
  }

  lemma Fewer(a: bool, b: bool)
    requires b ==> a
    ensures One(b) <= One(a)
  {
  }

  lemma FewerHandles(a: Ready, b: Ready, h: Handle)
    requires forall g :: b.Has(g) ==> a.Has(g) && g != h
    requires a.Has(h)
    ensures Handles(b) < Handles(a)
  {
    hide One;
    Fewer(a.Has(OwnerStep), b.Has(OwnerStep));
    Fewer(a.Has(WatcherStep), b.Has(WatcherStep));
    Fewer(a.Has(ReaderStep), b.Has(ReaderStep));
    Fewer(a.Has(CloserStep), b.Has(CloserStep));
    Fewer(a.Has(CancelOwnerIfRunning), b.Has(CancelOwnerIfRunning));
    Fewer(a.Has(PublishCompletion), b.Has(PublishCompletion));
    Fewer(a.Has(WatchNeverStarted), b.Has(WatchNeverStarted));
    assert One(true) == 1 && One(false) == 0 by { OneIs(); }
    match h case _ => assert One(b.Has(h)) < One(a.Has(h));
  }

  lemma OneIs()
    ensures One(true) == 1 && One(false) == 0
  {
  }

  lemma QuietTickSpends(s: State, h: Handle, c: Choice)
    requires Stopped(s) && s.loop.ready.Oldest(h) && h !in {OwnerStep, WatcherStep, PublishCompletion}
    ensures Stopped(Next(s, Tick(h, c))) && Left(Next(s, Tick(h, c))) < Left(s)
  {
    hide ReaderTurn, CloserTurn, InterruptFor, NeverStartedTurn, Inv, Left, NothingNew;
    NextKeepsInv(s, Tick(h, c));
    CallersAddNothing(Begun(s, h));
    InterruptsAddNothing(Begun(s, h));
    QuietSpends(s, h, Next(s, Tick(h, c)));
  }

  lemma Published(s: State)
    ensures SameOwner(s, Publish(s)) && Publish(s).loop.watcher == s.loop.watcher && Publish(s).it.terminalPublished
    ensures forall h :: Publish(s).loop.ready.Has(h) ==>
      s.loop.ready.Has(h) || (h == ReaderStep && !s.it.terminalPublished)
  {
  }

  lemma PublishTickSpends(s: State, c: Choice)
    requires Stopped(s) && s.loop.ready.Oldest(PublishCompletion)
    ensures Stopped(Next(s, Tick(PublishCompletion, c))) && Left(Next(s, Tick(PublishCompletion, c))) < Left(s)
  {
    hide Publish;
    NextKeepsInv(s, Tick(PublishCompletion, c));
    Published(Begun(s, PublishCompletion));
  }

  lemma TickSpends(s: State, h: Handle, c: Choice)
    requires Stopped(s) && Ends(c) && s.loop.ready.Oldest(h)
    ensures Stopped(Next(s, Tick(h, c))) && Left(Next(s, Tick(h, c))) < Left(s)
  {
    hide RunHandle, Inv;
    match h
    case OwnerStep => OwnerTickSpends(s, c);
    case WatcherStep => WatcherTickSpends(s, c);
    case PublishCompletion => PublishTickSpends(s, c);
    case _ => QuietTickSpends(s, h, c);
  }

  /** Everything is over: both tasks are done and nobody waits any more. */
  ghost predicate Over(s: State) {
    BothDone(s) && s.loop.reader == Away && s.loop.closer == Away
  }

  lemma NothingReadyIsOver(s: State)
    requires Stopped(s) && forall h :: !s.loop.ready.Has(h)
    ensures Over(s)
  {
  }

  /** After a stop that reached the owner, with a source that ends when it is cancelled: the loop has a
      bounded number of handles to run, and once none is left owner and watcher are done, and the
      closer and the reader have returned. */
  lemma {:induction false} AStopWindsDown(s: State, run: seq<Action>)
    requires Stopped(s) && IsRun(s, run)
    requires forall a :: a in run ==> a.Tick? && Ends(a.choice)
    ensures |run| <= Left(s) <= 21
    ensures (forall h :: !After(s, run).loop.ready.Has(h)) ==> Over(After(s, run))
    decreases |run|
  {
    hide Left, Next;
    if run == [] {
      if forall h :: !s.loop.ready.Has(h) { NothingReadyIsOver(s); }
    } else {
      var a := run[0];
      assert a in run;
      TickSpends(s, a.handle, a.choice);
      assert forall b :: b in run[1..] ==> b in run;
      AStopWindsDown(Next(s, a), run[1..]);
    }
  }

  // ---------------------------------------------------------------- the class

  class OwnedAsyncIterator {
    var items: seq<Entry>
    var continueSet: bool
    var stopSet: bool
    var itemOutstanding: bool
    var waitingForContinue: bool
    var interruptAfterContinue: bool
    var closed: bool
    var interruptedByCleanup: bool
    var terminalPublished: bool
    var cancellationWatchStarted: bool
    /** The event loop's side of the three tasks and of `aclose`. */
    var loop: Loop
    ghost var log: History

    ghost function Snapshot(): (s: State)
      reads this
    {
      State(Fields(items, continueSet, stopSet, itemOutstanding, waitingForContinue, interruptAfterContinue,
                   closed, interruptedByCleanup, terminalPublished, cancellationWatchStarted),
            loop, log)
    }

    constructor ()
      ensures Snapshot() == NEW_ITERATOR
    {
      items := [];
      continueSet, stopSet := false, false;
      itemOutstanding, waitingForContinue, interruptAfterContinue := false, false, false;
      closed, interruptedByCleanup, terminalPublished, cancellationWatchStarted := false, false, false, false;
      loop := Loop(Ready(map[OwnerStep := 0, WatcherStep := 1], 2), Admitting, false, false, 0,
                   NotStarted, false, Away, false, Away);
      log := History([], [], [], 0, false, 0, TurnLog(false, false, false), LossLog(false, false, false),
                     false, false);
    }

    method PutNowait(e: Entry)
      modifies this`items, this`loop
      ensures Snapshot() == Put(old(Snapshot()), e)
    {
      items := items + [e];
      if loop.reader == AtQueue {
        loop := loop.(ready := loop.ready.With(ReaderStep));
      }
    }

    method ContinueSet()
      modifies this`continueSet, this`loop
      ensures Snapshot() == SetContinue(old(Snapshot()))
    {
      if !continueSet {
        continueSet := true;
        if loop.owner == AtHandshake {
          loop := loop.(ready := loop.ready.With(OwnerStep));
        }
      }
    }

    method CancelOwnerIfStillRunning()
      modifies this`loop, this`log
      ensures Snapshot() == CancelIfRunning(old(Snapshot()))
    {
      if loop.owner != Finished && !loop.ownerCancelling && loop.deadlines == 0 {
        log := log.(cancelsSent := log.cancelsSent + 1);
        loop := loop.(ownerCancelPending := true, ownerCancelling := true,
                      ready := loop.ready.With(OwnerStep));
      }
    }

    /** The same, with a note of what it costs if it misses. */
    method InterruptOwner(ghost handOver: bool, ghost stop: bool)
      modifies this`loop, this`log
      ensures Snapshot() == InterruptFor(old(Snapshot()), handOver, stop)
    {
      ghost var losses := Noted(Snapshot(), handOver, stop);
      CancelOwnerIfStillRunning();
      log := log.(losses := losses);
    }

    method CallSoonCancelOwner()
      modifies this`loop, this`log
      ensures Snapshot() == ScheduleInterrupt(old(Snapshot()))
    {
      log := log.(turn := TurnLog(loop.owner == AtHandshake && continueSet, false, false));
      loop := loop.(ready := loop.ready.With(CancelOwnerIfRunning));
    }

    method PublishOwnerCompletion()
      modifies this`items, this`loop, this`terminalPublished, this`log
      ensures Snapshot() == Publish(old(Snapshot()))
    {
      if !terminalPublished {
        terminalPublished := true;
        log := log.(terminals := log.terminals + 1);
        PutNowait(Terminal);
      }
    }

    method EndOwner()
      modifies this`loop
      ensures Snapshot() == FinishOwner(old(Snapshot()))
    {
      loop := loop.(owner := Finished, ready := loop.ready.With(PublishCompletion));
      if loop.watcher == Watching { loop := loop.(ready := loop.ready.With(WatcherStep)); }
      if loop.reader == JoinsOwner { loop := loop.(ready := loop.ready.With(ReaderStep)); }
      if loop.closer == JoinsOwner { loop := loop.(ready := loop.ready.With(CloserStep)); }
    }

    method EndWatch(cancelled: bool)
      modifies this`loop
      ensures Snapshot() == EndWatcher(old(Snapshot()), cancelled)
    {
      loop := loop.(watcher := Ended(cancelled), ready := loop.ready.With(WatchNeverStarted));
      if loop.reader == JoinsWatcher { loop := loop.(ready := loop.ready.With(ReaderStep)); }
      if loop.closer == JoinsWatcher { loop := loop.(ready := loop.ready.With(CloserStep)); }
    }

    /** `__anext__`, from the call to its return or first suspension; `item` is what it returned. */
    method CallNext() returns (item: seq<int>)
      requires loop.reader == Away
      modifies this
      ensures Snapshot() == Anext(old(Snapshot()))
      ensures log.delivered == old(log.delivered) + item
    {
      item := [];
      if closed {
        return;
      }
      ReleaseItem();
      if items != [] {
        item := Take();
      } else {
        loop := loop.(reader := AtQueue);
      }
    }

    /** The handshake: let the producer go on, and send it an interrupt that was put off. */
    method ReleaseItem()
      modifies this`itemOutstanding, this`continueSet, this`interruptAfterContinue, this`loop, this`log
      ensures Snapshot() == Release(old(Snapshot()))
      ensures log.delivered == old(log.delivered)
    {
      if itemOutstanding {
        itemOutstanding := false;
        ContinueSet();
        if interruptAfterContinue {
          interruptAfterContinue := false;
          CallSoonCancelOwner();
        }
      }
    }

    method Take() returns (item: seq<int>)
      requires items != []
      modifies this`items, this`itemOutstanding, this`closed, this`loop, this`log
      ensures Snapshot() == TakeEntry(old(Snapshot()))
      ensures log.delivered == old(log.delivered) + item
    {
      var e := items[0];
      item := if e.Item? then [e.value] else [];
      items := items[1..];
      loop := loop.(reader := Away);
      itemOutstanding := itemOutstanding || e.Item?;
      log := log.(delivered := log.delivered + item);
      if e == Terminal {
        closed := true;
        JoinAsReader();
      }
    }

    method JoinAsReader()
      modifies this`loop, this`log
      ensures Snapshot() == JoinReader(old(Snapshot()))
    {
      if loop.owner != Finished {
        loop := loop.(reader := JoinsOwner);
      } else if !loop.watcher.Ended? {
        loop := loop.(reader := JoinsWatcher);
      } else {
        loop := loop.(reader := Away);
        log := log.(readerJoined := true);
      }
    }

    method JoinAsCloser()
      modifies this`loop, this`log
      ensures Snapshot() == JoinCloser(old(Snapshot()))
    {
      if loop.owner != Finished {
        loop := loop.(closer := JoinsOwner);
      } else if !loop.watcher.Ended? {
        loop := loop.(closer := JoinsWatcher);
      } else {
        loop := loop.(closer := Away);
        log := log.(closerJoined := true);
      }
    }

    /** `aclose`, from the call to its return or first suspension. */
    method Close()
      modifies this
      ensures Snapshot() == Aclose(old(Snapshot()))
    {
      if closed {
        return;
      }
      closed := true;
      stopSet := true;
      ContinueSet();
      if !interruptedByCleanup {
        InterruptOwner(false, true);
      }
      JoinAsCloser();
    }

    /** The reader's task runs again. */
    method ReaderResumes() returns (item: seq<int>)
      modifies this
      ensures Snapshot() == ReaderTurn(old(Snapshot()))
      ensures log.delivered == old(log.delivered) + item
    {
      item := [];
      match loop.reader {
        case Away =>
        case AtQueue =>
          if loop.readerCancelPending {
            loop := loop.(reader := Away, readerCancelPending := false);
          } else if items != [] {
            item := Take();
          }
        case _ => JoinAsReader();
      }
    }

    method CloserResumes()
      modifies this`loop, this`log
      ensures Snapshot() == CloserTurn(old(Snapshot()))
    {
      if loop.closer != Away {
        JoinAsCloser();
      }
    }

    // ---- `_run`

    method RunFinally(c: Choice)
      modifies this
      ensures Snapshot() == LeaveLoop(old(Snapshot()), c)
    {
      if c.closeParks {
        loop := loop.(owner := InClose);
      } else {
        PublishOwnerCompletion();
        EndOwner();
      }
    }

    method RunRaised(e: Error, c: Choice)
      modifies this
      ensures Snapshot() == Raised(old(Snapshot()), e, c)
    {
      if e.Cancelled? && (stopSet || c.cleanupRequested) {
        interruptedByCleanup := true;
        PutNowait(Interrupted);
        RunFinally(c);
      } else {
        RunFinally(c);
      }
    }

    /** `async for item in iterator`, from one resumption of the source to the next suspension. */
    method RunSource(c: Choice)
      modifies this
      ensures Snapshot() == SourceTurn(old(Snapshot()), c)
    {
      if c.act.Park? {
        loop := loop.(owner := InSource);
      } else if c.act.Exhaust? {
        RunFinally(c);
      } else if c.act.Raise? {
        RunRaised(c.act.error, c);
      } else {
        RunYielded(c.act.value, c);
      }
    }

    method RunYielded(v: int, c: Choice)
      modifies this
      ensures Snapshot() == Yielded(old(Snapshot()), v, c)
    {
      log := log.(yielded := log.yielded + [v]);
      if stopSet {
        log := log.(dropped := log.dropped + [v]);
        RunFinally(c);
      } else {
        OfferItem(v);
      }
    }

    method OfferItem(v: int)
      modifies this`items, this`loop, this`waitingForContinue
      ensures Snapshot() == Offer(old(Snapshot()), v)
    {
      PutNowait(Item(v));
      waitingForContinue := true;
      loop := loop.(owner := AtHandshake, ready := loop.ready.WithIf(continueSet, OwnerStep));
    }

    method AdmittingResumes(cancel: bool, c: Choice)
      modifies this
      ensures Snapshot() == AdmittingTurn(old(Snapshot()), cancel, c)
    {
      if cancel {
        EndOwner();
      } else if !c.admitting {
        RunSource(c);
      }
    }

    method HandshakeResumes(cancel: bool, c: Choice)
      modifies this
      ensures Snapshot() == HandshakeTurn(old(Snapshot()), cancel, c)
    {
      if cancel {
        log := log.(turn := log.turn.(cutOff := !log.turn.sourceRan));
        RunRaised(INTERRUPTION, c);
      } else {
        continueSet := false;
        log := log.(turn := log.turn.(sourceRan := true));
        if stopSet { RunFinally(c); } else { RunSource(c); }
      }
    }

    /** The owner's task runs until it suspends or ends. */
    method OwnerResumes(c: Choice)
      modifies this
      ensures Snapshot() == OwnerTurn(old(Snapshot()), c)
    {
      hide OwnerGoesOn;
      var cancel := loop.ownerCancelPending;
      loop := loop.(ownerCancelPending := false);
      loop := loop.(deadlines := if c.takenBack <= loop.deadlines then loop.deadlines - c.takenBack else 0);
      GoOn(cancel, c);
    }

    method GoOn(cancel: bool, c: Choice)
      modifies this
      ensures Snapshot() == OwnerGoesOn(old(Snapshot()), cancel, c)
    {
      match loop.owner {
        case Admitting => AdmittingResumes(cancel, c);
        case InSource => RunSource(c);
        case AtHandshake =>
          waitingForContinue := false;
          HandshakeResumes(cancel, c);
        case InClose => RunFinally(c);
        case Finished =>
      }
    }

    // ---- `_watch_owner_cancellation`

    method WatchCancelled()
      modifies this
      ensures Snapshot() == HandOver(old(Snapshot()))
    {
      if loop.owner == Finished {
        EndWatch(false);
      } else {
        if itemOutstanding {
          interruptAfterContinue := true;
        } else if waitingForContinue {
          CallSoonCancelOwner();
        } else {
          InterruptOwner(true, false);
        }
        EndWatch(true);
      }
    }

    method WatchLost()
      modifies this
      ensures Snapshot() == ObserverLost(old(Snapshot()))
    {
      stopSet := true;
      ContinueSet();
      InterruptOwner(true, true);
      EndWatch(false);
    }

    /** The observation ends with `CancelledError`. */
    method WatchIsInterrupted(o: Observation)
      modifies this
      ensures Snapshot() == WatchInterrupted(old(Snapshot()), o)
    {
      match o {
        case Sound => WatchCancelled();
        case Evidence =>
          log := log.(losses := log.losses.(withheld := true));
          EndWatch(true);
        case Broken => WatchLost();
      }
    }

    /** The observation ends otherwise. */
    method WatchGoesOn(o: Observation)
      modifies this
      ensures Snapshot() == WatchResumed(old(Snapshot()), o)
    {
      if o == Broken {
        WatchLost();
      } else if loop.owner == Finished {
        EndWatch(o == Evidence);
      }
    }

    method WatcherResumes(c: Choice)
      modifies this
      ensures Snapshot() == WatcherTurn(old(Snapshot()), c)
    {
      var cancel := loop.watcherCancelPending;
      loop := loop.(watcherCancelPending := false);
      match loop.watcher {
        case NotStarted =>
          if cancel {
            EndWatch(true);
          } else {
            cancellationWatchStarted := true;
            loop := loop.(watcher := Watching);
            WatchGoesOn(c.observation);
          }
        case Watching =>
          if cancel { WatchIsInterrupted(c.observation); } else { WatchGoesOn(c.observation); }
        case Ended(_) =>
      }
    }

    method InterruptIfWatchNeverStarted()
      modifies this`loop, this`log
      ensures Snapshot() == NeverStartedTurn(old(Snapshot()))
    {
      if loop.watcher == Ended(true) && !cancellationWatchStarted && loop.owner != Finished {
        InterruptOwner(true, false);
      }
    }

    /** The event loop takes the oldest handle off its queue and runs it. */
    method RunOldest(h: Handle, c: Choice)
      requires loop.ready.Oldest(h)
      modifies this
      ensures Snapshot() == Next(old(Snapshot()), Tick(h, c))
    {
      hide RunHandle;
      loop := loop.(ready := loop.ready.Without(h));
      RunOne(h, c);
    }

    method RunOne(h: Handle, c: Choice)
      modifies this
      ensures Snapshot() == RunHandle(old(Snapshot()), h, c)
    {
      match h {
        case OwnerStep => OwnerResumes(c);
        case WatcherStep => WatcherResumes(c);
        case ReaderStep => var _ := ReaderResumes();
        case CloserStep => CloserResumes();
        case CancelOwnerIfRunning => InterruptOwner(true, false);
        case PublishCompletion => PublishOwnerCompletion();
        case WatchNeverStarted => InterruptIfWatchNeverStarted();
      }
    }
  }
}
