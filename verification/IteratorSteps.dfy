/** What each party of the iterator does in one turn, over every run, in terms of what was there before:
    which entries are published and taken, when the source is asked for more, and whom a cancellation
    reaches. */
module IteratorSteps {
  import opened OwnedIterator

  // ---------------------------------------------------------------- the owner

  /** The owner's turn gives control to the source: not before its factory lets it, not after a stop has
      been seen at the handshake, and not when `CancelledError` comes out of that. */
  predicate SourceRuns(s: State, c: Choice) {
    || s.loop.owner == InSource
    || (s.loop.owner == Admitting && !s.loop.ownerCancelPending && !c.admitting)
    || (s.loop.owner == AtHandshake && !s.loop.ownerCancelPending && !s.it.stopSet)
  }

  predicate Yields(s: State, c: Choice) {
    SourceRuns(s, c) && c.act.Yield?
  }

  /** A plain cancellation comes out of the source, or out of the handshake. */
  predicate CancellationComesOut(s: State, c: Choice) {
    || (s.loop.owner == AtHandshake && s.loop.ownerCancelPending)
    || (SourceRuns(s, c) && c.act.Raise? && c.act.error.Cancelled?)
  }

  /** ... and it was asked for. */
  predicate Interrupts(s: State, c: Choice) {
    CancellationComesOut(s, c) && (s.it.stopSet || c.cleanupRequested)
  }

  /** The loop over the source is left in this turn. */
  predicate LoopEnds(s: State, c: Choice) {
    || (s.loop.owner == AtHandshake && (s.loop.ownerCancelPending || s.it.stopSet))
    || (SourceRuns(s, c) && (c.act.Exhaust? || c.act.Raise? || (c.act.Yield? && s.it.stopSet)))
  }

  /** The owner's side of the iterator. */
  datatype Face = Face(queue: seq<Entry>, interrupted: bool, released: bool, owner: OwnerPc, cancelling: bool,
                       reader: CallerPc, yielded: seq<int>, dropped: seq<int>)

  function FaceOf(s: State): Face {
    Face(s.it.queue, s.it.interruptedByCleanup, s.it.continueSet, s.loop.owner, s.loop.ownerCancelling,
         s.loop.reader, s.log.yielded, s.log.dropped)
  }

  /** What the owner publishes: an item, or INTERRUPTED, and TERMINAL as its last act. */
  function Published(s: State, c: Choice): seq<Entry> {
    (if Interrupts(s, c) then [Interrupted] else if Yields(s, c) && !s.it.stopSet then [Item(c.act.value)] else [])
    + if (LoopEnds(s, c) || s.loop.owner == InClose) && !c.closeParks then [Terminal] else []
  }

  function OwnerAfter(s: State, c: Choice): OwnerPc {
    if s.loop.owner == Admitting && s.loop.ownerCancelPending then Finished
    else if LoopEnds(s, c) || s.loop.owner == InClose then if c.closeParks then InClose else Finished
    else if Yields(s, c) then AtHandshake
    else if SourceRuns(s, c) then InSource
    else s.loop.owner
  }

  function OwnerFace(s: State, c: Choice): Face {
    var item := if c.act.Yield? then [c.act.value] else [];
    Face(s.it.queue + Published(s, c),
         s.it.interruptedByCleanup || Interrupts(s, c),
         s.it.continueSet && !(s.loop.owner == AtHandshake && !s.loop.ownerCancelPending),
         OwnerAfter(s, c),
         s.loop.ownerCancelling,
         s.loop.reader,
         if Yields(s, c) then s.log.yielded + item else s.log.yielded,
         if Yields(s, c) && s.it.stopSet then s.log.dropped + item else s.log.dropped)
  }

  function Leaving(f: Face, c: Choice): Face {
    if c.closeParks then f.(owner := InClose) else f.(owner := Finished, queue := f.queue + [Terminal])
  }

  lemma PublishFace(s: State)
    requires !s.it.terminalPublished
    ensures FaceOf(Publish(s)) == FaceOf(s).(queue := s.it.queue + [Terminal])
  {
  }

  lemma FinishFace(s: State)
    ensures FaceOf(FinishOwner(s)) == FaceOf(s).(owner := Finished)
  {
  }

  lemma LeaveFace(s: State, c: Choice)
    requires !s.it.terminalPublished
    ensures FaceOf(LeaveLoop(s, c)) == Leaving(FaceOf(s), c)
  {
    hide Publish, FinishOwner;
    PublishFace(s);
    FinishFace(Publish(s));
  }

  lemma RaisedFace(s: State, e: Error, c: Choice)
    requires !s.it.terminalPublished
    ensures
      var asked := e.Cancelled? && (s.it.stopSet || c.cleanupRequested);
      FaceOf(Raised(s, e, c))
      == Leaving(if asked then FaceOf(s).(interrupted := true, queue := s.it.queue + [Interrupted]) else FaceOf(s), c)
  {
    hide LeaveLoop;
    LeaveFace(s, c);
    LeaveFace(Put(s.(it := s.it.(interruptedByCleanup := true)), Interrupted), c);
  }

  lemma YieldedFace(s: State, v: int, c: Choice)
    requires !s.it.terminalPublished
    ensures
      var f := FaceOf(s).(yielded := s.log.yielded + [v]);
      FaceOf(Yielded(s, v, c))
      == if s.it.stopSet then Leaving(f.(dropped := f.dropped + [v]), c)
         else f.(queue := f.queue + [Item(v)], owner := AtHandshake)
  {
    hide LeaveLoop;
    var t := s.(log := s.log.(yielded := s.log.yielded + [v]));
    LeaveFace(t.(log := t.log.(dropped := t.log.dropped + [v])), c);
  }

  function SourceFace(f: Face, stop: bool, c: Choice): Face {
    match c.act
    case Park => f.(owner := InSource)
    case Exhaust => Leaving(f, c)
    case Raise(e) =>
      Leaving(if e.Cancelled? && (stop || c.cleanupRequested)
              then f.(interrupted := true, queue := f.queue + [Interrupted]) else f, c)
    case Yield(v) =>
      var g := f.(yielded := f.yielded + [v]);
      if stop then Leaving(g.(dropped := g.dropped + [v]), c)
      else g.(queue := g.queue + [Item(v)], owner := AtHandshake)
  }

  lemma SourceTurnFace(s: State, c: Choice)
    requires !s.it.terminalPublished
    ensures FaceOf(SourceTurn(s, c)) == SourceFace(FaceOf(s), s.it.stopSet, c)
  {
    hide LeaveLoop, Raised, Yielded;
    match c.act {
      case Park =>
      case Exhaust => LeaveFace(s, c);
      case Raise(e) => RaisedFace(s, e, c);
      case Yield(v) => YieldedFace(s, v, c);
    }
  }

  function HandshakeFace(f: Face, stop: bool, cancel: bool, c: Choice): Face {
    if cancel then
      Leaving(if stop || c.cleanupRequested then f.(interrupted := true, queue := f.queue + [Interrupted]) else f, c)
    else
      var g := f.(released := false);
      if stop then Leaving(g, c) else SourceFace(g, stop, c)
  }

  lemma HandshakeTurnFace(s: State, cancel: bool, c: Choice)
    requires !s.it.terminalPublished
    ensures FaceOf(HandshakeTurn(s, cancel, c)) == HandshakeFace(FaceOf(s), s.it.stopSet, cancel, c)
  {
    hide LeaveLoop, Raised, SourceTurn, Leaving, SourceFace;
    if cancel {
      RaisedFace(s.(log := s.log.(turn := s.log.turn.(cutOff := !s.log.turn.sourceRan))), INTERRUPTION, c);
    } else {
      var u := s.(it := s.it.(continueSet := false), log := s.log.(turn := s.log.turn.(sourceRan := true)));
      LeaveFace(u, c);
      SourceTurnFace(u, c);
    }
  }

  function GoesOnFace(f: Face, stop: bool, cancel: bool, c: Choice): Face {
    match f.owner
    case Admitting => if cancel then f.(owner := Finished) else if c.admitting then f else SourceFace(f, stop, c)
    case InSource => SourceFace(f, stop, c)
    case AtHandshake => HandshakeFace(f, stop, cancel, c)
    case _ => Leaving(f, c)
  }

  lemma AdmittingTurnFace(s: State, cancel: bool, c: Choice)
    requires !s.it.terminalPublished
    ensures
      var f := FaceOf(s);
      FaceOf(AdmittingTurn(s, cancel, c))
      == if cancel then f.(owner := Finished) else if c.admitting then f else SourceFace(f, s.it.stopSet, c)
  {
    hide FinishOwner, SourceTurn, SourceFace;
    SourceTurnFace(s, c);
    FinishFace(s);
  }

  lemma ParkedFace(s: State, cancel: bool, c: Choice)
    requires !s.it.terminalPublished && s.loop.owner == AtHandshake
    ensures FaceOf(OwnerGoesOn(s, cancel, c)) == GoesOnFace(FaceOf(s), s.it.stopSet, cancel, c)
  {
    hide HandshakeTurn, HandshakeFace, SourceTurn, AdmittingTurn, LeaveLoop, SourceFace, Leaving;
    var u := s.(it := s.it.(waitingForContinue := false));
    assert OwnerGoesOn(s, cancel, c) == HandshakeTurn(u, cancel, c);
    HandshakeTurnFace(u, cancel, c);
    assert FaceOf(u) == FaceOf(s);
  }

  lemma OwnerGoesOnFace(s: State, cancel: bool, c: Choice)
    requires !s.it.terminalPublished && s.loop.owner != Finished
    ensures FaceOf(OwnerGoesOn(s, cancel, c)) == GoesOnFace(FaceOf(s), s.it.stopSet, cancel, c)
  {
    hide AdmittingTurn, LeaveLoop, SourceTurn, HandshakeTurn, Leaving, SourceFace, HandshakeFace;
    if s.loop.owner == AtHandshake {
      ParkedFace(s, cancel, c);
    } else if s.loop.owner == Admitting {
      AdmittingTurnFace(s, cancel, c);
    } else if s.loop.owner == InSource {
      SourceTurnFace(s, c);
    } else {
      LeaveFace(s, c);
    }
  }

  lemma OwnerTurnFace(s: State, c: Choice)
    requires !s.it.terminalPublished && s.loop.owner != Finished
    ensures FaceOf(OwnerTurn(s, c)) == OwnerFace(s, c)
  {
    hide OwnerGoesOn, GoesOnFace, OwnerFace;
    var t := TakeBack(s.(loop := s.loop.(ownerCancelPending := false)), c);
    OwnerGoesOnFace(t, s.loop.ownerCancelPending, c);
    assert FaceOf(t) == FaceOf(s);
    InOneTable(s, c);
  }

  /** The same, case by case and in one table. */
  lemma InOneTable(s: State, c: Choice)
    requires s.loop.owner != Finished
    ensures GoesOnFace(FaceOf(s), s.it.stopSet, s.loop.ownerCancelPending, c) == OwnerFace(s, c)
  {
    hide SourceFace, OwnerFace, HandshakeFace;
    Joined(s.it.queue, c);
    if s.loop.owner == InClose {
      ClosingInTable(s, c);
    } else if s.loop.owner == AtHandshake {
      HandshakeInTable(s, c);
    } else if SourceRuns(s, c) {
      SourceInTable(s, c);
    } else {
      AdmittingInTable(s, c);
    }
  }

  lemma Joined(q: seq<Entry>, c: Choice)
    ensures q + ([] + []) == q && q + ([] + [Terminal]) == q + [Terminal]
    ensures q + ([Interrupted] + []) == q + [Interrupted]
    ensures q + ([Interrupted] + [Terminal]) == q + [Interrupted] + [Terminal]
    ensures c.act.Yield? ==> q + ([Item(c.act.value)] + []) == q + [Item(c.act.value)]
  {
  }

  lemma ClosingInTable(s: State, c: Choice)
    requires s.loop.owner == InClose
    ensures Leaving(FaceOf(s), c) == OwnerFace(s, c)
  {
    Joined(s.it.queue, c);
  }

  lemma SourceInTable(s: State, c: Choice)
    requires SourceRuns(s, c) && s.loop.owner != AtHandshake
    ensures SourceFace(FaceOf(s), s.it.stopSet, c) == OwnerFace(s, c)
  {
    Joined(s.it.queue, c);
  }

  lemma AdmittingInTable(s: State, c: Choice)
    requires s.loop.owner == Admitting && !SourceRuns(s, c)
    ensures OwnerFace(s, c) == if s.loop.ownerCancelPending then FaceOf(s).(owner := Finished) else FaceOf(s)
  {
    Joined(s.it.queue, c);
  }

  lemma HandshakeInTable(s: State, c: Choice)
    requires s.loop.owner == AtHandshake
    ensures HandshakeFace(FaceOf(s), s.it.stopSet, s.loop.ownerCancelPending, c) == OwnerFace(s, c)
  {
    Joined(s.it.queue, c);
  }

  /** The owner's turn, in every run.  The source is asked for more exactly as `SourceRuns` says; a yielded
      item goes into the queue, unless a stop came first; INTERRUPTED is published exactly for a plain
      cancellation that was asked for; TERMINAL is the last entry, and the owner's last act. */
  lemma OwnerStepIsExact(run: seq<Action>, c: Choice)
    requires IsRun(NEW_ITERATOR, run) && Enabled(Reached(run), Tick(OwnerStep, c))
    ensures FaceOf(Next(Reached(run), Tick(OwnerStep, c))) == OwnerFace(Reached(run), c)
  {
    hide OwnerTurn, OwnerFace;
    var s := Reached(run);
    EveryRunIsSafe(run);
    var p := s.(loop := s.loop.(ready := s.loop.ready.Without(OwnerStep)));
    OwnerTurnFace(p, c);
    SameOwnerFace(s, p, c);
  }

  lemma SameOwnerFace(s: State, p: State, c: Choice)
    requires p.it == s.it && p.log == s.log
    requires p.loop.owner == s.loop.owner && p.loop.reader == s.loop.reader
    requires p.loop.ownerCancelling == s.loop.ownerCancelling && p.loop.ownerCancelPending == s.loop.ownerCancelPending
    ensures OwnerFace(p, c) == OwnerFace(s, c)
  {
  }

  // ---------------------------------------------------------------- the reader

  /** An `__anext__` that may go on: it has just been called, or it waits on the queue and is not cancelled. */
  predicate Reads(s: State, a: Action) {
    || (a.CallAnext? && !s.it.closed)
    || (a.Tick? && a.handle == ReaderStep && s.loop.reader == AtQueue && !s.loop.readerCancelPending)
  }

  /** It takes an entry, which is always the oldest. */
  predicate Takes(s: State, a: Action) {
    Reads(s, a) && s.it.queue != []
  }

  /** The reader's side of the iterator. */
  datatype Desk = Desk(queue: seq<Entry>, outstanding: bool, released: bool, deferred: bool, closed: bool,
                       cancelling: bool, delivered: seq<int>)

  function DeskOf(s: State): Desk {
    Desk(s.it.queue, s.it.itemOutstanding, s.it.continueSet, s.it.interruptAfterContinue, s.it.closed,
         s.loop.ownerCancelling, s.log.delivered)
  }

  /** A new call gives the last item back and releases the producer; then comes the next entry. */
  function ReaderDesk(s: State, a: Action): Desk {
    var releases := a.CallAnext? && !s.it.closed && s.it.itemOutstanding;
    var item := Takes(s, a) && s.it.queue[0].Item?;
    Desk(if Takes(s, a) then s.it.queue[1..] else s.it.queue,
         item || (s.it.itemOutstanding && !releases),
         s.it.continueSet || releases,
         s.it.interruptAfterContinue && !releases,
         s.it.closed || (Takes(s, a) && s.it.queue[0] == Terminal),
         s.loop.ownerCancelling,
         if item then s.log.delivered + [s.it.queue[0].value] else s.log.delivered)
  }

  /** The owner's side, save for the queue. */
  predicate Apart(s: State, t: State) {
    && t.it.interruptedByCleanup == s.it.interruptedByCleanup
    && t.log.yielded == s.log.yielded && t.log.dropped == s.log.dropped && t.loop.owner == s.loop.owner
  }

  lemma ReleaseDesk(s: State)
    ensures DeskOf(Release(s))
         == if s.it.itemOutstanding then DeskOf(s).(outstanding := false, released := true, deferred := false)
            else DeskOf(s)
    ensures Apart(s, Release(s)) && Release(s).loop.watcher == s.loop.watcher
  {
  }

  lemma JoinDesk(s: State)
    ensures DeskOf(JoinReader(s)) == DeskOf(s) && JoinReader(s).loop.reader == JoinPc(s)
    ensures Apart(s, JoinReader(s))
  {
  }

  /** The reader has the entry, and has not gone to a join yet. */
  function Taken(s: State): State
    requires s.it.queue != []
  {
    var e := s.it.queue[0];
    s.(it := s.it.(queue := s.it.queue[1..], itemOutstanding := s.it.itemOutstanding || e.Item?,
                   closed := s.it.closed || e == Terminal),
       loop := s.loop.(reader := Away),
       log := s.log.(delivered := s.log.delivered + if e.Item? then [e.value] else []))
  }

  function TakenDesk(s: State): Desk
    requires s.it.queue != []
  {
    var e := s.it.queue[0];
    DeskOf(s).(queue := s.it.queue[1..], outstanding := s.it.itemOutstanding || e.Item?,
               closed := s.it.closed || e == Terminal,
               delivered := if e.Item? then s.log.delivered + [e.value] else s.log.delivered)
  }

  lemma TakenIs(s: State)
    requires s.it.queue != []
    ensures DeskOf(Taken(s)) == TakenDesk(s) && Apart(s, Taken(s))
    ensures JoinPc(Taken(s)) == JoinPc(s) && Taken(s).loop.reader == Away
  {
    assert s.log.delivered + [] == s.log.delivered;
  }

  lemma TakeIs(s: State)
    requires s.it.queue != []
    ensures TakeEntry(s) == if s.it.queue[0] == Terminal then JoinReader(Taken(s)) else Taken(s)
  {
    hide JoinReader;
  }

  lemma TakeDesk(s: State)
    requires s.it.queue != []
    ensures
      var t := TakeEntry(s);
      && DeskOf(t) == TakenDesk(s) && Apart(s, t)
      && t.loop.reader == if s.it.queue[0] == Terminal then JoinPc(s) else Away
  {
    hide TakeEntry, JoinReader, DeskOf, TakenDesk, Taken;
    TakeIs(s);
    TakenIs(s);
    JoinDesk(Taken(s));
  }

  lemma AnextDesk(s: State)
    ensures DeskOf(Anext(s)) == ReaderDesk(s, CallAnext)
    ensures !s.it.closed ==>
      Anext(s).loop.reader
      == if s.it.queue == [] then AtQueue else if s.it.queue[0] == Terminal then JoinPc(s) else Away
    ensures Apart(s, Anext(s))
  {
    hide Release, TakeEntry;
    ReleaseDesk(s);
    if Release(s).it.queue != [] {
      TakeDesk(Release(s));
    }
  }

  lemma ReaderTurnDesk(s: State, c: Choice)
    requires s.loop.reader == AtQueue && !s.loop.readerCancelPending
    ensures DeskOf(ReaderTurn(s)) == ReaderDesk(s, Tick(ReaderStep, c))
    ensures ReaderTurn(s).loop.reader
         == if s.it.queue == [] then AtQueue else if s.it.queue[0] == Terminal then JoinPc(s) else Away
    ensures Apart(s, ReaderTurn(s))
  {
    hide TakeEntry;
    if s.it.queue != [] {
      TakeDesk(s);
    }
  }

  /** What `__anext__` does in every run: which entry it takes, what it returns, that it gives the last item
      back first and only once, and where it stands then.  At INTERRUPTED it is over at once, without a join,
      and the iterator is not closed; at TERMINAL it closes and goes to the join. */
  lemma ReaderStepIsExact(run: seq<Action>, a: Action)
    requires IsRun(NEW_ITERATOR, run) && Enabled(Reached(run), a) && Reads(Reached(run), a)
    ensures
      var s, t := Reached(run), Next(Reached(run), a);
      && DeskOf(t) == ReaderDesk(s, a)
      && t.loop.reader == (if s.it.queue == [] then AtQueue else if s.it.queue[0] == Terminal then JoinPc(s) else Away)
      && t.loop.owner == s.loop.owner
  {
    hide ReaderDesk, Anext, ReaderTurn;
    var s := Reached(run);
    if a.CallAnext? {
      AnextDesk(s);
    } else {
      var p := s.(loop := s.loop.(ready := s.loop.ready.Without(ReaderStep)));
      ReaderTurnDesk(p, a.choice);
      SameDesk(s, p, a);
    }
  }

  lemma SameDesk(s: State, p: State, a: Action)
    requires p.it == s.it && p.log == s.log
    requires p.loop.ownerCancelling == s.loop.ownerCancelling
    requires p.loop.reader == s.loop.reader && p.loop.readerCancelPending == s.loop.readerCancelPending
    ensures ReaderDesk(p, a) == ReaderDesk(s, a)
  {
  }

  // ---------------------------------------------------------------- the watcher, the closer, the callbacks

  /** What tells the producer to stop, and what has been done about it. */
  datatype Order = Order(stop: bool, released: bool, deferred: bool, scheduled: bool, cancelled: bool)

  function OrderOf(s: State): Order {
    Order(s.it.stopSet, s.it.continueSet, s.it.interruptAfterContinue, s.loop.ready.Has(CancelOwnerIfRunning),
          s.loop.ownerCancelling)
  }

  /** A cancellation comes out of the watcher's observation, as a plain one, and the owner still runs. */
  predicate HandsOver(s: State, c: Choice) {
    s.loop.watcher == Watching && s.loop.watcherCancelPending && c.observation.Sound? && s.loop.owner != Finished
  }

  /** The observation is lost. */
  predicate LosesSight(s: State, c: Choice) {
    c.observation.Broken?
    && (s.loop.watcher == Watching || (s.loop.watcher == NotStarted && !s.loop.watcherCancelPending))
  }

  predicate SameIterator(s: State, t: State) {
    t.it.queue == s.it.queue && Apart(s, t)
  }

  lemma EndWatcherOrder(s: State, cancelled: bool)
    ensures OrderOf(EndWatcher(s, cancelled)) == OrderOf(s) && SameIterator(s, EndWatcher(s, cancelled))
    ensures EndWatcher(s, cancelled).loop.watcher == Ended(cancelled)
  {
  }

  lemma InterruptOrder(s: State, handOver: bool, stop: bool)
    ensures OrderOf(InterruptFor(s, handOver, stop)) == OrderOf(s).(cancelled := s.loop.ownerCancelling || Reaches(s))
    ensures SameIterator(s, InterruptFor(s, handOver, stop))
    ensures InterruptFor(s, handOver, stop).it == s.it && InterruptFor(s, handOver, stop).loop.watcher == s.loop.watcher
  {
  }

  lemma HandOverOrder(s: State)
    requires s.loop.owner != Finished
    ensures OrderOf(HandOver(s))
         == if s.it.itemOutstanding then OrderOf(s).(deferred := true)
            else if s.it.waitingForContinue then OrderOf(s).(scheduled := true)
            else OrderOf(s).(cancelled := s.loop.ownerCancelling || Reaches(s))
    ensures SameIterator(s, HandOver(s)) && HandOver(s).loop.watcher.Ended?
  {
    hide EndWatcher, InterruptFor;
    var t := s.(it := s.it.(interruptAfterContinue := true));
    EndWatcherOrder(t, true);
    EndWatcherOrder(ScheduleInterrupt(s), true);
    EndWatcherOrder(InterruptFor(s, true, false), true);
    InterruptOrder(s, true, false);
  }

  lemma ObserverLostOrder(s: State)
    ensures OrderOf(ObserverLost(s))
         == OrderOf(s).(stop := true, released := true, cancelled := s.loop.ownerCancelling || Reaches(s))
    ensures SameIterator(s, ObserverLost(s)) && ObserverLost(s).loop.watcher.Ended?
  {
    hide EndWatcher, InterruptFor;
    var t := SetContinue(s.(it := s.it.(stopSet := true)));
    assert Reaches(t) <==> Reaches(s);
    EndWatcherOrder(InterruptFor(t, true, true), false);
    InterruptOrder(t, true, true);
  }

  lemma WatchResumedOrder(s: State, o: Observation)
    ensures OrderOf(WatchResumed(s, o))
         == if o.Broken? then
              OrderOf(s).(stop := true, released := true, cancelled := s.loop.ownerCancelling || Reaches(s))
            else OrderOf(s)
    ensures SameIterator(s, WatchResumed(s, o)) && (o.Broken? ==> WatchResumed(s, o).loop.watcher.Ended?)
  {
    hide EndWatcher, ObserverLost;
    ObserverLostOrder(s);
    EndWatcherOrder(s, o == Evidence);
  }

  lemma WatchInterruptedOrder(s: State, o: Observation)
    ensures OrderOf(WatchInterrupted(s, o))
         == if o.Broken? then
              OrderOf(s).(stop := true, released := true, cancelled := s.loop.ownerCancelling || Reaches(s))
            else if o.Evidence? || s.loop.owner == Finished then OrderOf(s)
            else if s.it.itemOutstanding then OrderOf(s).(deferred := true)
            else if s.it.waitingForContinue then OrderOf(s).(scheduled := true)
            else OrderOf(s).(cancelled := s.loop.ownerCancelling || Reaches(s))
    ensures SameIterator(s, WatchInterrupted(s, o)) && WatchInterrupted(s, o).loop.watcher.Ended?
  {
    hide EndWatcher, ObserverLost, HandOver;
    match o {
      case Sound =>
        if s.loop.owner == Finished { FinishedHandOver(s); } else { HandOverOrder(s); }
      case Evidence =>
        var t := s.(log := s.log.(losses := s.log.losses.(withheld := true)));
        EndWatcherOrder(t, true);
        assert OrderOf(t) == OrderOf(s);
      case Broken => ObserverLostOrder(s);
    }
  }

  lemma FinishedHandOver(s: State)
    requires s.loop.owner == Finished
    ensures OrderOf(HandOver(s)) == OrderOf(s) && SameIterator(s, HandOver(s)) && HandOver(s).loop.watcher.Ended?
  {
    hide EndWatcher;
    EndWatcherOrder(s, false);
  }

  /** What becomes of the order to stop in a turn of the watcher. */
  function WatcherOrder(s: State, c: Choice): Order {
    if LosesSight(s, c) then
      OrderOf(s).(stop := true, released := true, cancelled := s.loop.ownerCancelling || Reaches(s))
    else if !HandsOver(s, c) then OrderOf(s)
    else if s.it.itemOutstanding then OrderOf(s).(deferred := true)
    else if s.it.waitingForContinue then OrderOf(s).(scheduled := true)
    else OrderOf(s).(cancelled := s.loop.ownerCancelling || Reaches(s))
  }

  lemma StartingOrder(s: State, c: Choice)
    requires s.loop.watcher == NotStarted
    ensures
      var t := WatcherTurn(s, c);
      && OrderOf(t) == WatcherOrder(s, c) && SameIterator(s, t)
      && (LosesSight(s, c) ==> t.loop.watcher.Ended?)
  {
    hide EndWatcher, WatchResumed;
    var q := s.(loop := s.loop.(watcherCancelPending := false));
    var u := q.(it := q.it.(watchStarted := true), loop := q.loop.(watcher := Watching));
    EndWatcherOrder(q, true);
    WatchResumedOrder(u, c.observation);
    assert WatcherTurn(s, c)
        == if s.loop.watcherCancelPending then EndWatcher(q, true) else WatchResumed(u, c.observation);
  }

  lemma WatchingOrder(s: State, c: Choice)
    requires s.loop.watcher == Watching
    ensures
      var t := WatcherTurn(s, c);
      && OrderOf(t) == WatcherOrder(s, c) && SameIterator(s, t)
      && (LosesSight(s, c) || HandsOver(s, c) ==> t.loop.watcher.Ended?)
  {
    hide WatchResumed, WatchInterrupted;
    var q := s.(loop := s.loop.(watcherCancelPending := false));
    WatchResumedOrder(q, c.observation);
    WatchInterruptedOrder(q, c.observation);
    assert WatcherTurn(s, c)
        == if s.loop.watcherCancelPending then WatchInterrupted(q, c.observation) else WatchResumed(q, c.observation);
  }

  lemma WatcherTurnOrder(s: State, c: Choice)
    requires !s.loop.watcher.Ended?
    ensures
      var t := WatcherTurn(s, c);
      && OrderOf(t) == WatcherOrder(s, c) && SameIterator(s, t)
      && (LosesSight(s, c) || HandsOver(s, c) ==> t.loop.watcher.Ended?)
  {
    hide WatcherTurn, WatcherOrder, OrderOf;
    if s.loop.watcher == NotStarted {
      StartingOrder(s, c);
    } else {
      WatchingOrder(s, c);
    }
  }

  /** What the watcher does in every run.  A plain cancellation is passed on in exactly one of three ways: at
      once; behind the handshake that the reader has released, or whose item lies unread; or at the reader's
      next call while it holds the item.  A lost observation stops the iterator at once.  Anything else that
      comes out of the observation reaches nobody. */
  lemma WatcherStepIsExact(run: seq<Action>, c: Choice)
    requires IsRun(NEW_ITERATOR, run) && Enabled(Reached(run), Tick(WatcherStep, c))
    ensures
      var s, t := Reached(run), Next(Reached(run), Tick(WatcherStep, c));
      && OrderOf(t) == WatcherOrder(s, c) && SameIterator(s, t)
      && (LosesSight(s, c) || HandsOver(s, c) ==> t.loop.watcher.Ended?)
  {
    hide WatcherTurn;
    var s := Reached(run);
    WatcherIsLive(run);
    var p := s.(loop := s.loop.(ready := s.loop.ready.Without(WatcherStep)));
    WatcherTurnOrder(p, c);
    assert OrderOf(p) == OrderOf(s) && Reaches(p) == Reaches(s);
  }

  lemma WatcherIsLive(run: seq<Action>)
    requires IsRun(NEW_ITERATOR, run) && Reached(run).loop.ready.Has(WatcherStep)
    ensures !Reached(run).loop.watcher.Ended?
  {
    EveryRunIsSafe(run);
  }

  /** What the call of `aclose` that closes does in every run: it stops and releases the producer, interrupts
      an owner that can be interrupted, and goes to the join. */
  lemma AcloseIsExact(run: seq<Action>)
    requires IsRun(NEW_ITERATOR, run)
    ensures
      var s, t := Reached(run), Next(Reached(run), CallAclose);
      if s.it.closed then t == s
      else
        && OrderOf(t) == OrderOf(s).(stop := true, released := true, cancelled := s.loop.ownerCancelling
                                                   || (Reaches(s) && !s.it.interruptedByCleanup))
        && SameIterator(s, t) && t.it.closed && t.loop.closer == JoinPc(s)
  {
    hide InterruptFor;
    var s := Reached(run);
    var t := SetContinue(s.(it := s.it.(closed := true, stopSet := true)));
    InterruptOrder(t, false, true);
    assert Reaches(t) <==> Reaches(s);
  }

  // ---------------------------------------------------------------- who publishes

  lemma AcloseApart(s: State)
    ensures SameIterator(s, Aclose(s))
  {
    hide InterruptFor;
    var t := SetContinue(s.(it := s.it.(closed := true, stopSet := true)));
    InterruptOrder(t, false, true);
  }

  lemma CallsApart(s: State, a: Action)
    requires Enabled(s, a) && !a.Tick?
    ensures Apart(s, Next(s, a))
    ensures Next(s, a).it.queue == if Takes(s, a) then s.it.queue[1..] else s.it.queue
  {
    hide Anext, Aclose;
    if a.CallAnext? {
      AnextDesk(s);
    } else if a.CallAclose? {
      AcloseApart(s);
    }
  }

  lemma ReaderTurnApart(s: State, c: Choice)
    ensures Apart(s, ReaderTurn(s))
    ensures ReaderTurn(s).it.queue == if Takes(s, Tick(ReaderStep, c)) then s.it.queue[1..] else s.it.queue
  {
    hide TakeEntry, JoinReader;
    JoinDesk(s);
    if s.loop.reader == AtQueue && !s.loop.readerCancelPending {
      ReaderTurnDesk(s, c);
    }
  }

  lemma CallbacksApart(s: State, h: Handle, c: Choice)
    requires h in {CloserStep, CancelOwnerIfRunning, PublishCompletion, WatchNeverStarted}
    ensures Apart(s, RunHandle(s, h, c))
    ensures RunHandle(s, h, c).it.queue
         == if h == PublishCompletion && !s.it.terminalPublished then s.it.queue + [Terminal] else s.it.queue
  {
    hide InterruptFor;
    InterruptOrder(s, true, false);
  }

  lemma HandlesApart(s: State, h: Handle, c: Choice)
    requires h != OwnerStep && (h == WatcherStep ==> !s.loop.watcher.Ended?)
    ensures Apart(s, RunHandle(s, h, c))
    ensures RunHandle(s, h, c).it.queue
         == if h == PublishCompletion && !s.it.terminalPublished then s.it.queue + [Terminal]
            else if Takes(s, Tick(h, c)) then s.it.queue[1..] else s.it.queue
  {
    hide OwnerTurn, WatcherTurn, ReaderTurn, CloserTurn, InterruptFor, Publish, NeverStartedTurn, Apart;
    if h == WatcherStep {
      WatcherTurnOrder(s, c);
    } else if h == ReaderStep {
      ReaderTurnApart(s, c);
    } else {
      CallbacksApart(s, h, c);
    }
  }

  /** Nobody but the owner touches its side, but for the reader, who takes the oldest entry, and the done
      callback, which publishes a TERMINAL that is missing. */
  lemma OthersPublishNothing(run: seq<Action>, a: Action)
    requires IsRun(NEW_ITERATOR, run) && Enabled(Reached(run), a) && !(a.Tick? && a.handle == OwnerStep)
    ensures
      var s, t := Reached(run), Next(Reached(run), a);
      && Apart(s, t)
      && t.it.queue == if Takes(s, a) then s.it.queue[1..]
                       else if a.Tick? && a.handle == PublishCompletion && !s.it.terminalPublished
                       then s.it.queue + [Terminal] else s.it.queue
  {
    hide RunHandle;
    var s := Reached(run);
    if a.Tick? {
      if a.handle == WatcherStep { WatcherIsLive(run); }
      HandlesApart(s.(loop := s.loop.(ready := s.loop.ready.Without(a.handle))), a.handle, a.choice);
    } else {
      CallsApart(s, a);
    }
  }

  /** INTERRUPTED in particular, over every action: it comes from the owner, and exactly then. */
  lemma InterruptedIsPublishedIff(run: seq<Action>, a: Action)
    requires IsRun(NEW_ITERATOR, run) && Enabled(Reached(run), a)
    ensures
      var s, t := Reached(run), Next(Reached(run), a);
      var now := a.Tick? && a.handle == OwnerStep && Interrupts(s, a.choice);
      && (t.it.interruptedByCleanup <==> s.it.interruptedByCleanup || now)
      && (now ==> |s.it.queue| < |t.it.queue| && t.it.queue[|s.it.queue|] == Interrupted
                  && (s.loop.reader == AtQueue ==> t.loop.ready.Has(ReaderStep)))
      && (!now && Interrupted in t.it.queue ==> Interrupted in s.it.queue)
  {
    hide Next, Inv;
    var s := Reached(run);
    if a.Tick? && a.handle == OwnerStep {
      OwnerStepIsExact(run, a.choice);
      ReaderIsWoken(run, a);
    } else {
      OthersPublishNothing(run, a);
    }
  }

  lemma ReaderIsWoken(run: seq<Action>, a: Action)
    requires IsRun(NEW_ITERATOR, run) && Enabled(Reached(run), a)
    ensures
      var t := Next(Reached(run), a);
      t.loop.reader == AtQueue && t.it.queue != [] ==> t.loop.ready.Has(ReaderStep)
  {
    hide Next;
    EveryRunIsSafe(run);
    NextKeepsInv(Reached(run), a);
  }

  // ---------------------------------------------------------------- who cancels

  /** One of the iterator's own interrupts is made, on purpose or too late. */
  predicate Strikes(s: State, a: Action) {
    match a
    case CallAclose => !s.it.closed && !s.it.interruptedByCleanup
    case Tick(WatcherStep, c) =>
      LosesSight(s, c) || (HandsOver(s, c) && !s.it.itemOutstanding && !s.it.waitingForContinue)
    case Tick(CancelOwnerIfRunning, _) => true
    case Tick(WatchNeverStarted, _) => NeverStarted(s)
    case _ => false
  }

  lemma ReaderCancelsNobody(s: State, c: Choice)
    ensures ReaderTurn(s).loop.ownerCancelling == s.loop.ownerCancelling
  {
    hide TakeEntry, JoinReader;
    JoinDesk(s);
    if s.loop.reader == AtQueue && !s.loop.readerCancelPending {
      ReaderTurnDesk(s, c);
    }
  }

  lemma CallbacksCancel(s: State, h: Handle, c: Choice)
    requires h in {CloserStep, CancelOwnerIfRunning, PublishCompletion, WatchNeverStarted}
    ensures RunHandle(s, h, c).loop.ownerCancelling
       <==> s.loop.ownerCancelling || (Reaches(s) && Strikes(s, Tick(h, c)))
  {
    hide InterruptFor;
    InterruptOrder(s, true, false);
  }

  lemma CallsCancel(s: State, a: Action)
    requires Enabled(s, a) && !a.Tick?
    ensures Next(s, a).loop.ownerCancelling
       <==> s.loop.ownerCancelling || a == CancelOwnerDirectly || (Reaches(s) && Strikes(s, a))
  {
    hide Anext, InterruptFor;
    if a.CallAnext? {
      AnextDesk(s);
    } else if a.CallAclose? {
      var t := SetContinue(s.(it := s.it.(closed := true, stopSet := true)));
      InterruptOrder(t, false, true);
    }
  }

  /** The owner is cancelled, for good, by whoever tears the event loop down, and otherwise exactly by an
      interrupt of the iterator that reaches it; nothing takes that back. */
  lemma CancelledByIff(run: seq<Action>, a: Action)
    requires IsRun(NEW_ITERATOR, run) && Enabled(Reached(run), a)
    ensures
      var s, t := Reached(run), Next(Reached(run), a);
      t.loop.ownerCancelling
      <==> s.loop.ownerCancelling || a == CancelOwnerDirectly || (Reaches(s) && Strikes(s, a))
  {
    hide RunHandle, OwnerFace;
    var s := Reached(run);
    if !a.Tick? {
      CallsCancel(s, a);
    } else if a.handle == OwnerStep {
      OwnerStepIsExact(run, a.choice);
      assert OwnerFace(s, a.choice).cancelling == s.loop.ownerCancelling by {
        OwnerFaceKeeps(s, a.choice);
      }
    } else if a.handle == WatcherStep {
      WatcherStepIsExact(run, a.choice);
    } else {
      var p := s.(loop := s.loop.(ready := s.loop.ready.Without(a.handle)));
      HandleCancels(p, a.handle, a.choice);
    }
  }

  lemma OwnerFaceKeeps(s: State, c: Choice)
    ensures OwnerFace(s, c).cancelling == s.loop.ownerCancelling
  {
  }

  lemma HandleCancels(s: State, h: Handle, c: Choice)
    requires h != OwnerStep && h != WatcherStep
    ensures RunHandle(s, h, c).loop.ownerCancelling
       <==> s.loop.ownerCancelling || (Reaches(s) && Strikes(s, Tick(h, c)))
  {
    hide ReaderTurn, CloserTurn, InterruptFor, Publish, NeverStartedTurn;
    if h == ReaderStep {
      ReaderCancelsNobody(s, c);
    } else {
      CallbacksCancel(s, h, c);
    }
  }

  // ---------------------------------------------------------------- a reader that stops before the close

  const ASKED: seq<Action> := [CallAnext, CancelWatcher]
  const PASSED_ON: seq<Action> := [Tick(WatcherStep, IDLE), Tick(OwnerStep, UNWINDING)]
  const STOPPED: seq<Action> := [Tick(WatchNeverStarted, IDLE), Tick(ReaderStep, IDLE)]

  /** The source is cancelled on request, and its own `aclose` suspends. */
  const UNWINDING: Choice := IDLE.(act := Raise(INTERRUPTION), cleanupRequested := true, closeParks := true)

  const ASKING: State :=
    BOTH_STARTED.(loop := BOTH_STARTED.loop.(reader := AtQueue, watcherCancelPending := true,
                                             ready := Ready(map[WatcherStep := 2], 3)),
                  log := BOTH_STARTED.log.(watcherCancelled := true))

  const PASSING: State :=
    ASKING.(loop := ASKING.loop.(watcherCancelPending := false, watcher := Ended(true), ownerCancelPending := true,
                                 ownerCancelling := true,
                                 ready := Ready(map[OwnerStep := 3, WatchNeverStarted := 4], 5)),
            log := ASKING.log.(cancelsSent := 1))

  const TELLING: State :=
    PASSING.(it := PASSING.it.(queue := [Interrupted], interruptedByCleanup := true),
             loop := PASSING.loop.(ownerCancelPending := false, owner := InClose,
                                   ready := Ready(map[WatchNeverStarted := 4, ReaderStep := 5], 6)))

  const TOLD: State :=
    TELLING.(it := TELLING.it.(queue := []),
             loop := TELLING.loop.(reader := Away, ready := Ready(map[], 6)))

  lemma AskedRun()
    ensures IsRun(BOTH_STARTED, ASKED) && After(BOTH_STARTED, ASKED) == ASKING
  {
    var s := Next(BOTH_STARTED, CallAnext);
    assert s == BOTH_STARTED.(loop := BOTH_STARTED.loop.(reader := AtQueue));
    assert Next(s, CancelWatcher).loop.ready.place == map[WatcherStep := 2];
    TwoActions(BOTH_STARTED, CallAnext, CancelWatcher);
  }

  lemma PassedOnStep()
    ensures Enabled(ASKING, PASSED_ON[0]) && Next(ASKING, PASSED_ON[0]) == PASSING
  {
    assert Next(ASKING, PASSED_ON[0]).loop.ready.place == map[OwnerStep := 3, WatchNeverStarted := 4];
  }

  lemma ToldStep()
    ensures Enabled(PASSING, PASSED_ON[1]) && Next(PASSING, PASSED_ON[1]) == TELLING
  {
    assert Next(PASSING, PASSED_ON[1]).loop.ready.place == map[WatchNeverStarted := 4, ReaderStep := 5];
  }

  lemma StoppedRun()
    ensures IsRun(TELLING, STOPPED) && After(TELLING, STOPPED) == TOLD
  {
    var s := Next(TELLING, STOPPED[0]);
    assert s.loop.ready.place == map[ReaderStep := 5];
    assert Next(s, STOPPED[1]).loop.ready.place == map[];
    TwoActions(TELLING, STOPPED[0], STOPPED[1]);
  }

  /** A reader that learns of the interruption while the source's own `aclose` still runs: it is back with
      its caller, the iterator is not closed, and the owner is not done. */
  lemma AReaderStopsBeforeTheClose() returns (run: seq<Action>)
    ensures IsRun(NEW_ITERATOR, run)
    ensures
      var s := Reached(run);
      && s.it.interruptedByCleanup && s.loop.reader == Away && s.it.queue == [] && !s.it.closed
      && s.loop.owner == InClose && s.log.terminals == 0
  {
    StartedRun();
    AskedRun();
    PassedOnStep();
    ToldStep();
    TwoActions(ASKING, PASSED_ON[0], PASSED_ON[1]);
    StoppedRun();
    RunConcat(NEW_ITERATOR, STARTED, ASKED);
    RunConcat(NEW_ITERATOR, STARTED + ASKED, PASSED_ON);
    RunConcat(NEW_ITERATOR, STARTED + ASKED + PASSED_ON, STOPPED);
    run := STARTED + ASKED + PASSED_ON + STOPPED;
  }
}
