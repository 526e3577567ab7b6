/** Running one command with bounded output: the tail buffer, the collection of a process, and the
    runner whose every exit is meant to pass through the tree cleanup. */
module BoundedRun {
  import opened EventLoops
  import opened Options
  import opened OwnedTasks
  import opened OwnedGather
  import opened ProcessTree
  import opened Sequences

  newtype byte = x: int | 0 <= x < 256

  // ---------------------------------------------------------------- the tail buffer

  /** What the reads deliver before the first empty one, which is the end of the stream. */
  function Delivered(chunks: seq<seq<byte>>): seq<byte> {
    if chunks == [] || chunks[0] == [] then [] else chunks[0] + Delivered(chunks[1..])
  }

  function Excess(length: nat, limit: nat): nat {
    if length <= limit then 0 else length - limit
  }

  function Tail(s: seq<byte>, limit: nat): seq<byte> {
    s[Excess(|s|, limit)..]
  }

  lemma DropPast(x: seq<byte>, y: seq<byte>, n: nat)
    requires n <= |y|
    ensures (x + y)[|x| + n..] == y[n..]
  {
  }

  /** Keeping only a tail loses nothing that a later tail needs. */
  lemma TailOfTail(a: seq<byte>, b: seq<byte>, limit: nat)
    ensures Tail(Tail(a, limit) + b, limit) == Tail(a + b, limit)
  {
    var n := Excess(|a|, limit);
    var y := a[n..] + b;
    assert a[..n] + y == a + b by {
      assert a[..n] + a[n..] == a;
    }
    DropPast(a[..n], y, Excess(|y|, limit));
  }

  lemma {:induction false} DeliveredSplits(chunks: seq<seq<byte>>, k: nat)
    requires k <= |chunks|
    requires forall j :: 0 <= j < k ==> chunks[j] != []
    ensures Delivered(chunks) == Delivered(chunks[..k]) + Delivered(chunks[k..])
  {
    if k == 0 {
      assert chunks[0..] == chunks;
    } else {
      DeliveredSplits(chunks[1..], k - 1);
      assert chunks[..k][1..] == chunks[1..][..k - 1];
      assert chunks[1..][k - 1..] == chunks[k..];
    }
  }

  lemma DeliveredGrows(chunks: seq<seq<byte>>, k: nat)
    requires k < |chunks|
    requires forall j :: 0 <= j <= k ==> chunks[j] != []
    ensures Delivered(chunks[..k + 1]) == Delivered(chunks[..k]) + chunks[k]
  {
    DeliveredSplits(chunks[..k + 1], k);
    assert chunks[..k + 1][..k] == chunks[..k];
    assert chunks[..k + 1][k..] == [chunks[k]];
    assert Delivered([chunks[k]]) == chunks[k] + Delivered([]);
  }

  /** One pass of the loop over the buffer, which never holds more than `limit` bytes on the way. */
  method Retain(before: seq<byte>, chunk: seq<byte>, limit: nat) returns (retained: seq<byte>)
    requires |before| <= limit
    ensures |retained| <= limit
    ensures retained == Tail(before + chunk, limit)
  {
    retained := before;
    if limit == 0 {
      return;
    }
    if |chunk| >= limit {
      return chunk[|chunk| - limit..];
    }
    var overflow := |retained| + |chunk| - limit;
    if overflow > 0 {
      retained := retained[overflow..];
    }
    retained := retained + chunk;
  }

  method ReadBoundedTail(stream: Option<seq<seq<byte>>>, limit: nat) returns (retained: seq<byte>, truncated: bool)
    ensures stream.None? ==> retained == [] && !truncated
    ensures stream.Some? ==> retained == Tail(Delivered(stream.value), limit)
    ensures stream.Some? ==> (truncated <==> |Delivered(stream.value)| > limit)
  {
    if stream.None? {
      return [], false;
    }
    retained, truncated := ReadToEnd(stream.value, limit);
  }

  method ReadToEnd(chunks: seq<seq<byte>>, limit: nat) returns (retained: seq<byte>, truncated: bool)
    ensures retained == Tail(Delivered(chunks), limit)
    ensures truncated <==> |Delivered(chunks)| > limit
  {
    var total, rest := 0, chunks;
    retained := [];
    NothingRetained(chunks, limit);
    while rest != [] && rest[0] != []
      invariant |retained| <= limit
      invariant Tail(retained + Delivered(rest), limit) == Tail(Delivered(chunks), limit)
      invariant total + |Delivered(rest)| == |Delivered(chunks)|
    {
      RetainedSuffices(retained, rest, limit);
      total := total + |rest[0]|;
      retained := Retain(retained, rest[0], limit);
      rest := rest[1..];
    }
    NothingLeft(retained, rest, limit);
    truncated := total > limit;
  }

  lemma NothingRetained(chunks: seq<seq<byte>>, limit: nat)
    ensures Tail([] + Delivered(chunks), limit) == Tail(Delivered(chunks), limit)
  {
    assert [] + Delivered(chunks) == Delivered(chunks);
  }

  lemma NothingLeft(retained: seq<byte>, rest: seq<seq<byte>>, limit: nat)
    requires |retained| <= limit && (rest == [] || rest[0] == [])
    ensures Tail(retained + Delivered(rest), limit) == retained
  {
    assert retained + [] == retained;
  }

  /** After one more read the buffer still decides what the whole tail will be. */
  lemma RetainedSuffices(retained: seq<byte>, rest: seq<seq<byte>>, limit: nat)
    requires rest != [] && rest[0] != []
    ensures Tail(Tail(retained + rest[0], limit) + Delivered(rest[1..]), limit)
         == Tail(retained + Delivered(rest), limit)
    ensures |Delivered(rest)| == |rest[0]| + |Delivered(rest[1..])|
  {
    TailOfTail(retained + rest[0], Delivered(rest[1..]), limit);
    Regroup(retained, rest[0], Delivered(rest[1..]));
  }

  /** How the stream was cut into reads makes no difference. */
  lemma {:induction false} ChunkingDoesNotMatter(a: seq<seq<byte>>, s: seq<byte>, limit: nat)
    requires forall j :: 0 <= j < |a| ==> a[j] != []
    requires s != []
    ensures Delivered(a + [s]) == Delivered(a) + s
    ensures forall m :: 0 < m < |s| ==> Delivered(a + [s[..m], s[m..]]) == Delivered(a + [s])
  {
    DeliveredGrows(a + [s], |a|);
    assert (a + [s])[..|a|] == a;
    assert (a + [s])[..|a| + 1] == a + [s];
    forall m | 0 < m < |s|
      ensures Delivered(a + [s[..m], s[m..]]) == Delivered(a + [s])
    {
      var b := a + [s[..m], s[m..]];
      DeliveredGrows(b, |a|);
      DeliveredGrows(b, |a| + 1);
      assert b[..|a|] == a && b[..|a| + 2] == b;
      assert s[..m] + s[m..] == s;
      assert (Delivered(a) + s[..m]) + s[m..] == Delivered(a) + (s[..m] + s[m..]);
    }
  }

  // ---------------------------------------------------------------- collecting one process

  datatype Collection =
    | Collected(returncode: int, stdout: int, stderr: int)
    | CollectionRaises(error: Error)
    | Collecting                          // the script ended first

  /** The cancellations that came out of these waits. */
  function Interruptions(waits: seq<Awaited>): seq<Error> {
    if waits == [] then []
    else
      var w := waits[|waits| - 1];
      Interruptions(waits[..|waits| - 1]) + if w.how.Interrupted? then [w.how.error] else []
  }

  /** Each of them goes to the children that run as it arrives. */
  function HandedOn(owned: seq<Task>, waits: seq<Awaited>): seq<Task> {
    if waits == [] then []
    else
      var w := waits[|waits| - 1];
      HandedOn(owned, waits[..|waits| - 1]) + if w.how.Interrupted? then Running(owned, w.done) else []
  }

  /** The first cancellation is kept, and every one has been handed on. */
  predicate Handing(owned: seq<Task>, waits: seq<Awaited>, error: Option<Error>, sent0: seq<Task>, sent: seq<Task>) {
    error == Kept(None, Interruptions(waits)) && sent == sent0 + HandedOn(owned, waits)
  }

  lemma HandingNothing(owned: seq<Task>, sent: seq<Task>)
    ensures Handing(owned, [], None, sent, sent)
  {
  }

  lemma HandingNext(owned: seq<Task>, waits: seq<Awaited>, error: Option<Error>, sent0: seq<Task>, sent: seq<Task>,
                    w: Awaited)
    requires Handing(owned, waits, error, sent0, sent)
    ensures if w.how.Interrupted? then
              Handing(owned, waits + [w], if error.None? then Some(w.how.error) else error, sent0,
                      sent + Running(owned, w.done))
            else Handing(owned, waits + [w], error, sent0, sent)
  {
    hide Kept, Running;
    assert (waits + [w])[..|waits|] == waits;
    if w.how.Interrupted? {
      KeptNext(None, Interruptions(waits), w.how.error);
      Regroup(sent0, HandedOn(owned, waits), Running(owned, w.done));
    } else {
      assert Interruptions(waits) + [] == Interruptions(waits) && HandedOn(owned, waits) + [] == HandedOn(owned, waits);
    }
  }

  lemma {:induction false} NoneHandedOn(owned: seq<Task>, waits: seq<Awaited>)
    ensures Kept(None, Interruptions(waits)).None? ==> HandedOn(owned, waits) == []
  {
    if waits != [] {
      NoneHandedOn(owned, waits[..|waits| - 1]);
    }
  }

  lemma Handed(owned: seq<Task>, waits: seq<Awaited>, error: Option<Error>, sent0: seq<Task>, sent: seq<Task>)
    requires Handing(owned, waits, error, sent0, sent)
    ensures error == Kept(None, Interruptions(waits)) && sent == sent0 + HandedOn(owned, waits)
    ensures error.None? ==> sent == sent0
  {
    NoneHandedOn(owned, waits);
  }

  /** A wait that ends `asyncio.gather(*owned)`: it failed, or it shows a failing child or the end of all. */
  predicate EndsGather(owned: seq<Task>, ends: Task -> End, w: Awaited) {
    w.how.Failed? || (w.how.Woken? && (Failing(owned, ends, w.done) || Finished(owned, w.done)))
  }

  predicate GoesOn(owned: seq<Task>, ends: Task -> End, waits: seq<Awaited>) {
    forall k :: 0 <= k < |waits| ==> WaitsForRest(owned, waits[k]) && !EndsGather(owned, ends, waits[k])
  }

  /** These waits are the whole of such a gather, and this is its error: that of the failed wait or of a
      child that it shows failing, else the first cancellation. */
  ghost predicate GatheredBy(owned: seq<Task>, ends: Task -> End, waits: seq<Awaited>, error: Option<Error>) {
    && waits != []
    && var last := waits[|waits| - 1];
    && EndsGather(owned, ends, last) && WaitsForRest(owned, last)
    && GoesOn(owned, ends, waits[..|waits| - 1])
    && if last.how.Failed? then error == Some(last.how.error)
       else if Failing(owned, ends, last.done) then
         error.Some? && exists t :: t in owned && t in last.done && ends(t) == Raises(error.value)
       else error == Kept(None, Interruptions(waits))
  }

  /** These waits are the whole of `asyncio.gather(*owned, return_exceptions=True)`. */
  predicate DrainedBy(owned: seq<Task>, waits: seq<Awaited>, error: Option<Error>) {
    && waits != []
    && var last := waits[|waits| - 1].how;
    && (last.Failed? || last.Woken?)
    && (forall k :: 0 <= k < |waits| ==> waits[k].all && waits[k].until.None? && waits[k].tasks == set t | t in owned)
    && (forall k :: 0 <= k < |waits| - 1 ==> waits[k].how.Interrupted?)
    && error == if last.Failed? then Some(last.error) else Kept(None, Interruptions(waits))
  }

  /** In the middle of such a gather: the children not waited for any more have ended in a value. */
  ghost predicate Gathering(owned: seq<Task>, ends: Task -> End, waits: seq<Awaited>, pending: set<Task>,
                            done: set<Task>, error: Option<Error>, sent0: seq<Task>, sent: seq<Task>)
  {
    && (forall t :: t in pending ==> t in owned)
    && (forall t :: t in owned ==> t in pending || (t in done && ends(t).Value?))
    && Handing(owned, waits, error, sent0, sent)
    && if pending != {} then GoesOn(owned, ends, waits)
       else GatheredBy(owned, ends, waits, error) && waits[|waits| - 1].done == done
  }

  lemma GatheringAll(owned: seq<Task>, ends: Task -> End, pending: set<Task>, done: set<Task>, sent: seq<Task>)
    requires owned != [] && pending == set t | t in owned
    ensures Gathering(owned, ends, [], pending, done, None, sent, sent)
  {
    assert owned[0] in pending;
    HandingNothing(owned, sent);
  }

  /** A suspension that shows no completion. */
  lemma GatheringOn(owned: seq<Task>, ends: Task -> End, waits: seq<Awaited>, pending: set<Task>, done: set<Task>,
                    known: Option<Error>, sent0: seq<Task>, before: seq<Task>, last: Awaited, error: Option<Error>,
                    sent: seq<Task>)
    requires Gathering(owned, ends, waits, pending, done, known, sent0, before) && pending != {} && done <= last.done
    requires !last.how.Woken? && last.tasks == pending && !last.all && last.until.None?
    requires error == if last.how.Interrupted? && known.None? then Some(last.how.error) else known
    requires sent == if last.how.Interrupted? then before + Running(owned, last.done) else before
    ensures sent == sent0 + HandedOn(owned, waits + [last])
    ensures if last.how.Failed? then GatheredBy(owned, ends, waits + [last], Some(last.how.error))
            else Gathering(owned, ends, waits + [last], pending, last.done, error, sent0, sent)
  {
    hide Kept, Interruptions, HandedOn, Handing, Running;
    HandingNext(owned, waits, known, sent0, before, last);
    Handed(owned, waits + [last], error, sent0, sent);
    assert (waits + [last])[..|waits|] == waits;
  }

  /** A completion among the children still waited for that shows a failing one ends the gather. */
  lemma GatheringFails(owned: seq<Task>, ends: Task -> End, waits: seq<Awaited>, pending: set<Task>, done: set<Task>,
                       error: Option<Error>, sent0: seq<Task>, sent: seq<Task>, last: Awaited, t: Task)
    requires Gathering(owned, ends, waits, pending, done, error, sent0, sent) && pending != {} && done <= last.done
    requires last.how.Woken? && last.tasks == pending && !last.all && last.until.None?
    requires t in pending * last.done && ends(t).Raises?
    ensures sent == sent0 + HandedOn(owned, waits + [last])
    ensures GatheredBy(owned, ends, waits + [last], Some(ends(t).error)) && !Succeeds(owned, ends)
  {
    hide Kept, Interruptions, HandedOn, Handing;
    HandingNext(owned, waits, error, sent0, sent, last);
    Handed(owned, waits + [last], error, sent0, sent);
    assert (waits + [last])[..|waits|] == waits;
    assert t in owned;
  }

  /** One that shows none ends it exactly if none is left. */
  lemma GatheringLess(owned: seq<Task>, ends: Task -> End, waits: seq<Awaited>, pending: set<Task>, done: set<Task>,
                      error: Option<Error>, sent0: seq<Task>, sent: seq<Task>, last: Awaited)
    requires Gathering(owned, ends, waits, pending, done, error, sent0, sent) && pending != {} && done <= last.done
    requires last.how.Woken? && last.tasks == pending && !last.all && last.until.None?
    requires forall t :: t in pending * last.done ==> ends(t).Value?
    ensures Gathering(owned, ends, waits + [last], pending - pending * last.done, last.done, error, sent0, sent)
  {
    hide Kept, Interruptions, HandedOn, Handing;
    HandingNext(owned, waits, error, sent0, sent, last);
    Handed(owned, waits + [last], error, sent0, sent);
    var left := pending - pending * last.done;
    assert (waits + [last])[..|waits|] == waits;
    assert !Failing(owned, ends, last.done);
    if left != {} {
      var t :| t in left;
      assert t in owned && t !in last.done;
    } else {
      forall t | t in owned
        ensures t in last.done
      {
        assert t !in left;
      }
      assert Finished(owned, last.done);
    }
  }

  lemma GatheringEnds(owned: seq<Task>, ends: Task -> End, waits: seq<Awaited>, done: set<Task>, error: Option<Error>,
                      sent0: seq<Task>, sent: seq<Task>)
    requires Gathering(owned, ends, waits, {}, done, error, sent0, sent)
    ensures GatheredBy(owned, ends, waits, error) && waits != [] && waits[|waits| - 1].done == done
    ensures Finished(owned, done) && Succeeds(owned, ends)
    ensures sent == sent0 + HandedOn(owned, waits) && (error.None? ==> sent == sent0)
  {
    hide Kept, Interruptions, HandedOn, Handing;
    Handed(owned, waits, error, sent0, sent);
  }

  /** One suspension in `asyncio.gather`: a cancellation is kept, if it is the first, and handed on to
      the children that run. */
  method Attend(loop: EventLoop, owned: seq<Task>, awaited: set<Task>, all: bool, known: Option<Error>)
    returns (w: Wake, error: Option<Error>)
    modifies loop
    ensures loop.Advanced()
    ensures loop.waits == old(loop.waits) + [Awaited(awaited, all, None, w, loop.now, loop.done)]
    ensures loop.sent == if w.Interrupted? then old(loop.sent) + Running(owned, loop.done) else old(loop.sent)
    ensures error == if w.Interrupted? && known.None? then Some(w.error) else known
    ensures Undisturbed(loop) <==> !w.Interrupted? && !w.Failed?
    ensures loop.failures == old(loop.failures) <==> !w.Failed?
    ensures !w.TimedOut?
    ensures w.Hung? ==> loop.turns == []
    ensures w.Woken? ==> Satisfied(awaited, all, loop.done)
    ensures w.Interrupted? || w.Failed? ==> |loop.turns| < |old(loop.turns)|
  {
    hide Reaction, Continues, Satisfied, Running;
    w := loop.Wait(awaited, all, None);
    error := known;
    if w.Interrupted? {
      error := if known.None? then Some(w.error) else known;
      CancelRunning(loop, owned);
    }
  }

  /** `await asyncio.gather(*owned)`: the first failing child ends it; a cancellation goes to the
      children and comes out only after them. */
  method GatherOrRaise(loop: EventLoop, owned: seq<Task>) returns (error: Option<Error>, hung: bool)
    requires owned != []
    modifies loop
    ensures loop.Advanced()
    ensures hung ==> loop.turns == []
    ensures loop.sent == old(loop.sent) + HandedOn(owned, loop.waits[|old(loop.waits)|..])
    ensures !hung ==>
      && GatheredBy(owned, loop.ends, loop.waits[|old(loop.waits)|..], error)
      && loop.waits[|loop.waits| - 1].done == loop.done
    ensures !hung && error.None? ==>
      Finished(owned, loop.done) && Succeeds(owned, loop.ends) && Undisturbed(loop) && loop.sent == old(loop.sent)
    ensures !hung && error.Some? ==> !Undisturbed(loop) || !Succeeds(owned, loop.ends)
  {
    hide HandedOn, GatheredBy, Gathering, Finished, Succeeds;
    error, hung := None, false;
    ghost var before, met := loop.waits, [];
    var pending := set t | t in owned;
    GatheringAll(owned, loop.ends, pending, loop.done, loop.sent);
    while pending != {}
      invariant loop.Advanced() && met == loop.waits[|before|..]
      invariant Gathering(owned, loop.ends, met, pending, loop.done, error, old(loop.sent), loop.sent)
      invariant error.None? <==> Undisturbed(loop)
      decreases pending, |loop.turns|
    {
      ghost var done, waits, sent, known := loop.done, loop.waits, loop.sent, error;
      var w;
      w, error := Attend(loop, owned, pending, false, error);
      ghost var last := Awaited(pending, false, None, w, loop.now, loop.done);
      GainedOne(before, waits, last);
      if !w.Woken? {
        GatheringOn(owned, loop.ends, met, pending, done, known, old(loop.sent), sent, last, error, loop.sent);
        if w.Hung? {
          hung := true;
          return;
        }
        if w.Failed? {
          error := Some(w.error);
          return;
        }
      } else {
        var finished := pending * loop.done;
        if t :| t in finished && loop.ends(t).Raises? {
          GatheringFails(owned, loop.ends, met, pending, done, error, old(loop.sent), loop.sent, last, t);
          error := Some(loop.ends(t).error);
          return;
        }
        GatheringLess(owned, loop.ends, met, pending, done, error, old(loop.sent), loop.sent, last);
        pending := pending - finished;
      }
      met := met + [last];
    }
    GatheringEnds(owned, loop.ends, met, loop.done, error, old(loop.sent), loop.sent);
  }

  lemma DrainedAfter(owned: seq<Task>, met: seq<Awaited>, last: Awaited, error: Option<Error>)
    requires forall k :: 0 <= k < |met| ==> met[k].how.Interrupted?
    requires forall k :: 0 <= k < |met| ==> met[k].all && met[k].until.None? && met[k].tasks == set t | t in owned
    requires last.all && last.until.None? && last.tasks == set t | t in owned
    ensures last.how.Failed? ==> DrainedBy(owned, met + [last], Some(last.how.error))
    ensures last.how.Woken? && error == Kept(None, Interruptions(met + [last])) ==>
      DrainedBy(owned, met + [last], error)
  {
    hide Kept, Interruptions;
  }

  /** `await asyncio.gather(*owned, return_exceptions=True)`: no child ends it before the last. */
  method GatherAll(loop: EventLoop, owned: seq<Task>) returns (error: Option<Error>, hung: bool)
    modifies loop
    ensures loop.Advanced()
    ensures hung ==> loop.turns == []
    ensures loop.sent == old(loop.sent) + HandedOn(owned, loop.waits[|old(loop.waits)|..])
    ensures !hung ==> DrainedBy(owned, loop.waits[|old(loop.waits)|..], error)
    ensures !hung && loop.failures == old(loop.failures) ==> Finished(owned, loop.done)
    ensures error.Some? <==> !Undisturbed(loop)
    ensures error.None? ==> loop.sent == old(loop.sent)
  {
    hide Reaction, Continues, Interruptions, HandedOn, Kept, Handing, DrainedBy, Finished, Satisfied;
    error, hung := None, false;
    ghost var before, met := loop.waits, [];
    HandingNothing(owned, loop.sent);
    var settled := false;
    while !settled
      invariant loop.Advanced() && loop.failures == old(loop.failures) && met == loop.waits[|before|..]
      invariant settled ==> Finished(owned, loop.done) && DrainedBy(owned, met, error)
      invariant Handing(owned, met, error, old(loop.sent), loop.sent)
      invariant error.Some? <==> !Undisturbed(loop)
      invariant !settled ==> forall k :: 0 <= k < |met| ==> met[k].how.Interrupted?
      invariant forall k :: 0 <= k < |met| ==> met[k].all && met[k].until.None? && met[k].tasks == set t | t in owned
      decreases !settled, |loop.turns|
    {
      ghost var waits, sent, kept := loop.waits, loop.sent, error;
      var w;
      w, error := Attend(loop, owned, set t | t in owned, true, error);
      ghost var last := Awaited(set t | t in owned, true, None, w, loop.now, loop.done);
      HandingNext(owned, met, kept, old(loop.sent), sent, last);
      GainedOne(before, waits, last);
      Handed(owned, met + [last], error, old(loop.sent), loop.sent);
      DrainedAfter(owned, met, last, error);
      met := met + [last];
      match w {
        case Hung =>
          hung := true;
          return;
        case Failed(failure) =>
          error := Some(failure);
          return;
        case Interrupted(_) =>
        case Woken =>
          AllFinished(owned, loop.done);
          settled := true;
      }
    }
    Handed(owned, met, error, old(loop.sent), loop.sent);
  }

  lemma AllFinished(owned: seq<Task>, done: set<Task>)
    requires Satisfied(set t | t in owned, true, done)
    ensures Finished(owned, done)
  {
    forall t | t in owned
      ensures t in done
    {
      assert t in set t | t in owned;
    }
  }

  lemma {:induction false} NoneRunning(children: seq<Task>, done: set<Task>)
    ensures Finished(children, done) ==> Running(children, done) == []
  {
    if children != [] && Finished(children, done) {
      NoneRunning(children[1..], done);
    }
  }

  /** The `finally` block: cancel what still runs, and wait for all of it. */
  method Drain(loop: EventLoop, owned: seq<Task>) returns (error: Option<Error>, hung: bool)
    modifies loop
    ensures loop.Advanced()
    ensures hung ==> loop.turns == []
    ensures loop.sent
         == old(loop.sent) + Running(owned, old(loop.done)) + HandedOn(owned, loop.waits[|old(loop.waits)|..])
    ensures !hung ==> DrainedBy(owned, loop.waits[|old(loop.waits)|..], error)
    ensures !hung && loop.failures == old(loop.failures) ==> Finished(owned, loop.done)
    ensures error.Some? <==> !Undisturbed(loop)
    ensures Finished(owned, old(loop.done)) && error.None? ==> loop.sent == old(loop.sent)
  {
    hide HandedOn, DrainedBy, Running;
    NoneRunning(owned, loop.done);
    CancelRunning(loop, owned);
    error, hung := GatherAll(loop, owned);
  }

  /** The waits of a whole collection, the error that comes out of it, and the cancels it sends: each
      cancellation is handed on, and at the end of the gather whoever still runs is told to stop. */
  ghost predicate CollectedBy(owned: seq<Task>, ends: Task -> End, waits: seq<Awaited>, error: Option<Error>,
                              cancels: seq<Task>)
  {
    exists n, first, late ::
      0 < n <= |waits| && GatheredBy(owned, ends, waits[..n], first) && DrainedBy(owned, waits[n..], late)
      && error == (if late.Some? then late else first)
      && cancels == HandedOn(owned, waits[..n]) + Running(owned, waits[n - 1].done) + HandedOn(owned, waits[n..])
  }

  lemma CollectedInTwo(owned: seq<Task>, ends: Task -> End, a: Record, b: Record, c: Record, done: set<Task>,
                       first: Option<Error>, late: Option<Error>)
    requires a.waits <= b.waits <= c.waits
    requires GatheredBy(owned, ends, b.waits[|a.waits|..], first) && b.waits[|b.waits| - 1].done == done
    requires DrainedBy(owned, c.waits[|b.waits|..], late)
    requires b.sent == a.sent + HandedOn(owned, b.waits[|a.waits|..])
    requires c.sent == b.sent + Running(owned, done) + HandedOn(owned, c.waits[|b.waits|..])
    ensures a.sent <= c.sent
    ensures CollectedBy(owned, ends, c.waits[|a.waits|..], if late.Some? then late else first, c.sent[|a.sent|..])
  {
    hide GatheredBy, DrainedBy, HandedOn, Running;
    var waits, n := c.waits[|a.waits|..], |b.waits| - |a.waits|;
    assert 0 < n by {
      NotEmpty(owned, ends, b.waits[|a.waits|..], first);
    }
    assert waits[..n] == b.waits[|a.waits|..] && waits[n..] == c.waits[|b.waits|..];
    assert waits[n - 1] == b.waits[|b.waits| - 1];
    var cancels := HandedOn(owned, waits[..n]) + Running(owned, done) + HandedOn(owned, waits[n..]);
    assert c.sent == a.sent + cancels;
    Gained(a.sent, cancels);
  }

  lemma NotEmpty(owned: seq<Task>, ends: Task -> End, waits: seq<Awaited>, error: Option<Error>)
    requires GatheredBy(owned, ends, waits, error)
    ensures waits != []
  {
  }

  /** Three tasks as one operation: they are all done before it is, and it has a result exactly when
      each of them has and nothing disturbed it. */
  method CollectProcess(loop: EventLoop, stdout: Task, stderr: Task, wait: Task) returns (c: Collection)
    modifies loop
    ensures loop.Advanced()
    ensures c.Collecting? ==> loop.turns == []
    ensures !c.Collecting? && loop.failures == old(loop.failures) ==> {stdout, stderr, wait} <= loop.done
    ensures !c.Collecting? ==>
      (c.Collected? <==> Succeeds([stdout, stderr, wait], loop.ends) && Undisturbed(loop))
    ensures !c.Collecting? ==>
      old(loop.sent) <= loop.sent
      && CollectedBy([stdout, stderr, wait], loop.ends, loop.waits[|old(loop.waits)|..],
                     if c.CollectionRaises? then Some(c.error) else None, loop.sent[|old(loop.sent)|..])
    ensures c.Collected? ==> loop.sent == old(loop.sent)
    ensures c.Collected? ==> loop.ends(wait) == Value(c.returncode) && loop.ends(stdout) == Value(c.stdout)
                             && loop.ends(stderr) == Value(c.stderr)
  {
    hide GatheredBy, DrainedBy, HandedOn, Interruptions, Kept, CollectedBy, Running;
    var owned := [stdout, stderr, wait];
    ghost var a := RecordOf(loop);
    var error, hung := GatherOrRaise(loop, owned);
    if hung {
      return Collecting;
    }
    ghost var b, done := RecordOf(loop), loop.done;
    var late: Option<Error>;
    late, hung := Drain(loop, owned);
    if hung {
      return Collecting;
    }
    CollectedInTwo(owned, loop.ends, a, b, RecordOf(loop), done, error, late);
    assert stdout in owned && stderr in owned && wait in owned;
    if late.Some? {
      return CollectionRaises(late.value);
    }
    if error.Some? {
      return CollectionRaises(error.value);
    }
    return Collected(loop.ends(wait).value, loop.ends(stdout).value, loop.ends(stderr).value);
  }

  // ---------------------------------------------------------------- the runner

  datatype Request = Request(arguments: nat, timeout: int, limit: int, grace: int, reap: int)

  predicate Refused(q: Request) {
    q.arguments == 0 || q.timeout <= 0 || q.limit < 0 || q.grace < 0 || q.reap <= 0
  }

  datatype Run =
    | BadRequest
    | Captured(value: Option<int>, timedOut: bool)
    | LaunchTimedOut
    | Raised(error: Error)
    | StillRunning                       // the script ended first

  /** The way through the runner: what its waits and joins came to. */
  datatype Course =
    | Unstarted
    | CancelledAtLaunch(launch: Outcome)                  // joined with that cancellation pending
    | LateLaunch(launch: Outcome)                         // cancelled at the deadline and joined
    | LaunchFailed(error: Error)
    | ObservationLost(launched: bool, error: Error)       // a wait of the runner itself failed
    | Cleaned(timedOut: bool, cleanup: Outcome)
    | Unended

  /** The assertion after a join that is bound to raise. */
  const UNEXPECTED := Ordinary(-1)

  function Exit(select: Selector, c: Course): Run {
    match c
    case Unstarted => BadRequest
    case CancelledAtLaunch(o) =>
      var r := RaiseOwnedOutcome(select, o);
      Run.Raised(if r.RaisesError? then r.error else UNEXPECTED)
    case LateLaunch(o) =>
      if o.error.Some? && !o.error.value.Cancelled? then Run.Raised(o.error.value) else LaunchTimedOut
    case LaunchFailed(error) => Run.Raised(error)
    case ObservationLost(_, error) => Run.Raised(error)
    case Cleaned(timedOut, o) =>
      var r := RaiseOwnedOutcome(select, o);
      if r.RaisesError? then Run.Raised(r.error) else Captured(r.value, timedOut)
    case Unended => StillRunning
  }

  function Caught(c: Course): Option<Error> {
    match c
    case CancelledAtLaunch(o) => o.cancellation
    case LateLaunch(o) => o.cancellation
    case Cleaned(_, o) => o.cancellation
    case _ => None
  }

  /** What a join comes to, from what its waits have met. */
  function JoinedOutcome(select: Selector, end: End, pending: Option<Error>, t: Record): Outcome {
    OutcomeOf(select, end, Kept(pending, t.raised), t.failures, [])
  }

  /** The launch is told to stop, and joined whatever it does then. */
  method JoinCancelledLaunch(loop: EventLoop, select: Selector, launch: Task, pending: Option<Error>)
    returns (r: Run, ghost c: Course)
    modifies loop
    ensures loop.Advanced() && Continues(old(loop.Books()), loop.Books())
    ensures r == Exit(select, c)
    ensures c == Unended ==> loop.turns == []
    ensures Extends(old(RecordOf(loop)), RecordOf(loop))
    ensures
      var t := Gain(old(RecordOf(loop)), RecordOf(loop));
      && t.sent == [launch] && t.sentAt == [old(loop.now)]
      && c == if launch !in loop.done then Unended
              else if pending.Some? then CancelledAtLaunch(JoinedOutcome(select, loop.ends(launch), pending, t))
              else LateLaunch(JoinedOutcome(select, loop.ends(launch), pending, t))
  {
    hide Reaction, Continues, WaitedFor, Timed, FailedIn, OutcomeOf, Kept;
    loop.Cancel(launch);
    var j := AwaitOwnedTask(loop, select, launch, pending, NoForward, Admitted, None);
    NoFaults(Since(loop.failures, old(loop.failures)));
    if !j.Joined? {
      c := Unended;
      return StillRunning, c;
    }
    var course := if pending.Some? then CancelledAtLaunch(j.outcome) else LateLaunch(j.outcome);
    c := course;
    return Exit(select, course), c;
  }

  method JoinCleanup(loop: EventLoop, select: Selector, cleanup: Task, timedOut: bool, pending: Option<Error>)
    returns (r: Run, ghost c: Course)
    modifies loop
    ensures loop.Advanced() && Continues(old(loop.Books()), loop.Books())
    ensures r == Exit(select, c)
    ensures c == Unended ==> loop.turns == []
    ensures Extends(old(RecordOf(loop)), RecordOf(loop))
    ensures
      var t := Gain(old(RecordOf(loop)), RecordOf(loop));
      && t.sent == [] && t.sentAt == []
      && c == if cleanup !in loop.done then Unended
              else Cleaned(timedOut, JoinedOutcome(select, loop.ends(cleanup), pending, t))
  {
    hide Reaction, Continues, WaitedFor, Timed, FailedIn, OutcomeOf, Kept;
    var j := AwaitOwnedTask(loop, select, cleanup, pending, NoForward, Admitted, None);
    NoFaults(Since(loop.failures, old(loop.failures)));
    if !j.Joined? {
      c := Unended;
      return StillRunning, c;
    }
    var course := Cleaned(timedOut, j.outcome);
    c := course;
    return Exit(select, course), c;
  }

  /** The launch has a handle, now or in the end, and the call has ended without sweeping it. */
  predicate LeftBehind(c: Course, launched: End) {
    launched.Value? && !c.Cleaned? && !c.Unended? && !c.Unstarted?
  }

  /** What the error that comes out is made of. */
  function Ingredients(c: Course): seq<Ingredient> {
    match c
    case CancelledAtLaunch(o) => Arguments(o)
    case Cleaned(_, o) => Arguments(o)
    case LateLaunch(o) =>
      if o.error.Some? && !o.error.value.Cancelled? then [Own(o.error.value)] else []
    case LaunchFailed(error) => [Own(error)]
    case ObservationLost(_, error) => [Own(error)]
    case _ => []
  }

  /** An error comes out exactly if there is something to make it of; a late launch raises its own
      error bare, everything else goes through `raise_owned_outcome`. */
  lemma RaisedFromIngredients(select: Selector, c: Course)
    requires c.CancelledAtLaunch? ==> c.launch.cancellation.Some?
    ensures Exit(select, c).Raised? <==> Ingredients(c) != []
    ensures Exit(select, c).Raised? ==>
      Exit(select, c).error == if c.CancelledAtLaunch? || c.Cleaned? then MadeOf(select, Ingredients(c))
                               else Ingredients(c)[0].error
  {
    if c.CancelledAtLaunch? {
      RaisedIsMadeOf(select, c.launch);
    }
    if c.Cleaned? {
      RaisedIsMadeOf(select, c.cleanup);
    }
  }

  /** A cancellation that reached the caller goes into what is raised, except where a launch that
      missed its deadline is being joined: then it is in nothing, whatever becomes of the launch. */
  lemma CancellationIsDroppedIff(c: Course)
    requires Caught(c).Some?
    ensures Callers(Caught(c).value) !in Ingredients(c) <==> c.LateLaunch?
  {
    if c.CancelledAtLaunch? {
      RaisedIsMadeOf(errors => Ordinary(0), c.launch);
    }
    if c.Cleaned? {
      RaisedIsMadeOf(errors => Ordinary(0), c.cleanup);
    }
  }

  /** From the creation of the completion task on: the wait for it ends at the deadline at the latest,
      and every way out passes through the finished tree cleanup, unless that wait itself fails.  Nothing
      is cancelled. */
  predicate CleansUp(c: Course, select: Selector, ends: Task -> End, deadline: int, completion: Task, cleanup: Task,
                     t: Record, done: set<Task>)
  {
    && t.waits != []
    && var second := t.waits[0];
    && t.sent == [] && t.sentAt == []
    && second.tasks == {completion} && second.until == Some(deadline) && second.at <= deadline
    && !second.how.Hung?
    && (second.how.Failed? ==> t.raised == [] && t.failures == [second.how.error])
    && (second.how.Interrupted? ==> t.raised != [] && t.raised[0] == second.how.error)
    && (second.how.TimedOut? ==> completion !in second.done && second.at == deadline)
    && (second.how.Woken? ==> completion in second.done)
    && c == if second.how.Failed? then ObservationLost(true, second.how.error)
            else if cleanup !in done then Unended
            else Cleaned(second.how.TimedOut?, JoinedOutcome(select, ends(cleanup), None, t))
  }

  /** The first wait decides: what it raised ends the call with the launch left to itself; a
      cancellation and a missed deadline send one cancel to the launch and join it; a launch that is
      over is used. */
  predicate Follows(c: Course, created: bool, select: Selector, ends: Task -> End, deadline: int, launch: Task,
                    completion: Task, cleanup: Task, t: Record, done: set<Task>)
  {
    && t.waits != []
    && var first := t.waits[0];
    && first.tasks == {launch} && first.until == Some(deadline) && first.at <= deadline
    && (created <==> first.how.Woken? && ends(launch).Value?)
    && (first.how.Woken? ==> launch in first.done)
    && (first.how.TimedOut? ==> launch !in first.done && first.at == deadline)
    && match first.how
       case Hung => false
       case Failed(error) => c == ObservationLost(false, error) && t == Record([], [], [error], [], [], [first])
       case Interrupted(cancellation) =>
         && t.sent == [launch] && 0 < |t.raised| && t.raised[0] == cancellation
         && 0 < |t.raisedAt| && t.sentAt == [t.raisedAt[0]]
         && c == if launch !in done then Unended
                 else CancelledAtLaunch(JoinedOutcome(select, ends(launch), None, t))
       case TimedOut =>
         && t.sent == [launch] && t.sentAt == [deadline]
         && c == if launch !in done then Unended
                 else LateLaunch(JoinedOutcome(select, ends(launch), None, t))
       case Woken =>
         if ends(launch).Value?
         then CleansUp(c, select, ends, deadline, completion, cleanup, t.(waits := t.waits[1..]), done)
         else c == LaunchFailed(ends(launch).error) && t.sent == [] && t.raised == []
  }

  /** What comes out of a call that nobody disturbs: the timeout of the launch, the error of the launch as
      it is, that of the cleanup, or what the cleanup has captured. */
  lemma AnUndisturbedCall(c: Course, created: bool, select: Selector, ends: Task -> End, deadline: int, launch: Task,
                          completion: Task, cleanup: Task, t: Record, done: set<Task>)
    requires Follows(c, created, select, ends, deadline, launch, completion, cleanup, t, done)
    requires !c.Unended? && t.raised == [] == t.failures
    ensures
      var last := if created then ends(cleanup) else ends(launch);
      var late := t.waits[0].how.TimedOut?;
      && (created ==> |t.waits| > 1)
      && (last.Value? ==>
            Exit(select, c) == if late then LaunchTimedOut else Captured(Some(last.value), t.waits[1].how.TimedOut?))
      && (last.Raises? && !late && !created ==> Exit(select, c) == Run.Raised(last.error))
      && (last.Raises? && (late || created) ==>
            var e := select([last.error]);
            Exit(select, c) == if late && e.Cancelled? then LaunchTimedOut
                               else Run.Raised(if created && e.Control? then select([e]) else e))
  {
    var last := if created then ends(cleanup) else ends(launch);
    if last.Raises? {
      var e := select([last.error]);
      assert [e] + [] == [e];
    }
  }

  /** A cancellation of the caller comes out as it is, unless control is involved or the launch is late. */
  lemma ACancelledCall(c: Course, created: bool, select: Selector, ends: Task -> End, deadline: int, launch: Task,
                       completion: Task, cleanup: Task, t: Record, done: set<Task>)
    requires Follows(c, created, select, ends, deadline, launch, completion, cleanup, t, done)
    requires !c.Unended? && t.raised != [] && !t.waits[0].how.TimedOut?
    requires !t.raised[0].Control?
    requires
      var e := Composed(select, if created then ends(cleanup) else ends(launch), t.failures, []);
      e.Some? ==> !e.value.Control?
    ensures Exit(select, c) == Run.Raised(t.raised[0])
  {
    hide Composed;
  }

  /** What is gained from one wait on: what came out of that wait, and what follows. */
  lemma GainFrom(a: Record, wait: Awaited, now: int, b: Record, c: Record)
    requires b == Heard(a, 0, NoForward, false, wait, now) && Extends(b, c)
    ensures Extends(a, c)
    ensures
      var t, rest := Gain(a, c), Gain(b, c);
      && t.waits == [wait] + rest.waits && t.sent == rest.sent && t.sentAt == rest.sentAt
      && (wait.how.Interrupted? ==> t.raised == [wait.how.error] + rest.raised && t.raisedAt == [now] + rest.raisedAt)
      && (!wait.how.Interrupted? ==> t.raised == rest.raised && t.raisedAt == rest.raisedAt)
      && t.failures == if wait.how.Failed? then [wait.how.error] + rest.failures else rest.failures
  {
  }

  lemma KeptFrom(first: Error, later: seq<Error>)
    ensures Kept(None, [first] + later) == Kept(Some(first), later)
  {
  }

  /** The two things that go wrong, and exactly when.  The first cancellation of the caller is dropped
      exactly if the launch has missed its deadline. */
  lemma FirstCancellationIsDroppedIff(c: Course, created: bool, select: Selector, ends: Task -> End, deadline: int,
                                      launch: Task, completion: Task, cleanup: Task, t: Record, done: set<Task>)
    requires Follows(c, created, select, ends, deadline, launch, completion, cleanup, t, done)
    requires !c.Unended? && t.raised != []
    ensures Callers(t.raised[0]) !in Ingredients(c) <==> t.waits[0].how.TimedOut?
  {
    hide Ingredients;
    if Caught(c).Some? {
      CancellationIsDroppedIff(c);
    }
  }

  /** A launch that is cancelled while it runs never ends with a handle (`ProcessTree.LaunchTask`).  Then
      a process is left behind exactly if the launch was over as the caller was cancelled, or a wait of
      the runner itself failed. */
  lemma LeftBehindIff(c: Course, created: bool, select: Selector, ends: Task -> End, deadline: int,
                      launch: Task, completion: Task, cleanup: Task, t: Record, done: set<Task>)
    requires Follows(c, created, select, ends, deadline, launch, completion, cleanup, t, done)
    requires !c.Unended?
    requires t.sent == [launch] && launch !in t.waits[0].done ==> ends(launch).Raises?
    ensures LeftBehind(c, ends(launch))
       <==> ends(launch).Value?
            && ((t.waits[0].how.Interrupted? && launch in t.waits[0].done)
                || t.waits[0].how.Failed?
                || (created && t.waits[1].how.Failed?))
  {
    hide Kept, OutcomeOf;
  }

  /** How the call goes on after its first wait, in what is gained from there on. */
  predicate GoesOnFrom(first: Awaited, at: int, c: Course, select: Selector, ends: Task -> End, deadline: int,
                       launch: Task, completion: Task, cleanup: Task, rest: Record, done: set<Task>)
  {
    match first.how
    case Hung => false
    case Failed(error) => c == ObservationLost(false, error) && rest == NOTHING
    case Interrupted(cancellation) =>
      && rest.sent == [launch] && rest.sentAt == [at]
      && c == if launch !in done then Unended
              else CancelledAtLaunch(JoinedOutcome(select, ends(launch), Some(cancellation), rest))
    case TimedOut =>
      && rest.sent == [launch] && rest.sentAt == [at] && at == deadline
      && c == if launch !in done then Unended
              else LateLaunch(JoinedOutcome(select, ends(launch), None, rest))
    case Woken =>
      if ends(launch).Value? then CleansUp(c, select, ends, deadline, completion, cleanup, rest, done)
      else c == LaunchFailed(ends(launch).error) && rest == NOTHING
  }

  const NOTHING := Record([], [], [], [], [], [])

  lemma GainNothing(a: Record)
    ensures Extends(a, a) && Gain(a, a) == NOTHING
  {
  }

  lemma GainAll(a: Record)
    ensures Extends(NOTHING, a) && Gain(NOTHING, a) == a
  {
  }

  lemma FollowsFrom(a: Record, first: Awaited, at: int, b: Record, d: Record, c: Course, created: bool,
                    select: Selector, ends: Task -> End, deadline: int, launch: Task, completion: Task, cleanup: Task,
                    done: set<Task>)
    requires b == Heard(a, 0, NoForward, false, first, at) && Extends(b, d)
    requires first.tasks == {launch} && first.until == Some(deadline) && at == first.at <= deadline
    requires created <==> first.how.Woken? && ends(launch).Value?
    requires (first.how.Woken? ==> launch in first.done) && (first.how.TimedOut? ==> launch !in first.done)
    requires GoesOnFrom(first, at, c, select, ends, deadline, launch, completion, cleanup, Gain(b, d), done)
    ensures Extends(a, d)
    ensures Follows(c, created, select, ends, deadline, launch, completion, cleanup, Gain(a, d), done)
    ensures Gain(a, d).waits != [] && Gain(a, d).waits[0] == first
  {
    hide CleansUp, OutcomeOf, Kept, Heard, Extends, Gain;
    GainFrom(a, first, at, b, d);
    var t, rest := Gain(a, d), Gain(b, d);
    if first.how.Interrupted? {
      KeptFrom(first.how.error, rest.raised);
    }
    if first.how.Woken? {
      assert t.(waits := t.waits[1..]) == rest;
    }
  }

  /** A bounded wait for one task. */
  method AwaitUntil(loop: EventLoop, task: Task, until: int) returns (w: Wake)
    modifies loop`turns, loop`now, loop`done, loop`raised, loop`failures, loop`raisedAt, loop`waits
    ensures loop.Advanced() && Continues(old(loop.Books()), loop.Books())
    ensures w == Reaction(old(Instant(loop.turns, loop.now, loop.done)), {task}, true, Some(until)).0
    ensures RecordOf(loop)
         == Heard(old(RecordOf(loop)), 0, NoForward, false,
                  Awaited({task}, true, Some(until), w, loop.now, loop.done), loop.now)
    ensures w.Woken? ==> task in loop.done
    ensures w.TimedOut? ==> task !in loop.done && loop.now == Later(old(loop.now), until)
    ensures loop.now <= Later(old(loop.now), until)
    ensures !w.Hung?
  {
    hide Reaction, Continues;
    w := loop.Wait({task}, true, Some(until));
    assert {task} <= loop.done <==> task in loop.done;
  }

  /** `created` says that the completion task exists. */
  method RunBoundedSubprocess(loop: EventLoop, select: Selector, q: Request,
                              launch: Task, completion: Task, cleanup: Task)
    returns (r: Run, ghost c: Course, ghost created: bool)
    modifies loop
    ensures loop.Advanced() && Continues(old(loop.Books()), loop.Books())
    ensures r == Exit(select, c)
    ensures c.Unstarted? <==> Refused(q)
    ensures c.Unstarted? ==> unchanged(loop) && !created
    ensures c.Unended? ==> loop.turns == []
    ensures Extends(old(RecordOf(loop)), RecordOf(loop))
    ensures !Refused(q) ==>
      var t, deadline := Gain(old(RecordOf(loop)), RecordOf(loop)), old(loop.now) + q.timeout;
      && Follows(c, created, select, loop.ends, deadline, launch, completion, cleanup, t, loop.done)
      && t.waits != []
      && t.waits[0].how == Reaction(old(Instant(loop.turns, loop.now, loop.done)), {launch}, true, Some(deadline)).0
    ensures c.Cleaned? && c.timedOut ==> loop.now >= old(loop.now) + q.timeout
  {
    hide Reaction, Continues, Follows, CleansUp, Exit, Gain, Extends, Heard, JoinedOutcome;
    ghost var a, began := RecordOf(loop), loop.Books();
    ContinuesTheSame(began);
    GainNothing(a);
    created := false;
    if Refused(q) {
      c := Unstarted;
      return Exit(select, Unstarted), c, created;
    }
    var deadline := loop.now + q.timeout;
    var w := AwaitUntil(loop, launch, deadline);
    ghost var first := Awaited({launch}, true, Some(deadline), w, loop.now, loop.done);
    ghost var at, b, met := loop.now, RecordOf(loop), loop.Books();
    GainNothing(b);
    ContinuesTheSame(met);
    match w {
      case Failed(error) =>
        c := ObservationLost(false, error);
        r := Exit(select, ObservationLost(false, error));
      case Interrupted(cancellation) =>
        r, c := JoinCancelledLaunch(loop, select, launch, Some(cancellation));
      case TimedOut =>
        r, c := JoinCancelledLaunch(loop, select, launch, None);
      case Woken =>
        match loop.ends(launch) {
          case Raises(error) =>
            c := LaunchFailed(error);
            r := Exit(select, LaunchFailed(error));
          case Value(_) =>
            created := true;
            r, c := RunToCleanup(loop, select, deadline, completion, cleanup);
        }
    }
    ContinuesOn(began, met, loop.Books());
    FollowsFrom(a, first, at, b, RecordOf(loop), c, created, select, loop.ends, deadline, launch, completion, cleanup,
                loop.done);
  }

  /** `max(deadline - now, 0)` is what remains; the deadline has not passed as the launch is over. */
  method RunToCleanup(loop: EventLoop, select: Selector, deadline: int, completion: Task, cleanup: Task)
    returns (r: Run, ghost c: Course)
    modifies loop
    ensures loop.Advanced() && Continues(old(loop.Books()), loop.Books())
    ensures r == Exit(select, c)
    ensures c.Unended? ==> loop.turns == []
    ensures c.Unended? || c.Cleaned? || c.ObservationLost?
    ensures Extends(old(RecordOf(loop)), RecordOf(loop))
    ensures CleansUp(c, select, loop.ends, Later(deadline, old(loop.now)), completion, cleanup,
                     Gain(old(RecordOf(loop)), RecordOf(loop)), loop.done)
    ensures c.Cleaned? && c.timedOut ==> loop.now >= deadline
  {
    hide Reaction, Continues, CleansUp, Exit, Gain, Extends, Heard, JoinedOutcome;
    ghost var a, began := RecordOf(loop), loop.Books();
    var until := Later(deadline, loop.now);
    var w := AwaitUntil(loop, completion, until);
    ghost var second := Awaited({completion}, true, Some(until), w, loop.now, loop.done);
    ghost var at, b, met := loop.now, RecordOf(loop), loop.Books();
    GainNothing(b);
    ContinuesTheSame(met);
    if w.Failed? {
      c := ObservationLost(true, w.error);
      r := Exit(select, ObservationLost(true, w.error));
    } else {
      r, c := JoinCleanup(loop, select, cleanup, w.TimedOut?, if w.Interrupted? then Some(w.error) else None);
    }
    ContinuesOn(began, met, loop.Books());
    CleansUpFrom(a, second, at, b, RecordOf(loop), c, select, loop.ends, until, completion, cleanup, loop.done);
  }

  lemma CleansUpFrom(a: Record, second: Awaited, at: int, b: Record, d: Record, c: Course, select: Selector,
                     ends: Task -> End, deadline: int, completion: Task, cleanup: Task, done: set<Task>)
    requires b == Heard(a, 0, NoForward, false, second, at) && Extends(b, d)
    requires second.tasks == {completion} && second.until == Some(deadline) && second.at <= deadline
    requires !second.how.Hung?
    requires second.how.Woken? ==> completion in second.done
    requires second.how.TimedOut? ==> completion !in second.done && second.at == deadline
    requires
      var rest := Gain(b, d);
      && rest.sent == [] && rest.sentAt == []
      && (second.how.Failed? ==> rest == NOTHING)
      && c == if second.how.Failed? then ObservationLost(true, second.how.error)
              else if cleanup !in done then Unended
              else Cleaned(second.how.TimedOut?,
                           JoinedOutcome(select, ends(cleanup),
                                         if second.how.Interrupted? then Some(second.how.error) else None, rest))
    ensures Extends(a, d)
    ensures CleansUp(c, select, ends, deadline, completion, cleanup, Gain(a, d), done)
  {
    hide OutcomeOf, Kept, Heard, Extends, Gain;
    GainFrom(a, second, at, b, d);
    if second.how.Interrupted? {
      KeptFrom(second.how.error, Gain(b, d).raised);
    }
  }

  // ---------------------------------------------------------------- what a result means

  /** A captured result under a cleanup task that did its work: the completion had settled with that
      result, and `ProcessTree.TerminateAndAwait` completes only over an extinct group. */
  lemma CapturedMeansSwept(select: Selector, k: Cleanup, timedOut: bool, cancellation: Option<Error>,
                           publication: seq<Error>)
    requires EndOf(k).Some?
    ensures
      var run := Exit(select, Cleaned(timedOut, OutcomeOf(select, EndOf(k).value, cancellation, publication, [])));
      && (run.Captured? <==> k.Completed? && k.end.Value? && cancellation.None? && publication == [])
      && (run.Captured? ==> run == Captured(Some(k.end.value), timedOut))
  {
    AValueComesOutIff(select, EndOf(k).value, cancellation, publication, []);
  }

  // ---------------------------------------------------------------- runs that fall through

  lemma TwoTurns(a: Turn, b: Turn)
    ensures FinishedIn([a, b]) == FinishedIn([a]) + FinishedIn([b])
    ensures CancelsIn([a, b]) == CancelsIn([a]) + CancelsIn([b])
    ensures FailuresIn([a, b]) == FailuresIn([a]) + FailuresIn([b])
  {
    FinishedInParts([a, b], 1);
    CancelsInParts([a, b], 1);
    FailuresInParts([a, b], 1);
    assert [a, b][..1] == [a] && [a, b][1..] == [b];
  }

  /** The three ways a script of two turns can have been used up. */
  lemma UsedUp(a: Turn, b: Turn, before: Ledger, after: Ledger)
    requires before.turns == [a, b] && Continues(before, after)
    requires before.done == {} && before.raised == [] == before.failures
    ensures after.turns == [a, b] || after.turns == [b] || after.turns == []
    ensures after.turns == [a, b] ==> after.done == {} && after.raised == [] == after.failures
    ensures after.turns == [b] ==>
      after.done == FinishedIn([a]) && after.raised == CancelsIn([a]) && after.failures == FailuresIn([a])
    ensures after.turns == [] ==>
      after.done == FinishedIn([a, b]) && after.raised == CancelsIn([a, b]) && after.failures == FailuresIn([a, b])
  {
    NothingUsed();
    hide FinishedIn, CancelsIn, FailuresIn;
    var used := |before.turns| - |after.turns|;
    assert [a, b][..0] == [] && [a, b][..1] == [a] && [a, b][..2] == [a, b];
    assert [a, b][0..] == [a, b] && [a, b][1..] == [b] && [a, b][2..] == [];
    assert used == 0 || used == 1 || used == 2;
  }

  lemma NothingUsed()
    ensures FinishedIn([]) == {} && CancelsIn([]) == [] && FailuresIn([]) == []
  {
  }

  lemma LaunchWasOver(launch: Task, a: Turn, b: Turn, before: Ledger, after: Ledger)
    requires before == Ledger([a, b], {}, [], []) && Continues(before, after)
    requires a.what == Finishes({launch}) && !b.what.Finishes?
    ensures after.raised != [] || after.failures != [] ==> launch in after.done
    ensures b.what.CancelsCaller? ==> after.failures == []
  {
    UsedUp(a, b, before, after);
    TwoTurns(a, b);
    OneTurn(a);
    OneTurn(b);
  }

  lemma LaunchWasLate(launch: Task, cancellation: Error, a: Turn, b: Turn, before: Ledger, after: Ledger)
    requires before == Ledger([a, b], {}, [], []) && Continues(before, after)
    requires a.what == CancelsCaller(cancellation) && b.what == Finishes({launch})
    ensures launch in after.done || after.turns != []
    ensures launch in after.done ==> after.raised == [cancellation] && after.failures == []
  {
    UsedUp(a, b, before, after);
    TwoTurns(a, b);
    OneTurn(a);
    OneTurn(b);
  }

  /** The launch has just succeeded when the caller is cancelled in the same turn of the loop: the
      cancel is sent to a task that is done, and its process is left behind. */
  method AFinishedLaunchIsLeftBehind(select: Selector, q: Request, launch: Task, completion: Task, cleanup: Task,
                                     handle: int, cancellation: Error)
    returns (r: Run, ghost c: Course, loop: EventLoop)
    requires !Refused(q) && !cancellation.Control?
    ensures fresh(loop) && loop.ends(launch) == Value(handle) && launch in loop.done
    ensures LeftBehind(c, loop.ends(launch)) && r == Run.Raised(cancellation) && loop.sent == [launch]
  {
    hide Continues, FinishedIn, CancelsIn, FailuresIn, Ingredients, CleansUp, Gain, Extends, Reaction;
    var a, b := Turn(0, Finishes({launch})), Turn(0, CancelsCaller(cancellation));
    loop := new EventLoop((t: Task) => Value(handle), [a, b], 0, {});
    ghost var before := loop.Books();
    FirstOfTwo(launch, q.timeout, CancelsCaller(cancellation));
    ghost var created;
    r, c, created := RunBoundedSubprocess(loop, select, q, launch, completion, cleanup);
    GainAll(RecordOf(loop));
    LaunchWasOver(launch, a, b, before, loop.Books());
  }

  /** The launch has just succeeded when the wait for it fails: the error comes out, nothing is sent to
      anybody, and the process is left behind. */
  method ALostObservationLeavesTheLaunch(select: Selector, q: Request, launch: Task, completion: Task, cleanup: Task,
                                         handle: int, error: Error)
    returns (r: Run, ghost c: Course, loop: EventLoop)
    requires !Refused(q)
    ensures fresh(loop) && loop.ends(launch) == Value(handle) && launch in loop.done
    ensures LeftBehind(c, loop.ends(launch)) && r == Run.Raised(error) && loop.sent == []
  {
    hide Continues, FinishedIn, CancelsIn, FailuresIn, Ingredients, CleansUp, Gain, Extends, Reaction, OutcomeOf, Kept;
    var a, b := Turn(0, Finishes({launch})), Turn(0, FailsObservation(error));
    loop := new EventLoop((t: Task) => Value(handle), [a, b], 0, {});
    ghost var before := loop.Books();
    FirstOfTwo(launch, q.timeout, FailsObservation(error));
    ghost var created;
    r, c, created := RunBoundedSubprocess(loop, select, q, launch, completion, cleanup);
    GainAll(RecordOf(loop));
    LaunchWasOver(launch, a, b, before, loop.Books());
  }

  /** A happening that is due comes before the end of a wait that is over. */
  lemma FirstOfTwo(launch: Task, timeout: int, what: Happening)
    requires !what.Finishes?
    ensures Reaction(Instant([Turn(0, Finishes({launch})), Turn(0, what)], 0, {}), {launch}, true, Some(timeout)).0
         == if what.CancelsCaller? then Interrupted(what.error) else Failed(what.error)
  {
    var a, b := Turn(0, Finishes({launch})), Turn(0, what);
    assert [a, b][1..] == [b] && [b][1..] == [];
    assert Reaction(Instant([b], 0, {} + {launch}), {launch}, true, Some(timeout)).0
        == if what.CancelsCaller? then Interrupted(what.error) else Failed(what.error);
  }

  lemma NothingInTime(launch: Task, timeout: int, a: Turn, b: Turn)
    requires 0 < timeout <= a.at
    ensures Reaction(Instant([a, b], 0, {}), {launch}, true, Some(timeout)).0 == TimedOut
  {
  }

  lemma LateEnd(c: Course, created: bool, select: Selector, ends: Task -> End, deadline: int, launch: Task,
                completion: Task, cleanup: Task, t: Record, done: set<Task>)
    requires Follows(c, created, select, ends, deadline, launch, completion, cleanup, t, done)
    requires t.waits[0].how.TimedOut?
    ensures c == if launch !in done then Unended else LateLaunch(JoinedOutcome(select, ends(launch), None, t))
  {
  }

  lemma LateExit(select: Selector, ending: Error, cancellation: Error, t: Record)
    requires t.failures == [] && t.raised == [cancellation]
    ensures
      var c := LateLaunch(JoinedOutcome(select, Raises(ending), None, t));
      && Caught(c) == Some(cancellation)
      && Exit(select, c) == if select([ending]).Cancelled? then LaunchTimedOut else Run.Raised(select([ending]))
  {
  }

  /** The launch misses its deadline, the caller is cancelled while it is being joined, and the launch
      ends in an error: a plain cancellation of its own is answered with a timeout, any other error is
      raised, and the caller's cancellation is in neither. */
  method ALateCancellationIsDropped(select: Selector, q: Request, launch: Task, completion: Task, cleanup: Task,
                                    ending: Error, cancellation: Error)
    returns (r: Run, ghost c: Course, loop: EventLoop)
    requires !Refused(q)
    ensures fresh(loop) && loop.ends(launch) == Raises(ending) && loop.raised == [cancellation]
    ensures c.LateLaunch? && Caught(c) == Some(cancellation) && Callers(cancellation) !in Ingredients(c)
    ensures r == if select([ending]).Cancelled? then LaunchTimedOut else Run.Raised(select([ending]))
  {
    hide Continues, FinishedIn, CancelsIn, FailuresIn, Ingredients, CleansUp, Gain, Extends, Reaction, OutcomeOf, Kept,
      Exit, Follows;
    var a, b := Turn(q.timeout, CancelsCaller(cancellation)), Turn(q.timeout, Finishes({launch}));
    loop := new EventLoop((t: Task) => Raises(ending), [a, b], 0, {});
    ghost var before := loop.Books();
    NothingInTime(launch, q.timeout, a, b);
    ghost var created;
    r, c, created := RunBoundedSubprocess(loop, select, q, launch, completion, cleanup);
    GainAll(RecordOf(loop));
    LaunchWasLate(launch, cancellation, a, b, before, loop.Books());
    LateEnd(c, created, select, loop.ends, q.timeout, launch, completion, cleanup, RecordOf(loop), loop.done);
    LateExit(select, ending, cancellation, RecordOf(loop));
    FirstCancellationIsDroppedIff(c, created, select, loop.ends, q.timeout, launch, completion, cleanup,
                                  RecordOf(loop), loop.done);
  }
}
