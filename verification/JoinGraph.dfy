/** Who waits for whom: the reference-counted edges that join frames leave on their targets, and the
    search for the physical callers of a task. */
module JoinGraph {
  import opened EventLoops
  import opened Options

  type Frame = nat

  /** Waiter counts by target, as the attribute of each target holds them. */
  type Edges = map<Task, map<Task, nat>>

  /** One `with owned_task_join_dependency(...)` block that has been entered and not left; one that
      found nothing to record leaves no trace. */
  datatype Live = Unrecorded | Recorded(target: Task, waiter: Task)

  datatype Graph = Graph(edges: Edges, done: set<Task>, live: map<Frame, Live>)

  const EMPTY := Graph(map[], {}, map[])

  datatype Event =
    | Enters(frame: Frame, target: Task, waiter: Option<Task>, metadata: bool)
    | Leaves(frame: Frame)
    | Completes(task: Task)

  function WaitersOf(edges: Edges, target: Task): map<Task, nat> {
    if target in edges then edges[target] else map[]
  }

  function Count(edges: Edges, target: Task, waiter: Task): nat {
    var waiters := WaitersOf(edges, target);
    if waiter in waiters then waiters[waiter] else 0
  }

  /** Whether this block records anything. */
  predicate Records(g: Graph, target: Task, waiter: Option<Task>, metadata: bool) {
    waiter.Some? && target != waiter.value && target !in g.done && metadata
  }

  function Incremented(edges: Edges, target: Task, waiter: Task): Edges {
    edges[target := WaitersOf(edges, target)[waiter := Count(edges, target, waiter) + 1]]
  }

  /** `waiters.get(waiter, 1) - 1`: the entry goes with its last frame. */
  function Decremented(edges: Edges, target: Task, waiter: Task): Edges {
    var waiters := WaitersOf(edges, target);
    if waiter !in waiters then edges
    else if waiters[waiter] != 1 && waiters[waiter] != 0 then
      edges[target := waiters[waiter := waiters[waiter] - 1]]
    else edges[target := waiters - {waiter}]
  }

  /** The loop and its tasks can only take steps that make sense: frames are left once. */
  predicate Enabled(g: Graph, e: Event) {
    match e
    case Enters(frame, _, _, _) => frame !in g.live
    case Leaves(frame) => frame in g.live
    case Completes(_) => true
  }

  function Next(g: Graph, e: Event): Graph
    requires Enabled(g, e)
  {
    match e
    case Enters(frame, target, waiter, metadata) =>
      if Records(g, target, waiter, metadata) then
        Graph(Incremented(g.edges, target, waiter.value), g.done, g.live[frame := Recorded(target, waiter.value)])
      else g.(live := g.live[frame := Unrecorded])
    case Leaves(frame) =>
      var l := g.live[frame];
      Graph(if l.Recorded? then Decremented(g.edges, l.target, l.waiter) else g.edges, g.done, g.live - {frame})
    case Completes(task) => g.(done := g.done + {task})
  }

  predicate IsRun(g: Graph, events: seq<Event>)
    decreases |events|
  {
    events == [] || (Enabled(g, events[0]) && IsRun(Next(g, events[0]), events[1..]))
  }

  function After(g: Graph, events: seq<Event>): Graph
    requires IsRun(g, events)
    decreases |events|
  {
    if events == [] then g else After(Next(g, events[0]), events[1..])
  }

  // ---------------------------------------------------------------- the counts are exact

  /** The live frames of one waiter on one target. */
  function Frames(g: Graph, target: Task, waiter: Task): set<Frame> {
    set f | f in g.live && g.live[f] == Recorded(target, waiter)
  }

  ghost predicate Counted(g: Graph) {
    forall t, w :: Count(g.edges, t, w) == |Frames(g, t, w)|
  }

  /** There are no entries with nothing behind them. */
  predicate Positive(edges: Edges) {
    forall t :: t in edges ==> forall w :: w in edges[t] ==> edges[t][w] > 0
  }

  /** Every count is the number of live frames. */
  ghost predicate Exact(g: Graph) {
    Counted(g) && Positive(g.edges)
  }

  lemma EnteringAdds(g: Graph, frame: Frame, l: Live, target: Task, waiter: Task)
    requires frame !in g.live
    ensures Frames(g.(live := g.live[frame := l]), target, waiter)
         == Frames(g, target, waiter) + if l == Recorded(target, waiter) then {frame} else {}
  {
  }

  lemma LeavingRemoves(g: Graph, frame: Frame, target: Task, waiter: Task)
    requires frame in g.live
    ensures Frames(g.(live := g.live - {frame}), target, waiter) == Frames(g, target, waiter) - {frame}
  {
  }

  lemma FramesDependOnLive(g: Graph, h: Graph, target: Task, waiter: Task)
    requires g.live == h.live
    ensures Frames(g, target, waiter) == Frames(h, target, waiter)
  {
  }

  lemma CountIncremented(edges: Edges, target: Task, waiter: Task, t: Task, w: Task)
    ensures Count(Incremented(edges, target, waiter), t, w)
         == Count(edges, t, w) + if t == target && w == waiter then 1 else 0
  {
  }

  lemma CountDecremented(edges: Edges, target: Task, waiter: Task, t: Task, w: Task)
    requires Count(edges, target, waiter) > 0
    ensures Count(Decremented(edges, target, waiter), t, w)
         == Count(edges, t, w) - if t == target && w == waiter then 1 else 0
  {
  }

  lemma StaysPositive(edges: Edges, target: Task, waiter: Task)
    requires Positive(edges)
    ensures Positive(Incremented(edges, target, waiter))
    ensures Positive(Decremented(edges, target, waiter))
  {
  }

  lemma EnterKeepsCount(g: Graph, e: Event, t: Task, w: Task)
    requires Counted(g) && e.Enters? && Enabled(g, e)
    ensures Count(Next(g, e).edges, t, w) == |Frames(Next(g, e), t, w)|
  {
    var h := Next(g, e);
    EnteringAdds(g, e.frame, h.live[e.frame], t, w);
    FramesDependOnLive(h, g.(live := g.live[e.frame := h.live[e.frame]]), t, w);
    if h.live[e.frame].Recorded? {
      CountIncremented(g.edges, e.target, e.waiter.value, t, w);
    }
  }

  lemma LeaveKeepsCount(g: Graph, e: Event, t: Task, w: Task)
    requires Counted(g) && e.Leaves? && Enabled(g, e)
    ensures Count(Next(g, e).edges, t, w) == |Frames(Next(g, e), t, w)|
  {
    var h := Next(g, e);
    var l := g.live[e.frame];
    LeavingRemoves(g, e.frame, t, w);
    FramesDependOnLive(h, g.(live := g.live - {e.frame}), t, w);
    if l.Recorded? {
      assert e.frame in Frames(g, l.target, l.waiter);
      CountDecremented(g.edges, l.target, l.waiter, t, w);
    }
    assert l != Recorded(t, w) ==> Frames(g, t, w) - {e.frame} == Frames(g, t, w);
  }

  lemma NextKeepsExact(g: Graph, e: Event)
    requires Exact(g) && Enabled(g, e)
    ensures Exact(Next(g, e))
  {
    var h := Next(g, e);
    forall t, w
      ensures Count(h.edges, t, w) == |Frames(h, t, w)|
    {
      match e {
        case Enters(_, _, _, _) => EnterKeepsCount(g, e, t, w);
        case Leaves(_) => LeaveKeepsCount(g, e, t, w);
        case Completes(_) => FramesDependOnLive(g, h, t, w);
      }
    }
    match e {
      case Enters(_, target, waiter, _) => StaysPositive(g.edges, target, if waiter.Some? then waiter.value else 0);
      case Leaves(frame) =>
        if g.live[frame].Recorded? {
          StaysPositive(g.edges, g.live[frame].target, g.live[frame].waiter);
        }
      case Completes(_) =>
    }
  }

  lemma {:induction false} RunKeepsExact(g: Graph, events: seq<Event>)
    requires Exact(g) && IsRun(g, events)
    ensures Exact(After(g, events))
    decreases |events|
  {
    if events != [] {
      NextKeepsExact(g, events[0]);
      RunKeepsExact(Next(g, events[0]), events[1..]);
    }
  }

  /** Whatever order joins nest, overlap, unwind and complete in. */
  lemma EdgesCountLiveJoins(events: seq<Event>)
    requires IsRun(EMPTY, events)
    ensures Exact(After(EMPTY, events))
  {
    RunKeepsExact(EMPTY, events);
  }

  /** Nothing is left behind once every block has been left. */
  lemma NoJoinNoEdge(events: seq<Event>, target: Task)
    requires IsRun(EMPTY, events)
    requires forall f :: f in After(EMPTY, events).live ==> After(EMPTY, events).live[f] == Unrecorded
    ensures WaitersOf(After(EMPTY, events).edges, target) == map[]
  {
    EdgesCountLiveJoins(events);
    var g := After(EMPTY, events);
    forall w
      ensures w !in WaitersOf(g.edges, target)
    {
      assert Frames(g, target, w) == {};
      assert Count(g.edges, target, w) == 0;
    }
  }

  // ---------------------------------------------------------------- which joins those are

  /** Frame `f` is inside a recorded join of `target` by `waiter`: it entered while the target was not
      done, and has not left. */
  ghost predicate Joins(events: seq<Event>, f: Frame, target: Task, waiter: Task) {
    exists i ::
      && 0 <= i < |events| && events[i] == Enters(f, target, Some(waiter), true) && target != waiter
      && (forall j :: 0 <= j < i ==> events[j] != Completes(target))
      && (forall j :: i < j < |events| ==> events[j] != Leaves(f))
  }

  function Entered(events: seq<Event>): set<Frame> {
    set i | 0 <= i < |events| && events[i].Enters? :: events[i].frame
  }

  lemma {:induction false} RunSnoc(g: Graph, events: seq<Event>, e: Event)
    requires IsRun(g, events + [e])
    ensures IsRun(g, events) && Enabled(After(g, events), e)
    ensures After(g, events + [e]) == Next(After(g, events), e)
    decreases |events|
  {
    if events == [] {
      assert [e][1..] == [];
    } else {
      assert (events + [e])[1..] == events[1..] + [e];
      RunSnoc(Next(g, events[0]), events[1..], e);
    }
  }

  lemma JoinsSnoc(events: seq<Event>, e: Event, f: Frame, target: Task, waiter: Task)
    ensures Joins(events + [e], f, target, waiter)
       <==> || (Joins(events, f, target, waiter) && e != Leaves(f))
            || (e == Enters(f, target, Some(waiter), true) && target != waiter && Completes(target) !in events)
  {
    var longer := events + [e];
    if Joins(events, f, target, waiter) && e != Leaves(f) {
      var i :| 0 <= i < |events| && events[i] == Enters(f, target, Some(waiter), true)
        && (forall j :: 0 <= j < i ==> events[j] != Completes(target))
        && (forall j :: i < j < |events| ==> events[j] != Leaves(f));
      assert longer[i] == events[i];
    }
    if e == Enters(f, target, Some(waiter), true) && target != waiter && Completes(target) !in events {
      assert longer[|events|] == e;
      assert forall j :: 0 <= j < |events| ==> longer[j] == events[j] && events[j] in events;
    }
    if Joins(longer, f, target, waiter) {
      var i :| 0 <= i < |longer| && longer[i] == Enters(f, target, Some(waiter), true)
        && (forall j :: 0 <= j < i ==> longer[j] != Completes(target))
        && (forall j :: i < j < |longer| ==> longer[j] != Leaves(f));
      assert forall j :: 0 <= j < |events| ==> longer[j] == events[j];
      if i < |events| {
        assert longer[|events|] != Leaves(f) && events[i] == longer[i];
      }
    }
  }

  /** What the graph keeps of a run is what has happened in it. */
  lemma {:induction false} LiveIsEntered(events: seq<Event>, f: Frame, target: Task, waiter: Task)
    requires IsRun(EMPTY, events)
    ensures
      var g := After(EMPTY, events);
      && (Completes(target) in events <==> target in g.done)
      && (f in g.live ==> f in Entered(events))
      && (Joins(events, f, target, waiter) <==> f in g.live && g.live[f] == Recorded(target, waiter))
    decreases |events|
  {
    if events != [] {
      var before, e := events[..|events| - 1], events[|events| - 1];
      assert events == before + [e];
      RunSnoc(EMPTY, before, e);
      LiveIsEntered(before, f, target, waiter);
      JoinsSnoc(before, e, f, target, waiter);
      EnteredSnoc(before, e);
    }
  }

  lemma EnteredSnoc(events: seq<Event>, e: Event)
    ensures Entered(events + [e]) == Entered(events) + if e.Enters? then {e.frame} else {}
  {
    var longer := events + [e];
    assert forall i :: 0 <= i < |events| ==> longer[i] == events[i];
    assert longer[|events|] == e;
  }

  /** Every edge count, from the events of the run alone. */
  lemma EdgesCountTheJoinsOfTheRun(events: seq<Event>, target: Task, waiter: Task)
    requires IsRun(EMPTY, events)
    ensures Count(After(EMPTY, events).edges, target, waiter)
         == |set f | f in Entered(events) && Joins(events, f, target, waiter)|
    ensures waiter in WaitersOf(After(EMPTY, events).edges, target)
       <==> exists f :: Joins(events, f, target, waiter)
  {
    EdgesCountLiveJoins(events);
    var g := After(EMPTY, events);
    assert Count(g.edges, target, waiter) == |Frames(g, target, waiter)|;
    forall f
      ensures f in Frames(g, target, waiter) <==> f in Entered(events) && Joins(events, f, target, waiter)
    {
      LiveIsEntered(events, f, target, waiter);
    }
    assert Frames(g, target, waiter) == set f | f in Entered(events) && Joins(events, f, target, waiter);
    if waiter in WaitersOf(g.edges, target) {
      assert Frames(g, target, waiter) != {};
      var f :| f in Frames(g, target, waiter);
      assert Joins(events, f, target, waiter);
    }
    if f :| Joins(events, f, target, waiter) {
      LiveIsEntered(events, f, target, waiter);
      assert f in Frames(g, target, waiter);
    }
  }

  // ---------------------------------------------------------------- ancestors

  /** A chain of unfinished waiters, each waiting for the one before it. */
  predicate Chain(g: Graph, path: seq<Task>) {
    && path != []
    && forall i :: 0 < i < |path| ==> path[i] in WaitersOf(g.edges, path[i - 1]) && path[i] !in g.done
  }

  ghost predicate Reaches(g: Graph, task: Task, ancestor: Task) {
    exists path :: Chain(g, path) && path[0] == task && path[|path| - 1] == ancestor
  }

  predicate Expanded(g: Graph, t: Task, seen: set<Task>) {
    forall w :: w in WaitersOf(g.edges, t) && w !in g.done ==> w in seen
  }

  lemma Extend(g: Graph, task: Task, t: Task, w: Task)
    requires Reaches(g, task, t) && w in WaitersOf(g.edges, t) && w !in g.done
    ensures Reaches(g, task, w)
  {
    var path :| Chain(g, path) && path[0] == task && path[|path| - 1] == t;
    var longer := path + [w];
    forall i | 0 < i < |longer|
      ensures longer[i] in WaitersOf(g.edges, longer[i - 1]) && longer[i] !in g.done
    {
      assert longer[i - 1] == path[i - 1];
    }
    assert Chain(g, longer) && longer[0] == task && longer[|longer| - 1] == w;
  }

  /** A set that is closed under unfinished waiters holds every chain that begins in it. */
  lemma {:induction false} ClosedHoldsChains(g: Graph, path: seq<Task>, seen: set<Task>)
    requires Chain(g, path) && path[0] in seen
    requires forall t :: t in seen ==> Expanded(g, t, seen)
    ensures path[|path| - 1] in seen
  {
    if |path| > 1 {
      assert path[1] in WaitersOf(g.edges, path[0]);
      ClosedHoldsChains(g, path[1..], seen);
    }
  }

  function Everyone(g: Graph): set<Task> {
    set t, w | t in g.edges && w in g.edges[t] :: w
  }

  /** `owned_task_join_ancestors`: a worklist over waiters, cycles and all. */
  method Ancestors(g: Graph, task: Task) returns (ancestors: set<Task>)
    ensures forall a :: a in ancestors <==> a != task && Reaches(g, task, a)
    ensures ancestors !! g.done
  {
    var seen: set<Task>, pending := {task}, [task];
    ancestors := {};
    assert Chain(g, [task]);
    while pending != []
      invariant seen == ancestors + {task} && task !in ancestors && ancestors !! g.done
      invariant forall t :: t in seen ==> Reaches(g, task, t)
      invariant forall t :: t in pending ==> t in seen
      invariant forall t :: t in seen && t !in pending ==> Expanded(g, t, seen)
      decreases Everyone(g) - seen, |pending|
    {
      var current := pending[|pending| - 1];
      assert current in pending;
      pending := pending[..|pending| - 1];
      seen, ancestors, pending := Visit(g, task, current, seen, ancestors, pending);
    }
    forall a | Reaches(g, task, a)
      ensures a in seen
    {
      var path :| Chain(g, path) && path[0] == task && path[|path| - 1] == a;
      ClosedHoldsChains(g, path, seen);
    }
  }

  /** One pass of the outer loop: the waiters of `current`, in whatever order they come. */
  method Visit(g: Graph, task: Task, current: Task, seen0: set<Task>, ancestors0: set<Task>, pending0: seq<Task>)
    returns (seen: set<Task>, ancestors: set<Task>, pending: seq<Task>)
    requires seen0 == ancestors0 + {task} && task !in ancestors0 && ancestors0 !! g.done
    requires current in seen0
    requires forall t :: t in seen0 ==> Reaches(g, task, t)
    requires forall t :: t in pending0 ==> t in seen0
    requires forall t :: t in seen0 && t !in pending0 && t != current ==> Expanded(g, t, seen0)
    ensures seen == ancestors + {task} && task !in ancestors && ancestors !! g.done
    ensures forall t :: t in seen ==> Reaches(g, task, t)
    ensures forall t :: t in pending ==> t in seen
    ensures forall t :: t in seen && t !in pending ==> Expanded(g, t, seen)
    ensures seen0 <= seen
    ensures (pending == pending0 && seen == seen0) || Everyone(g) - seen < Everyone(g) - seen0
  {
    seen, ancestors, pending := seen0, ancestors0, pending0;
    var waiters := WaitersOf(g.edges, current);
    var todo := waiters.Keys;
    while todo != {}
      invariant todo <= waiters.Keys
      invariant seen == ancestors + {task} && task !in ancestors && ancestors !! g.done
      invariant seen0 <= seen
      invariant forall t :: t in seen ==> Reaches(g, task, t)
      invariant forall t :: t in pending ==> t in seen
      invariant forall w :: w in waiters && w !in todo && w !in g.done ==> w in seen
      invariant forall t :: t in seen && t !in pending && t != current ==> t in seen0 && t !in pending0
      invariant (pending == pending0 && seen == seen0) || Everyone(g) - seen < Everyone(g) - seen0
      decreases todo
    {
      var waiter :| waiter in todo;
      todo := todo - {waiter};
      if waiter !in seen && waiter !in g.done {
        Extend(g, task, current, waiter);
        assert waiter in Everyone(g);
        seen, ancestors := seen + {waiter}, ancestors + {waiter};
        ghost var shorter := pending;
        pending := pending + [waiter];
        assert forall t :: t in pending <==> t in shorter || t == waiter;
      }
    }
    assert Expanded(g, current, seen);
  }

  // ---------------------------------------------------------------- the attributes in place

  class JoinRegistry {
    var edges: Edges
    var done: set<Task>
    var live: map<Frame, Live>

    function Snapshot(): Graph
      reads this
    {
      Graph(edges, done, live)
    }

    constructor ()
      ensures Snapshot() == EMPTY
    {
      edges, done, live := map[], {}, map[];
    }

    method Enter(frame: Frame, target: Task, waiter: Option<Task>, metadata: bool)
      requires frame !in live
      modifies this
      ensures Snapshot() == Next(old(Snapshot()), Enters(frame, target, waiter, metadata))
    {
      if waiter.None? || target == waiter.value || target in done || !metadata {
        live := live[frame := Unrecorded];
        return;
      }
      if target !in edges {
        edges := edges[target := map[]];
      }
      var waiters: map<Task, nat> := edges[target];
      var before := if waiter.value in waiters then waiters[waiter.value] else 0;
      edges := edges[target := waiters[waiter.value := before + 1]];
      live := live[frame := Recorded(target, waiter.value)];
    }

    method Leave(frame: Frame)
      requires frame in live && Exact(Snapshot())
      modifies this
      ensures Snapshot() == Next(old(Snapshot()), Leaves(frame))
    {
      var l := live[frame];
      if l.Recorded? {
        RecordedIsCounted(Snapshot(), frame);
        var waiters: map<Task, nat> := edges[l.target];
        var remaining: nat := waiters[l.waiter] - 1;
        if remaining != 0 {
          edges := edges[l.target := waiters[l.waiter := remaining]];
        } else {
          edges := edges[l.target := waiters - {l.waiter}];
        }
      }
      live := live - {frame};
    }

    method Complete(task: Task)
      modifies this`done
      ensures Snapshot() == Next(old(Snapshot()), Completes(task))
    {
      done := done + {task};
    }
  }

  /** A live frame finds its own entry, so the default of `waiters.get(waiter, 1)` is never used. */
  lemma RecordedIsCounted(g: Graph, frame: Frame)
    requires Exact(g) && frame in g.live && g.live[frame].Recorded?
    ensures Count(g.edges, g.live[frame].target, g.live[frame].waiter) > 0
  {
    assert frame in Frames(g, g.live[frame].target, g.live[frame].waiter);
  }
}
