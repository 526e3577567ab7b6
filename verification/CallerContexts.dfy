/** Revocable caller authority: one context variable per task, copied into every task that is
    spawned, holding bindings that all copies share. */
module CallerContexts {
  import opened EventLoops
  import opened Options

  type Caller = nat
  type BindingId = nat
  type Scope = nat

  datatype Binding = Binding(caller: Option<Caller>, active: bool)

  /** A scope that has been entered: the token for its `reset`. */
  datatype Token = Token(task: Task, previous: Option<BindingId>)

  datatype World = World(
    bindings: seq<Binding>,
    current: map<Task, Option<BindingId>>,
    scopes: map<Scope, Token>)

  /** One task, with no caller. */
  function Start(task: Task): World {
    World([], map[task := None], map[])
  }

  datatype Event =
    | Opens(caller: Option<Caller>)                                  // a lifetime begins
    | Closes(binding: BindingId)                                     // ... and ends
    | Enters(scope: Scope, task: Task, presented: Option<BindingId>) // any binding, however it was captured
    | Leaves(scope: Scope)
    | Spawns(parent: Task, child: Task)

  predicate Enabled(w: World, e: Event) {
    match e
    case Opens(_) => true
    case Closes(binding) => binding < |w.bindings|
    case Enters(scope, task, presented) =>
      scope !in w.scopes && task in w.current && (presented.Some? ==> presented.value < |w.bindings|)
    case Leaves(scope) => scope in w.scopes && w.scopes[scope].task in w.current
    case Spawns(parent, child) => parent in w.current && child !in w.current
  }

  function Next(w: World, e: Event): World
    requires Enabled(w, e)
  {
    match e
    case Opens(caller) => w.(bindings := w.bindings + [Binding(caller, true)])
    case Closes(binding) => w.(bindings := w.bindings[binding := w.bindings[binding].(active := false)])
    case Enters(scope, task, presented) =>
      w.(current := w.current[task := presented], scopes := w.scopes[scope := Token(task, w.current[task])])
    case Leaves(scope) =>
      w.(current := w.current[w.scopes[scope].task := w.scopes[scope].previous], scopes := w.scopes - {scope})
    case Spawns(parent, child) => w.(current := w.current[child := w.current[parent]])
  }

  predicate IsRun(w: World, events: seq<Event>)
    decreases |events|
  {
    events == [] || (Enabled(w, events[0]) && IsRun(Next(w, events[0]), events[1..]))
  }

  function After(w: World, events: seq<Event>): World
    requires IsRun(w, events)
    decreases |events|
  {
    if events == [] then w else After(Next(w, events[0]), events[1..])
  }

  /** Every binding that anybody holds exists. */
  predicate Known(w: World) {
    && (forall t :: t in w.current && w.current[t].Some? ==> w.current[t].value < |w.bindings|)
    && (forall s :: s in w.scopes && w.scopes[s].previous.Some? ==> w.scopes[s].previous.value < |w.bindings|)
  }

  lemma {:induction false} RunKeepsKnown(w: World, events: seq<Event>)
    requires Known(w) && IsRun(w, events)
    ensures Known(After(w, events))
    decreases |events|
  {
    if events != [] {
      RunKeepsKnown(Next(w, events[0]), events[1..]);
    }
  }

  /** `current_caller_context` in a task. */
  function CurrentCaller(w: World, task: Task): Option<Caller> {
    var captured := Capture(w, task);
    if captured.None? then None else w.bindings[captured.value].caller
  }

  /** `capture_caller_context_binding` in a task. */
  function Capture(w: World, task: Task): (captured: Option<BindingId>)
    ensures captured.Some? ==> captured.value < |w.bindings| && w.bindings[captured.value].active
  {
    if task in w.current && w.current[task].Some? && w.current[task].value < |w.bindings|
       && w.bindings[w.current[task].value].active
    then w.current[task]
    else None
  }

  // ---------------------------------------------------------------- lifetimes

  lemma NextKeepsCaller(w: World, e: Event)
    requires Enabled(w, e)
    ensures |w.bindings| <= |Next(w, e).bindings| <= |w.bindings| + 1
    ensures forall b :: 0 <= b < |w.bindings| ==>
      Next(w, e).bindings[b] == w.bindings[b].(active := w.bindings[b].active && e != Closes(b))
    ensures |Next(w, e).bindings| == |w.bindings| + 1 ==> Next(w, e).bindings[|w.bindings|].active
  {
  }

  /** A binding keeps its caller, and is active exactly while nothing has closed its lifetime. */
  lemma {:induction false} ActiveIffNotClosed(w: World, events: seq<Event>, b: BindingId)
    requires IsRun(w, events)
    requires b < |After(w, events).bindings|
    ensures |w.bindings| <= |After(w, events).bindings|
    ensures After(w, events).bindings[b].active <==>
      (b < |w.bindings| ==> w.bindings[b].active) && Closes(b) !in events
    ensures b < |w.bindings| ==> After(w, events).bindings[b].caller == w.bindings[b].caller
    decreases |events|
  {
    if events != [] {
      var e := events[0];
      NextKeepsCaller(w, e);
      ActiveIffNotClosed(Next(w, e), events[1..], b);
      assert events == [e] + events[1..];
    }
  }

  /** A caller is seen only through a binding whose lifetime is open. */
  lemma OnlyOpenLifetimesSpeak(task: Task, events: seq<Event>, t: Task)
    requires IsRun(Start(task), events)
    ensures
      var w := After(Start(task), events);
      CurrentCaller(w, t).Some? ==>
        t in w.current && w.current[t].Some? && Closes(w.current[t].value) !in events
        && Capture(w, t) == w.current[t]
        && w.bindings[w.current[t].value].caller == CurrentCaller(w, t)
  {
    var w := After(Start(task), events);
    if CurrentCaller(w, t).Some? {
      ActiveIffNotClosed(Start(task), events, Capture(w, t).value);
    }
  }

  lemma {:induction false} RunConcat(w: World, a: seq<Event>, b: seq<Event>)
    requires IsRun(w, a + b)
    ensures IsRun(w, a) && IsRun(After(w, a), b) && After(w, a + b) == After(After(w, a), b)
    decreases |a|
  {
    if a == [] {
      assert a + b == b;
    } else {
      assert (a + b)[1..] == a[1..] + b;
      RunConcat(Next(w, a[0]), a[1..], b);
    }
  }

  /** Closing a lifetime revokes every view of it at once and for good: copies in any task, captured
      and presented again at any later time. */
  lemma ClosingRevokesEverywhere(w: World, binding: BindingId, later: seq<Event>, t: Task)
    requires binding < |w.bindings|
    requires IsRun(w, [Closes(binding)] + later)
    requires t in After(w, [Closes(binding)] + later).current
    requires After(w, [Closes(binding)] + later).current[t] == Some(binding)
    ensures CurrentCaller(After(w, [Closes(binding)] + later), t) == None
    ensures Capture(After(w, [Closes(binding)] + later), t) == None
  {
    var events := [Closes(binding)] + later;
    if binding < |After(w, events).bindings| {
      ActiveIffNotClosed(w, events, binding);
      assert events[0] == Closes(binding);
    }
  }

  // ---------------------------------------------------------------- scopes

  lemma {:induction false} TokenIsKept(w: World, events: seq<Event>, scope: Scope)
    requires IsRun(w, events) && scope in w.scopes && Leaves(scope) !in events
    ensures scope in After(w, events).scopes && After(w, events).scopes[scope] == w.scopes[scope]
    decreases |events|
  {
    if events != [] {
      assert events[0] in events;
      TokenIsKept(Next(w, events[0]), events[1..], scope);
    }
  }

  /** What a task saw before a scope it sees again after it, whatever happened in between: the same
      binding, and the same caller unless that has been revoked. */
  lemma ScopesRestore(w: World, scope: Scope, task: Task, presented: Option<BindingId>, inside: seq<Event>)
    requires task in w.current && Leaves(scope) !in inside
    requires Known(w)
    requires IsRun(w, [Enters(scope, task, presented)] + inside + [Leaves(scope)])
    ensures
      var after := After(w, [Enters(scope, task, presented)] + inside + [Leaves(scope)]);
      && task in after.current && after.current[task] == w.current[task]
      && (CurrentCaller(after, task) == CurrentCaller(w, task) || CurrentCaller(after, task) == None)
  {
    var enter := [Enters(scope, task, presented)];
    var events := enter + inside + [Leaves(scope)];
    RunConcat(w, enter + inside, [Leaves(scope)]);
    RunConcat(w, enter, inside);
    assert After(w, enter) == Next(w, enter[0]) by {
      assert enter[1..] == [];
    }
    var entered := After(w, enter);
    TokenIsKept(entered, inside, scope);
    var last := After(entered, inside);
    assert After(last, [Leaves(scope)]) == Next(last, Leaves(scope)) by {
      assert [Leaves(scope)][1..] == [];
    }
    if w.current[task].Some? {
      ActiveStays(w, events, w.current[task].value);
    }
  }

  /** Bindings are never forgotten, never change their caller, and never come back to life. */
  lemma {:induction false} ActiveStays(w: World, events: seq<Event>, b: BindingId)
    requires IsRun(w, events) && b < |w.bindings|
    ensures b < |After(w, events).bindings|
    ensures After(w, events).bindings[b].caller == w.bindings[b].caller
    ensures After(w, events).bindings[b].active ==> w.bindings[b].active
    decreases |events|
  {
    if events != [] {
      NextKeepsCaller(w, events[0]);
      ActiveStays(Next(w, events[0]), events[1..], b);
    }
  }

  /** Whom the lifetimes of a run were opened for, in order. */
  function Opened(events: seq<Event>): seq<Option<Caller>> {
    if events == [] then []
    else (if events[0].Opens? then [events[0].caller] else []) + Opened(events[1..])
  }

  lemma {:induction false} BindingsAreOpened(w: World, events: seq<Event>, b: BindingId)
    requires IsRun(w, events)
    ensures |After(w, events).bindings| == |w.bindings| + |Opened(events)|
    ensures |w.bindings| <= b < |After(w, events).bindings| ==>
      After(w, events).bindings[b].caller == Opened(events)[b - |w.bindings|]
    decreases |events|
  {
    if events != [] {
      var next := Next(w, events[0]);
      BindingsAreOpened(next, events[1..], b);
      if events[0].Opens? && b == |w.bindings| && b < |After(w, events).bindings| {
        ActiveIffNotClosed(next, events[1..], b);
      }
    }
  }

  /** Presenting a binding in any task, at any time, gives exactly the caller that its lifetime was opened
      for, until that is closed; presenting none takes away whomever the task had. */
  lemma PresentedSpeaks(first: Task, events: seq<Event>, scope: Scope, task: Task, presented: Option<BindingId>)
    requires IsRun(Start(first), events + [Enters(scope, task, presented)])
    ensures presented.Some? ==> presented.value < |Opened(events)|
    ensures CurrentCaller(After(Start(first), events + [Enters(scope, task, presented)]), task)
         == if presented.None? || Closes(presented.value) in events then None else Opened(events)[presented.value]
  {
    var w, e := BeforeLast(first, events, Enters(scope, task, presented)), Enters(scope, task, presented);
    if presented.Some? {
      var b := presented.value;
      BindingsAreOpened(Start(first), events, b);
      ActiveIffNotClosed(Start(first), events, b);
    }
  }

  /** The world before the last event of a run. */
  ghost function BeforeLast(first: Task, events: seq<Event>, e: Event): (w: World)
    requires IsRun(Start(first), events + [e])
    ensures IsRun(Start(first), events) && w == After(Start(first), events) && Enabled(w, e)
    ensures After(Start(first), events + [e]) == Next(w, e)
  {
    RunConcat(Start(first), events, [e]);
    assert [e][1..] == [];
    After(Start(first), events)
  }

  /** A task that is spawned sees what its parent sees; and each has its own view from then on. */
  lemma ChildrenInherit(w: World, parent: Task, child: Task, e: Event)
    requires Known(w) && Enabled(w, Spawns(parent, child))
    ensures
      var v := Next(w, Spawns(parent, child));
      && CurrentCaller(v, child) == CurrentCaller(w, parent) && Capture(v, child) == Capture(w, parent)
      && (forall t :: t != child ==> CurrentCaller(v, t) == CurrentCaller(w, t))
      && (Enabled(v, e) && e.Enters? && e.task == parent && parent != child ==>
            CurrentCaller(Next(v, e), child) == CurrentCaller(v, child))
  {
  }

  predicate By(w: World, e: Event, t: Task)
    requires Enabled(w, e)
  {
    match e
    case Enters(_, task, _) => task == t
    case Leaves(scope) => w.scopes[scope].task == t
    case Spawns(_, child) => child == t
    case _ => false
  }

  /** Nobody can hand a task a caller from outside; others can only take one away. */
  lemma OthersOnlyRevoke(w: World, e: Event, t: Task)
    requires Enabled(w, e) && !By(w, e, t)
    requires t in w.current && Known(w)
    ensures CurrentCaller(Next(w, e), t) == CurrentCaller(w, t) || CurrentCaller(Next(w, e), t) == None
    ensures CurrentCaller(Next(w, e), t) != CurrentCaller(w, t) ==> e == Closes(w.current[t].value)
  {
    NextKeepsCaller(w, e);
  }

  /** `caller_context_scope`: inside, the task has exactly the caller it was given, also when that is
      none and the task has inherited somebody; afterwards nothing of it is left anywhere. */
  lemma ScopeOfOneCaller(w: World, caller: Option<Caller>, scope: Scope, task: Task)
    requires task in w.current && scope !in w.scopes && Known(w)
    ensures
      var id := |w.bindings|;
      var inside := Next(Next(w, Opens(caller)), Enters(scope, task, Some(id)));
      var outside := Next(Next(inside, Leaves(scope)), Closes(id));
      && CurrentCaller(inside, task) == caller
      && outside.current == w.current
      && (forall t :: CurrentCaller(outside, t) == CurrentCaller(w, t))
  {
    var id := |w.bindings|;
    var inside := Next(Next(w, Opens(caller)), Enters(scope, task, Some(id)));
    var outside := Next(Next(inside, Leaves(scope)), Closes(id));
    assert outside.current == w.current;
    assert forall b :: 0 <= b < |w.bindings| ==> outside.bindings[b] == w.bindings[b];
  }

  // ---------------------------------------------------------------- the shared objects

  class CallerAuthority {
    var bindings: seq<Binding>
    var current: map<Task, Option<BindingId>>
    var scopes: map<Scope, Token>

    function Snapshot(): World
      reads this
    {
      World(bindings, current, scopes)
    }

    constructor (task: Task)
      ensures Snapshot() == Start(task)
    {
      bindings, current, scopes := [], map[task := None], map[];
    }

    method OpenLifetime(caller: Option<Caller>) returns (binding: BindingId)
      modifies this
      ensures Snapshot() == Next(old(Snapshot()), Opens(caller))
      ensures binding == old(|bindings|)
    {
      binding := |bindings|;
      bindings := bindings + [Binding(caller, true)];
    }

    method CloseLifetime(binding: BindingId)
      requires binding < |bindings|
      modifies this
      ensures Snapshot() == Next(old(Snapshot()), Closes(binding))
    {
      bindings := bindings[binding := bindings[binding].(active := false)];
    }

    method EnterScope(scope: Scope, task: Task, presented: Option<BindingId>) returns (caller: Option<Caller>)
      requires Known(Snapshot()) && Enabled(Snapshot(), Enters(scope, task, presented))
      modifies this
      ensures Snapshot() == Next(old(Snapshot()), Enters(scope, task, presented))
      ensures caller == CurrentCaller(Snapshot(), task)
    {
      scopes := scopes[scope := Token(task, current[task])];
      current := current[task := presented];
      caller := Current(task);
    }

    method LeaveScope(scope: Scope)
      requires Enabled(Snapshot(), Leaves(scope))
      modifies this
      ensures Snapshot() == Next(old(Snapshot()), Leaves(scope))
    {
      current := current[scopes[scope].task := scopes[scope].previous];
      scopes := scopes - {scope};
    }

    method Spawn(parent: Task, child: Task)
      requires Enabled(Snapshot(), Spawns(parent, child))
      modifies this
      ensures Snapshot() == Next(old(Snapshot()), Spawns(parent, child))
    {
      current := current[child := current[parent]];
    }

    method Current(task: Task) returns (caller: Option<Caller>)
      requires task in current && Known(Snapshot())
      ensures caller == CurrentCaller(Snapshot(), task)
    {
      var binding := current[task];
      if binding.None? || !bindings[binding.value].active {
        return None;
      }
      return bindings[binding.value].caller;
    }
  }
}
