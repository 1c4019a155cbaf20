/**
 * The runtime's handle protocol as atomic steps between suspension points: coroutines open, use and
 * close handles while others initialize and destroy the one backend instance, in any interleaving.
 */
module RuntimeHandles {
  import opened Basics

  type HandleId = nat
  type CallId = nat
  type BackendId = nat

  datatype RuntimeState = New | Initializing | Ready | Draining | Finalizing | Finalized | Broken

  datatype HandleState = Open | Closing | Closed

  datatype Handle = Handle(state: HandleState, inFlight: nat, idle: bool)

  /** The coroutine that holds the lifecycle lock, if any, and where it stands. */
  datatype Lifecycle =
    | Free
    | Starting
    | Marking(keep: bool)
    | Snapshotting(keep: bool)
    | Waiting(handles: set<HandleId>, seen: set<HandleId>, keep: bool)
    | Closing(keep: bool)

  /** An admitted call on a handle, and the backend it was given, once it has read it. */
  datatype Call = Call(handle: HandleId, given: Option<BackendId>)

  /** A coroutine inside `close_handle`; `seen` once it observed the handle idle. */
  datatype Closer = Closer(handle: HandleId, seen: bool)

  /**
   * handles: every handle object ever made; registered: the ids in the runtime's table; dead: the backends
   * whose finalization has begun; made: how many backends there were.
   */
  datatype World = World(
    state: RuntimeState,
    backend: Option<BackendId>,
    handles: map<HandleId, Handle>,
    registered: set<HandleId>,
    lifecycle: Lifecycle,
    calls: map<CallId, Call>,
    closers: map<nat, Closer>,
    made: nat,
    dead: set<BackendId>)

  datatype Action =
    | InitBegin
    | InitOk
    | InitFail
    | DestroyBegin(keep: bool)
    | DestroyMark
    | DestroySnapshot
    | DestroySaw(h: HandleId)
    | DestroyTimeout
    | DestroyClear
    | DestroyEnd
    | OpenHandle(h: HandleId)
    | CloseBegin(c: nat, h: HandleId)
    | CloseSaw(c: nat)
    | CloseEnd(c: nat)
    | UseAdmit(call: CallId, h: HandleId)
    | UseRead(call: CallId)
    | UseEnd(call: CallId)

  function Initial(): World {
    World(New, None, map[], {}, Free, map[], map[], 0, {})
  }

  /** The state a destroy leaves: `keep` is `final=False`, the runtime can be initialized again. */
  function Rest(keep: bool): RuntimeState {
    if keep then New else Finalized
  }

  function Marked(handles: map<HandleId, Handle>, which: set<HandleId>, state: HandleState): map<HandleId, Handle> {
    map h | h in handles :: if h in which then handles[h].(state := state) else handles[h]
  }

  function Init(w: World, a: Action): World {
    match a
    case InitBegin =>
      if w.lifecycle.Free? && w.state.New? then w.(state := Initializing, lifecycle := Starting) else w
    case InitOk =>
      if w.lifecycle.Starting?
      then w.(state := Ready, backend := Some(w.made), made := w.made + 1, lifecycle := Free)
      else w
    case _ =>
      if w.lifecycle.Starting? then w.(state := Broken, backend := None, lifecycle := Free) else w
  }

  function Destroy(w: World, a: Action): World {
    match a
    case DestroyBegin(keep) =>
      if !w.lifecycle.Free? then w
      else if w.state.New? then w.(state := Rest(keep))
      else if w.state.Ready? || w.state.Broken? then w.(state := Draining, lifecycle := Marking(keep))
      else if w.state.Draining? then w.(lifecycle := Snapshotting(keep))
      else w
    case DestroyMark =>
      if w.lifecycle.Marking?
      then w.(handles := Marked(w.handles, w.registered, HandleState.Closing),
              lifecycle := Waiting(w.registered, {}, w.lifecycle.keep))
      else w
    case DestroySnapshot =>
      if w.lifecycle.Snapshotting? then w.(lifecycle := Waiting(w.registered, {}, w.lifecycle.keep)) else w
    case DestroySaw(h) =>
      if w.lifecycle.Waiting? && h in w.lifecycle.handles && h in w.handles && w.handles[h].idle
      then w.(lifecycle := w.lifecycle.(seen := w.lifecycle.seen + {h}))
      else w
    case DestroyTimeout =>
      if w.lifecycle.Waiting? then w.(lifecycle := Free) else w
    case DestroyClear =>
      if w.lifecycle.Waiting? && w.lifecycle.seen == w.lifecycle.handles
      then w.(handles := Marked(w.handles, w.lifecycle.handles, Closed), registered := {}, state := Finalizing,
              dead := if w.backend.Some? then w.dead + {w.backend.value} else w.dead,
              lifecycle := Lifecycle.Closing(w.lifecycle.keep))
      else w
    case _ =>
      if w.lifecycle.Closing? then w.(backend := None, state := Rest(w.lifecycle.keep), lifecycle := Free) else w
  }

  function Close(w: World, a: Action): World {
    match a
    case CloseBegin(c, h) =>
      if c !in w.closers && h in w.registered && h in w.handles && !w.handles[h].state.Closed?
      then w.(handles := w.handles[h := w.handles[h].(state := HandleState.Closing)], closers := w.closers[c := Closer(h, false)])
      else w
    case CloseSaw(c) =>
      if c in w.closers && w.closers[c].handle in w.handles && w.handles[w.closers[c].handle].idle
      then w.(closers := w.closers[c := w.closers[c].(seen := true)])
      else w
    case CloseEnd(c) =>
      if c in w.closers && w.closers[c].seen && w.closers[c].handle in w.handles
      then
        var h := w.closers[c].handle;
        w.(handles := w.handles[h := w.handles[h].(state := Closed)], registered := w.registered - {h}, closers := w.closers - {c})
      else w
    case _ => w
  }

  function Use(w: World, a: Action): World {
    match a
    case UseAdmit(call, h) =>
      if call !in w.calls && h in w.registered && h in w.handles && w.handles[h].state.Open?
      then w.(handles := w.handles[h := Handle(Open, w.handles[h].inFlight + 1, false)], calls := w.calls[call := Call(h, None)])
      else w
    case UseRead(call) =>
      if call in w.calls then w.(calls := w.calls[call := w.calls[call].(given := w.backend)]) else w
    case UseEnd(call) =>
      if call in w.calls && w.calls[call].handle in w.handles && w.handles[w.calls[call].handle].inFlight > 0
      then
        var h := w.calls[call].handle;
        var left := w.handles[h].inFlight - 1;
        w.(handles := w.handles[h := Handle(w.handles[h].state, left, left == 0 || w.handles[h].idle)], calls := w.calls - {call})
      else w
    case _ => w
  }

  function Next(w: World, a: Action): World {
    match a
    case InitBegin => Init(w, a)
    case InitOk => Init(w, a)
    case InitFail => Init(w, a)
    case OpenHandle(h) =>
      if w.state.Ready? && h !in w.handles
      then w.(handles := w.handles[h := Handle(Open, 0, true)], registered := w.registered + {h})
      else w
    case CloseBegin(_, _) => Close(w, a)
    case CloseSaw(_) => Close(w, a)
    case CloseEnd(_) => Close(w, a)
    case UseAdmit(_, _) => Use(w, a)
    case UseRead(_) => Use(w, a)
    case UseEnd(_) => Use(w, a)
    case _ => Destroy(w, a)
  }

  function Exec(w: World, actions: seq<Action>): World
    decreases |actions|
  {
    if actions == [] then w else Exec(Next(w, actions[0]), actions[1..])
  }

  // ---------------------------------------------------------------- the invariant

  function CallsOn(w: World, h: HandleId): set<CallId> {
    set c | c in w.calls && w.calls[c].handle == h
  }

  /** Each handle counts its admitted calls, and its event is set exactly when there is none. */
  ghost predicate HandleSound(w: World, h: HandleId)
    requires h in w.handles
  {
    var x := w.handles[h];
    && x.inFlight == |CallsOn(w, h)|
    && (x.idle <==> x.inFlight == 0)
    && (h in w.registered <==> !x.state.Closed?)
    && (x.state.Closed? ==> x.inFlight == 0)
  }

  /** From the marking on, a destroyed runtime has no open handle, and what destroy saw idle stays idle. */
  ghost predicate LifecycleSound(w: World) {
    match w.lifecycle
    case Free => !w.state.Initializing? && !w.state.Finalizing?
    case Starting => w.state.Initializing?
    case Marking(_) => w.state.Draining?
    case Snapshotting(_) => w.state.Draining?
    case Waiting(handles, seen, _) =>
      && w.state.Draining? && w.registered <= handles && seen <= handles <= w.handles.Keys
      && forall h | h in seen :: w.handles[h].inFlight == 0
    case Closing(_) => w.state.Finalizing?
  }

  ghost predicate BackendSound(w: World) {
    && (w.backend.Some? ==> w.backend.value < w.made)
    && (forall b | b in w.dead :: b < w.made)
    && (w.backend.Some? && !w.state.Finalizing? ==> w.backend.value !in w.dead)
    && (w.state.Ready? ==> w.backend.Some?)
    && (w.state.New? || w.state.Initializing? || w.state.Finalized? || w.state.Broken? ==> w.backend.None?)
    && (w.registered != {} ==> w.backend.Some? && (w.state.Ready? || w.state.Draining?))
  }

  ghost predicate CallSound(w: World, c: CallId)
    requires c in w.calls
  {
    && w.calls[c].handle in w.registered
    && (w.calls[c].given.Some? ==> w.calls[c].given == w.backend)
  }

  ghost predicate Sound(w: World) {
    && w.registered <= w.handles.Keys
    && (forall h | h in w.handles :: HandleSound(w, h))
    && LifecycleSound(w) && BackendSound(w)
    && (forall c | c in w.calls :: CallSound(w, c))
    && (forall c | c in w.closers :: w.closers[c].handle in w.handles && !w.handles[w.closers[c].handle].state.Open?
          && (w.closers[c].seen ==> w.handles[w.closers[c].handle].inFlight == 0))
    && (w.state.Draining? && !w.lifecycle.Marking? ==> forall h | h in w.registered :: !w.handles[h].state.Open?)
  }

  lemma SameCalls(v: World, w: World, h: HandleId)
    requires v.calls == w.calls
    ensures CallsOn(v, h) == CallsOn(w, h)
  {
  }

  lemma InitKeepsSound(w: World, a: Action)
    requires Sound(w) && (a.InitBegin? || a.InitOk? || a.InitFail?)
    ensures Sound(Next(w, a))
  {
    var v := Next(w, a);
    forall h | h in v.handles
      ensures HandleSound(v, h)
    {
      assert HandleSound(w, h);
      SameCalls(v, w, h);
    }
    forall c | c in v.calls
      ensures CallSound(v, c)
    {
      assert CallSound(w, c);
    }
  }

  lemma DestroyKeepsHandles(w: World, a: Action)
    requires Sound(w)
    requires a.DestroyBegin? || a.DestroyMark? || a.DestroySnapshot? || a.DestroySaw? || a.DestroyTimeout? || a.DestroyEnd?
    ensures var v := Next(w, a); v.registered <= v.handles.Keys && forall h | h in v.handles :: HandleSound(v, h)
  {
    var v := Next(w, a);
    forall h | h in v.handles
      ensures HandleSound(v, h)
    {
      assert HandleSound(w, h);
      SameCalls(v, w, h);
    }
  }

  lemma DestroyKeepsCalls(w: World, a: Action)
    requires Sound(w)
    requires a.DestroyBegin? || a.DestroyMark? || a.DestroySnapshot? || a.DestroySaw? || a.DestroyTimeout? || a.DestroyEnd?
    ensures var v := Next(w, a); forall c | c in v.calls :: CallSound(v, c)
  {
    var v := Next(w, a);
    forall c | c in v.calls
      ensures CallSound(v, c)
    {
      assert CallSound(w, c);
    }
  }

  lemma MarkKeepsSound(w: World)
    requires Sound(w)
    ensures Sound(Next(w, DestroyMark))
  {
    DestroyKeepsHandles(w, DestroyMark);
    DestroyKeepsCalls(w, DestroyMark);
  }

  lemma DestroyKeepsSound(w: World, a: Action)
    requires Sound(w)
    requires a.DestroyBegin? || a.DestroySnapshot? || a.DestroySaw? || a.DestroyTimeout? || a.DestroyEnd?
    ensures Sound(Next(w, a))
  {
    DestroyKeepsHandles(w, a);
    DestroyKeepsCalls(w, a);
    assert Next(w, a).handles == w.handles && Next(w, a).registered == w.registered;
    if a.DestroySaw? && w.lifecycle.Waiting? && a.h in w.handles {
      assert HandleSound(w, a.h);
    }
  }

  /** A handle with an admitted call is registered, counted and not idle. */
  lemma Busy(w: World, c: CallId)
    requires Sound(w) && c in w.calls
    ensures w.calls[c].handle in w.registered && w.calls[c].handle in w.handles
    ensures w.handles[w.calls[c].handle].inFlight > 0 && !w.handles[w.calls[c].handle].idle
  {
    assert CallSound(w, c) && HandleSound(w, w.calls[c].handle);
    assert c in CallsOn(w, w.calls[c].handle);
  }

  /** When destroy clears the table it has seen every registered handle idle, so no call is left. */
  lemma ClearedMeansQuiet(w: World)
    requires Sound(w) && w.lifecycle.Waiting? && w.lifecycle.seen == w.lifecycle.handles
    ensures w.calls == map[]
  {
    if w.calls != map[] {
      var c :| c in w.calls;
      Busy(w, c);
      assert false;
    }
  }

  lemma ClearKeepsSound(w: World)
    requires Sound(w)
    ensures Sound(Next(w, DestroyClear))
  {
    var v := Next(w, DestroyClear);
    if v != w {
      ClearedMeansQuiet(w);
      forall h | h in v.handles
        ensures HandleSound(v, h)
      {
        assert HandleSound(w, h);
        SameCalls(v, w, h);
        assert CallsOn(w, h) == {};
      }
    }
  }

  lemma NoCallsOn(w: World, h: HandleId)
    requires Sound(w) && h !in w.handles
    ensures CallsOn(w, h) == {}
  {
    forall c | c in w.calls
      ensures w.calls[c].handle != h
    {
      assert CallSound(w, c);
    }
  }

  lemma OpenKeepsSound(w: World, h: HandleId)
    requires Sound(w)
    ensures Sound(Next(w, OpenHandle(h)))
  {
    var v := Next(w, OpenHandle(h));
    if v != w {
      NoCallsOn(w, h);
      forall x | x in v.handles
        ensures HandleSound(v, x)
      {
        SameCalls(v, w, x);
        assert x != h ==> HandleSound(w, x);
      }
      forall c | c in v.calls
        ensures CallSound(v, c)
      {
        assert CallSound(w, c);
      }
    }
  }

  lemma CloseKeepsHandles(w: World, a: Action, h: HandleId)
    requires Sound(w) && (a.CloseBegin? || a.CloseSaw? || a.CloseEnd?) && h in w.handles
    ensures h in Next(w, a).handles && HandleSound(Next(w, a), h)
    ensures Next(w, a).handles[h].inFlight == w.handles[h].inFlight
    ensures w.handles[h].state.Open? || !Next(w, a).handles[h].state.Open?
  {
    assert HandleSound(w, h);
    SameCalls(Next(w, a), w, h);
  }

  lemma CloseKeepsRest(w: World, a: Action)
    requires Sound(w) && (a.CloseBegin? || a.CloseSaw? || a.CloseEnd?)
    ensures var v := Next(w, a);
            && v.handles.Keys == w.handles.Keys && v.registered <= w.registered && v.calls == w.calls
            && v.lifecycle == w.lifecycle && v.state == w.state && v.backend == w.backend && v.dead == w.dead && v.made == w.made
            && forall c | c in v.calls :: CallSound(v, c)
  {
    var v := Next(w, a);
    forall c | c in v.calls
      ensures CallSound(v, c)
    {
      assert CallSound(w, c);
      Busy(w, c);
    }
  }

  lemma ClosersAfterClose(w: World, a: Action, c: nat)
    requires Sound(w) && (a.CloseBegin? || a.CloseSaw? || a.CloseEnd?) && c in Next(w, a).closers
    ensures var v := Next(w, a);
            && v.closers[c].handle in w.handles && v.closers[c].handle in v.handles && !v.handles[v.closers[c].handle].state.Open?
            && (v.closers[c].seen ==> v.handles[v.closers[c].handle].inFlight == 0)
  {
    var v := Next(w, a);
    assert v.closers[c].handle in w.handles;
    assert HandleSound(w, v.closers[c].handle);
  }

  lemma CloseKeepsSound(w: World, a: Action)
    requires Sound(w) && (a.CloseBegin? || a.CloseSaw? || a.CloseEnd?)
    ensures Sound(Next(w, a))
  {
    var v := Next(w, a);
    CloseKeepsRest(w, a);
    forall h | h in v.handles
      ensures HandleSound(v, h)
      ensures v.handles[h].inFlight == w.handles[h].inFlight
      ensures w.handles[h].state.Open? || !v.handles[h].state.Open?
    {
      CloseKeepsHandles(w, a, h);
    }
    forall c | c in v.closers
      ensures v.closers[c].handle in v.handles && !v.handles[v.closers[c].handle].state.Open?
      ensures v.closers[c].seen ==> v.handles[v.closers[c].handle].inFlight == 0
    {
      ClosersAfterClose(w, a, c);
    }
  }

  /** What the three steps of a call leave alone: only its own handle's counter and event move. */
  lemma UseKeepsRest(w: World, a: Action)
    requires a.UseAdmit? || a.UseRead? || a.UseEnd?
    ensures var v := Next(w, a);
            && v.handles.Keys == w.handles.Keys && v.registered == w.registered && v.closers == w.closers
            && v.lifecycle == w.lifecycle && v.state == w.state && v.backend == w.backend && v.dead == w.dead && v.made == w.made
            && (forall h | h in w.handles :: v.handles[h].state == w.handles[h].state)
            && (forall h | h in w.handles && !w.handles[h].state.Open? :: v.handles[h].inFlight <= w.handles[h].inFlight)
  {
  }

  lemma AdmitHandle(w: World, call: CallId, h: HandleId, x: HandleId)
    requires Sound(w) && x in w.handles
    ensures HandleSound(Next(w, UseAdmit(call, h)), x)
  {
    var v := Next(w, UseAdmit(call, h));
    assert HandleSound(w, x);
    if v != w && x == h {
      assert CallsOn(v, x) == CallsOn(w, x) + {call};
    } else {
      assert CallsOn(v, x) == CallsOn(w, x);
    }
  }

  lemma ReadHandle(w: World, call: CallId, x: HandleId)
    requires Sound(w) && x in w.handles
    ensures HandleSound(Next(w, UseRead(call)), x)
  {
    assert HandleSound(w, x);
    assert CallsOn(Next(w, UseRead(call)), x) == CallsOn(w, x);
  }

  lemma EndHandle(w: World, call: CallId, x: HandleId)
    requires Sound(w) && x in w.handles
    ensures HandleSound(Next(w, UseEnd(call)), x)
  {
    var v := Next(w, UseEnd(call));
    assert HandleSound(w, x);
    if v != w {
      assert CallsOn(v, x) == CallsOn(w, x) - if x == w.calls[call].handle then {call} else {};
    }
  }

  lemma UseKeepsCall(w: World, a: Action, c: CallId)
    requires Sound(w) && (a.UseAdmit? || a.UseRead? || a.UseEnd?) && c in Next(w, a).calls
    ensures CallSound(Next(w, a), c)
  {
    if c in w.calls {
      assert CallSound(w, c);
    }
  }

  lemma UseKeepsSound(w: World, a: Action)
    requires Sound(w) && (a.UseAdmit? || a.UseRead? || a.UseEnd?)
    ensures Sound(Next(w, a))
  {
    var v := Next(w, a);
    UseKeepsRest(w, a);
    forall x | x in v.handles
      ensures HandleSound(v, x)
    {
      match a {
        case UseAdmit(call, h) => AdmitHandle(w, call, h, x);
        case UseRead(call) => ReadHandle(w, call, x);
        case UseEnd(call) => EndHandle(w, call, x);
      }
    }
    forall c | c in v.calls
      ensures CallSound(v, c)
    {
      UseKeepsCall(w, a, c);
    }
    SeenStaysIdle(w, v);
  }

  lemma SeenStaysIdle(w: World, v: World)
    requires Sound(w) && v.lifecycle == w.lifecycle && v.state == w.state && v.registered == w.registered
    requires v.handles.Keys == w.handles.Keys
    requires forall h | h in w.handles && !w.handles[h].state.Open? :: v.handles[h].inFlight <= w.handles[h].inFlight
    ensures LifecycleSound(v)
  {
    if w.lifecycle.Waiting? {
      forall h | h in w.lifecycle.seen
        ensures v.handles[h].inFlight == 0
      {
        assert HandleSound(w, h);
      }
    }
  }

  lemma NextKeepsSound(w: World, a: Action)
    requires Sound(w)
    ensures Sound(Next(w, a))
  {
    match a {
      case DestroyClear => ClearKeepsSound(w);
      case DestroyMark => MarkKeepsSound(w);
      case OpenHandle(h) => OpenKeepsSound(w, h);
      case UseAdmit(_, _) => UseKeepsSound(w, a);
      case UseRead(_) => UseKeepsSound(w, a);
      case UseEnd(_) => UseKeepsSound(w, a);
      case InitBegin => InitKeepsSound(w, a);
      case InitOk => InitKeepsSound(w, a);
      case InitFail => InitKeepsSound(w, a);
      case CloseBegin(_, _) => CloseKeepsSound(w, a);
      case CloseSaw(_) => CloseKeepsSound(w, a);
      case CloseEnd(_) => CloseKeepsSound(w, a);
      case _ => DestroyKeepsSound(w, a);
    }
  }

  lemma {:induction false} ExecKeepsSound(w: World, actions: seq<Action>)
    requires Sound(w)
    ensures Sound(Exec(w, actions))
    decreases |actions|
  {
    if actions != [] {
      NextKeepsSound(w, actions[0]);
      ExecKeepsSound(Next(w, actions[0]), actions[1..]);
    }
  }

  // ---------------------------------------------------------------- what it means

  /**
   * Drain safety under every interleaving: an admitted call has a live backend whose finalization has
   * not begun, the one it was given if it has read it, and its handle is not idle.
   */
  lemma AdmittedCallsAreSafe(actions: seq<Action>, call: CallId)
    requires call in Exec(Initial(), actions).calls
    ensures var w := Exec(Initial(), actions);
            && w.backend.Some? && w.backend.value !in w.dead
            && (w.calls[call].given.Some? ==> w.calls[call].given == w.backend)
            && w.calls[call].handle in w.handles && !w.handles[w.calls[call].handle].idle
            && (w.state.Ready? || w.state.Draining?)
  {
    ExecKeepsSound(Initial(), actions);
    var w := Exec(Initial(), actions);
    assert CallSound(w, call);
    Busy(w, call);
  }

  /** The event of a handle is set exactly when no admitted call is running on it. */
  lemma IdleMeansNoCalls(actions: seq<Action>, h: HandleId)
    requires h in Exec(Initial(), actions).handles
    ensures var w := Exec(Initial(), actions);
            && (w.handles[h].idle <==> w.handles[h].inFlight == 0)
            && (w.handles[h].idle <==> forall c | c in w.calls :: w.calls[c].handle != h)
  {
    ExecKeepsSound(Initial(), actions);
    var w := Exec(Initial(), actions);
    assert HandleSound(w, h);
    if |CallsOn(w, h)| == 0 {
      assert CallsOn(w, h) == {};
      forall c | c in w.calls
        ensures w.calls[c].handle != h
      {
        assert c !in CallsOn(w, h);
      }
    } else {
      var c :| c in CallsOn(w, h);
      assert c in w.calls && w.calls[c].handle == h;
    }
  }

  lemma DeathIsClearing(w: World, a: Action)
    ensures Next(w, a).dead != w.dead ==> a.DestroyClear? && w.lifecycle.Waiting? && w.lifecycle.seen == w.lifecycle.handles
    ensures a.DestroyClear? && Next(w, a) != w ==> Next(w, a).calls == w.calls && Next(w, a).registered == {}
  {
  }

  /** Finalization of a backend begins only with no call admitted, and reading the backend never fails. */
  lemma FinalizeOnlyWhenDrained(actions: seq<Action>, a: Action)
    ensures var w := Exec(Initial(), actions); var v := Next(w, a);
            && (v.dead != w.dead ==> v.calls == map[] && v.registered == {})
            && (a.UseRead? && a.call in w.calls ==> v.calls[a.call].given.Some?)
  {
    ExecKeepsSound(Initial(), actions);
    var w := Exec(Initial(), actions);
    DeathIsClearing(w, a);
    if Next(w, a).dead != w.dead {
      ClearedMeansQuiet(w);
    }
    if a.UseRead? && a.call in w.calls {
      AdmittedCallsAreSafe(actions, a.call);
    }
  }

  /** Once a destroy has marked the handles, no step admits a call or a handle until the next initialization. */
  lemma DrainingAdmitsNothing(actions: seq<Action>, a: Action)
    requires var w := Exec(Initial(), actions); !w.state.Ready? && !w.lifecycle.Marking?
    ensures var w := Exec(Initial(), actions); Next(w, a).calls.Keys <= w.calls.Keys && Next(w, a).registered <= w.registered
  {
    ExecKeepsSound(Initial(), actions);
    NoneAdmitted(Exec(Initial(), actions), a);
  }

  lemma NoneAdmitted(w: World, a: Action)
    requires Sound(w) && !w.state.Ready? && !w.lifecycle.Marking?
    ensures Next(w, a).calls.Keys <= w.calls.Keys && Next(w, a).registered <= w.registered
  {
    if a.UseAdmit? && a.h in w.registered {
      assert w.state.Draining?;
      assert !w.handles[a.h].state.Open?;
    }
  }

  /** A destroy that timed out can be repeated, and finds the same handles minus those closed meanwhile. */
  lemma TimedOutDestroyRepeats(w: World, keep: bool)
    requires Sound(w) && w.lifecycle.Waiting?
    ensures var v := Exec(w, [DestroyTimeout, DestroyBegin(keep), DestroySnapshot]);
            && v == w.(lifecycle := Waiting(w.registered, {}, keep))
            && v.lifecycle.handles <= w.lifecycle.handles
  {
    var a, b := Next(w, DestroyTimeout), Next(Next(w, DestroyTimeout), DestroyBegin(keep));
    assert [DestroyTimeout, DestroyBegin(keep), DestroySnapshot][1..] == [DestroyBegin(keep), DestroySnapshot];
    assert [DestroyBegin(keep), DestroySnapshot][1..] == [DestroySnapshot];
    assert Exec(b, [DestroySnapshot]) == Next(b, DestroySnapshot) by {
      assert [DestroySnapshot][1..] == [];
    }
    assert Exec(a, [DestroyBegin(keep), DestroySnapshot]) == Exec(b, [DestroySnapshot]);
  }
}
