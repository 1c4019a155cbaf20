/**
 * The runtime and its handles as objects. A coroutine's code between two suspension points is one
 * method here; each performs exactly one step of the protocol.
 */
module Runtime {
  import opened Basics
  import opened RuntimeHandles

  class RuntimeHandle {
    var state: HandleState
    var inFlight: nat
    var idle: bool

    constructor ()
      ensures Snapshot() == Handle(Open, 0, true)
    {
      state, inFlight, idle := Open, 0, true;
    }

    ghost function Snapshot(): Handle
      reads this
    {
      Handle(state, inFlight, idle)
    }

    method Enter()
      modifies this
      ensures Snapshot() == Handle(old(state), old(inFlight) + 1, false)
    {
      inFlight, idle := inFlight + 1, false;
    }

    method Leave()
      requires inFlight > 0
      modifies this
      ensures Snapshot() == Handle(old(state), old(inFlight) - 1, old(inFlight) == 1 || old(idle))
    {
      inFlight := inFlight - 1;
      if inFlight == 0 {
        idle := true;
      }
    }
  }

  /**
   * `table` holds the registered handles, `objects` every handle ever made (callers keep references);
   * `lifecycle`, `calls` and `closers` are the locals of the suspended coroutines.
   */
  class MagiRuntime {
    var state: RuntimeState
    var backend: Option<BackendId>
    var table: map<HandleId, RuntimeHandle>
    var objects: map<HandleId, RuntimeHandle>
    var lifecycle: Lifecycle
    var calls: map<CallId, Call>
    var closers: map<nat, Closer>
    var made: nat
    ghost var dead: set<BackendId>

    constructor ()
      ensures Valid() && View() == Initial()
    {
      state, backend, table, objects := New, None, map[], map[];
      lifecycle, calls, closers, made, dead := Free, map[], map[], 0, {};
    }

    ghost predicate Valid()
      reads `table, `objects
    {
      && (forall h | h in table :: h in objects && table[h] == objects[h])
      && forall h, k | h in objects && k in objects && objects[h] == objects[k] :: h == k
    }

    ghost function Handles(): map<HandleId, Handle>
      reads `objects, objects.Values
    {
      map h | h in objects :: objects[h].Snapshot()
    }

    ghost function View(): World
      reads this, objects.Values
    {
      World(state, backend, Handles(), table.Keys, lifecycle, calls, closers, made, dead)
    }

    /** `instance_init` up to the backend's own initialization. */
    method BeginInit() returns (accepted: bool)
      requires Valid()
      modifies `state, `lifecycle
      ensures Valid() && View() == Next(old(View()), InitBegin)
      ensures accepted <==> old(lifecycle).Free? && old(state).New?
    {
      accepted := lifecycle.Free? && state.New?;
      if accepted {
        state, lifecycle := Initializing, Starting;
      }
    }

    method EndInit(ok: bool)
      requires Valid() && lifecycle.Starting?
      modifies `state, `backend, `made, `lifecycle
      ensures Valid() && View() == Next(old(View()), if ok then InitOk else InitFail)
    {
      if ok {
        state, backend, made := Ready, Some(made), made + 1;
      } else {
        state, backend := Broken, None;
      }
      lifecycle := Free;
    }

    method OpenHandle(h: HandleId) returns (handle: RuntimeHandle?)
      requires Valid() && h !in objects
      modifies `table, `objects
      ensures Valid() && View() == Next(old(View()), Action.OpenHandle(h))
      ensures handle != null <==> old(state).Ready?
      ensures handle != null ==> fresh(handle) && h in table && table[h] == handle
    {
      handle := null;
      if state.Ready? {
        handle := new RuntimeHandle();
        table, objects := table[h := handle], objects[h := handle];
        OneAdded(h);
      }
    }

    /** Only one object is new. */
    twostate lemma OneAdded(h: HandleId)
      requires h !in old(objects) && h in objects && objects == old(objects)[h := objects[h]]
      requires forall k | k in old(objects) :: old(objects[k].Snapshot()) == old(objects)[k].Snapshot()
      ensures Handles() == old(Handles())[h := objects[h].Snapshot()]
    {
    }

    /** Only one object has moved. */
    twostate lemma OneMoved(h: HandleId, new now: Handle)
      requires old(Valid()) && h in old(objects) && objects == old(objects) && objects[h].Snapshot() == now
      requires forall k | k in objects && k != h :: old(objects[k].Snapshot()) == objects[k].Snapshot()
      ensures Handles() == old(Handles())[h := now]
    {
    }

    /** `use`, the admission under the handle lock. */
    method AdmitCall(call: CallId, h: HandleId) returns (admitted: bool)
      requires Valid() && call !in calls
      modifies `calls, objects.Values
      ensures Valid() && View() == Next(old(View()), UseAdmit(call, h))
      ensures admitted <==> h in table && old(table[h].state).Open?
      ensures admitted <==> call in calls
      ensures admitted ==> calls[call].handle == h && objects[h].inFlight == old(objects[h].inFlight) + 1 && !objects[h].idle
    {
      admitted := h in table && table[h].state.Open?;
      if admitted {
        var handle := table[h];
        calls := calls[call := Call(h, None)];
        handle.Enter();
        OneMoved(h, Handle(Open, handle.inFlight, false));
      }
    }

    /** `use`, reading the backend it yields; null would mean "runtime instance is unavailable". */
    method ReadBackend(call: CallId) returns (given: Option<BackendId>)
      requires Valid() && call in calls
      modifies `calls
      ensures Valid() && View() == Next(old(View()), UseRead(call)) && given == backend
    {
      given := backend;
      calls := calls[call := calls[call].(given := backend)];
    }

    /** `use`, leaving: the last call of a handle sets its event. */
    method EndCall(call: CallId)
      requires Valid() && call in calls && calls[call].handle in objects && objects[calls[call].handle].inFlight > 0
      modifies `calls, objects.Values
      ensures Valid() && View() == Next(old(View()), UseEnd(call))
      ensures calls == old(calls) - {call}
      ensures var handle := objects[old(calls[call].handle)];
              handle.inFlight == old(handle.inFlight) - 1 && (handle.inFlight == 0 ==> handle.idle)
    {
      var h := calls[call].handle;
      var handle := objects[h];
      handle.Leave();
      OneMoved(h, Handle(handle.state, handle.inFlight, handle.idle));
      calls := calls - {call};
    }

    method BeginClose(c: nat, h: HandleId)
      requires Valid() && c !in closers
      modifies `closers, objects.Values
      ensures Valid() && View() == Next(old(View()), CloseBegin(c, h))
    {
      if h in table && !table[h].state.Closed? {
        var handle := table[h];
        handle.state := HandleState.Closing;
        OneMoved(h, Handle(HandleState.Closing, handle.inFlight, handle.idle));
        closers := closers[c := Closer(h, false)];
      }
    }

    method SeeIdle(c: nat)
      requires Valid() && c in closers && closers[c].handle in objects && objects[closers[c].handle].idle
      modifies `closers
      ensures Valid() && View() == Next(old(View()), CloseSaw(c))
    {
      closers := closers[c := closers[c].(seen := true)];
    }

    method EndClose(c: nat)
      requires Valid() && c in closers && closers[c].seen && closers[c].handle in objects
      modifies `closers, `table, objects.Values
      ensures Valid() && View() == Next(old(View()), CloseEnd(c))
    {
      var h := closers[c].handle;
      var handle := objects[h];
      handle.state := Closed;
      OneMoved(h, Handle(Closed, handle.inFlight, handle.idle));
      table, closers := table - {h}, closers - {c};
    }

    /** `instance_destroy` up to the first use of the handle lock. */
    method BeginDestroy(keep: bool)
      requires Valid()
      modifies `state, `lifecycle
      ensures Valid() && View() == Next(old(View()), DestroyBegin(keep))
    {
      if !lifecycle.Free? { return; }
      if state.New? {
        state := Rest(keep);
      } else if state.Ready? || state.Broken? {
        state, lifecycle := Draining, Marking(keep);
      } else if state.Draining? {
        lifecycle := Snapshotting(keep);
      }
    }

    /** The loop that gives the listed handles a state. */
    method SetStates(which: set<HandleId>, to: HandleState)
      requires Valid() && which <= objects.Keys
      modifies objects.Values
      ensures Valid() && Handles() == Marked(old(Handles()), which, to)
    {
      var todo := which;
      while todo != {}
        invariant todo <= which
        invariant Handles() == Marked(old(Handles()), which - todo, to)
        decreases todo
      {
        var h :| h in todo;
        label L:
        var handle := objects[h];
        handle.state := to;
        OneMoved@L(h, Handle(to, handle.inFlight, handle.idle));
        MarkedNext(old(Handles()), which - todo, h, to);
        assert which - (todo - {h}) == which - todo + {h};
        todo := todo - {h};
      }
      assert which - todo == which;
    }

    lemma MarkedNext(handles: map<HandleId, Handle>, done: set<HandleId>, h: HandleId, to: HandleState)
      requires h in handles && h !in done
      ensures Marked(handles, done + {h}, to) == Marked(handles, done, to)[h := handles[h].(state := to)]
    {
    }

    method MarkClosing()
      requires Valid() && lifecycle.Marking?
      modifies `lifecycle, objects.Values
      ensures Valid() && View() == Next(old(View()), DestroyMark)
    {
      SetStates(table.Keys, HandleState.Closing);
      lifecycle := Waiting(table.Keys, {}, lifecycle.keep);
    }

    method Snapshot()
      requires Valid() && lifecycle.Snapshotting?
      modifies `lifecycle
      ensures Valid() && View() == Next(old(View()), DestroySnapshot)
    {
      lifecycle := Waiting(table.Keys, {}, lifecycle.keep);
    }

    method DrainSaw(h: HandleId)
      requires Valid() && lifecycle.Waiting? && h in lifecycle.handles && h in objects && objects[h].idle
      modifies `lifecycle
      ensures Valid() && View() == Next(old(View()), DestroySaw(h))
    {
      lifecycle := lifecycle.(seen := lifecycle.seen + {h});
    }

    method DrainTimedOut()
      requires Valid() && lifecycle.Waiting?
      modifies `lifecycle
      ensures Valid() && View() == Next(old(View()), DestroyTimeout)
    {
      lifecycle := Free;
    }

    /** The drained handles are closed, the table is cleared, and the backend's finalization begins. */
    method ClearHandles()
      requires Valid() && lifecycle.Waiting? && lifecycle.seen == lifecycle.handles && lifecycle.handles <= objects.Keys
      modifies `table, `state, `lifecycle, `dead, objects.Values
      ensures Valid() && View() == Next(old(View()), DestroyClear)
    {
      var drained := lifecycle.handles;
      SetStates(drained, Closed);
      assert Handles() == Marked(old(Handles()), drained, Closed);
      table, state := map[], Finalizing;
      dead := if backend.Some? then dead + {backend.value} else dead;
      lifecycle := Lifecycle.Closing(lifecycle.keep);
    }

    method EndDestroy()
      requires Valid() && lifecycle.Closing?
      modifies `backend, `state, `lifecycle
      ensures Valid() && View() == Next(old(View()), DestroyEnd)
    {
      backend, state := None, Rest(lifecycle.keep);
      lifecycle := Free;
    }
  }
}
