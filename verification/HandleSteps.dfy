/**
 * What the steps of the runtime's protocol achieve: admitted calls are counted and hold the backend until they
 * end, closed handles admit nothing, and a destroy that waits can complete as soon as no call is left.
 */
module HandleSteps {
  import opened Basics
  import opened RuntimeHandles

  // ---------------------------------------------------------------- calls

  /** A new call is admitted exactly on a handle that is registered and open, and is counted there at once. */
  lemma AdmissionIsCounted(w: World, call: CallId, h: HandleId)
    requires Sound(w) && call !in w.calls
    ensures var v := Next(w, UseAdmit(call, h));
            && (call in v.calls <==> h in w.registered && w.handles[h].state.Open?)
            && (call in v.calls ==> v.calls[call].handle == h && v.handles[h].inFlight == w.handles[h].inFlight + 1 && !v.handles[h].idle)
            && (call !in v.calls ==> v == w)
            && v.calls - {call} == w.calls && v.handles.Keys == w.handles.Keys
            && forall x | x in w.handles && x != h :: v.handles[x] == w.handles[x]
  {
  }

  /** A call that ends takes only itself away; the event is set exactly when no other call is left on the handle. */
  lemma EndIsCounted(w: World, call: CallId)
    requires Sound(w) && call in w.calls
    ensures var v, h := Next(w, UseEnd(call)), w.calls[call].handle;
            && v.calls == w.calls - {call}
            && h in v.handles && v.handles[h].inFlight + 1 == w.handles[h].inFlight
            && (v.handles[h].idle <==> forall c | c in v.calls :: v.calls[c].handle != h)
            && forall x | x in w.handles && x != h :: x in v.handles && v.handles[x] == w.handles[x]
  {
    var v, h := Next(w, UseEnd(call)), w.calls[call].handle;
    Busy(w, call);
    UseKeepsSound(w, UseEnd(call));
    assert HandleSound(v, h);
    IdleIffNone(v, h);
  }

  lemma IdleIffNone(w: World, h: HandleId)
    requires h in w.handles && HandleSound(w, h)
    ensures w.handles[h].idle <==> forall c | c in w.calls :: w.calls[c].handle != h
  {
    if c :| c in w.calls && w.calls[c].handle == h {
      assert c in CallsOn(w, h);
    } else {
      assert CallsOn(w, h) == {};
    }
  }

  /** While a call is admitted the runtime is ready or draining, so no initialization is under way. */
  lemma NoInitUnderCall(w: World, call: CallId, a: Action)
    requires Sound(w) && call in w.calls && (a.InitBegin? || a.InitOk? || a.InitFail? || a.DestroyEnd?)
    ensures Next(w, a) == w
  {
    assert CallSound(w, call);
  }

  lemma NoClearUnderCall(w: World, call: CallId)
    requires Sound(w) && call in w.calls
    ensures Next(w, DestroyClear) == w
  {
    if w.lifecycle.Waiting? && w.lifecycle.seen == w.lifecycle.handles {
      ClearedMeansQuiet(w);
    }
  }

  predicate IsUse(a: Action) {
    a.UseAdmit? || a.UseRead? || a.UseEnd?
  }

  /** Only admission and the end of a call change which calls there are, and on which handles. */
  lemma OthersLeaveCalls(w: World, a: Action)
    requires !IsUse(a)
    ensures Next(w, a).calls == w.calls
  {
  }

  lemma UseLeavesOthers(w: World, a: Action, call: CallId)
    requires IsUse(a) && call in w.calls && a != UseEnd(call)
    ensures var v := Next(w, a);
            call in v.calls && v.calls[call].handle == w.calls[call].handle && v.backend == w.backend && v.dead == w.dead
  {
    UseKeepsRest(w, a);
  }

  lemma BackendStays(w: World, a: Action)
    requires !IsUse(a) && !a.InitOk? && !a.InitFail? && !a.DestroyClear? && !a.DestroyEnd?
    ensures Next(w, a).backend == w.backend && Next(w, a).dead == w.dead
  {
  }

  lemma CallStays(w: World, call: CallId, a: Action)
    requires Sound(w) && call in w.calls && a != UseEnd(call)
    ensures var v := Next(w, a);
            && call in v.calls && v.calls[call].handle == w.calls[call].handle
            && v.backend == w.backend && v.dead == w.dead
  {
    if IsUse(a) {
      UseLeavesOthers(w, a, call);
    } else {
      OthersLeaveCalls(w, a);
      if a.InitOk? || a.InitFail? || a.DestroyEnd? {
        NoInitUnderCall(w, call, a);
      } else if a.DestroyClear? {
        NoClearUnderCall(w, call);
      } else {
        BackendStays(w, a);
      }
    }
  }

  /**
   * Whatever the other coroutines do, an admitted call that has not ended keeps its handle registered and the
   * backend as it was: the table cannot be cleared, and no finalization begins, before the call ends.
   */
  lemma {:induction false} NothingClearsUnderCall(w: World, call: CallId, actions: seq<Action>)
    requires Sound(w) && call in w.calls && UseEnd(call) !in actions
    ensures var v := Exec(w, actions);
            && call in v.calls && v.calls[call].handle == w.calls[call].handle
            && v.calls[call].handle in v.registered && v.backend == w.backend && v.dead == w.dead
            && Next(v, DestroyClear) == v
    decreases |actions|
  {
    if actions == [] {
      Busy(w, call);
      NoClearUnderCall(w, call);
    } else {
      assert actions[0] in actions && forall a | a in actions[1..] :: a in actions;
      CallStays(w, call, actions[0]);
      NextKeepsSound(w, actions[0]);
      NothingClearsUnderCall(Next(w, actions[0]), call, actions[1..]);
    }
  }

  // ---------------------------------------------------------------- handles

  /** A new handle is registered exactly while the runtime is ready: open, and without calls. */
  lemma OpenedHandle(w: World, h: HandleId)
    requires Sound(w) && h !in w.handles
    ensures var v := Next(w, OpenHandle(h));
            && (if w.state.Ready?
                then v.registered == w.registered + {h} && h in v.handles && v.handles[h] == Handle(Open, 0, true)
                else v == w)
            && v.calls == w.calls && forall x | x in w.handles :: x in v.handles && v.handles[x] == w.handles[x]
  {
  }

  lemma NoneOpens(w: World, h: HandleId, a: Action)
    requires h in w.handles && !w.handles[h].state.Open?
    ensures h in Next(w, a).handles && !Next(w, a).handles[h].state.Open?
  {
    if IsUse(a) {
      UseKeepsRest(w, a);
    }
  }

  lemma ClosedStays(w: World, h: HandleId, a: Action)
    requires h in w.handles && !w.handles[h].state.Open?
    ensures var v := Next(w, a); h in v.handles && !v.handles[h].state.Open?
    ensures forall c | c in Next(w, a).calls && Next(w, a).calls[c].handle == h :: c in w.calls && w.calls[c].handle == h
  {
    NoneOpens(w, h, a);
    if !IsUse(a) {
      OthersLeaveCalls(w, a);
    }
  }

  /** Once a handle is closing, no step of any coroutine opens it again or admits a call on it. */
  lemma {:induction false} ClosingAdmitsNothing(w: World, h: HandleId, actions: seq<Action>)
    requires h in w.handles && !w.handles[h].state.Open?
    ensures var v := Exec(w, actions);
            && h in v.handles && !v.handles[h].state.Open?
            && forall c | c in v.calls && v.calls[c].handle == h :: c in w.calls && w.calls[c].handle == h
    decreases |actions|
  {
    if actions != [] {
      ClosedStays(w, h, actions[0]);
      ClosingAdmitsNothing(Next(w, actions[0]), h, actions[1..]);
    }
  }

  /** Closing a registered handle begins at once, whether calls run on it or not, and touches nothing else. */
  lemma CloseBegins(w: World, c: nat, h: HandleId)
    requires Sound(w) && c !in w.closers && h in w.registered
    ensures var v := Next(w, CloseBegin(c, h));
            && v.handles[h] == w.handles[h].(state := HandleState.Closing) && c in v.closers && v.closers[c].handle == h && !v.closers[c].seen
            && v.registered == w.registered && v.calls == w.calls
  {
    assert HandleSound(w, h);
  }

  /** A close ends only after it has seen the handle idle; it does as soon as no call is left on the handle. */
  lemma CloseCompletes(w: World, c: nat)
    requires Sound(w) && c in w.closers
    ensures var h := w.closers[c].handle;
            && (!w.closers[c].seen ==> Next(w, CloseEnd(c)) == w)
            && ((forall x | x in w.calls :: w.calls[x].handle != h) ==>
                  var v := Next(Next(w, CloseSaw(c)), CloseEnd(c));
                  && v.registered == w.registered - {h} && v.closers == w.closers - {c} && v.calls == w.calls
                  && v.handles == w.handles[h := w.handles[h].(state := Closed)])
  {
    var h := w.closers[c].handle;
    assert HandleSound(w, h);
    IdleIffNone(w, h);
  }

  // ---------------------------------------------------------------- the instance

  /** A new runtime becomes ready with a backend that is not dead, or fails without one. */
  lemma InitCompletes(w: World)
    requires Sound(w) && w.state.New? && w.lifecycle.Free?
    ensures var r := Next(Next(w, InitBegin), InitOk);
            && r.state.Ready? && r.backend.Some? && r.backend.value !in r.dead && r.dead == w.dead && r.lifecycle.Free?
            && r.handles == w.handles && r.registered == w.registered && r.calls == w.calls
    ensures var r := Next(Next(w, InitBegin), InitFail); r.state.Broken? && r.backend.None? && r.lifecycle.Free? && r.registered == {}
  {
  }

  /** An initialization is refused in every other state; nothing changes. */
  lemma InitRefused(w: World)
    requires !w.state.New? || !w.lifecycle.Free?
    ensures Next(w, InitBegin) == w
  {
  }

  /** A runtime that was never initialized has nothing to drain; a finalized one stays finalized. */
  lemma DestroyUnused(w: World, keep: bool)
    requires Sound(w) && w.lifecycle.Free? && (w.state.New? || w.state.Finalized?)
    ensures var v := Next(w, DestroyBegin(keep));
            v == w.(state := v.state) && v.state == if w.state.New? && keep then New else Finalized
  {
  }

  /** Destroying a ready or failed runtime marks every registered handle and then waits for all of them. */
  lemma DestroyWaits(w: World, keep: bool)
    requires Sound(w) && w.lifecycle.Free? && (w.state.Ready? || w.state.Broken?)
    ensures var v := Next(Next(w, DestroyBegin(keep)), DestroyMark);
            && v.state.Draining? && v.lifecycle == Waiting(w.registered, {}, keep)
            && v.registered == w.registered && v.calls == w.calls && v.backend == w.backend && v.handles.Keys == w.handles.Keys
            && forall h | h in w.handles ::
                 v.handles[h] == if h in w.registered then w.handles[h].(state := HandleState.Closing) else w.handles[h]
  {
  }

  /** One handle after the other is seen idle. */
  lemma {:induction false} SeeAll(w: World, todo: set<HandleId>) returns (actions: seq<Action>)
    requires Sound(w) && w.lifecycle.Waiting? && w.calls == map[] && todo <= w.lifecycle.handles
    ensures Exec(w, actions) == w.(lifecycle := w.lifecycle.(seen := w.lifecycle.seen + todo))
    ensures forall a | a in actions :: a.DestroySaw?
    decreases |todo|
  {
    if todo == {} {
      assert w.lifecycle.seen + todo == w.lifecycle.seen;
      return [];
    }
    var h :| h in todo;
    assert HandleSound(w, h);
    IdleIffNone(w, h);
    var v := Next(w, DestroySaw(h));
    assert v == w.(lifecycle := w.lifecycle.(seen := w.lifecycle.seen + {h}));
    NextKeepsSound(w, DestroySaw(h));
    var rest := SeeAll(v, todo - {h});
    assert w.lifecycle.seen + {h} + (todo - {h}) == w.lifecycle.seen + todo;
    actions := [DestroySaw(h)] + rest;
    assert actions[1..] == rest;
  }

  lemma {:induction false} ExecTwo(w: World, a: seq<Action>, x: Action, y: Action)
    ensures Exec(w, a + [x, y]) == Next(Next(Exec(w, a), x), y)
    decreases |a|
  {
    if a == [] {
      assert a + [x, y] == [x, y] && [x, y][1..] == [y] && [y][1..] == [];
      assert Exec(w, [x, y]) == Exec(Next(w, x), [y]) == Exec(Next(Next(w, x), y), []);
    } else {
      assert (a + [x, y])[1..] == a[1..] + [x, y];
      ExecTwo(Next(w, a[0]), a[1..], x, y);
    }
  }

  /**
   * A destroy that waits completes once no call is left: all the handles it waits for are closed, none stays
   * registered, the backend is finalized and gone, and the runtime is new again or finalized.
   */
  lemma DestroyCompletes(w: World) returns (actions: seq<Action>)
    requires Sound(w) && w.lifecycle.Waiting? && w.calls == map[]
    ensures forall a | a in actions :: a.DestroySaw? || a.DestroyClear? || a.DestroyEnd?
    ensures var v := Exec(w, actions);
            && v.state == (if w.lifecycle.keep then New else Finalized) && v.lifecycle.Free?
            && v.registered == {} && v.backend.None? && (w.backend.Some? ==> w.backend.value in v.dead)
            && v.handles.Keys == w.handles.Keys
            && forall h | h in w.lifecycle.handles :: v.handles[h] == w.handles[h].(state := Closed)
  {
    var seeing := SeeAll(w, w.lifecycle.handles);
    assert w.lifecycle.seen + w.lifecycle.handles == w.lifecycle.handles;
    actions := seeing + [DestroyClear, DestroyEnd];
    ExecTwo(w, seeing, DestroyClear, DestroyEnd);
  }
}
