/**
 A handler that uses the router cannot deadlock it: from every reachable state of
 RouterCalls what has begun can be brought to its end, and it could not if Route
 kept its read lock while it dispatches.
*/
module RouterProgress {
  import opened Wrappers
  import opened Recipients
  import opened RouterCalls
  import M = RouterMachine

  // ----- Carrying on -----

  // Steps of what has begun: nobody calls the router anew.
  predicate CarriesOn(a: Action) {
    !a.EnterRoute? && !a.EnterWriter? && !a.HandlerWrites? && !a.HandlerRoutes? && !a.ResetAliases?
  }

  // A read lock may be refused while a writer waits, so none is taken then.
  predicate MayTake(s: State, a: Action) {
    CarriesOn(a) && (a.RLock? ==> s.writers == [])
  }

  predicate Plan(m: Matcher, s: State, plan: seq<Action>) {
    plan == [] || var n := |plan| - 1;
      Plan(m, s, plan[..n]) && MayTake(Exec(m, s, plan[..n]), plan[n])
  }

  ghost predicate Leads(m: Matcher, s: State, s': State) {
    exists plan :: Plan(m, s, plan) && Exec(m, s, plan) == s'
  }

  lemma LeadsNowhere(m: Matcher, s: State)
    ensures Leads(m, s, s)
  {
    assert Plan(m, s, []) && Exec(m, s, []) == s;
  }

  lemma LeadsOn(m: Matcher, s0: State, s: State, a: Action)
    requires Leads(m, s0, s) && MayTake(s, a)
    ensures Leads(m, s0, Step(m, s, a))
  {
    var plan :| Plan(m, s0, plan) && Exec(m, s0, plan) == s;
    ExecLast(m, s0, plan, a);
    PlanExtends(m, s0, plan, a);
  }

  lemma PlanExtends(m: Matcher, s: State, plan: seq<Action>, a: Action)
    requires Plan(m, s, plan) && MayTake(Exec(m, s, plan), a)
    ensures Plan(m, s, plan + [a])
  {
    assert (plan + [a])[..|plan|] == plan;
  }

  // One more step of the plan that led from s0 to s.
  lemma Next(m: Matcher, s0: State, s: State, a: Action) returns (s': State)
    requires Leads(m, s0, s) && Inv(m, s) && MayTake(s, a)
    ensures s' == Step(m, s, a) && Leads(m, s0, s') && Inv(m, s')
  {
    s' := Step(m, s, a);
    StepKeepsInv(m, s, a);
    LeadsOn(m, s0, s, a);
  }

  // ----- Letting everybody out of the locks -----

  // No Route has moved since; a handler may have got its mutation done.
  ghost predicate Kept(s: State, s': State) {
    && (forall id :: Known(s, id) <==> Known(s', id))
    && (forall id | id in s.router.routes :: id in s'.router.routes && s'.router.routes[id] == s.router.routes[id])
    && s'.doing.Keys == s.doing.Keys
    && (forall id | id in s.doing :: s.doing[id].Writing? || s'.doing[id] == s.doing[id])
  }

  lemma SnapshotKeeps(m: Matcher, s: State, id: nat)
    requires Inv(m, s) && id in s.readers && id in s.entering
    ensures var s' := Step(m, s, Snapshot(id));
      && Kept(s, s') && s'.readers == s.readers && s'.entering == s.entering - {id} && s'.writers == s.writers
      && s'.router.lock == s.router.lock
      && id in s'.router.routes && s'.router.routes[id].phase.Snapped? && s'.doing == s.doing
      && forall j | j != id :: j in s'.router.routes <==> j in s.router.routes
  {
    SnapshotMoves(m, s.router, RouterAction(s, Snapshot(id)).value);
  }

  // Every holder of the read lock snapshots, if it has not, and lets go.
  lemma ReadersLetGo(m: Matcher, s0: State, s: State) returns (s': State)
    requires Leads(m, s0, s) && Inv(m, s)
    ensures Leads(m, s0, s') && Inv(m, s') && Kept(s, s') && s'.readers == {}
    decreases |s.readers|
  {
    s' := s;
    if s.readers != {} {
      var id :| id in s.readers;
      if id in s.entering {
        SnapshotKeeps(m, s, id);
        s' := Next(m, s0, s, Snapshot(id));
      }
      var s1 := Next(m, s0, s', RUnlock(id));
      assert s1.readers == s.readers - {id};
      s' := ReadersLetGo(m, s0, s1);
    }
  }

  function Minus(a: nat, b: nat): nat {
    if a <= b then 0 else a - b
  }

  // What the holder of the write lock has to do before it can publish.
  function Holding(r: M.State): nat {
    match r.lock
    case Free => 0
    case Adding(_, _, appended) => if appended then 0 else 1
    case Removing(_, next, _) => Minus(r.entries.len, next)
  }

  function HolderAction(r: M.State): Action {
    if r.lock.Adding? then AppendEntry(0) else CopyNext
  }

  lemma HolderAdvances(m: Matcher, r: M.State)
    requires M.EntriesOk(r) && M.LockOk(r) && !r.lock.Free? && Holding(r) > 0
    ensures var r' := M.Step(m, r, if r.lock.Adding? then M.AppendEntry(0) else M.CopyNext);
      !r'.lock.Free? && Holding(r') < Holding(r) && r'.routes == r.routes
  {
  }

  lemma HolderDone(m: Matcher, r: M.State)
    requires M.EntriesOk(r) && M.LockOk(r) && !r.lock.Free? && Holding(r) == 0
    ensures M.Step(m, r, M.Publish).lock.Free?
  {
  }

  lemma OneHandlerMovesOn(s: State, s': State)
    requires s'.entering == s.entering && s'.router.routes == s.router.routes
    requires s'.doing ==
      if s.holder.Some? && InWrite(s, s.holder.value) then s.doing[s.holder.value := Running] else s.doing
    ensures Kept(s, s')
  {
  }

  lemma PublishFrees(m: Matcher, s: State)
    requires !s.router.lock.Free? && M.Step(m, s.router, M.Publish).lock.Free?
    ensures var s' := Step(m, s, Publish);
      && s'.router.lock.Free? && s'.readers == s.readers && s'.writers == s.writers && Kept(s, s')
  {
    WriterMoves(m, s.router, M.Publish);
    OneHandlerMovesOn(s, Step(m, s, Publish));
  }

  lemma HolderMoves(m: Matcher, s: State)
    requires Inv(m, s) && !s.router.lock.Free? && Holding(s.router) > 0
    ensures var s' := Step(m, s, HolderAction(s.router));
      && Kept(s, s') && s'.readers == s.readers && s'.writers == s.writers
      && !s'.router.lock.Free? && Holding(s'.router) < Holding(s.router)
  {
    HolderAdvances(m, s.router);
  }

  // The holder of the write lock, if any, publishes and lets go.
  lemma WriterLetsGo(m: Matcher, s0: State, s: State) returns (s': State)
    requires Leads(m, s0, s) && Inv(m, s)
    ensures Leads(m, s0, s') && Inv(m, s') && Kept(s, s')
    ensures s'.router.lock.Free? && s'.readers == s.readers && s'.writers == s.writers
    decreases Holding(s.router)
  {
    s' := s;
    if !s.router.lock.Free? {
      if Holding(s.router) == 0 {
        HolderDone(m, s.router);
        PublishFrees(m, s);
        s' := Next(m, s0, s, Publish);
      } else {
        HolderMoves(m, s);
        var s1 := Next(m, s0, s, HolderAction(s.router));
        s' := WriterLetsGo(m, s0, s1);
      }
    }
  }

  lemma AcquireKeeps(m: Matcher, s: State)
    requires s.readers == {} && s.router.lock.Free? && s.writers != []
    ensures var s' := Step(m, s, Acquire(0));
      Kept(s, s') && s'.readers == {} && s'.writers == s.writers[1..]
  {
    WriterMoves(m, s.router, Begin(s.writers[0].op));
    assert s.writers[..0] + s.writers[1..] == s.writers[1..];
  }

  lemma WritersAreServed(m: Matcher, s0: State, s: State) returns (s': State)
    requires Leads(m, s0, s) && Inv(m, s) && s.readers == {} && s.router.lock.Free?
    ensures Leads(m, s0, s') && Inv(m, s') && Kept(s, s') && Settled(s')
    decreases |s.writers|
  {
    s' := s;
    if s.writers != [] {
      AcquireKeeps(m, s);
      var s1 := Next(m, s0, s, Acquire(0));
      var s2 := WriterLetsGo(m, s0, s1);
      s' := WritersAreServed(m, s0, s2);
    }
  }

  // Nobody holds or waits for a lock.
  predicate Settled(s: State) {
    s.readers == {} && s.router.lock.Free? && s.writers == []
  }

  lemma Settles(m: Matcher, s: State) returns (s': State)
    requires Inv(m, s)
    ensures Leads(m, s, s') && Inv(m, s') && Kept(s, s') && Settled(s')
  {
    LeadsNowhere(m, s);
    var s1 := ReadersLetGo(m, s, s);
    var s2 := WriterLetsGo(m, s, s1);
    s' := WritersAreServed(m, s, s2);
  }

  // ----- Bringing one Route to its end -----

  // Only Route id and calls with higher numbers have moved.
  ghost predicate Below(s: State, s': State, id: nat) {
    && (forall j :: Known(s, j) <==> Known(s', j))
    && (forall j | j < id ::
          && (j in s.router.routes <==> j in s'.router.routes)
          && (j in s.router.routes ==> s'.router.routes[j] == s.router.routes[j])
          && (j in s.doing <==> j in s'.doing)
          && (j in s.doing ==> s'.doing[j] == s.doing[j]))
  }

  lemma SnapshotTaken(m: Matcher, s0: State, s: State, id: nat) returns (s': State)
    requires Leads(m, s0, s) && Inv(m, s) && Settled(s) && id in s.entering
    ensures Leads(m, s0, s') && Inv(m, s') && Settled(s') && Below(s, s', id)
    ensures id in s'.router.routes && s'.router.routes[id].phase.Snapped?
  {
    var s1 := Next(m, s0, s, RLock(id));
    SnapshotKeeps(m, s1, id);
    var s2 := Next(m, s0, s1, Snapshot(id));
    s' := Next(m, s0, s2, RUnlock(id));
  }

  lemma OnlyIsBelow(s: State, s': State, id: nat)
    requires s'.entering == s.entering && s'.router.routes.Keys == s.router.routes.Keys
    requires forall j | j in s.router.routes && j != id :: s'.router.routes[j] == s.router.routes[j]
    requires s'.doing == s.doing || s'.doing == s.doing[id := Running]
    ensures Below(s, s', id)
  {
  }

  lemma StepBelow(m: Matcher, s: State, a: Action)
    requires Settled(s) && (a.Resolve? || a.Dispatch? || a.Finish?)
    ensures Settled(Step(m, s, a)) && Below(s, Step(m, s, a), a.id)
  {
    RouteMoves(m, s.router, RouterAction(s, a).value);
    RouterShape(m, s.router, RouterAction(s, a).value);
    OnlyIsBelow(s, Step(m, s, a), a.id);
  }

  lemma ReturnBelow(m: Matcher, s: State, a: Action)
    requires Settled(s) && (a.CallReturns? || a.HandlerReturns?)
    ensures Settled(Step(m, s, a)) && Below(s, Step(m, s, a), a.id) && Step(m, s, a).router == s.router
    ensures a.HandlerReturns? && InHandler(s, a.id) ==> a.id !in Step(m, s, a).doing
    ensures a.CallReturns? && a.id in s.doing && s.doing[a.id].Routing? && Returned(s, s.doing[a.id].child) ==>
      InHandler(Step(m, s, a), a.id)
  {
  }

  lemma NobodyWaits(m: Matcher, s: State, id: nat)
    requires Inv(m, s) && Settled(s) && id in s.doing
    ensures !s.doing[id].Writing?
    ensures s.doing[id].Routing? ==> id < s.doing[id].child && Known(s, s.doing[id].child)
    ensures id in s.router.routes && s.router.routes[id].phase.Dispatching?
  {
    assert DoingOk(s, id, s.doing[id]);
  }

  predicate Left(s: State, id: nat, left: nat) {
    && id in s.router.routes && s.router.routes[id].phase.Dispatching? && id !in s.doing
    && M.Fits(s.router.mem, s.router.routes[id].header)
    && s.router.routes[id].header.len - s.router.routes[id].phase.next == left
  }

  lemma DispatchOne(m: Matcher, s: State, id: nat, left: nat)
    requires Settled(s) && Left(s, id, left)
    ensures left > 0 ==>
      var s' := Step(m, s, Dispatch(id));
      s'.doing == s.doing[id := Running] || Left(s', id, left - 1)
    ensures left > 0 ==> Left(Step(m, s, Dispatch(id)).(doing := s.doing), id, left - 1)
    ensures left == 0 ==> Returned(Step(m, s, Finish(id)), id)
  {
  }

  lemma {:induction false} Drains(m: Matcher, s0: State, s: State, id: nat, left: nat) returns (s': State)
    requires Leads(m, s0, s) && Inv(m, s) && Settled(s) && Left(s, id, left)
    ensures Leads(m, s0, s') && Inv(m, s') && Settled(s') && Below(s, s', id) && Returned(s', id)
    decreases left
  {
    DispatchOne(m, s, id, left);
    if left == 0 {
      StepBelow(m, s, Finish(id));
      s' := Next(m, s0, s, Finish(id));
    } else {
      StepBelow(m, s, Dispatch(id));
      var s1 := Next(m, s0, s, Dispatch(id));
      var s2 := s1;
      if id in s1.doing {
        ReturnBelow(m, s1, HandlerReturns(id));
        s2 := Next(m, s0, s1, HandlerReturns(id));
      }
      s' := Drains(m, s0, s2, id, left - 1);
    }
  }

  lemma DispatchingDrains(m: Matcher, s0: State, s: State, id: nat) returns (s': State)
    requires Leads(m, s0, s) && Inv(m, s) && Settled(s) && id !in s.doing
    requires id in s.router.routes && s.router.routes[id].phase.Dispatching?
    ensures Leads(m, s0, s') && Inv(m, s') && Settled(s') && Below(s, s', id) && Returned(s', id)
  {
    assert M.RouteOk(m, s.router, s.router.routes[id]);
    s' := Drains(m, s0, s, id, s.router.routes[id].header.len - s.router.routes[id].phase.next);
  }

  lemma ResolveMoves(m: Matcher, s: State, id: nat)
    requires Settled(s) && id !in s.doing && id in s.router.routes && s.router.routes[id].phase.Snapped?
    ensures var s' := Step(m, s, Resolve(id));
      id !in s'.doing && id in s'.router.routes && (Returned(s', id) || s'.router.routes[id].phase.Dispatching?)
  {
  }

  // Every call has a number below the bound.
  ghost predicate Bounded(s: State, bound: nat) {
    forall j: nat | Known(s, j) :: j < bound
  }

  // The handler a Route is in returns; first, if it has called Route, that call.
  lemma HandlerEnds(m: Matcher, s0: State, s: State, id: nat, bound: nat) returns (s': State)
    requires Leads(m, s0, s) && Inv(m, s) && Settled(s) && id in s.doing && Bounded(s, bound)
    ensures Leads(m, s0, s') && Inv(m, s') && Settled(s') && Below(s, s', id) && id !in s'.doing
    ensures id in s'.router.routes && s'.router.routes[id].phase.Dispatching?
    decreases bound - id, 0
  {
    NobodyWaits(m, s, id);
    s' := s;
    if s.doing[id].Routing? {
      s' := Ends(m, s0, s, s.doing[id].child, bound);
      ReturnBelow(m, s', CallReturns(id));
      s' := Next(m, s0, s', CallReturns(id));
    }
    ReturnBelow(m, s', HandlerReturns(id));
    s' := Next(m, s0, s', HandlerReturns(id));
  }

  lemma Ends(m: Matcher, s0: State, s: State, id: nat, bound: nat) returns (s': State)
    requires Leads(m, s0, s) && Inv(m, s) && Settled(s) && Known(s, id) && Bounded(s, bound)
    ensures Leads(m, s0, s') && Inv(m, s') && Settled(s') && Below(s, s', id) && Returned(s', id)
    decreases bound - id, 1
  {
    s' := s;
    if id in s.entering {
      s' := SnapshotTaken(m, s0, s, id);
    }
    if s'.router.routes[id].phase.Snapped? {
      SnappedHasNoHandler(m, s', id);
      ResolveMoves(m, s', id);
      StepBelow(m, s', Resolve(id));
      s' := Next(m, s0, s', Resolve(id));
    }
    if id in s'.doing {
      s' := HandlerEnds(m, s0, s', id, bound);
    }
    if s'.router.routes[id].phase.Dispatching? {
      s' := DispatchingDrains(m, s0, s', id);
    }
  }

  lemma SnappedHasNoHandler(m: Matcher, s: State, id: nat)
    requires Inv(m, s) && id in s.router.routes && s.router.routes[id].phase.Snapped?
    ensures id !in s.doing
  {
  }

  lemma BoundOf(ids: set<nat>) returns (bound: nat)
    ensures forall j | j in ids :: j < bound
    decreases |ids|
  {
    bound := 0;
    if ids != {} {
      var id :| id in ids;
      var rest := BoundOf(ids - {id});
      bound := if rest <= id then id + 1 else rest;
      assert forall j | j in ids :: j == id || j in ids - {id};
    }
  }

  lemma RouteCanReturn(m: Matcher, s: State, id: nat) returns (s': State)
    requires Inv(m, s) && Known(s, id)
    ensures Leads(m, s, s') && Returned(s', id)
  {
    var settled := Settles(m, s);
    var bound := BoundOf(settled.entering.Keys + settled.router.routes.Keys);
    s' := Ends(m, s, settled, id, bound);
  }

  // From every reachable state, whatever handlers are in the middle of, however
  // deep they have called one another through the router and whoever holds or waits
  // for its lock: every Route that has been called can be brought to its end by
  // steps of what has begun.
  lemma EveryRouteCanReturn(m: Matcher, actions: seq<Action>, id: nat)
    requires Known(Exec(m, Init(false), actions), id)
    ensures exists s' :: Leads(m, Exec(m, Init(false), actions), s') && Returned(s', id)
  {
    Reachable(m, actions);
    var s' := RouteCanReturn(m, Exec(m, Init(false), actions), id);
  }

  // And every mutation that holds or waits for the write lock can be committed.
  lemma EveryWriterCanCommit(m: Matcher, actions: seq<Action>)
    ensures exists s' :: Leads(m, Exec(m, Init(false), actions), s') && Settled(s')
  {
    Reachable(m, actions);
    var s' := Settles(m, Exec(m, Init(false), actions));
  }

  // ----- With the read lock kept -----

  // A Route keeps its read lock, and the handler it is in waits for the write lock.
  predicate Stuck(s: State, id: nat) {
    && s.holds && id in s.readers && id !in s.entering && id in s.doing && s.doing[id].Writing?
    && id in s.router.routes && s.router.routes[id].phase.Dispatching? && s.router.lock.Free?
  }

  lemma StuckStays(m: Matcher, s: State, a: Action, id: nat)
    requires Stuck(s, id)
    ensures Stuck(Step(m, s, a), id)
  {
    RouterMoves(m, s, a);
    if RouterAction(s, a).Some? {
      RouterShape(m, s.router, RouterAction(s, a).value);
    }
  }

  // Then neither ever ends, in any execution.
  lemma {:induction false} KeepingTheLockDeadlocks(m: Matcher, s: State, actions: seq<Action>, id: nat)
    requires Stuck(s, id)
    ensures Stuck(Exec(m, s, actions), id) && !Returned(Exec(m, s, actions), id)
  {
    if actions != [] {
      var n := |actions| - 1;
      KeepingTheLockDeadlocks(m, s, actions[..n], id);
      StuckStays(m, Exec(m, s, actions[..n]), actions[n], id);
    }
  }

  ghost predicate Reaches(m: Matcher, holds: bool, s: State) {
    exists actions :: Exec(m, Init(holds), actions) == s
  }

  lemma Takes(m: Matcher, holds: bool, s: State, a: Action) returns (s': State)
    requires Reaches(m, holds, s)
    ensures s' == Step(m, s, a) && Reaches(m, holds, s')
  {
    s' := Step(m, s, a);
    var actions :| Exec(m, Init(holds), actions) == s;
    ExecLast(m, Init(holds), actions, a);
  }

  // A router with one recipient.
  function OneRecipient(e: RouterEntry): M.State {
    M.State([[], [e]], M.Header(1, 1, 1), M.Free, map[], map[], [M.Added(e)])
  }

  lemma OneRecipientAdded(m: Matcher, e: RouterEntry)
    ensures var adding := M.Step(m, M.Init(), M.BeginAdd(e));
      && adding == M.Init().(lock := M.Adding(e, M.Header(0, 0, 0), false))
      && var added := M.Step(m, adding, M.AppendEntry(0));
         && added == adding.(mem := [[], [e]], lock := M.Adding(e, M.Header(1, 1, 1), true))
         && M.Step(m, added, M.Publish) == OneRecipient(e)
  {
    assert M.View([[]], M.Header(0, 0, 0)) + [e] + M.Blank(0) == [e];
    assert [[]] + [[e]] == [[], [e]];
  }

  lemma Registered(m: Matcher, e: RouterEntry) returns (s: State)
    ensures Reaches(m, true, s) && s == Init(true).(router := OneRecipient(e))
  {
    assert Exec(m, Init(true), []) == Init(true);
    OneRecipientAdded(m, e);
    s := Takes(m, true, Init(true), EnterWriter(Add(e)));
    s := Takes(m, true, s, Acquire(0));
    assert s == Init(true).(router := M.Step(m, M.Init(), M.BeginAdd(e)));
    s := Appended(m, s);
    s := Published(m, s);
  }

  lemma Appended(m: Matcher, s: State) returns (s': State)
    requires Reaches(m, true, s)
    ensures Reaches(m, true, s') && s' == s.(router := M.Step(m, s.router, M.AppendEntry(0)))
  {
    s' := Takes(m, true, s, AppendEntry(0));
  }

  lemma Published(m: Matcher, s: State) returns (s': State)
    requires Reaches(m, true, s) && s.holder.None? && !s.router.lock.Free?
    requires M.Step(m, s.router, M.Publish).lock.Free?
    ensures Reaches(m, true, s') && s' == s.(router := M.Step(m, s.router, M.Publish))
  {
    s' := Takes(m, true, s, Publish);
  }

  // The only Route is at this phase, before the first entry of its list.
  predicate OnlyRoute(r: M.State, e: RouterEntry, pb: Packet, phase: M.Phase) {
    && r.routes.Keys == {0} && r.routes[0] == M.Route(pb, 0, M.Header(1, 1, 1), 1, phase)
    && r.mem == [[], [e]] && r.lock.Free? && |r.hist| >= 1
  }

  lemma OneRecipientDispatched(m: Matcher, r: M.State, e: RouterEntry, pb: Packet, i: nat)
    requires AnyMatches(m, e.patterns, pb.topic) && OnlyRoute(r, e, pb, M.Dispatching(i, pb.topic, 0, []))
    ensures OnlyRoute(M.Step(m, r, M.Dispatch(0)), e, pb, M.Dispatching(i, pb.topic, 1, [Call(e.handler, pb.topic)]))
  {
    assert r.mem[1][0] == e;
    assert [] + [Call(e.handler, pb.topic)] == [Call(e.handler, pb.topic)];
  }

  lemma OneRecipientCalled(m: Matcher, r: M.State, e: RouterEntry, pb: Packet)
    requires pb.topic != "" && AliasOf(pb).None?
    ensures r == OneRecipient(e) ==> OnlyRoute(M.Step(m, r, M.Snapshot(0, pb, 0)), e, pb, M.Snapped)
    ensures OnlyRoute(r, e, pb, M.Snapped) ==>
      OnlyRoute(M.Step(m, r, M.Resolve(0)), e, pb, M.Dispatching(|r.hist|, pb.topic, 0, []))
  {
  }

  lemma Called(m: Matcher, e: RouterEntry, pb: Packet) returns (s: State)
    requires AnyMatches(m, e.patterns, pb.topic) && pb.topic != "" && AliasOf(pb).None?
    ensures Reaches(m, true, s) && s.holds && s.readers == {0} && s.entering == map[] && s.doing == map[0 := Running]
    ensures s.router.lock.Free? && 0 in s.router.routes && s.router.routes[0].phase.Dispatching?
  {
    s := Registered(m, e);
    s := Takes(m, true, s, EnterRoute(0, pb, 0));
    assert s.entering == map[0 := Incoming(pb, 0)];
    s := Takes(m, true, s, RLock(0));
    OneRecipientCalled(m, s.router, e, pb);
    s := Takes(m, true, s, Snapshot(0));
    OneRecipientCalled(m, s.router, e, pb);
    s := Takes(m, true, s, Resolve(0));
    OneRecipientDispatched(m, s.router, e, pb, s.router.routes[0].phase.resolved);
    s := Takes(m, true, s, Dispatch(0));
  }

  // A message for any recipient, whose handler goes on to mutate the router, gets
  // such a router there.
  lemma KeepingTheLockGetsStuck(m: Matcher, e: RouterEntry, topic: string, op: Op) returns (s: State)
    requires AnyMatches(m, e.patterns, topic) && topic != ""
    ensures Reaches(m, true, s) && Stuck(s, 0)
  {
    s := Called(m, e, Packet(topic, Some(Properties(None))));
    s := Takes(m, true, s, HandlerWrites(0, op));
  }
}
