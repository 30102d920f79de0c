/**
 client/router.go with its read-write lock and with handlers that wait: a Route
 enters, takes the read lock, snapshots, lets go and dispatches; a handler it calls
 may call AddRecipient, UnregisterHandler or Route itself any number of times, and
 the Route goes on only when the handler has returned. The router underneath is
 RouterMachine's, step for step.

 `holds` picks the other design: the read lock kept until the Route is done, as
 paho's StandardRouter does. It is there to show what letting go is for.
*/
module RouterCalls {
  import opened Wrappers
  import opened Recipients
  import M = RouterMachine
  import Runs = RouterRuns

  datatype Op = Add(entry: RouterEntry) | Remove(topic: string)

  // A goroutine waiting for the write lock, and the Route whose handler it runs
  // in, if any.
  datatype Writer = Writer(op: Op, caller: Option<nat>)

  // What the handler a Route has called is at: code of its own, a mutation it
  // waits for, or a Route it waits for.
  datatype Doing = Running | Writing | Routing(child: nat)

  datatype Incoming = Incoming(pb: Packet, session: nat)

  // `entering` are the Routes without a snapshot yet, `readers` the holders of the
  // read lock, `holder` the caller of the mutation that holds the write lock.
  datatype State = State(
    holds: bool,
    router: M.State,
    entering: map<nat, Incoming>,
    readers: set<nat>,
    writers: seq<Writer>,
    holder: Option<nat>,
    doing: map<nat, Doing>)

  function Init(holds: bool): State {
    State(holds, M.Init(), map[], {}, [], None, map[])
  }

  datatype Action =
    | EnterRoute(id: nat, pb: Packet, session: nat)
    | EnterWriter(op: Op)
    | ResetAliases
    | RLock(id: nat)
    | Snapshot(id: nat)
    | RUnlock(id: nat)
    | Resolve(id: nat)
    | Dispatch(id: nat)
    | Finish(id: nat)
    | HandlerWrites(id: nat, op: Op)
    | HandlerRoutes(id: nat, child: nat, pb: Packet, session: nat)
    | CallReturns(id: nat)
    | HandlerReturns(id: nat)
    | Acquire(k: nat)
    | AppendEntry(spare: nat)
    | CopyNext
    | Publish

  predicate Known(s: State, id: nat) {
    id in s.entering || id in s.router.routes
  }

  predicate Returned(s: State, id: nat) {
    id in s.router.routes && (s.router.routes[id].phase.Done? || s.router.routes[id].phase.Dropped?)
  }

  // The Route may go on: it is not inside its read lock, unless it keeps that, and
  // not inside a handler.
  predicate Free(s: State, id: nat) {
    id !in s.doing && (s.holds || id !in s.readers)
  }

  predicate InHandler(s: State, id: nat) {
    id in s.doing && s.doing[id].Running?
  }

  predicate InWrite(s: State, id: nat) {
    id in s.doing && s.doing[id].Writing?
  }

  function CallsMade(r: M.State, id: nat): nat {
    if id in r.routes && r.routes[id].phase.Dispatching? then |r.routes[id].phase.calls| else 0
  }

  function Begin(op: Op): M.Action {
    match op
    case Add(entry) => M.BeginAdd(entry)
    case Remove(topic) => M.BeginRemove(topic)
  }

  // Calls are numbered as they arrive: a Route called from a handler has a higher
  // number than the one that called the handler.
  function Step(m: Matcher, s: State, a: Action): State {
    match a
    case EnterRoute(id, pb, session) =>
      if Known(s, id) then s else s.(entering := s.entering[id := Incoming(pb, session)])
    case EnterWriter(op) => s.(writers := s.writers + [Writer(op, None)])
    case ResetAliases => s.(router := M.Step(m, s.router, M.ResetAliases))
    case RLock(id) =>
      if id !in s.entering || id in s.readers || !s.router.lock.Free? then s else s.(readers := s.readers + {id})
    case Snapshot(id) =>
      if id !in s.readers || id !in s.entering then s else
      var call := s.entering[id];
      s.(router := M.Step(m, s.router, M.Snapshot(id, call.pb, call.session)), entering := s.entering - {id})
    case RUnlock(id) =>
      if id !in s.readers || id in s.entering || (s.holds && !Returned(s, id)) then s
      else s.(readers := s.readers - {id})
    case Resolve(id) => if !Free(s, id) then s else s.(router := M.Step(m, s.router, M.Resolve(id)))
    case Dispatch(id) =>
      if !Free(s, id) then s else
      var router := M.Step(m, s.router, M.Dispatch(id));
      s.(router := router,
         doing := if CallsMade(router, id) > CallsMade(s.router, id) then s.doing[id := Running] else s.doing)
    case Finish(id) => if !Free(s, id) then s else s.(router := M.Step(m, s.router, M.Finish(id)))
    case HandlerWrites(id, op) =>
      if !InHandler(s, id) then s
      else s.(writers := s.writers + [Writer(op, Some(id))], doing := s.doing[id := Writing])
    case HandlerRoutes(id, child, pb, session) =>
      if !InHandler(s, id) || child <= id || Known(s, child) then s
      else s.(entering := s.entering[child := Incoming(pb, session)], doing := s.doing[id := Routing(child)])
    case CallReturns(id) =>
      if id !in s.doing || !s.doing[id].Routing? || !Returned(s, s.doing[id].child) then s
      else s.(doing := s.doing[id := Running])
    case HandlerReturns(id) => if !InHandler(s, id) then s else s.(doing := s.doing - {id})
    case Acquire(k) =>
      if k >= |s.writers| || !s.router.lock.Free? || s.readers != {} then s else
      var w := s.writers[k];
      s.(router := M.Step(m, s.router, Begin(w.op)),
         writers := s.writers[..k] + s.writers[k + 1..], holder := w.caller)
    case AppendEntry(spare) => s.(router := M.Step(m, s.router, M.AppendEntry(spare)))
    case CopyNext => s.(router := M.Step(m, s.router, M.CopyNext))
    case Publish =>
      var router := M.Step(m, s.router, M.Publish);
      if s.router.lock.Free? || !router.lock.Free? then s else
      s.(router := router, holder := None,
         doing := if s.holder.Some? && InWrite(s, s.holder.value) then s.doing[s.holder.value := Running] else s.doing)
  }

  function Exec(m: Matcher, s: State, actions: seq<Action>): State {
    if actions == [] then s
    else Step(m, Exec(m, s, actions[..|actions| - 1]), actions[|actions| - 1])
  }

  lemma ExecLast(m: Matcher, s: State, actions: seq<Action>, a: Action)
    ensures Exec(m, s, actions + [a]) == Step(m, Exec(m, s, actions), a)
  {
    assert (actions + [a])[..|actions|] == actions;
  }

  // ----- The router underneath -----

  // The step of RouterMachine an action makes, if it makes one.
  function RouterAction(s: State, a: Action): Option<M.Action> {
    match a
    case ResetAliases => Some(M.ResetAliases)
    case Snapshot(id) =>
      if id !in s.entering then None else Some(M.Snapshot(id, s.entering[id].pb, s.entering[id].session))
    case Resolve(id) => Some(M.Resolve(id))
    case Dispatch(id) => Some(M.Dispatch(id))
    case Finish(id) => Some(M.Finish(id))
    case Acquire(k) => if k < |s.writers| then Some(Begin(s.writers[k].op)) else None
    case AppendEntry(spare) => Some(M.AppendEntry(spare))
    case CopyNext => Some(M.CopyNext)
    case Publish => Some(M.Publish)
    case _ => None
  }

  lemma RouterMoves(m: Matcher, s: State, a: Action)
    ensures Step(m, s, a).router == s.router
      || (RouterAction(s, a).Some? && Step(m, s, a).router == M.Step(m, s.router, RouterAction(s, a).value))
  {
  }

  ghost predicate RouterLeads(m: Matcher, r: M.State, r': M.State) {
    exists actions :: M.Exec(m, r, actions) == r'
  }

  lemma RouterSteps(m: Matcher, r: M.State, s: State, a: Action)
    requires RouterLeads(m, r, s.router)
    ensures RouterLeads(m, r, Step(m, s, a).router)
  {
    var s' := Step(m, s, a);
    RouterMoves(m, s, a);
    if s'.router != s.router {
      var before :| M.Exec(m, r, before) == s.router;
      var b := RouterAction(s, a).value;
      assert (before + [b])[..|before|] == before;
      assert M.Exec(m, r, before + [b]) == s'.router;
    }
  }

  // With locks and waiting handlers the router does nothing that it does not do in
  // some execution of RouterMachine: everything proved of those holds here.
  lemma {:induction false} LockedRouterIsTheRouter(m: Matcher, s: State, actions: seq<Action>)
    ensures RouterLeads(m, s.router, Exec(m, s, actions).router)
  {
    if actions == [] {
      assert M.Exec(m, s.router, []) == s.router;
    } else {
      var n := |actions| - 1;
      LockedRouterIsTheRouter(m, s, actions[..n]);
      RouterSteps(m, s.router, Exec(m, s, actions[..n]), actions[n]);
    }
  }

  // ----- The invariant -----

  // Readers and a writer exclude each other.
  predicate LocksOk(s: State) {
    && (s.readers != {} ==> s.router.lock.Free?)
    && (s.router.lock.Free? ==> s.holder.None?)
  }

  predicate CallsOk(s: State) {
    && !s.holds
    && (forall id | id in s.entering :: id !in s.router.routes)
    && (forall id | id in s.readers ::
          id in s.entering || (id in s.router.routes && s.router.routes[id].phase.Snapped?))
  }

  predicate Waits(s: State, id: nat) {
    s.holder == Some(id) || exists k | 0 <= k < |s.writers| :: s.writers[k].caller == Some(id)
  }

  predicate DoingOk(s: State, id: nat, d: Doing) {
    && id in s.router.routes && s.router.routes[id].phase.Dispatching?
    && (d.Writing? ==> Waits(s, id))
    && (d.Routing? ==> id < d.child && Known(s, d.child))
  }

  predicate HandlersOk(s: State) {
    forall id | id in s.doing :: DoingOk(s, id, s.doing[id])
  }

  ghost predicate Inv(m: Matcher, s: State) {
    M.Inv(m, s.router) && LocksOk(s) && CallsOk(s) && HandlersOk(s)
  }

  lemma InitOk(m: Matcher)
    ensures Inv(m, Init(false))
  {
    Runs.InitOk(m);
  }

  // What a step of the router does to its lock and its routes.
  lemma RouterShape(m: Matcher, r: M.State, b: M.Action)
    ensures var r' := M.Step(m, r, b);
      && (r'.lock.Free? != r.lock.Free? ==> if r.lock.Free? then b.BeginAdd? || b.BeginRemove? else b.Publish?)
      && (forall id | id in r.routes :: id in r'.routes && (r'.routes[id] == r.routes[id]
            || ((b.Resolve? || b.Dispatch? || b.Finish?) && b.id == id)))
      && (forall id | id in r'.routes && id !in r.routes :: b.Snapshot? && b.id == id)
  {
  }

  lemma RouteMoves(m: Matcher, r: M.State, b: M.Action)
    requires b.Resolve? || b.Dispatch? || b.Finish?
    ensures var r' := M.Step(m, r, b);
      && r'.lock == r.lock && r'.routes.Keys == r.routes.Keys
      && (b.id in r.routes && r.routes[b.id].phase.Snapped? && !b.Resolve? ==> r'.routes == r.routes)
      && (b.id in r.routes && b.Dispatch? && r.routes[b.id].phase.Dispatching? ==> r'.routes[b.id].phase.Dispatching?)
  {
  }

  lemma SnapshotMoves(m: Matcher, r: M.State, b: M.Action)
    requires b.Snapshot? && r.lock.Free? && b.id !in r.routes
    ensures var r' := M.Step(m, r, b);
      r'.lock == r.lock && r'.routes == r.routes[b.id := M.Route(b.pb, b.session, r.entries, |r.hist|, M.Snapped)]
  {
  }

  lemma WriterMoves(m: Matcher, r: M.State, b: M.Action)
    requires b.BeginAdd? || b.BeginRemove? || b.AppendEntry? || b.CopyNext? || b.Publish? || b.ResetAliases?
    ensures M.Step(m, r, b).routes == r.routes
    ensures (b.BeginAdd? || b.BeginRemove?) ==> !M.Step(m, r, b).lock.Free?
    ensures b.AppendEntry? || b.CopyNext? || b.ResetAliases? ==> (M.Step(m, r, b).lock.Free? <==> r.lock.Free?)
  {
  }

  // ----- Every step keeps it -----

  lemma StepKeepsLocks(m: Matcher, s: State, a: Action)
    requires Inv(m, s)
    ensures LocksOk(Step(m, s, a))
  {
    RouterMoves(m, s, a);
    if RouterAction(s, a).Some? {
      RouterShape(m, s.router, RouterAction(s, a).value);
    }
    if a.Acquire? && a.k < |s.writers| {
      WriterMoves(m, s.router, Begin(s.writers[a.k].op));
    }
  }

  lemma KnownStays(m: Matcher, s: State, a: Action, id: nat)
    requires Inv(m, s) && Known(s, id)
    ensures Known(Step(m, s, a), id)
  {
    RouterMoves(m, s, a);
    if RouterAction(s, a).Some? {
      RouterShape(m, s.router, RouterAction(s, a).value);
    }
    if a.Snapshot? && a.id in s.readers && a.id in s.entering {
      SnapshotMoves(m, s.router, RouterAction(s, a).value);
    }
  }

  // Routes without a snapshot stay out of the router, and readers at its door.
  lemma CallsAfterRouting(s: State, s': State, id: nat)
    requires CallsOk(s) && s'.holds == s.holds && s'.entering == s.entering && s'.readers == s.readers
    requires s'.router.routes.Keys == s.router.routes.Keys
    requires forall j | j in s.router.routes && j != id :: s'.router.routes[j] == s.router.routes[j]
    requires id in s.readers ==> s'.router.routes == s.router.routes
    ensures CallsOk(s')
  {
  }

  lemma RoutingKeepsCalls(m: Matcher, s: State, a: Action)
    requires CallsOk(s) && (a.Resolve? || a.Dispatch? || a.Finish?)
    ensures CallsOk(Step(m, s, a))
  {
    RouteMoves(m, s.router, RouterAction(s, a).value);
    RouterShape(m, s.router, RouterAction(s, a).value);
    CallsAfterRouting(s, Step(m, s, a), a.id);
  }

  lemma SnapshotKeepsCalls(m: Matcher, s: State, id: nat)
    requires Inv(m, s)
    ensures CallsOk(Step(m, s, Snapshot(id)))
  {
    if id in s.readers && id in s.entering {
      SnapshotMoves(m, s.router, RouterAction(s, Snapshot(id)).value);
    }
  }

  lemma WritersKeepCalls(m: Matcher, s: State, a: Action)
    requires CallsOk(s) && (a.Acquire? || a.AppendEntry? || a.CopyNext? || a.Publish? || a.ResetAliases?)
    ensures CallsOk(Step(m, s, a))
  {
    if RouterAction(s, a).Some? {
      WriterMoves(m, s.router, RouterAction(s, a).value);
    }
  }

  lemma StepKeepsCalls(m: Matcher, s: State, a: Action)
    requires Inv(m, s)
    ensures CallsOk(Step(m, s, a))
  {
    if a.Resolve? || a.Dispatch? || a.Finish? {
      RoutingKeepsCalls(m, s, a);
    } else if a.Snapshot? {
      SnapshotKeepsCalls(m, s, a.id);
    } else if RouterAction(s, a).Some? || a.Acquire? {
      WritersKeepCalls(m, s, a);
    }
  }

  // The handlers of other Routes are as they were, and so is that of this one
  // unless the Route has just called it.
  lemma HandlersAfterDispatch(s: State, s': State, id: nat)
    requires HandlersOk(s) && s'.entering == s.entering && s'.writers == s.writers && s'.holder == s.holder
    requires s'.router.routes.Keys == s.router.routes.Keys
    requires forall j | j in s.router.routes && j != id :: s'.router.routes[j] == s.router.routes[j]
    requires s'.doing == s.doing || s'.doing == s.doing[id := Running]
    requires id in s'.doing ==> id in s'.router.routes && s'.router.routes[id].phase.Dispatching?
    ensures HandlersOk(s')
  {
    forall j | j in s'.doing
      ensures DoingOk(s', j, s'.doing[j])
    {
      assert j in s.doing ==> DoingOk(s, j, s.doing[j]);
    }
  }

  lemma DispatchKeepsHandlers(m: Matcher, s: State, id: nat)
    requires HandlersOk(s)
    ensures HandlersOk(Step(m, s, Dispatch(id)))
  {
    if Free(s, id) {
      RouterShape(m, s.router, M.Dispatch(id));
      RouteMoves(m, s.router, M.Dispatch(id));
      HandlersAfterDispatch(s, Step(m, s, Dispatch(id)), id);
    }
  }

  lemma RouteStepKeepsHandlers(m: Matcher, s: State, a: Action)
    requires HandlersOk(s) && (a.Resolve? || a.Finish?)
    ensures HandlersOk(Step(m, s, a))
  {
    if Free(s, a.id) {
      RouterShape(m, s.router, RouterAction(s, a).value);
      RouteMoves(m, s.router, RouterAction(s, a).value);
      HandlersAfterDispatch(s, Step(m, s, a), a.id);
    }
  }

  // A Route has gone from the door into the router.
  lemma HandlersAfterSnapshot(s: State, s': State, id: nat)
    requires HandlersOk(s) && s'.writers == s.writers && s'.holder == s.holder && s'.doing == s.doing
    requires s'.entering == s.entering - {id} && id in s'.router.routes
    requires forall j | j in s.router.routes :: j in s'.router.routes && s'.router.routes[j] == s.router.routes[j]
    ensures HandlersOk(s')
  {
    forall j | j in s'.doing
      ensures DoingOk(s', j, s'.doing[j])
    {
      assert DoingOk(s, j, s.doing[j]);
    }
  }

  lemma SnapshotKeepsHandlers(m: Matcher, s: State, id: nat)
    requires Inv(m, s)
    ensures HandlersOk(Step(m, s, Snapshot(id)))
  {
    if id in s.readers && id in s.entering {
      SnapshotMoves(m, s.router, RouterAction(s, Snapshot(id)).value);
      HandlersAfterSnapshot(s, Step(m, s, Snapshot(id)), id);
    }
  }

  lemma HolderStepKeepsHandlers(m: Matcher, s: State, a: Action)
    requires Inv(m, s) && (a.AppendEntry? || a.CopyNext? || a.ResetAliases?)
    ensures HandlersOk(Step(m, s, a))
  {
    var s' := Step(m, s, a);
    WriterMoves(m, s.router, RouterAction(s, a).value);
    forall id | id in s'.doing
      ensures DoingOk(s', id, s'.doing[id])
    {
      assert DoingOk(s, id, s.doing[id]);
    }
  }

  lemma HandlersAfterPublish(s: State, s': State)
    requires HandlersOk(s) && s'.entering == s.entering && s'.writers == s.writers && s'.holder.None?
    requires s'.router.routes == s.router.routes
    requires s'.doing ==
      if s.holder.Some? && InWrite(s, s.holder.value) then s.doing[s.holder.value := Running] else s.doing
    ensures HandlersOk(s')
  {
    forall id | id in s'.doing
      ensures DoingOk(s', id, s'.doing[id])
    {
      assert DoingOk(s, id, s.doing[id]);
    }
  }

  lemma PublishKeepsHandlers(m: Matcher, s: State)
    requires HandlersOk(s)
    ensures HandlersOk(Step(m, s, Publish))
  {
    WriterMoves(m, s.router, M.Publish);
    if !s.router.lock.Free? && M.Step(m, s.router, M.Publish).lock.Free? {
      HandlersAfterPublish(s, Step(m, s, Publish));
    }
  }

  lemma WaitingGoesOn(writers: seq<Writer>, k: nat, id: nat)
    requires k < |writers| && exists j | 0 <= j < |writers| :: writers[j].caller == Some(id)
    ensures var left := writers[..k] + writers[k + 1..];
      writers[k].caller == Some(id) || exists j | 0 <= j < |left| :: left[j].caller == Some(id)
  {
    var j :| 0 <= j < |writers| && writers[j].caller == Some(id);
    var left := writers[..k] + writers[k + 1..];
    if j < k {
      assert left[j] == writers[j];
    } else if j > k {
      assert left[j - 1] == writers[j];
    }
  }

  lemma HandlersAfterAcquire(s: State, s': State, k: nat)
    requires HandlersOk(s) && s.holder.None? && k < |s.writers|
    requires s'.entering == s.entering && s'.doing == s.doing && s'.router.routes == s.router.routes
    requires s'.writers == s.writers[..k] + s.writers[k + 1..] && s'.holder == s.writers[k].caller
    ensures HandlersOk(s')
  {
    forall id | id in s'.doing
      ensures DoingOk(s', id, s'.doing[id])
    {
      assert DoingOk(s, id, s.doing[id]);
      if s.doing[id].Writing? {
        WaitingGoesOn(s.writers, k, id);
      }
    }
  }

  lemma AcquireKeepsHandlers(m: Matcher, s: State, k: nat)
    requires LocksOk(s) && HandlersOk(s)
    ensures HandlersOk(Step(m, s, Acquire(k)))
  {
    if k < |s.writers| && s.router.lock.Free? && s.readers == {} {
      WriterMoves(m, s.router, Begin(s.writers[k].op));
      HandlersAfterAcquire(s, Step(m, s, Acquire(k)), k);
    }
  }

  lemma HandlersAfterAsking(s: State, s': State, id: nat, w: Writer)
    requires HandlersOk(s) && id in s.doing && w.caller == Some(id)
    requires s'.router == s.router && s'.entering == s.entering && s'.holder == s.holder
    requires s'.writers == s.writers + [w] && s'.doing == s.doing[id := Writing]
    ensures HandlersOk(s')
  {
    assert s'.writers[|s.writers|].caller == Some(id);
    forall j | j in s'.doing
      ensures DoingOk(s', j, s'.doing[j])
    {
      assert DoingOk(s, j, s.doing[j]);
      if s.doing[j].Writing? {
        WaitsOnceMore(s, s', j, w);
      }
    }
  }

  lemma HandlerWritesKeepsHandlers(m: Matcher, s: State, id: nat, op: Op)
    requires HandlersOk(s)
    ensures HandlersOk(Step(m, s, HandlerWrites(id, op)))
  {
    if InHandler(s, id) {
      HandlersAfterAsking(s, Step(m, s, HandlerWrites(id, op)), id, Writer(op, Some(id)));
    }
  }

  lemma WaitsOnceMore(s: State, s': State, id: nat, w: Writer)
    requires Waits(s, id) && s'.holder == s.holder && s'.writers == s.writers + [w]
    ensures Waits(s', id)
  {
    if s.holder != Some(id) {
      var k :| 0 <= k < |s.writers| && s.writers[k].caller == Some(id);
      assert s'.writers[k] == s.writers[k];
    }
  }

  lemma EnterWriterKeepsHandlers(m: Matcher, s: State, op: Op)
    requires Inv(m, s)
    ensures HandlersOk(Step(m, s, EnterWriter(op)))
  {
    var s' := Step(m, s, EnterWriter(op));
    forall j | j in s'.doing
      ensures DoingOk(s', j, s'.doing[j])
    {
      assert DoingOk(s, j, s.doing[j]);
      if s.doing[j].Writing? {
        WaitsOnceMore(s, s', j, Writer(op, None));
      }
    }
  }

  // Calls may have entered, and the handler of one Route may have moved on.
  lemma HandlersAfterEntry(s: State, s': State, id: nat)
    requires HandlersOk(s) && s'.router == s.router && s'.writers == s.writers && s'.holder == s.holder
    requires s.entering.Keys <= s'.entering.Keys && s'.doing.Keys <= s.doing.Keys
    requires forall j | j in s'.doing && j != id :: s'.doing[j] == s.doing[j]
    requires id in s'.doing ==>
      || s'.doing[id] == s.doing[id] || s'.doing[id].Running?
      || (s'.doing[id].Routing? && id < s'.doing[id].child && Known(s', s'.doing[id].child))
    ensures HandlersOk(s')
  {
    forall j | j in s'.doing
      ensures DoingOk(s', j, s'.doing[j])
    {
      assert DoingOk(s, j, s.doing[j]);
    }
  }

  lemma EntryKeepsHandlers(m: Matcher, s: State, a: Action)
    requires HandlersOk(s)
    requires a.EnterRoute? || a.HandlerRoutes? || a.CallReturns? || a.HandlerReturns? || a.RLock? || a.RUnlock?
    ensures HandlersOk(Step(m, s, a))
  {
    HandlersAfterEntry(s, Step(m, s, a), a.id);
  }

  lemma StepKeepsHandlers(m: Matcher, s: State, a: Action)
    requires Inv(m, s)
    ensures HandlersOk(Step(m, s, a))
  {
    match a {
      case Dispatch(id) => DispatchKeepsHandlers(m, s, id);
      case Resolve(_) => RouteStepKeepsHandlers(m, s, a);
      case Finish(_) => RouteStepKeepsHandlers(m, s, a);
      case Snapshot(id) => SnapshotKeepsHandlers(m, s, id);
      case Acquire(k) => AcquireKeepsHandlers(m, s, k);
      case AppendEntry(_) => HolderStepKeepsHandlers(m, s, a);
      case CopyNext => HolderStepKeepsHandlers(m, s, a);
      case ResetAliases => HolderStepKeepsHandlers(m, s, a);
      case Publish => PublishKeepsHandlers(m, s);
      case EnterWriter(op) => EnterWriterKeepsHandlers(m, s, op);
      case HandlerWrites(id, op) => HandlerWritesKeepsHandlers(m, s, id, op);
      case _ => EntryKeepsHandlers(m, s, a);
    }
  }

  lemma StepKeepsInv(m: Matcher, s: State, a: Action)
    requires Inv(m, s)
    ensures Inv(m, Step(m, s, a))
  {
    RouterMoves(m, s, a);
    if Step(m, s, a).router != s.router {
      M.StepKeepsInv(m, s.router, RouterAction(s, a).value);
    }
    StepKeepsLocks(m, s, a);
    StepKeepsCalls(m, s, a);
    StepKeepsHandlers(m, s, a);
  }

  lemma {:induction false} Reachable(m: Matcher, actions: seq<Action>)
    ensures Inv(m, Exec(m, Init(false), actions))
  {
    if actions == [] {
      InitOk(m);
    } else {
      var n := |actions| - 1;
      Reachable(m, actions[..n]);
      StepKeepsInv(m, Exec(m, Init(false), actions[..n]), actions[n]);
    }
  }

  lemma {:induction false} ExecConcat(m: Matcher, s: State, a: seq<Action>, b: seq<Action>)
    ensures Exec(m, s, a + b) == Exec(m, Exec(m, s, a), b)
  {
    if b == [] {
      assert a + b == a;
    } else {
      ExecConcat(m, s, a, b[..|b| - 1]);
      assert (a + b)[..|a + b| - 1] == a + b[..|b| - 1];
    }
  }

  // Every Route, whoever called it, is linearised at its own snapshot step: once
  // done it has made exactly the calls its topic calls for in the list committed
  // when that step ran, and until then a prefix of them.
  lemma EveryRouteLinearizes(m: Matcher, pre: seq<Action>, id: nat, post: seq<Action>)
    requires var s := Exec(m, Init(false), pre);
      id in s.readers && id in s.entering
    ensures var s := Exec(m, Init(false), pre);
      Runs.Linearized(m, s.router, Exec(m, Init(false), pre + [Snapshot(id)] + post).router,
                      id, s.entering[id].pb, s.entering[id].session)
  {
    var s := Exec(m, Init(false), pre);
    var taken := Step(m, s, Snapshot(id));
    Reachable(m, pre);
    StepKeepsInv(m, s, Snapshot(id));
    SnapshotMoves(m, s.router, RouterAction(s, Snapshot(id)).value);
    SnapshotAddsNothing(m, s.router, id, s.entering[id].pb, s.entering[id].session);
    ExecLast(m, Init(false), pre, Snapshot(id));
    ExecConcat(m, Init(false), pre + [Snapshot(id)], post);
    LockedRouterIsTheRouter(m, taken, post);
    var actions :| M.Exec(m, taken.router, actions) == Exec(m, taken, post).router;
    Runs.LinearizesFrom(m, s.router, taken.router, id, actions);
  }

  lemma SnapshotAddsNothing(m: Matcher, r: M.State, id: nat, pb: Packet, session: nat)
    ensures M.Step(m, r, M.Snapshot(id, pb, session)).hist == r.hist
  {
  }

  // ----- Calls keep what they were made with -----

  function Count<T(==)>(xs: seq<T>, x: T): nat {
    if xs == [] then 0 else Count(xs[..|xs| - 1], x) + if xs[|xs| - 1] == x then 1 else 0
  }

  lemma {:induction false} CountConcat<T>(a: seq<T>, b: seq<T>, x: T)
    ensures Count(a + b, x) == Count(a, x) + Count(b, x)
  {
    if b == [] {
      assert a + b == a;
    } else {
      var n := |b| - 1;
      CountConcat(a, b[..n], x);
      assert (a + b)[..|a + b| - 1] == a + b[..n];
    }
  }

  lemma CountOne<T>(y: T, x: T)
    ensures Count([y], x) == if y == x then 1 else 0
  {
    assert [y][..0] == [];
  }

  lemma CountAllBut<T>(xs: seq<T>, k: nat, x: T)
    requires k < |xs|
    ensures Count(xs, x) == Count(xs[..k] + xs[k + 1..], x) + if xs[k] == x then 1 else 0
  {
    CountConcat(xs[..k], xs[k..], x);
    CountConcat([xs[k]], xs[k + 1..], x);
    CountConcat(xs[..k], xs[k + 1..], x);
    CountOne(xs[k], x);
    assert xs == xs[..k] + xs[k..] && xs[k..] == [xs[k]] + xs[k + 1..];
  }

  function CalledBy(s: State, a: Action): seq<Op> {
    match a
    case EnterWriter(op) => [op]
    case HandlerWrites(id, op) => if InHandler(s, id) then [op] else []
    case _ => []
  }

  // The operations the router has been asked for.
  function Called(m: Matcher, actions: seq<Action>): seq<Op> {
    if actions == [] then []
    else
      var n := |actions| - 1;
      Called(m, actions[..n]) + CalledBy(Exec(m, Init(false), actions[..n]), actions[n])
  }

  function Waiting(writers: seq<Writer>): seq<Op> {
    seq(|writers|, k requires 0 <= k < |writers| => writers[k].op)
  }

  function EventOf(op: Op): M.Event {
    match op
    case Add(entry) => M.Added(entry)
    case Remove(topic) => M.Removed(topic)
  }

  // How often an operation is waiting for the lock, under way or committed.
  function Account(s: State, op: Op): nat {
    Count(Waiting(s.writers), op) + Count(Runs.Asked(s.router), EventOf(op))
  }

  lemma OneWaitingLess(writers: seq<Writer>, k: nat, op: Op)
    requires k < |writers|
    ensures Count(Waiting(writers), op) ==
      Count(Waiting(writers[..k] + writers[k + 1..]), op) + if writers[k].op == op then 1 else 0
  {
    CountAllBut(Waiting(writers), k, op);
    assert Waiting(writers[..k] + writers[k + 1..]) == Waiting(writers)[..k] + Waiting(writers)[k + 1..];
  }

  lemma OneAskedMore(m: Matcher, r: M.State, mine: Op, op: Op)
    requires r.lock.Free?
    ensures Count(Runs.Asked(M.Step(m, r, Begin(mine))), EventOf(op)) ==
      Count(Runs.Asked(r), EventOf(op)) + if mine == op then 1 else 0
  {
    Runs.OthersKeepTheAsked(m, r, Begin(mine));
    CountConcat(Runs.Asked(r), [EventOf(mine)], EventOf(op));
    CountOne(EventOf(mine), EventOf(op));
  }

  lemma AcquireKeepsAccount(m: Matcher, s: State, k: nat, op: Op)
    ensures Account(Step(m, s, Acquire(k)), op) == Account(s, op)
  {
    if k < |s.writers| && s.router.lock.Free? && s.readers == {} {
      OneAskedMore(m, s.router, s.writers[k].op, op);
      OneWaitingLess(s.writers, k, op);
      assert Step(m, s, Acquire(k)).router == M.Step(m, s.router, Begin(s.writers[k].op));
      assert Step(m, s, Acquire(k)).writers == s.writers[..k] + s.writers[k + 1..];
    }
  }

  lemma RouterStepKeepsAccount(m: Matcher, s: State, a: Action)
    requires !a.Acquire? && Step(m, s, a).router != s.router
    ensures Runs.Asked(Step(m, s, a).router) == Runs.Asked(s.router)
  {
    RouterMoves(m, s, a);
    if a.Publish? {
      Runs.PublishCommitsTheHeld(m, s.router);
    } else {
      Runs.OthersKeepTheAsked(m, s.router, RouterAction(s, a).value);
    }
  }

  lemma OneWaitingMore(writers: seq<Writer>, w: Writer, op: Op)
    ensures Count(Waiting(writers + [w]), op) == Count(Waiting(writers), op) + Count([w.op], op)
  {
    assert Waiting(writers + [w]) == Waiting(writers) + [w.op];
    CountConcat(Waiting(writers), [w.op], op);
  }

  lemma OthersKeepAccount(m: Matcher, s: State, a: Action, op: Op)
    requires !a.Acquire? && !a.EnterWriter? && !a.HandlerWrites?
    ensures Account(Step(m, s, a), op) == Account(s, op)
  {
    if Step(m, s, a).router != s.router {
      RouterStepKeepsAccount(m, s, a);
    }
  }

  lemma StepKeepsAccount(m: Matcher, s: State, a: Action, op: Op)
    ensures Account(Step(m, s, a), op) == Account(s, op) + Count(CalledBy(s, a), op)
  {
    match a {
      case Acquire(k) => AcquireKeepsAccount(m, s, k, op);
      case EnterWriter(asked) => OneWaitingMore(s.writers, Writer(asked, None), op);
      case HandlerWrites(id, asked) => OneWaitingMore(s.writers, Writer(asked, Some(id)), op);
      case _ => OthersKeepAccount(m, s, a, op);
    }
  }

  // Every AddRecipient and UnregisterHandler that was called is waiting, under way
  // or committed, once, with the arguments it was called with; and nothing else is.
  lemma {:induction false} CallsAreConserved(m: Matcher, actions: seq<Action>, op: Op)
    ensures Count(Called(m, actions), op) == Account(Exec(m, Init(false), actions), op)
  {
    if actions != [] {
      var n := |actions| - 1;
      var s := Exec(m, Init(false), actions[..n]);
      CallsAreConserved(m, actions[..n], op);
      StepKeepsAccount(m, s, actions[n], op);
      CountConcat(Called(m, actions[..n]), CalledBy(s, actions[n]), op);
    }
  }

  // Call id of Route is for this packet of this session.
  predicate IsFor(s: State, id: nat, pb: Packet, session: nat) {
    if id in s.entering then s.entering[id] == Incoming(pb, session)
    else id in s.router.routes && s.router.routes[id].pb == pb && s.router.routes[id].session == session
  }

  lemma RouteKeepsPacket(m: Matcher, s: State, a: Action, id: nat, pb: Packet, session: nat)
    requires id in s.router.routes && id !in s.entering && IsFor(s, id, pb, session)
    ensures IsFor(Step(m, s, a), id, pb, session)
  {
    RouterMoves(m, s, a);
    if Step(m, s, a).router != s.router {
      Runs.CallPersists(m, s.router, RouterAction(s, a).value, id);
    }
  }

  lemma EnteringKeepsPacket(m: Matcher, s: State, a: Action, id: nat, pb: Packet, session: nat)
    requires Inv(m, s) && id in s.entering && IsFor(s, id, pb, session)
    ensures IsFor(Step(m, s, a), id, pb, session)
  {
    if a.Snapshot? && a.id in s.readers && a.id in s.entering {
      SnapshotMoves(m, s.router, RouterAction(s, a).value);
    }
  }

  lemma StepKeepsPacket(m: Matcher, s: State, a: Action, id: nat, pb: Packet, session: nat)
    requires Inv(m, s) && IsFor(s, id, pb, session)
    ensures IsFor(Step(m, s, a), id, pb, session)
  {
    if id in s.entering {
      EnteringKeepsPacket(m, s, a, id, pb, session);
    } else {
      RouteKeepsPacket(m, s, a, id, pb, session);
    }
  }

  lemma {:induction false} ExecKeepsPacket(m: Matcher, s: State, actions: seq<Action>, id: nat, pb: Packet,
                                         session: nat)
    requires Inv(m, s) && IsFor(s, id, pb, session)
    ensures Inv(m, Exec(m, s, actions)) && IsFor(Exec(m, s, actions), id, pb, session)
  {
    if actions != [] {
      var n := |actions| - 1;
      ExecKeepsPacket(m, s, actions[..n], id, pb, session);
      StepKeepsInv(m, Exec(m, s, actions[..n]), actions[n]);
      StepKeepsPacket(m, Exec(m, s, actions[..n]), actions[n], id, pb, session);
    }
  }

  // A new call of Route, from outside or from a handler, is for the packet it was
  // made with to the end of any execution.
  lemma RouteKeepsItsPacket(m: Matcher, pre: seq<Action>, a: Action, post: seq<Action>, id: nat)
    requires (a.EnterRoute? && a.id == id) || (a.HandlerRoutes? && a.child == id)
    requires !Known(Exec(m, Init(false), pre), id) && Known(Step(m, Exec(m, Init(false), pre), a), id)
    ensures IsFor(Exec(m, Init(false), pre + [a] + post), id, a.pb, a.session)
  {
    var s := Exec(m, Init(false), pre);
    Reachable(m, pre);
    StepKeepsInv(m, s, a);
    ExecLast(m, Init(false), pre, a);
    ExecConcat(m, Init(false), pre + [a], post);
    ExecKeepsPacket(m, Step(m, s, a), post, id, a.pb, a.session);
  }
}
