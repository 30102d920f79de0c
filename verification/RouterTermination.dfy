/**
 What has begun in RouterCalls not only can end: it does, in whatever order its
 steps are taken, once nobody calls the router anew.
*/
module RouterTermination {
  import opened Wrappers
  import opened Recipients
  import opened RouterCalls
  import opened RouterProgress
  import M = RouterMachine

  // ----- What is left to do -----

  // Compared from the left: Routes without a snapshot, writers, the mutation that
  // holds the lock, and dispatching.
  datatype Measure = Measure(outside: nat, writing: nat, holding: nat, routing: nat)

  predicate Less(a: Measure, b: Measure) {
    || a.outside < b.outside
    || (a.outside == b.outside
        && (|| a.writing < b.writing
            || (a.writing == b.writing
                && (a.holding < b.holding || (a.holding == b.holding && a.routing < b.routing)))))
  }

  function PhaseLeft(r: M.Route): nat {
    match r.phase
    case Snapped => 2 + 3 * r.header.len
    case Dispatching(_, _, next, _) => 1 + 3 * Minus(r.header.len, next)
    case _ => 0
  }

  function HandlerLeft(d: Doing): nat {
    if d.Routing? then 2 else 1
  }

  function RouteLeft(s: State, id: nat): nat {
    (if id in s.router.routes then PhaseLeft(s.router.routes[id]) else 0)
    + if id in s.doing then HandlerLeft(s.doing[id]) else 0
  }

  function RoutesLeft(s: State, bound: nat): nat {
    if bound == 0 then 0 else RoutesLeft(s, bound - 1) + RouteLeft(s, bound - 1)
  }

  function MeasureOf(s: State, bound: nat): Measure {
    Measure(|s.entering.Keys - s.readers| + |s.entering.Keys|,
            2 * |s.writers| + if s.router.lock.Free? then 0 else 1,
            Holding(s.router),
            |s.readers| + RoutesLeft(s, bound))
  }

  lemma {:induction false} OthersLeft(s: State, s': State, id: nat, bound: nat)
    requires forall j: nat | j != id :: RouteLeft(s', j) == RouteLeft(s, j)
    requires RouteLeft(s', id) <= RouteLeft(s, id)
    ensures RoutesLeft(s', bound) <= RoutesLeft(s, bound)
    ensures id < bound && RouteLeft(s', id) < RouteLeft(s, id) ==> RoutesLeft(s', bound) < RoutesLeft(s, bound)
  {
    if bound > 0 {
      OthersLeft(s, s', id, bound - 1);
    }
  }

  // ----- Every step of what has begun lowers it -----

  lemma FewerOutside(keys: set<nat>, readers: set<nat>, id: nat)
    requires id in keys
    ensures id !in readers ==> |keys - (readers + {id})| < |keys - readers|
    ensures id in readers ==> |keys - {id}| < |keys| && (keys - {id}) - readers == keys - readers
  {
    if id !in readers {
      assert keys - (readers + {id}) == (keys - readers) - {id};
    }
  }

  lemma RLockFalls(m: Matcher, s: State, id: nat, bound: nat)
    requires Step(m, s, RLock(id)) != s
    ensures Less(MeasureOf(Step(m, s, RLock(id)), bound), MeasureOf(s, bound))
  {
    FewerOutside(s.entering.Keys, s.readers, id);
    assert Step(m, s, RLock(id)) == s.(readers := s.readers + {id});
  }

  lemma SnapshotFalls(m: Matcher, s: State, id: nat, bound: nat)
    requires Step(m, s, Snapshot(id)) != s
    ensures Less(MeasureOf(Step(m, s, Snapshot(id)), bound), MeasureOf(s, bound))
  {
    FewerOutside(s.entering.Keys, s.readers, id);
    assert (s.entering - {id}).Keys == s.entering.Keys - {id};
  }

  // A writer has got the lock, or has let go of it.
  lemma WriterMovedOn(s: State, s': State, bound: nat)
    requires s'.entering == s.entering && s'.readers == s.readers
    requires if s.router.lock.Free? then |s'.writers| < |s.writers|
      else s'.writers == s.writers && s'.router.lock.Free?
    ensures Less(MeasureOf(s', bound), MeasureOf(s, bound))
  {
  }

  lemma AcquireFalls(m: Matcher, s: State, k: nat, bound: nat)
    requires Step(m, s, Acquire(k)) != s
    ensures Less(MeasureOf(Step(m, s, Acquire(k)), bound), MeasureOf(s, bound))
  {
    WriterMovedOn(s, Step(m, s, Acquire(k)), bound);
  }

  lemma PublishFalls(m: Matcher, s: State, bound: nat)
    requires Step(m, s, Publish) != s
    ensures Less(MeasureOf(Step(m, s, Publish), bound), MeasureOf(s, bound))
  {
    WriterMovedOn(s, Step(m, s, Publish), bound);
  }

  lemma AppendFalls(m: Matcher, r: M.State, spare: nat)
    requires M.Step(m, r, M.AppendEntry(spare)) != r
    ensures Holding(M.Step(m, r, M.AppendEntry(spare))) < Holding(r)
  {
  }

  lemma CopyFalls(m: Matcher, r: M.State)
    requires M.Step(m, r, M.CopyNext) != r
    ensures Holding(M.Step(m, r, M.CopyNext)) < Holding(r)
  {
  }

  lemma HolderFalls(m: Matcher, s: State, a: Action, bound: nat)
    requires (a.AppendEntry? || a.CopyNext?) && Step(m, s, a) != s
    ensures Less(MeasureOf(Step(m, s, a), bound), MeasureOf(s, bound))
  {
    WriterMoves(m, s.router, RouterAction(s, a).value);
    if a.AppendEntry? {
      AppendFalls(m, s.router, a.spare);
    } else {
      CopyFalls(m, s.router);
    }
  }

  // A step of Route id alone.
  lemma RoutingFalls(s: State, s': State, id: nat, bound: nat)
    requires s'.entering == s.entering && s'.writers == s.writers && s'.readers == s.readers && id < bound
    requires s'.router.lock == s.router.lock && s'.router.entries == s.router.entries
    requires forall j: nat | j != id :: RouteLeft(s', j) == RouteLeft(s, j)
    requires RouteLeft(s', id) < RouteLeft(s, id)
    ensures Less(MeasureOf(s', bound), MeasureOf(s, bound))
  {
    OthersLeft(s, s', id, bound);
  }

  lemma PhaseFalls(m: Matcher, r: M.State, b: M.Action)
    requires (b.Resolve? || b.Dispatch? || b.Finish?) && M.Step(m, r, b) != r
    ensures b.id in r.routes && b.id in M.Step(m, r, b).routes
    ensures PhaseLeft(M.Step(m, r, b).routes[b.id]) < PhaseLeft(r.routes[b.id])
    ensures b.Dispatch? ==> PhaseLeft(M.Step(m, r, b).routes[b.id]) + 2 < PhaseLeft(r.routes[b.id])
  {
  }

  // Route id has moved on, and may have called a handler if it had none.
  lemma OneRouteMoved(s: State, s': State, id: nat)
    requires s'.router.routes.Keys == s.router.routes.Keys && id in s.router.routes && id !in s.doing
    requires forall j | j in s.router.routes && j != id :: s'.router.routes[j] == s.router.routes[j]
    requires PhaseLeft(s'.router.routes[id]) < PhaseLeft(s.router.routes[id])
    requires s'.doing == s.doing
      || (s'.doing == s.doing[id := Running] && PhaseLeft(s'.router.routes[id]) + 2 < PhaseLeft(s.router.routes[id]))
    ensures forall j: nat | j != id :: RouteLeft(s', j) == RouteLeft(s, j)
    ensures RouteLeft(s', id) < RouteLeft(s, id)
  {
  }

  lemma RouteStepFalls(m: Matcher, s: State, a: Action, bound: nat)
    requires Bounded(s, bound) && (a.Resolve? || a.Dispatch? || a.Finish?)
    requires Free(s, a.id) && M.Step(m, s.router, RouterAction(s, a).value) != s.router
    ensures Less(MeasureOf(Step(m, s, a), bound), MeasureOf(s, bound))
  {
    var s', b := Step(m, s, a), RouterAction(s, a).value;
    M.RoutingShape(m, s.router, b);
    RouterShape(m, s.router, b);
    RouteMoves(m, s.router, b);
    PhaseFalls(m, s.router, b);
    assert Known(s, a.id);
    OneRouteMoved(s, s', a.id);
    RoutingFalls(s, s', a.id, bound);
  }

  // The handler Route id is in has moved on or returned.
  lemma OneHandlerMoved(s: State, s': State, id: nat)
    requires s'.router == s.router && id in s.doing
    requires if id in s'.doing then s.doing[id].Routing? && s'.doing == s.doing[id := Running]
      else s'.doing == s.doing - {id}
    ensures forall j: nat | j != id :: RouteLeft(s', j) == RouteLeft(s, j)
    ensures RouteLeft(s', id) < RouteLeft(s, id)
  {
  }

  lemma ReturnFalls(m: Matcher, s: State, a: Action, bound: nat)
    requires Inv(m, s) && Bounded(s, bound) && (a.CallReturns? || a.HandlerReturns?) && Step(m, s, a) != s
    ensures Less(MeasureOf(Step(m, s, a), bound), MeasureOf(s, bound))
  {
    assert DoingOk(s, a.id, s.doing[a.id]) && Known(s, a.id);
    OneHandlerMoved(s, Step(m, s, a), a.id);
    RoutingFalls(s, Step(m, s, a), a.id, bound);
  }

  lemma OneReaderLess(keys: set<nat>, readers: set<nat>, id: nat)
    requires id in readers && id !in keys
    ensures |readers - {id}| < |readers| && keys - (readers - {id}) == keys - readers
  {
  }

  lemma {:induction false} SameRoutesLeft(s: State, s': State, bound: nat)
    requires s'.router == s.router && s'.doing == s.doing
    ensures RoutesLeft(s', bound) == RoutesLeft(s, bound)
  {
    if bound > 0 {
      SameRoutesLeft(s, s', bound - 1);
    }
  }

  // The Route has its snapshot and lets go of the read lock.
  lemma ReaderLeft(s: State, s': State, id: nat, bound: nat)
    requires id in s.readers && id !in s.entering && s' == s.(readers := s.readers - {id})
    ensures Less(MeasureOf(s', bound), MeasureOf(s, bound))
  {
    OneReaderLess(s.entering.Keys, s.readers, id);
    SameRoutesLeft(s, s', bound);
  }

  lemma UnlockFalls(m: Matcher, s: State, id: nat, bound: nat)
    requires Step(m, s, RUnlock(id)) != s
    ensures Less(MeasureOf(Step(m, s, RUnlock(id)), bound), MeasureOf(s, bound))
  {
    ReaderLeft(s, Step(m, s, RUnlock(id)), id, bound);
  }

  lemma RoutingStepFalls(m: Matcher, s: State, a: Action, bound: nat)
    requires Bounded(s, bound) && (a.Resolve? || a.Dispatch? || a.Finish?) && Step(m, s, a) != s
    ensures Less(MeasureOf(Step(m, s, a), bound), MeasureOf(s, bound))
  {
    assert Free(s, a.id);
    if M.Step(m, s.router, RouterAction(s, a).value) != s.router {
      RouteStepFalls(m, s, a, bound);
    }
  }

  lemma EveryStepFalls(m: Matcher, s: State, a: Action, bound: nat)
    requires Inv(m, s) && Bounded(s, bound) && CarriesOn(a) && Step(m, s, a) != s
    ensures Less(MeasureOf(Step(m, s, a), bound), MeasureOf(s, bound))
  {
    match a {
      case RLock(id) => RLockFalls(m, s, id, bound);
      case Snapshot(id) => SnapshotFalls(m, s, id, bound);
      case RUnlock(id) => UnlockFalls(m, s, id, bound);
      case Acquire(k) => AcquireFalls(m, s, k, bound);
      case Publish => PublishFalls(m, s, bound);
      case AppendEntry(_) => HolderFalls(m, s, a, bound);
      case CopyNext => HolderFalls(m, s, a, bound);
      case CallReturns(_) => ReturnFalls(m, s, a, bound);
      case HandlerReturns(_) => ReturnFalls(m, s, a, bound);
      case _ => RoutingStepFalls(m, s, a, bound);
    }
  }

  lemma NobodyEnters(m: Matcher, s: State, a: Action, bound: nat)
    requires Bounded(s, bound) && CarriesOn(a)
    ensures Bounded(Step(m, s, a), bound)
  {
    forall j: nat | Known(Step(m, s, a), j)
      ensures j < bound
    {
      KnownBefore(m, s, a, j);
    }
  }

  lemma KnownBefore(m: Matcher, s: State, a: Action, id: nat)
    requires CarriesOn(a) && Known(Step(m, s, a), id)
    ensures Known(s, id)
  {
    RouterMoves(m, s, a);
    if Step(m, s, a).router != s.router {
      RouterShape(m, s.router, RouterAction(s, a).value);
    }
  }

  // ----- Where no step is left -----

  // No step of what has begun is to be taken, readers giving way to writers.
  ghost predicate Stalled(m: Matcher, s: State) {
    forall a: Action | MayTake(s, a) :: Step(m, s, a) == s
  }

  // Every Route has returned and nobody holds or waits for a lock.
  ghost predicate AllDone(s: State) {
    Settled(s) && forall id: nat | Known(s, id) :: Returned(s, id)
  }

  lemma {:induction false} StalledStays(m: Matcher, s: State, plan: seq<Action>)
    requires Stalled(m, s) && Plan(m, s, plan)
    ensures Exec(m, s, plan) == s
  {
    if plan != [] {
      StalledStays(m, s, plan[..|plan| - 1]);
    }
  }

  lemma StalledIsDone(m: Matcher, s: State)
    requires Inv(m, s) && Stalled(m, s)
    ensures AllDone(s)
  {
    var settled := Settles(m, s);
    var plan :| Plan(m, s, plan) && Exec(m, s, plan) == settled;
    StalledStays(m, s, plan);
    forall id: nat | Known(s, id)
      ensures Returned(s, id)
    {
      var s' := RouteCanReturn(m, s, id);
      var plan :| Plan(m, s, plan) && Exec(m, s, plan) == s';
      StalledStays(m, s, plan);
    }
  }

  // ----- Every schedule gets there -----

  function StateAt(m: Matcher, s: State, run: nat -> Action, k: nat): State {
    if k == 0 then s else Step(m, StateAt(m, s, run, k - 1), run(k - 1))
  }

  // The schedule takes a step of what has begun as long as there is one, whichever
  // it likes.
  ghost predicate KeepsGoing(m: Matcher, s: State, run: nat -> Action) {
    forall k: nat :: Stalled(m, StateAt(m, s, run, k))
      || (CarriesOn(run(k)) && StateAt(m, s, run, k + 1) != StateAt(m, s, run, k))
  }

  lemma {:induction false} GetsThere(m: Matcher, s: State, run: nat -> Action, k: nat, bound: nat) returns (end: nat)
    requires KeepsGoing(m, s, run) && Inv(m, StateAt(m, s, run, k)) && Bounded(StateAt(m, s, run, k), bound)
    ensures AllDone(StateAt(m, s, run, end))
    decreases MeasureOf(StateAt(m, s, run, k), bound).outside, MeasureOf(StateAt(m, s, run, k), bound).writing,
      MeasureOf(StateAt(m, s, run, k), bound).holding, MeasureOf(StateAt(m, s, run, k), bound).routing
  {
    var now := StateAt(m, s, run, k);
    if Stalled(m, now) {
      StalledIsDone(m, now);
      end := k;
    } else {
      assert StateAt(m, s, run, k + 1) == Step(m, now, run(k));
      StepKeepsInv(m, now, run(k));
      NobodyEnters(m, now, run(k), bound);
      EveryStepFalls(m, now, run(k), bound);
      end := GetsThere(m, s, run, k + 1, bound);
    }
  }

  // From every reachable state, whatever handlers were in the middle of: any
  // schedule that goes on as long as there is a step to take, and in which nobody
  // calls the router anew, comes to an end, and there every Route has returned,
  // every mutation is committed and no lock is held.
  lemma EveryScheduleEnds(m: Matcher, actions: seq<Action>, run: nat -> Action)
    requires KeepsGoing(m, Exec(m, Init(false), actions), run)
    ensures exists end: nat :: AllDone(StateAt(m, Exec(m, Init(false), actions), run, end))
  {
    var s := Exec(m, Init(false), actions);
    Reachable(m, actions);
    var bound := BoundOf(s.entering.Keys + s.router.routes.Keys);
    var end := GetsThere(m, s, run, 0, bound);
  }
}
