/**
 client/client.go with callbacks and Stops as atomic steps: each runs all of its
 statements before anything else happens. What the connected flag, the gauge, the
 reconnect counter and the subscribe attempts are is then told by the events that
 occurred; and where several of them overlap, by runs that show what they are not.
*/
module AtomicRuns {
  import opened Wrappers
  import opened Topics
  import opened Lifecycle
  import opened LifecycleRuns
  import opened Callbacks

  // ----- Events -----

  // Stop k from its Disconnect to its end.
  function AfterStop(cfg: Config, s: State, k: nat): State {
    Step(cfg, Step(cfg, s, ClearFlag(k)), FinishStop(k))
  }

  // An action stands for the whole of what it begins.
  function Whole(cfg: Config, s: State, a: Action): State {
    match a
    case Up(i) =>
      if !Occurs(s, a) then s
      else AdvanceBy(cfg, Step(cfg, s, a), i, UpLength(cfg, s.runs[i].firstConn))
    case Down(i) => if !Occurs(s, a) then s else AdvanceBy(cfg, Step(cfg, s, a), i, 2)
    case ConnectError(i) => if !Occurs(s, a) then s else AdvanceBy(cfg, Step(cfg, s, a), i, 2)
    case BeginStop => if !Occurs(s, a) then s else AfterStop(cfg, Step(cfg, s, a), |s.stops|)
    case Advance(_) => s
    case ClearFlag(_) => s
    case FinishStop(_) => s
    case _ => Step(cfg, s, a)
  }

  // A manager has callbacks once it exists; a Stop does something to a client
  // that has been started.
  predicate Occurs(s: State, a: Action) {
    match a
    case BeginStop => s.cm.Some?
    case Up(i) => i < |s.runs| && !s.runs[i].phase.Checked?
    case Down(i) => i < |s.runs| && !s.runs[i].phase.Checked?
    case ConnectError(i) => i < |s.runs| && !s.runs[i].phase.Checked?
    case _ => false
  }

  function WholeExec(cfg: Config, actions: seq<Action>): State {
    if actions == [] then Init(cfg) else Whole(cfg, WholeExec(cfg, actions[..|actions| - 1]), actions[|actions| - 1])
  }

  // The Ups, Downs, failed attempts and Stops that occurred, in order.
  function Events(cfg: Config, actions: seq<Action>): seq<Action> {
    if actions == [] then []
    else
      var n := |actions| - 1;
      Events(cfg, actions[..n]) + if Occurs(WholeExec(cfg, actions[..n]), actions[n]) then [actions[n]] else []
  }

  // ----- What the events say -----

  // Event j is an Up, and since then there was no Down and, if those count, no Stop.
  predicate StandsFrom(events: seq<Action>, j: nat, stopsCount: bool)
    requires j < |events|
  {
    && events[j].Up?
    && forall k | j < k < |events| :: !events[k].Down? && !(stopsCount && events[k].BeginStop?)
  }

  predicate UpStands(events: seq<Action>, stopsCount: bool) {
    exists j: nat | j < |events| :: StandsFrom(events, j, stopsCount)
  }

  lemma StandsFromExtends(events: seq<Action>, a: Action, j: nat, stopsCount: bool)
    requires j < |events|
    ensures StandsFrom(events + [a], j, stopsCount) <==>
      StandsFrom(events, j, stopsCount) && !a.Down? && !(stopsCount && a.BeginStop?)
  {
    assert forall k | 0 <= k < |events| :: (events + [a])[k] == events[k];
    assert (events + [a])[|events|] == a;
  }

  lemma UpStandsExtends(events: seq<Action>, a: Action, stopsCount: bool)
    ensures UpStands(events + [a], stopsCount) <==>
      a.Up? || (UpStands(events, stopsCount) && !a.Down? && !(stopsCount && a.BeginStop?))
  {
    assert StandsFrom(events + [a], |events|, stopsCount) <==> a.Up?;
    forall j: nat | j < |events|
      ensures StandsFrom(events + [a], j, stopsCount) <==>
        StandsFrom(events, j, stopsCount) && !a.Down? && !(stopsCount && a.BeginStop?)
    {
      StandsFromExtends(events, a, j, stopsCount);
    }
  }

  // The Ups that follow an earlier one of the same Start.
  function LaterUps(events: seq<Action>): nat {
    if events == [] then 0
    else
      var n := |events| - 1;
      LaterUps(events[..n]) + if events[n].Up? && events[n] in events[..n] then 1 else 0
  }

  function Ups(events: seq<Action>, i: nat): nat {
    multiset(events)[Up(i)]
  }

  lemma CountsExtend(events: seq<Action>, a: Action, i: nat)
    ensures LaterUps(events + [a]) == LaterUps(events) + if a.Up? && a in events then 1 else 0
    ensures Ups(events + [a], i) == Ups(events, i) + if a == Up(i) then 1 else 0
  {
    assert (events + [a])[..|events|] == events;
  }

  lemma {:induction false} LaterUpsOfOne(events: seq<Action>, i: nat)
    requires forall a | a in events && a.Up? :: a.run == i
    ensures LaterUps(events) == if Ups(events, i) == 0 then 0 else Ups(events, i) - 1
  {
    if events != [] {
      var n := |events| - 1;
      LaterUpsOfOne(events[..n], i);
      assert events[n] in events;
      assert events == events[..n] + [events[n]];
      CountsExtend(events[..n], events[n], i);
    }
  }

  // ----- The client says what the events say -----

  function Attempted(cfg: Config, ups: nat): seq<seq<SubscribeOptions>> {
    if cfg.filters == [] then [] else seq(ups, _ => cfg.filters)
  }

  predicate RunMirrors(cfg: Config, r: Run, events: seq<Action>, i: nat) {
    && r.callback.Idle? && (r.firstConn <==> Up(i) !in events)
    && r.attempts == Attempted(cfg, Ups(events, i))
  }

  predicate SharedMirrors(connected: bool, gauge: bool, reconnects: nat, events: seq<Action>) {
    && (connected <==> UpStands(events, true))
    && (gauge <==> UpStands(events, false))
    && reconnects == LaterUps(events)
  }

  predicate Mirrors(cfg: Config, s: State, events: seq<Action>) {
    && SharedMirrors(s.connected, s.gauge, s.reconnects, events)
    && (forall i | 0 <= i < |s.runs| :: RunMirrors(cfg, s.runs[i], events, i))
    && (forall a | a in events && a.Up? :: a.run < |s.runs|)
  }

  // An event that is not about run i leaves what is said of it.
  lemma OtherRunMirrors(cfg: Config, r: Run, events: seq<Action>, a: Action, i: nat)
    requires RunMirrors(cfg, r, events, i) && a != Up(i)
    ensures RunMirrors(cfg, r, events + [a], i)
  {
    CountsExtend(events, a, i);
  }

  lemma RunsMirror(cfg: Config, s: State, s': State, events: seq<Action>, a: Action, i: nat)
    requires forall j | 0 <= j < |s.runs| :: RunMirrors(cfg, s.runs[j], events, j)
    requires OnlyRun(s, s', i) && (a.Up? ==> a.run == i)
    requires i < |s.runs| && RunMirrors(cfg, s'.runs[i], events + [a], i)
    ensures forall j | 0 <= j < |s'.runs| :: RunMirrors(cfg, s'.runs[j], events + [a], j)
  {
    forall j | 0 <= j < |s'.runs| && j != i
      ensures RunMirrors(cfg, s'.runs[j], events + [a], j)
    {
      OtherRunMirrors(cfg, s.runs[j], events, a, j);
    }
  }

  lemma SharedAfter(events: seq<Action>, a: Action)
    ensures UpStands(events + [a], true) <==>
      a.Up? || (UpStands(events, true) && !a.Down? && !a.BeginStop?)
    ensures UpStands(events + [a], false) <==> a.Up? || (UpStands(events, false) && !a.Down?)
    ensures LaterUps(events + [a]) == LaterUps(events) + if a.Up? && a in events then 1 else 0
  {
    UpStandsExtends(events, a, true);
    UpStandsExtends(events, a, false);
    CountsExtend(events, a, 0);
  }

  lemma OneMoreAttempt(cfg: Config, n: nat)
    ensures Attempted(cfg, n + 1) == Attempted(cfg, n) + if cfg.filters == [] then [] else [cfg.filters]
  {
  }

  lemma UpMirrors(cfg: Config, s: State, events: seq<Action>, i: nat)
    requires Inv(cfg, s) && Mirrors(cfg, s, events) && Occurs(s, Up(i))
    ensures Mirrors(cfg, Whole(cfg, s, Up(i)), events + [Up(i)])
  {
    var s' := Whole(cfg, s, Up(i));
    assert RunMirrors(cfg, s.runs[i], events, i);
    UninterruptedUp(cfg, s, i);
    WholeMovesOneRun(cfg, s, Up(i));
    SharedAfter(events, Up(i));
    CountsExtend(events, Up(i), i);
    OneMoreAttempt(cfg, Ups(events, i));
    assert SeenBy(s', i).attempts == s'.runs[i].attempts;
    RunsMirror(cfg, s, s', events, Up(i), i);
  }

  lemma WholeMovesOneRun(cfg: Config, s: State, a: Action)
    requires Occurs(s, a) && !a.BeginStop?
    ensures OnlyRun(s, Whole(cfg, s, a), a.run)
  {
    var s0 := Step(cfg, s, a);
    StatementMovesOneRun(cfg, s, a);
    StatementsMoveOneRun(cfg, s0, a.run, if a.Up? then UpLength(cfg, s.runs[a.run].firstConn) else 2);
  }

  lemma DownMirrors(cfg: Config, s: State, events: seq<Action>, i: nat)
    requires Mirrors(cfg, s, events) && Occurs(s, Down(i))
    ensures Mirrors(cfg, Whole(cfg, s, Down(i)), events + [Down(i)])
  {
    var s' := Whole(cfg, s, Down(i));
    assert RunMirrors(cfg, s.runs[i], events, i);
    UninterruptedDown(cfg, s, i);
    WholeMovesOneRun(cfg, s, Down(i));
    SharedAfter(events, Down(i));
    CountsExtend(events, Down(i), i);
    assert SeenBy(s', i) == AfterDown(SeenBy(s, i));
    RunsMirror(cfg, s, s', events, Down(i), i);
  }

  lemma ErrorMirrors(cfg: Config, s: State, events: seq<Action>, i: nat)
    requires Inv(cfg, s) && Mirrors(cfg, s, events) && Occurs(s, ConnectError(i))
    ensures Mirrors(cfg, Whole(cfg, s, ConnectError(i)), events + [ConnectError(i)])
  {
    var s' := Whole(cfg, s, ConnectError(i));
    assert RunMirrors(cfg, s.runs[i], events, i) && RunOk(cfg, s.fns, s.runs[i]);
    UninterruptedError(cfg, s, i);
    WholeMovesOneRun(cfg, s, ConnectError(i));
    SharedAfter(events, ConnectError(i));
    CountsExtend(events, ConnectError(i), i);
    assert SeenBy(s', i) == AfterError(cfg.max, SeenBy(s, i));
    RunsMirror(cfg, s, s', events, ConnectError(i), i);
  }

  lemma StopCompletes(cfg: Config, s: State, k: nat)
    requires StopsOk(s) && k < |s.stops| && s.stops[k].phase.Disconnecting?
    ensures var s' := AfterStop(cfg, s, k);
      && s'.stops == s.stops[k := s.stops[k].(phase := Finished)] && s'.cm == s.cm
      && !s'.connected && s'.gauge == s.gauge && s'.reconnects == s.reconnects && |s'.runs| == |s.runs|
      && forall i | 0 <= i < |s.runs| :: s'.runs[i] == s.runs[i].(causes := s'.runs[i].causes)
  {
    assert HasReturned(s, s.stops[k].target);
  }

  lemma StopMirrors(cfg: Config, s: State, events: seq<Action>)
    requires Inv(cfg, s) && Mirrors(cfg, s, events) && Occurs(s, BeginStop)
    ensures Mirrors(cfg, Whole(cfg, s, BeginStop), events + [BeginStop])
  {
    var s0, s' := Step(cfg, s, BeginStop), Whole(cfg, s, BeginStop);
    StepKeepsInv(cfg, s, BeginStop);
    StopCompletes(cfg, s0, |s.stops|);
    SharedAfter(events, BeginStop);
    forall j | 0 <= j < |s'.runs|
      ensures RunMirrors(cfg, s'.runs[j], events + [BeginStop], j)
    {
      OtherRunMirrors(cfg, s.runs[j], events, BeginStop, j);
    }
  }

  // What Start and OnEvent do between the events.
  lemma OtherwiseMirrors(cfg: Config, s: State, events: seq<Action>, a: Action)
    requires Mirrors(cfg, s, events) && !a.Up? && !a.Down? && !a.ConnectError? && !a.BeginStop?
    ensures Mirrors(cfg, Whole(cfg, s, a), events)
  {
    var s' := Whole(cfg, s, a);
    if a.BeginStart? {
      assert Up(|s.runs|) !in events;
    } else if AboutARun(a) && a.run < |s.runs| && !a.Advance? {
      RunActionShape(cfg, s, a);
      assert RunMirrors(cfg, s.runs[a.run], events, a.run);
    }
  }

  lemma WholeMirrors(cfg: Config, s: State, events: seq<Action>, a: Action)
    requires Inv(cfg, s) && Mirrors(cfg, s, events)
    ensures Mirrors(cfg, Whole(cfg, s, a), events + if Occurs(s, a) then [a] else [])
  {
    assert events + [] == events;
    if Occurs(s, a) {
      match a {
        case Up(i) => UpMirrors(cfg, s, events, i);
        case Down(i) => DownMirrors(cfg, s, events, i);
        case ConnectError(i) => ErrorMirrors(cfg, s, events, i);
        case BeginStop => StopMirrors(cfg, s, events);
      }
    } else if !a.Up? && !a.Down? && !a.ConnectError? && !a.BeginStop? {
      OtherwiseMirrors(cfg, s, events, a);
    }
  }

  // ----- Atomic executions are executions -----

  lemma {:induction false} AdvanceByReaches(cfg: Config, s: State, i: nat, n: nat)
    requires Reaches(cfg, s)
    ensures Reaches(cfg, AdvanceBy(cfg, s, i, n))
    decreases n
  {
    if n > 0 {
      ReachesStep(cfg, s, Advance(i));
      AdvanceByReaches(cfg, Step(cfg, s, Advance(i)), i, n - 1);
    }
  }

  lemma WholeReaches(cfg: Config, s: State, a: Action)
    requires Reaches(cfg, s)
    ensures Reaches(cfg, Whole(cfg, s, a))
  {
    var s0 := Step(cfg, s, a);
    ReachesStep(cfg, s, a);
    if Occurs(s, a) {
      if a.BeginStop? {
        ReachesStep(cfg, s0, ClearFlag(|s.stops|));
        ReachesStep(cfg, Step(cfg, s0, ClearFlag(|s.stops|)), FinishStop(|s.stops|));
      } else {
        AdvanceByReaches(cfg, s0, a.run, if a.Up? then UpLength(cfg, s.runs[a.run].firstConn) else 2);
      }
    }
  }

  lemma {:induction false} WholeExecReaches(cfg: Config, actions: seq<Action>)
    ensures Reaches(cfg, WholeExec(cfg, actions))
  {
    if actions == [] {
      assert Exec(cfg, Init(cfg), []) == Init(cfg);
    } else {
      WholeExecReaches(cfg, actions[..|actions| - 1]);
      WholeReaches(cfg, WholeExec(cfg, actions[..|actions| - 1]), actions[|actions| - 1]);
    }
  }

  lemma {:induction false} EventsAreMirrored(cfg: Config, actions: seq<Action>)
    ensures Mirrors(cfg, WholeExec(cfg, actions), Events(cfg, actions))
  {
    if actions != [] {
      var n := |actions| - 1;
      EventsAreMirrored(cfg, actions[..n]);
      WholeExecReaches(cfg, actions[..n]);
      ReachesInv(cfg, WholeExec(cfg, actions[..n]));
      WholeMirrors(cfg, WholeExec(cfg, actions[..n]), Events(cfg, actions[..n]), actions[n]);
    }
  }

  // ----- What follows -----

  // With callbacks and Stops taken whole, and any number of Starts: IsConnected
  // says that there was an Up with neither a Down nor a Stop since; the gauge, that
  // there was one without a Down since. So they differ exactly when a Stop came
  // after an Up that no Down followed.
  lemma ConnectedIsTheLastEvent(cfg: Config, actions: seq<Action>)
    ensures var s, events := WholeExec(cfg, actions), Events(cfg, actions);
      && Reaches(cfg, s)
      && (s.connected <==> UpStands(events, true))
      && (s.gauge <==> UpStands(events, false))
  {
    WholeExecReaches(cfg, actions);
    EventsAreMirrored(cfg, actions);
  }

  lemma {:induction false} NoStopBeforeAStart(cfg: Config, actions: seq<Action>)
    requires WholeExec(cfg, actions).cm.None?
    ensures forall a | a in Events(cfg, actions) :: !a.BeginStop?
    ensures WholeExec(cfg, actions).stops == []
  {
    if actions != [] {
      var n := |actions| - 1;
      var before := WholeExec(cfg, actions[..n]);
      WholeKeepsTheClient(cfg, before, actions[n]);
      NoStopBeforeAStart(cfg, actions[..n]);
    }
  }

  lemma WholeKeepsTheClient(cfg: Config, s: State, a: Action)
    ensures s.cm.Some? ==> Whole(cfg, s, a).cm.Some?
    ensures s.cm.None? ==> Whole(cfg, s, a).stops == s.stops
  {
    if Occurs(s, a) {
      if !a.BeginStop? {
        WholeMovesOneRun(cfg, s, a);
      }
    }
  }

  // Before any Start has returned nil IsConnected is not simply false: it says
  // whether an Up of some manager stands, and no Stop has a part in it.
  lemma ConnectedBeforeAnyStart(cfg: Config, actions: seq<Action>)
    requires WholeExec(cfg, actions).cm.None?
    ensures var s := WholeExec(cfg, actions);
      NotStarted(s) && (s.connected <==> UpStands(Events(cfg, actions), false))
  {
    EventsAreMirrored(cfg, actions);
    NoStopBeforeAStart(cfg, actions);
    var events := Events(cfg, actions);
    forall j: nat | j < |events|
      ensures StandsFrom(events, j, true) <==> StandsFrom(events, j, false)
    {
      assert forall k | j < k < |events| :: events[k] in events;
    }
  }

  // The reconnect counter is the number of Ups that were not the first of their
  // Start: with one Start, all but one. Every Up of a Start attempted the same
  // filters, once.
  lemma ReconnectsAreTheLaterUps(cfg: Config, actions: seq<Action>)
    ensures var s, events := WholeExec(cfg, actions), Events(cfg, actions);
      && s.reconnects == LaterUps(events)
      && (|s.runs| == 1 ==> s.reconnects == if Ups(events, 0) == 0 then 0 else Ups(events, 0) - 1)
      && forall i | 0 <= i < |s.runs| :: s.runs[i].attempts == Attempted(cfg, Ups(events, i))
  {
    EventsAreMirrored(cfg, actions);
    var s, events := WholeExec(cfg, actions), Events(cfg, actions);
    assert forall i | 0 <= i < |s.runs| :: RunMirrors(cfg, s.runs[i], events, i);
    if |s.runs| == 1 {
      LaterUpsOfOne(events, 0);
    }
  }

  // ----- What is not promised, reached from the start -----

  // What a run that exists and has nothing under way comes to by an Up.
  lemma ComesUp(cfg: Config, s: State, i: nat) returns (s': State)
    requires Reaches(cfg, s) && Occurs(s, Up(i)) && In(s, i, Idle)
    ensures s' == Whole(cfg, s, Up(i)) && Reaches(cfg, s') && OnlyRun(s, s', i)
    ensures In(s', i, Idle) && s'.runs[i].ready == 1 && !s'.runs[i].firstConn && s'.connected && s'.gauge
  {
    s' := Whole(cfg, s, Up(i));
    WholeReaches(cfg, s, Up(i));
    WholeMovesOneRun(cfg, s, Up(i));
    ReachesInv(cfg, s);
    ReachesInv(cfg, s');
    UninterruptedUp(cfg, s, i);
    assert SeenBy(s', i).connected && SeenBy(s', i).gauge && !SeenBy(s', i).firstConn;
    assert RunOk(cfg, s'.fns, s'.runs[i]);
  }

  // The end of a Start that sees its startReady closed.
  lemma Returns(cfg: Config, s: State, i: nat) returns (s': State)
    requires Reaches(cfg, s) && i < |s.runs| && s.runs[i].phase.Waiting? && s.runs[i].ready == 1
    ensures Reaches(cfg, s') && s'.runs == s.runs[i := s.runs[i].(phase := Returned)]
    ensures s'.cm == Some(i) && s'.stops == s.stops && s'.connected == s.connected && s'.gauge == s.gauge
  {
    s' := Step(cfg, Step(cfg, s, SeeReady(i)), Assign(i));
    ReachesStep(cfg, s, SeeReady(i));
    ReachesStep(cfg, Step(cfg, s, SeeReady(i)), Assign(i));
  }

  // A second Start may begin, before the first is done.
  lemma Launches(cfg: Config, s: State) returns (s': State)
    requires Reaches(cfg, s) && s.cm.None?
    ensures Reaches(cfg, s') && |s'.runs| == |s.runs| + 1
    ensures forall j | 0 <= j < |s.runs| :: s'.runs[j] == s.runs[j]
    ensures In(s', |s.runs|, Idle) && s'.runs[|s.runs|].phase.Waiting?
    ensures s'.cm.None? && s'.stops == s.stops
  {
    s' := Step(cfg, Step(cfg, s, BeginStart), NewConnection(|s.runs|, true));
    ReachesStep(cfg, s, BeginStart);
    ReachesStep(cfg, Step(cfg, s, BeginStart), NewConnection(|s.runs|, true));
  }

  lemma FromNothing(cfg: Config)
    ensures Reaches(cfg, Init(cfg))
  {
    assert Exec(cfg, Init(cfg), []) == Init(cfg);
  }

  // One Start, returned, with its connection up.
  lemma Started(cfg: Config) returns (s: State)
    ensures Reaches(cfg, s) && |s.runs| == 1 && s.stops == [] && s.cm == Some(0)
    ensures In(s, 0, Idle) && s.runs[0].phase.Returned? && !s.runs[0].firstConn && s.connected && s.gauge
  {
    FromNothing(cfg);
    s := Launches(cfg, Init(cfg));
    s := ComesUp(cfg, s, 0);
    s := Returns(cfg, s, 0);
  }

  lemma OneUp(cfg: Config) returns (s: State)
    ensures Reaches(cfg, s) && |s.runs| == 1 && s.runs[0].phase.Waiting? && In(s, 0, Idle)
    ensures s.connected && s.cm.None? && s.stops == []
  {
    FromNothing(cfg);
    s := Launches(cfg, Init(cfg));
    s := ComesUp(cfg, s, 0);
  }

  // A Start that gives up once its Up has run leaves the client reporting a
  // connection, though it never started, and Stop does nothing about it.
  lemma AbandonedStartStaysConnected(cfg: Config) returns (s: State)
    ensures Reaches(cfg, s) && |s.runs| == 1 && s.runs[0].phase.Failed? && In(s, 0, Idle)
    ensures s.connected && NotStarted(s) && Whole(cfg, s, BeginStop) == s
  {
    var waiting := OneUp(cfg);
    s := Step(cfg, waiting, GiveUpWaiting(0));
    ReachesStep(cfg, waiting, GiveUpWaiting(0));
  }

  // Two Starts that both pass the check before either assigns both return nil,
  // and the first one's manager is out of reach from then on.
  lemma ConcurrentStartsMayBothReturn(cfg: Config) returns (s: State)
    ensures Reaches(cfg, s) && |s.runs| == 2 && HasReturned(s, 0) && HasReturned(s, 1)
    ensures Overtaken(s, 0) && s.stops == []
  {
    s := BothUp(cfg);
    s := Returns(cfg, s, 0);
    s := Returns(cfg, s, 1);
  }

  lemma BothLaunched(cfg: Config) returns (s: State)
    ensures Reaches(cfg, s) && |s.runs| == 2 && s.stops == []
    ensures forall i | 0 <= i < 2 :: In(s, i, Idle) && s.runs[i].phase.Waiting?
  {
    FromNothing(cfg);
    s := Launches(cfg, Init(cfg));
    s := Launches(cfg, s);
  }

  lemma BothUp(cfg: Config) returns (s: State)
    ensures Reaches(cfg, s) && |s.runs| == 2 && s.stops == []
    ensures forall i | 0 <= i < 2 ::
      In(s, i, Idle) && s.runs[i].phase.Waiting? && s.runs[i].ready == 1 && !s.runs[i].firstConn
  {
    s := BothLaunched(cfg);
    s := ComesUp(cfg, s, 0);
    s := ComesUp(cfg, s, 1);
  }

  // Stop clears the flag and not the gauge.
  lemma StopLeavesTheGauge(cfg: Config) returns (s: State)
    ensures Reaches(cfg, s) && s.stops == [StopCall(0, Finished)] && |s.runs| == 1 && In(s, 0, Idle)
    ensures !s.connected && s.gauge
  {
    var started := Started(cfg);
    s := Whole(cfg, started, BeginStop);
    WholeReaches(cfg, started, BeginStop);
    ReachesStep(cfg, started, BeginStop);
    ReachesInv(cfg, Step(cfg, started, BeginStop));
    StopCompletes(cfg, Step(cfg, started, BeginStop), 0);
  }

  // One statement of an Up that is not the first.
  lemma UpMoves(cfg: Config, s: State, i: nat, pc: nat) returns (s': State)
    requires Reaches(cfg, s) && In(s, i, InUp(false, pc)) && pc < 5
    ensures Reaches(cfg, s') && OnlyRun(s, s', i) && s' == Step(cfg, s, Advance(i))
    ensures In(s', i, if pc == 4 then Idle else InUp(false, pc + 1))
    ensures s'.connected == (pc == 2 || s.connected) && s'.gauge == (pc == 3 || s.gauge)
  {
    s' := Step(cfg, s, Advance(i));
    ReachesStep(cfg, s, Advance(i));
    StatementMovesOneRun(cfg, s, Advance(i));
  }

  lemma {:induction false} UpMovesBy(cfg: Config, s: State, i: nat, pc: nat, n: nat) returns (s': State)
    requires Reaches(cfg, s) && In(s, i, InUp(false, pc)) && pc + n <= 4
    ensures Reaches(cfg, s') && OnlyRun(s, s', i) && In(s', i, InUp(false, pc + n))
    decreases n
  {
    s' := s;
    if n > 0 {
      s' := UpMoves(cfg, s, i, pc);
      s' := UpMovesBy(cfg, s', i, pc + 1, n - 1);
    }
  }

  lemma Begins(cfg: Config, s: State, i: nat, a: Action) returns (s': State)
    requires Reaches(cfg, s) && In(s, i, Idle) && Occurs(s, a) && !s.runs[i].firstConn && (a == Up(i) || a == Down(i))
    ensures Reaches(cfg, s') && OnlyRun(s, s', i)
    ensures In(s', i, if a.Up? then InUp(false, 0) else InDown(0))
    ensures s'.connected == s.connected && s'.gauge == s.gauge
  {
    s' := Step(cfg, s, a);
    ReachesStep(cfg, s, a);
    StatementMovesOneRun(cfg, s, a);
  }

  // Stop is at its Disconnect, and an Up has come to its flag statement.
  lemma UpDuringStop(cfg: Config) returns (s: State)
    ensures Reaches(cfg, s) && s.stops == [StopCall(0, Disconnecting)] && In(s, 0, InUp(false, 2))
  {
    var started := Started(cfg);
    s := Step(cfg, started, BeginStop);
    ReachesStep(cfg, started, BeginStop);
    s := Begins(cfg, s, 0, Up(0));
    s := UpMovesBy(cfg, s, 0, 0, 2);
  }

  // An Up still under way when Disconnect returns, say because its context has
  // expired: Stop is over and the client disconnected, and the next statement of
  // the Up reports it connected.
  lemma UpMayOvertakeStop(cfg: Config) returns (s: State, s': State)
    ensures Reaches(cfg, s) && s.stops == [StopCall(0, Finished)] && !s.connected && UpUnderWay(s)
    ensures s' == Step(cfg, s, Advance(0)) && s'.connected
  {
    var s1 := UpDuringStop(cfg);
    ReachesInv(cfg, s1);
    StopCompletes(cfg, s1, 0);
    ReachesStep(cfg, s1, ClearFlag(0));
    ReachesStep(cfg, Step(cfg, s1, ClearFlag(0)), FinishStop(0));
    s := AfterStop(cfg, s1, 0);
    assert In(s, 0, InUp(false, 2));
    s' := UpMoves(cfg, s, 0, 2);
  }

  lemma DownMoves(cfg: Config, s: State, i: nat) returns (s': State)
    requires Reaches(cfg, s) && In(s, i, InDown(0))
    ensures Reaches(cfg, s') && OnlyRun(s, s', i)
    ensures In(s', i, Idle) && !s'.connected && !s'.gauge
  {
    var s1 := Step(cfg, s, Advance(i));
    s' := Step(cfg, s1, Advance(i));
    ReachesStep(cfg, s, Advance(i));
    ReachesStep(cfg, s1, Advance(i));
    StatementMovesOneRun(cfg, s, Advance(i));
    StatementMovesOneRun(cfg, s1, Advance(i));
    DownStatements(cfg, s, i);
    assert !SeenBy(s', i).connected && !SeenBy(s', i).gauge;
  }

  // One manager is between the flag and the gauge of an Up, the other about to
  // begin a Down.
  lemma UpAndDownMeet(cfg: Config) returns (s: State)
    ensures Reaches(cfg, s) && |s.runs| == 2 && s.stops == []
    ensures In(s, 0, InUp(false, 3)) && In(s, 1, InDown(0))
  {
    s := BothUp(cfg);
    s := Begins(cfg, s, 1, Down(1));
    s := Begins(cfg, s, 0, Up(0));
    s := UpMovesBy(cfg, s, 0, 0, 3);
  }

  // With two managers flag and gauge part without any Stop: a Down of one between
  // the two statements of an Up of the other.
  lemma TwoManagersPartFlagAndGauge(cfg: Config) returns (s: State)
    ensures Reaches(cfg, s) && |s.runs| == 2 && In(s, 0, Idle) && In(s, 1, Idle) && s.stops == []
    ensures !s.connected && s.gauge
  {
    s := UpAndDownMeet(cfg);
    s := DownMoves(cfg, s, 1);
    s := UpMoves(cfg, s, 0, 3);
    s := UpMoves(cfg, s, 0, 4);
  }
}
