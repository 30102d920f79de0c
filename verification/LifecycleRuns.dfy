/**
 What Lifecycle's invariant means for whole executions, and where the code
 promises less than it seems to.
*/
module LifecycleRuns {
  import opened Wrappers
  import opened Lifecycle
  import L = Limiter

  lemma {:induction false} ExecKeepsInv(cfg: Config, s: State, actions: seq<Action>)
    requires Inv(cfg, s)
    ensures Inv(cfg, Exec(cfg, s, actions))
  {
    if actions != [] {
      var n := |actions| - 1;
      ExecKeepsInv(cfg, s, actions[..n]);
      StepKeepsInv(cfg, Exec(cfg, s, actions[..n]), actions[n]);
    }
  }

  lemma Reachable(cfg: Config, actions: seq<Action>)
    ensures Inv(cfg, Exec(cfg, Init(cfg), actions))
  {
    ExecKeepsInv(cfg, Init(cfg), actions);
  }

  ghost predicate Reaches(cfg: Config, s: State) {
    exists actions :: Exec(cfg, Init(cfg), actions) == s
  }

  lemma ReachesStep(cfg: Config, s: State, a: Action)
    requires Reaches(cfg, s)
    ensures Reaches(cfg, Step(cfg, s, a))
  {
    var actions :| Exec(cfg, Init(cfg), actions) == s;
    assert (actions + [a])[..|actions|] == actions;
    assert Exec(cfg, Init(cfg), actions + [a]) == Step(cfg, s, a);
  }

  lemma ReachesInv(cfg: Config, s: State)
    requires Reaches(cfg, s)
    ensures Inv(cfg, s)
  {
    var actions :| Exec(cfg, Init(cfg), actions) == s;
    Reachable(cfg, actions);
  }

  // startReady is closed at most once per Start. Once it is, a subscribe attempt
  // with all filters has been made (if there are any), every publisher has a
  // publish function, and only then can Start return nil.
  lemma ReadyMeansSubscribedAndWired(cfg: Config, actions: seq<Action>, i: nat)
    requires i < |Exec(cfg, Init(cfg), actions).runs|
    ensures var s := Exec(cfg, Init(cfg), actions);
      var r := s.runs[i];
      && r.ready <= 1
      && (r.ready == 1 ==> Wired(s.fns, cfg.publishers) && (cfg.filters != [] ==> cfg.filters in r.attempts))
      && (r.phase.Returned? ==> r.ready == 1)
  {
    Reachable(cfg, actions);
    var s := Exec(cfg, Init(cfg), actions);
    assert RunOk(cfg, s.fns, s.runs[i]);
    if s.runs[i].ready == 1 && cfg.filters != [] {
      var r := s.runs[i];
      assert WiringOk(cfg, s.fns, r) && AttemptsOk(cfg, r) && ReadyOk(cfg, r);
      assert r.attempts[0] == cfg.filters;
    }
  }

  lemma WiredRefusesNothing(cfg: Config, s: State, a: Action)
    requires Wired(s.fns, |s.fns|)
    ensures Step(cfg, s, a).refused == s.refused
  {
  }

  lemma {:induction false} OnceWiredNeverRefused(cfg: Config, s: State, actions: seq<Action>)
    requires Inv(cfg, s) && Wired(s.fns, |s.fns|)
    ensures var s' := Exec(cfg, s, actions);
      s'.refused == s.refused && |s'.fns| == |s.fns| && Wired(s'.fns, |s'.fns|)
  {
    if actions != [] {
      var n := |actions| - 1;
      var before := Exec(cfg, s, actions[..n]);
      OnceWiredNeverRefused(cfg, s, actions[..n]);
      ExecKeepsInv(cfg, s, actions[..n]);
      StepKeepsRuns(cfg, before, actions[n]);
      WiredRefusesNothing(cfg, before, actions[n]);
    }
  }

  // If a Start has returned nil, no later OnEvent on a registered publisher is
  // refused as not yet connected, through any stops, drops and other Starts.
  lemma AfterStartNoEventIsRefused(cfg: Config, pre: seq<Action>, post: seq<Action>, i: nat)
    requires HasReturned(Exec(cfg, Init(cfg), pre), i)
    ensures Exec(cfg, Init(cfg), pre + post).refused == Exec(cfg, Init(cfg), pre).refused
  {
    ExecConcat(cfg, Init(cfg), pre, post);
    Reachable(cfg, pre);
    ReadyMeansSubscribedAndWired(cfg, pre, i);
    OnceWiredNeverRefused(cfg, Exec(cfg, Init(cfg), pre), post);
  }

  // The reconnect counter is the number of Ups beyond the first of each Start,
  // and every Up past its subscribe attempt made it with the same filter list.
  lemma ReconnectsAndSubscriptions(cfg: Config, actions: seq<Action>)
    ensures var s := Exec(cfg, Init(cfg), actions);
      && s.reconnects == Total(s.runs)
      && forall i | 0 <= i < |s.runs| ::
           && |s.runs[i].attempts| == (if cfg.filters == [] then 0 else s.runs[i].ups + Uncounted(s.runs[i]))
           && forall j | 0 <= j < |s.runs[i].attempts| :: s.runs[i].attempts[j] == cfg.filters
  {
    Reachable(cfg, actions);
    var s := Exec(cfg, Init(cfg), actions);
    forall i | 0 <= i < |s.runs|
      ensures AttemptsOk(cfg, s.runs[i])
    {
      assert RunOk(cfg, s.fns, s.runs[i]);
    }
  }

  // Only a Stop that found a started client clears the flag.
  lemma OnlyAStartedClientIsCleared(cfg: Config, actions: seq<Action>, j: nat)
    requires j < |Exec(cfg, Init(cfg), actions).flags| && Exec(cfg, Init(cfg), actions).flags[j].StopClears?
    ensures var s := Exec(cfg, Init(cfg), actions);
      s.flags[j].stop < |s.stops| && HasReturned(s, s.stops[s.flags[j].stop].target)
  {
    Reachable(cfg, actions);
  }

  // The limiter cancels a run exactly when that run's connect errors, after a
  // first Up of its own, reached max in a row.
  lemma GivingUpIsTheLimiters(cfg: Config, actions: seq<Action>, i: nat)
    requires i < |Exec(cfg, Init(cfg), actions).runs|
    ensures var r := Exec(cfg, Init(cfg), actions).runs[i];
      !r.callback.GivingUp? ==>
        (LimiterGaveUp in r.causes <==> exists k: nat :: L.Exhausted(cfg.max, r.limiter.log, k))
  {
    Reachable(cfg, actions);
    var s := Exec(cfg, Init(cfg), actions);
    var r := s.runs[i];
    assert RunOk(cfg, s.fns, r);
    assert LimiterOk(cfg, r);
    if r.limiter.stops != [] {
      assert r.limiter.stops[0] in r.limiter.stops;
    }
  }

  // ----- Starts -----

  // The action makes its Start the one the client has.
  predicate Assigns(s: State, a: Action) {
    a.Assign? && a.run < |s.runs| && s.runs[a.run].phase.Seen?
  }

  lemma WhoAssigns(cfg: Config, s: State, a: Action)
    ensures Step(cfg, s, a).cm == if Assigns(s, a) then Some(a.run) else s.cm
    ensures |Step(cfg, s, a).runs| == |s.runs| + if a.BeginStart? && s.cm.None? then 1 else 0
  {
    if AboutARun(a) && a.run < |s.runs| {
      RunActionShape(cfg, s, a);
    }
  }

  predicate AssignsAt(cfg: Config, actions: seq<Action>, k: nat)
    requires k < |actions|
  {
    Assigns(Exec(cfg, Init(cfg), actions[..k]), actions[k])
  }

  predicate NoneAssigned(cfg: Config, actions: seq<Action>) {
    forall k: nat | k < |actions| :: !AssignsAt(cfg, actions, k)
  }

  lemma AssignsAtEarlier(cfg: Config, actions: seq<Action>, n: nat, k: nat)
    requires k < n <= |actions|
    ensures AssignsAt(cfg, actions[..n], k) <==> AssignsAt(cfg, actions, k)
  {
    assert actions[..n][..k] == actions[..k];
  }

  lemma NoneAssignedExtends(cfg: Config, actions: seq<Action>)
    requires actions != []
    ensures var n := |actions| - 1;
      NoneAssigned(cfg, actions) <==> NoneAssigned(cfg, actions[..n]) && !AssignsAt(cfg, actions, n)
  {
    var n := |actions| - 1;
    forall k: nat | k < n
      ensures AssignsAt(cfg, actions[..n], k) <==> AssignsAt(cfg, actions, k)
    {
      AssignsAtEarlier(cfg, actions, n, k);
    }
  }

  lemma {:induction false} StartedExactlyByAnAssign(cfg: Config, actions: seq<Action>)
    ensures Exec(cfg, Init(cfg), actions).cm.None? <==> NoneAssigned(cfg, actions)
  {
    if actions != [] {
      var n := |actions| - 1;
      StartedExactlyByAnAssign(cfg, actions[..n]);
      NoneAssignedExtends(cfg, actions);
      WhoAssigns(cfg, Exec(cfg, Init(cfg), actions[..n]), actions[n]);
    }
  }

  // A Start gets past its check exactly when no earlier one has got as far as its
  // assignment, in any execution and whatever was stopped in between.
  lemma StartIsAdmittedExactlyBeforeAnAssign(cfg: Config, actions: seq<Action>)
    ensures var s := Exec(cfg, Init(cfg), actions);
      |Step(cfg, s, BeginStart).runs| == |s.runs| + 1 <==> NoneAssigned(cfg, actions)
  {
    WhoAssigns(cfg, Exec(cfg, Init(cfg), actions), BeginStart);
    StartedExactlyByAnAssign(cfg, actions);
  }

  // Once a Start has assigned, the client stays started and no later Start is
  // admitted, not even after a Stop.
  lemma {:induction false} StartedForGood(cfg: Config, s: State, actions: seq<Action>)
    requires s.cm.Some?
    ensures Exec(cfg, s, actions).cm.Some? && |Exec(cfg, s, actions).runs| == |s.runs|
  {
    if actions != [] {
      var n := |actions| - 1;
      StartedForGood(cfg, s, actions[..n]);
      WhoAssigns(cfg, Exec(cfg, s, actions[..n]), actions[n]);
    }
  }

  // A run was cancelled by a Stop exactly when a Stop for it has finished.
  predicate StoppedBy(s: State, i: nat, k: nat) {
    k < |s.stops| && s.stops[k] == StopCall(i, Finished)
  }

  ghost predicate StoppedOk(s: State) {
    forall i | 0 <= i < |s.runs| :: Stopped in s.runs[i].causes <==> exists k :: StoppedBy(s, i, k)
  }

  lemma RunStepStopsNothing(cfg: Config, r: Run, a: Action)
    ensures Stopped in RunStep(cfg, r, a).causes <==> Stopped in r.causes
    ensures r.phase.Returned? ==> RunStep(cfg, r, a).phase.Returned?
  {
  }

  lemma RunActionKeepsStopped(cfg: Config, s: State, a: Action)
    requires StoppedOk(s) && AboutARun(a)
    ensures StoppedOk(Step(cfg, s, a)) && Step(cfg, s, a).stops == s.stops
  {
    if a.run < |s.runs| {
      RunActionShape(cfg, s, a);
      RunStepStopsNothing(cfg, s.runs[a.run], a);
      assert forall i, k :: StoppedBy(Step(cfg, s, a), i, k) <==> StoppedBy(s, i, k);
    }
  }

  lemma FinishKeepsStopped(cfg: Config, s: State, j: nat)
    requires StoppedOk(s) && StopsOk(s)
    ensures StoppedOk(Step(cfg, s, FinishStop(j)))
  {
    var s' := Step(cfg, s, FinishStop(j));
    if s' != s {
      forall i | 0 <= i < |s'.runs|
        ensures Stopped in s'.runs[i].causes <==> exists k :: StoppedBy(s', i, k)
      {
        assert forall k | k != j :: StoppedBy(s', i, k) <==> StoppedBy(s, i, k);
        assert StoppedBy(s', i, j) <==> i == s.stops[j].target;
        assert !StoppedBy(s, i, j);
      }
    }
  }

  lemma StopActionsKeepStopped(cfg: Config, s: State, a: Action)
    requires StoppedOk(s) && StopsOk(s) && !AboutARun(a) && !a.FinishStop?
    ensures StoppedOk(Step(cfg, s, a))
  {
    var s' := Step(cfg, s, a);
    assert forall i, k :: StoppedBy(s', i, k) <==> StoppedBy(s, i, k);
    if a.BeginStart? && s.cm.None? {
      assert forall k :: !StoppedBy(s, |s.runs|, k);
    }
  }

  lemma StepKeepsStopped(cfg: Config, s: State, a: Action)
    requires StoppedOk(s) && StopsOk(s)
    ensures StoppedOk(Step(cfg, s, a))
  {
    if AboutARun(a) {
      RunActionKeepsStopped(cfg, s, a);
    } else if a.FinishStop? {
      FinishKeepsStopped(cfg, s, a.stop);
    } else {
      StopActionsKeepStopped(cfg, s, a);
    }
  }

  lemma {:induction false} ExecKeepsStopped(cfg: Config, s: State, actions: seq<Action>)
    requires Inv(cfg, s) && StoppedOk(s)
    ensures Inv(cfg, Exec(cfg, s, actions)) && StoppedOk(Exec(cfg, s, actions))
  {
    if actions != [] {
      var n := |actions| - 1;
      ExecKeepsStopped(cfg, s, actions[..n]);
      StepKeepsInv(cfg, Exec(cfg, s, actions[..n]), actions[n]);
      StepKeepsStopped(cfg, Exec(cfg, s, actions[..n]), actions[n]);
    }
  }

  // Run i has returned and another Start has taken the client over.
  predicate Overtaken(s: State, i: nat) {
    HasReturned(s, i) && s.cm.Some? && s.cm.value != i
  }

  lemma {:induction false} StopsOfAnOvertakenRun(cfg: Config, s: State, actions: seq<Action>, i: nat)
    requires Overtaken(s, i)
    ensures var s' := Exec(cfg, s, actions);
      && Overtaken(s', i) && |s.stops| <= |s'.stops|
      && (forall k | 0 <= k < |s.stops| :: s'.stops[k].target == s.stops[k].target)
      && (forall k | |s.stops| <= k < |s'.stops| :: s'.stops[k].target != i)
  {
    if actions != [] {
      var n := |actions| - 1;
      StopsOfAnOvertakenRun(cfg, s, actions[..n], i);
      OvertakenStays(cfg, Exec(cfg, s, actions[..n]), actions[n], i);
    }
  }

  lemma OvertakenStays(cfg: Config, s: State, a: Action, i: nat)
    requires Overtaken(s, i)
    ensures var s' := Step(cfg, s, a);
      && Overtaken(s', i) && |s.stops| <= |s'.stops| <= |s.stops| + 1
      && (forall k | 0 <= k < |s.stops| :: s'.stops[k].target == s.stops[k].target)
      && (|s'.stops| > |s.stops| ==> s'.stops[|s.stops|].target != i)
  {
    ReturnedIsLasting(cfg, s, a, i);
    WhoAssigns(cfg, s, a);
    StopTargets(cfg, s, a);
  }

  lemma StopTargets(cfg: Config, s: State, a: Action)
    ensures var s' := Step(cfg, s, a);
      && |s.stops| <= |s'.stops| <= |s.stops| + 1
      && (forall k | 0 <= k < |s.stops| :: s'.stops[k].target == s.stops[k].target)
      && (|s'.stops| > |s.stops| ==> s.cm == Some(s'.stops[|s.stops|].target))
  {
  }

  // The manager of an overtaken Start is out of reach: only a Stop that began
  // while it was the client's own can ever cancel it, and none begun later does.
  lemma OvertakenIsOnlyStoppedByAnEarlierStop(cfg: Config, pre: seq<Action>, post: seq<Action>, i: nat)
    requires Overtaken(Exec(cfg, Init(cfg), pre), i)
    ensures var s, s' := Exec(cfg, Init(cfg), pre), Exec(cfg, Init(cfg), pre + post);
      && Overtaken(s', i)
      && (Stopped in s'.runs[i].causes <==>
            exists k | 0 <= k < |s.stops| :: s.stops[k].target == i && StoppedBy(s', i, k))
  {
    var s, s' := Exec(cfg, Init(cfg), pre), Exec(cfg, Init(cfg), pre + post);
    ExecConcat(cfg, Init(cfg), pre, post);
    ExecKeepsStopped(cfg, Init(cfg), pre);
    ExecKeepsStopped(cfg, s, post);
    StopsOfAnOvertakenRun(cfg, s, post, i);
  }

  // ----- The connected flag -----

  // An Up that has not yet come to its flag statement.
  predicate UpUnderWay(s: State) {
    exists i | 0 <= i < |s.runs| :: s.runs[i].callback.InUp? && s.runs[i].callback.pc <= 2
  }

  predicate NoUps(actions: seq<Action>) {
    forall a | a in actions :: !a.Up?
  }

  lemma NoUpStaysAway(cfg: Config, s: State, a: Action)
    requires !s.connected && !UpUnderWay(s) && !a.Up?
    ensures !Step(cfg, s, a).connected && !UpUnderWay(Step(cfg, s, a))
  {
    if AboutARun(a) && a.run < |s.runs| {
      RunActionShape(cfg, s, a);
    }
  }

  lemma {:induction false} StaysDisconnected(cfg: Config, s: State, actions: seq<Action>)
    requires !s.connected && !UpUnderWay(s) && NoUps(actions)
    ensures !Exec(cfg, s, actions).connected && !UpUnderWay(Exec(cfg, s, actions))
  {
    if actions != [] {
      var n := |actions| - 1;
      StaysDisconnected(cfg, s, actions[..n]);
      assert actions[n] in actions;
      NoUpStaysAway(cfg, Exec(cfg, s, actions[..n]), actions[n]);
    }
  }

  lemma ExecFirst(cfg: Config, s: State, a: Action, rest: seq<Action>)
    ensures Exec(cfg, s, [a] + rest) == Exec(cfg, Step(cfg, s, a), rest)
  {
    ExecConcat(cfg, s, [a], rest);
    assert [a][..0] == [];
    assert Exec(cfg, s, []) == s;
  }

  lemma UpOnItsWay(cfg: Config, s: State, i: nat)
    requires i < |s.runs| && s.runs[i].callback.InUp? && s.runs[i].callback.pc <= 2
    ensures var s' := Step(cfg, s, Advance(i));
      if s.runs[i].callback.pc == 2 then s'.connected
      else |s'.runs| == |s.runs| && s'.runs[i].callback == InUp(s.runs[i].callback.first, s.runs[i].callback.pc + 1)
  {
  }

  lemma UpGetsToItsFlag(cfg: Config, s: State, i: nat) returns (actions: seq<Action>)
    requires i < |s.runs| && s.runs[i].callback.InUp? && s.runs[i].callback.pc <= 2
    ensures NoUps(actions) && Exec(cfg, s, actions).connected
    decreases 2 - s.runs[i].callback.pc
  {
    var s' := Step(cfg, s, Advance(i));
    UpOnItsWay(cfg, s, i);
    actions := [];
    if s.runs[i].callback.pc < 2 {
      actions := UpGetsToItsFlag(cfg, s', i);
    }
    ExecFirst(cfg, s, Advance(i), actions);
    actions := [Advance(i)] + actions;
  }

  // A client that reports itself disconnected, after a Stop say, can report
  // otherwise without a further Up exactly when an Up is under way that has not
  // come to its flag statement.
  lemma ConnectedWithoutAnotherUpExactlyWhen(cfg: Config, s: State)
    requires !s.connected
    ensures (exists actions :: NoUps(actions) && Exec(cfg, s, actions).connected) <==> UpUnderWay(s)
  {
    if UpUnderWay(s) {
      var i :| 0 <= i < |s.runs| && s.runs[i].callback.InUp? && s.runs[i].callback.pc <= 2;
      var actions := UpGetsToItsFlag(cfg, s, i);
    } else {
      forall actions | NoUps(actions)
        ensures !Exec(cfg, s, actions).connected
      {
        StaysDisconnected(cfg, s, actions);
      }
    }
  }

  // A Down that has not yet come to its flag statement.
  predicate DownUnderWay(s: State) {
    exists i | 0 <= i < |s.runs| :: s.runs[i].callback == InDown(0)
  }

  // No Start has returned nil, so that a Stop finds nothing to stop.
  predicate NotStarted(s: State) {
    s.cm.None? && s.stops == []
  }

  predicate NoDownsOrAssigns(actions: seq<Action>) {
    forall a | a in actions :: !a.Down? && !a.Assign?
  }

  lemma NoDownStaysAway(cfg: Config, s: State, a: Action)
    requires s.connected && NotStarted(s) && !DownUnderWay(s) && !a.Down? && !a.Assign?
    ensures var s' := Step(cfg, s, a); s'.connected && NotStarted(s') && !DownUnderWay(s')
  {
    if AboutARun(a) && a.run < |s.runs| {
      RunActionShape(cfg, s, a);
    }
  }

  lemma {:induction false} StaysConnected(cfg: Config, s: State, actions: seq<Action>)
    requires s.connected && NotStarted(s) && !DownUnderWay(s) && NoDownsOrAssigns(actions)
    ensures var s' := Exec(cfg, s, actions); s'.connected && NotStarted(s') && !DownUnderWay(s')
  {
    if actions != [] {
      var n := |actions| - 1;
      StaysConnected(cfg, s, actions[..n]);
      assert actions[n] in actions;
      NoDownStaysAway(cfg, Exec(cfg, s, actions[..n]), actions[n]);
    }
  }

  // A client that reports a connection before any Start has returned nil, as after
  // a Start that gave up when its Up had run, goes on doing so until a Down comes to
  // its flag statement or a Start does return: no Stop changes it.
  lemma ClearedBeforeAnyStartExactlyWhen(cfg: Config, s: State)
    requires s.connected && NotStarted(s)
    ensures (exists actions :: NoDownsOrAssigns(actions) && !Exec(cfg, s, actions).connected) <==> DownUnderWay(s)
  {
    if DownUnderWay(s) {
      var i :| 0 <= i < |s.runs| && s.runs[i].callback == InDown(0);
      ExecFirst(cfg, s, Advance(i), []);
      assert [Advance(i)] + [] == [Advance(i)];
      assert NoDownsOrAssigns([Advance(i)]) && !Exec(cfg, s, [Advance(i)]).connected;
    } else {
      forall actions | NoDownsOrAssigns(actions)
        ensures Exec(cfg, s, actions).connected
      {
        StaysConnected(cfg, s, actions);
      }
    }
  }

  // ----- The connection gauge -----

  // The last flag write of an Up or a Down, Stops aside.
  function LastOfCallbacks(flags: seq<FlagWrite>): bool {
    if flags == [] then false
    else match flags[|flags| - 1]
      case UpSets(_) => true
      case DownClears(_) => false
      case StopClears(_) => LastOfCallbacks(flags[..|flags| - 1])
  }

  // Between a callback's flag statement and its gauge statement.
  predicate BeforeItsGauge(c: Callback) {
    c == InDown(1) || (c.InUp? && c.pc == 3)
  }

  predicate GaugeOk(s: State) {
    if |s.runs| == 1 && BeforeItsGauge(s.runs[0].callback) then
      LastOfCallbacks(s.flags) == s.runs[0].callback.InUp?
    else s.gauge == LastOfCallbacks(s.flags)
  }

  // With a single Start, and its callbacks no further than their length.
  predicate DownOk(s: State) {
    |s.runs| == 1 && s.runs[0].callback.InDown? ==> s.runs[0].callback.pc <= 1
  }

  lemma LastOfCallbacksExtends(flags: seq<FlagWrite>, w: FlagWrite)
    ensures LastOfCallbacks(flags + [w]) == if w.StopClears? then LastOfCallbacks(flags) else w.UpSets?
  {
    assert (flags + [w])[..|flags|] == flags;
  }

  lemma UpKeepsGauge(cfg: Config, s: State)
    requires |s.runs| == 1 && GaugeOk(s) && s.runs[0].callback.InUp?
    ensures GaugeOk(Step(cfg, s, Advance(0))) && DownOk(Step(cfg, s, Advance(0)))
  {
    LastOfCallbacksExtends(s.flags, UpSets(0));
    RunActionShape(cfg, s, Advance(0));
  }

  lemma DownKeepsGauge(cfg: Config, s: State)
    requires |s.runs| == 1 && GaugeOk(s) && DownOk(s) && s.runs[0].callback.InDown?
    ensures GaugeOk(Step(cfg, s, Advance(0))) && DownOk(Step(cfg, s, Advance(0)))
  {
    LastOfCallbacksExtends(s.flags, DownClears(0));
    RunActionShape(cfg, s, Advance(0));
  }

  lemma AdvanceKeepsGauge(cfg: Config, s: State, i: nat)
    requires |s.runs| == 1 && GaugeOk(s) && DownOk(s)
    ensures GaugeOk(Step(cfg, s, Advance(i))) && DownOk(Step(cfg, s, Advance(i)))
  {
    if i == 0 {
      if s.runs[0].callback.InUp? {
        UpKeepsGauge(cfg, s);
      } else if s.runs[0].callback.InDown? {
        DownKeepsGauge(cfg, s);
      }
    }
  }

  lemma StepKeepsGauge(cfg: Config, s: State, a: Action)
    requires |Step(cfg, s, a).runs| <= 1 && GaugeOk(s) && DownOk(s)
    ensures GaugeOk(Step(cfg, s, a)) && DownOk(Step(cfg, s, a))
  {
    if a.Advance? && |s.runs| == 1 {
      AdvanceKeepsGauge(cfg, s, a.run);
    } else if a.ClearFlag? {
      LastOfCallbacksExtends(s.flags, StopClears(a.stop));
    } else if AboutARun(a) && a.run < |s.runs| {
      RunActionShape(cfg, s, a);
    }
  }

  lemma {:induction false} GaugeReachable(cfg: Config, actions: seq<Action>)
    requires |Exec(cfg, Init(cfg), actions).runs| <= 1
    ensures GaugeOk(Exec(cfg, Init(cfg), actions)) && DownOk(Exec(cfg, Init(cfg), actions))
  {
    if actions != [] {
      var n := |actions| - 1;
      WhoAssigns(cfg, Exec(cfg, Init(cfg), actions[..n]), actions[n]);
      GaugeReachable(cfg, actions[..n]);
      StepKeepsGauge(cfg, Exec(cfg, Init(cfg), actions[..n]), actions[n]);
    }
  }

  // The flag mirrors the gauge, with a single Start and no callback between the
  // two, exactly unless the last to write the flag was a Stop, over an Up: then the
  // gauge goes on reporting a connection.
  lemma FlagMirrorsTheGaugeExactlyUnless(cfg: Config, actions: seq<Action>)
    requires var s := Exec(cfg, Init(cfg), actions);
      |s.runs| <= 1 && forall i | 0 <= i < |s.runs| :: !BeforeItsGauge(s.runs[i].callback)
    ensures var s := Exec(cfg, Init(cfg), actions);
      && (s.connected != s.gauge <==>
            s.flags != [] && s.flags[|s.flags| - 1].StopClears? && LastOfCallbacks(s.flags))
      && (s.connected ==> s.gauge)
  {
    Reachable(cfg, actions);
    GaugeReachable(cfg, actions);
  }
}
