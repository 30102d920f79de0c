/**
 client/client.go: Start, Stop, the connection callbacks and OnEvent, interleaved
 statement by statement. An execution is any sequence of actions; one that is not
 enabled does nothing.

 What the environment is trusted with: a connection manager runs its own
 callbacks one at a time, and publishers and subscribers are added before Start.
 Different managers, Start calls, Stop calls and OnEvent calls interleave freely.
*/
module Lifecycle {
  import opened Wrappers
  import opened Topics
  import L = Limiter

  // filters is what buildSubscribeOptions returns.
  datatype Config = Config(max: int, filters: seq<SubscribeOptions>, publishers: nat)

  // The callback a manager is in, and the next statement of it.
  datatype Callback =
    | Idle
    | InUp(first: bool, pc: nat)
    | InDown(pc: nat)
    | InError
    | GivingUp(section: nat)

  // Start after its check; Waiting is the select.
  datatype Phase = Checked | Waiting | Seen | Returned | Failed

  datatype Cause = StartFailed | LimiterGaveUp | Stopped

  // One Start call that got past its check: its manager, firstConn, startReady
  // and limiter. `ups` counts the Up callbacks past the reconnect counter, and
  // `causes` says who cancelled runCtx.
  datatype Run = Run(
    phase: Phase,
    callback: Callback,
    firstConn: bool,
    ready: nat,
    limiter: L.State,
    attempts: seq<seq<SubscribeOptions>>,
    ups: nat,
    causes: set<Cause>)

  datatype StopPhase = Disconnecting | FlagCleared | Finished

  datatype StopCall = StopCall(target: nat, phase: StopPhase)

  datatype FlagWrite = UpSets(run: nat) | DownClears(run: nat) | StopClears(stop: nat)

  datatype State = State(
    runs: seq<Run>,
    cm: Option<nat>,
    connected: bool,
    gauge: bool,
    fns: seq<Option<nat>>,
    reconnects: nat,
    stops: seq<StopCall>,
    flags: seq<FlagWrite>,
    refused: seq<nat>)

  function Init(cfg: Config): State {
    State([], None, false, false, seq(cfg.publishers, _ => None), 0, [], [], [])
  }

  datatype Action =
    | BeginStart
    | NewConnection(run: nat, ok: bool)
    | SeeReady(run: nat)
    | GiveUpWaiting(run: nat)
    | Assign(run: nat)
    | Up(run: nat)
    | Down(run: nat)
    | ConnectError(run: nat)
    | Advance(run: nat)
    | BeginStop
    | ClearFlag(stop: nat)
    | FinishStop(stop: nat)
    | OnEvent(publisher: nat)

  // ----- One run -----

  // The statements of OnConnectionUp: 0 limiter.connected, 1 Subscribe, 2 the
  // flag, 3 the gauge, 4 the reconnect counter, and on the first connection
  // 5 firstConn, then each publisher, then close(startReady). The alias reset
  // between 0 and 1 is the router's; the OnConnect hook before 5 is foreign code.
  function UpLength(cfg: Config, first: bool): nat {
    if first then 7 + cfg.publishers else 5
  }

  function AdvanceUp(cfg: Config, run: Run): Run
    requires run.callback.InUp?
  {
    var InUp(first, pc) := run.callback;
    var r := run.(callback := if pc + 1 == UpLength(cfg, first) then Idle else InUp(first, pc + 1));
    if pc == 0 then r.(limiter := L.Step(cfg.max, r.limiter, L.Succeed))
    else if pc == 1 then if |cfg.filters| > 0 then r.(attempts := r.attempts + [cfg.filters]) else r
    else if pc == 4 then r.(ups := r.ups + 1)
    else if pc == 5 then r.(firstConn := false)
    else if pc == 6 + cfg.publishers then r.(ready := r.ready + 1)
    else r
  }

  // OnConnectError: limiter.failed, its locked section and then its stop call.
  function CountError(cfg: Config, r: Run): Run {
    var section := |r.limiter.log|;
    var limiter := L.Step(cfg.max, r.limiter, L.Fail);
    r.(limiter := limiter, callback := if section in limiter.pending then GivingUp(section) else Idle)
  }

  function GiveUp(cfg: Config, r: Run): Run
    requires r.callback.GivingUp?
  {
    r.(callback := Idle, causes := r.causes + {LimiterGaveUp},
       limiter := L.Step(cfg.max, r.limiter, L.CallStop(r.callback.section)))
  }

  function AdvanceRun(cfg: Config, r: Run): Run {
    match r.callback
    case Idle => r
    case InUp(_, _) => AdvanceUp(cfg, r)
    case InDown(pc) => r.(callback := if pc == 0 then InDown(1) else Idle)
    case InError => CountError(cfg, r)
    case GivingUp(_) => GiveUp(cfg, r)
  }

  // What an action does to the run it is about.
  function RunStep(cfg: Config, r: Run, a: Action): Run {
    var free := !r.phase.Checked? && r.callback.Idle?;
    match a
    case NewConnection(_, ok) =>
      if !r.phase.Checked? then r
      else if ok then r.(phase := Waiting)
      else r.(phase := Failed, causes := r.causes + {StartFailed})
    case SeeReady(_) => if r.phase.Waiting? && r.ready > 0 then r.(phase := Seen) else r
    case GiveUpWaiting(_) =>
      if r.phase.Waiting? then r.(phase := Failed, causes := r.causes + {StartFailed}) else r
    case Assign(_) => if r.phase.Seen? then r.(phase := Returned) else r
    case Up(_) => if free then r.(callback := InUp(r.firstConn, 0)) else r
    case Down(_) => if free then r.(callback := InDown(0)) else r
    case ConnectError(_) => if free then r.(callback := InError) else r
    case Advance(_) => AdvanceRun(cfg, r)
    case _ => r
  }

  // ----- The shared state -----

  datatype Effect =
    | Local
    | WriteFlag(value: bool)
    | WriteGauge(value: bool)
    | CountReconnect
    | SetPublish(publisher: nat)

  // What the next statement of a callback does outside its run.
  function EffectOf(cfg: Config, r: Run): Effect {
    match r.callback
    case InUp(first, pc) =>
      if pc == 2 then WriteFlag(true)
      else if pc == 3 then WriteGauge(true)
      else if pc == 4 && !first then CountReconnect
      else if 6 <= pc < 6 + cfg.publishers then SetPublish(pc - 6)
      else Local
    case InDown(pc) => if pc == 0 then WriteFlag(false) else WriteGauge(false)
    case _ => Local
  }

  function Apply(s: State, i: nat, e: Effect): State {
    match e
    case Local => s
    case WriteFlag(b) => s.(connected := b, flags := s.flags + [if b then UpSets(i) else DownClears(i)])
    case WriteGauge(b) => s.(gauge := b)
    case CountReconnect => s.(reconnects := s.reconnects + 1)
    case SetPublish(p) => if p < |s.fns| then s.(fns := s.fns[p := Some(i)]) else s
  }

  function Step(cfg: Config, s: State, a: Action): State {
    match a
    case BeginStart =>
      if s.cm.Some? then s else
      s.(runs := s.runs + [Run(Checked, Idle, true, 0, L.Init(), [], 0, {})])
    case BeginStop =>
      if s.cm.None? then s else s.(stops := s.stops + [StopCall(s.cm.value, Disconnecting)])
    case ClearFlag(k) =>
      if k >= |s.stops| || !s.stops[k].phase.Disconnecting? then s else
      s.(stops := s.stops[k := s.stops[k].(phase := FlagCleared)],
         connected := false, flags := s.flags + [StopClears(k)])
    case FinishStop(k) =>
      if k >= |s.stops| || !s.stops[k].phase.FlagCleared? || s.stops[k].target >= |s.runs| then s else
      var i := s.stops[k].target;
      s.(stops := s.stops[k := s.stops[k].(phase := Finished)],
         runs := s.runs[i := s.runs[i].(causes := s.runs[i].causes + {Stopped})])
    case OnEvent(p) =>
      if p >= |s.fns| || s.fns[p].Some? then s else s.(refused := s.refused + [p])
    case _ =>
      if a.run >= |s.runs| then s else
      var r := s.runs[a.run];
      var moved := s.(runs := s.runs[a.run := RunStep(cfg, r, a)]);
      if a.Assign? && r.phase.Seen? then moved.(cm := Some(a.run))
      else if a.Advance? then Apply(moved, a.run, EffectOf(cfg, r))
      else moved
  }

  function Exec(cfg: Config, s: State, actions: seq<Action>): State {
    if actions == [] then s
    else Step(cfg, Exec(cfg, s, actions[..|actions| - 1]), actions[|actions| - 1])
  }

  lemma {:induction false} ExecConcat(cfg: Config, s: State, a: seq<Action>, b: seq<Action>)
    ensures Exec(cfg, s, a + b) == Exec(cfg, Exec(cfg, s, a), b)
  {
    if b == [] {
      assert a + b == a;
    } else {
      ExecConcat(cfg, s, a, b[..|b| - 1]);
      assert (a + b)[..|a + b| - 1] == a + b[..|b| - 1];
    }
  }

  // ----- The invariant -----

  // Publishers 0 to n - 1 have their publish function.
  predicate Wired(fns: seq<Option<nat>>, n: nat) {
    n <= |fns| && forall p | 0 <= p < n :: fns[p].Some?
  }

  // 1 for an Up past its subscribe attempt and not yet counted.
  function Uncounted(r: Run): nat {
    if r.callback.InUp? && 1 < r.callback.pc <= 4 then 1 else 0
  }

  // firstConn, startReady and the Up count agree with where the callback is.
  predicate ReadyOk(cfg: Config, r: Run) {
    match r.callback
    case InUp(first, pc) =>
      && pc < UpLength(cfg, first)
      && (first ==> r.ready == 0 && r.ups == (if pc <= 4 then 0 else 1) && r.firstConn == (pc <= 5))
      && (!first ==> r.ready == 1 && r.ups >= 1 && !r.firstConn)
    case _ => r.ready == (if r.firstConn then 0 else 1) && (r.ups == 0 <==> r.firstConn)
  }

  predicate WiringOk(cfg: Config, fns: seq<Option<nat>>, r: Run) {
    && |fns| == cfg.publishers
    && (r.callback.InUp? && r.callback.first && r.callback.pc > 6 ==> Wired(fns, r.callback.pc - 6))
    && (r.ready == 1 ==> Wired(fns, cfg.publishers))
  }

  predicate PhaseOk(r: Run) {
    && (r.phase.Checked? ==> r.callback.Idle? && r.firstConn)
    && (r.phase.Seen? || r.phase.Returned? ==> r.ready == 1)
    && (StartFailed in r.causes <==> r.phase.Failed?)
  }

  predicate AttemptsOk(cfg: Config, r: Run) {
    && |r.attempts| == (if cfg.filters == [] then 0 else r.ups + Uncounted(r))
    && (forall i | 0 <= i < |r.attempts| :: r.attempts[i] == cfg.filters)
  }

  ghost predicate LimiterOk(cfg: Config, r: Run) {
    && L.Inv(cfg.max, r.limiter)
    && r.limiter.pending == (if r.callback.GivingUp? then {r.callback.section} else {})
    && (LimiterGaveUp in r.causes <==> r.limiter.stops != [])
  }

  ghost predicate RunOk(cfg: Config, fns: seq<Option<nat>>, r: Run) {
    ReadyOk(cfg, r) && WiringOk(cfg, fns, r) && PhaseOk(r) && AttemptsOk(cfg, r) && LimiterOk(cfg, r)
  }

  function Reconnects(r: Run): nat {
    if r.ups == 0 then 0 else r.ups - 1
  }

  function Total(runs: seq<Run>): nat {
    if runs == [] then 0 else Total(runs[..|runs| - 1]) + Reconnects(runs[|runs| - 1])
  }

  lemma {:induction false} TotalUpdate(runs: seq<Run>, i: nat, r: Run)
    requires i < |runs|
    ensures Total(runs[i := r]) == Total(runs) - Reconnects(runs[i]) + Reconnects(r)
  {
    var n := |runs| - 1;
    if i < n {
      assert runs[i := r][..n] == runs[..n][i := r];
      TotalUpdate(runs[..n], i, r);
    } else {
      assert runs[i := r][..n] == runs[..n];
    }
  }

  function LastFlag(flags: seq<FlagWrite>): bool {
    flags != [] && flags[|flags| - 1].UpSets?
  }

  predicate HasReturned(s: State, i: nat) {
    i < |s.runs| && s.runs[i].phase.Returned?
  }

  // Only a Stop that found a started client clears the flag.
  predicate StopsOk(s: State) {
    && (s.cm.Some? ==> HasReturned(s, s.cm.value))
    && (forall k | 0 <= k < |s.stops| :: HasReturned(s, s.stops[k].target))
    && (forall j | 0 <= j < |s.flags| && s.flags[j].StopClears? ::
          s.flags[j].stop < |s.stops| && !s.stops[s.flags[j].stop].phase.Disconnecting?)
  }

  ghost predicate Inv(cfg: Config, s: State) {
    && (forall i | 0 <= i < |s.runs| :: RunOk(cfg, s.fns, s.runs[i]))
    && |s.fns| == cfg.publishers && s.connected == LastFlag(s.flags) && s.reconnects == Total(s.runs) && StopsOk(s)
  }

  // ----- Every step keeps it -----

  predicate Grown(fns: seq<Option<nat>>, fns': seq<Option<nat>>) {
    |fns| == |fns'| && forall p | 0 <= p < |fns| && fns[p].Some? :: fns'[p].Some?
  }

  function FnsAfter(fns: seq<Option<nat>>, i: nat, e: Effect): seq<Option<nat>> {
    if e.SetPublish? && e.publisher < |fns| then fns[e.publisher := Some(i)] else fns
  }

  lemma RunStaysOk(cfg: Config, fns: seq<Option<nat>>, fns': seq<Option<nat>>, r: Run)
    requires RunOk(cfg, fns, r) && Grown(fns, fns')
    ensures RunOk(cfg, fns', r)
  {
  }

  lemma SuccessKeepsLimiter(cfg: Config, r: Run)
    requires LimiterOk(cfg, r) && r.callback.InUp?
    ensures LimiterOk(cfg, AdvanceUp(cfg, r))
  {
    L.StepKeepsInv(cfg.max, r.limiter, L.Succeed);
  }

  lemma ErrorKeepsLimiter(cfg: Config, r: Run)
    requires LimiterOk(cfg, r) && r.callback.InError?
    ensures LimiterOk(cfg, CountError(cfg, r))
  {
    L.StepKeepsInv(cfg.max, r.limiter, L.Fail);
  }

  lemma GiveUpKeepsLimiter(cfg: Config, r: Run)
    requires LimiterOk(cfg, r) && r.callback.GivingUp?
    ensures LimiterOk(cfg, GiveUp(cfg, r))
  {
    L.StepKeepsInv(cfg.max, r.limiter, L.CallStop(r.callback.section));
  }

  lemma AdvanceKeepsLimiter(cfg: Config, r: Run)
    requires LimiterOk(cfg, r)
    ensures LimiterOk(cfg, AdvanceRun(cfg, r))
  {
    if r.callback.InUp? {
      SuccessKeepsLimiter(cfg, r);
    } else if r.callback.InError? {
      ErrorKeepsLimiter(cfg, r);
    } else if r.callback.GivingUp? {
      GiveUpKeepsLimiter(cfg, r);
    }
  }

  lemma UpKeepsWiring(cfg: Config, fns: seq<Option<nat>>, i: nat, r: Run)
    requires ReadyOk(cfg, r) && WiringOk(cfg, fns, r) && r.callback.InUp?
    ensures WiringOk(cfg, FnsAfter(fns, i, EffectOf(cfg, r)), AdvanceUp(cfg, r))
  {
  }

  lemma UpKeepsTheRest(cfg: Config, r: Run)
    requires ReadyOk(cfg, r) && PhaseOk(r) && AttemptsOk(cfg, r) && r.callback.InUp?
    ensures ReadyOk(cfg, AdvanceUp(cfg, r)) && PhaseOk(AdvanceUp(cfg, r)) && AttemptsOk(cfg, AdvanceUp(cfg, r))
  {
  }

  lemma AdvanceKeepsRun(cfg: Config, fns: seq<Option<nat>>, i: nat, r: Run)
    requires RunOk(cfg, fns, r)
    ensures Grown(fns, FnsAfter(fns, i, EffectOf(cfg, r)))
    ensures RunOk(cfg, FnsAfter(fns, i, EffectOf(cfg, r)), AdvanceRun(cfg, r))
  {
    AdvanceKeepsLimiter(cfg, r);
    if r.callback.InUp? {
      UpKeepsWiring(cfg, fns, i, r);
      UpKeepsTheRest(cfg, r);
    }
  }

  lemma RunStepKeepsRun(cfg: Config, fns: seq<Option<nat>>, r: Run, a: Action)
    requires RunOk(cfg, fns, r) && !a.Advance?
    ensures RunOk(cfg, fns, RunStep(cfg, r, a))
  {
  }

  predicate AboutARun(a: Action) {
    !a.BeginStart? && !a.BeginStop? && !a.ClearFlag? && !a.FinishStop? && !a.OnEvent?
  }

  lemma OneRunChanged(cfg: Config, fns: seq<Option<nat>>, runs: seq<Run>, fns': seq<Option<nat>>, i: nat, r: Run,
                      runs': seq<Run>)
    requires forall k | 0 <= k < |runs| :: RunOk(cfg, fns, runs[k])
    requires i < |runs| && RunOk(cfg, fns', r) && Grown(fns, fns') && runs' == runs[i := r]
    ensures forall k | 0 <= k < |runs'| :: RunOk(cfg, fns', runs'[k])
  {
    forall k | 0 <= k < |runs'|
      ensures RunOk(cfg, fns', runs'[k])
    {
      if k != i {
        RunStaysOk(cfg, fns, fns', runs[k]);
      }
    }
  }

  lemma NewRunOk(cfg: Config, fns: seq<Option<nat>>)
    requires |fns| == cfg.publishers
    ensures RunOk(cfg, fns, Run(Checked, Idle, true, 0, L.Init(), [], 0, {}))
  {
  }

  lemma StoppedRunOk(cfg: Config, fns: seq<Option<nat>>, r: Run)
    requires RunOk(cfg, fns, r)
    ensures RunOk(cfg, fns, r.(causes := r.causes + {Stopped}))
  {
  }

  // The shape of a step about a run: that run moves, and at most one publish
  // function is set.
  lemma RunActionShape(cfg: Config, s: State, a: Action)
    requires AboutARun(a) && a.run < |s.runs|
    ensures Step(cfg, s, a).runs == s.runs[a.run := RunStep(cfg, s.runs[a.run], a)]
    ensures Step(cfg, s, a).fns == if a.Advance? then FnsAfter(s.fns, a.run, EffectOf(cfg, s.runs[a.run])) else s.fns
    ensures Step(cfg, s, a).reconnects == s.reconnects
      + if a.Advance? && EffectOf(cfg, s.runs[a.run]).CountReconnect? then 1 else 0
    ensures |Step(cfg, s, a).fns| == |s.fns|
  {
  }

  lemma StepKeepsRuns(cfg: Config, s: State, a: Action)
    requires |s.fns| == cfg.publishers && forall i | 0 <= i < |s.runs| :: RunOk(cfg, s.fns, s.runs[i])
    ensures Grown(s.fns, Step(cfg, s, a).fns)
    ensures forall i | 0 <= i < |Step(cfg, s, a).runs| :: RunOk(cfg, Step(cfg, s, a).fns, Step(cfg, s, a).runs[i])
  {
    if a.BeginStart? {
      NewRunOk(cfg, s.fns);
    } else if a.FinishStop? && Step(cfg, s, a) != s {
      var i := s.stops[a.stop].target;
      StoppedRunOk(cfg, s.fns, s.runs[i]);
      var r := s.runs[i].(causes := s.runs[i].causes + {Stopped});
      OneRunChanged(cfg, s.fns, s.runs, s.fns, i, r, s.runs[i := r]);
    } else if AboutARun(a) && a.run < |s.runs| {
      RunActionShape(cfg, s, a);
      RunActionKeepsRuns(cfg, s.fns, s.runs, a);
    }
  }

  lemma RunActionKeepsRuns(cfg: Config, fns: seq<Option<nat>>, runs: seq<Run>, a: Action)
    requires forall i | 0 <= i < |runs| :: RunOk(cfg, fns, runs[i])
    requires AboutARun(a) && a.run < |runs|
    ensures var fns' := if a.Advance? then FnsAfter(fns, a.run, EffectOf(cfg, runs[a.run])) else fns;
      var runs' := runs[a.run := RunStep(cfg, runs[a.run], a)];
      Grown(fns, fns') && forall i | 0 <= i < |runs'| :: RunOk(cfg, fns', runs'[i])
  {
    var r := RunStep(cfg, runs[a.run], a);
    if a.Advance? {
      AdvanceKeepsRun(cfg, fns, a.run, runs[a.run]);
      OneRunChanged(cfg, fns, runs, FnsAfter(fns, a.run, EffectOf(cfg, runs[a.run])), a.run, r, runs[a.run := r]);
    } else {
      RunStepKeepsRun(cfg, fns, runs[a.run], a);
      OneRunChanged(cfg, fns, runs, fns, a.run, r, runs[a.run := r]);
    }
  }

  // The counter goes up exactly with an Up of a run that already had one.
  lemma ReconnectIsCounted(cfg: Config, r: Run, a: Action)
    requires ReadyOk(cfg, r)
    ensures Reconnects(RunStep(cfg, r, a)) == Reconnects(r)
      + if a.Advance? && EffectOf(cfg, r).CountReconnect? then 1 else 0
  {
  }

  lemma StepKeepsTotal(cfg: Config, s: State, a: Action)
    requires s.reconnects == Total(s.runs) && forall i | 0 <= i < |s.runs| :: RunOk(cfg, s.fns, s.runs[i])
    ensures Step(cfg, s, a).reconnects == Total(Step(cfg, s, a).runs)
  {
    if AboutARun(a) {
      if a.run < |s.runs| {
        var r := s.runs[a.run];
        assert RunOk(cfg, s.fns, r);
        RunActionShape(cfg, s, a);
        ReconnectIsCounted(cfg, r, a);
        TotalUpdate(s.runs, a.run, RunStep(cfg, r, a));
      }
    } else {
      OtherActionsKeepTotal(cfg, s, a);
    }
  }

  lemma OtherActionsKeepTotal(cfg: Config, s: State, a: Action)
    requires s.reconnects == Total(s.runs) && !AboutARun(a)
    ensures Step(cfg, s, a).reconnects == Total(Step(cfg, s, a).runs)
  {
    var s' := Step(cfg, s, a);
    if a.BeginStart? && s' != s {
      assert s'.runs[..|s.runs|] == s.runs;
    } else if a.FinishStop? && s' != s {
      var i := s.stops[a.stop].target;
      TotalUpdate(s.runs, i, s.runs[i].(causes := s.runs[i].causes + {Stopped}));
    }
  }

  lemma ReturnedIsLasting(cfg: Config, s: State, a: Action, i: nat)
    requires HasReturned(s, i)
    ensures HasReturned(Step(cfg, s, a), i)
  {
    if AboutARun(a) && a.run < |s.runs| {
      RunActionShape(cfg, s, a);
    }
  }

  // Which actions write the flag, and that the flag is what they wrote.
  lemma FlagWrites(cfg: Config, s: State, a: Action)
    requires s.connected == LastFlag(s.flags)
    ensures var s' := Step(cfg, s, a);
      && s'.connected == LastFlag(s'.flags) && |s'.stops| >= |s.stops|
      && (s'.flags == s.flags
          || (AboutARun(a) && (s'.flags == s.flags + [UpSets(a.run)] || s'.flags == s.flags + [DownClears(a.run)]))
          || (a.ClearFlag? && a.stop < |s.stops|
              && s'.flags == s.flags + [StopClears(a.stop)] && s'.stops[a.stop].phase.FlagCleared?))
      && (forall k | 0 <= k < |s.stops| :: s'.stops[k].target == s.stops[k].target
           && (!s.stops[k].phase.Disconnecting? ==> !s'.stops[k].phase.Disconnecting?))
      && (|s'.stops| > |s.stops| ==> s.cm.Some? && s'.stops == s.stops + [StopCall(s.cm.value, Disconnecting)])
      && (s'.cm == s.cm || (a.Assign? && s'.cm == Some(a.run) && HasReturned(s', a.run)))
  {
  }

  lemma StepKeepsStops(cfg: Config, s: State, a: Action)
    requires StopsOk(s) && s.connected == LastFlag(s.flags)
    ensures StopsOk(Step(cfg, s, a))
  {
    var s' := Step(cfg, s, a);
    FlagWrites(cfg, s, a);
    if s.cm.Some? {
      ReturnedIsLasting(cfg, s, a, s.cm.value);
    }
    forall k | 0 <= k < |s'.stops|
      ensures HasReturned(s', s'.stops[k].target)
    {
      if k < |s.stops| {
        ReturnedIsLasting(cfg, s, a, s.stops[k].target);
      }
    }
  }

  lemma StepKeepsInv(cfg: Config, s: State, a: Action)
    requires Inv(cfg, s)
    ensures Inv(cfg, Step(cfg, s, a))
  {
    StepKeepsRuns(cfg, s, a);
    StepKeepsTotal(cfg, s, a);
    FlagWrites(cfg, s, a);
    StepKeepsStops(cfg, s, a);
  }
}
