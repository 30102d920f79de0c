/**
 What a whole callback does when nothing interferes: the value the client's
 methods are proved against, and the same value reached by the statement-by-
 statement machine. AtomicRuns builds on it.
*/
module Callbacks {
  import opened Wrappers
  import opened Topics
  import opened Lifecycle
  import L = Limiter

  // The part of the state one run's callbacks act on.
  datatype Outcome = Outcome(
    connected: bool,
    gauge: bool,
    firstConn: bool,
    ready: nat,
    attempts: seq<seq<SubscribeOptions>>,
    reconnects: nat,
    fns: seq<Option<nat>>,
    log: seq<L.Event>,
    gaveUp: bool)

  function SeenBy(s: State, i: nat): Outcome
    requires i < |s.runs|
  {
    var r := s.runs[i];
    Outcome(s.connected, s.gauge, r.firstConn, r.ready, r.attempts, s.reconnects, s.fns,
            r.limiter.log, LimiterGaveUp in r.causes)
  }

  function AfterUp(filters: seq<SubscribeOptions>, i: nat, v: Outcome): Outcome {
    v.(connected := true,
       gauge := true,
       firstConn := false,
       ready := v.ready + if v.firstConn then 1 else 0,
       attempts := v.attempts + if filters == [] then [] else [filters],
       reconnects := v.reconnects + if v.firstConn then 0 else 1,
       fns := if v.firstConn then seq(|v.fns|, _ => Some(i)) else v.fns,
       log := v.log + [L.Success])
  }

  function AfterDown(v: Outcome): Outcome {
    v.(connected := false, gauge := false)
  }

  function AfterError(max: int, v: Outcome): Outcome {
    var log := v.log + [L.Failure];
    v.(log := log, gaveUp := v.gaveUp || L.Exhausted(max, log, |v.log|))
  }

  // n statements of run i, with nothing in between.
  function AdvanceBy(cfg: Config, s: State, i: nat, n: nat): State
    decreases n
  {
    if n == 0 then s else AdvanceBy(cfg, Step(cfg, s, Advance(i)), i, n - 1)
  }

  predicate In(s: State, i: nat, callback: Callback) {
    i < |s.runs| && s.runs[i].callback == callback
  }

  // Statement pc of OnConnectionUp, on this part of the state.
  function Statement(cfg: Config, i: nat, first: bool, pc: nat, v: Outcome): Outcome {
    if pc == 0 then v.(log := v.log + [L.Success])
    else if pc == 1 then v.(attempts := v.attempts + if cfg.filters == [] then [] else [cfg.filters])
    else if pc == 2 then v.(connected := true)
    else if pc == 3 then v.(gauge := true)
    else if pc == 4 then v.(reconnects := v.reconnects + if first then 0 else 1)
    else if pc == 5 then v.(firstConn := false)
    else if pc < 6 + |v.fns| then v.(fns := v.fns[pc - 6 := Some(i)])
    else v.(ready := v.ready + 1)
  }

  function Statements(cfg: Config, i: nat, first: bool, pc: nat, n: nat, v: Outcome): Outcome
    decreases n
  {
    if n == 0 then v else Statements(cfg, i, first, pc + 1, n - 1, Statement(cfg, i, first, pc, v))
  }

  predicate AtStatement(cfg: Config, s: State, i: nat, first: bool, pc: nat) {
    && |s.fns| == cfg.publishers && pc <= UpLength(cfg, first)
    && In(s, i, if pc == UpLength(cfg, first) then Idle else InUp(first, pc))
  }

  // The statements by what they act on: the run, the flag, gauge and counter, and
  // what only a first connection does.
  lemma RunStatement(cfg: Config, s: State, i: nat, first: bool, pc: nat)
    requires AtStatement(cfg, s, i, first, pc) && pc <= 1
    ensures AtStatement(cfg, Step(cfg, s, Advance(i)), i, first, pc + 1)
    ensures SeenBy(Step(cfg, s, Advance(i)), i) == Statement(cfg, i, first, pc, SeenBy(s, i))
  {
  }

  lemma SharedStatement(cfg: Config, s: State, i: nat, first: bool, pc: nat)
    requires AtStatement(cfg, s, i, first, pc) && 2 <= pc <= 4
    ensures AtStatement(cfg, Step(cfg, s, Advance(i)), i, first, pc + 1)
    ensures SeenBy(Step(cfg, s, Advance(i)), i) == Statement(cfg, i, first, pc, SeenBy(s, i))
  {
  }

  lemma FirstTimeStatement(cfg: Config, s: State, i: nat, pc: nat)
    requires AtStatement(cfg, s, i, true, pc) && 5 <= pc < UpLength(cfg, true)
    ensures AtStatement(cfg, Step(cfg, s, Advance(i)), i, true, pc + 1)
    ensures SeenBy(Step(cfg, s, Advance(i)), i) == Statement(cfg, i, true, pc, SeenBy(s, i))
  {
  }

  lemma UpStatement(cfg: Config, s: State, i: nat, first: bool, pc: nat)
    requires AtStatement(cfg, s, i, first, pc) && pc < UpLength(cfg, first)
    ensures AtStatement(cfg, Step(cfg, s, Advance(i)), i, first, pc + 1)
    ensures SeenBy(Step(cfg, s, Advance(i)), i) == Statement(cfg, i, first, pc, SeenBy(s, i))
  {
    if pc <= 1 {
      RunStatement(cfg, s, i, first, pc);
    } else if pc <= 4 {
      SharedStatement(cfg, s, i, first, pc);
    } else {
      FirstTimeStatement(cfg, s, i, pc);
    }
  }

  predicate Amounts(cfg: Config, s: State, s': State, i: nat, first: bool, pc: nat, n: nat)
    requires i < |s.runs|
  {
    In(s', i, Idle) && SeenBy(s', i) == Statements(cfg, i, first, pc, n, SeenBy(s, i))
  }

  lemma {:induction false} UpStatements(cfg: Config, s: State, i: nat, first: bool, pc: nat, n: nat)
    requires AtStatement(cfg, s, i, first, pc) && pc + n == UpLength(cfg, first)
    ensures Amounts(cfg, s, AdvanceBy(cfg, s, i, n), i, first, pc, n)
    decreases n
  {
    if n > 0 {
      UpStatement(cfg, s, i, first, pc);
      UpStatements(cfg, Step(cfg, s, Advance(i)), i, first, pc + 1, n - 1);
    }
  }

  lemma {:induction false} PublishStatements(cfg: Config, i: nat, k: nat, v: Outcome)
    requires |v.fns| == cfg.publishers && k <= cfg.publishers
    requires forall p | 0 <= p < k :: v.fns[p] == Some(i)
    ensures Statements(cfg, i, true, 6 + k, cfg.publishers - k + 1, v)
      == v.(fns := seq(|v.fns|, _ => Some(i)), ready := v.ready + 1)
    decreases cfg.publishers - k
  {
    if k == cfg.publishers {
      assert v.fns == seq(|v.fns|, _ => Some(i));
    } else {
      PublishStatements(cfg, i, k + 1, Statement(cfg, i, true, 6 + k, v));
    }
  }

  lemma UpStatementsAmountToAfterUp(cfg: Config, i: nat, v: Outcome)
    requires |v.fns| == cfg.publishers
    ensures Statements(cfg, i, v.firstConn, 0, UpLength(cfg, v.firstConn), v) == AfterUp(cfg.filters, i, v)
  {
    var first, n := v.firstConn, UpLength(cfg, v.firstConn);
    var v1 := Statement(cfg, i, first, 0, v);
    var v2 := Statement(cfg, i, first, 1, v1);
    var v3 := Statement(cfg, i, first, 2, v2);
    var v4 := Statement(cfg, i, first, 3, v3);
    var v5 := Statement(cfg, i, first, 4, v4);
    assert Statements(cfg, i, first, 0, n, v) == Statements(cfg, i, first, 2, n - 2, v2);
    assert Statements(cfg, i, first, 2, n - 2, v2) == Statements(cfg, i, first, 4, n - 4, v4);
    assert Statements(cfg, i, first, 4, n - 4, v4) == Statements(cfg, i, first, 5, n - 5, v5);
    if first {
      PublishStatements(cfg, i, 0, Statement(cfg, i, first, 5, v5));
    }
  }

  // An Up that nothing interferes with comes to AfterUp.
  lemma UninterruptedUp(cfg: Config, s: State, i: nat)
    requires |s.fns| == cfg.publishers && In(s, i, Idle) && !s.runs[i].phase.Checked?
    ensures var s' := AdvanceBy(cfg, Step(cfg, s, Up(i)), i, UpLength(cfg, s.runs[i].firstConn));
      In(s', i, Idle) && SeenBy(s', i) == AfterUp(cfg.filters, i, SeenBy(s, i))
  {
    var first := s.runs[i].firstConn;
    UpStatements(cfg, Step(cfg, s, Up(i)), i, first, 0, UpLength(cfg, first));
    UpStatementsAmountToAfterUp(cfg, i, SeenBy(s, i));
  }

  lemma DownStatements(cfg: Config, s: State, i: nat)
    requires In(s, i, InDown(0))
    ensures var s' := Step(cfg, Step(cfg, s, Advance(i)), Advance(i));
      In(s', i, Idle) && SeenBy(s', i) == AfterDown(SeenBy(s, i))
  {
  }

  lemma UninterruptedDown(cfg: Config, s: State, i: nat)
    requires In(s, i, Idle) && !s.runs[i].phase.Checked?
    ensures var s' := AdvanceBy(cfg, Step(cfg, s, Down(i)), i, 2);
      In(s', i, Idle) && SeenBy(s', i) == AfterDown(SeenBy(s, i))
  {
    DownStatements(cfg, Step(cfg, s, Down(i)), i);
  }

  lemma ErrorStatement(cfg: Config, s: State, i: nat)
    requires In(s, i, InError) && L.Inv(cfg.max, s.runs[i].limiter)
    ensures var s' := Step(cfg, s, Advance(i));
      var log := s.runs[i].limiter.log;
      && In(s', i, if L.Exhausted(cfg.max, log + [L.Failure], |log|) then GivingUp(|log|) else Idle)
      && SeenBy(s', i) == SeenBy(s, i).(log := log + [L.Failure])
  {
    var limiter := s.runs[i].limiter;
    L.CounterFollows(cfg.max, limiter.log);
    assert |limiter.log| !in limiter.pending by {
      assert !L.Exhausted(cfg.max, limiter.log, |limiter.log|);
    }
  }

  lemma GiveUpStatement(cfg: Config, s: State, i: nat)
    requires i < |s.runs| && (s.runs[i].callback.Idle? || s.runs[i].callback.GivingUp?)
    ensures var s' := Step(cfg, s, Advance(i));
      In(s', i, Idle) && SeenBy(s', i) == SeenBy(s, i).(gaveUp := SeenBy(s, i).gaveUp || s.runs[i].callback.GivingUp?)
  {
  }

  // Two statements when the limiter gives up, one otherwise; a further one on an
  // idle run does nothing.
  lemma UninterruptedError(cfg: Config, s: State, i: nat)
    requires In(s, i, Idle) && !s.runs[i].phase.Checked?
    requires L.Inv(cfg.max, s.runs[i].limiter)
    ensures var s' := AdvanceBy(cfg, Step(cfg, s, ConnectError(i)), i, 2);
      In(s', i, Idle) && SeenBy(s', i) == AfterError(cfg.max, SeenBy(s, i))
  {
    var s0 := Step(cfg, s, ConnectError(i));
    ErrorStatement(cfg, s0, i);
    GiveUpStatement(cfg, Step(cfg, s0, Advance(i)), i);
  }

  // ----- What a callback leaves alone -----

  // Only run i moved, and it is still in the same phase.
  predicate OnlyRun(s: State, s': State, i: nat) {
    && |s'.runs| == |s.runs| && s'.cm == s.cm && s'.stops == s.stops
    && (forall j | 0 <= j < |s.runs| && j != i :: s'.runs[j] == s.runs[j])
    && (forall j | 0 <= j < |s.runs| :: s'.runs[j].phase == s.runs[j].phase)
  }

  lemma StatementMovesOneRun(cfg: Config, s: State, a: Action)
    requires a.Advance? || a.Up? || a.Down? || a.ConnectError?
    ensures OnlyRun(s, Step(cfg, s, a), a.run)
  {
    if a.run < |s.runs| {
      RunActionShape(cfg, s, a);
    }
  }

  lemma {:induction false} StatementsMoveOneRun(cfg: Config, s: State, i: nat, n: nat)
    ensures OnlyRun(s, AdvanceBy(cfg, s, i, n), i)
    decreases n
  {
    if n > 0 {
      StatementMovesOneRun(cfg, s, Advance(i));
      StatementsMoveOneRun(cfg, Step(cfg, s, Advance(i)), i, n - 1);
    }
  }
}
