/**
 client/client.go and client/router.go together, for one Start: the router outlives
 the connections of the manager, whose packets reach it, and whose Up and Down reset
 its aliases.
*/
module Sessions {
  import opened Wrappers
  import opened Recipients
  import L = Lifecycle
  import M = RouterMachine
  import Runs = RouterRuns

  // `session` numbers the connections, and `live` says whether the latest one
  // stands. `closed` records that Down has run since it fell, when none of its
  // Routes was left to resolve.
  datatype State = State(life: L.State, router: M.State, session: nat, live: bool, closed: bool)

  datatype Action =
    | Connect
    | Lose
    | Receive(id: nat, pb: Packet)
    | Life(statement: L.Action)
    | Inside(step: M.Action)

  function Init(cfg: L.Config): State {
    State(L.Init(cfg), M.Init(), 0, false, true)
  }

  predicate BeginsDown(life: L.State, run: nat, a: L.Action) {
    a == L.Down(run) && run < |life.runs| && !life.runs[run].phase.Checked? && life.runs[run].callback.Idle?
  }

  // Up resets the aliases once the limiter knows of the success.
  predicate ResetsInUp(life: L.State, run: nat, a: L.Action) {
    a == L.Advance(run) && run < |life.runs| && life.runs[run].callback.InUp? && life.runs[run].callback.pc == 0
  }

  predicate NoneUnresolved(r: M.State) {
    forall id | id in r.routes :: !r.routes[id].phase.Snapped?
  }

  function Step(cfg: L.Config, m: Matcher, run: nat, s: State, a: Action): State {
    match a
    case Connect => if s.live then s else s.(session := s.session + 1, live := true, closed := false)
    case Lose => s.(live := false)
    case Receive(id, pb) => if !s.live then s else s.(router := M.Step(m, s.router, M.Snapshot(id, pb, s.session)))
    case Inside(b) => if b.Snapshot? || b.ResetAliases? then s else s.(router := M.Step(m, s.router, b))
    case Life(b) =>
      var moved := s.(life := L.Step(cfg, s.life, b));
      if BeginsDown(s.life, run, b) then
        moved.(router := M.Step(m, s.router, M.ResetAliases),
               closed := s.closed || (!s.live && NoneUnresolved(s.router)))
      else if ResetsInUp(s.life, run, b) then moved.(router := M.Step(m, s.router, M.ResetAliases))
      else moved
  }

  function Exec(cfg: L.Config, m: Matcher, run: nat, actions: seq<Action>): State {
    if actions == [] then Init(cfg)
    else Step(cfg, m, run, Exec(cfg, m, run, actions[..|actions| - 1]), actions[|actions| - 1])
  }

  // What is asked of the connection manager: it has run Down on a connection whose
  // Routes have resolved before it makes the next one.
  predicate DownComesBetween(cfg: L.Config, m: Matcher, run: nat, actions: seq<Action>) {
    forall k | 0 <= k < |actions| && actions[k].Connect? ::
      Exec(cfg, m, run, actions[..k]).live || Exec(cfg, m, run, actions[..k]).closed
  }

  ghost predicate Inv(m: Matcher, s: State) {
    && M.Inv(m, s.router) && Runs.Separated(s.router) && Runs.HandedOver(s.router, s.session)
    && (s.closed ==> !s.live && forall session: nat :: Runs.HandedOver(s.router, session))
  }

  lemma RouterStepKeepsSeparated(m: Matcher, r: M.State, b: M.Action)
    requires Runs.Separated(r) && (b.Snapshot? ==> Runs.HandedOver(r, b.session))
    ensures Runs.Separated(M.Step(m, r, b))
  {
    if b.Resolve? {
      Runs.ResolveKeepsSeparation(m, r, b.id);
    } else {
      Runs.OtherStepsKeepSeparation(m, r, b);
    }
  }

  // A step of the router in a product that is otherwise as it was.
  lemma RouterStepKeepsInv(m: Matcher, s: State, s': State, b: M.Action)
    requires Inv(m, s) && s' == s.(life := s'.life, router := M.Step(m, s.router, b))
    requires b.Snapshot? ==> s.live && b.session == s.session
    ensures Inv(m, s')
  {
    M.StepKeepsInv(m, s.router, b);
    RouterStepKeepsSeparated(m, s.router, b);
    Runs.StaysHandedOver(m, s.router, b, s.session);
    if s.closed {
      forall session: nat
        ensures Runs.HandedOver(s'.router, session)
      {
        Runs.StaysHandedOver(m, s.router, b, session);
      }
    }
  }

  // Down on a connection that has fallen and resolved leaves nothing behind.
  lemma ResetClosesTheSession(m: Matcher, r: M.State, session: nat)
    requires NoneUnresolved(r)
    ensures Runs.HandedOver(M.Step(m, r, M.ResetAliases), session)
  {
    var r' := M.Step(m, r, M.ResetAliases);
    assert r'.hist[|r.hist|].Reset?;
  }

  lemma StepKeepsInv(cfg: L.Config, m: Matcher, run: nat, s: State, a: Action)
    requires Inv(m, s) && (a.Connect? ==> s.live || s.closed)
    ensures Inv(m, Step(cfg, m, run, s, a))
  {
    var s' := Step(cfg, m, run, s, a);
    match a {
      case Connect =>
      case Lose =>
      case Receive(id, pb) =>
        if s.live {
          RouterStepKeepsInv(m, s, s', M.Snapshot(id, pb, s.session));
        }
      case Inside(b) =>
        if !b.Snapshot? && !b.ResetAliases? {
          RouterStepKeepsInv(m, s, s', b);
        }
      case Life(b) =>
        if BeginsDown(s.life, run, b) || ResetsInUp(s.life, run, b) {
          RouterStepKeepsInv(m, s, s'.(closed := s.closed), M.ResetAliases);
          if s'.closed && !s.closed {
            forall session: nat
              ensures Runs.HandedOver(s'.router, session)
            {
              ResetClosesTheSession(m, s.router, session);
            }
          }
        }
    }
  }

  lemma {:induction false} Reachable(cfg: L.Config, m: Matcher, run: nat, actions: seq<Action>)
    requires DownComesBetween(cfg, m, run, actions)
    ensures Inv(m, Exec(cfg, m, run, actions))
  {
    if actions == [] {
      Runs.InitOk(m);
    } else {
      var n := |actions| - 1;
      forall k | 0 <= k < n
        ensures actions[..n][..k] == actions[..k] && actions[..n][k] == actions[k]
      {
      }
      Reachable(cfg, m, run, actions[..n]);
      StepKeepsInv(cfg, m, run, Exec(cfg, m, run, actions[..n]), actions[n]);
    }
  }

  // In every execution in which Down runs between connections, once the Routes of
  // the fallen one have resolved, every alias-only packet is delivered under the
  // topic a packet of its own connection last registered.
  lemma DownKeepsAliasesFresh(cfg: L.Config, m: Matcher, run: nat, actions: seq<Action>, id: nat)
    requires DownComesBetween(cfg, m, run, actions) && id in Exec(cfg, m, run, actions).router.routes
    ensures Runs.RoutedFresh(Exec(cfg, m, run, actions).router, id)
  {
    Reachable(cfg, m, run, actions);
    Runs.ResetsKeepRoutesFresh(m, Exec(cfg, m, run, actions).router, id);
  }

  // ----- What the reset in Up is for -----

  lemma {:induction false} RouterInv(cfg: L.Config, m: Matcher, run: nat, actions: seq<Action>)
    ensures M.Inv(m, Exec(cfg, m, run, actions).router)
  {
    if actions == [] {
      Runs.InitOk(m);
    } else {
      var n := |actions| - 1;
      RouterInv(cfg, m, run, actions[..n]);
      RouterMoves(cfg, m, run, Exec(cfg, m, run, actions[..n]), actions[n]);
    }
  }

  lemma RouterMoves(cfg: L.Config, m: Matcher, run: nat, s: State, a: Action)
    ensures M.Inv(m, s.router) ==> M.Inv(m, Step(cfg, m, run, s, a).router)
  {
    var b := RouterAction(cfg, run, s, a);
    if b.Some? && M.Inv(m, s.router) {
      M.StepKeepsInv(m, s.router, b.value);
    }
  }

  // The step of the router an action makes, if it makes one.
  function RouterAction(cfg: L.Config, run: nat, s: State, a: Action): Option<M.Action> {
    match a
    case Receive(id, pb) => if s.live then Some(M.Snapshot(id, pb, s.session)) else None
    case Inside(b) => if b.Snapshot? || b.ResetAliases? then None else Some(b)
    case Life(b) =>
      if BeginsDown(s.life, run, b) || ResetsInUp(s.life, run, b) then Some(M.ResetAliases) else None
    case _ => None
  }

  // Since event `from` only packets of this session have resolved, only such are
  // still to resolve, and all others were followed by a reset before that.
  predicate Window(r: M.State, from: nat, session: nat) {
    && from <= |r.hist|
    && (forall id | id in r.routes && r.routes[id].phase.Snapped? :: r.routes[id].session == session)
    && (forall i | 0 <= i < from && r.hist[i].Resolved? && r.hist[i].session != session ::
          exists k | i < k < from :: r.hist[k].Reset?)
    && (forall i | from <= i < |r.hist| && r.hist[i].Resolved? :: r.hist[i].session == session)
  }

  lemma WindowStays(m: Matcher, r: M.State, b: M.Action, from: nat, session: nat)
    requires Window(r, from, session) && (b.Snapshot? ==> b.session == session)
    ensures Window(M.Step(m, r, b), from, session)
  {
    var r' := M.Step(m, r, b);
    M.HistoryShape(m, r, b);
    assert r.hist <= r'.hist;
    forall i | 0 <= i < from && r'.hist[i].Resolved? && r'.hist[i].session != session
      ensures exists k | i < k < from :: r'.hist[k].Reset?
    {
      assert r'.hist[i] == r.hist[i];
      var k :| i < k < from && r.hist[k].Reset?;
      assert r'.hist[k].Reset?;
    }
  }

  predicate NoConnect(actions: seq<Action>) {
    forall a | a in actions :: !a.Connect?
  }

  lemma StepKeepsWindow(cfg: L.Config, m: Matcher, run: nat, s: State, a: Action, from: nat)
    requires Window(s.router, from, s.session) && !a.Connect?
    ensures Window(Step(cfg, m, run, s, a).router, from, s.session) && Step(cfg, m, run, s, a).session == s.session
  {
    var b := RouterAction(cfg, run, s, a);
    if b.Some? {
      WindowStays(m, s.router, b.value, from, s.session);
    }
  }

  lemma ExecLast(cfg: L.Config, m: Matcher, run: nat, actions: seq<Action>, a: Action)
    ensures Exec(cfg, m, run, actions + [a]) == Step(cfg, m, run, Exec(cfg, m, run, actions), a)
  {
    assert (actions + [a])[..|actions|] == actions;
  }

  lemma {:induction false} WindowLasts(cfg: L.Config, m: Matcher, run: nat, pre: seq<Action>, post: seq<Action>,
                                       from: nat, session: nat)
    requires NoConnect(post) && Exec(cfg, m, run, pre).session == session
    requires Window(Exec(cfg, m, run, pre).router, from, session)
    ensures Exec(cfg, m, run, pre + post).session == session
    ensures Window(Exec(cfg, m, run, pre + post).router, from, session)
  {
    if post == [] {
      assert pre + post == pre;
    } else {
      var n := |post| - 1;
      assert post[n] in post;
      WindowLasts(cfg, m, run, pre, post[..n], from, session);
      StepKeepsWindow(cfg, m, run, Exec(cfg, m, run, pre + post[..n]), post[n], from);
      ExecLast(cfg, m, run, pre + post[..n], post[n]);
      assert pre + post == pre + post[..n] + [post[n]];
    }
  }

  lemma ResetOpensTheWindow(m: Matcher, r: M.State, session: nat)
    requires forall id | id in r.routes && r.routes[id].phase.Snapped? :: r.routes[id].session == session
    ensures var r' := M.Step(m, r, M.ResetAliases); Window(r', |r'.hist|, session)
  {
    var r' := M.Step(m, r, M.ResetAliases);
    assert r'.hist[|r.hist|].Reset?;
  }

  lemma FreshInTheWindow(m: Matcher, r: M.State, from: nat, session: nat, id: nat)
    requires M.Inv(m, r) && Window(r, from, session) && id in r.routes
    requires r.routes[id].phase.Done? ==> from <= r.routes[id].phase.resolved
    ensures Runs.RoutedFresh(r, id)
  {
    var route := r.routes[id];
    assert M.RouteOk(m, r, route);
    if route.phase.Done? && route.pb.topic == "" {
      var i, a := route.phase.resolved, AliasOf(route.pb).value;
      Runs.AnswersAreCurrent(r.hist, i, a);
      var k: nat :| k < i && M.Current(r.hist[..i], a, k) && r.hist[k].pb.topic == r.hist[i].answer;
      assert r.hist[..i][k] == r.hist[k];
      assert forall j | k < j < i :: !r.hist[j].Reset? by {
        assert forall j | k < j < i :: r.hist[..i][j] == r.hist[j];
      }
      assert r.hist[k].session == session;
    }
  }

  // Without any Down before it, a reset in Up, made when no Route of another
  // connection is left to resolve, makes every alias that is resolved from then on
  // until the next connection a fresh one.
  lemma UpClosesTheWindow(cfg: L.Config, m: Matcher, run: nat, pre: seq<Action>, post: seq<Action>, id: nat)
    requires var s := Exec(cfg, m, run, pre);
      && ResetsInUp(s.life, run, L.Advance(run))
      && forall j | j in s.router.routes && s.router.routes[j].phase.Snapped? ::
           s.router.routes[j].session == s.session
    requires NoConnect(post)
    requires var r := Exec(cfg, m, run, pre + [Life(L.Advance(run))] + post).router;
      && id in r.routes
      && (r.routes[id].phase.Done? ==> |Exec(cfg, m, run, pre).router.hist| < r.routes[id].phase.resolved)
    ensures Runs.RoutedFresh(Exec(cfg, m, run, pre + [Life(L.Advance(run))] + post).router, id)
  {
    var s, up := Exec(cfg, m, run, pre), pre + [Life(L.Advance(run))];
    ExecLast(cfg, m, run, pre, Life(L.Advance(run)));
    ResetOpensTheWindow(m, s.router, s.session);
    WindowLasts(cfg, m, run, up, post, |s.router.hist| + 1, s.session);
    RouterInv(cfg, m, run, up + post);
    FreshInTheWindow(m, Exec(cfg, m, run, up + post).router, |s.router.hist| + 1, s.session, id);
  }
}
