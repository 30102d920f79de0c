/**
 What RouterMachine's invariant means for whole executions: every interleaving
 of any number of routes, mutators, handlers and resets.
*/
module RouterRuns {
  import opened Wrappers
  import opened Recipients
  import opened RouterMachine

  lemma {:induction false} ExecKeepsInv(m: Matcher, s: State, actions: seq<Action>)
    requires Inv(m, s)
    ensures Inv(m, Exec(m, s, actions))
  {
    if actions != [] {
      var n := |actions| - 1;
      ExecKeepsInv(m, s, actions[..n]);
      StepKeepsInv(m, Exec(m, s, actions[..n]), actions[n]);
    }
  }

  lemma InitOk(m: Matcher)
    ensures Inv(m, Init())
  {
  }

  lemma Reachable(m: Matcher, actions: seq<Action>)
    ensures Inv(m, Exec(m, Init(), actions))
  {
    InitOk(m);
    ExecKeepsInv(m, Init(), actions);
  }

  lemma ExecFirst(m: Matcher, s: State, a: Action, rest: seq<Action>)
    ensures Exec(m, s, [a] + rest) == Exec(m, Step(m, s, a), rest)
  {
    ExecConcat(m, s, [a], rest);
    assert [a][..0] == [];
    assert Exec(m, s, []) == s;
  }

  // ----- Snapshots -----

  predicate SameCall(r: Route, r': Route) {
    r'.pb == r.pb && r'.session == r.session && r'.header == r.header && r'.at == r.at
  }

  lemma CallPersists(m: Matcher, s: State, a: Action, id: nat)
    requires id in s.routes
    ensures id in Step(m, s, a).routes && SameCall(s.routes[id], Step(m, s, a).routes[id])
  {
  }

  lemma StepPersists(m: Matcher, s: State, a: Action, id: nat)
    requires Inv(m, s) && id in s.routes
    ensures var s' := Step(m, s, a);
      && s.hist <= s'.hist && id in s'.routes && SameCall(s.routes[id], s'.routes[id])
      && s.routes[id].header.arr < |s.mem| <= |s'.mem|
      && s'.mem[s.routes[id].header.arr] == s.mem[s.routes[id].header.arr]
  {
    assert Referenced(s, s.routes[id].header.arr);
    CallPersists(m, s, a, id);
    ReferencedArraysAreNeverWritten(m, s, a);
    HistoryGrows(m, s, a);
  }

  // From the moment a Route has its header until the end of any execution, the
  // header and the whole backing array behind it stay as they were, whatever is
  // registered or unregistered meanwhile.
  lemma {:induction false} SnapshotNeverChanges(m: Matcher, s: State, actions: seq<Action>, id: nat)
    requires Inv(m, s) && id in s.routes
    ensures var s' := Exec(m, s, actions);
      && s.hist <= s'.hist && id in s'.routes && SameCall(s.routes[id], s'.routes[id])
      && s.routes[id].header.arr < |s.mem| <= |s'.mem|
      && s'.mem[s.routes[id].header.arr] == s.mem[s.routes[id].header.arr]
  {
    if actions == [] {
      assert RouteOk(m, s, s.routes[id]);
    } else {
      var n := |actions| - 1;
      SnapshotNeverChanges(m, s, actions[..n], id);
      ExecKeepsInv(m, s, actions[..n]);
      StepPersists(m, Exec(m, s, actions[..n]), actions[n], id);
    }
  }

  // ----- Linearisation -----

  lemma CallsSoFar(m: Matcher, s: State, id: nat)
    requires Inv(m, s) && id in s.routes
    ensures var r := s.routes[id];
      r.at <= |s.hist|
      && match r.phase
         case Done(i, topic, calls) =>
           && calls == CallsFor(m, ListAfter(s.hist[..r.at]), topic)
           && r.at <= i < |s.hist| && s.hist[i] == Resolved(r.session, r.pb, topic)
         case Dispatching(_, topic, _, calls) => calls <= CallsFor(m, ListAfter(s.hist[..r.at]), topic)
         case _ => true
  {
    var r := s.routes[id];
    assert RouteOk(m, s, r);
    if r.phase.Dispatching? {
      var list := View(s.mem, r.header);
      CallsDistribute(m, list[..r.phase.next], list[r.phase.next..], r.phase.topic);
      assert list == list[..r.phase.next] + list[r.phase.next..];
    }
  }

  lemma SnapshotNow(m: Matcher, s: State, id: nat, pb: Packet, session: nat) returns (taken: State)
    requires Inv(m, s) && s.lock.Free? && id !in s.routes
    ensures Inv(m, taken) && taken.hist == s.hist && id in taken.routes
    ensures taken.routes[id] == Route(pb, session, s.entries, |s.hist|, Snapped)
    ensures taken == Exec(m, s, [Snapshot(id, pb, session)])
  {
    taken := Step(m, s, Snapshot(id, pb, session));
    StepKeepsInv(m, s, Snapshot(id, pb, session));
    assert [Snapshot(id, pb, session)] == [Snapshot(id, pb, session)] + [];
    ExecFirst(m, s, Snapshot(id, pb, session), []);
  }

  // Route id of s', on a packet of a session, is answered from the list as it
  // was in s: all of its calls once it is done, the first of them until then.
  predicate Linearized(m: Matcher, s: State, s': State, id: nat, pb: Packet, session: nat) {
    && s.hist <= s'.hist && id in s'.routes && s'.routes[id].pb == pb && s'.routes[id].session == session
    && match s'.routes[id].phase
       case Done(i, topic, calls) =>
         && calls == CallsFor(m, ListAfter(s.hist), topic)
         && |s.hist| <= i < |s'.hist| && s'.hist[i] == Resolved(session, pb, topic)
       case Dispatching(_, topic, _, calls) => calls <= CallsFor(m, ListAfter(s.hist), topic)
       case _ => true
  }

  // A Route that takes its header after `pre` and completes later, in any
  // execution, makes exactly the calls its topic calls for in the list the
  // mutations committed by then amount to.
  lemma RouteLinearizes(m: Matcher, pre: seq<Action>, id: nat, pb: Packet, session: nat, post: seq<Action>)
    requires Exec(m, Init(), pre).lock.Free? && id !in Exec(m, Init(), pre).routes
    ensures Linearized(m, Exec(m, Init(), pre), Exec(m, Init(), pre + [Snapshot(id, pb, session)] + post),
                       id, pb, session)
  {
    Reachable(m, pre);
    var taken := SnapshotNow(m, Exec(m, Init(), pre), id, pb, session);
    ExecConcat(m, Init(), pre, [Snapshot(id, pb, session)]);
    ExecConcat(m, Init(), pre + [Snapshot(id, pb, session)], post);
    LinearizesFrom(m, Exec(m, Init(), pre), taken, id, post);
  }

  lemma LinearizesFrom(m: Matcher, s: State, taken: State, id: nat, post: seq<Action>)
    requires Inv(m, taken) && taken.hist == s.hist && id in taken.routes
    requires taken.routes[id].phase.Snapped? && taken.routes[id].at == |s.hist|
    ensures Linearized(m, s, Exec(m, taken, post), id, taken.routes[id].pb, taken.routes[id].session)
  {
    var end := Exec(m, taken, post);
    SnapshotNeverChanges(m, taken, post, id);
    ExecKeepsInv(m, taken, post);
    CallsSoFar(m, end, id);
    assert end.hist[..|s.hist|] == s.hist;
  }

  // ----- What is committed is what was asked for -----

  function BegunBy(a: Action): seq<Event> {
    match a
    case BeginAdd(entry) => [Added(entry)]
    case BeginRemove(topic) => [Removed(topic)]
    case _ => []
  }

  // The mutations that got the write lock, in order.
  function Begun(m: Matcher, actions: seq<Action>): seq<Event> {
    if actions == [] then []
    else
      var n := |actions| - 1;
      Begun(m, actions[..n]) + if Exec(m, Init(), actions[..n]).lock.Free? then BegunBy(actions[n]) else []
  }

  function Mutations(hist: seq<Event>): seq<Event> {
    if hist == [] then []
    else
      var last := hist[|hist| - 1];
      Mutations(hist[..|hist| - 1]) + if last.Added? || last.Removed? then [last] else []
  }

  function Held(lock: Mutator): seq<Event> {
    match lock
    case Free => []
    case Adding(entry, _, _) => [Added(entry)]
    case Removing(topic, _, _) => [Removed(topic)]
  }

  // Committed, and then the one under way.
  function Asked(s: State): seq<Event> {
    Mutations(s.hist) + Held(s.lock)
  }

  lemma MutationsExtend(hist: seq<Event>, e: Event)
    ensures Mutations(hist + [e]) == Mutations(hist) + if e.Added? || e.Removed? then [e] else []
  {
    assert (hist + [e])[..|hist|] == hist;
  }

  lemma PublishCommitsTheHeld(m: Matcher, s: State)
    ensures Asked(Step(m, s, Publish)) == Asked(s)
  {
    if Step(m, s, Publish) != s {
      MutationsExtend(s.hist, Held(s.lock)[0]);
      assert Mutations(s.hist) + Held(s.lock) + [] == Mutations(s.hist) + Held(s.lock);
    }
  }

  lemma OthersKeepTheAsked(m: Matcher, s: State, a: Action)
    requires !a.Publish?
    ensures Asked(Step(m, s, a)) == Asked(s) + if s.lock.Free? then BegunBy(a) else []
  {
    HistoryShape(m, s, a);
    if Step(m, s, a).hist != s.hist {
      MutationsExtend(s.hist, Step(m, s, a).hist[|s.hist|]);
    }
  }

  // In every execution the mutations committed, and the one that holds the lock,
  // are those that got the lock: the entries and topics asked for, in that order.
  lemma {:induction false} CommittedAsAsked(m: Matcher, actions: seq<Action>)
    ensures Begun(m, actions) == Asked(Exec(m, Init(), actions))
  {
    if actions != [] {
      var n := |actions| - 1;
      CommittedAsAsked(m, actions[..n]);
      if actions[n].Publish? {
        PublishCommitsTheHeld(m, Exec(m, Init(), actions[..n]));
      } else {
        OthersKeepTheAsked(m, Exec(m, Init(), actions[..n]), actions[n]);
      }
    }
  }

  // ----- The holder of the write lock -----

  // n steps of the holder of the write lock alone.
  function HolderAlone(m: Matcher, s: State, n: nat): State
    decreases n
  {
    if n == 0 then s
    else HolderAlone(m, Step(m, s, if s.lock.Adding? then AppendEntry(0) else CopyNext), n - 1)
  }

  predicate ReleasesAlone(m: Matcher, s: State, n: nat) {
    Step(m, HolderAlone(m, s, n), Publish).lock.Free?
  }

  lemma {:induction false} RemoverReleases(m: Matcher, s: State, left: nat)
    requires Inv(m, s) && s.lock.Removing? && s.entries.len - s.lock.next == left
    ensures ReleasesAlone(m, s, left)
    decreases left
  {
    if left > 0 {
      var s1 := Step(m, s, CopyNext);
      StepKeepsInv(m, s, CopyNext);
      CopyMovesOn(m, s);
      RemoverReleases(m, s1, left - 1);
    }
  }

  lemma CopyMovesOn(m: Matcher, s: State)
    requires EntriesOk(s) && LockOk(s) && s.lock.Removing? && s.lock.next < s.entries.len
    ensures var s' := Step(m, s, CopyNext);
      s'.lock.Removing? && s'.entries == s.entries && s'.lock.next == s.lock.next + 1
  {
  }

  lemma AdderReleases(m: Matcher, s: State)
    requires EntriesOk(s) && LockOk(s) && s.lock.Adding?
    ensures if s.lock.appended then ReleasesAlone(m, s, 0) else ReleasesAlone(m, s, 1)
  {
    assert HolderAlone(m, s, 1) == HolderAlone(m, Step(m, s, AppendEntry(0)), 0);
  }

  lemma HolderReleases(m: Matcher, s: State) returns (n: nat)
    requires Inv(m, s) && !s.lock.Free?
    ensures ReleasesAlone(m, s, n)
  {
    if s.lock.Removing? {
      n := s.entries.len - s.lock.next;
      RemoverReleases(m, s, n);
    } else {
      n := if s.lock.appended then 0 else 1;
      AdderReleases(m, s);
    }
  }

  // A mutator does not wait for anybody once it holds the lock: its own steps
  // alone release it.
  lemma LockIsAlwaysReleased(m: Matcher, actions: seq<Action>)
    requires !Exec(m, Init(), actions).lock.Free?
    ensures exists n: nat :: ReleasesAlone(m, Exec(m, Init(), actions), n)
  {
    Reachable(m, actions);
    var n := HolderReleases(m, Exec(m, Init(), actions));
  }

  // ----- Aliases -----

  // An alias-only packet is answered with what the alias means at that point of
  // the history, and with nothing else.
  predicate AnsweredByAlias(hist: seq<Event>, i: nat, a: Alias)
    requires i < |hist| && hist[i].Resolved?
  {
    && (hist[i].answer != "" ==>
          exists k | 0 <= k < i :: Current(hist[..i], a, k) && hist[k].pb.topic == hist[i].answer)
    && (hist[i].answer == "" ==> forall k | 0 <= k < i :: !Current(hist[..i], a, k))
  }

  lemma AnswersAreCurrent(hist: seq<Event>, i: nat, a: Alias)
    requires AnswersOk(hist) && i < |hist| && hist[i].Resolved?
    requires AliasOf(hist[i].pb) == Some(a) && hist[i].pb.topic == ""
    ensures AnsweredByAlias(hist, i, a)
  {
    MeaningIsLatest(hist[..i], a);
    if hist[i].answer != "" {
      var k :| 0 <= k < i && Current(hist[..i], a, k);
      assert hist[..i][k] == hist[k];
    }
  }

  // So it is in every execution.
  lemma AliasAnswers(m: Matcher, actions: seq<Action>, i: nat, a: Alias)
    requires var hist := Exec(m, Init(), actions).hist;
      i < |hist| && hist[i].Resolved? && AliasOf(hist[i].pb) == Some(a) && hist[i].pb.topic == ""
    ensures AnsweredByAlias(Exec(m, Init(), actions).hist, i, a)
  {
    Reachable(m, actions);
    AnswersAreCurrent(Exec(m, Init(), actions).hist, i, a);
  }

  // A packet is routed under the topic it carries, and an alias-only one under
  // what its alias means when it is resolved; either way under a topic.
  predicate RoutedUnder(hist: seq<Event>, i: nat, pb: Packet, topic: string) {
    && topic != "" && i < |hist|
    && (pb.topic != "" ==> topic == pb.topic)
    && (pb.topic == "" ==> AliasOf(pb).Some? && topic == Meaning(hist[..i], AliasOf(pb).value))
  }

  lemma DoneUnderItsTopic(m: Matcher, actions: seq<Action>, id: nat)
    requires id in Exec(m, Init(), actions).routes && Exec(m, Init(), actions).routes[id].phase.Done?
    ensures var s := Exec(m, Init(), actions);
      var r := s.routes[id];
      r.at <= r.phase.resolved && RoutedUnder(s.hist, r.phase.resolved, r.pb, r.phase.topic)
  {
    Reachable(m, actions);
    var s := Exec(m, Init(), actions);
    assert RouteOk(m, s, s.routes[id]);
  }

  // Down runs between the last resolve of one session and the first of the next.
  predicate ResetBetweenSessions(hist: seq<Event>) {
    forall i, j | 0 <= i < j < |hist| && hist[i].Resolved? && hist[j].Resolved? && hist[i].session != hist[j].session ::
      exists k | i < k < j :: hist[k].Reset?
  }

  // The alias-only resolve at j is answered from the registration at k, which is
  // another session's.
  predicate StaleAt(hist: seq<Event>, j: nat, k: nat)
    requires k < j < |hist|
  {
    && hist[j].Resolved? && hist[j].pb.topic == "" && AliasOf(hist[j].pb).Some?
    && Current(hist[..j], AliasOf(hist[j].pb).value, k) && hist[k].session != hist[j].session
  }

  predicate NeverStale(hist: seq<Event>) {
    forall j: nat, k: nat | k < j < |hist| :: !StaleAt(hist, j, k)
  }

  lemma ResetsKeepAliasesFresh(hist: seq<Event>)
    requires ResetBetweenSessions(hist)
    ensures NeverStale(hist)
  {
    forall j: nat, k: nat | k < j < |hist|
      ensures !StaleAt(hist, j, k)
    {
      assert hist[..j][k] == hist[k];
      if hist[k].Resolved? && hist[j].Resolved? && hist[k].session != hist[j].session {
        var r :| k < r < j && hist[r].Reset?;
        assert hist[..j][r] == hist[r];
      }
    }
  }

  // The same events in the same sessions, whatever the packets were.
  predicate SameSessions(hist: seq<Event>, hist': seq<Event>) {
    && |hist'| == |hist|
    && forall i | 0 <= i < |hist| ::
         if hist[i].Resolved? then hist'[i].Resolved? && hist'[i].session == hist[i].session else hist'[i] == hist[i]
  }

  // The history in which the resolve at i registers an alias, the one at j refers
  // to it, and no other packet has one.
  function WithOneAlias(hist: seq<Event>, i: nat, j: nat): (hist': seq<Event>)
    ensures SameSessions(hist, hist')
  {
    seq(|hist|, k requires 0 <= k < |hist| =>
      if !hist[k].Resolved? then hist[k]
      else if k == i then Resolved(hist[k].session, Registering(0, "t"), "t")
      else if k == j then Resolved(hist[k].session, AliasOnly(0), "t")
      else Resolved(hist[k].session, Packet("t", None), "t"))
  }

  lemma OneAliasIsStale(hist: seq<Event>, i: nat, j: nat)
    requires i < j < |hist| && hist[i].Resolved? && hist[j].Resolved? && hist[i].session != hist[j].session
    requires forall k | i < k < j :: !hist[k].Reset?
    ensures AnswersOk(WithOneAlias(hist, i, j)) && StaleAt(WithOneAlias(hist, i, j), j, i)
  {
    var hist' := WithOneAlias(hist, i, j);
    assert Current(hist'[..j], 0, i) by {
      assert forall k | i <= k < j :: hist'[..j][k] == hist'[k];
    }
    MeaningIsLatest(hist'[..j], 0);
    assert hist'[..j][i].pb.topic == "t";
  }

  lemma SameSessionsSameResets(hist: seq<Event>, hist': seq<Event>)
    requires ResetBetweenSessions(hist) && SameSessions(hist, hist')
    ensures ResetBetweenSessions(hist')
  {
    forall i, j | 0 <= i < j < |hist'| && hist'[i].Resolved? && hist'[j].Resolved?
        && hist'[i].session != hist'[j].session
      ensures exists k | i < k < j :: hist'[k].Reset?
    {
      var k :| i < k < j && hist[k].Reset?;
      assert hist'[k] == hist[k];
    }
  }

  // Aliases stay within their sessions, whatever packets come, if and only if a
  // reset falls between the resolves of different sessions.
  lemma AliasesStayFreshExactlyWhen(hist: seq<Event>)
    ensures ResetBetweenSessions(hist) <==>
      forall hist': seq<Event> | SameSessions(hist, hist') && AnswersOk(hist') :: NeverStale(hist')
  {
    if ResetBetweenSessions(hist) {
      forall hist': seq<Event> | SameSessions(hist, hist') && AnswersOk(hist')
        ensures NeverStale(hist')
      {
        SameSessionsSameResets(hist, hist');
        ResetsKeepAliasesFresh(hist');
      }
    } else {
      var i, j :| 0 <= i < j < |hist| && hist[i].Resolved? && hist[j].Resolved? && hist[i].session != hist[j].session
        && forall k | i < k < j :: !hist[k].Reset?;
      OneAliasIsStale(hist, i, j);
    }
  }

  // The topic a packet was routed under is the one its alias was last registered
  // for before that, by a packet of its own session, with no reset in between.
  predicate FromOwnSession(hist: seq<Event>, i: nat, session: nat, a: Alias, topic: string) {
    i <= |hist| && exists k: nat | k < i ::
      Current(hist[..i], a, k) && hist[k].session == session && hist[k].pb.topic == topic
  }

  predicate RoutedFresh(s: State, id: nat) {
    id in s.routes && var r := s.routes[id];
      r.phase.Done? && r.pb.topic == "" ==>
        && AliasOf(r.pb).Some?
        && FromOwnSession(s.hist, r.phase.resolved, r.session, AliasOf(r.pb).value, r.phase.topic)
  }

  lemma ResetsKeepRoutesFresh(m: Matcher, s: State, id: nat)
    requires Inv(m, s) && ResetBetweenSessions(s.hist) && id in s.routes
    ensures RoutedFresh(s, id)
  {
    var r := s.routes[id];
    assert RouteOk(m, s, r);
    if r.phase.Done? && r.pb.topic == "" {
      var i, a := r.phase.resolved, AliasOf(r.pb).value;
      AnswersAreCurrent(s.hist, i, a);
      var k: nat :| k < i && Current(s.hist[..i], a, k) && s.hist[k].pb.topic == s.hist[i].answer;
      ResetsKeepAliasesFresh(s.hist);
      assert !StaleAt(s.hist, i, k);
    }
  }

  lemma NoStaleAlias(m: Matcher, actions: seq<Action>, id: nat)
    requires var s := Exec(m, Init(), actions);
      ResetBetweenSessions(s.hist) && id in s.routes
    ensures RoutedFresh(Exec(m, Init(), actions), id)
  {
    Reachable(m, actions);
    ResetsKeepRoutesFresh(m, Exec(m, Init(), actions), id);
  }

  // ----- When Down keeps the sessions apart -----

  predicate ResetSince(hist: seq<Event>, i: nat) {
    exists k | i < k < |hist| :: hist[k].Reset?
  }

  // No Route of another session is still to resolve, and the table has been reset
  // since the last one that did: Down ran once the old connection's Routes had
  // resolved, and nothing of the new one was routed before.
  predicate HandedOver(s: State, session: nat) {
    && (forall id | id in s.routes && s.routes[id].phase.Snapped? :: s.routes[id].session == session)
    && (forall i | 0 <= i < |s.hist| && s.hist[i].Resolved? && s.hist[i].session != session :: ResetSince(s.hist, i))
  }

  predicate OrderlySessions(m: Matcher, actions: seq<Action>) {
    forall k | 0 <= k < |actions| && actions[k].Snapshot? ::
      HandedOver(Exec(m, Init(), actions[..k]), actions[k].session)
  }

  predicate Separated(s: State) {
    && ResetBetweenSessions(s.hist)
    && forall id | id in s.routes && s.routes[id].phase.Snapped? :: HandedOver(s, s.routes[id].session)
  }

  lemma HistoryKeepsSeparation(hist: seq<Event>, e: Event)
    requires ResetBetweenSessions(hist)
    requires e.Resolved? ==>
      forall i | 0 <= i < |hist| && hist[i].Resolved? && hist[i].session != e.session :: ResetSince(hist, i)
    ensures ResetBetweenSessions(hist + [e])
    ensures forall i | 0 <= i < |hist| && ResetSince(hist, i) :: ResetSince(hist + [e], i)
    ensures e.Reset? ==> forall i | 0 <= i < |hist| :: ResetSince(hist + [e], i)
  {
    var hist' := hist + [e];
    assert hist'[|hist|] == e;
    forall i | 0 <= i < |hist| && ResetSince(hist, i)
      ensures ResetSince(hist', i)
    {
      var k :| i < k < |hist| && hist[k].Reset?;
      assert hist'[k].Reset?;
    }
    forall i, j | 0 <= i < j < |hist'| && hist'[i].Resolved? && hist'[j].Resolved?
        && hist'[i].session != hist'[j].session
      ensures exists k | i < k < j :: hist'[k].Reset?
    {
      if j < |hist| {
        var k :| i < k < j && hist[k].Reset?;
        assert hist'[k].Reset?;
      } else {
        var k :| i < k < |hist| && hist[k].Reset?;
        assert hist'[k].Reset?;
      }
    }
  }

  lemma ResolveKeepsSeparation(m: Matcher, s: State, id: nat)
    requires Separated(s)
    ensures Separated(Step(m, s, Resolve(id)))
  {
    var s' := Step(m, s, Resolve(id));
    if s' != s {
      var r := s.routes[id];
      HistoryKeepsSeparation(s.hist, Resolved(r.session, r.pb, ResolvedTopic(s.aliases, r.pb)));
      assert HandedOver(s, r.session);
      forall j | j in s'.routes && s'.routes[j].phase.Snapped?
        ensures HandedOver(s', s'.routes[j].session)
      {
        assert s'.routes[j] == s.routes[j] && s.routes[j].session == r.session;
      }
    }
  }

  lemma OtherStepsKeepSeparation(m: Matcher, s: State, a: Action)
    requires Separated(s) && !a.Resolve? && (a.Snapshot? ==> HandedOver(s, a.session))
    ensures Separated(Step(m, s, a))
  {
    var s' := Step(m, s, a);
    HistoryShape(m, s, a);
    if s'.hist != s.hist {
      HistoryKeepsSeparation(s.hist, s'.hist[|s.hist|]);
    }
    forall id | id in s'.routes && s'.routes[id].phase.Snapped?
      ensures HandedOver(s', s'.routes[id].session)
    {
      assert s'.routes == s.routes || a.Snapshot? || (forall j | j in s'.routes && s'.routes[j].phase.Snapped? ::
        j in s.routes && s'.routes[j] == s.routes[j]);
    }
  }

  lemma {:induction false} OrderlySessionsAreSeparated(m: Matcher, actions: seq<Action>)
    requires OrderlySessions(m, actions)
    ensures Separated(Exec(m, Init(), actions))
  {
    if actions != [] {
      var n := |actions| - 1;
      forall k | 0 <= k < n
        ensures actions[..n][..k] == actions[..k] && actions[..n][k] == actions[k]
      {
      }
      OrderlySessionsAreSeparated(m, actions[..n]);
      if actions[n].Resolve? {
        ResolveKeepsSeparation(m, Exec(m, Init(), actions[..n]), actions[n].id);
      } else {
        OtherStepsKeepSeparation(m, Exec(m, Init(), actions[..n]), actions[n]);
      }
    }
  }

  // So it is enough that each session's Routes start when the one before has been
  // handed over.
  lemma NoStaleAliasAfterHandover(m: Matcher, actions: seq<Action>, id: nat)
    requires OrderlySessions(m, actions) && id in Exec(m, Init(), actions).routes
    ensures RoutedFresh(Exec(m, Init(), actions), id)
  {
    OrderlySessionsAreSeparated(m, actions);
    NoStaleAlias(m, actions, id);
  }

  // What is handed over to a session stays so as long as only that session's
  // Routes start.
  lemma StaysHandedOver(m: Matcher, s: State, a: Action, session: nat)
    requires HandedOver(s, session) && (a.Snapshot? ==> a.session == session)
    ensures HandedOver(Step(m, s, a), session)
  {
    var s' := Step(m, s, a);
    HistoryShape(m, s, a);
    forall i | 0 <= i < |s'.hist| && s'.hist[i].Resolved? && s'.hist[i].session != session
      ensures ResetSince(s'.hist, i)
    {
      assert i < |s.hist| && s'.hist[i] == s.hist[i];
      var k :| i < k < |s.hist| && s.hist[k].Reset?;
      assert s'.hist[k].Reset?;
    }
  }

  function Registering(a: Alias, topic: string): Packet {
    Packet(topic, Some(Properties(Some(a))))
  }

  function AliasOnly(a: Alias): Packet {
    Packet("", Some(Properties(Some(a))))
  }

  // The assumption is needed. When a session ends without Down running, as a
  // graceful DISCONNECT may, a packet routed before Up runs is delivered under
  // the topic the dead session registered.
  lemma WithoutDownAnAliasIsStale(m: Matcher, a: Alias, topic: string, s: nat, s': nat)
    requires topic != ""
    ensures var end := Exec(m, Init(), [Snapshot(0, Registering(a, topic), s), Resolve(0),
                                        Snapshot(1, AliasOnly(a), s'), Resolve(1), Finish(1)]);
      1 in end.routes && end.routes[1].session == s' && end.routes[1].phase == Done(1, topic, [])
  {
    var s1 := Step(m, Init(), Snapshot(0, Registering(a, topic), s));
    var s2 := Step(m, s1, Resolve(0));
    var s3 := Step(m, s2, Snapshot(1, AliasOnly(a), s'));
    var s4 := Step(m, s3, Resolve(1));
    ExecFive(m, Init(), Snapshot(0, Registering(a, topic), s), Resolve(0),
             Snapshot(1, AliasOnly(a), s'), Resolve(1), Finish(1));
    assert s2.aliases == map[a := topic];
    assert s4.routes[1].phase == Dispatching(1, topic, 0, []);
  }

  // Nor is it enough that Down ran: a Route of the dead session that had not
  // resolved by then registers its alias afterwards, and the next session is
  // answered with it.
  lemma LateRouteLeavesAStaleAlias(m: Matcher, a: Alias, topic: string, s: nat, s': nat)
    requires topic != ""
    ensures var end := Exec(m, Init(), [Snapshot(0, Registering(a, topic), s), ResetAliases, Resolve(0),
                                        Snapshot(1, AliasOnly(a), s'), Resolve(1)]);
      1 in end.routes && end.routes[1].session == s' && end.routes[1].phase == Dispatching(2, topic, 0, [])
  {
    ExecFive(m, Init(), Snapshot(0, Registering(a, topic), s), ResetAliases, Resolve(0),
             Snapshot(1, AliasOnly(a), s'), Resolve(1));
    var s1 := Step(m, Init(), Snapshot(0, Registering(a, topic), s));
    var s3 := Step(m, Step(m, s1, ResetAliases), Resolve(0));
    assert s3.aliases == map[a := topic];
  }

  // And the reset in Up can forget what the new session has already assigned:
  // its next alias-only packet is dropped.
  lemma ResetInUpMayForgetANewAlias(m: Matcher, a: Alias, topic: string, s: nat)
    requires topic != ""
    ensures var end := Exec(m, Init(), [Snapshot(0, Registering(a, topic), s), Resolve(0), ResetAliases,
                                        Snapshot(1, AliasOnly(a), s), Resolve(1)]);
      1 in end.routes && end.routes[1].phase == Dropped(2)
  {
    ExecFive(m, Init(), Snapshot(0, Registering(a, topic), s), Resolve(0), ResetAliases,
             Snapshot(1, AliasOnly(a), s), Resolve(1));
  }

  lemma ExecFive(m: Matcher, s: State, a: Action, b: Action, c: Action, d: Action, e: Action)
    ensures Exec(m, s, [a, b, c, d, e]) == Step(m, Step(m, Step(m, Step(m, Step(m, s, a), b), c), d), e)
  {
    assert [a, b, c, d, e] == [a] + [b, c, d, e];
    ExecFirst(m, s, a, [b, c, d, e]);
    assert [b, c, d, e] == [b] + [c, d, e];
    ExecFirst(m, Step(m, s, a), b, [c, d, e]);
    assert [c, d, e] == [c] + [d, e];
    ExecFirst(m, Step(m, Step(m, s, a), b), c, [d, e]);
    assert [d, e] == [d] + [e];
    ExecFirst(m, Step(m, Step(m, Step(m, s, a), b), c), d, [e]);
    assert [e] == [e] + [];
    ExecFirst(m, Step(m, Step(m, Step(m, Step(m, s, a), b), c), d), e, []);
  }
}
