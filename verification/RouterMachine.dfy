/**
 client/router.go under concurrency: any number of goroutines routing,
 registering, unregistering and resetting aliases, interleaved step by step over
 an explicit memory of backing arrays. An execution is any sequence of actions;
 an action that is not enabled (a lock is held, a route is elsewhere) does
 nothing. A handler that uses the router is a goroutine like any other, taking
 its steps between two dispatch steps of the Route that called it; that the Route
 waits for it, and who waits for the lock, is RouterCalls' subject.
*/
module RouterMachine {
  import opened Wrappers
  import opened Recipients

  // ----- Memory: backing arrays by address, and slice headers -----

  type Memory = seq<seq<RouterEntry>>

  datatype Header = Header(arr: nat, len: nat, cap: nat) {
    function Frozen(): Header {
      Header(arr, len, len)
    }
  }

  predicate Fits(mem: Memory, h: Header) {
    h.arr < |mem| && h.len <= h.cap <= |mem[h.arr]|
  }

  function View(mem: Memory, h: Header): (v: seq<RouterEntry>)
    requires Fits(mem, h)
    ensures |v| == h.len
  {
    mem[h.arr][..h.len]
  }

  function Blank(n: nat): seq<RouterEntry> {
    seq(n, _ => RouterEntry([], 0))
  }

  // append: one cell of spare capacity is written in place when there is one,
  // otherwise a new array is allocated.
  function Append(mem: Memory, h: Header, x: RouterEntry, spare: nat): (Memory, Header)
    requires Fits(mem, h)
  {
    if h.len < h.cap then
      (mem[h.arr := mem[h.arr][h.len := x]], h.(len := h.len + 1))
    else
      (mem + [View(mem, h) + [x] + Blank(spare)], Header(|mem|, h.len + 1, h.len + 1 + spare))
  }

  // ----- State -----

  // The holder of the write lock and how far it is.
  datatype Mutator =
    | Free
    | Adding(entry: RouterEntry, header: Header, appended: bool)
    | Removing(topic: string, next: nat, kept: Header)

  datatype Phase =
    | Snapped
    | Dispatching(resolved: nat, topic: string, next: nat, calls: seq<Call>)
    | Dropped(resolved: nat)
    | Done(resolved: nat, topic: string, calls: seq<Call>)

  // One call of Route. The connection the packet came in on is its session;
  // `at` and `resolved` are positions in the history, kept for the proofs.
  datatype Route = Route(pb: Packet, session: nat, header: Header, at: nat, phase: Phase)

  datatype Event =
    | Added(entry: RouterEntry)
    | Removed(topic: string)
    | Resolved(session: nat, pb: Packet, answer: string)
    | Reset

  datatype State = State(
    mem: Memory,
    entries: Header,
    lock: Mutator,
    aliases: map<Alias, string>,
    routes: map<nat, Route>,
    hist: seq<Event>)

  function Init(): State {
    State([[]], Header(0, 0, 0), Free, map[], map[], [])
  }

  // ----- Actions -----

  datatype Action =
    | BeginAdd(entry: RouterEntry)
    | AppendEntry(spare: nat)
    | BeginRemove(topic: string)
    | CopyNext
    | Publish
    | Snapshot(id: nat, pb: Packet, session: nat)
    | Resolve(id: nat)
    | Dispatch(id: nat)
    | Finish(id: nat)
    | ResetAliases

  function Step(m: Matcher, s: State, a: Action): State {
    match a
    case BeginAdd(entry) =>
      if !s.lock.Free? then s else s.(lock := Adding(entry, s.entries.Frozen(), false))
    case AppendEntry(spare) =>
      if !s.lock.Adding? || s.lock.appended || !Fits(s.mem, s.lock.header) then s else
      var (mem, header) := Append(s.mem, s.lock.header, s.lock.entry, spare);
      s.(mem := mem, lock := s.lock.(header := header, appended := true))
    case BeginRemove(topic) =>
      if !s.lock.Free? then s else
      s.(mem := s.mem + [Blank(s.entries.len)],
         lock := Removing(topic, 0, Header(|s.mem|, 0, s.entries.len)))
    case CopyNext =>
      if !s.lock.Removing? || !Fits(s.mem, s.entries) || !Fits(s.mem, s.lock.kept)
         || s.entries.len <= s.lock.next then s else
      var e := s.mem[s.entries.arr][s.lock.next];
      var lock := s.lock.(next := s.lock.next + 1);
      if RegisteredUnder(e, s.lock.topic) then s.(lock := lock) else
      var (mem, kept) := Append(s.mem, s.lock.kept, e, 0);
      s.(mem := mem, lock := lock.(kept := kept))
    case Publish =>
      if s.lock.Adding? && s.lock.appended then
        s.(entries := s.lock.header, lock := Free, hist := s.hist + [Added(s.lock.entry)])
      else if s.lock.Removing? && s.lock.next == s.entries.len then
        s.(entries := s.lock.kept, lock := Free, hist := s.hist + [Removed(s.lock.topic)])
      else s
    case Snapshot(id, pb, session) =>
      if !s.lock.Free? || id in s.routes then s else
      s.(routes := s.routes[id := Route(pb, session, s.entries, |s.hist|, Snapped)])
    case Resolve(id) =>
      if id !in s.routes || !s.routes[id].phase.Snapped? then s else
      var r := s.routes[id];
      var topic := ResolvedTopic(s.aliases, r.pb);
      var phase := if topic == "" then Dropped(|s.hist|) else Dispatching(|s.hist|, topic, 0, []);
      s.(aliases := AliasesAfter(s.aliases, r.pb),
         routes := s.routes[id := r.(phase := phase)],
         hist := s.hist + [Resolved(r.session, r.pb, topic)])
    case Dispatch(id) =>
      if id !in s.routes || !s.routes[id].phase.Dispatching? || !Fits(s.mem, s.routes[id].header)
         || s.routes[id].header.len <= s.routes[id].phase.next then s else
      var r := s.routes[id];
      var e := s.mem[r.header.arr][r.phase.next];
      var more := if AnyMatches(m, e.patterns, r.phase.topic) then [Call(e.handler, r.phase.topic)] else [];
      s.(routes := s.routes[id :=
        r.(phase := r.phase.(next := r.phase.next + 1, calls := r.phase.calls + more))])
    case Finish(id) =>
      if id !in s.routes || !s.routes[id].phase.Dispatching?
         || s.routes[id].phase.next != s.routes[id].header.len then s else
      var r := s.routes[id];
      s.(routes := s.routes[id := r.(phase := Done(r.phase.resolved, r.phase.topic, r.phase.calls))])
    case ResetAliases =>
      s.(aliases := map[], hist := s.hist + [Reset])
  }

  function Exec(m: Matcher, s: State, actions: seq<Action>): State {
    if actions == [] then s
    else Step(m, Exec(m, s, actions[..|actions| - 1]), actions[|actions| - 1])
  }

  lemma {:induction false} ExecConcat(m: Matcher, s: State, a: seq<Action>, b: seq<Action>)
    ensures Exec(m, s, a + b) == Exec(m, Exec(m, s, a), b)
  {
    if b == [] {
      assert a + b == a;
    } else {
      ExecConcat(m, s, a, b[..|b| - 1]);
      assert (a + b)[..|a + b| - 1] == a + b[..|b| - 1];
    }
  }

  // ----- What the history says -----

  function Applied(list: seq<RouterEntry>, e: Event): seq<RouterEntry> {
    match e
    case Added(entry) => list + [entry]
    case Removed(topic) => Without(list, topic)
    case _ => list
  }

  // The recipient list the committed mutations amount to.
  function ListAfter(hist: seq<Event>): seq<RouterEntry> {
    if hist == [] then [] else Applied(ListAfter(hist[..|hist| - 1]), hist[|hist| - 1])
  }

  predicate Registers(e: Event, a: Alias) {
    e.Resolved? && AliasOf(e.pb) == Some(a) && e.pb.topic != ""
  }

  // What an alias stands for: its latest registration since the last reset.
  function Meaning(hist: seq<Event>, a: Alias): string {
    if hist == [] then ""
    else
      var last := hist[|hist| - 1];
      if last.Reset? then ""
      else if Registers(last, a) then last.pb.topic
      else Meaning(hist[..|hist| - 1], a)
  }

  predicate Current(hist: seq<Event>, a: Alias, i: nat)
    requires i < |hist|
  {
    Registers(hist[i], a)
    && forall j | i < j < |hist| :: !hist[j].Reset? && !Registers(hist[j], a)
  }

  // Meaning is exactly that: the topic of the registration nothing later
  // replaced or reset, and empty when there is none.
  lemma {:induction false} MeaningIsLatest(hist: seq<Event>, a: Alias)
    ensures Meaning(hist, a) != "" <==> exists i | 0 <= i < |hist| :: Current(hist, a, i)
    ensures forall i | 0 <= i < |hist| && Current(hist, a, i) :: hist[i].pb.topic == Meaning(hist, a)
  {
    if hist != [] {
      var n := |hist| - 1;
      MeaningIsLatest(hist[..n], a);
      if !hist[n].Reset? && !Registers(hist[n], a) {
        assert forall i | 0 <= i < n :: Current(hist, a, i) <==> Current(hist[..n], a, i);
      } else if Registers(hist[n], a) {
        assert Current(hist, a, n);
      }
    }
  }

  // ----- The invariant -----

  // An array some published or snapshotted header refers to.
  predicate Referenced(s: State, arr: nat) {
    arr == s.entries.arr || exists id | id in s.routes :: s.routes[id].header.arr == arr
  }

  predicate EntriesOk(s: State) {
    Fits(s.mem, s.entries) && View(s.mem, s.entries) == ListAfter(s.hist)
  }

  predicate LockOk(s: State)
    requires Fits(s.mem, s.entries)
  {
    match s.lock
    case Free => true
    case Adding(entry, header, appended) =>
      if !appended then header == s.entries.Frozen()
      else
        && Fits(s.mem, header) && !Referenced(s, header.arr)
        && View(s.mem, header) == View(s.mem, s.entries) + [entry]
    case Removing(topic, next, kept) =>
      && next <= s.entries.len && kept.len <= next && kept.cap == s.entries.len
      && Fits(s.mem, kept) && !Referenced(s, kept.arr)
      && View(s.mem, kept) == Without(View(s.mem, s.entries)[..next], topic)
  }

  // The alias table says what the history says.
  predicate TableIs(aliases: map<Alias, string>, hist: seq<Event>) {
    forall a: Alias :: (if a in aliases then aliases[a] else "") == Meaning(hist, a)
  }

  predicate ResolvedOk(s: State, r: Route, i: nat, topic: string) {
    r.at <= i < |s.hist| && s.hist[i] == Resolved(r.session, r.pb, topic)
  }

  predicate RouteOk(m: Matcher, s: State, r: Route) {
    && Fits(s.mem, r.header) && r.at <= |s.hist|
    && View(s.mem, r.header) == ListAfter(s.hist[..r.at])
    && match r.phase
       case Snapped => true
       case Dropped(i) => ResolvedOk(s, r, i, "")
       case Dispatching(i, topic, next, calls) =>
         && ResolvedOk(s, r, i, topic) && topic != "" && next <= r.header.len
         && calls == CallsFor(m, View(s.mem, r.header)[..next], topic)
       case Done(i, topic, calls) =>
         && ResolvedOk(s, r, i, topic) && topic != ""
         && calls == CallsFor(m, View(s.mem, r.header), topic)
  }

  // What a packet is answered with, given the history so far.
  function Answer(hist: seq<Event>, pb: Packet): string {
    match AliasOf(pb)
    case None => pb.topic
    case Some(a) => if pb.topic != "" then pb.topic else Meaning(hist, a)
  }

  predicate AnswersOk(hist: seq<Event>) {
    forall i | 0 <= i < |hist| && hist[i].Resolved? :: hist[i].answer == Answer(hist[..i], hist[i].pb)
  }

  predicate Inv(m: Matcher, s: State) {
    && EntriesOk(s) && LockOk(s) && TableIs(s.aliases, s.hist) && AnswersOk(s.hist)
    && forall id | id in s.routes :: RouteOk(m, s, s.routes[id])
  }

  // ----- Every step keeps it -----

  // No step writes an array that a published or snapshotted header refers to,
  // neither a cell in use nor a cell of its spare capacity.
  lemma ReferencedArraysAreNeverWritten(m: Matcher, s: State, a: Action)
    requires Inv(m, s)
    ensures |s.mem| <= |Step(m, s, a).mem|
    ensures forall arr: nat | Referenced(s, arr) :: arr < |s.mem| && Step(m, s, a).mem[arr] == s.mem[arr]
  {
    forall arr: nat | Referenced(s, arr)
      ensures arr < |s.mem|
    {
      if arr != s.entries.arr {
        var id :| id in s.routes && s.routes[id].header.arr == arr;
        assert RouteOk(m, s, s.routes[id]);
      }
    }
  }

  lemma HistoryGrows(m: Matcher, s: State, a: Action)
    ensures s.hist <= Step(m, s, a).hist
    ensures |Step(m, s, a).hist| <= |s.hist| + 1
    ensures |Step(m, s, a).hist| > |s.hist| ==> Step(m, s, a).hist[..|s.hist|] == s.hist
  {
  }

  // A route another step does not touch stays as it was.
  lemma RouteUndisturbed(m: Matcher, s: State, a: Action, id: nat)
    requires Inv(m, s) && id in s.routes
    ensures RouteOk(m, Step(m, s, a), s.routes[id])
  {
    var s', r := Step(m, s, a), s.routes[id];
    ReferencedArraysAreNeverWritten(m, s, a);
    HistoryGrows(m, s, a);
    assert RouteOk(m, s, r) && Referenced(s, r.header.arr);
    assert View(s'.mem, r.header) == View(s.mem, r.header);
    assert s'.hist[..r.at] == s.hist[..r.at];
  }

  lemma SnapshotTaken(m: Matcher, s: State, id: nat, pb: Packet, session: nat)
    requires Inv(m, s) && s.lock.Free? && id !in s.routes
    ensures RouteOk(m, Step(m, s, Snapshot(id, pb, session)), Step(m, s, Snapshot(id, pb, session)).routes[id])
  {
    assert s.hist[..|s.hist|] == s.hist;
  }

  lemma ResolveAdvances(m: Matcher, s: State, id: nat)
    requires Inv(m, s) && id in s.routes && s.routes[id].phase.Snapped?
    ensures RouteOk(m, Step(m, s, Resolve(id)), Step(m, s, Resolve(id)).routes[id])
  {
    var r := s.routes[id];
    assert RouteOk(m, s, r);
    assert (s.hist + [Resolved(r.session, r.pb, ResolvedTopic(s.aliases, r.pb))])[..r.at] == s.hist[..r.at];
    assert View(s.mem, r.header)[..0] == [];
  }

  lemma DispatchAdvances(m: Matcher, s: State, id: nat)
    requires Inv(m, s) && id in s.routes && s.routes[id].phase.Dispatching?
    requires s.routes[id].phase.next < s.routes[id].header.len
    ensures RouteOk(m, Step(m, s, Dispatch(id)), Step(m, s, Dispatch(id)).routes[id])
  {
    var r := s.routes[id];
    assert RouteOk(m, s, r);
    var list := View(s.mem, r.header);
    assert s.mem[r.header.arr][r.phase.next] == list[r.phase.next];
    DispatchOne(m, list, r.phase.next, r.phase.topic);
  }

  lemma FinishAdvances(m: Matcher, s: State, id: nat)
    requires Inv(m, s) && id in s.routes && s.routes[id].phase.Dispatching?
    requires s.routes[id].phase.next == s.routes[id].header.len
    ensures RouteOk(m, Step(m, s, Finish(id)), Step(m, s, Finish(id)).routes[id])
  {
    var r := s.routes[id];
    assert RouteOk(m, s, r);
    assert View(s.mem, r.header)[..r.header.len] == View(s.mem, r.header);
  }

  // The one route a step can advance, and when.
  lemma WhichRouteMoves(m: Matcher, s: State, a: Action, id: nat)
    requires id in Step(m, s, a).routes && (id !in s.routes || Step(m, s, a).routes[id] != s.routes[id])
    ensures (a.Snapshot? || a.Resolve? || a.Dispatch? || a.Finish?) && a.id == id
    ensures a.Snapshot? ==> s.lock.Free? && id !in s.routes
    ensures a.Resolve? ==> id in s.routes && s.routes[id].phase.Snapped?
    ensures a.Dispatch? || a.Finish? ==> id in s.routes && s.routes[id].phase.Dispatching?
    ensures a.Dispatch? ==> s.routes[id].phase.next < s.routes[id].header.len
    ensures a.Finish? ==> s.routes[id].phase.next == s.routes[id].header.len
  {
  }

  // The route a step advances is advanced correctly.
  lemma RouteAdvanced(m: Matcher, s: State, a: Action, id: nat)
    requires Inv(m, s) && id in Step(m, s, a).routes
    requires id !in s.routes || Step(m, s, a).routes[id] != s.routes[id]
    ensures RouteOk(m, Step(m, s, a), Step(m, s, a).routes[id])
  {
    WhichRouteMoves(m, s, a, id);
    match a {
      case Snapshot(_, pb, session) => SnapshotTaken(m, s, id, pb, session);
      case Resolve(_) => ResolveAdvances(m, s, id);
      case Dispatch(_) => DispatchAdvances(m, s, id);
      case Finish(_) => FinishAdvances(m, s, id);
    }
  }

  lemma StepKeepsRoutes(m: Matcher, s: State, a: Action)
    requires Inv(m, s)
    ensures forall id | id in Step(m, s, a).routes :: RouteOk(m, Step(m, s, a), Step(m, s, a).routes[id])
  {
    var s' := Step(m, s, a);
    forall id | id in s'.routes
      ensures RouteOk(m, s', s'.routes[id])
    {
      if id in s.routes && s'.routes[id] == s.routes[id] {
        RouteUndisturbed(m, s, a, id);
      } else {
        RouteAdvanced(m, s, a, id);
      }
    }
  }

  lemma DispatchOne(m: Matcher, list: seq<RouterEntry>, next: nat, topic: string)
    requires next < |list|
    ensures CallsFor(m, list[..next + 1], topic) == CallsFor(m, list[..next], topic)
      + if AnyMatches(m, list[next].patterns, topic) then [Call(list[next].handler, topic)] else []
    ensures Without(list[..next + 1], topic) == Without(list[..next], topic)
      + if RegisteredUnder(list[next], topic) then [] else [list[next]]
  {
    assert list[..next + 1][..next] == list[..next];
  }

  lemma AnswersExtend(hist: seq<Event>, e: Event)
    requires AnswersOk(hist) && (e.Resolved? ==> e.answer == Answer(hist, e.pb))
    ensures AnswersOk(hist + [e])
  {
    var hist' := hist + [e];
    forall i | 0 <= i < |hist'| && hist'[i].Resolved?
      ensures hist'[i].answer == Answer(hist'[..i], hist'[i].pb)
    {
      assert hist'[..i] == hist[..i];
      assert hist[..|hist|] == hist;
    }
  }

  lemma MeaningExtends(hist: seq<Event>, e: Event, a: Alias)
    ensures Meaning(hist + [e], a) == if e.Reset? then "" else if Registers(e, a) then e.pb.topic else Meaning(hist, a)
  {
    assert (hist + [e])[..|hist|] == hist;
  }

  // What a step adds to the history, and what it does to the alias table.
  lemma HistoryShape(m: Matcher, s: State, a: Action)
    ensures var s' := Step(m, s, a);
      || (s'.hist == s.hist && s'.aliases == s.aliases)
      || (a.Publish? && |s'.hist| > 0 && (s'.hist[|s'.hist| - 1].Added? || s'.hist[|s'.hist| - 1].Removed?)
          && s'.hist == s.hist + [s'.hist[|s'.hist| - 1]] && s'.aliases == s.aliases)
      || (a.ResetAliases? && s'.hist == s.hist + [Reset] && s'.aliases == map[])
      || (a.Resolve? && a.id in s.routes
          && var r := s.routes[a.id];
             && s'.hist == s.hist + [Resolved(r.session, r.pb, ResolvedTopic(s.aliases, r.pb))]
             && s'.aliases == AliasesAfter(s.aliases, r.pb))
  {
  }

  lemma TableExtends(aliases: map<Alias, string>, hist: seq<Event>, e: Event, aliases': map<Alias, string>)
    requires TableIs(aliases, hist)
    requires aliases' == if e.Reset? then map[] else if e.Resolved? then AliasesAfter(aliases, e.pb) else aliases
    ensures TableIs(aliases', hist + [e])
  {
    forall a: Alias
      ensures (if a in aliases' then aliases'[a] else "") == Meaning(hist + [e], a)
    {
      MeaningExtends(hist, e, a);
    }
  }

  lemma StepKeepsAliases(m: Matcher, s: State, a: Action)
    requires TableIs(s.aliases, s.hist) && AnswersOk(s.hist)
    ensures TableIs(Step(m, s, a).aliases, Step(m, s, a).hist) && AnswersOk(Step(m, s, a).hist)
  {
    var s' := Step(m, s, a);
    HistoryShape(m, s, a);
    if s'.hist != s.hist {
      var e := s'.hist[|s'.hist| - 1];
      TableExtends(s.aliases, s.hist, e, s'.aliases);
      AnswersExtend(s.hist, e);
    }
  }

  // Only publishing changes which arrays are referred to.
  lemma SameReferences(m: Matcher, s: State, a: Action)
    requires !a.Publish?
    ensures forall arr: nat :: Referenced(Step(m, s, a), arr) <==> Referenced(s, arr)
  {
    var s' := Step(m, s, a);
    forall arr: nat
      ensures Referenced(s', arr) <==> Referenced(s, arr)
    {
      if arr != s.entries.arr && Referenced(s, arr) {
        var id :| id in s.routes && s.routes[id].header.arr == arr;
        assert id in s'.routes && s'.routes[id].header == s.routes[id].header;
      }
    }
  }

  lemma AppendExtends(mem: Memory, h: Header, x: RouterEntry, spare: nat)
    requires Fits(mem, h)
    ensures var (mem', h') := Append(mem, h, x, spare);
      && Fits(mem', h') && View(mem', h') == View(mem, h) + [x]
      && (h'.arr == if h.len < h.cap then h.arr else |mem|)
      && |mem| <= |mem'| && forall arr | 0 <= arr < |mem| && arr != h'.arr :: mem'[arr] == mem[arr]
  {
  }

  // The frozen header leaves append no room, so it moves to a new array.
  lemma AppendEntryKeepsList(m: Matcher, s: State, spare: nat)
    requires Inv(m, s)
    ensures EntriesOk(Step(m, s, AppendEntry(spare))) && LockOk(Step(m, s, AppendEntry(spare)))
  {
    var s' := Step(m, s, AppendEntry(spare));
    if s' != s {
      ReferencedArraysAreNeverWritten(m, s, AppendEntry(spare));
      SameReferences(m, s, AppendEntry(spare));
      assert Referenced(s, s.entries.arr);
      AppendExtends(s.mem, s.lock.header, s.lock.entry, spare);
      assert View(s.mem, s.lock.header) == View(s.mem, s.entries);
    }
  }

  lemma BeginRemoveKeepsList(m: Matcher, s: State, topic: string)
    requires Inv(m, s)
    ensures EntriesOk(Step(m, s, BeginRemove(topic))) && LockOk(Step(m, s, BeginRemove(topic)))
  {
    var s' := Step(m, s, BeginRemove(topic));
    if s' != s {
      ReferencedArraysAreNeverWritten(m, s, BeginRemove(topic));
      SameReferences(m, s, BeginRemove(topic));
      assert Referenced(s, s.entries.arr);
      assert View(s'.mem, s'.entries)[..0] == [];
    }
  }

  // The remover at its next entry.
  predicate AtNext(m: Matcher, s: State, e: RouterEntry) {
    && Inv(m, s) && s.lock.Removing? && s.lock.next < s.entries.len && s.mem[s.entries.arr][s.lock.next] == e
  }

  lemma SkippedKeepsList(m: Matcher, s: State, e: RouterEntry)
    requires AtNext(m, s, e) && RegisteredUnder(e, s.lock.topic)
    ensures EntriesOk(Step(m, s, CopyNext)) && LockOk(Step(m, s, CopyNext))
  {
    SameReferences(m, s, CopyNext);
    var list := View(s.mem, s.entries);
    assert list[s.lock.next] == e;
    DispatchOne(m, list, s.lock.next, s.lock.topic);
  }

  // Copying fills the spare cells of the mutator's own array.
  lemma CopiedKeepsList(m: Matcher, s: State, e: RouterEntry)
    requires AtNext(m, s, e) && !RegisteredUnder(e, s.lock.topic)
    ensures EntriesOk(Step(m, s, CopyNext)) && LockOk(Step(m, s, CopyNext))
  {
    SameReferences(m, s, CopyNext);
    assert Referenced(s, s.entries.arr);
    var list := View(s.mem, s.entries);
    assert list[s.lock.next] == e;
    AppendExtends(s.mem, s.lock.kept, e, 0);
    DispatchOne(m, list, s.lock.next, s.lock.topic);
  }

  lemma CopyNextKeepsList(m: Matcher, s: State)
    requires Inv(m, s)
    ensures EntriesOk(Step(m, s, CopyNext)) && LockOk(Step(m, s, CopyNext))
  {
    if s.lock.Removing? && s.lock.next < s.entries.len {
      var e := s.mem[s.entries.arr][s.lock.next];
      if RegisteredUnder(e, s.lock.topic) {
        SkippedKeepsList(m, s, e);
      } else {
        CopiedKeepsList(m, s, e);
      }
    }
  }

  lemma ListExtends(hist: seq<Event>, e: Event)
    ensures ListAfter(hist + [e]) == Applied(ListAfter(hist), e)
  {
    assert (hist + [e])[..|hist|] == hist;
  }

  lemma PublishKeepsList(m: Matcher, s: State)
    requires EntriesOk(s) && LockOk(s)
    ensures EntriesOk(Step(m, s, Publish)) && LockOk(Step(m, s, Publish))
  {
    if s.lock.Adding? {
      ListExtends(s.hist, Added(s.lock.entry));
    } else if s.lock.Removing? {
      ListExtends(s.hist, Removed(s.lock.topic));
      assert View(s.mem, s.entries)[..s.entries.len] == View(s.mem, s.entries);
    }
  }

  predicate AboutRoutes(a: Action) {
    a.Snapshot? || a.Resolve? || a.Dispatch? || a.Finish? || a.ResetAliases?
  }

  // Routing and resetting leave the list, the memory and the lock alone.
  lemma RoutingShape(m: Matcher, s: State, a: Action)
    requires AboutRoutes(a)
    ensures var s' := Step(m, s, a);
      && s'.mem == s.mem && s'.entries == s.entries && s'.lock == s.lock && ListAfter(s'.hist) == ListAfter(s.hist)
  {
    HistoryShape(m, s, a);
    if Step(m, s, a).hist != s.hist {
      ListExtends(s.hist, Step(m, s, a).hist[|s.hist|]);
    }
  }

  lemma RoutingKeepsList(m: Matcher, s: State, a: Action)
    requires EntriesOk(s) && LockOk(s) && AboutRoutes(a)
    ensures EntriesOk(Step(m, s, a)) && LockOk(Step(m, s, a))
  {
    RoutingShape(m, s, a);
    SameReferences(m, s, a);
  }

  lemma BeginAddKeepsList(m: Matcher, s: State, entry: RouterEntry)
    requires EntriesOk(s) && LockOk(s)
    ensures EntriesOk(Step(m, s, BeginAdd(entry))) && LockOk(Step(m, s, BeginAdd(entry)))
  {
    SameReferences(m, s, BeginAdd(entry));
  }

  lemma StepKeepsList(m: Matcher, s: State, a: Action)
    requires Inv(m, s)
    ensures EntriesOk(Step(m, s, a)) && LockOk(Step(m, s, a))
  {
    match a {
      case BeginAdd(entry) => BeginAddKeepsList(m, s, entry);
      case AppendEntry(spare) => AppendEntryKeepsList(m, s, spare);
      case BeginRemove(topic) => BeginRemoveKeepsList(m, s, topic);
      case CopyNext => CopyNextKeepsList(m, s);
      case Publish => PublishKeepsList(m, s);
      case _ => RoutingKeepsList(m, s, a);
    }
  }

  lemma StepKeepsInv(m: Matcher, s: State, a: Action)
    requires Inv(m, s)
    ensures Inv(m, Step(m, s, a))
  {
    StepKeepsList(m, s, a);
    StepKeepsRoutes(m, s, a);
    StepKeepsAliases(m, s, a);
  }
}
