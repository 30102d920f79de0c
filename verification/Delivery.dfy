/**
 From packet to bus: the router of a started client, its subscribers and a
 publisher at the far end, put together.
*/
module Delivery {
  import opened Wrappers
  import opened Recipients
  import opened RouterMachine
  import opened RouterRuns
  import opened UserProperties
  import opened Client
  import opened GoSlices
  import R = Router
  import S = Subscriber

  // ----- Who is called -----

  predicate IsFor<Msg>(m: Matcher, cfg: S.Config<Msg>, topic: string) {
    AnyMatches(m, S.Patterns(cfg.subscriptions), topic)
  }

  // The calls are one for every subscriber the topic is for, none for the others,
  // in order of registration.
  predicate OnceEach<Msg>(m: Matcher, cfgs: seq<S.Config<Msg>>, topic: string, calls: seq<Call>) {
    && (forall j | 0 <= j < |calls| ::
          calls[j].handler < |cfgs| && calls[j].topic == topic && IsFor(m, cfgs[calls[j].handler], topic))
    && (forall j, k | 0 <= j < k < |calls| :: calls[j].handler < calls[k].handler)
    && (forall i | 0 <= i < |cfgs| && IsFor(m, cfgs[i], topic) :: Call(i, topic) in calls)
  }

  lemma EachRecipientOnce<Msg>(m: Matcher, cfgs: seq<S.Config<Msg>>, topic: string)
    ensures OnceEach(m, cfgs, topic, CallsFor(m, EntriesOf(cfgs), topic))
  {
    var list := EntriesOf(cfgs);
    var ps, calls := Positions(m, list, topic), CallsFor(m, list, topic);
    CallsAreThePositions(m, list, topic);
    forall j | 0 <= j < |calls|
      ensures calls[j].handler == ps[j] < |cfgs| && calls[j].topic == topic && IsFor(m, cfgs[ps[j]], topic)
    {
      assert ps[j] in ps;
      assert list[ps[j]] == RouterEntry(S.Patterns(cfgs[ps[j]].subscriptions), ps[j]);
    }
    forall i | 0 <= i < |cfgs| && IsFor(m, cfgs[i], topic)
      ensures Call(i, topic) in calls
    {
      assert list[i].patterns == S.Patterns(cfgs[i].subscriptions);
      var j :| 0 <= j < |ps| && ps[j] == i;
      assert calls[j] == Call(i, topic);
    }
  }

  // No message on the topic can fail a subscriber it is handed to as unmatched.
  ghost predicate NeverUnmatched<Msg>(cfgs: seq<S.Config<Msg>>, calls: seq<Call>, topic: string) {
    forall c, message: S.Message | c in calls && c.handler < |cfgs| && message.topic == topic ::
      S.Judge(cfgs[c.handler], message) != S.NoSubscription
  }

  // What the router sends a subscriber never fails as unmatched there.
  lemma RoutedIsFound<Msg>(cfg: S.Config<Msg>, message: S.Message)
    requires IsFor(cfg.matches, cfg, message.topic)
    ensures S.Judge(cfg, message) != S.NoSubscription
  {
    S.RoutedIffFound(cfg, message.topic);
  }

  // ----- A started client, under concurrency -----

  // The actions of buildRouter: one AddRecipient after another.
  function BuildActions(entries: seq<RouterEntry>): seq<Action> {
    if entries == [] then []
    else
      var n := |entries| - 1;
      BuildActions(entries[..n]) + ([BeginAdd(entries[n])] + ([AppendEntry(0)] + ([Publish] + [])))
  }

  lemma AddCommits(m: Matcher, s: State, e: RouterEntry)
    requires Inv(m, s) && s.lock.Free?
    ensures var s' := Exec(m, s, [BeginAdd(e)] + ([AppendEntry(0)] + ([Publish] + [])));
      s'.lock.Free? && s'.routes == s.routes && s'.hist == s.hist + [Added(e)]
  {
    var s1 := Step(m, s, BeginAdd(e));
    StepKeepsInv(m, s, BeginAdd(e));
    var s2 := Step(m, s1, AppendEntry(0));
    ExecFirst(m, s, BeginAdd(e), [AppendEntry(0)] + ([Publish] + []));
    ExecFirst(m, s1, AppendEntry(0), [Publish] + []);
    ExecFirst(m, s2, Publish, []);
  }

  predicate Built(s: State, entries: seq<RouterEntry>) {
    s.lock.Free? && s.routes == map[] && ListAfter(s.hist) == entries
  }

  lemma AddBuilds(m: Matcher, s: State, entries: seq<RouterEntry>, e: RouterEntry)
    requires Inv(m, s) && Built(s, entries)
    ensures Built(Exec(m, s, [BeginAdd(e)] + ([AppendEntry(0)] + ([Publish] + []))), entries + [e])
  {
    AddCommits(m, s, e);
    assert (s.hist + [Added(e)])[..|s.hist|] == s.hist;
  }

  lemma {:induction false} BuildCommits(m: Matcher, entries: seq<RouterEntry>)
    ensures Built(Exec(m, Init(), BuildActions(entries)), entries)
  {
    if entries != [] {
      var n := |entries| - 1;
      BuildCommits(m, entries[..n]);
      Reachable(m, BuildActions(entries[..n]));
      AddBuilds(m, Exec(m, Init(), BuildActions(entries[..n])), entries[..n], entries[n]);
      ExecConcat(m, Init(), BuildActions(entries[..n]),
                 [BeginAdd(entries[n])] + ([AppendEntry(0)] + ([Publish] + [])));
      assert entries == entries[..n] + [entries[n]];
    }
  }

  predicate NoRegistrations(actions: seq<Action>) {
    forall a | a in actions :: !a.BeginAdd? && !a.BeginRemove?
  }

  lemma WithoutRegistration(m: Matcher, s: State, a: Action)
    requires s.lock.Free? && !a.BeginAdd? && !a.BeginRemove?
    ensures Step(m, s, a).lock.Free? && ListAfter(Step(m, s, a).hist) == ListAfter(s.hist)
  {
    if AboutRoutes(a) {
      RoutingShape(m, s, a);
    }
  }

  lemma {:induction false} ListStays(m: Matcher, s: State, actions: seq<Action>)
    requires s.lock.Free? && NoRegistrations(actions)
    ensures Exec(m, s, actions).lock.Free? && ListAfter(Exec(m, s, actions).hist) == ListAfter(s.hist)
  {
    if actions != [] {
      var n := |actions| - 1;
      ListStays(m, s, actions[..n]);
      assert actions[n] in actions;
      WithoutRegistration(m, Exec(m, s, actions[..n]), actions[n]);
    }
  }

  // Route id, if done, has called exactly the subscribers its topic is for, once
  // each, and none of them can fail it as unmatched; its topic is the one the
  // packet carries, or what the packet's alias stands for.
  ghost predicate DeliveredOnce<Msg>(m: Matcher, cfgs: seq<S.Config<Msg>>, s: State, id: nat, pb: Packet)
    requires id in s.routes
  {
    var phase := s.routes[id].phase;
    phase.Done? ==>
      && RoutedUnder(s.hist, phase.resolved, pb, phase.topic)
      && OnceEach(m, cfgs, phase.topic, phase.calls) && NeverUnmatched(cfgs, phase.calls, phase.topic)
  }

  lemma LinearizedIsDeliveredOnce<Msg>(m: Matcher, cfgs: seq<S.Config<Msg>>, pre: State, actions: seq<Action>,
                                       id: nat, pb: Packet, session: nat)
    requires forall i | 0 <= i < |cfgs| :: cfgs[i].matches == m
    requires ListAfter(pre.hist) == EntriesOf(cfgs)
    requires Linearized(m, pre, Exec(m, Init(), actions), id, pb, session)
    ensures DeliveredOnce(m, cfgs, Exec(m, Init(), actions), id, pb)
  {
    var phase := Exec(m, Init(), actions).routes[id].phase;
    if phase.Done? {
      DoneUnderItsTopic(m, actions, id);
      EachRecipientOnce(m, cfgs, phase.topic);
      CalledIsMatched(m, cfgs, phase.calls, phase.topic);
    }
  }

  // End to end: in any execution of a router built for the subscribers and not
  // changed since, every packet that comes to be routed is delivered once. For any
  // matching rule and any overlap of patterns.
  lemma EndToEnd<Msg>(m: Matcher, cfgs: seq<S.Config<Msg>>, before: seq<Action>, after: seq<Action>,
                      id: nat, pb: Packet, session: nat)
    requires forall i | 0 <= i < |cfgs| :: cfgs[i].matches == m
    requires NoRegistrations(before)
    requires id !in Exec(m, Init(), BuildActions(EntriesOf(cfgs)) + before).routes
    ensures var s := Exec(m, Init(), BuildActions(EntriesOf(cfgs)) + before + [Snapshot(id, pb, session)] + after);
      id in s.routes && DeliveredOnce(m, cfgs, s, id, pb)
  {
    var entries := EntriesOf(cfgs);
    var pre := BuildActions(entries) + before;
    BuildCommits(m, entries);
    ExecConcat(m, Init(), BuildActions(entries), before);
    ListStays(m, Exec(m, Init(), BuildActions(entries)), before);
    RouteLinearizes(m, pre, id, pb, session, after);
    LinearizedIsDeliveredOnce(m, cfgs, Exec(m, Init(), pre), pre + [Snapshot(id, pb, session)] + after,
                              id, pb, session);
  }

  lemma CalledIsMatched<Msg>(m: Matcher, cfgs: seq<S.Config<Msg>>, calls: seq<Call>, topic: string)
    requires OnceEach(m, cfgs, topic, calls) && forall i | 0 <= i < |cfgs| :: cfgs[i].matches == m
    ensures NeverUnmatched(cfgs, calls, topic)
  {
    forall c, message: S.Message | c in calls && c.handler < |cfgs| && message.topic == topic
      ensures S.Judge(cfgs[c.handler], message) != S.NoSubscription
    {
      RoutedIsFound(cfgs[c.handler], message);
    }
  }

  // ----- One message, several recipients -----

  // How often a subscriber comes up among the handlers called.
  function Turns<T(==)>(subs: seq<T>, handlers: seq<nat>, who: T): nat {
    if handlers == [] then 0
    else
      var n := |handlers| - 1;
      Turns(subs, handlers[..n], who) + if handlers[n] < |subs| && subs[handlers[n]] == who then 1 else 0
  }

  function EventsDelivered<Msg>(v: S.Verdict<Msg>, turns: nat): seq<S.Event<Msg>> {
    if v.Deliver? then seq(turns, _ => v.event) else []
  }

  lemma OneMoreTurn<Msg>(before: seq<S.Event<Msg>>, v: S.Verdict<Msg>, turns: nat)
    ensures before + EventsDelivered(v, turns) + EventsDelivered(v, 1) == before + EventsDelivered(v, turns + 1)
  {
  }

  // The next handler gives its subscriber one more turn and nobody else.
  lemma NextTurn<T, Msg>(subs: seq<T>, handlers: seq<nat>, k: nat, who: T, before: seq<S.Event<Msg>>, v: S.Verdict<Msg>)
    requires k < |handlers| && handlers[k] < |subs|
    ensures before + EventsDelivered(v, Turns(subs, handlers[..k + 1], who)) ==
      before + EventsDelivered(v, Turns(subs, handlers[..k], who))
        + if subs[handlers[k]] == who then EventsDelivered(v, 1) else []
  {
    assert handlers[..k + 1][..k] == handlers[..k];
    OneMoreTurn(before, v, Turns(subs, handlers[..k], who));
  }

  // The closure buildRouter registers: the error is logged and goes no further.
  method Handle<Msg>(sub: S.MQTTSubscriber<Msg>, pub: S.Publish)
    requires pub.Valid()
    modifies sub
    ensures sub.events == old(sub.events) + EventsDelivered(S.Judge(sub.cfg, old(pub.Value())), 1)
  {
    var err := sub.HandleMessage(pub);
  }

  // The handlers Route calls, in turn, on the one Publish they share. Each gets
  // what it would have got alone: neither the message nor anybody's fields carry
  // over what an earlier recipient did to its own.
  method RunHandlers<Msg>(subs: seq<S.MQTTSubscriber<Msg>>, handlers: seq<nat>, pub: S.Publish)
    requires pub.Valid()
    requires forall j | 0 <= j < |handlers| :: handlers[j] < |subs|
    modifies subs
    ensures pub.Value() == old(pub.Value())
    ensures forall i | 0 <= i < |subs| ::
      subs[i].events == old(subs[i].events)
        + EventsDelivered(S.Judge(subs[i].cfg, old(pub.Value())), Turns(subs, handlers, subs[i]))
  {
    for k := 0 to |handlers|
      invariant pub.Value() == old(pub.Value())
      invariant forall i | 0 <= i < |subs| ::
        subs[i].events == old(subs[i].events)
          + EventsDelivered(S.Judge(subs[i].cfg, old(pub.Value())), Turns(subs, handlers[..k], subs[i]))
    {
      label before:
      Handle(subs[handlers[k]], pub);
      forall i | 0 <= i < |subs|
        ensures subs[i].events == old(subs[i].events)
          + EventsDelivered(S.Judge(subs[i].cfg, old(pub.Value())), Turns(subs, handlers[..k + 1], subs[i]))
      {
        NextTurn(subs, handlers, k, subs[i], old(subs[i].events), S.Judge(subs[i].cfg, old(pub.Value())));
        assert subs[i] != subs[handlers[k]] ==> subs[i].events == old@before(subs[i].events);
      }
    }
    assert handlers[..|handlers|] == handlers;
  }

  // With the handlers of a routed message and each subscriber added once, that is
  // one turn for every subscriber the message is for and none for the others.
  lemma {:induction false} OneTurnEach<T>(subs: seq<T>, handlers: seq<nat>, i: nat)
    requires i < |subs| && forall j | 0 <= j < |subs| && j != i :: subs[j] != subs[i]
    requires forall j, k | 0 <= j < k < |handlers| :: handlers[j] < handlers[k]
    ensures Turns(subs, handlers, subs[i]) == if i in handlers then 1 else 0
  {
    if handlers != [] {
      OneTurnEach(subs, handlers[..|handlers| - 1], i);
    }
  }

  // The handlers of a routed message are those of the subscribers it is for; so a
  // subscriber added several times has that many turns, or none at all.
  lemma {:induction false} TurnsAreThePlaces<T>(subs: seq<T>, handlers: seq<nat>, wanted: T -> bool, who: T, n: nat)
    requires n <= |subs| && forall j | 0 <= j < |handlers| :: handlers[j] < n
    requires forall j, k | 0 <= j < k < |handlers| :: handlers[j] < handlers[k]
    requires forall i: nat | i < n :: i in handlers <==> wanted(subs[i])
    ensures Turns(subs, handlers, who) == if wanted(who) then multiset(subs[..n])[who] else 0
    decreases n
  {
    if n > 0 {
      assert subs[..n] == subs[..n - 1] + [subs[n - 1]];
      var last := |handlers| - 1;
      if handlers != [] && handlers[last] == n - 1 {
        TurnsAreThePlaces(subs, handlers[..last], wanted, who, n - 1);
      } else {
        assert n - 1 !in handlers;
        TurnsAreThePlaces(subs, handlers, wanted, who, n - 1);
      }
    }
  }

  function HandlersOf(calls: seq<Call>): seq<nat> {
    seq(|calls|, j requires 0 <= j < |calls| => calls[j].handler)
  }

  lemma HandlersAreTheIntended<Msg>(m: Matcher, cfgs: seq<S.Config<Msg>>, topic: string, calls: seq<Call>)
    requires OnceEach(m, cfgs, topic, calls)
    ensures forall i: nat | i < |cfgs| :: i in HandlersOf(calls) <==> IsFor(m, cfgs[i], topic)
  {
    forall i: nat | i < |cfgs|
      ensures i in HandlersOf(calls) <==> IsFor(m, cfgs[i], topic)
    {
      if IsFor(m, cfgs[i], topic) {
        var j :| 0 <= j < |calls| && calls[j] == Call(i, topic);
        assert HandlersOf(calls)[j] == i;
      }
    }
  }

  // What a subscriber's bus gets of a message, for each time it was added.
  function Share<Msg>(m: Matcher, cfg: S.Config<Msg>, message: S.Message, times: nat): seq<S.Event<Msg>> {
    if IsFor(m, cfg, message.topic) then EventsDelivered(S.Judge(cfg, message), times) else []
  }

  lemma TurnsMakeTheShare<Msg>(m: Matcher, subs: seq<S.MQTTSubscriber<Msg>>, message: S.Message, calls: seq<Call>,
                               who: S.MQTTSubscriber<Msg>)
    requires OnceEach(m, ConfigsOf(subs), message.topic, calls)
    ensures EventsDelivered(S.Judge(who.cfg, message), Turns(subs, HandlersOf(calls), who))
      == Share(m, who.cfg, message, multiset(subs)[who])
  {
    HandlersAreTheIntended(m, ConfigsOf(subs), message.topic, calls);
    assert forall i: nat | i < |subs| :: ConfigsOf(subs)[i] == subs[i].cfg;
    TurnsAreThePlaces(subs, HandlersOf(calls), (sub: S.MQTTSubscriber<Msg>) => IsFor(m, sub.cfg, message.topic),
                      who, |subs|);
    assert subs[..|subs|] == subs;
  }

  // The handlers called for a message.
  method HandleCalls<Msg>(ghost m: Matcher, subs: seq<S.MQTTSubscriber<Msg>>, calls: seq<Call>, pub: S.Publish)
    requires pub.Valid() && OnceEach(m, ConfigsOf(subs), pub.topic, calls)
    modifies subs
    ensures forall i | 0 <= i < |subs| ::
      subs[i].events == old(subs[i].events) + Share(m, subs[i].cfg, old(pub.Value()), multiset(subs)[subs[i]])
  {
    RunHandlers(subs, HandlersOf(calls), pub);
    forall i | 0 <= i < |subs|
      ensures subs[i].events == old(subs[i].events) + Share(m, subs[i].cfg, old(pub.Value()), multiset(subs)[subs[i]])
    {
      TurnsMakeTheShare(m, subs, old(pub.Value()), calls, subs[i]);
    }
  }

  lemma NobodyCalled<Msg>(m: Matcher, subs: seq<S.MQTTSubscriber<Msg>>, message: S.Message)
    requires OnceEach(m, ConfigsOf(subs), message.topic, [])
    ensures forall i | 0 <= i < |subs| :: Share(m, subs[i].cfg, message, multiset(subs)[subs[i]]) == []
  {
    assert forall i | 0 <= i < |subs| :: ConfigsOf(subs)[i] == subs[i].cfg;
  }

  // The one Publish made for a routed packet, handed to all of them.
  method HandOver<Msg>(ghost m: Matcher, subs: seq<S.MQTTSubscriber<Msg>>, calls: seq<Call>, ghost message: S.Message,
                       payload: Option<seq<bv8>>, retain: bool, user: Slice<UserProperty>)
    requires user.Valid() && message == S.Message(message.topic, payload, retain, user.Contents())
    requires calls != [] && OnceEach(m, ConfigsOf(subs), message.topic, calls)
    modifies subs
    ensures forall i | 0 <= i < |subs| ::
      subs[i].events == old(subs[i].events) + Share(m, subs[i].cfg, message, multiset(subs)[subs[i]])
  {
    var pub := new S.Publish(calls[0].topic, payload, retain, Some(user));
    assert pub.Value() == message;
    HandleCalls(m, subs, calls, pub);
  }

  // A packet through the router of a started client and on to its subscribers:
  // each subscriber's events grow by its own verdict on the message, once for each
  // time it was added, when some pattern of it matches the resolved topic, and by
  // nothing otherwise.
  method RoutePacket<Msg>(router: R.SubscriberRouter, subs: seq<S.MQTTSubscriber<Msg>>, pb: Packet,
                          payload: Option<seq<bv8>>, retain: bool, user: Slice<UserProperty>)
    requires router.Valid() && router.List() == EntriesOf(ConfigsOf(subs)) && user.Valid()
    modifies router`entries, router`aliases, subs
    ensures var topic := ResolvedTopic(old(router.aliases), pb);
      forall i | 0 <= i < |subs| :: subs[i].events == old(subs[i].events) +
        if topic == "" then []
        else Share(router.matches, subs[i].cfg, S.Message(topic, payload, retain, old(user.Contents())),
                   multiset(subs)[subs[i]])
  {
    ghost var topic := ResolvedTopic(router.aliases, pb);
    ghost var message := S.Message(topic, payload, retain, user.Contents());
    var calls := router.Route(pb);
    EachRecipientOnce(router.matches, ConfigsOf(subs), topic);
    if calls != [] {
      HandOver(router.matches, subs, calls, message, payload, retain, user);
    } else if topic != "" {
      NobodyCalled(router.matches, subs, message);
    }
  }

  // From Start to the bus: a client that has started delivers a packet with a topic
  // of its own to exactly the subscribers with a pattern for it.
  method StartAndRoute<Msg, Out>(client: MQTTClient<Msg, Out>, manager: nat, max: int, matches: Matcher, created: bool,
                                 gaveUp: bool, pb: Packet, payload: Option<seq<bv8>>, retain: bool,
                                 user: Slice<UserProperty>)
    returns (started: bool)
    requires user.Valid()
    modifies client, client.publishers, client.subscribers
    ensures forall i | 0 <= i < |client.subscribers| ::
      started && pb.topic != "" ==>
        client.subscribers[i].events == old(client.subscribers[i].events) + Share(
          matches, client.subscribers[i].cfg, S.Message(pb.topic, payload, retain, old(user.Contents())),
          multiset(client.subscribers)[client.subscribers[i]])
    ensures forall i | 0 <= i < |client.subscribers| ::
      !started ==> client.subscribers[i].events == old(client.subscribers[i].events)
  {
    var callbacks;
    started, callbacks := client.Start(manager, max, matches, created, gaveUp);
    if started {
      RoutePacket(callbacks.router, client.subscribers, pb, payload, retain, user);
    }
  }

  // ----- From a publisher's event to a subscriber's -----

  // Fields sent by a publisher, with whatever the tracer adds on the way, arrive
  // at a subscriber that extracts nothing from an unretained message as they
  // were, less the trace keys; and otherwise lie beneath what it adds.
  lemma FieldsArrive(listed: seq<UserProperty>, sets: seq<UserProperty>, fields: map<string, string>,
                     extracted: map<string, string>, retain: bool)
    requires Lists(listed, fields)
    requires forall i | 0 <= i < |sets| :: sets[i].key in TRACE_KEYS
    ensures var sent := SetAll(listed, sets);
      && S.OrEmpty(S.DeliveredFields(sent, extracted, retain))
           == WithoutTrace(fields) + extracted + (if retain then map["$retained" := "true"] else map[])
      && (extracted == map[] && !retain ==>
            S.DeliveredFields(sent, extracted, retain)
              == if WithoutTrace(fields) == map[] then None else Some(WithoutTrace(fields)))
  {
    RoundTrip(listed, fields, sets);
    LaidOver(SetAll(listed, sets), WithoutTrace(fields), extracted, retain);
  }

  lemma LaidOver(user: seq<UserProperty>, plain: map<string, string>, extracted: map<string, string>, retain: bool)
    requires Decode(user) == plain
    ensures S.OrEmpty(S.DeliveredFields(user, extracted, retain))
      == plain + extracted + (if retain then map["$retained" := "true"] else map[])
    ensures extracted == map[] && !retain ==>
      S.DeliveredFields(user, extracted, retain) == if plain == map[] then None else Some(plain)
  {
    assert S.OrEmpty(S.FieldsOf(user)) == plain;
    assert plain + map[] == plain;
    assert plain + extracted + map[] == plain + extracted;
  }
}
