/**
 client/client.go: the client's methods and the callbacks it hands to the
 connection manager, as they run when nothing interferes.
*/
module Client {
  import opened Wrappers
  import opened Topics
  import opened Recipients
  import opened Router
  import opened Limiter
  import opened Callbacks
  import P = Publisher
  import S = Subscriber

  // ----- What the subscribers ask for -----

  function Filters<Msg>(cfgs: seq<S.Config<Msg>>): seq<SubscribeOptions> {
    if cfgs == [] then [] else Filters(cfgs[..|cfgs| - 1]) + S.BrokerFilters(cfgs[|cfgs| - 1])
  }

  // Where the filters of subscriber i begin: after all subscriptions before it.
  function Offset<Msg>(cfgs: seq<S.Config<Msg>>, i: nat): nat
    requires i <= |cfgs|
  {
    if i == 0 then 0 else Offset(cfgs, i - 1) + |cfgs[i - 1].subscriptions|
  }

  // Subscription j of a subscriber, as it is sent: its broker topic, behind the
  // share prefix if there is a group, and its QoS.
  predicate SentAs<Msg>(cfg: S.Config<Msg>, j: nat, option: SubscribeOptions)
    requires j < |cfg.subscriptions|
  {
    && option.qos == cfg.subscriptions[j].qos
    && option.topic ==
      if cfg.sharedGroup == "" then cfg.subscriptions[j].brokerTopic
      else "$share/" + cfg.sharedGroup + "/" + cfg.subscriptions[j].brokerTopic
  }

  predicate SentAt<Msg>(cfgs: seq<S.Config<Msg>>, opts: seq<SubscribeOptions>, i: nat, j: nat)
    requires i < |cfgs| && j < |cfgs[i].subscriptions|
  {
    Offset(cfgs, i) + j < |opts| && SentAs(cfgs[i], j, opts[Offset(cfgs, i) + j])
  }

  // One filter for each subscription of each subscriber, in order, and no other.
  predicate SentInOrder<Msg>(cfgs: seq<S.Config<Msg>>, opts: seq<SubscribeOptions>) {
    && |opts| == Offset(cfgs, |cfgs|)
    && forall i: nat, j: nat | i < |cfgs| && j < |cfgs[i].subscriptions| :: SentAt(cfgs, opts, i, j)
  }

  lemma {:induction false} OffsetOfPrefix<Msg>(cfgs: seq<S.Config<Msg>>, n: nat, i: nat)
    requires i <= n <= |cfgs|
    ensures Offset(cfgs[..n], i) == Offset(cfgs, i)
  {
    if i > 0 {
      OffsetOfPrefix(cfgs, n, i - 1);
    }
  }

  lemma LastIsSent<Msg>(cfg: S.Config<Msg>, j: nat)
    requires j < |cfg.subscriptions|
    ensures j < |S.BrokerFilters(cfg)| && SentAs(cfg, j, S.BrokerFilters(cfg)[j])
  {
    var topic := cfg.subscriptions[j].brokerTopic;
    assert "" + topic == topic;
  }

  lemma EarlierIsSent<Msg>(cfgs: seq<S.Config<Msg>>, before: seq<SubscribeOptions>, more: seq<SubscribeOptions>,
                           i: nat, j: nat)
    requires cfgs != [] && i < |cfgs| - 1 && j < |cfgs[i].subscriptions|
    requires SentAt(cfgs[..|cfgs| - 1], before, i, j)
    ensures SentAt(cfgs, before + more, i, j)
  {
    OffsetOfPrefix(cfgs, |cfgs| - 1, i);
  }

  lemma {:induction false} FiltersAreSentInOrder<Msg>(cfgs: seq<S.Config<Msg>>)
    ensures SentInOrder(cfgs, Filters(cfgs))
  {
    if cfgs != [] {
      var n := |cfgs| - 1;
      var before, more := Filters(cfgs[..n]), S.BrokerFilters(cfgs[n]);
      FiltersAreSentInOrder(cfgs[..n]);
      OffsetOfPrefix(cfgs, n, n);
      forall i: nat, j: nat | i < |cfgs| && j < |cfgs[i].subscriptions|
        ensures SentAt(cfgs, before + more, i, j)
      {
        if i < n {
          assert SentAt(cfgs[..n], before, i, j);
          EarlierIsSent(cfgs, before, more, i, j);
        } else {
          LastIsSent(cfgs[n], j);
        }
      }
    }
  }

  predicate CoveredFor<Msg>(cfg: S.Config<Msg>, topic: string) {
    S.BrokerCovers(S.BrokerFilters(cfg), topic)
  }

  predicate CoveredForSome<Msg>(cfgs: seq<S.Config<Msg>>, topic: string) {
    exists i | 0 <= i < |cfgs| :: CoveredFor(cfgs[i], topic)
  }

  lemma CoveredForSomeExtends<Msg>(cfgs: seq<S.Config<Msg>>, topic: string)
    requires cfgs != []
    ensures CoveredForSome(cfgs, topic) <==>
      CoveredForSome(cfgs[..|cfgs| - 1], topic) || CoveredFor(cfgs[|cfgs| - 1], topic)
  {
    var n := |cfgs| - 1;
    assert forall i | 0 <= i < n :: cfgs[..n][i] == cfgs[i];
  }

  // The broker's view of a client that has attempted all its filters: a topic is
  // covered by one of them exactly when it is covered by those of a subscriber.
  lemma {:induction false} CoveredBySome<Msg>(cfgs: seq<S.Config<Msg>>, topic: string)
    ensures S.BrokerCovers(Filters(cfgs), topic) <==> CoveredForSome(cfgs, topic)
  {
    if cfgs != [] {
      var n := |cfgs| - 1;
      CoveredBySome(cfgs[..n], topic);
      CoveredByEither(Filters(cfgs[..n]), S.BrokerFilters(cfgs[n]), topic);
      CoveredForSomeExtends(cfgs, topic);
    }
  }

  lemma CoveredByEither(a: seq<SubscribeOptions>, b: seq<SubscribeOptions>, topic: string)
    ensures S.BrokerCovers(a + b, topic) <==> S.BrokerCovers(a, topic) || S.BrokerCovers(b, topic)
  {
    if i :| 0 <= i < |a| && Covers(a[i].topic, topic) {
      assert Covers((a + b)[i].topic, topic);
    }
    if i :| 0 <= i < |b| && Covers(b[i].topic, topic) {
      assert Covers((a + b)[|a| + i].topic, topic);
    }
  }

  lemma RoutedToSome<Msg>(cfgs: seq<S.Config<Msg>>, topic: string)
    requires forall i | 0 <= i < |cfgs| ::
      CoveredFor(cfgs[i], topic) <==> AnyMatches(NamedMatches, S.Patterns(cfgs[i].subscriptions), topic)
    ensures CoveredForSome(cfgs, topic) <==> Positions(NamedMatches, EntriesOf(cfgs), topic) != []
  {
    var entries := EntriesOf(cfgs);
    var ps := Positions(NamedMatches, entries, topic);
    if ps != [] {
      assert ps[0] in ps;
      assert entries[ps[0]].patterns == S.Patterns(cfgs[ps[0]].subscriptions);
    }
    if i :| 0 <= i < |cfgs| && CoveredFor(cfgs[i], topic) {
      assert entries[i].patterns == S.Patterns(cfgs[i].subscriptions);
      assert i in ps;
    }
  }

  // The three views agree for the client as a whole: the broker covers a topic with
  // the filters sent exactly when the router has a recipient for it.
  lemma BrokerCoversExactlyTheRouted<Msg>(cfgs: seq<S.Config<Msg>>, topic: string)
    requires forall i | 0 <= i < |cfgs| :: S.Computed(cfgs[i]) && S.SharesCleanly(cfgs[i])
    ensures S.BrokerCovers(Filters(cfgs), topic) <==> Positions(NamedMatches, EntriesOf(cfgs), topic) != []
  {
    CoveredBySome(cfgs, topic);
    forall i | 0 <= i < |cfgs|
      ensures CoveredFor(cfgs[i], topic) <==> AnyMatches(NamedMatches, S.Patterns(cfgs[i].subscriptions), topic)
    {
      S.BrokerRouterAndDispatchAgree(cfgs[i], topic);
    }
    RoutedToSome(cfgs, topic);
  }

  // One recipient for each subscriber, behind all of its patterns; the handler
  // of subscriber i is i.
  function EntriesOf<Msg>(cfgs: seq<S.Config<Msg>>): (entries: seq<RouterEntry>)
    ensures |entries| == |cfgs|
  {
    seq(|cfgs|, i requires 0 <= i < |cfgs| => RouterEntry(S.Patterns(cfgs[i].subscriptions), i))
  }

  function ConfigsOf<Msg>(subs: seq<S.MQTTSubscriber<Msg>>): seq<S.Config<Msg>> {
    seq(|subs|, i requires 0 <= i < |subs| => subs[i].cfg)
  }

  class MQTTClient<Msg, Out> {
    // Fixed before Start.
    const subscribers: seq<S.MQTTSubscriber<Msg>>
    const publishers: seq<P.MQTTPublisher<Out>>
    var cm: Option<nat>
    var connected: bool
    var gauge: bool
    var reconnects: nat

    constructor (subscribers: seq<S.MQTTSubscriber<Msg>>, publishers: seq<P.MQTTPublisher<Out>>)
      ensures this.subscribers == subscribers && this.publishers == publishers
      ensures cm == None && !connected && !gauge && reconnects == 0
    {
      this.subscribers, this.publishers := subscribers, publishers;
      cm, connected, gauge, reconnects := None, false, false, 0;
    }

    method SetConnected(value: bool)
      modifies `connected
      ensures connected == value
    {
      connected := value;
    }

    method BuildSubscribeOptions() returns (opts: seq<SubscribeOptions>)
      ensures opts == Filters(ConfigsOf(subscribers)) && SentInOrder(ConfigsOf(subscribers), opts)
    {
      ghost var cfgs := ConfigsOf(subscribers);
      opts := [];
      for i := 0 to |subscribers|
        invariant opts == Filters(cfgs[..i])
      {
        var more := subscribers[i].BrokerSubscriptions();
        assert cfgs[..i + 1][..i] == cfgs[..i] && cfgs[i] == subscribers[i].cfg;
        opts := opts + more;
      }
      assert cfgs[..|subscribers|] == cfgs;
      FiltersAreSentInOrder(cfgs);
    }

    method BuildRouter(matches: Matcher) returns (router: SubscriberRouter)
      ensures fresh(router) && router.Valid() && fresh(router.entries.arr) && router.matches == matches
      ensures router.List() == EntriesOf(ConfigsOf(subscribers)) && router.aliases == map[]
    {
      ghost var all := EntriesOf(ConfigsOf(subscribers));
      router := new SubscriberRouter(matches);
      for i := 0 to |subscribers|
        invariant fresh(router) && router.Valid() && fresh(router.entries.arr) && router.matches == matches
        invariant router.List() == all[..i] && router.aliases == map[]
      {
        var patterns := subscribers[i].MQTTPatterns();
        router.AddRecipient(patterns, i, 0);
        assert all[..i + 1] == all[..i] + [RouterEntry(patterns, i)];
      }
      assert all[..|subscribers|] == all;
    }

    // Start, undisturbed by other calls, with the closures it leaves to the
    // connection manager. Whether that can be created, what callbacks it runs until
    // the select is decided, and whether its context or its end comes first is not up
    // to the client; given that, nil is returned exactly to a client not started
    // before whose first Up has run: wired, having attempted to subscribe, and with
    // the router and the limiter of its own configuration.
    method Start(manager: nat, max: int, matches: Matcher, created: bool, gaveUp: bool)
      returns (started: bool, callbacks: ConnectionCallbacks?<Msg, Out>)
      modifies this, publishers
      ensures callbacks != null <==> old(cm).None?
      ensures started <==> callbacks != null && created && !gaveUp && callbacks.ready > 0
      ensures !started ==> cm == old(cm)
      ensures started ==> cm == Some(manager)
      ensures started ==> forall p | 0 <= p < |publishers| :: publishers[p].publishFunc == Some(manager)
      ensures callbacks != null ==> fresh(callbacks) && callbacks.client == this && callbacks.manager == manager
      ensures callbacks != null ==> fresh(callbacks.router) && fresh(callbacks.limiter)
      ensures callbacks != null ==> callbacks.router.Valid() && callbacks.router.matches == matches
      ensures callbacks != null ==> callbacks.router.List() == EntriesOf(ConfigsOf(subscribers))
      ensures callbacks != null ==> callbacks.limiter.Valid() && callbacks.limiter.max == max
      ensures started ==> callbacks.ready == 1
      ensures started ==> var filters := Filters(ConfigsOf(subscribers));
        filters != [] ==> filters in callbacks.attempts
    {
      callbacks := null;
      if cm.Some? {
        return false, null;
      }
      var limiter := new ReconnectLimiter(max);
      var router := BuildRouter(matches);
      callbacks := new ConnectionCallbacks(this, manager, router, limiter);
      if !created {
        return false, callbacks;
      }
      callbacks.Serve();
      if callbacks.ready == 0 || gaveUp {
        return false, callbacks;
      }
      assert forall p | 0 <= p < |publishers| :: callbacks.Fns()[p] == publishers[p].publishFunc;
      cm := Some(manager);
      return true, callbacks;
    }

    // Stop, with Disconnect done. The gauge is left alone.
    method Stop()
      modifies `connected
      ensures connected == (old(connected) && cm == None)
    {
      if cm.None? {
        return;
      }
      SetConnected(false);
    }
  }

  // The closures of buildAutopahoConfig with the locals of Start they capture.
  class ConnectionCallbacks<Msg, Out> {
    const client: MQTTClient<Msg, Out>
    const manager: nat
    const router: SubscriberRouter
    const limiter: ReconnectLimiter
    var firstConn: bool
    var ready: nat
    var attempts: seq<seq<SubscribeOptions>>

    constructor (client: MQTTClient<Msg, Out>, manager: nat, router: SubscriberRouter, limiter: ReconnectLimiter)
      ensures this.client == client && this.manager == manager && this.router == router && this.limiter == limiter
      ensures firstConn && ready == 0 && attempts == []
    {
      this.client, this.manager, this.router, this.limiter := client, manager, router, limiter;
      firstConn, ready, attempts := true, 0, [];
    }

    ghost function Fns(): seq<Option<nat>>
      reads client.publishers
    {
      seq(|client.publishers|, i requires 0 <= i < |client.publishers| reads client.publishers =>
        client.publishers[i].publishFunc)
    }

    ghost function SeenNow(): Outcome
      reads this, client, limiter, client.publishers
    {
      Outcome(client.connected, client.gauge, firstConn, ready, attempts, client.reconnects, Fns(),
              limiter.log, limiter.stopped)
    }

    method WirePublishers()
      modifies client.publishers
      ensures Fns() == seq(|client.publishers|, _ => Some(manager))
    {
      for i := 0 to |client.publishers|
        invariant forall p | 0 <= p < i :: client.publishers[p].publishFunc == Some(manager)
      {
        client.publishers[i].SetPublishFunc(manager);
      }
    }

    method BeginSession()
      requires limiter.Valid()
      modifies limiter, router`aliases
      ensures limiter.Valid() && router.aliases == map[]
      ensures SeenNow() == old(SeenNow()).(log := old(limiter.log) + [Success])
    {
      limiter.Connected();
      router.ResetAliases();
      assert Fns() == old(Fns());
    }

    // Whether Subscribe succeeds makes no difference: a failure is only logged.
    method SubscribeAll()
      modifies `attempts
      ensures var filters := Filters(ConfigsOf(client.subscribers));
        SeenNow() == old(SeenNow()).(attempts := old(attempts) + if filters == [] then [] else [filters])
    {
      var opts := client.BuildSubscribeOptions();
      if |opts| > 0 {
        attempts := attempts + [opts];
      }
      assert Fns() == old(Fns());
    }

    method OpenSession()
      requires limiter.Valid()
      modifies limiter, router`aliases, `attempts
      ensures limiter.Valid() && router.aliases == map[]
      ensures var filters := Filters(ConfigsOf(client.subscribers));
        SeenNow() == old(SeenNow()).(log := old(limiter.log) + [Success],
                                     attempts := old(attempts) + if filters == [] then [] else [filters])
    {
      BeginSession();
      SubscribeAll();
    }

    method Announce()
      modifies client`connected, client`gauge, client`reconnects
      ensures SeenNow() == old(SeenNow()).(connected := true, gauge := true,
                                           reconnects := old(client.reconnects) + if firstConn then 0 else 1)
    {
      client.SetConnected(true);
      client.gauge := true;
      if !firstConn {
        client.reconnects := client.reconnects + 1;
      }
      assert Fns() == old(Fns());
    }

    method FinishStart()
      requires firstConn
      modifies `firstConn, `ready, client.publishers
      ensures SeenNow() == old(SeenNow()).(firstConn := false, ready := old(ready) + 1,
                                           fns := seq(|client.publishers|, _ => Some(manager)))
    {
      firstConn := false;
      WirePublishers();
      ready := ready + 1;
    }

    method OnConnectionUp()
      requires limiter.Valid()
      modifies this, client`connected, client`gauge, client`reconnects, limiter, router`aliases, client.publishers
      ensures limiter.Valid() && router.aliases == map[]
      ensures SeenNow() == AfterUp(Filters(ConfigsOf(client.subscribers)), manager, old(SeenNow()))
    {
      OpenSession();
      Announce();
      if firstConn {
        FinishStart();
      }
    }

    // What holds between callbacks.
    ghost predicate Consistent()
      reads this, limiter, client.publishers
    {
      && limiter.Valid() && ready == (if firstConn then 0 else 1)
      && (!firstConn ==> Fns() == seq(|client.publishers|, _ => Some(manager)))
      && var filters := Filters(ConfigsOf(client.subscribers));
         (!firstConn && filters != [] ==> filters in attempts)
    }

    // The connection manager: any callbacks, in any order, one at a time.
    method Serve()
      requires Consistent()
      modifies this, client`connected, client`gauge, client`reconnects, limiter, router`aliases, client.publishers
      ensures Consistent()
    {
      var steps: nat := *;
      while steps > 0
        invariant Consistent()
      {
        if * {
          OnConnectionUp();
        } else if * {
          var reconnect := OnConnectionDown();
        } else {
          OnConnectError();
        }
        steps := steps - 1;
      }
    }

    method OnConnectionDown() returns (reconnect: bool)
      modifies client`connected, client`gauge, router`aliases
      ensures reconnect && router.aliases == map[]
      ensures SeenNow() == AfterDown(old(SeenNow()))
    {
      router.ResetAliases();
      client.SetConnected(false);
      client.gauge := false;
      assert Fns() == old(Fns());
      return true;
    }

    method OnConnectError()
      requires limiter.Valid()
      modifies limiter
      ensures limiter.Valid()
      ensures SeenNow() == AfterError(limiter.max, old(SeenNow()))
    {
      limiter.Failed();
      assert Fns() == old(Fns());
    }
  }
}
