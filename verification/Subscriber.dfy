/**
 subscriber/subscriber.go: what one inbound message becomes for one subscriber,
 and what the subscriber asks the broker for.
*/
module Subscriber {
  import opened Wrappers
  import opened GoSlices
  import opened Topics
  import opened Recipients
  import opened UserProperties

  datatype TopicSubscription<!Msg> = TopicSubscription(
    mqttPattern: string,
    brokerTopic: string,
    qos: nat,
    topicFunc: Option<(string, Option<map<string, string>>, Option<Msg>) -> Result<string>>)

  datatype Config<!Msg> = Config(
    matches: Matcher,
    extract: (string, string) -> map<string, string>,
    deserialize: seq<bv8> -> Option<Msg>,
    subscriptions: seq<TopicSubscription<Msg>>,
    handleRetained: bool,
    sharedGroup: string)

  // paho.Publish: one object, handed to every recipient of a message.
  class Publish {
    var topic: string
    var payload: Option<seq<bv8>>
    var retain: bool
    var properties: Option<Slice<UserProperty>>

    constructor (topic: string, payload: Option<seq<bv8>>, retain: bool, properties: Option<Slice<UserProperty>>)
      ensures this.topic == topic && this.payload == payload && this.retain == retain && this.properties == properties
    {
      this.topic, this.payload, this.retain, this.properties := topic, payload, retain, properties;
    }

    ghost predicate Valid()
      reads this
    {
      properties.Some? ==> properties.value.Valid()
    }

    ghost function Cells(): set<object>
      reads this
    {
      if properties.Some? then {properties.value.arr} else {}
    }

    ghost function Value(): Message
      requires Valid()
      reads this, Cells()
    {
      Message(topic, payload, retain, if properties.Some? then properties.value.Contents() else [])
    }
  }

  datatype Message = Message(topic: string, payload: Option<seq<bv8>>, retain: bool, user: seq<UserProperty>)

  // ----- Broker filters, router patterns, dispatch -----

  function Patterns<Msg>(subs: seq<TopicSubscription<Msg>>): seq<string> {
    seq(|subs|, i requires 0 <= i < |subs| => subs[i].mqttPattern)
  }

  function BrokerFilters<Msg>(cfg: Config<Msg>): seq<SubscribeOptions> {
    seq(|cfg.subscriptions|, i requires 0 <= i < |cfg.subscriptions| =>
      SubscribeOptions(Subscription(cfg.sharedGroup, cfg.subscriptions[i].brokerTopic), cfg.subscriptions[i].qos))
  }

  // The subscription a topic falls under: the first that matches, in order of
  // declaration.
  function FindSubscription<Msg>(cfg: Config<Msg>, topic: string, from: nat := 0): (r: Option<nat>)
    requires from <= |cfg.subscriptions|
    ensures r.Some? ==> from <= r.value < |cfg.subscriptions|
    ensures r.Some? ==> cfg.matches(cfg.subscriptions[r.value].mqttPattern, topic)
    ensures r.Some? ==> forall j | from <= j < r.value :: !cfg.matches(cfg.subscriptions[j].mqttPattern, topic)
    ensures r.None? ==>
      forall j | from <= j < |cfg.subscriptions| :: !cfg.matches(cfg.subscriptions[j].mqttPattern, topic)
    decreases |cfg.subscriptions| - from
  {
    if from == |cfg.subscriptions| then None
    else if cfg.matches(cfg.subscriptions[from].mqttPattern, topic) then Some(from)
    else FindSubscription(cfg, topic, from + 1)
  }

  // Routing and dispatch agree: a subscription is found exactly for the topics
  // the router sends here, under any matching rule and any overlap of patterns.
  lemma RoutedIffFound<Msg>(cfg: Config<Msg>, topic: string)
    ensures AnyMatches(cfg.matches, Patterns(cfg.subscriptions), topic) <==> FindSubscription(cfg, topic).Some?
  {
    var r := FindSubscription(cfg, topic);
    if r.Some? {
      assert cfg.matches(Patterns(cfg.subscriptions)[r.value], topic);
    }
  }

  // BrokerTopic as WithSubscription computes it.
  predicate Computed<Msg>(cfg: Config<Msg>) {
    forall i | 0 <= i < |cfg.subscriptions| ::
      cfg.subscriptions[i].brokerTopic == Stripped(cfg.subscriptions[i].mqttPattern)
  }

  // Each subscription on its own is one the broker reads as its pattern.
  predicate SharesCleanly<Msg>(cfg: Config<Msg>) {
    forall i | 0 <= i < |cfg.subscriptions| :: KeepsItsTopics(cfg.sharedGroup, cfg.subscriptions[i].mqttPattern)
  }

  predicate BrokerCovers(filters: seq<SubscribeOptions>, topic: string) {
    exists i | 0 <= i < |filters| :: Covers(filters[i].topic, topic)
  }

  // The topics the broker sends for this subscriber's filters are exactly those
  // its patterns match by name, and so, where the router's matcher is that rule,
  // exactly those routed to it and dispatched.
  lemma BrokerRouterAndDispatchAgree<Msg>(cfg: Config<Msg>, topic: string)
    requires Computed(cfg) && SharesCleanly(cfg)
    ensures BrokerCovers(BrokerFilters(cfg), topic) <==> AnyMatches(NamedMatches, Patterns(cfg.subscriptions), topic)
    ensures cfg.matches == NamedMatches ==>
      (BrokerCovers(BrokerFilters(cfg), topic) <==> FindSubscription(cfg, topic).Some?)
  {
    var filters, patterns := BrokerFilters(cfg), Patterns(cfg.subscriptions);
    forall i | 0 <= i < |filters|
      ensures Covers(filters[i].topic, topic) <==> NamedMatches(patterns[i], topic)
    {
      BrokerAgreesExactlyWhen(cfg.sharedGroup, patterns[i]);
    }
    RoutedIffFound(cfg, topic);
  }

  // ----- The fields a recipient gets -----

  function FieldsOf(user: seq<UserProperty>): Option<map<string, string>> {
    var m := Decode(user);
    if m == map[] then None else Some(m)
  }

  function OrEmpty(m: Option<map<string, string>>): map<string, string> {
    if m.Some? then m.value else map[]
  }

  function DeliveredFields(user: seq<UserProperty>, extracted: map<string, string>, retain: bool):
    Option<map<string, string>>
  {
    var base := FieldsOf(user);
    var laid := if extracted != map[] then Some(OrEmpty(base) + extracted) else base;
    if retain then Some(OrEmpty(laid)["$retained" := "true"]) else laid
  }

  // Key by key: the retained mark, over what the pattern extracts, over the last
  // user property that is not a trace header; and no map at all for no keys.
  lemma FieldPrecedence(user: seq<UserProperty>, extracted: map<string, string>, retain: bool, key: string)
    ensures var fields := DeliveredFields(user, extracted, retain);
      var value := if fields.Some? && key in fields.value then Some(fields.value[key]) else None;
      && value == (if retain && key == "$retained" then Some("true")
                   else if key in extracted then Some(extracted[key])
                   else if key in TRACE_KEYS then None
                   else Latest(user, key))
      && (fields.Some? ==> fields.value != map[])
  {
    DecodeIsLastWins(user, key);
    if extracted != map[] {
      var k :| k in extracted;
      assert k in OrEmpty(FieldsOf(user)) + extracted;
    }
    if retain {
      var fields := DeliveredFields(user, extracted, retain).value;
      assert "$retained" in fields;
    }
  }

  // ----- What becomes of a message -----

  datatype Event<Msg> = Event(topic: string, msg: Option<Msg>, fields: Option<map<string, string>>)

  datatype Verdict<Msg> =
    | DroppedRetained
    | NoSubscription
    | DecodeFailed
    | TopicFailed
    | Deliver(event: Event<Msg>)

  function Judge<Msg>(cfg: Config<Msg>, m: Message): Verdict<Msg> {
    if m.retain && !cfg.handleRetained then DroppedRetained
    else
      var found := FindSubscription(cfg, m.topic);
      if found.None? then NoSubscription
      else
        var sub := cfg.subscriptions[found.value];
        var msg := if m.payload.None? then None else cfg.deserialize(m.payload.value);
        if m.payload.Some? && msg.None? then DecodeFailed
        else
          var fields := DeliveredFields(m.user, cfg.extract(sub.mqttPattern, m.topic), m.retain);
          var named := if sub.topicFunc.None? then Ok("") else sub.topicFunc.value(m.topic, fields, msg);
          if named.Err? then TopicFailed
          else Deliver(Event(if named.value == "" then m.topic else named.value, msg, fields))
  }

  // ----- What a verdict means, from the message alone -----

  // The subscription a message is handled under: it matches and none declared
  // before it does.
  predicate FirstMatching<Msg>(cfg: Config<Msg>, topic: string, i: nat) {
    && i < |cfg.subscriptions| && cfg.matches(cfg.subscriptions[i].mqttPattern, topic)
    && forall j | 0 <= j < i :: !cfg.matches(cfg.subscriptions[j].mqttPattern, topic)
  }

  predicate Unmatchable<Msg>(cfg: Config<Msg>, topic: string) {
    forall i | 0 <= i < |cfg.subscriptions| :: !cfg.matches(cfg.subscriptions[i].mqttPattern, topic)
  }

  predicate Refused<Msg>(cfg: Config<Msg>, m: Message) {
    m.retain && !cfg.handleRetained
  }

  predicate Garbled<Msg>(cfg: Config<Msg>, m: Message) {
    m.payload.Some? && cfg.deserialize(m.payload.value).None?
  }

  // What the subscriber makes of the payload, if there is one.
  function Decoded<Msg>(cfg: Config<Msg>, m: Message): Option<Msg> {
    if m.payload.Some? then cfg.deserialize(m.payload.value) else None
  }

  // The value of one key: the retained mark, over what the pattern extracts, over
  // the last user property that is not a trace header.
  function FieldValue(user: seq<UserProperty>, extracted: map<string, string>, retain: bool, key: string):
    Option<string>
  {
    if retain && key == "$retained" then Some("true")
    else if key in extracted then Some(extracted[key])
    else if key in TRACE_KEYS then None
    else Latest(user, key)
  }

  // The map with exactly those values, and no map at all when there are none.
  ghost predicate FieldsAre(fields: Option<map<string, string>>, user: seq<UserProperty>,
                            extracted: map<string, string>, retain: bool) {
    && (forall key: string ::
          (if fields.Some? && key in fields.value then Some(fields.value[key]) else None)
            == FieldValue(user, extracted, retain, key))
    && (fields.Some? ==> fields.value != map[])
  }

  // The function of the subscription, if it has one, fails on these arguments.
  predicate NamingFails<Msg>(sub: TopicSubscription<Msg>, topic: string, fields: Option<map<string, string>>,
                             msg: Option<Msg>) {
    sub.topicFunc.Some? && sub.topicFunc.value(topic, fields, msg).Err?
  }

  // The topic it gives: its answer, unless it has none or answers "".
  predicate NamedAs<Msg>(sub: TopicSubscription<Msg>, topic: string, fields: Option<map<string, string>>,
                         msg: Option<Msg>, name: string) {
    if sub.topicFunc.None? || sub.topicFunc.value(topic, fields, msg) == Ok("") then name == topic
    else sub.topicFunc.value(topic, fields, msg) == Ok(name)
  }

  // What a message handled under subscription i comes to: the verdict, with the
  // fields its function sees.
  ghost predicate VerdictUnder<Msg>(cfg: Config<Msg>, i: nat, m: Message, v: Verdict<Msg>,
                                    fields: Option<map<string, string>>)
    requires i < |cfg.subscriptions|
  {
    var sub, msg := cfg.subscriptions[i], Decoded(cfg, m);
    && FieldsAre(fields, m.user, cfg.extract(sub.mqttPattern, m.topic), m.retain)
    && (v.DroppedRetained? <==> Refused(cfg, m))
    && !v.NoSubscription?
    && (v.DecodeFailed? <==> !Refused(cfg, m) && Garbled(cfg, m))
    && (v.TopicFailed? <==> !Refused(cfg, m) && !Garbled(cfg, m) && NamingFails(sub, m.topic, fields, msg))
    && (v.Deliver? <==> !Refused(cfg, m) && !Garbled(cfg, m) && !NamingFails(sub, m.topic, fields, msg))
    && (v.Deliver? ==>
          v.event.msg == msg && v.event.fields == fields && NamedAs(sub, m.topic, fields, msg, v.event.topic))
  }

  lemma FieldsAreDelivered(user: seq<UserProperty>, extracted: map<string, string>, retain: bool)
    ensures FieldsAre(DeliveredFields(user, extracted, retain), user, extracted, retain)
  {
    FieldPrecedence(user, extracted, retain, "");
    forall key: string
      ensures (var fields := DeliveredFields(user, extracted, retain);
               if fields.Some? && key in fields.value then Some(fields.value[key]) else None)
        == FieldValue(user, extracted, retain, key)
    {
      FieldPrecedence(user, extracted, retain, key);
    }
  }

  lemma SomeFieldsExactlyWhen(fields: Option<map<string, string>>, user: seq<UserProperty>,
                              extracted: map<string, string>, retain: bool)
    requires FieldsAre(fields, user, extracted, retain)
    ensures fields.Some? <==> exists key: string :: FieldValue(user, extracted, retain, key).Some?
  {
    if fields.Some? {
      var key :| key in fields.value;
      assert FieldValue(user, extracted, retain, key).Some?;
    }
  }

  // Nothing but the precedence determines the fields.
  lemma FieldsAreUnique(a: Option<map<string, string>>, b: Option<map<string, string>>, user: seq<UserProperty>,
                        extracted: map<string, string>, retain: bool)
    requires FieldsAre(a, user, extracted, retain) && FieldsAre(b, user, extracted, retain)
    ensures a == b
  {
    SomeFieldsExactlyWhen(a, user, extracted, retain);
    SomeFieldsExactlyWhen(b, user, extracted, retain);
    if a.Some? {
      forall key: string
        ensures key in a.value <==> key in b.value
        ensures key in a.value ==> a.value[key] == b.value[key]
      {
        assert (if key in a.value then Some(a.value[key]) else None) == FieldValue(user, extracted, retain, key);
        assert (if key in b.value then Some(b.value[key]) else None) == FieldValue(user, extracted, retain, key);
      }
      assert a.value == b.value;
    }
  }

  lemma VerdictOfFirstMatch<Msg>(cfg: Config<Msg>, m: Message, i: nat)
    returns (fields: Option<map<string, string>>)
    requires FirstMatching(cfg, m.topic, i)
    ensures VerdictUnder(cfg, i, m, Judge(cfg, m), fields)
  {
    var sub := cfg.subscriptions[i];
    assert FindSubscription(cfg, m.topic) == Some(i);
    fields := DeliveredFields(m.user, cfg.extract(sub.mqttPattern, m.topic), m.retain);
    FieldsAreDelivered(m.user, cfg.extract(sub.mqttPattern, m.topic), m.retain);
  }

  lemma VerdictWithoutMatch<Msg>(cfg: Config<Msg>, m: Message)
    requires Unmatchable(cfg, m.topic)
    ensures Judge(cfg, m) == if Refused(cfg, m) then DroppedRetained else NoSubscription
  {
  }

  // The metrics, and how often HandleMessage was called and dropped a message.
  datatype Tally = Tally(calls: nat, received: nat, errors: nat, drops: nat, durations: nat)

  function Count<Msg>(t: Tally, v: Verdict<Msg>, accepted: bool): Tally {
    var t := t.(calls := t.calls + 1);
    match v
    case DroppedRetained => t.(drops := t.drops + 1)
    case Deliver(_) =>
      if accepted then t.(durations := t.durations + 1, received := t.received + 1)
      else t.(durations := t.durations + 1, errors := t.errors + 1)
    case _ => t.(errors := t.errors + 1)
  }

  function CountAll<Msg>(cfg: Config<Msg>, calls: seq<(Message, bool)>): Tally {
    if calls == [] then Tally(0, 0, 0, 0, 0)
    else
      var n := |calls| - 1;
      Count(CountAll(cfg, calls[..n]), Judge(cfg, calls[n].0), calls[n].1)
  }

  function EventsOf<Msg>(cfg: Config<Msg>, calls: seq<(Message, bool)>): seq<Event<Msg>> {
    if calls == [] then []
    else
      var n := |calls| - 1;
      var v := Judge(cfg, calls[n].0);
      EventsOf(cfg, calls[..n]) + if v.Deliver? then [v.event] else []
  }

  // Over any calls every message is accounted for once, and a duration is
  // recorded for exactly the messages that reach the bus.
  lemma {:induction false} Conservation<Msg>(cfg: Config<Msg>, calls: seq<(Message, bool)>)
    ensures var t := CountAll(cfg, calls);
      && t.calls == |calls| && t.received + t.errors + t.drops == t.calls
      && t.durations == |EventsOf(cfg, calls)| && t.received <= t.durations
      && (cfg.handleRetained ==> t.drops == 0)
  {
    if calls != [] {
      Conservation(cfg, calls[..|calls| - 1]);
    }
  }

  // ----- The methods -----

  datatype HandleError = Unmatched | Undecodable | Unnamed | Rejected

  // What HandleMessage returns; only for an event does the bus have a say.
  function ErrorOf<Msg>(v: Verdict<Msg>, accepted: bool): Option<HandleError> {
    match v
    case DroppedRetained => None
    case NoSubscription => Some(Unmatched)
    case DecodeFailed => Some(Undecodable)
    case TopicFailed => Some(Unnamed)
    case Deliver(_) => if accepted then None else Some(Rejected)
  }

  // What a call under subscription i does: nothing for a refused retained message,
  // an error for one that does not decode or cannot be named, and one event
  // otherwise, whatever the bus says to it.
  ghost predicate HandledWith<Msg>(cfg: Config<Msg>, i: nat, m: Message, before: seq<Event<Msg>>,
                                   after: seq<Event<Msg>>, err: Option<HandleError>,
                                   fields: Option<map<string, string>>)
    requires i < |cfg.subscriptions|
  {
    var sub, msg := cfg.subscriptions[i], Decoded(cfg, m);
    && FieldsAre(fields, m.user, cfg.extract(sub.mqttPattern, m.topic), m.retain)
    && if Refused(cfg, m) then after == before && err == None
       else if Garbled(cfg, m) then after == before && err == Some(Undecodable)
       else if NamingFails(sub, m.topic, fields, msg) then after == before && err == Some(Unnamed)
       else
         && |after| == |before| + 1 && after[..|before|] == before
         && after[|before|].msg == msg && after[|before|].fields == fields
         && NamedAs(sub, m.topic, fields, msg, after[|before|].topic)
         && (err == None || err == Some(Rejected))
  }

  ghost predicate HandledUnder<Msg>(cfg: Config<Msg>, i: nat, m: Message, before: seq<Event<Msg>>,
                                    after: seq<Event<Msg>>, err: Option<HandleError>)
    requires i < |cfg.subscriptions|
  {
    exists fields :: HandledWith(cfg, i, m, before, after, err, fields)
  }

  // Every call is counted once, as an error, a drop or a receipt, and every event
  // has its duration.
  predicate Tallied(t: Tally, t': Tally, made: bool, failed: bool) {
    && t'.calls == t.calls + 1
    && t'.errors == t.errors + (if failed then 1 else 0)
    && t'.received == t.received + (if made && !failed then 1 else 0)
    && t'.drops == t.drops + (if !made && !failed then 1 else 0)
    && t'.durations == t.durations + (if made then 1 else 0)
  }

  // A verdict acted on: the event, the error, and the tally.
  ghost predicate ActedOn<Msg>(v: Verdict<Msg>, before: seq<Event<Msg>>, after: seq<Event<Msg>>, t: Tally, t': Tally,
                         err: Option<HandleError>) {
    && after == before + (if v.Deliver? then [v.event] else [])
    && t' == Count(t, v, err == None) && err == ErrorOf(v, err == None)
  }

  lemma ActedOnIsTallied<Msg>(v: Verdict<Msg>, before: seq<Event<Msg>>, after: seq<Event<Msg>>, t: Tally, t': Tally,
                              err: Option<HandleError>)
    requires ActedOn(v, before, after, t, t', err)
    ensures Tallied(t, t', |after| > |before|, err.Some?)
  {
  }

  lemma ActedOnUnder<Msg>(cfg: Config<Msg>, i: nat, m: Message, before: seq<Event<Msg>>, after: seq<Event<Msg>>,
                          t: Tally, t': Tally, err: Option<HandleError>)
    requires FirstMatching(cfg, m.topic, i) && ActedOn(Judge(cfg, m), before, after, t, t', err)
    ensures HandledUnder(cfg, i, m, before, after, err)
  {
    var fields := VerdictOfFirstMatch(cfg, m, i);
    assert HandledWith(cfg, i, m, before, after, err, fields);
  }

  // The whole of a call, in terms of the message alone.
  lemma HandlingMeans<Msg>(cfg: Config<Msg>, m: Message, before: seq<Event<Msg>>, after: seq<Event<Msg>>,
                           t: Tally, t': Tally, err: Option<HandleError>)
    requires ActedOn(Judge(cfg, m), before, after, t, t', err)
    ensures forall i: nat | FirstMatching(cfg, m.topic, i) :: HandledUnder(cfg, i, m, before, after, err)
    ensures Unmatchable(cfg, m.topic) ==>
      after == before && err == if Refused(cfg, m) then None else Some(Unmatched)
    ensures Tallied(t, t', |after| > |before|, err.Some?)
  {
    forall i: nat | FirstMatching(cfg, m.topic, i)
      ensures HandledUnder(cfg, i, m, before, after, err)
    {
      ActedOnUnder(cfg, i, m, before, after, t, t', err);
    }
    if Unmatchable(cfg, m.topic) {
      VerdictWithoutMatch(cfg, m);
    }
    ActedOnIsTallied(Judge(cfg, m), before, after, t, t', err);
  }

  class MQTTSubscriber<Msg> {
    const cfg: Config<Msg>
    // The OnEvent calls made of the bus, with the fields as they were then.
    var events: seq<Event<Msg>>
    // What the bus answered to each of them.
    var answers: seq<bool>
    var tally: Tally

    constructor (cfg: Config<Msg>)
      ensures this.cfg == cfg && events == [] && answers == [] && tally == Tally(0, 0, 0, 0, 0)
    {
      this.cfg, events, answers, tally := cfg, [], [], Tally(0, 0, 0, 0, 0);
    }

    method BrokerSubscriptions() returns (opts: seq<SubscribeOptions>)
      ensures opts == BrokerFilters(cfg)
    {
      var cells := new SubscribeOptions[|cfg.subscriptions|];
      for i := 0 to |cfg.subscriptions|
        invariant cells[..i] == BrokerFilters(cfg)[..i]
      {
        var topic := cfg.subscriptions[i].brokerTopic;
        if cfg.sharedGroup != "" {
          topic := "$share/" + cfg.sharedGroup + "/" + topic;
        } else {
          assert "" + topic == topic;
        }
        cells[i] := SubscribeOptions(topic, cfg.subscriptions[i].qos);
        assert cells[..i + 1] == cells[..i] + [cells[i]];
      }
      assert cells[..] == cells[..|cfg.subscriptions|];
      opts := cells[..];
    }

    method MQTTPatterns() returns (patterns: seq<string>)
      ensures patterns == Patterns(cfg.subscriptions)
    {
      var cells := new string[|cfg.subscriptions|];
      for i := 0 to |cfg.subscriptions|
        invariant cells[..i] == Patterns(cfg.subscriptions)[..i]
      {
        cells[i] := cfg.subscriptions[i].mqttPattern;
        assert cells[..i + 1] == cells[..i] + [cells[i]];
      }
      assert cells[..] == cells[..|cfg.subscriptions|];
      patterns := cells[..];
    }

    method Find(topic: string) returns (r: Option<nat>)
      ensures r == FindSubscription(cfg, topic)
    {
      for i := 0 to |cfg.subscriptions|
        invariant FindSubscription(cfg, topic) == FindSubscription(cfg, topic, i)
      {
        if cfg.matches(cfg.subscriptions[i].mqttPattern, topic) {
          return Some(i);
        }
      }
      return None;
    }

    // A map of its own for every call, or nil when there is nothing to put in it.
    static method UserPropertiesToFields(pub: Publish) returns (fields: FieldsMap?)
      requires pub.Valid()
      ensures fields == null || fresh(fields)
      ensures FieldsOf(pub.Value().user) == if fields == null then None else Some(fields.m)
    {
      if pub.properties.None? || pub.properties.value.len == 0 {
        return null;
      }
      var user := pub.properties.value;
      ghost var list := user.Contents();
      var m := new FieldsMap();
      for i := 0 to user.len
        invariant m.m == Decode(list[..i])
      {
        var p := user.arr[i];
        assert p == list[i] && list[..i + 1][..i] == list[..i];
        if p.key !in TRACE_KEYS {
          m.m := m.m[p.key := p.value];
        }
      }
      assert list[..user.len] == list;
      return if m.m == map[] then null else m;
    }

    static method Overlay(extracted: map<string, string>, over: FieldsMap?) returns (fields: FieldsMap?)
      modifies over
      ensures extracted == map[] ==> fields == over && (over != null ==> over.m == old(over.m))
      ensures extracted != map[] ==> fields != null && fields.m == old(ValueOf(over)) + extracted
      ensures fields == over || fresh(fields)
    {
      fields := over;
      if extracted == map[] {
        return;
      }
      if fields == null {
        fields := new FieldsMap();
      }
      var left := extracted.Keys;
      while left != {}
        invariant left <= extracted.Keys
        invariant fields != null && (fields == over || fresh(fields))
        invariant fields.m == old(ValueOf(over)) + (extracted - left)
        decreases left
      {
        var k :| k in left;
        fields.m := fields.m[k := extracted[k]];
        left := left - {k};
      }
    }

    // The map one recipient gets: fresh, or nil.
    method BuildFields(pub: Publish, pattern: string) returns (fields: FieldsMap?)
      requires pub.Valid()
      ensures fields == null || fresh(fields)
      ensures (if fields == null then None else Some(fields.m))
        == DeliveredFields(pub.Value().user, cfg.extract(pattern, pub.topic), pub.retain)
    {
      fields := UserPropertiesToFields(pub);
      fields := Overlay(cfg.extract(pattern, pub.topic), fields);
      if pub.retain {
        if fields == null {
          fields := new FieldsMap();
        }
        fields.m := fields.m["$retained" := "true"];
      }
    }

    // The bus: it may refuse the event, and may do anything to the map it is given.
    method OnEvent(topic: string, msg: Option<Msg>, fields: FieldsMap?) returns (accepted: bool)
      modifies `events, `answers, fields
      ensures answers == old(answers) + [accepted]
      ensures events == old(events) + [Event(topic, msg, if fields == null then None else Some(old(fields.m)))]
    {
      events := events + [Event(topic, msg, if fields == null then None else Some(fields.m))];
      if fields != null {
        fields.m := *;
      }
      accepted := *;
      answers := answers + [accepted];
    }

    // HandleMessage up to its call of the bus: the verdict, and the map to hand over.
    method Prepare(pub: Publish) returns (v: Verdict<Msg>, fields: FieldsMap?)
      requires pub.Valid()
      ensures v == Judge(cfg, pub.Value())
      ensures fields == null || fresh(fields)
      ensures v.Deliver? ==> v.event.fields == if fields == null then None else Some(fields.m)
    {
      fields := null;
      if pub.retain && !cfg.handleRetained {
        return DroppedRetained, null;
      }
      var found := Find(pub.topic);
      if found.None? {
        return NoSubscription, null;
      }
      var sub := cfg.subscriptions[found.value];
      var msg: Option<Msg> := None;
      if pub.payload.Some? {
        msg := cfg.deserialize(pub.payload.value);
        if msg.None? {
          return DecodeFailed, null;
        }
      }
      fields := BuildFields(pub, sub.mqttPattern);
      var given := if fields == null then None else Some(fields.m);
      var vinculumTopic := pub.topic;
      if sub.topicFunc.Some? {
        var named := sub.topicFunc.value(pub.topic, given, msg);
        if named.Err? {
          return TopicFailed, null;
        }
        if named.value != "" {
          vinculumTopic := named.value;
        }
      }
      return Deliver(Event(vinculumTopic, msg, given)), fields;
    }

    // HandleMessage from the verdict on.
    method Conclude(v: Verdict<Msg>, fields: FieldsMap?) returns (err: Option<HandleError>)
      requires tally.calls > 0
      requires v.Deliver? ==> v.event.fields == if fields == null then None else Some(fields.m)
      modifies this, fields
      ensures ActedOn(v, old(events), events, old(tally).(calls := old(tally).calls - 1), tally, err)
      ensures answers == old(answers) + if v.Deliver? then [err == None] else []
    {
      match v {
        case DroppedRetained =>
          tally := tally.(drops := tally.drops + 1);
          return None;
        case NoSubscription =>
          tally := tally.(errors := tally.errors + 1);
          return Some(Unmatched);
        case DecodeFailed =>
          tally := tally.(errors := tally.errors + 1);
          return Some(Undecodable);
        case TopicFailed =>
          tally := tally.(errors := tally.errors + 1);
          return Some(Unnamed);
        case Deliver(event) =>
          var accepted := OnEvent(event.topic, event.msg, fields);
          tally := tally.(durations := tally.durations + 1);
          if !accepted {
            tally := tally.(errors := tally.errors + 1);
            return Some(Rejected);
          }
          tally := tally.(received := tally.received + 1);
          return None;
      }
    }

    // Only this subscriber's own state may change: the message, which other
    // recipients share, is not written, and neither is any map they were given.
    // Under the first subscription that matches, an event is made exactly when the
    // message is not a refused retained one, decodes and can be named, and the error
    // says which of these failed or that the bus refused the event.
    method HandleMessage(pub: Publish) returns (err: Option<HandleError>)
      requires pub.Valid()
      modifies this
      ensures ActedOn(Judge(cfg, old(pub.Value())), old(events), events, old(tally), tally, err)
      ensures forall i: nat | FirstMatching(cfg, old(pub.topic), i) ::
        HandledUnder(cfg, i, old(pub.Value()), old(events), events, err)
      ensures Unmatchable(cfg, old(pub.topic)) ==>
        events == old(events) && err == if Refused(cfg, old(pub.Value())) then None else Some(Unmatched)
      ensures Tallied(old(tally), tally, |events| > |old(events)|, err.Some?)
      ensures answers == old(answers) + if |events| > |old(events)| then [err == None] else []
    {
      var v, fields := Prepare(pub);
      tally := tally.(calls := tally.calls + 1);
      err := Conclude(v, fields);
      HandlingMeans(cfg, old(pub.Value()), old(events), events, old(tally), tally, err);
    }
  }

  // WithSubscription: BrokerTopic is computed unless it is given.
  method WithSubscription<Msg>(subs: seq<TopicSubscription<Msg>>, sub: TopicSubscription<Msg>)
    returns (more: seq<TopicSubscription<Msg>>)
    ensures more == subs +
      [sub.(brokerTopic := if sub.brokerTopic == "" then Stripped(sub.mqttPattern) else sub.brokerTopic)]
  {
    if sub.brokerTopic == "" {
      var filter := StripFieldNames(sub.mqttPattern);
      return subs + [sub.(brokerTopic := filter)];
    }
    return subs + [sub];
  }
}
