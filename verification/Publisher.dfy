/**
 publisher/publisher.go: which mapping an event falls under, what is published
 for it, and when nothing is.
*/
module Publisher {
  import opened Wrappers
  import opened GoSlices
  import opened UserProperties
  import opened Carrier

  datatype DefaultTopicTransform = Verbatim | Error | Ignore

  // topicFunc stands for MQTTTopicFunc, None for a nil one. It may fail and may
  // answer "".
  datatype TopicMapping<!Msg> = TopicMapping(
    pattern: string,
    topicFunc: Option<(string, Msg, map<string, string>) -> Result<string>>,
    qos: bv8,
    retain: bool)

  // topicmatch.Matches, topicmatch.Extract and the wire format are not part of
  // this model: any functions will do.
  datatype Config<!Msg> = Config(
    matches: (string, string) -> bool,
    extract: (string, string) -> map<string, string>,
    serialize: Msg -> Option<seq<bv8>>,
    mappings: seq<TopicMapping<Msg>>,
    defaultXform: DefaultTopicTransform,
    defaultQoS: bv8,
    defaultRetain: bool)

  datatype Resolution = Resolution(topic: string, qos: bv8, retain: bool)

  datatype Outbound = Outbound(topic: string, qos: bv8, retain: bool, payload: seq<bv8>, user: seq<UserProperty>)

  datatype EventError = NotYetConnected | NoTopic | SerializeFailed | PublishFailed

  // ----- Which mapping -----

  // The lowest mapping that matches, or the number of mappings.
  function FirstMatch<Msg>(cfg: Config<Msg>, topic: string, from: nat := 0): (k: nat)
    requires from <= |cfg.mappings|
    ensures from <= k <= |cfg.mappings|
    ensures forall j | from <= j < k :: !cfg.matches(cfg.mappings[j].pattern, topic)
    ensures k < |cfg.mappings| ==> cfg.matches(cfg.mappings[k].pattern, topic)
    decreases |cfg.mappings| - from
  {
    if from == |cfg.mappings| || cfg.matches(cfg.mappings[from].pattern, topic) then from
    else FirstMatch(cfg, topic, from + 1)
  }

  // What the matching mapping makes of the event: its function sees the fields
  // with the extracted ones laid over them, and "" means the event's own topic.
  function Via<Msg>(cfg: Config<Msg>, m: TopicMapping<Msg>, topic: string, msg: Msg, fields: map<string, string>):
    Result<Resolution>
  {
    if m.topicFunc.None? then Ok(Resolution(topic, m.qos, m.retain))
    else
      match m.topicFunc.value(topic, msg, fields + cfg.extract(m.pattern, topic))
      case Err => Err
      case Ok(t) => Ok(Resolution(if t == "" then topic else t, m.qos, m.retain))
  }

  function Unmatched<Msg>(cfg: Config<Msg>, topic: string): Result<Resolution> {
    match cfg.defaultXform
    case Ignore => Ok(Resolution("", 0, false))
    case Error => Err
    case Verbatim => Ok(Resolution(topic, cfg.defaultQoS, cfg.defaultRetain))
  }

  function Resolve<Msg>(cfg: Config<Msg>, topic: string, msg: Msg, fields: map<string, string>): Result<Resolution> {
    var k := FirstMatch(cfg, topic);
    if k < |cfg.mappings| then Via(cfg, cfg.mappings[k], topic, msg, fields) else Unmatched(cfg, topic)
  }

  // The lowest-index match decides, whatever mappings stand after it.
  lemma LaterMappingsDoNotMatter<Msg>(cfg: Config<Msg>, cfg': Config<Msg>, k: nat,
                                      topic: string, msg: Msg, fields: map<string, string>)
    requires k < |cfg.mappings| && k < |cfg'.mappings| && cfg.mappings[..k + 1] == cfg'.mappings[..k + 1]
    requires cfg.matches == cfg'.matches && cfg.extract == cfg'.extract
    requires cfg.matches(cfg.mappings[k].pattern, topic)
    ensures Resolve(cfg, topic, msg, fields) == Resolve(cfg', topic, msg, fields)
  {
    assert forall j | 0 <= j <= k :: cfg.mappings[j] == cfg.mappings[..k + 1][j] == cfg'.mappings[j];
  }

  // For a topic that is not empty, the topic is resolved to nothing exactly when
  // no mapping matches and the default is to ignore.
  lemma ResolvedToNothing<Msg>(cfg: Config<Msg>, topic: string, msg: Msg, fields: map<string, string>)
    requires topic != ""
    ensures var r := Resolve(cfg, topic, msg, fields);
      r.Ok? && r.value.topic == "" <==>
        cfg.defaultXform.Ignore? && forall k | 0 <= k < |cfg.mappings| :: !cfg.matches(cfg.mappings[k].pattern, topic)
  {
    assert FirstMatch(cfg, topic) < |cfg.mappings| ==>
      cfg.matches(cfg.mappings[FirstMatch(cfg, topic)].pattern, topic);
  }

  // The empty topic is resolved to nothing more often: under every default but
  // the error one, and by every matching mapping that does not name another.
  lemma EmptyTopicResolvedToNothing<Msg>(cfg: Config<Msg>, msg: Msg, fields: map<string, string>)
    ensures var r := Resolve(cfg, "", msg, fields);
      var k := FirstMatch(cfg, "");
      r.Ok? && r.value.topic == "" <==>
        if k == |cfg.mappings| then !cfg.defaultXform.Error?
        else
          || cfg.mappings[k].topicFunc.None?
          || cfg.mappings[k].topicFunc.value("", msg, fields + cfg.extract(cfg.mappings[k].pattern, "")) == Ok("")
  {
  }

  // ----- What is resolved, from the mappings alone -----

  // The mapping that decides: it matches and none before it does.
  predicate FirstMatching<Msg>(cfg: Config<Msg>, topic: string, k: nat) {
    && k < |cfg.mappings| && cfg.matches(cfg.mappings[k].pattern, topic)
    && forall j | 0 <= j < k :: !cfg.matches(cfg.mappings[j].pattern, topic)
  }

  predicate Unmatchable<Msg>(cfg: Config<Msg>, topic: string) {
    forall k | 0 <= k < |cfg.mappings| :: !cfg.matches(cfg.mappings[k].pattern, topic)
  }

  // What the function of mapping k is given for fields: the extracted ones laid
  // over the event's, key by key.
  ghost predicate SeenBy<Msg>(cfg: Config<Msg>, k: nat, topic: string, fields: map<string, string>,
                              seen: map<string, string>)
    requires k < |cfg.mappings|
  {
    var extracted := cfg.extract(cfg.mappings[k].pattern, topic);
    && (forall key :: key in seen <==> key in fields || key in extracted)
    && forall key | key in seen :: seen[key] == if key in extracted then extracted[key] else fields[key]
  }

  predicate NamingFails<Msg>(m: TopicMapping<Msg>, topic: string, msg: Msg, seen: map<string, string>) {
    m.topicFunc.Some? && m.topicFunc.value(topic, msg, seen).Err?
  }

  // The topic a mapping gives: its function's answer, or the event's own topic
  // when it has none or answers "".
  predicate NamedAs<Msg>(m: TopicMapping<Msg>, topic: string, msg: Msg, seen: map<string, string>, name: string) {
    if m.topicFunc.None? || m.topicFunc.value(topic, msg, seen) == Ok("") then name == topic
    else m.topicFunc.value(topic, msg, seen) == Ok(name)
  }

  ghost predicate ResolvedWith<Msg>(cfg: Config<Msg>, k: nat, topic: string, msg: Msg, fields: map<string, string>,
                                    r: Result<Resolution>, seen: map<string, string>)
    requires k < |cfg.mappings|
  {
    var m := cfg.mappings[k];
    && SeenBy(cfg, k, topic, fields, seen)
    && (r.Err? <==> NamingFails(m, topic, msg, seen))
    && (r.Ok? ==> NamedAs(m, topic, msg, seen, r.value.topic) && r.value.qos == m.qos && r.value.retain == m.retain)
  }

  // Mapping k decides: its function, over what it is given, the topic or the
  // failure; the mapping itself QoS and retain flag.
  ghost predicate ResolvedUnder<Msg>(cfg: Config<Msg>, k: nat, topic: string, msg: Msg, fields: map<string, string>,
                                     r: Result<Resolution>)
    requires k < |cfg.mappings|
  {
    exists seen :: ResolvedWith(cfg, k, topic, msg, fields, r, seen)
  }

  // No mapping decides: the default does.
  predicate ResolvedByDefault<Msg>(cfg: Config<Msg>, topic: string, r: Result<Resolution>) {
    && (r.Err? <==> cfg.defaultXform.Error?)
    && (cfg.defaultXform.Ignore? ==> r.Ok? && r.value.topic == "")
    && (cfg.defaultXform.Verbatim? ==>
          && r.Ok? && r.value.topic == topic
          && r.value.qos == cfg.defaultQoS && r.value.retain == cfg.defaultRetain)
  }

  lemma ResolvedByFirstMatch<Msg>(cfg: Config<Msg>, k: nat, topic: string, msg: Msg, fields: map<string, string>)
    requires FirstMatching(cfg, topic, k)
    ensures ResolvedUnder(cfg, k, topic, msg, fields, Resolve(cfg, topic, msg, fields))
  {
    assert FirstMatch(cfg, topic) == k;
    assert ResolvedWith(cfg, k, topic, msg, fields, Resolve(cfg, topic, msg, fields),
                        fields + cfg.extract(cfg.mappings[k].pattern, topic));
  }

  lemma ResolutionMeans<Msg>(cfg: Config<Msg>, topic: string, msg: Msg, fields: map<string, string>)
    ensures forall k: nat | FirstMatching(cfg, topic, k) ::
      ResolvedUnder(cfg, k, topic, msg, fields, Resolve(cfg, topic, msg, fields))
    ensures Unmatchable(cfg, topic) ==> ResolvedByDefault(cfg, topic, Resolve(cfg, topic, msg, fields))
  {
    forall k: nat | FirstMatching(cfg, topic, k)
      ensures ResolvedUnder(cfg, k, topic, msg, fields, Resolve(cfg, topic, msg, fields))
    {
      ResolvedByFirstMatch(cfg, k, topic, msg, fields);
    }
  }

  // ----- What one call of OnEvent does -----

  // One message more, as resolved and serialized, with the event's fields readable
  // from its properties.
  predicate OneMore(before: seq<Outbound>, after: seq<Outbound>, r: Resolution, payload: seq<bv8>,
                    fields: map<string, string>) {
    && |after| == |before| + 1 && after[..|before|] == before
    && after[|before|].topic == r.topic && after[|before|].qos == r.qos && after[|before|].retain == r.retain
    && after[|before|].payload == payload
    && UniqueKeys(after[|before|].user) && Decode(after[|before|].user) == WithoutTrace(fields)
  }

  // What comes of a resolution.
  predicate ActedOn<Msg>(cfg: Config<Msg>, msg: Msg, fields: map<string, string>, r: Result<Resolution>,
                         before: seq<Outbound>, after: seq<Outbound>, err: Option<EventError>) {
    if r.Err? then after == before && err == Some(NoTopic)
    else if r.value.topic == "" then after == before && err == None
    else if cfg.serialize(msg).None? then after == before && err == Some(SerializeFailed)
    else
      && OneMore(before, after, r.value, cfg.serialize(msg).value, fields)
      && (err == None || err == Some(PublishFailed))
  }

  ghost predicate PublishedUnder<Msg>(cfg: Config<Msg>, k: nat, topic: string, msg: Msg, fields: map<string, string>,
                                      before: seq<Outbound>, after: seq<Outbound>, err: Option<EventError>)
    requires k < |cfg.mappings|
  {
    exists r :: ResolvedUnder(cfg, k, topic, msg, fields, r) && ActedOn(cfg, msg, fields, r, before, after, err)
  }

  ghost predicate PublishedByDefault<Msg>(cfg: Config<Msg>, topic: string, msg: Msg, fields: map<string, string>,
                                          before: seq<Outbound>, after: seq<Outbound>, err: Option<EventError>) {
    exists r :: ResolvedByDefault(cfg, topic, r) && ActedOn(cfg, msg, fields, r, before, after, err)
  }

  lemma PublishingMeans<Msg>(cfg: Config<Msg>, topic: string, msg: Msg, fields: map<string, string>,
                             before: seq<Outbound>, after: seq<Outbound>, err: Option<EventError>)
    requires ActedOn(cfg, msg, fields, Resolve(cfg, topic, msg, fields), before, after, err)
    ensures forall k: nat | FirstMatching(cfg, topic, k) ::
      PublishedUnder(cfg, k, topic, msg, fields, before, after, err)
    ensures Unmatchable(cfg, topic) ==> PublishedByDefault(cfg, topic, msg, fields, before, after, err)
  {
    ResolutionMeans(cfg, topic, msg, fields);
  }

  // ----- The methods -----

  // fieldsToUserProperties: map iteration order is the runtime's choice.
  method FieldsToUserProperties(fields: FieldsMap?) returns (props: Slice<UserProperty>)
    ensures props.Valid() && fresh(props.arr)
    ensures Lists(props.Contents(), ValueOf(fields))
  {
    var m := if fields == null then map[] else fields.m;
    props := Make(|m|);
    var left := m.Keys;
    while left != {}
      invariant props.Valid() && fresh(props.arr)
      invariant left <= m.Keys && UniqueKeys(props.Contents())
      invariant forall i | 0 <= i < props.len ::
        props.Contents()[i].key in m && props.Contents()[i].key !in left
        && m[props.Contents()[i].key] == props.Contents()[i].value
      invariant forall k | k in m && k !in left :: k in Keys(props.Contents())
      decreases left
    {
      var key :| key in left;
      ghost var before := props.Contents();
      props := Append(props, UserProperty(key, m[key]), 0);
      assert Keys(props.Contents()) == Keys(before) + [key];
      left := left - {key};
    }
  }

  // The propagator's Inject: any settings of trace keys.
  method InjectTrace(c: PropertyCarrier) returns (ghost sets: seq<UserProperty>)
    requires c.Valid()
    modifies c, c.props.arr
    ensures c.Valid() && (c.props.arr == old(c.props.arr) || fresh(c.props.arr))
    ensures forall i | 0 <= i < |sets| :: sets[i].key in TRACE_KEYS
    ensures c.Contents() == SetAll(old(c.Contents()), sets)
  {
    sets := [];
    var steps: nat := *;
    while steps > 0
      invariant c.Valid() && (c.props.arr == old(c.props.arr) || fresh(c.props.arr))
      invariant forall i | 0 <= i < |sets| :: sets[i].key in TRACE_KEYS
      invariant c.Contents() == SetAll(old(c.Contents()), sets)
    {
      var key :| key in TRACE_KEYS;
      var value: string, spare: nat := *, *;
      c.Set(key, value, spare);
      assert (sets + [UserProperty(key, value)])[..|sets|] == sets;
      sets := sets + [UserProperty(key, value)];
      steps := steps - 1;
    }
  }

  class MQTTPublisher<Msg> {
    const cfg: Config<Msg>
    // The connection whose Publish was injected, and the calls made of it.
    var publishFunc: Option<nat>
    var published: seq<Outbound>
    // Which of them were acknowledged.
    var acks: seq<bool>

    constructor (cfg: Config<Msg>)
      ensures this.cfg == cfg && publishFunc == None && published == [] && acks == []
    {
      this.cfg, publishFunc, published, acks := cfg, None, [], [];
    }

    method SetPublishFunc(fn: nat)
      modifies `publishFunc
      ensures publishFunc == Some(fn)
    {
      publishFunc := Some(fn);
    }

    // The fields a mapping's function sees. The caller's map is not written:
    // with something to lay over it a new one is filled.
    method Merge(fields: FieldsMap?, extracted: map<string, string>) returns (merged: FieldsMap?)
      ensures ValueOf(merged) == ValueOf(fields) + extracted
      ensures merged == fields || fresh(merged)
    {
      if extracted == map[] {
        return fields;
      }
      var target := new FieldsMap();
      var given := if fields == null then map[] else fields.m;
      Copy(given, target);
      Copy(extracted, target);
      return target;
    }

    static method Copy(source: map<string, string>, target: FieldsMap)
      modifies target
      ensures target.m == old(target.m) + source
    {
      var left := source.Keys;
      while left != {}
        invariant left <= source.Keys
        invariant target.m == old(target.m) + (source - left)
        decreases left
      {
        var k :| k in left;
        target.m := target.m[k := source[k]];
        left := left - {k};
      }
    }

    method ResolveMapping(topic: string, msg: Msg, fields: FieldsMap?) returns (r: Result<Resolution>)
      ensures r == Resolve(cfg, topic, msg, ValueOf(fields))
      ensures forall k: nat | FirstMatching(cfg, topic, k) :: ResolvedUnder(cfg, k, topic, msg, ValueOf(fields), r)
      ensures Unmatchable(cfg, topic) ==> ResolvedByDefault(cfg, topic, r)
    {
      ResolutionMeans(cfg, topic, msg, ValueOf(fields));
      for i := 0 to |cfg.mappings|
        invariant FirstMatch(cfg, topic) == FirstMatch(cfg, topic, i)
      {
        var m := cfg.mappings[i];
        if cfg.matches(m.pattern, topic) {
          var merged := Merge(fields, cfg.extract(m.pattern, topic));
          var mqttTopic := topic;
          if m.topicFunc.Some? {
            var named := m.topicFunc.value(topic, msg, if merged == null then map[] else merged.m);
            if named.Err? {
              return Err;
            }
            if named.value != "" {
              mqttTopic := named.value;
            }
          }
          return Ok(Resolution(mqttTopic, m.qos, m.retain));
        }
      }
      match cfg.defaultXform {
        case Ignore => return Ok(Resolution("", 0, false));
        case Error => return Err;
        case Verbatim => return Ok(Resolution(topic, cfg.defaultQoS, cfg.defaultRetain));
      }
    }

    // The injected function: foreign code, which may fail.
    method CallPublish(out: Outbound) returns (ok: bool)
      modifies `published, `acks
      ensures published == old(published) + [out] && acks == old(acks) + [ok]
    {
      published := published + [out];
      ok := *;
      acks := acks + [ok];
    }

    // The user properties of an event: its fields, and what the tracer adds.
    method BuildProperties(fields: FieldsMap?) returns (user: seq<UserProperty>)
      ensures UniqueKeys(user) && Decode(user) == WithoutTrace(ValueOf(fields))
    {
      var props := FieldsToUserProperties(fields);
      var c := new PropertyCarrier(props);
      ghost var listed := c.Contents();
      ghost var sets := InjectTrace(c);
      RoundTrip(listed, ValueOf(fields), sets);
      SetAllKeepsUniqueKeys(listed, sets);
      user := c.props.arr[..c.props.len];
    }

    // One call of the publish function at most. Under the first mapping that
    // matches, its function says the topic, over the event's fields with the
    // extracted ones laid over them, and the mapping QoS and retain flag; without one
    // the default decides. The fields map itself is not written.
    method OnEvent(topic: string, msg: Msg, fields: FieldsMap?) returns (err: Option<EventError>)
      modifies `published, `acks
      ensures publishFunc.None? <==> err == Some(NotYetConnected)
      ensures publishFunc.None? ==> published == old(published)
      ensures publishFunc.Some? ==>
        ActedOn(cfg, msg, ValueOf(fields), Resolve(cfg, topic, msg, ValueOf(fields)), old(published), published, err)
      ensures publishFunc.Some? ==> forall k: nat | FirstMatching(cfg, topic, k) ::
        PublishedUnder(cfg, k, topic, msg, ValueOf(fields), old(published), published, err)
      ensures publishFunc.Some? && Unmatchable(cfg, topic) ==>
        PublishedByDefault(cfg, topic, msg, ValueOf(fields), old(published), published, err)
      ensures acks == old(acks) + if |published| > |old(published)| then [err == None] else []
    {
      if publishFunc.None? {
        return Some(NotYetConnected);
      }
      err := Publish(topic, msg, fields);
      PublishingMeans(cfg, topic, msg, ValueOf(fields), old(published), published, err);
    }

    // OnEvent on a wired publisher.
    method Publish(topic: string, msg: Msg, fields: FieldsMap?) returns (err: Option<EventError>)
      modifies `published, `acks
      ensures err != Some(NotYetConnected)
      ensures ActedOn(cfg, msg, ValueOf(fields), Resolve(cfg, topic, msg, ValueOf(fields)),
                      old(published), published, err)
      ensures acks == old(acks) + if |published| > |old(published)| then [err == None] else []
    {
      var r := ResolveMapping(topic, msg, fields);
      if r.Err? {
        return Some(NoTopic);
      }
      if r.value.topic == "" {
        return None;
      }
      var payload := cfg.serialize(msg);
      if payload.None? {
        return Some(SerializeFailed);
      }
      var user := BuildProperties(fields);
      var ok := CallPublish(Outbound(r.value.topic, r.value.qos, r.value.retain, payload.value, user));
      return if ok then None else Some(PublishFailed);
    }
  }
}
