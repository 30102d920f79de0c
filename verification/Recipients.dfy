/**
 The router's values: recipients, the list operations registration performs on
 them, whom one message is for, and what a topic alias stands for.
*/
module Recipients {
  import opened Wrappers

  // topicmatch.Matches, which is not part of this model: any predicate will do.
  type Matcher = (string, string) -> bool

  datatype RouterEntry = RouterEntry(patterns: seq<string>, handler: nat)

  // One handler invocation.
  datatype Call = Call(handler: nat, topic: string)

  // ----- Whom a message is for -----

  predicate AnyMatches(m: Matcher, patterns: seq<string>, topic: string) {
    exists i | 0 <= i < |patterns| :: m(patterns[i], topic)
  }

  // The positions of the recipients of a topic, in registration order, once each.
  function Positions(m: Matcher, list: seq<RouterEntry>, topic: string): (ps: seq<nat>)
    ensures forall j | 0 <= j < |ps| :: ps[j] < |list|
    ensures forall j, k | 0 <= j < k < |ps| :: ps[j] < ps[k]
    ensures forall i | 0 <= i < |list| :: i in ps <==> AnyMatches(m, list[i].patterns, topic)
  {
    if list == [] then []
    else
      var n := |list| - 1;
      Positions(m, list[..n], topic) + if AnyMatches(m, list[n].patterns, topic) then [n] else []
  }

  // The calls one message on a topic makes.
  function CallsFor(m: Matcher, list: seq<RouterEntry>, topic: string): seq<Call>
  {
    if list == [] then []
    else
      var n := |list| - 1;
      CallsFor(m, list[..n], topic)
      + if AnyMatches(m, list[n].patterns, topic) then [Call(list[n].handler, topic)] else []
  }

  // The calls are those of the matching recipients, each once, in order.
  lemma {:induction false} CallsAreThePositions(m: Matcher, list: seq<RouterEntry>, topic: string)
    ensures var ps := Positions(m, list, topic);
      && |CallsFor(m, list, topic)| == |ps|
      && forall j | 0 <= j < |ps| :: CallsFor(m, list, topic)[j] == Call(list[ps[j]].handler, topic)
  {
    if list != [] {
      CallsAreThePositions(m, list[..|list| - 1], topic);
    }
  }

  // ----- Registration -----

  // An entry UnregisterHandler removes: registered under exactly this pattern.
  predicate RegisteredUnder(e: RouterEntry, topic: string) {
    |e.patterns| == 1 && e.patterns[0] == topic
  }

  function Without(list: seq<RouterEntry>, topic: string): (kept: seq<RouterEntry>)
    ensures |kept| <= |list|
  {
    if list == [] then []
    else
      var n := |list| - 1;
      Without(list[..n], topic) + if RegisteredUnder(list[n], topic) then [] else [list[n]]
  }

  lemma {:induction false} WithoutDistributes(a: seq<RouterEntry>, b: seq<RouterEntry>, topic: string)
    ensures Without(a + b, topic) == Without(a, topic) + Without(b, topic)
  {
    if b == [] {
      assert a + b == a;
    } else {
      var n := |b| - 1;
      WithoutDistributes(a, b[..n], topic);
      assert (a + b)[..|a + b| - 1] == a + b[..n];
    }
  }

  lemma {:induction false} CallsDistribute(m: Matcher, a: seq<RouterEntry>, b: seq<RouterEntry>, topic: string)
    ensures CallsFor(m, a + b, topic) == CallsFor(m, a, topic) + CallsFor(m, b, topic)
  {
    if b == [] {
      assert a + b == a;
    } else {
      var n := |b| - 1;
      CallsDistribute(m, a, b[..n], topic);
      assert (a + b)[..|a + b| - 1] == a + b[..n];
    }
  }

  lemma WithoutOne(e: RouterEntry, topic: string)
    ensures Without([e], topic) == if RegisteredUnder(e, topic) then [] else [e]
  {
    assert Without([e][..0], topic) == [];
  }

  lemma CallsForOne(m: Matcher, e: RouterEntry, topic: string)
    ensures CallsFor(m, [e], topic) == if AnyMatches(m, e.patterns, topic) then [Call(e.handler, topic)] else []
  {
    assert CallsFor(m, [e][..0], topic) == [];
  }

  // Unregistering a pattern leaves every message on a topic the pattern does
  // not match with the calls it had.
  lemma {:induction false} UnregisterSilencesNoOtherTopic(m: Matcher, list: seq<RouterEntry>,
                                                          pattern: string, topic: string)
    requires !m(pattern, topic)
    ensures CallsFor(m, Without(list, pattern), topic) == CallsFor(m, list, topic)
  {
    if list != [] {
      var n := |list| - 1;
      UnregisterSilencesNoOtherTopic(m, list[..n], pattern, topic);
      if RegisteredUnder(list[n], pattern) {
        assert !AnyMatches(m, list[n].patterns, topic);
        assert Without(list, pattern) == Without(list[..n], pattern);
      } else {
        CallsDistribute(m, Without(list[..n], pattern), [list[n]], topic);
        CallsForOne(m, list[n], topic);
      }
    }
  }

  // UnregisterHandler undoes RegisterHandler, and doing it again does nothing.
  lemma {:induction false} UnregisterUndoesRegister(list: seq<RouterEntry>, topic: string, handler: nat)
    ensures Without(list + [RouterEntry([topic], handler)], topic) == Without(list, topic)
    ensures Without(Without(list, topic), topic) == Without(list, topic)
  {
    WithoutDistributes(list, [RouterEntry([topic], handler)], topic);
    WithoutOne(RouterEntry([topic], handler), topic);
    if list != [] {
      var n := |list| - 1;
      UnregisterUndoesRegister(list[..n], topic, handler);
      if !RegisteredUnder(list[n], topic) {
        WithoutDistributes(Without(list[..n], topic), [list[n]], topic);
        WithoutOne(list[n], topic);
      }
    }
  }

  // ----- Inbound packets and topic aliases (section 3.3.2.3.4) -----

  type Alias = n: nat | n < 0x1_0000

  datatype Properties = Properties(topicAlias: Option<Alias>)

  // properties is None for a packet that carries no properties field at all.
  datatype Packet = Packet(topic: string, properties: Option<Properties>)

  function AliasOf(pb: Packet): Option<Alias> {
    if pb.properties.None? then None else pb.properties.value.topicAlias
  }

  function ResolvedTopic(aliases: map<Alias, string>, pb: Packet): string {
    match AliasOf(pb)
    case None => pb.topic
    case Some(a) => if pb.topic != "" then pb.topic else if a in aliases then aliases[a] else ""
  }

  function AliasesAfter(aliases: map<Alias, string>, pb: Packet): map<Alias, string> {
    match AliasOf(pb)
    case None => aliases
    case Some(a) => if pb.topic != "" then aliases[a := pb.topic] else aliases
  }
}
