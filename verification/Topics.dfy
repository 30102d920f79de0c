/**
 MQTT topic names and topic filters as strings, the broker's matching rule of
 section 4.7 of MQTT Version 5.0, the same rule for patterns whose `+` segments
 carry a field name, and the rewriting that turns the latter into the former.
*/
module Topics {

  // One entry of a SUBSCRIBE packet.
  datatype SubscribeOptions = SubscribeOptions(topic: string, qos: nat)

  // ----- Segments: strings.Split and strings.Join with separator "/" -----

  function Split(s: string): (segments: seq<string>)
    ensures |segments| > 0
    ensures forall i | 0 <= i < |segments| :: '/' !in segments[i]
  {
    if s == "" then [""]
    else
      var rest := Split(s[1..]);
      if s[0] == '/' then [""] + rest else [[s[0]] + rest[0]] + rest[1..]
  }

  function Join(segments: seq<string>): string
    requires |segments| > 0
  {
    if |segments| == 1 then segments[0] else segments[0] + "/" + Join(segments[1..])
  }

  lemma {:induction false} JoinSplit(s: string)
    ensures Join(Split(s)) == s
  {
    if s != "" {
      var rest, segments := Split(s[1..]), Split(s);
      JoinSplit(s[1..]);
      if s[0] == '/' {
        assert segments[1..] == rest;
      } else if |rest| > 1 {
        assert segments[1..] == rest[1..];
      }
    }
  }

  lemma {:induction false} SplitPlain(x: string)
    requires '/' !in x
    ensures Split(x) == [x]
  {
    if x != "" {
      SplitPlain(x[1..]);
      assert [x[0]] + x[1..] == x;
    }
  }

  lemma OneSegment(s: string)
    ensures |Split(s)| == 1 <==> '/' !in s
  {
    JoinSplit(s);
    if '/' !in s {
      SplitPlain(s);
    }
  }

  // The segments of c + s from those of s.
  function Prepend(c: char, segments: seq<string>): seq<string>
    requires |segments| > 0
  {
    if c == '/' then [""] + segments else [[c] + segments[0]] + segments[1..]
  }

  lemma SplitStep(c: char, s: string)
    ensures Split([c] + s) == Prepend(c, Split(s))
  {
    assert ([c] + s)[1..] == s;
  }

  lemma PrependConcat(c: char, a: seq<string>, b: seq<string>)
    requires |a| > 0
    ensures Prepend(c, a + b) == Prepend(c, a) + b
  {
    assert (a + b)[1..] == a[1..] + b;
  }

  lemma {:induction false} SplitConcat(a: string, b: string)
    ensures Split(a + "/" + b) == Split(a) + Split(b)
  {
    if a == "" {
      SplitStep('/', b);
      assert a + "/" + b == ['/'] + b;
    } else {
      var c, tail := a[0], a[1..];
      SplitConcat(tail, b);
      SplitStep(c, tail);
      SplitStep(c, tail + "/" + b);
      assert a == [c] + tail;
      assert a + "/" + b == [c] + (tail + "/" + b);
      PrependConcat(c, Split(tail), Split(b));
    }
  }

  lemma {:induction false} SplitJoin(segments: seq<string>)
    requires |segments| > 0
    requires forall i | 0 <= i < |segments| :: '/' !in segments[i]
    ensures Split(Join(segments)) == segments
  {
    if |segments| == 1 {
      SplitPlain(segments[0]);
    } else {
      SplitJoin(segments[1..]);
      SplitPlain(segments[0]);
      SplitConcat(segments[0], Join(segments[1..]));
    }
  }

  // ----- The broker's rule (sections 4.7.1 and 4.7.2) -----

  predicate LevelMatches(level: string, name: string) {
    level == "+" || level == name
  }

  // Every level but a final "#" is matched by the topic level in its place; a
  // final "#" also covers the parent level.
  predicate FilterMatches(levels: seq<string>, names: seq<string>)
    requires |levels| > 0
  {
    var n := |levels| - 1;
    if levels[n] == "#" then
      n <= |names| && forall i | 0 <= i < n :: LevelMatches(levels[i], names[i])
    else
      |levels| == |names| && forall i | 0 <= i < |levels| :: LevelMatches(levels[i], names[i])
  }

  // Section 4.7.2: a filter that starts with a wildcard never covers a `$` topic.
  predicate DollarGuarded(filter: string, topic: string) {
    |filter| > 0 && filter[0] in {'+', '#'} && |topic| > 0 && topic[0] == '$'
  }

  predicate BrokerMatches(filter: string, topic: string) {
    !DollarGuarded(filter, topic) && FilterMatches(Split(filter), Split(topic))
  }

  // Section 4.7.1: a wildcard occupies its whole level and "#" is the last one.
  predicate ValidFilter(filter: string) {
    var levels := Split(filter);
    && filter != ""
    && forall i | 0 <= i < |levels| ::
         && ('+' in levels[i] ==> levels[i] == "+")
         && ('#' in levels[i] ==> levels[i] == "#" && i == |levels| - 1)
  }

  // ----- Patterns with named `+` segments -----

  predicate NamedLevelMatches(segment: string, name: string) {
    (|segment| > 0 && segment[0] == '+') || segment == name
  }

  // A left-to-right walk over both segment lists.
  predicate NamedWalk(segments: seq<string>, names: seq<string>) {
    if segments == [] then names == []
    else if segments == ["#"] then true
    else names != [] && NamedLevelMatches(segments[0], names[0]) && NamedWalk(segments[1..], names[1..])
  }

  predicate NamedMatches(pattern: string, topic: string) {
    !DollarGuarded(pattern, topic) && NamedWalk(Split(pattern), Split(topic))
  }

  // A pattern the configuration may carry: `+` opens a segment, named or not,
  // and "#" stands alone and last.
  predicate WellFormedPattern(pattern: string) {
    var segments := Split(pattern);
    && pattern != ""
    && forall i | 0 <= i < |segments| ::
         || (segments[i] != "" && segments[i][0] == '+')
         || (segments[i] == "#" && i == |segments| - 1)
         || ('+' !in segments[i] && '#' !in segments[i])
  }

  // ----- Stripping field names -----

  function StripSegment(segment: string): string {
    if |segment| > 1 && segment[0] == '+' then "+" else segment
  }

  function StripSegments(segments: seq<string>): seq<string> {
    seq(|segments|, i requires 0 <= i < |segments| => StripSegment(segments[i]))
  }

  function Stripped(pattern: string): string {
    Join(StripSegments(Split(pattern)))
  }

  // The loop of the source: split, overwrite cells in place, join.
  method StripFieldNames(pattern: string) returns (filter: string)
    ensures filter == Stripped(pattern)
  {
    var parts := Split(pattern);
    var segments := new string[|parts|](i requires 0 <= i < |parts| => parts[i]);
    for i := 0 to segments.Length
      invariant forall k | 0 <= k < i :: segments[k] == StripSegment(parts[k])
      invariant forall k | i <= k < segments.Length :: segments[k] == parts[k]
    {
      var segment := segments[i];
      if |segment| > 1 && segment[0] == '+' {
        segments[i] := "+";
      }
    }
    assert segments[..] == StripSegments(parts);
    filter := Join(segments[..]);
  }

  lemma SplitStripped(pattern: string)
    ensures Split(Stripped(pattern)) == StripSegments(Split(pattern))
  {
    SplitJoin(StripSegments(Split(pattern)));
  }

  lemma FirstCharacter(pattern: string)
    ensures |Stripped(pattern)| > 0 <==> |pattern| > 0
    ensures |pattern| > 0 ==> Stripped(pattern)[0] == pattern[0]
  {
    var segments := Split(pattern);
    JoinSplit(pattern);
    assert StripSegments(segments)[0] == StripSegment(segments[0]);
    if |segments| > 1 {
      assert pattern == segments[0] + "/" + Join(segments[1..]);
    }
  }

  lemma {:induction false} WalkIsLevelwise(segments: seq<string>, names: seq<string>)
    requires |segments| > 0
    ensures NamedWalk(segments, names) <==> FilterMatches(StripSegments(segments), names)
  {
    var levels := StripSegments(segments);
    if |segments| == 1 {
      if segments != ["#"] && names != [] {
        assert segments[1..] == [];
        assert NamedWalk(segments[1..], names[1..]) <==> |names| == 1;
      }
    } else if names == [] {
    } else {
      WalkIsLevelwise(segments[1..], names[1..]);
      var rest, tail := levels[1..], names[1..];
      assert StripSegments(segments[1..]) == rest;
      assert NamedLevelMatches(segments[0], names[0]) <==> LevelMatches(levels[0], names[0]);
      assert forall i | 0 <= i < |rest| && i < |tail| ::
          LevelMatches(rest[i], tail[i]) <==> LevelMatches(levels[i + 1], names[i + 1]);
      assert forall i | 1 <= i < |levels| && i < |names| ::
          LevelMatches(levels[i], names[i]) <==> LevelMatches(rest[i - 1], tail[i - 1]);
    }
  }

  // The broker, given the stripped filter, covers exactly the topics the named
  // pattern matches, `$` topics included.
  lemma StrippingPreservesMatching(pattern: string, topic: string)
    ensures BrokerMatches(Stripped(pattern), topic) <==> NamedMatches(pattern, topic)
  {
    SplitStripped(pattern);
    FirstCharacter(pattern);
    WalkIsLevelwise(Split(pattern), Split(topic));
  }

  // What reaches the broker is a legal topic filter exactly when the pattern
  // was well formed.
  lemma StrippedIsValidFilter(pattern: string)
    ensures ValidFilter(Stripped(pattern)) <==> WellFormedPattern(pattern)
  {
    SplitStripped(pattern);
    FirstCharacter(pattern);
    var segments, levels := Split(pattern), Split(Stripped(pattern));
    forall i | 0 <= i < |segments|
      ensures levels[i] == StripSegment(segments[i])
      ensures (&& ('+' in levels[i] ==> levels[i] == "+")
               && ('#' in levels[i] ==> levels[i] == "#" && i == |levels| - 1))
         <==> (|| (segments[i] != "" && segments[i][0] == '+')
               || (segments[i] == "#" && i == |segments| - 1)
               || ('+' !in segments[i] && '#' !in segments[i]))
    {
      assert levels[i] == StripSegment(segments[i]);
      assert "#"[0] == '#' && "+"[0] == '+';
    }
  }

  // ----- Shared subscriptions (section 4.8.2) -----

  predicate IsSharedForm(subscription: string) {
    var levels := Split(subscription);
    |levels| >= 3 && levels[0] == "$share"
  }

  // The filter a broker applies for a subscription it is sent: what stands
  // behind "$share/<ShareName>/", when that prefix is there.
  function EffectiveFilter(subscription: string): string {
    if IsSharedForm(subscription) then Join(Split(subscription)[2..]) else subscription
  }

  lemma SplitThree(head: string, group: string, filter: string)
    requires '/' !in head
    ensures Split(head + "/" + group + "/" + filter) == [head] + Split(group) + Split(filter)
  {
    SplitPlain(head);
    SplitConcat(head, group);
    SplitConcat(head + "/" + group, filter);
  }

  lemma SplitOfSharedForm(group: string, filter: string)
    ensures Split("$share/" + group + "/" + filter) == ["$share"] + Split(group) + Split(filter)
  {
    SplitThree("$share", group, filter);
    assert "$share/" == "$share" + "/";
  }

  lemma SharePrefixIsTransparent(group: string, filter: string)
    requires '/' !in group
    ensures EffectiveFilter("$share/" + group + "/" + filter) == filter
  {
    SplitOfSharedForm(group, filter);
    SplitPlain(group);
    EffectiveTail("$share/" + group + "/" + filter, [group], Split(filter));
    assert [group][1..] + Split(filter) == Split(filter);
    JoinSplit(filter);
    JoinSplit(EffectiveFilter("$share/" + group + "/" + filter));
  }

  // A shortest topic a filter covers: any name for "+", nothing for a final "#".
  function Instance(levels: seq<string>): (names: seq<string>)
    requires |levels| > 0
    ensures 0 < |names| <= |levels|
  {
    if levels == ["#"] then ["x"]
    else
      var n := |levels| - if levels[|levels| - 1] == "#" then 1 else 0;
      seq(n, i requires 0 <= i < n => if levels[i] == "+" then "x" else levels[i])
  }

  lemma InstanceSplits(pattern: string)
    ensures var levels := StripSegments(Split(pattern));
      Split(Join(Instance(levels))) == Instance(levels) && FilterMatches(levels, Instance(levels))
  {
    var levels := StripSegments(Split(pattern));
    var names := Instance(levels);
    assert forall i | 0 <= i < |levels| :: '/' !in levels[i];
    assert forall i | 0 <= i < |names| :: '/' !in names[i];
    SplitJoin(names);
  }

  lemma InstanceIsNotGuarded(pattern: string)
    ensures !DollarGuarded(Stripped(pattern), Join(Instance(StripSegments(Split(pattern)))))
  {
    var segments := Split(pattern);
    var levels := StripSegments(segments);
    FirstOfJoin(levels);
    FirstOfJoin(Instance(levels));
    assert levels[0] == StripSegment(segments[0]);
  }

  lemma InstanceIsCovered(pattern: string)
    ensures var levels := StripSegments(Split(pattern));
      && Split(Join(Instance(levels))) == Instance(levels)
      && NamedMatches(pattern, Join(Instance(levels)))
      && BrokerMatches(Stripped(pattern), Join(Instance(levels)))
  {
    SplitStripped(pattern);
    InstanceSplits(pattern);
    InstanceIsNotGuarded(pattern);
    StrippingPreservesMatching(pattern, Join(Instance(StripSegments(Split(pattern)))));
  }

  lemma FirstOfJoin(segments: seq<string>)
    requires |segments| > 0
    ensures |Join(segments)| > 0 ==> Join(segments)[0] == if segments[0] == "" then '/' else segments[0][0]
  {
  }

  // For a pattern sent without a share group, the broker covers exactly what the
  // pattern matches unless the pattern itself is spelled as a shared
  // subscription; then it never does.
  lemma UnsharedAgreesExactlyWhenNotSharedForm(pattern: string)
    ensures !IsSharedForm(Stripped(pattern)) <==>
      forall topic :: BrokerMatches(EffectiveFilter(Stripped(pattern)), topic) <==> NamedMatches(pattern, topic)
  {
    if IsSharedForm(Stripped(pattern)) {
      var topic := SharedFormDisagrees(pattern);
    } else {
      forall topic
        ensures BrokerMatches(EffectiveFilter(Stripped(pattern)), topic) <==> NamedMatches(pattern, topic)
      {
        StrippingPreservesMatching(pattern, topic);
      }
    }
  }

  lemma StrippedTwice(levels: seq<string>)
    requires |levels| > 0 && forall i | 0 <= i < |levels| :: '/' !in levels[i] && StripSegment(levels[i]) == levels[i]
    ensures Split(Join(levels)) == levels && Stripped(Join(levels)) == Join(levels) && StripSegments(levels) == levels
  {
    SplitJoin(levels);
    assert StripSegments(levels) == levels;
  }

  lemma SharedFormDisagrees(pattern: string) returns (topic: string)
    requires IsSharedForm(Stripped(pattern))
    ensures BrokerMatches(EffectiveFilter(Stripped(pattern)), topic) && !NamedMatches(pattern, topic)
  {
    SplitStripped(pattern);
    var levels := StripSegments(Split(pattern));
    var tail := levels[2..];
    StrippedTwice(tail);
    InstanceIsCovered(Join(tail));
    topic := Join(Instance(tail));
    WalkIsLevelwise(Split(pattern), Split(topic));
  }

  lemma EffectiveTail(subscription: string, group: seq<string>, levels: seq<string>)
    requires |group| > 0 && |levels| > 0 && Split(subscription) == ["$share"] + group + levels
    ensures Split(EffectiveFilter(subscription)) == group[1..] + levels
  {
    var tail := Split(subscription)[2..];
    assert tail == group[1..] + levels;
    assert forall i | 0 <= i < |tail| :: tail[i] == Split(subscription)[i + 2];
    SplitJoin(tail);
  }

  lemma LastOfTail(head: seq<string>, tail: seq<string>)
    requires |tail| > 0
    ensures |head + tail| == |head| + |tail| && (head + tail)[|head + tail| - 1] == tail[|tail| - 1]
  {
  }

  // What a broker makes of a share group with a "/" in it: the rest of the group
  // opens the filter.
  lemma GroupWithSlash(group: string, filter: string)
    requires '/' in group
    ensures var effective := Split(EffectiveFilter("$share/" + group + "/" + filter));
      |effective| > |Split(filter)| && effective[|effective| - 1] == Split(filter)[|Split(filter)| - 1]
  {
    OneSegment(group);
    SplitOfSharedForm(group, filter);
    EffectiveTail("$share/" + group + "/" + filter, Split(group), Split(filter));
    LastOfTail(Split(group)[1..], Split(filter));
  }

  lemma TooLongToCover(filter: seq<string>, levels: seq<string>)
    requires |levels| > 0 && levels != ["#"] && |filter| > |levels| && filter[|filter| - 1] == levels[|levels| - 1]
    ensures !FilterMatches(filter, Instance(levels))
  {
  }

  lemma LongerFilterLosesATopic(filter: string, pattern: string, sent: seq<string>, levels: seq<string>)
    returns (topic: string)
    requires sent == Split(filter) && levels == StripSegments(Split(pattern))
    requires levels != ["#"] && |sent| > |levels| && sent[|sent| - 1] == levels[|levels| - 1]
    ensures NamedMatches(pattern, topic) && !BrokerMatches(filter, topic)
  {
    InstanceIsCovered(pattern);
    TooLongToCover(sent, levels);
    topic := Join(Instance(levels));
  }

  lemma NotTheCatchAll(pattern: string)
    requires Stripped(pattern) != "#"
    ensures StripSegments(Split(pattern)) != ["#"]
  {
  }

  // A share group with a "/" in it, which section 4.8.2 forbids and nothing here
  // refuses, moves part of the group into the filter: for every pattern but "#"
  // some topic the pattern matches is no longer covered.
  lemma GroupWithSlashLosesATopic(group: string, pattern: string) returns (topic: string)
    requires '/' in group && Stripped(pattern) != "#"
    ensures NamedMatches(pattern, topic)
    ensures !BrokerMatches(EffectiveFilter("$share/" + group + "/" + Stripped(pattern)), topic)
  {
    SplitStripped(pattern);
    NotTheCatchAll(pattern);
    topic := GroupTailLosesATopic(group, pattern, Stripped(pattern), StripSegments(Split(pattern)));
  }

  lemma GroupTailLosesATopic(group: string, pattern: string, filter: string, levels: seq<string>)
    returns (topic: string)
    requires '/' in group && levels == StripSegments(Split(pattern)) && Split(filter) == levels && levels != ["#"]
    ensures NamedMatches(pattern, topic)
    ensures !BrokerMatches(EffectiveFilter("$share/" + group + "/" + filter), topic)
  {
    var effective := EffectiveFilter("$share/" + group + "/" + filter);
    GroupWithSlash(group, filter);
    topic := LongerFilterLosesATopic(effective, pattern, Split(effective), levels);
  }

  // The catch-all behind such a group: "#" becomes <rest of the group>/#.
  lemma SplitCatchAll(group: string) returns (effective: string)
    requires '/' in group
    ensures effective == EffectiveFilter("$share/" + group + "/#")
    ensures Split(effective) == Split(group)[1..] + ["#"] && effective == Join(Split(group)[1..] + ["#"])
  {
    effective := EffectiveFilter("$share/" + group + "/#");
    SplitPlain("#");
    assert "$share/" + group + "/" + "#" == "$share/" + group + "/#";
    SplitOfSharedForm(group, "#");
    EffectiveTail("$share/" + group + "/#", Split(group), ["#"]);
    JoinSplit(effective);
  }

  lemma CatchAllMatchesNamed(topic: string)
    ensures NamedMatches("#", topic) <==> !(|topic| > 0 && topic[0] == '$')
  {
    SplitPlain("#");
  }

  // "+/#" covers what "#" covers.
  lemma PlusThenCatchAll(topic: string)
    ensures BrokerMatches(Join(["+", "#"]), topic) <==> NamedMatches("#", topic)
  {
    CatchAllMatchesNamed(topic);
    SplitJoin(["+", "#"]);
    assert ["+", "#"][1..] == ["#"];
    assert Join(["+", "#"])[0] == '+';
  }

  // Anything else before the "#" leaves out a topic of one level.
  lemma OtherwiseLosesATopic(rest: seq<string>, filter: string) returns (topic: string)
    requires |rest| > 0 && rest != ["+"] && Split(filter) == rest + ["#"]
    ensures NamedMatches("#", topic) && !BrokerMatches(filter, topic)
  {
    topic := if rest[0] == "x" then "y" else "x";
    SplitPlain(topic);
    CatchAllMatchesNamed(topic);
    assert (rest + ["#"])[0] == rest[0];
  }

  lemma CatchAllBehindAGroupWithSlash(group: string)
    requires '/' in group
    ensures Split(group)[1..] == ["+"] <==>
      forall topic :: BrokerMatches(EffectiveFilter("$share/" + group + "/#"), topic) <==> NamedMatches("#", topic)
  {
    var rest := Split(group)[1..];
    var effective := SplitCatchAll(group);
    OneSegment(group);
    if rest == ["+"] {
      assert rest + ["#"] == ["+", "#"];
      forall topic
        ensures BrokerMatches(effective, topic) <==> NamedMatches("#", topic)
      {
        PlusThenCatchAll(topic);
      }
    } else {
      var topic := OtherwiseLosesATopic(rest, effective);
    }
  }

  // ----- When a subscription keeps its topics -----

  // What is sent to the broker for a filter.
  function Subscription(group: string, filter: string): string {
    (if group != "" then "$share/" + group + "/" else "") + filter
  }

  // What stands behind the share prefix means what the pattern means: without a
  // group nothing looks like one; a group is one level, or one level and a "+"
  // before a catch-all.
  predicate KeepsItsMeaning(group: string, pattern: string) {
    if group == "" then !IsSharedForm(Stripped(pattern))
    else '/' in group ==> Stripped(pattern) == "#" && Split(group)[1..] == ["+"]
  }

  lemma CatchAllIsSpelledOneWay(pattern: string)
    requires Stripped(pattern) == "#"
    ensures pattern == "#"
  {
    SplitPlain("#");
    SplitStripped(pattern);
    JoinSplit(pattern);
    assert StripSegments(Split(pattern))[0] == StripSegment(Split(pattern)[0]);
  }

  lemma MeaningIsKeptExactlyWhen(group: string, pattern: string)
    ensures KeepsItsMeaning(group, pattern) <==>
      forall topic ::
        BrokerMatches(EffectiveFilter(Subscription(group, Stripped(pattern))), topic) <==> NamedMatches(pattern, topic)
  {
    var filter := Stripped(pattern);
    if group == "" {
      assert Subscription(group, filter) == filter;
      UnsharedAgreesExactlyWhenNotSharedForm(pattern);
    } else if '/' !in group {
      SharePrefixIsTransparent(group, filter);
      forall topic
        ensures BrokerMatches(EffectiveFilter(Subscription(group, filter)), topic) <==> NamedMatches(pattern, topic)
      {
        StrippingPreservesMatching(pattern, topic);
      }
    } else if filter == "#" {
      CatchAllIsSpelledOneWay(pattern);
      assert Subscription(group, filter) == "$share/" + group + "/#";
      CatchAllBehindAGroupWithSlash(group);
    } else {
      var topic := GroupWithSlashLosesATopic(group, pattern);
    }
  }

  // ----- Subscriptions a broker accepts (sections 4.7.1 and 4.8.2) -----

  predicate LegalShareName(name: string) {
    name != "" && '/' !in name && '+' !in name && '#' !in name
  }

  // It starts with "$share/", whether or not it goes on as it must.
  predicate HasSharePrefix(subscription: string) {
    |Split(subscription)| >= 2 && Split(subscription)[0] == "$share"
  }

  predicate Accepted(subscription: string) {
    && (HasSharePrefix(subscription) ==>
          IsSharedForm(subscription) && LegalShareName(Split(subscription)[1]))
    && ValidFilter(EffectiveFilter(subscription))
  }

  // A broker that refuses a subscription sends nothing for it.
  predicate Covers(subscription: string, topic: string) {
    Accepted(subscription) && BrokerMatches(EffectiveFilter(subscription), topic)
  }

  // The configuration side of it: a well-formed pattern; without a group, not one
  // that starts as a shared subscription does; and a group that is a legal share
  // name, or one followed by "/+" before a catch-all.
  predicate KeepsItsTopics(group: string, pattern: string) {
    && WellFormedPattern(pattern)
    && if group == "" then !HasSharePrefix(Stripped(pattern))
       else
         && LegalShareName(Split(group)[0])
         && ('/' in group ==> Stripped(pattern) == "#" && Split(group)[1..] == ["+"])
  }

  lemma AcceptedUngrouped(pattern: string)
    requires !IsSharedForm(Stripped(pattern))
    ensures Accepted(Subscription("", Stripped(pattern))) <==> KeepsItsTopics("", pattern)
  {
    assert Subscription("", Stripped(pattern)) == Stripped(pattern);
    StrippedIsValidFilter(pattern);
  }

  lemma GroupedLevels(group: string, filter: string)
    requires group != ""
    ensures var levels := Split(Subscription(group, filter));
      && IsSharedForm(Subscription(group, filter)) && HasSharePrefix(Subscription(group, filter))
      && levels[1] == Split(group)[0]
  {
    SplitOfSharedForm(group, filter);
    assert Subscription(group, filter) == "$share/" + group + "/" + filter;
  }

  lemma AcceptedGrouped(group: string, pattern: string)
    requires group != "" && KeepsItsMeaning(group, pattern)
    ensures Accepted(Subscription(group, Stripped(pattern))) <==> KeepsItsTopics(group, pattern)
  {
    var filter := Stripped(pattern);
    GroupedLevels(group, filter);
    StrippedIsValidFilter(pattern);
    if '/' !in group {
      SharePrefixIsTransparent(group, filter);
    } else {
      CatchAllIsSpelledOneWay(pattern);
      var effective := SplitCatchAll(group);
      assert Subscription(group, filter) == "$share/" + group + "/#";
      PlusThenCatchAllIsValid();
      assert Split(group)[1..] + ["#"] == ["+", "#"];
      CatchAllIsWellFormed();
    }
  }

  lemma PlusThenCatchAllIsValid()
    ensures ValidFilter(Join(["+", "#"]))
  {
    SplitJoin(["+", "#"]);
  }

  lemma CatchAllIsWellFormed()
    ensures WellFormedPattern("#")
  {
    SplitPlain("#");
  }

  // The broker, sent a subscription, covers exactly the topics its pattern matches
  // if and only if the group and the pattern are of that kind; a subscription that
  // it refuses loses some topic.
  lemma BrokerAgreesExactlyWhen(group: string, pattern: string)
    ensures KeepsItsTopics(group, pattern) <==>
      forall topic :: Covers(Subscription(group, Stripped(pattern)), topic) <==> NamedMatches(pattern, topic)
  {
    var subscription := Subscription(group, Stripped(pattern));
    MeaningIsKeptExactlyWhen(group, pattern);
    if KeepsItsMeaning(group, pattern) {
      if group == "" {
        AcceptedUngrouped(pattern);
      } else {
        AcceptedGrouped(group, pattern);
      }
    }
    if !Accepted(subscription) {
      InstanceIsCovered(pattern);
    }
  }
}
