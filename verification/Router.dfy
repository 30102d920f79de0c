/**
 client/router.go: the copy-on-write router, one goroutine at a time. What
 other goroutines may do meanwhile is RouterMachine's subject; what handlers do
 to the router while Route is calling them is RunHandler's.
*/
module Router {
  import opened Wrappers
  import opened GoSlices
  import opened Recipients

  class SubscriberRouter {
    const matches: Matcher
    var entries: Slice<RouterEntry>
    var aliases: map<Alias, string>

    ghost predicate Valid()
      reads this
    {
      entries.Valid()
    }

    ghost function List(): seq<RouterEntry>
      requires Valid()
      reads this, entries.arr
    {
      entries.Contents()
    }

    constructor (matches: Matcher)
      ensures Valid() && List() == [] && aliases == map[]
      ensures this.matches == matches && fresh(entries.arr)
    {
      this.matches := matches;
      var none := new RouterEntry[0];
      this.entries := Slice(none, 0, 0);
      this.aliases := map[];
    }

    // Only the header field may change: no array that exists before the call is
    // written, so a slice header taken earlier keeps its contents.
    method AddRecipient(patterns: seq<string>, handler: nat, spare: nat)
      requires Valid()
      modifies `entries
      ensures Valid() && fresh(entries.arr)
      ensures List() == old(List()) + [RouterEntry(patterns, handler)]
    {
      var frozen := entries.Frozen();
      assert frozen.Contents() == List();
      entries := Append(frozen, RouterEntry(patterns, handler), spare);
    }

    method RegisterHandler(topic: string, handler: nat, spare: nat)
      requires Valid()
      modifies `entries
      ensures Valid() && fresh(entries.arr)
      ensures List() == old(List()) + [RouterEntry([topic], handler)]
    {
      AddRecipient([topic], handler, spare);
    }

    method UnregisterHandler(topic: string)
      requires Valid()
      modifies `entries
      ensures Valid() && fresh(entries.arr)
      ensures List() == Without(old(List()), topic)
    {
      ghost var before := List();
      var kept: Slice<RouterEntry> := Make(entries.len);
      for i := 0 to entries.len
        invariant kept.Valid() && fresh(kept.arr) && kept.cap == entries.len && kept.len <= i
        invariant entries == old(entries) && List() == before
        invariant kept.Contents() == Without(before[..i], topic)
      {
        var e := entries.arr[i];
        assert e == before[i] && before[..i + 1][..i] == before[..i];
        if !(|e.patterns| == 1 && e.patterns[0] == topic) {
          kept := Append(kept, e, 0);
        }
      }
      assert before[..entries.len] == before;
      entries := kept;
    }

    method Matches(e: RouterEntry, topic: string) returns (found: bool)
      ensures found <==> AnyMatches(matches, e.patterns, topic)
    {
      for i := 0 to |e.patterns|
        invariant forall k | 0 <= k < i :: !matches(e.patterns[k], topic)
      {
        if matches(e.patterns[i], topic) {
          return true;
        }
      }
      return false;
    }

    method ResolveTopic(pb: Packet) returns (topic: string)
      requires pb.properties.Some?
      modifies `aliases
      ensures topic == ResolvedTopic(old(aliases), pb)
      ensures aliases == AliasesAfter(old(aliases), pb)
    {
      if pb.properties.value.topicAlias.None? {
        return pb.topic;
      }
      var a := pb.properties.value.topicAlias.value;
      if pb.topic != "" {
        aliases := aliases[a := pb.topic];
        return pb.topic;
      }
      return if a in aliases then aliases[a] else "";
    }

    method ResetAliases()
      modifies `aliases
      ensures aliases == map[]
    {
      aliases := map[];
    }

    // One handler call. A handler is foreign code holding the router: it may
    // register, unregister and change the alias table any number of times.
    method RunHandler(c: Call)
      requires Valid()
      modifies `entries, `aliases
      ensures Valid() && (entries == old(entries) || fresh(entries.arr))
    {
      var steps: nat := *;
      while steps > 0
        invariant Valid() && (entries == old(entries) || fresh(entries.arr))
      {
        var patterns: seq<string>, topic: string, handler: nat, spare: nat := *, *, *, *;
        if * {
          AddRecipient(patterns, handler, spare);
        } else if * {
          UnregisterHandler(topic);
        } else {
          aliases := *;
        }
        steps := steps - 1;
      }
    }

    // The calls made are those for the list as it was when Route took its
    // header, whatever the handlers called on the way did to the router.
    method Route(pb: Packet) returns (calls: seq<Call>)
      requires Valid()
      modifies `entries, `aliases
      ensures Valid()
      ensures var topic := ResolvedTopic(old(aliases), pb);
        calls == if topic == "" then [] else CallsFor(matches, old(List()), topic)
      ensures calls == [] ==> entries == old(entries) && aliases == AliasesAfter(old(aliases), pb)
    {
      var packet := if pb.properties.None? then pb.(properties := Some(Properties(None))) else pb;
      var snapshot := entries;
      ghost var list := List();
      var topic := ResolveTopic(packet);
      calls := [];
      if topic == "" {
        return;
      }
      for i := 0 to snapshot.len
        invariant Valid() && snapshot.Contents() == list
        invariant calls == CallsFor(matches, list[..i], topic)
        invariant calls == [] ==> entries == old(entries) && aliases == AliasesAfter(old(aliases), pb)
      {
        var e := snapshot.arr[i];
        assert e == list[i] && list[..i + 1][..i] == list[..i];
        var found := Matches(e, topic);
        if found {
          RunHandler(Call(e.handler, topic));
          calls := calls + [Call(e.handler, topic)];
        }
      }
      assert list[..snapshot.len] == list;
    }
  }
}
