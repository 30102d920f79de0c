/**
 MQTT 5 user properties as lists: the operations of the trace carrier on them,
 their reading as a fields map, and the laws that make the two agree. Field
 maps themselves are heap objects, so that who may change them is visible.
*/
module UserProperties {
  import opened Wrappers

  datatype UserProperty = UserProperty(key: string, value: string)

  // A Go map[string]string; a nil map is null.
  class FieldsMap {
    var m: map<string, string>

    constructor ()
      ensures m == map[]
    {
      m := map[];
    }
  }

  function ValueOf(fields: FieldsMap?): map<string, string>
    reads fields
  {
    if fields == null then map[] else fields.m
  }

  const TRACE_KEYS := {"traceparent", "tracestate", "baggage"}

  function WithoutTrace(fields: map<string, string>): map<string, string> {
    fields - TRACE_KEYS
  }

  // ----- Carrier operations -----

  // The first property under a key, or the length of the list.
  function Find(props: seq<UserProperty>, key: string): (i: nat)
    ensures i <= |props| && (i < |props| ==> props[i].key == key)
    ensures forall j | 0 <= j < i :: props[j].key != key
  {
    if props == [] then 0 else if props[0].key == key then 0 else 1 + Find(props[1..], key)
  }

  lemma FindIs(props: seq<UserProperty>, key: string, i: nat)
    requires i <= |props| && (i < |props| ==> props[i].key == key)
    requires forall j | 0 <= j < i :: props[j].key != key
    ensures Find(props, key) == i
  {
  }

  function GetFirst(props: seq<UserProperty>, key: string): string {
    var i := Find(props, key);
    if i < |props| then props[i].value else ""
  }

  function SetFirst(props: seq<UserProperty>, key: string, value: string): seq<UserProperty> {
    var i := Find(props, key);
    if i < |props| then props[i := UserProperty(key, value)] else props + [UserProperty(key, value)]
  }

  function SetAll(props: seq<UserProperty>, sets: seq<UserProperty>): seq<UserProperty> {
    if sets == [] then props
    else
      var n := |sets| - 1;
      SetFirst(SetAll(props, sets[..n]), sets[n].key, sets[n].value)
  }

  predicate UniqueKeys(props: seq<UserProperty>) {
    forall i, j | 0 <= i < j < |props| :: props[i].key != props[j].key
  }

  function Keys(props: seq<UserProperty>): seq<string> {
    seq(|props|, i requires 0 <= i < |props| => props[i].key)
  }

  // ----- Reading a list as a map: the last property under a key wins -----

  function Decode(props: seq<UserProperty>): map<string, string> {
    if props == [] then map[]
    else
      var n := |props| - 1;
      var before := Decode(props[..n]);
      if props[n].key in TRACE_KEYS then before else before[props[n].key := props[n].value]
  }

  // The last property under a key.
  function Latest(props: seq<UserProperty>, key: string): Option<string> {
    if props == [] then None
    else if props[|props| - 1].key == key then Some(props[|props| - 1].value)
    else Latest(props[..|props| - 1], key)
  }

  // Latest is the value at the last position that holds the key.
  lemma {:induction false} LatestAt(props: seq<UserProperty>, i: nat)
    requires i < |props| && forall j | i < j < |props| :: props[j].key != props[i].key
    ensures Latest(props, props[i].key) == Some(props[i].value)
  {
    var n := |props| - 1;
    if i < n {
      LatestAt(props[..n], i);
    }
  }

  lemma {:induction false} LatestOfAbsent(props: seq<UserProperty>, key: string)
    requires forall i | 0 <= i < |props| :: props[i].key != key
    ensures Latest(props, key) == None
  {
    if props != [] {
      LatestOfAbsent(props[..|props| - 1], key);
    }
  }

  lemma {:induction false} DecodeIsLastWins(props: seq<UserProperty>, key: string)
    ensures key in Decode(props) <==> key !in TRACE_KEYS && Latest(props, key).Some?
    ensures key in Decode(props) ==> Latest(props, key) == Some(Decode(props)[key])
  {
    if props != [] {
      DecodeIsLastWins(props[..|props| - 1], key);
    }
  }

  // ----- Laws -----

  // Setting keeps keys unique and in order; a new key goes last.
  lemma SetKeepsKeys(props: seq<UserProperty>, key: string, value: string)
    ensures UniqueKeys(props) ==> UniqueKeys(SetFirst(props, key, value))
    ensures Keys(SetFirst(props, key, value)) == Keys(props) + if key in Keys(props) then [] else [key]
  {
    var i := Find(props, key);
    var after := SetFirst(props, key, value);
    if i < |props| {
      assert Keys(props)[i] == key;
      assert Keys(after) == Keys(props);
    } else {
      assert forall j | 0 <= j < |props| :: Keys(props)[j] != key;
      assert Keys(after) == Keys(props) + [key];
    }
  }

  lemma {:induction false} SetAllKeepsUniqueKeys(props: seq<UserProperty>, sets: seq<UserProperty>)
    requires UniqueKeys(props)
    ensures UniqueKeys(SetAll(props, sets))
    ensures |Keys(props)| <= |Keys(SetAll(props, sets))| && Keys(SetAll(props, sets))[..|props|] == Keys(props)
  {
    if sets == [] {
      assert Keys(props)[..|props|] == Keys(props);
    } else {
      var n := |sets| - 1;
      SetAllKeepsUniqueKeys(props, sets[..n]);
      SetKeepsKeys(SetAll(props, sets[..n]), sets[n].key, sets[n].value);
    }
  }

  lemma GetAfterSet(props: seq<UserProperty>, key: string, value: string, k: string)
    ensures GetFirst(SetFirst(props, key, value), k) == if k == key then value else GetFirst(props, k)
  {
    var i, after := Find(props, key), SetFirst(props, key, value);
    if k == key {
      FindIs(after, k, i);
    } else if Find(props, k) < |props| {
      FindIs(after, k, Find(props, k));
    } else {
      FindIs(after, k, |after|);
    }
  }

  // Get returns the last value set for the key, or the original one; for any
  // list, duplicates included.
  lemma {:induction false} GetReturnsTheLastSet(props: seq<UserProperty>, sets: seq<UserProperty>, key: string)
    ensures GetFirst(SetAll(props, sets), key) ==
      match Latest(sets, key) case Some(v) => v case None => GetFirst(props, key)
  {
    if sets != [] {
      var n := |sets| - 1;
      GetReturnsTheLastSet(props, sets[..n], key);
      GetAfterSet(SetAll(props, sets[..n]), sets[n].key, sets[n].value, key);
    }
  }

  // With unique keys first wins and last wins are the same reading.
  lemma GetAgreesWithDecode(props: seq<UserProperty>, key: string)
    requires UniqueKeys(props) && key !in TRACE_KEYS
    ensures GetFirst(props, key) == if key in Decode(props) then Decode(props)[key] else ""
    ensures key in Decode(props) <==> key in Keys(props)
  {
    DecodeIsLastWins(props, key);
    var i := Find(props, key);
    if i < |props| {
      assert Keys(props)[i] == key;
      LatestAt(props, i);
    } else {
      LatestOfAbsent(props, key);
    }
  }

  // A list that holds a fields map, in whatever order it was iterated.
  predicate Lists(props: seq<UserProperty>, fields: map<string, string>) {
    && UniqueKeys(props)
    && (forall i | 0 <= i < |props| :: props[i].key in fields && fields[props[i].key] == props[i].value)
    && (forall k | k in fields :: k in Keys(props))
  }

  lemma DecodeOfLists(props: seq<UserProperty>, fields: map<string, string>)
    requires Lists(props, fields)
    ensures Decode(props) == WithoutTrace(fields)
  {
    forall k
      ensures k in Decode(props) <==> k in fields && k !in TRACE_KEYS
      ensures k in Decode(props) ==> Decode(props)[k] == fields[k]
    {
      DecodeIsLastWins(props, k);
      var i := Find(props, k);
      if i < |props| {
        LatestAt(props, i);
      } else {
        LatestOfAbsent(props, k);
      }
    }
  }

  // Setting a trace key leaves the decoded map as it was, whether the property
  // was there or is new.
  lemma SetTraceIsInvisible(props: seq<UserProperty>, key: string, value: string)
    requires UniqueKeys(props) && key in TRACE_KEYS
    ensures Decode(SetFirst(props, key, value)) == Decode(props)
  {
    var after := SetFirst(props, key, value);
    SetKeepsKeys(props, key, value);
    forall k
      ensures k in Decode(after) <==> k in Decode(props)
      ensures k in Decode(props) ==> Decode(after)[k] == Decode(props)[k]
    {
      DecodeIsLastWins(props, k);
      DecodeIsLastWins(after, k);
      if k !in TRACE_KEYS {
        GetAgreesWithDecode(props, k);
        GetAgreesWithDecode(after, k);
        GetAfterSet(props, key, value, k);
      }
    }
  }

  // The round trip: a fields map listed in any order, patched by any sequence of
  // settings of trace keys, decodes to the map without its trace keys.
  lemma {:induction false} RoundTrip(props: seq<UserProperty>, fields: map<string, string>, sets: seq<UserProperty>)
    requires Lists(props, fields)
    requires forall i | 0 <= i < |sets| :: sets[i].key in TRACE_KEYS
    ensures Decode(SetAll(props, sets)) == WithoutTrace(fields)
  {
    if sets == [] {
      DecodeOfLists(props, fields);
    } else {
      var n := |sets| - 1;
      RoundTrip(props, fields, sets[..n]);
      SetAllKeepsUniqueKeys(props, sets[..n]);
      SetTraceIsInvisible(SetAll(props, sets[..n]), sets[n].key, sets[n].value);
    }
  }
}
