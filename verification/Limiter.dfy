/**
 client/client.go, reconnectLimiter: the counter behind MaxReconnectAttempts,
 alone (the class) and called from any number of goroutines (the machine).
*/
module Limiter {

  // The two locked sections, as they happened.
  datatype Event = Success | Failure

  // ----- What a history says -----

  predicate EverUp(log: seq<Event>) {
    Success in log
  }

  // The failures since the last success.
  function Trailing(log: seq<Event>): nat {
    if log == [] || log[|log| - 1].Success? then 0 else 1 + Trailing(log[..|log| - 1])
  }

  // An outage too long: section i is a failure, the connection had been up
  // before it, and it is at least the max-th failure in a row.
  predicate Exhausted(max: int, log: seq<Event>, i: nat) {
    0 < max && i < |log| && log[i].Failure? && EverUp(log[..i]) && Trailing(log[..i + 1]) >= max
  }

  lemma {:induction false} TrailingIsARun(log: seq<Event>)
    ensures Trailing(log) <= |log|
    ensures forall i | |log| - Trailing(log) <= i < |log| :: log[i].Failure?
    ensures Trailing(log) < |log| ==> log[|log| - Trailing(log) - 1].Success?
  {
    if log != [] && log[|log| - 1].Failure? {
      var before := log[..|log| - 1];
      TrailingIsARun(before);
      assert forall i | 0 <= i < |before| :: before[i] == log[i];
    }
  }

  // ----- The counter -----

  datatype Counter = Counter(connectedOnce: bool, failures: nat)

  function AfterSuccess(c: Counter): Counter {
    Counter(true, 0)
  }

  function AfterFailure(max: int, c: Counter): Counter {
    if max <= 0 || !c.connectedOnce then c else c.(failures := c.failures + 1)
  }

  predicate Reached(max: int, c: Counter) {
    0 < max && c.connectedOnce && c.failures >= max
  }

  // What the fields hold after a history.
  function CounterFor(max: int, log: seq<Event>): Counter {
    Counter(EverUp(log), if 0 < max && EverUp(log) then Trailing(log) else 0)
  }

  lemma CounterFollows(max: int, log: seq<Event>)
    ensures CounterFor(max, log + [Success]) == AfterSuccess(CounterFor(max, log))
    ensures CounterFor(max, log + [Failure]) == AfterFailure(max, CounterFor(max, log))
    ensures Exhausted(max, log + [Failure], |log|) <==> Reached(max, CounterFor(max, log + [Failure]))
  {
    assert (log + [Failure])[..|log|] == log;
    assert (log + [Failure])[..|log| + 1] == log + [Failure];
    assert (log + [Success])[|log|] == Success;
  }

  class ReconnectLimiter {
    const max: int
    var connectedOnce: bool
    var failures: nat
    var stopped: bool
    ghost var log: seq<Event>

    ghost predicate Valid()
      reads this
    {
      Counter(connectedOnce, failures) == CounterFor(max, log)
    }

    constructor (max: int)
      ensures Valid() && this.max == max && log == [] && !stopped
    {
      this.max, connectedOnce, failures, stopped, log := max, false, 0, false, [];
    }

    method Connected()
      requires Valid()
      modifies this
      ensures Valid() && log == old(log) + [Success] && stopped == old(stopped)
    {
      connectedOnce := true;
      failures := 0;
      log := log + [Success];
      CounterFollows(max, old(log));
    }

    // The locked half of failed.
    method CountFailure() returns (reached: bool)
      requires Valid()
      modifies this
      ensures Valid() && log == old(log) + [Failure] && stopped == old(stopped)
      ensures reached <==> Exhausted(max, log, |old(log)|)
    {
      log := log + [Failure];
      CounterFollows(max, old(log));
      if max <= 0 {
        return false;
      }
      if !connectedOnce {
        return false;
      }
      failures := failures + 1;
      reached := failures >= max;
    }

    // failed, undisturbed between its two halves.
    method Failed()
      requires Valid()
      modifies this
      ensures Valid() && log == old(log) + [Failure]
      ensures stopped <==> old(stopped) || Exhausted(max, log, |old(log)|)
    {
      var reached := CountFailure();
      if reached {
        stopped := true;
      }
    }
  }

  // ----- Any number of goroutines -----

  // A failed() between its unlock and its stop() is known by the position of its
  // locked section in the log.
  datatype State = State(counter: Counter, log: seq<Event>, pending: set<nat>, stops: seq<nat>)

  datatype Action =
    | Succeed
    | Fail
    | CallStop(section: nat)

  function Init(): State {
    State(Counter(false, 0), [], {}, [])
  }

  function Step(max: int, s: State, a: Action): State {
    match a
    case Succeed =>
      s.(counter := AfterSuccess(s.counter), log := s.log + [Success])
    case Fail =>
      var counter := AfterFailure(max, s.counter);
      s.(counter := counter, log := s.log + [Failure],
         pending := if Reached(max, counter) then s.pending + {|s.log|} else s.pending)
    case CallStop(i) =>
      if i !in s.pending then s else s.(pending := s.pending - {i}, stops := s.stops + [i])
  }

  function Exec(max: int, s: State, actions: seq<Action>): State {
    if actions == [] then s
    else Step(max, Exec(max, s, actions[..|actions| - 1]), actions[|actions| - 1])
  }

  // Each exhausted section has its stop call made or still to come, once, and no
  // stop call has any other origin.
  ghost predicate Inv(max: int, s: State) {
    && s.counter == CounterFor(max, s.log)
    && (forall i: nat :: i in s.pending || i in s.stops <==> Exhausted(max, s.log, i))
    && (forall i | i in s.stops :: i !in s.pending)
    && (forall i, j | 0 <= i < j < |s.stops| :: s.stops[i] != s.stops[j])
  }

  lemma ExhaustedIsLasting(max: int, log: seq<Event>, e: Event, i: nat)
    requires i < |log|
    ensures Exhausted(max, log + [e], i) <==> Exhausted(max, log, i)
  {
    assert (log + [e])[..i] == log[..i];
    assert (log + [e])[..i + 1] == log[..i + 1];
  }

  lemma StepKeepsInv(max: int, s: State, a: Action)
    requires Inv(max, s)
    ensures Inv(max, Step(max, s, a))
  {
    var s' := Step(max, s, a);
    CounterFollows(max, s.log);
    match a {
      case CallStop(_) =>
      case _ =>
        var e := if a.Succeed? then Success else Failure;
        forall i: nat
          ensures i in s'.pending || i in s'.stops <==> Exhausted(max, s'.log, i)
        {
          if i < |s.log| {
            ExhaustedIsLasting(max, s.log, e, i);
          }
        }
        assert |s.log| !in s.stops by {
          assert !Exhausted(max, s.log, |s.log|);
        }
    }
  }

  lemma {:induction false} Reachable(max: int, actions: seq<Action>)
    ensures Inv(max, Exec(max, Init(), actions))
  {
    if actions != [] {
      Reachable(max, actions[..|actions| - 1]);
      StepKeepsInv(max, Exec(max, Init(), actions[..|actions| - 1]), actions[|actions| - 1]);
    }
  }

  // After the first success the counter is the length of the current outage, in
  // every interleaving.
  lemma {:induction false} CounterIsTheOutage(max: int, actions: seq<Action>)
    requires 0 < max
    ensures var s := Exec(max, Init(), actions);
      && (s.counter.connectedOnce <==> EverUp(s.log))
      && (EverUp(s.log) ==> s.counter.failures == Trailing(s.log))
      && (forall i | 0 <= i < |s.log| && |s.log| - Trailing(s.log) <= i :: s.log[i].Failure?)
  {
    Reachable(max, actions);
    TrailingIsARun(Exec(max, Init(), actions).log);
  }

  // stop is called on behalf of exhausted sections only, at most once for each;
  // and once no failed() is between its unlock and its stop, for all of them,
  // even those a success overtook.
  lemma StopsAreTheExhaustedSections(max: int, actions: seq<Action>)
    ensures var s := Exec(max, Init(), actions);
      && (forall i | i in s.stops :: Exhausted(max, s.log, i))
      && (forall i, j | 0 <= i < j < |s.stops| :: s.stops[i] != s.stops[j])
      && (s.pending == {} ==> forall i: nat | Exhausted(max, s.log, i) :: i in s.stops)
  {
    Reachable(max, actions);
  }

  // A pending section always gets to its stop: nothing can take it away.
  lemma {:induction false} PendingStaysUntilItStops(max: int, s: State, actions: seq<Action>, i: nat)
    requires i in s.pending
    ensures i in Exec(max, s, actions).pending || i in Exec(max, s, actions).stops
    ensures i in Step(max, s, CallStop(i)).stops
  {
    if actions != [] {
      PendingStaysUntilItStops(max, s, actions[..|actions| - 1], i);
    }
  }

  // After its first n sections the client had been up and was max or more
  // failures into an outage.
  predicate LongOutage(max: int, log: seq<Event>, n: nat)
    requires n <= |log|
  {
    EverUp(log[..n]) && Trailing(log[..n]) >= max
  }

  lemma ExhaustedEndsALongOutage(max: int, log: seq<Event>, i: nat)
    requires 0 < max && i < |log|
    ensures Exhausted(max, log, i) <==> LongOutage(max, log, i + 1)
  {
    assert log[..i + 1][..i] == log[..i];
    assert log[..i + 1] == log[..i] + [log[i]];
  }

  // The client gives up at all exactly when some outage after a first success
  // reaches max attempts. So never before the first success, never with
  // max <= 0, and not for shorter outages however many there are.
  lemma GivesUpExactlyOnALongOutage(max: int, actions: seq<Action>)
    ensures var s := Exec(max, Init(), actions);
      s.stops != [] || s.pending != {} <==> 0 < max && exists n | 0 <= n <= |s.log| :: LongOutage(max, s.log, n)
  {
    Reachable(max, actions);
    var s := Exec(max, Init(), actions);
    if s.stops != [] || s.pending != {} {
      var i := if s.stops != [] then s.stops[0] else var j :| j in s.pending; j;
      assert Exhausted(max, s.log, i);
      ExhaustedEndsALongOutage(max, s.log, i);
    }
    if n :| 0 < max && 0 <= n <= |s.log| && LongOutage(max, s.log, n) {
      assert n > 0;
      ExhaustedEndsALongOutage(max, s.log, n - 1);
    }
  }
}
