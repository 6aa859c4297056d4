/**
 * `PowerButtonService`: the gap-reset press counter of its screen on/off receiver, and the
 * chain of callbacks in `triggerSos` (last known location, `sendSos`, emergency
 * notification, app launch), with each callback's outcome as an input.
 */
module ButtonService {
  import opened Wrappers
  import opened Models
  import opened Intents
  import opened Repository

  /** Presses at most this far apart (inclusive) belong to one cluster. */
  const PRESS_GAP_MS := 5000
  const SOS_PRESS_COUNT := 5

  /** The receiver's fields `count` and `lastTime`. */
  datatype Counter = Counter(count: int, lastTime: int)

  const InitialCounter := Counter(0, 0)

  /** Between broadcasts the count is below the trigger count. */
  predicate CountInRange(c: Counter) {
    0 <= c.count < SOS_PRESS_COUNT
  }

  /** The counter after one broadcast, and whether `count == 5` was reached. */
  datatype Observation = Observation(counter: Counter, matched: bool)

  function Observe(c: Counter, action: IntentAction, now: int): Observation {
    if !IsScreenEvent(action) then Observation(c, false)
    else
      var count := if now - c.lastTime <= PRESS_GAP_MS then c.count + 1 else 1;
      if count == SOS_PRESS_COUNT then Observation(Counter(0, now), true)
      else Observation(Counter(count, now), false)
  }

  /**
   * One screen event: `lastTime` becomes `now`; within the gap (5000 ms inclusive) the count
   * goes up by one, otherwise it restarts at 1; reaching 5 matches and resets it to 0.
   * The count stays in 0..4 between events.
   */
  lemma ObserveScreenEvent(c: Counter, action: IntentAction, now: int)
    requires CountInRange(c) && IsScreenEvent(action)
    ensures var o := Observe(c, action, now);
      && o.counter.lastTime == now
      && (o.matched <==> now - c.lastTime <= PRESS_GAP_MS && c.count == SOS_PRESS_COUNT - 1)
      && (o.matched ==> o.counter.count == 0)
      && (!o.matched && now - c.lastTime <= PRESS_GAP_MS ==> o.counter.count == c.count + 1)
      && (now - c.lastTime > PRESS_GAP_MS ==> o.counter.count == 1)
      && CountInRange(o.counter)
  {
  }

  /** Other intents change neither `count` nor `lastTime`. */
  lemma OtherIntentIgnored(c: Counter, now: int)
    ensures Observe(c, OtherAction, now) == Observation(c, false)
  {
  }

  /** A press exactly 5000 ms after the last still counts; one a millisecond later restarts the count. */
  lemma GapBoundary(count: int, lastTime: int)
    requires 0 <= count < SOS_PRESS_COUNT - 1
    ensures Observe(Counter(count, lastTime), ScreenOn, lastTime + PRESS_GAP_MS).counter.count == count + 1
    ensures Observe(Counter(count, lastTime), ScreenOn, lastTime + PRESS_GAP_MS + 1).counter.count == 1
  {
  }

  /** The counter after a sequence of broadcasts, and for each one whether it matched. */
  datatype Trace = Trace(counter: Counter, fired: seq<bool>)

  function Run(c: Counter, events: seq<Event>): (t: Trace)
    ensures |t.fired| == |events|
  {
    if events == [] then Trace(c, [])
    else
      var prev := Run(c, events[..|events| - 1]);
      var e := events[|events| - 1];
      var o := Observe(prev.counter, e.action, e.time);
      Trace(o.counter, prev.fired + [o.matched])
  }

  lemma {:induction false} RunKeepsCountInRange(c: Counter, events: seq<Event>)
    requires CountInRange(c)
    ensures CountInRange(Run(c, events).counter)
  {
    if events != [] {
      RunKeepsCountInRange(c, events[..|events| - 1]);
    }
  }

  /** Running `a` then `b` is running `a + b`. */
  lemma {:induction false} RunSplit(c: Counter, a: seq<Event>, b: seq<Event>)
    ensures var mid := Run(c, a);
      Run(c, a + b) == Trace(Run(mid.counter, b).counter, mid.fired + Run(mid.counter, b).fired)
  {
    if b == [] {
      assert a + b == a;
    } else {
      var init := b[..|b| - 1];
      assert (a + b)[..|a + b| - 1] == a + init;
      assert (a + b)[|a + b| - 1] == b[|b| - 1];
      RunSplit(c, a, init);
    }
  }

  /** Without a match the count grows by at most one per screen event. */
  lemma {:induction false} NoMatchGrowth(c: Counter, events: seq<Event>)
    requires CountInRange(c)
    requires true !in Run(c, events).fired
    ensures Run(c, events).counter.count <= c.count + ScreenEvents(events)
  {
    if events != [] {
      var init := events[..|events| - 1];
      assert Run(c, events).fired == Run(c, init).fired + [Run(c, events).fired[|events| - 1]];
      NoMatchGrowth(c, init);
    }
  }

  /** A match needs five presses, counting those already counted. */
  lemma {:induction false} MatchNeedsPresses(c: Counter, events: seq<Event>)
    requires CountInRange(c)
    requires true in Run(c, events).fired
    ensures c.count + ScreenEvents(events) >= SOS_PRESS_COUNT
  {
    var init := events[..|events| - 1];
    var prev := Run(c, init);
    assert Run(c, events).fired == prev.fired + [Run(c, events).fired[|events| - 1]];
    if true in prev.fired {
      MatchNeedsPresses(c, init);
    } else {
      NoMatchGrowth(c, init);
    }
  }

  /** A run whose last broadcast matched ends with the count reset to 0. */
  lemma MatchResets(c: Counter, events: seq<Event>)
    requires events != [] && Run(c, events).fired[|events| - 1]
    ensures Run(c, events).counter.count == 0
  {
  }

  /** The matches of a run, split after its first `n` broadcasts. */
  lemma SplitAt(c: Counter, events: seq<Event>, n: nat)
    requires n <= |events|
    ensures Run(c, events).fired
         == Run(c, events[..n]).fired + Run(Run(c, events[..n]).counter, events[n..]).fired
  {
    assert events == events[..n] + events[n..];
    RunSplit(c, events[..n], events[n..]);
  }

  /** Between two matches lie at least five further screen events: one cluster fires once. */
  lemma MatchesAreSpaced(c: Counter, events: seq<Event>, i: nat, j: nat)
    requires CountInRange(c)
    requires i < j < |events|
    requires Run(c, events).fired[i] && Run(c, events).fired[j]
    ensures ScreenEvents(events[i + 1..j + 1]) >= SOS_PRESS_COUNT
  {
    var a, rest := events[..i + 1], events[i + 1..];
    var mid := Run(c, a).counter;
    assert Run(mid, rest).fired[j - i - 1] && mid.count == 0 by {
      SplitAt(c, events, i + 1);
      MatchResets(c, a);
    }
    var b := rest[..j - i];
    assert Run(mid, b).fired[j - i - 1] by {
      SplitAt(mid, rest, j - i);
    }
    assert b == events[i + 1..j + 1];
    MatchNeedsPresses(mid, b);
  }

  /** One more broadcast at the end of a run. */
  lemma RunSnoc(c: Counter, events: seq<Event>, e: Event)
    ensures var prev := Run(c, events);
      var o := Observe(prev.counter, e.action, e.time);
      Run(c, events + [e]) == Trace(o.counter, prev.fired + [o.matched])
  {
    assert (events + [e])[..|events|] == events;
  }

  /** Screen events, each at most `PRESS_GAP_MS` after the one before it, the first after `start`. */
  ghost predicate GapChain(start: int, events: seq<Event>) {
    && (forall i :: 0 <= i < |events| ==> IsScreenEvent(events[i].action))
    && (events != [] ==> events[0].time - start <= PRESS_GAP_MS)
    && (forall i :: 0 < i < |events| ==> events[i].time - events[i - 1].time <= PRESS_GAP_MS)
  }

  /** A chain of presses too short to reach five only counts up, one per press. */
  lemma {:induction false} ChainCounts(c: Counter, events: seq<Event>)
    requires CountInRange(c) && GapChain(c.lastTime, events)
    requires c.count + |events| < SOS_PRESS_COUNT
    ensures true !in Run(c, events).fired
    ensures Run(c, events).counter
         == Counter(c.count + |events|, if events == [] then c.lastTime else events[|events| - 1].time)
  {
    if events != [] {
      var init, e := events[..|events| - 1], events[|events| - 1];
      assert events == init + [e];
      assert GapChain(c.lastTime, init);
      ChainCounts(c, init);
      RunSnoc(c, init, e);
    }
  }

  /**
   * A chain of presses that brings the count to five matches exactly once, on its last press,
   * and leaves the count at 0; from a count of 0 that is the fifth of five presses.
   */
  lemma ClusterFiresOnFifth(c: Counter, events: seq<Event>)
    requires CountInRange(c) && GapChain(c.lastTime, events)
    requires c.count + |events| == SOS_PRESS_COUNT
    ensures Run(c, events).counter == Counter(0, events[|events| - 1].time)
    ensures forall i :: 0 <= i < |events| ==> (Run(c, events).fired[i] <==> i == |events| - 1)
    ensures c.count == 0 ==> Run(c, events).fired == [false, false, false, false, true]
  {
    var init, e := events[..|events| - 1], events[|events| - 1];
    assert events == init + [e];
    assert GapChain(c.lastTime, init);
    ChainCounts(c, init);
    RunSnoc(c, init, e);
    var f := Run(c, events).fired;
    assert f == Run(c, init).fired + [true];
    if c.count == 0 {
      assert !f[0] && !f[1] && !f[2] && !f[3] && f[4];
    }
  }

  /**
   * From the initial counter, presses at 0, 500, 1000, 1500 and 2000 ms match exactly once,
   * at 2000 ms (the first press counts as 1 because 0 - lastTime is within the gap).
   */
  lemma FivePressesExample()
    ensures Run(InitialCounter, [Event(ScreenOff, 0), Event(ScreenOn, 500), Event(ScreenOff, 1000),
                                 Event(ScreenOn, 1500), Event(ScreenOff, 2000)])
         == Trace(Counter(0, 2000), [false, false, false, false, true])
  {
    var e1 := [Event(ScreenOff, 0)];
    var e2 := e1 + [Event(ScreenOn, 500)];
    var e3 := e2 + [Event(ScreenOff, 1000)];
    var e4 := e3 + [Event(ScreenOn, 1500)];
    var e5 := e4 + [Event(ScreenOff, 2000)];
    assert Run(InitialCounter, e1) == Trace(Counter(1, 0), [false]) by {
      RunSnoc(InitialCounter, [], Event(ScreenOff, 0));
    }
    assert Run(InitialCounter, e2) == Trace(Counter(2, 500), [false, false]) by {
      RunSnoc(InitialCounter, e1, Event(ScreenOn, 500));
    }
    assert Run(InitialCounter, e3) == Trace(Counter(3, 1000), [false, false, false]) by {
      RunSnoc(InitialCounter, e2, Event(ScreenOff, 1000));
    }
    assert Run(InitialCounter, e4) == Trace(Counter(4, 1500), [false, false, false, false]) by {
      RunSnoc(InitialCounter, e3, Event(ScreenOn, 1500));
    }
    assert Run(InitialCounter, e5) == Trace(Counter(0, 2000), [false, false, false, false, true]) by {
      RunSnoc(InitialCounter, e4, Event(ScreenOff, 2000));
      assert Observe(Counter(4, 1500), ScreenOff, 2000) == Observation(Counter(0, 2000), true);
    }
    assert e5 == [Event(ScreenOff, 0), Event(ScreenOn, 500), Event(ScreenOff, 1000),
                  Event(ScreenOn, 1500), Event(ScreenOff, 2000)];
  }

  /** `hasLocationPermissions()`: a placeholder that always grants. */
  function HasLocationPermissions(): (granted: bool)
    ensures granted
  {
    true
  }

  /** What `fusedClient.lastLocation` delivers. */
  datatype LastLocation =
    | LocationUnavailable   // the failure listener ran, or a SecurityException was thrown
    | LocationNull          // the success listener got `null`
    | LocationFix(latitude: real, longitude: real)

  /** The visible effects of one `triggerSos`. */
  datatype SosAttempt = SosAttempt(
    request: Option<SosRequest>,  // the request handed to the HTTP client by `sendSos`
    notified: bool,               // `showSosTriggeredNotification()` ran
    appLaunched: bool)            // `startActivity` was scheduled

  /**
   * `triggerSos`: with a location, `sendSos` runs; if it returns normally (including its silent
   * early return when no credentials are stored) the emergency notification is shown, and the
   * app is launched when the keyguard is not locked. A throwing network call is only logged.
   */
  function TriggerSos(location: LastLocation, credentials: Store, networkThrows: bool, keyguardLocked: bool): (a: SosAttempt)
    ensures a.request.Some? ==> location.LocationFix?
    ensures location.LocationFix? ==> a.request == SosRequestFor(credentials, location.latitude, location.longitude)
    ensures a.notified <==> location.LocationFix? && (a.request.None? || !networkThrows)
    ensures a.appLaunched <==> a.notified && !keyguardLocked
  {
    match location
    case LocationFix(latitude, longitude) =>
      var request := SosRequestFor(credentials, latitude, longitude);
      if request.Some? && networkThrows then SosAttempt(request, false, false)
      else SosAttempt(request, true, !keyguardLocked)
    case _ => SosAttempt(None, false, false)
  }

  /** A null or failed location only logs: nothing is sent, shown or launched. */
  lemma NoLocationNoEffect(location: LastLocation, credentials: Store, networkThrows: bool, keyguardLocked: bool)
    requires !location.LocationFix?
    ensures TriggerSos(location, credentials, networkThrows, keyguardLocked) == SosAttempt(None, false, false)
  {
  }

  /**
   * With no stored session `sendSos` returns early without a request, yet the notification
   * announcing that emergency services were notified is still shown.
   */
  lemma NotifiedWithoutSession(latitude: real, longitude: real, networkThrows: bool)
    ensures TriggerSos(LocationFix(latitude, longitude), map[], networkThrows, false)
         == SosAttempt(None, true, true)
  {
  }

  class PowerButtonService {
    var count: int
    var lastTime: int

    ghost predicate Valid()
      reads this
    {
      CountInRange(Counter(count, lastTime))
    }

    constructor ()
      ensures Valid() && count == 0 && lastTime == 0
    {
      count := 0;
      lastTime := 0;
    }

    /** The receiver's `onReceive`: returns whether `triggerSos()` is called. */
    method OnReceive(action: IntentAction, now: int) returns (sosTriggered: bool)
      requires Valid()
      modifies this
      ensures Valid()
      ensures var o := Observe(old(Counter(count, lastTime)), action, now);
        Counter(count, lastTime) == o.counter && sosTriggered == (o.matched && HasLocationPermissions())
    {
      sosTriggered := false;
      if IsScreenEvent(action) {
        if now - lastTime <= PRESS_GAP_MS {
          count := count + 1;
        } else {
          count := 1;
        }
        lastTime := now;
        if count == SOS_PRESS_COUNT {
          if HasLocationPermissions() {
            sosTriggered := true;
          }
          count := 0;
        }
      }
    }
  }
}
