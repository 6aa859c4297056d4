/**
 * The sliding-window power-button detector of `PowerButtonReceiver`: every screen-on or
 * screen-off broadcast is a press; five presses within three seconds trigger an SOS.
 * The wall clock is the `currentTime` parameter.
 */
module PressReceiver {
  import opened Intents

  const DETECTION_WINDOW_MS := 3000
  const PRESS_COUNT_THRESHOLD := 5

  /** `removeAll { it < cutoff }`: the timestamps at or after `cutoff`, in their order. */
  function Prune(ts: seq<int>, cutoff: int): (r: seq<int>)
    ensures |r| <= |ts|
    ensures forall t :: t in r <==> t in ts && t >= cutoff
  {
    if ts == [] then []
    else
      var kept := Prune(ts[..|ts| - 1], cutoff);
      if ts[|ts| - 1] < cutoff then kept else kept + [ts[|ts| - 1]]
  }

  /** `idx` lists, in increasing order, positions of `s` whose elements spell out `sub`. */
  ghost predicate Embeds(sub: seq<int>, s: seq<int>, idx: seq<nat>) {
    && |idx| == |sub|
    && (forall k :: 0 <= k < |idx| ==> idx[k] < |s| && sub[k] == s[idx[k]])
    && (forall k, l :: 0 <= k < l < |idx| ==> idx[k] < idx[l])
  }

  /**
   * Pruning keeps the surviving timestamps in their original relative order: the result
   * is `ts` read at the increasing positions `idx`, which are exactly the positions whose
   * timestamp is not older than the cutoff.
   */
  lemma {:induction false} PruneKeepsOrder(ts: seq<int>, cutoff: int) returns (idx: seq<nat>)
    ensures Embeds(Prune(ts, cutoff), ts, idx)
    ensures forall i :: 0 <= i < |ts| ==> (i in idx <==> ts[i] >= cutoff)
  {
    if ts == [] {
      idx := [];
    } else {
      var init, last := ts[..|ts| - 1], ts[|ts| - 1];
      var prev := PruneKeepsOrder(init, cutoff);
      var sub := Prune(init, cutoff);
      assert forall j :: 0 <= j < |init| ==> init[j] == ts[j];
      assert |ts| - 1 !in prev;
      if last >= cutoff {
        idx := prev + [|ts| - 1];
        assert Prune(ts, cutoff) == sub + [last];
      } else {
        idx := prev;
        assert Prune(ts, cutoff) == sub;
      }
    }
  }

  /** What one `onReceive` leaves in `pressTimestamps`, and whether it triggered an SOS. */
  datatype Outcome = Outcome(timestamps: seq<int>, triggered: bool)

  function Receive(ts: seq<int>, action: IntentAction, currentTime: int): Outcome {
    if !IsScreenEvent(action) then Outcome(ts, false)
    else
      var kept := Prune(ts + [currentTime], currentTime - DETECTION_WINDOW_MS);
      if |kept| >= PRESS_COUNT_THRESHOLD then Outcome([], true) else Outcome(kept, false)
  }

  /** Any other intent leaves the list alone and never triggers. */
  lemma OtherIntentIgnored(ts: seq<int>, currentTime: int)
    ensures Receive(ts, OtherAction, currentTime) == Outcome(ts, false)
  {
  }

  /**
   * A screen event is appended before pruning; it triggers iff at least five timestamps
   * survive, and then the list is emptied; otherwise the list is the survivors followed
   * by the new timestamp. Whatever the list held before, at most four remain.
   */
  lemma {:induction false} ScreenEventStep(ts: seq<int>, action: IntentAction, currentTime: int)
    requires IsScreenEvent(action)
    ensures var o := Receive(ts, action, currentTime);
      && (o.triggered <==> |Prune(ts, currentTime - DETECTION_WINDOW_MS)| + 1 >= PRESS_COUNT_THRESHOLD)
      && (o.triggered ==> o.timestamps == [])
      && (!o.triggered ==> o.timestamps == Prune(ts, currentTime - DETECTION_WINDOW_MS) + [currentTime])
      && |o.timestamps| < PRESS_COUNT_THRESHOLD
  {
    assert (ts + [currentTime])[..|ts|] == ts;
  }

  /**
   * After a screen event every stored timestamp is within the window; one exactly
   * `DETECTION_WINDOW_MS` old survives (the test is a strict `<`), one a millisecond older does not.
   */
  lemma WindowBoundary(ts: seq<int>, action: IntentAction, currentTime: int)
    requires IsScreenEvent(action)
    ensures var o := Receive(ts, action, currentTime);
      && (forall t :: t in o.timestamps ==> t >= currentTime - DETECTION_WINDOW_MS)
      && (currentTime - DETECTION_WINDOW_MS in ts && !o.triggered ==> currentTime - DETECTION_WINDOW_MS in o.timestamps)
      && currentTime - DETECTION_WINDOW_MS - 1 !in o.timestamps
  {
  }

  /** The list after a sequence of broadcasts, and for each one whether it triggered. */
  datatype Trace = Trace(timestamps: seq<int>, fired: seq<bool>)

  function Run(ts: seq<int>, events: seq<Event>): (t: Trace)
    ensures |t.fired| == |events|
  {
    if events == [] then Trace(ts, [])
    else
      var prev := Run(ts, events[..|events| - 1]);
      var e := events[|events| - 1];
      var o := Receive(prev.timestamps, e.action, e.time);
      Trace(o.timestamps, prev.fired + [o.triggered])
  }

  /** Running `a` then `b` is running `a + b`. */
  lemma {:induction false} RunSplit(ts: seq<int>, a: seq<Event>, b: seq<Event>)
    ensures var mid := Run(ts, a);
      Run(ts, a + b) == Trace(Run(mid.timestamps, b).timestamps, mid.fired + Run(mid.timestamps, b).fired)
  {
    if b == [] {
      assert a + b == a;
    } else {
      var init := b[..|b| - 1];
      assert (a + b)[..|a + b| - 1] == a + init;
      assert (a + b)[|a + b| - 1] == b[|b| - 1];
      RunSplit(ts, a, init);
    }
  }

  /** Without a trigger the list grows by at most one per screen event. */
  lemma {:induction false} NoTriggerGrowth(ts: seq<int>, events: seq<Event>)
    requires true !in Run(ts, events).fired
    ensures |Run(ts, events).timestamps| <= |ts| + ScreenEvents(events)
  {
    if events != [] {
      var init := events[..|events| - 1];
      assert Run(ts, events).fired == Run(ts, init).fired + [Run(ts, events).fired[|events| - 1]];
      NoTriggerGrowth(ts, init);
    }
  }

  /** A trigger needs at least five presses, counting those already in the list. */
  lemma {:induction false} TriggerNeedsPresses(ts: seq<int>, events: seq<Event>)
    requires true in Run(ts, events).fired
    ensures |ts| + ScreenEvents(events) >= PRESS_COUNT_THRESHOLD
  {
    var init := events[..|events| - 1];
    var prev := Run(ts, init);
    assert Run(ts, events).fired == prev.fired + [Run(ts, events).fired[|events| - 1]];
    if true in prev.fired {
      TriggerNeedsPresses(ts, init);
    } else {
      NoTriggerGrowth(ts, init);
      var e := events[|events| - 1];
      assert IsScreenEvent(e.action);
      assert (prev.timestamps + [e.time])[..|prev.timestamps|] == prev.timestamps;
    }
  }

  /** Starting from the empty list, fewer than five screen events never trigger. */
  lemma FewPressesNeverTrigger(events: seq<Event>)
    requires ScreenEvents(events) < PRESS_COUNT_THRESHOLD
    ensures true !in Run([], events).fired
  {
    if true in Run([], events).fired {
      TriggerNeedsPresses([], events);
    }
  }

  /** The screen events of a run at or after `cutoff`: the presses a window starting there sees. */
  function RecentPresses(events: seq<Event>, cutoff: int): (n: nat)
    ensures n <= ScreenEvents(events)
  {
    if events == [] then 0
    else
      var e := events[|events| - 1];
      RecentPresses(events[..|events| - 1], cutoff) + (if IsScreenEvent(e.action) && e.time >= cutoff then 1 else 0)
  }

  /** Appending one timestamp adds it to the pruned list iff it is not older than the cutoff. */
  lemma PruneSnoc(ts: seq<int>, t: int, cutoff: int)
    ensures Prune(ts + [t], cutoff) == if t < cutoff then Prune(ts, cutoff) else Prune(ts, cutoff) + [t]
  {
    assert (ts + [t])[..|ts|] == ts;
  }

  /** Pruning first at another cutoff never leaves more entries at or after `cutoff`. */
  lemma {:induction false} PruneTwice(ts: seq<int>, earlier: int, cutoff: int)
    ensures |Prune(Prune(ts, earlier), cutoff)| <= |Prune(ts, cutoff)|
  {
    if ts != [] {
      var init, last := ts[..|ts| - 1], ts[|ts| - 1];
      assert ts == init + [last];
      PruneTwice(init, earlier, cutoff);
      PruneSnoc(init, last, earlier);
      PruneSnoc(init, last, cutoff);
      PruneSnoc(Prune(init, earlier), last, cutoff);
    }
  }

  /**
   * Every timestamp the receiver holds at or after `cutoff` was already there or is the time
   * of a distinct screen event of the run at or after `cutoff`.
   */
  lemma {:induction false} RunPressBound(ts: seq<int>, events: seq<Event>, cutoff: int)
    ensures |Prune(Run(ts, events).timestamps, cutoff)| <= |Prune(ts, cutoff)| + RecentPresses(events, cutoff)
  {
    if events != [] {
      var init, e := events[..|events| - 1], events[|events| - 1];
      var l := Run(ts, init).timestamps;
      RunPressBound(ts, init, cutoff);
      if IsScreenEvent(e.action) {
        PruneTwice(l + [e.time], e.time - DETECTION_WINDOW_MS, cutoff);
        PruneSnoc(l, e.time, cutoff);
      }
    }
  }

  /**
   * A trigger at time T needs five screen events inside its window [T - 3000, T], counting
   * the timestamps already pending in that window.
   */
  lemma TriggerNeedsRecentPresses(ts: seq<int>, events: seq<Event>)
    requires events != [] && Run(ts, events).fired[|events| - 1]
    ensures var cutoff := events[|events| - 1].time - DETECTION_WINDOW_MS;
      |Prune(ts, cutoff)| + RecentPresses(events, cutoff) >= PRESS_COUNT_THRESHOLD
  {
    var init, e := events[..|events| - 1], events[|events| - 1];
    var cutoff := e.time - DETECTION_WINDOW_MS;
    var l := Run(ts, init).timestamps;
    RunPressBound(ts, init, cutoff);
    PruneSnoc(l, e.time, cutoff);
  }

  /** The triggers of a run, split after its first `n` broadcasts. */
  lemma SplitAt(ts: seq<int>, events: seq<Event>, n: nat)
    requires n <= |events|
    ensures Run(ts, events).fired
         == Run(ts, events[..n]).fired + Run(Run(ts, events[..n]).timestamps, events[n..]).fired
  {
    assert events == events[..n] + events[n..];
    RunSplit(ts, events[..n], events[n..]);
  }

  /** A run whose last broadcast triggered ends with an empty list. */
  lemma TriggerClears(ts: seq<int>, events: seq<Event>)
    requires events != [] && Run(ts, events).fired[|events| - 1]
    ensures Run(ts, events).timestamps == []
  {
  }

  /** After the trigger at `i` the list is empty, so the trigger at `j` is one of a run from `[]`. */
  lemma TriggerRestarts(ts: seq<int>, events: seq<Event>, i: nat, j: nat)
    requires i < j < |events|
    requires Run(ts, events).fired[i] && Run(ts, events).fired[j]
    ensures Run([], events[i + 1..j + 1]).fired[j - i - 1]
  {
    var a, rest := events[..i + 1], events[i + 1..];
    var mid := Run(ts, a);
    var f := Run(ts, events).fired;
    assert f == mid.fired + Run(mid.timestamps, rest).fired by {
      SplitAt(ts, events, i + 1);
    }
    assert mid.fired[i] && Run(mid.timestamps, rest).fired[j - i - 1];
    TriggerClears(ts, a);
    var b := rest[..j - i];
    assert Run([], rest).fired == Run([], b).fired + Run(Run([], b).timestamps, rest[j - i..]).fired by {
      SplitAt([], rest, j - i);
    }
    assert b == events[i + 1..j + 1];
  }

  /**
   * Between two triggers lie at least five further screen events, all inside the second
   * trigger's window: after a trigger the list starts empty again, so one cluster fires once.
   */
  lemma TriggersAreSpaced(ts: seq<int>, events: seq<Event>, i: nat, j: nat)
    requires i < j < |events|
    requires Run(ts, events).fired[i] && Run(ts, events).fired[j]
    ensures RecentPresses(events[i + 1..j + 1], events[j].time - DETECTION_WINDOW_MS) >= PRESS_COUNT_THRESHOLD
    ensures ScreenEvents(events[i + 1..j + 1]) >= PRESS_COUNT_THRESHOLD
  {
    var b := events[i + 1..j + 1];
    TriggerRestarts(ts, events, i, j);
    assert b[|b| - 1] == events[j];
    TriggerNeedsRecentPresses([], b);
  }

  /** Pruning removes nothing when no timestamp is older than the cutoff. */
  lemma {:induction false} PruneNothingStale(ts: seq<int>, cutoff: int)
    requires forall i :: 0 <= i < |ts| ==> ts[i] >= cutoff
    ensures Prune(ts, cutoff) == ts
  {
    if ts != [] {
      PruneNothingStale(ts[..|ts| - 1], cutoff);
    }
  }

  /** One more press inside the window, with the list still short: it is simply appended. */
  lemma PressAppended(ts: seq<int>, action: IntentAction, currentTime: int)
    requires IsScreenEvent(action)
    requires forall i :: 0 <= i < |ts| ==> ts[i] >= currentTime - DETECTION_WINDOW_MS
    requires |ts| + 1 < PRESS_COUNT_THRESHOLD
    ensures Receive(ts, action, currentTime) == Outcome(ts + [currentTime], false)
  {
    PruneNothingStale(ts + [currentTime], currentTime - DETECTION_WINDOW_MS);
  }

  /** One more broadcast at the end of a run. */
  lemma RunSnoc(ts: seq<int>, events: seq<Event>, e: Event)
    ensures var prev := Run(ts, events);
      var o := Receive(prev.timestamps, e.action, e.time);
      Run(ts, events + [e]) == Trace(o.timestamps, prev.fired + [o.triggered])
  {
    assert (events + [e])[..|events|] == events;
  }

  /** The times of a run's broadcasts. */
  function Times(events: seq<Event>): (r: seq<int>)
    ensures |r| == |events|
  {
    seq(|events|, i requires 0 <= i < |events| => events[i].time)
  }

  /** Screen events in time order, all within one detection window of each other. */
  ghost predicate Cluster(events: seq<Event>) {
    && (forall i :: 0 <= i < |events| ==> IsScreenEvent(events[i].action))
    && (forall i, j :: 0 <= i <= j < |events| ==>
          events[i].time <= events[j].time <= events[i].time + DETECTION_WINDOW_MS)
  }

  /** Up to four clustered presses from an empty list are all kept, and none fires. */
  lemma {:induction false} ClusterPending(events: seq<Event>)
    requires Cluster(events) && |events| < PRESS_COUNT_THRESHOLD
    ensures Run([], events).timestamps == Times(events)
    ensures true !in Run([], events).fired
  {
    if events != [] {
      var init, e := events[..|events| - 1], events[|events| - 1];
      assert events == init + [e];
      ClusterPending(init);
      RunSnoc([], init, e);
      PressAppended(Times(init), e.action, e.time);
      assert Times(init) + [e.time] == Times(events);
    }
  }

  /** A press with four in-window timestamps pending fires and empties the list. */
  lemma FifthPressFires(ts: seq<int>, action: IntentAction, currentTime: int)
    requires IsScreenEvent(action) && |ts| == PRESS_COUNT_THRESHOLD - 1
    requires forall k :: 0 <= k < |ts| ==> ts[k] >= currentTime - DETECTION_WINDOW_MS
    ensures Receive(ts, action, currentTime) == Outcome([], true)
  {
    PruneNothingStale(ts + [currentTime], currentTime - DETECTION_WINDOW_MS);
  }

  lemma AllFalse(f: seq<bool>)
    requires |f| == 4 && true !in f
    ensures f == [false, false, false, false]
  {
    assert !f[0] && !f[1] && !f[2] && !f[3];
  }

  /** Five clustered presses from an empty list fire exactly once, on the fifth. */
  lemma ClusterFiresOnFifth(events: seq<Event>)
    requires Cluster(events) && |events| == PRESS_COUNT_THRESHOLD
    ensures Run([], events) == Trace([], [false, false, false, false, true])
  {
    var init, e := events[..|events| - 1], events[|events| - 1];
    assert events == init + [e];
    ClusterPending(init);
    var ts := Times(init);
    assert forall k :: 0 <= k < |ts| ==> ts[k] >= e.time - DETECTION_WINDOW_MS;
    FifthPressFires(ts, e.action, e.time);
    RunSnoc([], init, e);
    AllFalse(Run([], init).fired);
  }

  /** Five presses at 0, 500, 1000, 1500 and 2000 ms fire exactly once, at 2000 ms. */
  lemma FivePressesExample()
    ensures Run([], [Event(ScreenOff, 0), Event(ScreenOn, 500), Event(ScreenOff, 1000),
                     Event(ScreenOn, 1500), Event(ScreenOff, 2000)]).fired
         == [false, false, false, false, true]
  {
    ClusterFiresOnFifth([Event(ScreenOff, 0), Event(ScreenOn, 500), Event(ScreenOff, 1000),
                         Event(ScreenOn, 1500), Event(ScreenOff, 2000)]);
  }

  /** The receiver object: `pressTimestamps` survives from one broadcast to the next. */
  class PowerButtonReceiver {
    var pressTimestamps: seq<int>

    /** Between broadcasts fewer than `PRESS_COUNT_THRESHOLD` presses are pending. */
    ghost predicate Valid()
      reads this
    {
      |pressTimestamps| < PRESS_COUNT_THRESHOLD
    }

    constructor ()
      ensures Valid() && pressTimestamps == []
    {
      pressTimestamps := [];
    }

    /** `onReceive`: returns whether `sosManager.triggerSOS` is launched. */
    method OnReceive(action: IntentAction, currentTime: int) returns (triggered: bool)
      requires Valid()
      modifies this
      ensures Valid()
      ensures Outcome(pressTimestamps, triggered) == Receive(old(pressTimestamps), action, currentTime)
    {
      triggered := false;
      if IsScreenEvent(action) {
        pressTimestamps := pressTimestamps + [currentTime];
        var cutoffTime := currentTime - DETECTION_WINDOW_MS;
        var kept: seq<int> := [];
        var i := 0;
        while i < |pressTimestamps|
          invariant 0 <= i <= |pressTimestamps|
          invariant kept == Prune(pressTimestamps[..i], cutoffTime)
        {
          assert pressTimestamps[..i + 1][..i] == pressTimestamps[..i];
          if pressTimestamps[i] >= cutoffTime {
            kept := kept + [pressTimestamps[i]];
          }
          i := i + 1;
        }
        assert pressTimestamps[..i] == pressTimestamps;
        pressTimestamps := kept;
        if |pressTimestamps| >= PRESS_COUNT_THRESHOLD {
          pressTimestamps := [];
          triggered := true;
        }
      }
    }
  }
}
