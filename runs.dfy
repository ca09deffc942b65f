/** Sequences of scheduled cycles: what the edge-triggered alert guarantees
    over time rather than in one cycle. */
module AlertRuns {
  import opened Wrappers
  import opened SwitchBot
  import opened AlertState

  /** The inputs of one cycle. */
  datatype Tick = Tick(reading: Result<DeviceStatus, ApiError>, delivered: bool, now: string)

  datatype Trace = Trace(alert: Option<AlertRecord>, actions: seq<Action>)

  /** Cycles run one after another, each starting from the state the
      previous one left. */
  function Run(alert: Option<AlertRecord>, ticks: seq<Tick>): (r: Trace)
    ensures |r.actions| == |ticks|
    decreases |ticks|
  {
    if ticks == [] then Trace(alert, [])
    else
      var o := Cycle(alert, ticks[0].reading, ticks[0].delivered, ticks[0].now);
      var rest := Run(o.alert, ticks[1..]);
      Trace(rest.alert, [o.action] + rest.actions)
  }

  /** Messages delivered. */
  function Notifications(actions: seq<Action>): nat
  {
    if actions == [] then 0
    else (if actions[0].Notified? then 1 else 0) + Notifications(actions[1..])
  }

  /** Processed readings below threshold. */
  function Recoveries(ticks: seq<Tick>): nat
  {
    if ticks == [] then 0
    else (if IsBelow(ticks[0]) then 1 else 0) + Recoveries(ticks[1..])
  }

  predicate IsBelow(t: Tick) { t.reading.Success? && t.reading.value.co2 < CO2_THRESHOLD }

  predicate IsAbove(t: Tick) { t.reading.Success? && t.reading.value.co2 >= CO2_THRESHOLD }

  /** The CO2 value of the last processed reading, if any. */
  function LastReading(ticks: seq<Tick>): Option<int>
  {
    if ticks == [] then None
    else if ticks[|ticks| - 1].reading.Success? then Some(ticks[|ticks| - 1].reading.value.co2)
    else LastReading(ticks[..|ticks| - 1])
  }

  function Indicator(b: bool): nat { if b then 1 else 0 }

  /** Running one prefix and then the rest is running the whole. */
  lemma {:induction false} RunAppend(alert: Option<AlertRecord>, ticks: seq<Tick>, more: seq<Tick>)
    ensures Run(alert, ticks + more).alert == Run(Run(alert, ticks).alert, more).alert
    ensures Run(alert, ticks + more).actions == Run(alert, ticks).actions + Run(Run(alert, ticks).alert, more).actions
    decreases |ticks|
  {
    if ticks != [] {
      var o := Cycle(alert, ticks[0].reading, ticks[0].delivered, ticks[0].now);
      assert (ticks + more)[1..] == ticks[1..] + more;
      RunAppend(o.alert, ticks[1..], more);
    } else {
      assert ticks + more == more;
    }
  }

  /** While every processed reading is at or above threshold, the cycles
      deliver one message in total if they start inactive and some delivery
      succeeds, and none otherwise: after the first success the alert is
      suppressed, and a failed delivery is retried by the next cycle. */
  lemma {:induction false} OneNotificationPerCrossing(alert: Option<AlertRecord>, ticks: seq<Tick>)
    requires forall i :: 0 <= i < |ticks| ==> !IsBelow(ticks[i])
    ensures Notifications(Run(alert, ticks).actions) ==
              Indicator(alert.None? && exists i :: 0 <= i < |ticks| && IsAbove(ticks[i]) && ticks[i].delivered)
    ensures Run(alert, ticks).alert.Some? <==>
              alert.Some? || exists i :: 0 <= i < |ticks| && IsAbove(ticks[i]) && ticks[i].delivered
    decreases |ticks|
  {
    if ticks != [] {
      var t := ticks[0];
      var o := Cycle(alert, t.reading, t.delivered, t.now);
      var r := Run(alert, ticks);
      var rest := Run(o.alert, ticks[1..]);
      assert r.actions == [o.action] + rest.actions;
      assert r.actions[1..] == rest.actions;
      assert !IsBelow(ticks[0]);
      OneNotificationPerCrossing(o.alert, ticks[1..]);
      if IsAbove(t) && t.delivered {
        assert exists i :: 0 <= i < |ticks| && IsAbove(ticks[i]) && ticks[i].delivered;
      }
      if exists i :: 0 <= i < |ticks| && IsAbove(ticks[i]) && ticks[i].delivered {
        var i :| 0 <= i < |ticks| && IsAbove(ticks[i]) && ticks[i].delivered;
        if i > 0 {
          assert ticks[1..][i - 1] == ticks[i];
        }
      }
      if exists i :: 0 <= i < |ticks[1..]| && IsAbove(ticks[1..][i]) && ticks[1..][i].delivered {
        var i :| 0 <= i < |ticks[1..]| && IsAbove(ticks[1..][i]) && ticks[1..][i].delivered;
        assert ticks[i + 1] == ticks[1..][i];
      }
    }
  }

  /** No two messages without a recovery in between: messages delivered, plus
      one if the run ends inactive, never exceed the below-threshold readings
      processed, plus one if the run starts inactive. */
  lemma {:induction false} NotificationsBoundedByRecoveries(alert: Option<AlertRecord>, ticks: seq<Tick>)
    ensures Notifications(Run(alert, ticks).actions) + Indicator(Run(alert, ticks).alert.None?) <=
              Recoveries(ticks) + Indicator(alert.None?)
    decreases |ticks|
  {
    if ticks != [] {
      var t := ticks[0];
      var o := Cycle(alert, t.reading, t.delivered, t.now);
      var r := Run(alert, ticks);
      var rest := Run(o.alert, ticks[1..]);
      assert r.actions[1..] == rest.actions;
      NotificationsBoundedByRecoveries(o.alert, ticks[1..]);
    }
  }

  /** A below-threshold reading is counted by `Recoveries`. */
  lemma {:induction false} RecoveryWitness(ticks: seq<Tick>)
    requires Recoveries(ticks) >= 1
    ensures exists i :: 0 <= i < |ticks| && IsBelow(ticks[i])
    decreases |ticks|
  {
    if !IsBelow(ticks[0]) {
      RecoveryWitness(ticks[1..]);
      var i :| 0 <= i < |ticks[1..]| && IsBelow(ticks[1..][i]);
      assert IsBelow(ticks[i + 1]);
    }
  }

  /** No second message without a recovery: cycles that start from an
      active alert (as every cycle after a `Notified` one does) and deliver
      a message include a processed reading below threshold. */
  lemma NoRepeatWithoutRecovery(alert: Option<AlertRecord>, ticks: seq<Tick>)
    requires alert.Some?
    requires Notifications(Run(alert, ticks).actions) >= 1
    ensures exists i :: 0 <= i < |ticks| && IsBelow(ticks[i])
  {
    NotificationsBoundedByRecoveries(alert, ticks);
    RecoveryWitness(ticks);
  }

  /** What the stored state means: a processed reading below threshold
      always leaves the alert inactive (so an active alert follows a
      processed reading at or above threshold), and with no processed
      reading the state is untouched. */
  lemma {:induction false} AlertReflectsLastReading(alert: Option<AlertRecord>, ticks: seq<Tick>)
    ensures LastReading(ticks).None? ==> Run(alert, ticks).alert == alert
    ensures LastReading(ticks).Some? && LastReading(ticks).value < CO2_THRESHOLD ==>
              Run(alert, ticks).alert.None?
  {
    if ticks != [] {
      var init := ticks[..|ticks| - 1];
      var last := ticks[|ticks| - 1];
      assert ticks == init + [last];
      RunAppend(alert, init, [last]);
      AlertReflectsLastReading(alert, init);
    }
  }

  /** A well-formed state stays well formed: a recorded alert always holds a
      reading at or above threshold. */
  lemma {:induction false} RunKeepsWellFormed(alert: Option<AlertRecord>, ticks: seq<Tick>)
    requires WellFormed(alert)
    ensures WellFormed(Run(alert, ticks).alert)
    decreases |ticks|
  {
    if ticks != [] {
      var o := Cycle(alert, ticks[0].reading, ticks[0].delivered, ticks[0].now);
      RunKeepsWellFormed(o.alert, ticks[1..]);
    }
  }
}
