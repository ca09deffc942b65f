/** The alert state kept in the worker's KV namespace and the edge-triggered
    decision the scheduled handler makes once per cycle. */
module AlertState {
  import opened Wrappers
  import opened SwitchBot

  /** Alert threshold in ppm; the comparison is inclusive. */
  const CO2_THRESHOLD := 3000

  /** The single key the worker reads, writes and deletes. */
  const ALERT_STATE_KEY := "co2_alert_active"

  /** The value stored under the key: the CO2 reading that raised the alert
      and the ISO time of raising it. Its content is never read back. */
  datatype AlertRecord = AlertRecord(co2Value: int, timestamp: string)

  /** What one cycle did. `Notified` and `DeliveryFailed` are the two cycles
      that call the messaging API. */
  datatype Action =
    | Aborted(error: ApiError)
    | Notified
    | DeliveryFailed
    | Suppressed
    | Cleared
    | Idle

  predicate Attempted(a: Action) { a.Notified? || a.DeliveryFailed? }

  datatype Outcome = Outcome(alert: Option<AlertRecord>, action: Action)

  /** The alert state is well formed when a recorded alert was raised by a
      reading at or above the threshold. */
  predicate WellFormed(alert: Option<AlertRecord>)
  {
    alert.Some? ==> alert.value.co2Value >= CO2_THRESHOLD
  }

  /** One cycle on values: the alert state before, the sensor reading (or
      the error that aborted it), what the messaging API returns if called,
      and the current time. */
  function Cycle(alert: Option<AlertRecord>, reading: Result<DeviceStatus, ApiError>,
                 delivered: bool, now: string): (r: Outcome)
    // A failed read aborts the cycle and changes nothing.
    ensures r.action.Aborted? <==> reading.Failure?
    ensures reading.Failure? ==> r.alert == alert && r.action == Aborted(reading.error)
    // Only raising and clearing change the state.
    ensures !(r.action.Notified? || r.action.Cleared?) ==> r.alert == alert
    ensures r.action.Cleared? ==> alert.Some? && r.alert.None?
    ensures r.action.Notified? ==> alert.None? && r.alert.Some?
    // The messaging API is called only from the inactive state, above threshold.
    ensures Attempted(r.action) <==>
              alert.None? && reading.Success? && reading.value.co2 >= CO2_THRESHOLD
    ensures r.action.Notified? <==> Attempted(r.action) && delivered
    // A repeated reading at or above threshold is suppressed; a quiet one is idle.
    ensures reading.Success? && alert.Some? && reading.value.co2 >= CO2_THRESHOLD ==>
              r.action == Suppressed
    ensures reading.Success? && alert.None? && reading.value.co2 < CO2_THRESHOLD ==>
              r.action == Idle
    // After a processed reading the alert is active exactly when the reading
    // is at or above threshold and the alert was already active or has just
    // been delivered.
    ensures reading.Success? ==>
              (r.alert.Some? <==>
                 reading.value.co2 >= CO2_THRESHOLD && (alert.Some? || delivered))
    ensures r.action.Notified? ==> r.alert == Some(AlertRecord(reading.value.co2, now))
    ensures WellFormed(alert) ==> WellFormed(r.alert)
  {
    match reading
    case Failure(e) => Outcome(alert, Aborted(e))
    case Success(status) =>
      if status.co2 >= CO2_THRESHOLD then
        if alert.None? then
          if delivered then Outcome(Some(AlertRecord(status.co2, now)), Notified)
          else Outcome(alert, DeliveryFailed)
        else Outcome(alert, Suppressed)
      else if alert.Some? then Outcome(None, Cleared)
      else Outcome(alert, Idle)
  }

  /** The worker's KV namespace. */
  class AlertStateStore {
    var entries: map<string, AlertRecord>

    /** The alert state: the record under the alert key, if any. */
    function Alert(): (a: Option<AlertRecord>)
      reads this
    {
      if ALERT_STATE_KEY in entries then Some(entries[ALERT_STATE_KEY]) else None
    }

    constructor (initial: map<string, AlertRecord>)
      ensures entries == initial
    {
      entries := initial;
    }

    /** `isAlertActive`: a presence check on the key. */
    method IsAlertActive() returns (active: bool)
      ensures active <==> ALERT_STATE_KEY in entries
    {
      active := ALERT_STATE_KEY in entries;
    }

    /** `setAlertActive`: writes the key and no other. */
    method SetAlertActive(co2Value: int, timestamp: string)
      modifies this
      ensures entries == old(entries)[ALERT_STATE_KEY := AlertRecord(co2Value, timestamp)]
      ensures Alert() == Some(AlertRecord(co2Value, timestamp))
    {
      entries := entries[ALERT_STATE_KEY := AlertRecord(co2Value, timestamp)];
    }

    /** `clearAlertState`: deletes the key and no other. */
    method ClearAlertState()
      modifies this
      ensures entries == old(entries) - {ALERT_STATE_KEY}
      ensures Alert().None?
    {
      entries := entries - {ALERT_STATE_KEY};
    }
  }

  /** The `scheduled` handler. The network is given as the response to
      `GET /devices` and the response to the status request for each device
      id; `delivered` is what `sendLineMessage` returns if it is called;
      `now` is `new Date().toISOString()`. */
  method Scheduled(kv: AlertStateStore, devices: HttpResponse<DeviceListBody>,
                   statusOf: string -> HttpResponse<DeviceStatus>, delivered: bool, now: string)
    returns (action: Action)
    modifies kv
    ensures Outcome(kv.Alert(), action) ==
              Cycle(old(kv.Alert()), ReadSensor(devices, statusOf), delivered, now)
    // Keys other than the alert key are never touched.
    ensures kv.entries - {ALERT_STATE_KEY} == old(kv.entries) - {ALERT_STATE_KEY}
    // Inactive, at or above threshold, delivered: active, recording the reading.
    ensures old(kv.Alert()).None? && ReadSensor(devices, statusOf).Success? &&
            ReadSensor(devices, statusOf).value.co2 >= CO2_THRESHOLD && delivered ==>
              action == Notified &&
              kv.Alert() == Some(AlertRecord(ReadSensor(devices, statusOf).value.co2, now))
    // Inactive, at or above threshold, not delivered: still inactive, retried next cycle.
    ensures old(kv.Alert()).None? && ReadSensor(devices, statusOf).Success? &&
            ReadSensor(devices, statusOf).value.co2 >= CO2_THRESHOLD && !delivered ==>
              action == DeliveryFailed && unchanged(kv)
    // Active, at or above threshold: no message, no write.
    ensures old(kv.Alert()).Some? && ReadSensor(devices, statusOf).Success? &&
            ReadSensor(devices, statusOf).value.co2 >= CO2_THRESHOLD ==>
              action == Suppressed && unchanged(kv)
    // Active, below threshold: cleared silently.
    ensures old(kv.Alert()).Some? && ReadSensor(devices, statusOf).Success? &&
            ReadSensor(devices, statusOf).value.co2 < CO2_THRESHOLD ==>
              action == Cleared && kv.Alert().None?
    // Inactive, below threshold: no message, no write.
    ensures old(kv.Alert()).None? && ReadSensor(devices, statusOf).Success? &&
            ReadSensor(devices, statusOf).value.co2 < CO2_THRESHOLD ==>
              action == Idle && unchanged(kv)
    // A failed read is swallowed: no message, no write.
    ensures ReadSensor(devices, statusOf).Failure? ==>
              action == Aborted(ReadSensor(devices, statusOf).error) && unchanged(kv)
  {
    var deviceId := FindCO2SensorDeviceId(devices);
    if deviceId.Failure? {
      return Aborted(deviceId.error);
    }
    var status := GetDeviceStatus(statusOf(deviceId.value));
    if status.Failure? {
      return Aborted(status.error);
    }
    var co2 := status.value.co2;
    var alertActive := kv.IsAlertActive();
    if co2 >= CO2_THRESHOLD {
      if !alertActive {
        if delivered {
          kv.SetAlertActive(co2, now);
          action := Notified;
        } else {
          action := DeliveryFailed;
        }
      } else {
        action := Suppressed;
      }
    } else {
      if alertActive {
        kv.ClearAlertState();
        action := Cleared;
      } else {
        action := Idle;
      }
    }
  }
}
