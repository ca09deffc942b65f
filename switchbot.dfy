/** The SwitchBot API client of the worker: response envelopes, their
    validation, and the search for the CO2 sensor in the device list. */
module SwitchBot {
  import opened Wrappers

  /** One entry of `body.deviceList`. */
  datatype Device = Device(deviceId: string, deviceName: string, deviceType: string, hubDeviceId: string)

  /** The body of `GET /devices`; `infraredRemoteList` is never read. */
  datatype DeviceListBody = DeviceListBody(deviceList: seq<Device>)

  /** The body of `GET /devices/{id}/status`. Readings are whole numbers here. */
  datatype DeviceStatus = DeviceStatus(
    deviceId: string, deviceType: string,
    temperature: int, humidity: int, co2: int, battery: int)

  /** The JSON envelope every SwitchBot response carries. */
  datatype Envelope<B> = Envelope(statusCode: int, body: B, message: string)

  /** An HTTP response whose JSON body has already been parsed. */
  datatype HttpResponse<B> = HttpResponse(status: int, statusText: string, data: Envelope<B>)
  {
    /** `Response.ok` of the Fetch standard: a 2xx status. */
    predicate Ok() { 200 <= status <= 299 }
  }

  /** The errors the client throws; the scheduled handler swallows them all. */
  datatype ApiError =
    | HttpError(status: int, statusText: string)
    | ApiStatusError(message: string)
    | DeviceNotFound

  /** The SwitchBot API's "success" status code. */
  const SUCCESS_STATUS_CODE := 100

  const CO2_SENSOR_TYPE := "MeterPro(CO2)"
  const CO2_MARKER := "CO2"

  /** Rejects a transport failure first, then an API-level failure, and
      otherwise yields the body. */
  function CheckResponse<B>(resp: HttpResponse<B>): (r: Result<B, ApiError>)
    ensures r.Success? <==> resp.Ok() && resp.data.statusCode == SUCCESS_STATUS_CODE
    ensures r.Success? ==> r.value == resp.data.body
    ensures !resp.Ok() ==> r == Failure(HttpError(resp.status, resp.statusText))
    ensures resp.Ok() && resp.data.statusCode != SUCCESS_STATUS_CODE ==>
              r == Failure(ApiStatusError(resp.data.message))
  {
    if !resp.Ok() then Failure(HttpError(resp.status, resp.statusText))
    else if resp.data.statusCode != SUCCESS_STATUS_CODE then Failure(ApiStatusError(resp.data.message))
    else Success(resp.data.body)
  }

  /** `sub` occurs in `s` starting at index `i`. */
  predicate OccursAt(s: string, sub: string, i: nat)
  {
    i + |sub| <= |s| && s[i..i + |sub|] == sub
  }

  /** JavaScript's `String.prototype.includes`. */
  function Contains(s: string, sub: string): bool
    decreases |s|
  {
    |sub| <= |s| && (s[..|sub|] == sub || (|s| > 0 && Contains(s[1..], sub)))
  }

  /** `Contains` holds exactly when `sub` occurs at some index of `s`. */
  lemma {:induction false} ContainsIff(s: string, sub: string)
    ensures Contains(s, sub) <==> exists i: nat :: OccursAt(s, sub, i)
    decreases |s|
  {
    if Contains(s, sub) {
      if s[..|sub|] == sub {
        assert OccursAt(s, sub, 0);
      } else {
        ContainsIff(s[1..], sub);
        var i: nat :| OccursAt(s[1..], sub, i);
        assert s[1..][i..i + |sub|] == s[i + 1..i + 1 + |sub|];
        assert OccursAt(s, sub, i + 1);
      }
    }
    if exists i: nat :: OccursAt(s, sub, i) {
      var i: nat :| OccursAt(s, sub, i);
      if i > 0 {
        assert s[1..][i - 1..i - 1 + |sub|] == s[i..i + |sub|];
        assert OccursAt(s[1..], sub, i - 1);
        ContainsIff(s[1..], sub);
      }
    }
  }

  /** The predicate handed to `deviceList.find`. */
  predicate IsCO2Sensor(d: Device)
  {
    d.deviceType == CO2_SENSOR_TYPE || Contains(d.deviceType, CO2_MARKER)
  }

  lemma SensorTypeHasMarker()
    ensures OccursAt(CO2_SENSOR_TYPE, CO2_MARKER, 9)
  {
    assert CO2_SENSOR_TYPE[9..12] == [CO2_SENSOR_TYPE[9], CO2_SENSOR_TYPE[10], CO2_SENSOR_TYPE[11]];
  }

  /** The exact match on "MeterPro(CO2)" adds nothing: that type already
      contains "CO2", so any device type containing "CO2" qualifies. */
  lemma CO2SensorIsSubstringMatch(d: Device)
    ensures IsCO2Sensor(d) <==> exists i: nat :: OccursAt(d.deviceType, CO2_MARKER, i)
  {
    ContainsIff(d.deviceType, CO2_MARKER);
    if d.deviceType == CO2_SENSOR_TYPE {
      SensorTypeHasMarker();
    }
  }

  /** `Array.prototype.find` with `IsCO2Sensor`, as an index. */
  function FirstCO2Sensor(devices: seq<Device>): (r: Option<nat>)
    ensures r.Some? ==> r.value < |devices| && IsCO2Sensor(devices[r.value])
    ensures r.Some? ==> forall j :: 0 <= j < r.value ==> !IsCO2Sensor(devices[j])
    ensures r.None? ==> forall j :: 0 <= j < |devices| ==> !IsCO2Sensor(devices[j])
  {
    if |devices| == 0 then None
    else if IsCO2Sensor(devices[0]) then Some(0)
    else match FirstCO2Sensor(devices[1..])
      case None => None
      case Some(i) => Some(i + 1)
  }

  /** `findCO2SensorDeviceId` given the response of `GET /devices`. */
  function FindCO2SensorDeviceId(resp: HttpResponse<DeviceListBody>): (r: Result<string, ApiError>)
    ensures r.Success? <==>
              resp.Ok() && resp.data.statusCode == SUCCESS_STATUS_CODE &&
              exists i :: 0 <= i < |resp.data.body.deviceList| && IsCO2Sensor(resp.data.body.deviceList[i])
    ensures r.Success? ==>
              exists i :: 0 <= i < |resp.data.body.deviceList| &&
                IsCO2Sensor(resp.data.body.deviceList[i]) &&
                (forall j :: 0 <= j < i ==> !IsCO2Sensor(resp.data.body.deviceList[j])) &&
                r.value == resp.data.body.deviceList[i].deviceId
    ensures !resp.Ok() ==> r == Failure(HttpError(resp.status, resp.statusText))
    ensures resp.Ok() && resp.data.statusCode != SUCCESS_STATUS_CODE ==>
              r == Failure(ApiStatusError(resp.data.message))
    ensures r.Failure? && resp.Ok() && resp.data.statusCode == SUCCESS_STATUS_CODE ==>
              r.error == DeviceNotFound
  {
    match CheckResponse(resp)
    case Failure(e) => Failure(e)
    case Success(body) =>
      match FirstCO2Sensor(body.deviceList)
      case None => Failure(DeviceNotFound)
      case Some(i) => Success(body.deviceList[i].deviceId)
  }

  /** `getSwitchBotDeviceStatus` given the response of `GET /devices/{id}/status`. */
  function GetDeviceStatus(resp: HttpResponse<DeviceStatus>): (r: Result<DeviceStatus, ApiError>)
    ensures r.Success? <==> resp.Ok() && resp.data.statusCode == SUCCESS_STATUS_CODE
    ensures r.Success? ==> r.value == resp.data.body
    ensures r.Failure? ==> r.error != DeviceNotFound
  {
    CheckResponse(resp)
  }

  /** The first half of the scheduled handler: discover the sensor, then
      fetch its status from the response the network gives for that id.
      The status request is made only when discovery succeeded. */
  function ReadSensor(devices: HttpResponse<DeviceListBody>, statusOf: string -> HttpResponse<DeviceStatus>)
    : (r: Result<DeviceStatus, ApiError>)
    ensures FindCO2SensorDeviceId(devices).Failure? ==> r == Failure(FindCO2SensorDeviceId(devices).error)
    ensures r.Success? <==>
              FindCO2SensorDeviceId(devices).Success? &&
              CheckResponse(statusOf(FindCO2SensorDeviceId(devices).value)).Success?
    ensures r.Success? ==> r.value == statusOf(FindCO2SensorDeviceId(devices).value).data.body
  {
    match FindCO2SensorDeviceId(devices)
    case Failure(e) => Failure(e)
    case Success(id) => GetDeviceStatus(statusOf(id))
  }
}
