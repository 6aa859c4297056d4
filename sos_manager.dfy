/**
 * `SOSManager`: the location fallback chain of `triggerSOS` (GPS, then public IP, then IP
 * geolocation), the location text `sendSOSRequest` logs, and the `recording` field.
 * Every network and location call is an input: the model receives what each one would
 * deliver and states which of them are made and in which order.
 */
module SosManager {
  import opened Wrappers

  /** An `android.location.Location`: its provider name and coordinates. */
  datatype Location = Location(provider: string, latitude: real, longitude: real)

  /** What the fused location client delivers to `getCurrentLocation`. */
  datatype GpsOutcome =
    | GpsFix(location: Location)
    | GpsNull      // the success listener got `null`: resumed with "Location is null"
    | GpsFailed    // the failure listener ran

  /** The parsed reply of the geolocation service: its numeric fields by name. */
  type GeoJson = map<string, real>

  const IP_GEOLOCATION_PROVIDER := "ip-geolocation"
  const UNKNOWN_LOCATION := "Unknown location"

  /** The calls `triggerSOS` makes, in order. */
  datatype Call =
    | RequestGps
    | LookupPublicIp
    | LookupGeolocation(ip: string)
    | SendSosRequest(locationText: LocationText)
    | StartRecording

  /** The location string `sendSOSRequest` builds: `"lat,lon"` or a literal text. */
  datatype LocationText = Coordinates(latitude: real, longitude: real) | Literal(text: string)

  /** `getCurrentLocation`: a fix, or the exception that sends `triggerSOS` to the fallback. */
  function CurrentLocation(gps: GpsOutcome): (r: Result<Location, string>)
    ensures r.Success? <==> gps.GpsFix?
    ensures gps.GpsFix? ==> r.value == gps.location
  {
    match gps
    case GpsFix(location) => Success(location)
    case GpsNull => Failure("Location is null")
    case GpsFailed => Failure("location request failed")
  }

  /**
   * The fallback branch: the location read from the geolocation reply, `None` when there is
   * no reply, or `Failure` when `getDouble` throws because "lat" or "lon" is missing.
   */
  function FromGeolocation(geo: Option<GeoJson>): Result<Option<Location>, string> {
    match geo
    case None => Success(None)
    case Some(json) =>
      if "lat" !in json then Failure("JSONObject[\"lat\"] not found.")
      else if "lon" !in json then Failure("JSONObject[\"lon\"] not found.")
      else Success(Some(Location(IP_GEOLOCATION_PROVIDER, json["lat"], json["lon"])))
  }

  /**
   * The value of the inner `try` of `triggerSOS`. `ip` is what `getPublicIpAddress` returns and
   * `geo` what `getGeolocation(ip)` would return; both helpers turn every error into `null`.
   */
  function ResolveLocation(gps: GpsOutcome, ip: Option<string>, geo: Option<GeoJson>): Result<Option<Location>, string> {
    match CurrentLocation(gps)
    case Success(location) => Success(Some(location))
    case Failure(_) =>
      if ip.None? then Success(None) else FromGeolocation(geo)
  }

  /** `sendSOSRequest`: the coordinates of a location, or "Unknown location" for `null`. */
  function RenderLocation(location: Option<Location>): (text: LocationText)
    ensures text.Literal? <==> location.None?
    ensures text.Literal? ==> text.text == UNKNOWN_LOCATION
    ensures location.Some? ==> text == Coordinates(location.value.latitude, location.value.longitude)
  {
    match location
    case None => Literal(UNKNOWN_LOCATION)
    case Some(l) => Coordinates(l.latitude, l.longitude)
  }

  /** The lookups the fallback makes after the GPS request failed. */
  function FallbackCalls(ip: Option<string>): seq<Call> {
    [LookupPublicIp] + (if ip.Some? then [LookupGeolocation(ip.value)] else [])
  }

  /**
   * The calls of one `triggerSOS`: the GPS request, the fallback lookups when it failed, and,
   * unless an exception reached the outer handler, the SOS request and the recording.
   */
  function TriggerCalls(gps: GpsOutcome, ip: Option<string>, geo: Option<GeoJson>): seq<Call> {
    [RequestGps]
    + (if gps.GpsFix? then [] else FallbackCalls(ip))
    + match ResolveLocation(gps, ip, geo)
      case Success(location) => [SendSosRequest(RenderLocation(location)), StartRecording]
      case Failure(_) => []
  }

  /** A GPS fix is used as it is, and no IP lookup is made. */
  lemma GpsFixWins(location: Location, ip: Option<string>, geo: Option<GeoJson>)
    ensures ResolveLocation(GpsFix(location), ip, geo) == Success(Some(location))
    ensures TriggerCalls(GpsFix(location), ip, geo)
         == [RequestGps, SendSosRequest(Coordinates(location.latitude, location.longitude)), StartRecording]
  {
  }

  /** A null fix takes the same fallback path as a failed request. */
  lemma NullFixFallsBack(ip: Option<string>, geo: Option<GeoJson>)
    ensures ResolveLocation(GpsNull, ip, geo) == ResolveLocation(GpsFailed, ip, geo)
    ensures TriggerCalls(GpsNull, ip, geo) == TriggerCalls(GpsFailed, ip, geo)
  {
  }

  /** Without a fix and without a public IP the location is `null`: "Unknown location" is sent. */
  lemma NoAddressUnknownLocation(gps: GpsOutcome, geo: Option<GeoJson>)
    requires !gps.GpsFix?
    ensures TriggerCalls(gps, None, geo)
         == [RequestGps, LookupPublicIp, SendSosRequest(Literal(UNKNOWN_LOCATION)), StartRecording]
  {
  }

  /** A geolocation is queried iff there was no fix and the IP lookup returned an address. */
  lemma GeolocationQueriedIff(gps: GpsOutcome, ip: Option<string>, geo: Option<GeoJson>, address: string)
    ensures LookupGeolocation(address) in TriggerCalls(gps, ip, geo) <==> !gps.GpsFix? && ip == Some(address)
    ensures LookupPublicIp in TriggerCalls(gps, ip, geo) <==> !gps.GpsFix?
  {
    var calls := TriggerCalls(gps, ip, geo);
    var tail := match ResolveLocation(gps, ip, geo)
      case Success(location) => [SendSosRequest(RenderLocation(location)), StartRecording]
      case Failure(_) => [];
    assert calls == [RequestGps] + (if gps.GpsFix? then [] else FallbackCalls(ip)) + tail;
    assert LookupGeolocation(address) !in tail && LookupPublicIp !in tail;
  }

  /**
   * A geolocation reply with both fields gives a location tagged "ip-geolocation"; without a
   * reply the location is `null` and the request is still sent, as "Unknown location".
   */
  lemma IpGeolocationUsed(gps: GpsOutcome, ip: string, geo: Option<GeoJson>)
    requires !gps.GpsFix?
    ensures geo.Some? && "lat" in geo.value && "lon" in geo.value ==>
      ResolveLocation(gps, Some(ip), geo)
        == Success(Some(Location(IP_GEOLOCATION_PROVIDER, geo.value["lat"], geo.value["lon"])))
    ensures geo.None? ==>
      TriggerCalls(gps, Some(ip), geo)
        == [RequestGps, LookupPublicIp, LookupGeolocation(ip), SendSosRequest(Literal(UNKNOWN_LOCATION)), StartRecording]
  {
  }

  /** A reply lacking "lat" or "lon" throws out of `triggerSOS`: neither send nor recording happens. */
  lemma MissingFieldAborts(gps: GpsOutcome, ip: string, json: GeoJson)
    requires !gps.GpsFix?
    requires "lat" !in json || "lon" !in json
    ensures TriggerCalls(gps, Some(ip), Some(json)) == [RequestGps, LookupPublicIp, LookupGeolocation(ip)]
  {
  }

  /**
   * Whatever the outcomes: the GPS request comes first; a request is sent iff the recording
   * starts, and then they are the last two calls in that order; a send happens iff the location
   * resolved, even to `null`.
   */
  lemma SendThenRecord(gps: GpsOutcome, ip: Option<string>, geo: Option<GeoJson>)
    ensures var calls := TriggerCalls(gps, ip, geo);
      && calls[0] == RequestGps
      && (StartRecording in calls <==> ResolveLocation(gps, ip, geo).Success?)
      && (StartRecording in calls ==>
            |calls| >= 3 && calls[|calls| - 1] == StartRecording
            && calls[|calls| - 2] == SendSosRequest(RenderLocation(ResolveLocation(gps, ip, geo).value)))
      && (forall i :: 0 <= i < |calls| && calls[i].SendSosRequest? ==> i == |calls| - 2)
  {
    var calls := TriggerCalls(gps, ip, geo);
    var head := [RequestGps] + (if gps.GpsFix? then [] else FallbackCalls(ip));
    assert forall c :: c in head ==> !c.SendSosRequest? && c != StartRecording;
    if ResolveLocation(gps, ip, geo).Success? {
      assert calls == head + [SendSosRequest(RenderLocation(ResolveLocation(gps, ip, geo).value)), StartRecording];
    } else {
      assert calls == head;
    }
  }

  /** A camera recording in progress. */
  datatype Recording = Recording(id: nat)

  class SOSManager {
    var recording: Option<Recording>

    constructor ()
      ensures recording == None
    {
      recording := None;
    }

    /** `stopRecording`: stops the current recording, if any, and forgets it. */
    method StopRecording() returns (stopped: Option<Recording>)
      modifies this
      ensures stopped == old(recording)
      ensures recording == None
    {
      stopped := recording;
      recording := None;
    }
  }
}
