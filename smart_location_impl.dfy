/** The activity class `SmartLocationImpl`: the location cache it keeps, the
    permission guard that starts tracking, and the helpers that build its
    messages. The cache is not a field of the activity itself: `startLocation`
    creates a second `SmartLocationImpl` and the callbacks read and write the
    `location` field of that second instance. A null dereference raises a
    `NullPointer` exception whose detail message the runtime supplies. */
module Smartlocation {
  import opened Types
  import opened Classify
  import opened Formatter
  import opened LocationCache

  const LOCATION_PERMISSION_ID: int32 := 1001
  const PERMISSION_GRANTED: int32 := 0

  const LocationStopped := "Location stopped!"
  const ActivityStopped := "Activity Recognition stopped!"
  const GeofencingStopped := "Geofencing stopped!"

  const GeofenceCreatedPrefix := "Geofence is created with id "
  const GeofenceErrorPrefix := "Error occurs while creating geofence point. "

  /** What `setGeofence` returns on success. */
  function GeofenceCreated(id: string): (r: string)
    ensures StartsWith(r, GeofenceCreatedPrefix) && r[|GeofenceCreatedPrefix|..] == id
  {
    GeofenceCreatedPrefix + id
  }

  /** What `setGeofence` returns when building or registering raised `ex`. */
  function GeofenceError(ex: Throwable): (r: string)
    ensures StartsWith(r, GeofenceErrorPrefix) && r[|GeofenceErrorPrefix|..] == ex.ToString()
  {
    GeofenceErrorPrefix + ex.ToString()
  }

  /** The `catch (Exception ex)` of `setGeofence`: an exception becomes the error
      text, anything else (an `Error`) propagates. */
  function CatchException(ex: Throwable): (r: Result<string, Throwable>)
    ensures r.Success? <==> ex.isException
    ensures r.Success? ==> r.value == GeofenceError(ex)
    ensures r.Failure? ==> r.error == ex
  {
    if ex.isException then Success(GeofenceError(ex)) else Failure(ex)
  }

  /** No error text reads as a success. */
  lemma GeofenceErrorNotCreated(ex: Throwable, id: string)
    ensures GeofenceError(ex) != GeofenceCreated(id)
  {
    var e, c := GeofenceError(ex), GeofenceCreated(id);
    assert e[0] == e[..|GeofenceErrorPrefix|][0] == 'E';
    assert c[0] == c[..|GeofenceCreatedPrefix|][0] == 'G';
  }

  class SmartLocationImpl {
    /** The last location this instance was given. */
    var location: Option<Location>
    /** The instance `startLocation` created, whose `location` is the cache; null
        until tracking starts. */
    var smartLocationImpl: SmartLocationImpl?

    constructor ()
      ensures location == None && smartLocationImpl == null
    {
      location := None;
      smartLocationImpl := null;
    }

    /** `onRequestPermissionsResult`: tracking starts exactly when the request is the
        location request and its first result is a grant. `lastKnown` is the
        library's last known location at that moment. */
    method OnRequestPermissionsResult(requestCode: int32, permissions: seq<string>, grantResults: seq<int32>,
                                      lastKnown: Option<Location>)
      returns (started: bool)
      modifies this
      ensures started <==> requestCode == LOCATION_PERMISSION_ID && |grantResults| > 0 &&
                           grantResults[0] == PERMISSION_GRANTED
      ensures started ==> fresh(smartLocationImpl) && smartLocationImpl.location == lastKnown &&
                          smartLocationImpl.smartLocationImpl == null
      ensures !started ==> smartLocationImpl == old(smartLocationImpl)
      ensures location == old(location)
    {
      started := requestCode == LOCATION_PERMISSION_ID && |grantResults| > 0 &&
                 grantResults[0] == PERMISSION_GRANTED;
      if started {
        StartLocation(lastKnown);
      }
    }

    /** `startLocation`: a new instance takes the library's last known location as
        its cache (the provider and library start calls are foreign). */
    method StartLocation(lastKnown: Option<Location>)
      modifies this
      ensures fresh(smartLocationImpl) && smartLocationImpl.location == lastKnown &&
              smartLocationImpl.smartLocationImpl == null
      ensures location == old(location)
    {
      var impl := new SmartLocationImpl();
      impl.location := lastKnown;
      smartLocationImpl := impl;
    }

    /** `showLocation`: ignores its argument and describes the cached location.
        `npeMessage` is the runtime's detail message for a null dereference. */
    function ShowLocation(location: Option<Location>, fixed6: real -> string, npeMessage: Option<string>)
      : (r: Result<string, Throwable>)
      reads this, smartLocationImpl
      ensures smartLocationImpl == null <==> r == Failure(NullPointer(npeMessage))
      ensures smartLocationImpl != null ==> r == Success(LocationText(smartLocationImpl.location, fixed6))
    {
      if smartLocationImpl == null then Failure(NullPointer(npeMessage))
      else Success(LocationText(smartLocationImpl.location, fixed6))
    }

    /** `onLocationUpdated`: describes the cache as it was before the update (the
        description is discarded by the source and returned here), then stores `l`,
        which may be null. Only the cache's `location` field changes. */
    method OnLocationUpdated(l: Option<Location>, fixed6: real -> string, npeMessage: Option<string>)
      returns (shown: Result<string, Throwable>)
      modifies (if smartLocationImpl == null then {} else {smartLocationImpl})`location
      ensures old(smartLocationImpl) == null ==> shown == Failure(NullPointer(npeMessage))
      ensures smartLocationImpl == old(smartLocationImpl)
      ensures smartLocationImpl != null ==>
                shown == Success(LocationText(old(smartLocationImpl.location), fixed6)) &&
                smartLocationImpl.location == Step(old(smartLocationImpl.location), LocationUpdated(l))
    {
      shown := ShowLocation(l, fixed6, npeMessage);
      if smartLocationImpl == null {
        return;
      }
      smartLocationImpl.location := l;
    }

    /** `onActivityUpdated`: describes the activity, null included; it has no
        `modifies` clause, so it changes no state. */
    method OnActivityUpdated(detectedActivity: Option<DetectedActivity>) returns (shown: string)
      ensures shown == ShowActivity(detectedActivity)
    {
      shown := ShowActivity(detectedActivity);
    }

    /** `onGeofenceTransition`: describes the transition of the reported geofence. */
    method OnGeofenceTransition(geofence: TransitionGeofence) returns (shown: string)
      ensures shown == ShowGeofence(Some(geofence.geofenceModel.ToGeofence()), geofence.transitionType)
      ensures shown != NullGeofence
    {
      shown := ShowGeofence(Some(geofence.geofenceModel.ToGeofence()), geofence.transitionType);
    }

    /** `showLast`: three slots; the first describes the library's last location and
        the second its last activity, each only when present; the third stays null. */
    method ShowLast(lastLocation: Option<Location>, lastActivity: Option<DetectedActivity>, fixed6: real -> string)
      returns (info: array<Option<string>>)
      ensures fresh(info) && info.Length == 3
      ensures info[0] == if lastLocation.Some? then Some(CachePrefix + LocationText(lastLocation, fixed6)) else None
      ensures info[1] == if lastActivity.Some? then Some(CachePrefix + ShowActivity(lastActivity)) else None
      ensures info[2] == None
    {
      info := new Option<string>[3](_ => None);
      if lastLocation.Some? {
        info[0] := Some(CachePrefix + LocationText(lastLocation, fixed6));
      }
      if lastActivity.Some? {
        info[1] := Some(CachePrefix + ShowActivity(lastActivity));
      }
    }

    /** `stopLocation`: the three stop messages, location first, then activity, then
        geofencing (the stop calls themselves are foreign). */
    method StopLocation() returns (info: array<Option<string>>)
      ensures fresh(info)
      ensures info[..] == [Some(LocationStopped), Some(ActivityStopped), Some(GeofencingStopped)]
    {
      info := new Option<string>[3](_ => None);
      info[0] := Some(LocationStopped);
      info[1] := Some(ActivityStopped);
      info[2] := Some(GeofencingStopped);
    }

    /** `setGeofence`: an ENTER geofence around the cached location is built and
        registered. A missing instance or location is a null dereference, with the
        runtime's detail message `npeMessage`; `buildFailure` and `registerFailure` are
        what the library's builder and its `add(..).start(..)` raise, if anything.
        Exceptions become the error text; an `Error` propagates as a `Failure`.
        `request` is the model handed to the library. */
    method SetGeofence(id: string, radius: int32, npeMessage: Option<string>,
                       buildFailure: Option<Throwable>, registerFailure: Option<Throwable>)
      returns (r: Result<string, Throwable>, request: Option<GeofenceModel>)
      ensures r == Success(GeofenceCreated(id)) <==>
                smartLocationImpl != null && smartLocationImpl.location.Some? &&
                buildFailure.None? && registerFailure.None?
      ensures smartLocationImpl == null || smartLocationImpl.location.None? ==>
                r == Success(GeofenceError(NullPointer(npeMessage))) && request.None?
      ensures smartLocationImpl != null && smartLocationImpl.location.Some? ==>
                var l := smartLocationImpl.location.value;
                (buildFailure.Some? ==> r == CatchException(buildFailure.value) && request.None?) &&
                (buildFailure.None? ==>
                   request == Some(GeofenceModel(id, GEOFENCE_TRANSITION_ENTER, l.latitude, l.longitude, radius)) &&
                   (registerFailure.Some? ==> r == CatchException(registerFailure.value)))
    {
      request := None;
      if smartLocationImpl == null || smartLocationImpl.location.None? {
        r := CatchException(NullPointer(npeMessage));
        GeofenceErrorNotCreated(NullPointer(npeMessage), id);
        return;
      }
      var l := smartLocationImpl.location.value;
      if buildFailure.Some? {
        r := CatchException(buildFailure.value);
        GeofenceErrorNotCreated(buildFailure.value, id);
        return;
      }
      request := Some(GeofenceModel(id, GEOFENCE_TRANSITION_ENTER, l.latitude, l.longitude, radius));
      if registerFailure.Some? {
        r := CatchException(registerFailure.value);
        GeofenceErrorNotCreated(registerFailure.value, id);
        return;
      }
      r := Success(GeofenceCreated(id));
    }
  }

  /** What `showLocation` returns does not depend on the location passed to it. */
  lemma ShowLocationIgnoresArgument(impl: SmartLocationImpl, a: Option<Location>, b: Option<Location>,
                                    fixed6: real -> string, npeMessage: Option<string>)
    ensures impl.ShowLocation(a, fixed6, npeMessage) == impl.ShowLocation(b, fixed6, npeMessage)
  {
  }
}
