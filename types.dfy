/** Value types shared by the model: the Java `null`-able references become
    `Option`, thrown exceptions become `Result` failures, and the Play Services
    value objects become datatypes. */
module Types {

  /** A reference that may be `null`. */
  datatype Option<+T> = None | Some(value: T)

  /** The outcome of a call that may throw. */
  datatype Result<+R, +E> = Success(value: R) | Failure(error: E)

  /** Java's `int`. */
  type int32 = x: int | -0x8000_0000 <= x < 0x8000_0000

  /** `android.location.Location`, reduced to the coordinates the activity reads. */
  datatype Location = Location(latitude: real, longitude: real)

  /** `DetectedActivity`: an activity-type code and a confidence. */
  datatype DetectedActivity = DetectedActivity(activityType: int32, confidence: int32)

  /** `Geofence`: only its request id is read here. */
  datatype Geofence = Geofence(requestId: string)

  /** `GeofenceModel` as built in `setGeofence`: id, transition trigger, centre and radius. */
  datatype GeofenceModel = GeofenceModel(requestId: string, transition: int32,
                                         latitude: real, longitude: real, radius: int32)
  {
    /** `GeofenceModel.toGeofence()`: the geofence keeps the request id. */
    function ToGeofence(): Geofence {
      Geofence(requestId)
    }
  }

  /** `TransitionGeofence`: a geofence model and the transition code reported for it. */
  datatype TransitionGeofence = TransitionGeofence(geofenceModel: GeofenceModel, transitionType: int32)

  /** A thrown `Throwable`: its class name, its (possibly null) detail message, and
      whether its class extends `java.lang.Exception` (an `Error` does not). */
  datatype Throwable = Throwable(className: string, message: Option<string>, isException: bool)
  {
    /** `Throwable.toString()`: the class name, then ": " and the message when there is one. */
    function ToString(): (s: string)
      ensures |className| <= |s| && s[..|className|] == className
      ensures message.None? <==> s == className
    {
      match message
      case None => className
      case Some(m) => className + ": " + m
    }
  }

  /** The exception raised by dereferencing a null reference; the detail message is
      whatever the runtime attaches at that dereference. */
  function NullPointer(message: Option<string>): Throwable {
    Throwable("java.lang.NullPointerException", message, true)
  }
}
