# SmartLocationImpl, modelled in Dafny

`SmartLocationImpl` is an Android activity of the Geofencing library. It listens to the
library's location, activity-recognition and geofence-transition callbacks. Most of it is
platform glue. This project models the deterministic logic inside that glue:

- the two classifiers that turn Play Services codes into names (`getNameFromType`,
  `getTransitionNameFromType`), in `classify.dfy`;
- the message builders `showActivity`, `showGeofence` and the text `showLocation` builds, each
  with its null sentinel, in `formatter.dfy`. The `%d` rendering of the confidence is in
  `decimal.dfy`;
- the location cache, as a pure function of the update stream, in `location_cache.dfy`;
- the activity as a class, in `smart_location_impl.dfy`. Its `location` field and its
  `smartLocationImpl` field are updated in place, as in the source. The permission guard, the
  callbacks, `showLast`, `stopLocation` and `setGeofence` are methods of that class.

The cache is not a field of the activity that receives the callbacks. `startLocation` creates a
second `SmartLocationImpl`, and the callbacks read and write that second instance's `location`.
Until tracking has started, that reference is null. `showLocation`, `onLocationUpdated` and
`setGeofence` then dereference null, and the model returns a `NullPointer` exception as the thrown
value. `setGeofence` catches it with `catch (Exception ex)` and returns its error text, while
`onLocationUpdated` lets it propagate. An `Error` raised by the library inside `setGeofence` is not
an `Exception`, so it propagates too.

The activity and geofence messages and the `%d` text each have an inverse parser as a partner
(`ParseActivity`, `ParseGeofence`, `ParseInt`). The round-trip lemmas show that a message
determines what it reports. The location text has no parser; its partner is the sentinel property. `OnLocationUpdated`
is stated against `LocationCache.Step`. `OnActivityUpdated` agrees with `Step`'s activity case
only because it has no `modifies` clause. The lemmas over `Replay` then give last-write-wins for
any stream of updates.

Behaviour of the code worth noting:

- The location sentinel is "Null location".
- `onLocationUpdated` describes the cache before it stores the new location, so it describes the
  previous location.
- `onLocationUpdated(null)` stores null, which clears the cache.
- `onActivityUpdated` caches nothing. Passing it null is the one way to reach "Null activity".
- Every transition code other than ENTER and EXIT, including unrecognised codes, is named "dwell".
- There is no local geofence registry and no transition evaluation. Monitoring is handed to the
  library.

## Model

| member | source | states |
|---|---|---|
| `Classify.NameFromType` | library/src/main/java/io/nlopez/smartlocation/SmartLocationImpl.java:196-211 | Total, and the result is one of six names. Each of IN_VEHICLE, ON_BICYCLE, ON_FOOT, STILL and TILTING gets its own name, in both directions. "unknown" is returned exactly for the codes outside those five. |
| `Classify.NameFromTypeSameName` | library/src/main/java/io/nlopez/smartlocation/SmartLocationImpl.java:196-211 | Two activities get the same name exactly when they have the same code, or when both codes are unnamed. |
| `Classify.TransitionNameFromType` | library/src/main/java/io/nlopez/smartlocation/SmartLocationImpl.java:213-222 | The result is one of "enter", "exit" and "dwell". "enter" is returned exactly for ENTER and "exit" exactly for EXIT. "dwell" is returned for every other code, DWELL and unrecognised codes alike; DWELL is stated separately. |
| `Decimal.Digits` | library/src/main/java/io/nlopez/smartlocation/SmartLocationImpl.java:161-163 | The `%d` digits of a natural number are non-empty ASCII digits with no leading zero. The digits of 0 are exactly "0". |
| `Decimal.IntText` | library/src/main/java/io/nlopez/smartlocation/SmartLocationImpl.java:161-163 | The `%d` text of an int is non-empty. It starts with '-' exactly when the int is negative. |
| `Decimal.DigitsRoundTrip` | library/src/main/java/io/nlopez/smartlocation/SmartLocationImpl.java:161-163 | Reading the digits back gives the number. |
| `Decimal.IntTextRoundTrip` | library/src/main/java/io/nlopez/smartlocation/SmartLocationImpl.java:161-163 | `ParseInt` recovers every int from its `%d` text. |
| `Decimal.IntTextInjective` | library/src/main/java/io/nlopez/smartlocation/SmartLocationImpl.java:161-163 | Two ints have the same text exactly when they are equal. |
| `Formatter.ShowActivity` | library/src/main/java/io/nlopez/smartlocation/SmartLocationImpl.java:158-168 | The result is "Null activity" exactly when the activity is absent. |
| `Formatter.ParseActivityText` | library/src/main/java/io/nlopez/smartlocation/SmartLocationImpl.java:161-163 | For any space-free name and any int, parsing "Activity <name> with <int>% confidence" gives back the name and the int. |
| `Formatter.ShowActivityRoundTrip` | library/src/main/java/io/nlopez/smartlocation/SmartLocationImpl.java:158-168 | The text of a present activity parses back to `NameFromType` of the activity and its confidence. |
| `Formatter.ShowActivityInjective` | library/src/main/java/io/nlopez/smartlocation/SmartLocationImpl.java:158-168 | Two present activities render alike exactly when their names and confidences agree. |
| `Formatter.ShowGeofence` | library/src/main/java/io/nlopez/smartlocation/SmartLocationImpl.java:170-178 | The result is "Null geofence" exactly when the geofence is absent. |
| `Formatter.ParseGeofenceText` | library/src/main/java/io/nlopez/smartlocation/SmartLocationImpl.java:173 | For any space-free name and any id, parsing "Transition <name> for Geofence with id = <id>" gives back the name and the id. |
| `Formatter.ShowGeofenceRoundTrip` | library/src/main/java/io/nlopez/smartlocation/SmartLocationImpl.java:170-178 | The text of a present geofence parses back to `TransitionNameFromType` of the code and the request id, for any id. |
| `Formatter.ShowGeofenceInjective` | library/src/main/java/io/nlopez/smartlocation/SmartLocationImpl.java:170-178 | Two transitions render alike exactly when their transition names and request ids agree. |
| `Formatter.LocationText` | library/src/main/java/io/nlopez/smartlocation/SmartLocationImpl.java:128-155 | The text is "Null location" exactly when no location is cached. |
| `LocationCache.ReplaySnoc` | library/src/main/java/io/nlopez/smartlocation/SmartLocationImpl.java:180-189 | Replaying a stream and then one more update is one more step. |
| `LocationCache.LastWriteWins` | library/src/main/java/io/nlopez/smartlocation/SmartLocationImpl.java:180-189 | After any stream of updates, the cache holds what the last location update delivered, null included. When there was no location update, it holds what it held before. |
| `LocationCache.ActivityUpdatesInvisible` | library/src/main/java/io/nlopez/smartlocation/SmartLocationImpl.java:186-189 | Removing the activity updates from a stream leaves the resulting cache unchanged. Interleaved activity updates never matter. |
| `Smartlocation.SmartLocationImpl.OnRequestPermissionsResult` | library/src/main/java/io/nlopez/smartlocation/SmartLocationImpl.java:51-56 | Tracking starts exactly when the request code is 1001 and there is a first grant result that is PERMISSION_GRANTED. The empty result array is handled. Starting installs a fresh instance that caches the library's last known location. |
| `Smartlocation.SmartLocationImpl.StartLocation` | library/src/main/java/io/nlopez/smartlocation/SmartLocationImpl.java:84-102 | A fresh second instance becomes the holder of the cache. Its location is the library's last known location. |
| `Smartlocation.SmartLocationImpl.ShowLocation` | library/src/main/java/io/nlopez/smartlocation/SmartLocationImpl.java:128-156 | Describes the cached location of the second instance, not the argument. It raises a NullPointerException, with the runtime's message, exactly when tracking never started. |
| `Smartlocation.ShowLocationIgnoresArgument` | library/src/main/java/io/nlopez/smartlocation/SmartLocationImpl.java:128-133 | The result of `showLocation` does not depend on its parameter. |
| `Smartlocation.SmartLocationImpl.OnLocationUpdated` | library/src/main/java/io/nlopez/smartlocation/SmartLocationImpl.java:180-184 | The description is of the cache before the update. The cache then becomes `Step(old cache, LocationUpdated(l))`, that is, `l`, which may be null. Only the cache's `location` field may change. Before tracking starts it raises a NullPointerException and changes nothing. |
| `Smartlocation.SmartLocationImpl.OnActivityUpdated` | library/src/main/java/io/nlopez/smartlocation/SmartLocationImpl.java:186-189 | Returns the `showActivity` text of its argument, null included ("Null activity"). It has no `modifies` clause, so it changes no state. |
| `Smartlocation.SmartLocationImpl.OnGeofenceTransition` | library/src/main/java/io/nlopez/smartlocation/SmartLocationImpl.java:191-194 | Describes the reported geofence, identified by the model's request id, and its transition code. The result is never the null sentinel. |
| `Smartlocation.SmartLocationImpl.ShowLast` | library/src/main/java/io/nlopez/smartlocation/SmartLocationImpl.java:58-74 | Returns a fresh array of 3 slots. Slot 0 is set exactly when a last location exists. Slot 1 is set exactly when a last activity exists, to "[From Cache] " followed by the `showActivity` text. Slot 2 stays null. |
| `Smartlocation.SmartLocationImpl.StopLocation` | library/src/main/java/io/nlopez/smartlocation/SmartLocationImpl.java:115-126 | Returns a fresh array holding "Location stopped!", "Activity Recognition stopped!" and "Geofencing stopped!", in that order. |
| `Smartlocation.GeofenceCreated` | library/src/main/java/io/nlopez/smartlocation/SmartLocationImpl.java:112 | The success text is the fixed prefix followed by the id. |
| `Smartlocation.CatchException` | library/src/main/java/io/nlopez/smartlocation/SmartLocationImpl.java:106-111 | A raised throwable becomes the error text exactly when it is an `Exception`. Anything else propagates unchanged. |
| `Types.Throwable.ToString` | library/src/main/java/io/nlopez/smartlocation/SmartLocationImpl.java:110 | The `toString()` appended to the error text starts with the class name. It is exactly the class name when there is no detail message. |
| `Smartlocation.GeofenceError` | library/src/main/java/io/nlopez/smartlocation/SmartLocationImpl.java:110 | The error text is the fixed prefix followed by the exception's `toString()`. |
| `Smartlocation.GeofenceErrorNotCreated` | library/src/main/java/io/nlopez/smartlocation/SmartLocationImpl.java:104-113 | No error text equals a success text. |
| `Smartlocation.SmartLocationImpl.SetGeofence` | library/src/main/java/io/nlopez/smartlocation/SmartLocationImpl.java:104-113 | Returns "Geofence is created with id <id>" exactly when there is a second instance with a cached location and neither the builder nor the registration raises. A missing instance or location gives the error text for a NullPointerException with the runtime's message. A builder or registration failure goes through `CatchException`: an exception gives its error text, an `Error` propagates. The model handed to the library is an ENTER geofence at the cached coordinates with the given radius. |

## Left out

- Smartlocation.SmartLocationImpl.OnGeofenceTransition: takes a non-null transition, because the library never delivers null. The null dereferences of line 193 and any failure of the library's `toGeofence()` are not modelled.
- The "%.6f" rendering of latitude and longitude (lines 62-64 and 131-133) is floating-point formatting. It is the parameter `fixed6`. Slot 0 of `showLast` and the non-null branch of `showLocation` are therefore stated up to that rendering.
- `%d` and `String.format` use the default locale. The model assumes ASCII digits.
- Reverse geocoding (lines 136-151) is an asynchronous network callback. Its loop over address lines is not modelled.
- `onCreate` and the keep-screen-on flag, `onActivityResult` forwarding, the commented-out permission prompt, and toasts and logging are Android lifecycle and UI. They are not modelled.
- The provider and `SmartLocation` start and stop calls are foreign library calls. `startLocation` keeps only its effect on the cache. The library's last known location and last activity are inputs, and so are `setGeofence`'s build and registration failures. Exceptions raised by the start and stop calls themselves are not modelled.
- `NullPointer`: the detail message a runtime attaches to a NullPointerException is an input (`npeMessage`). Its wording on any particular runtime is not modelled.
- `ShowGeofence`: a null request id, which Java would concatenate as "null", is not modelled. Ids are strings.
- The permissions array of `onRequestPermissionsResult` is unused by the source, and unused in the model.
- Geofence containment, distance, dwell timing, listener dispatch and a region registry are not part of this code. Monitoring is delegated to the Play Services library. They are not modelled.
