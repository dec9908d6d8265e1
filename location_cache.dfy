/** The effect of the two update callbacks on the cached location, as a function
    of the update stream: `onLocationUpdated` overwrites the cache with what it is
    given (a null location clears it), and `onActivityUpdated` caches nothing. */
module LocationCache {
  import opened Types

  datatype Update = LocationUpdated(location: Option<Location>) | ActivityUpdated(activity: Option<DetectedActivity>)

  /** The cache after one update. */
  function Step(cache: Option<Location>, u: Update): Option<Location> {
    match u
    case LocationUpdated(l) => l
    case ActivityUpdated(_) => cache
  }

  /** The cache after the updates `us`, delivered in order. */
  function Replay(cache: Option<Location>, us: seq<Update>): Option<Location>
    decreases |us|
  {
    if us == [] then cache else Replay(Step(cache, us[0]), us[1..])
  }

  /** What the last location update in `us` delivered (itself possibly null), if
      there is a location update at all. */
  function LastLocation(us: seq<Update>): Option<Option<Location>>
    decreases |us|
  {
    if us == [] then None
    else match us[|us| - 1]
      case LocationUpdated(l) => Some(l)
      case ActivityUpdated(_) => LastLocation(us[..|us| - 1])
  }

  /** Only the location updates of `us`, in order. */
  function LocationUpdates(us: seq<Update>): seq<Update>
    decreases |us|
  {
    if us == [] then []
    else if us[0].LocationUpdated? then [us[0]] + LocationUpdates(us[1..])
    else LocationUpdates(us[1..])
  }

  lemma {:induction false} ReplaySnoc(cache: Option<Location>, us: seq<Update>, u: Update)
    ensures Replay(cache, us + [u]) == Step(Replay(cache, us), u)
    decreases |us|
  {
    if us != [] {
      assert (us + [u])[1..] == us[1..] + [u];
      ReplaySnoc(Step(cache, us[0]), us[1..], u);
    }
  }

  /** Last write wins: after any stream of updates the cache holds what the last
      location update delivered, or what it held before when there was none. */
  lemma {:induction false} LastWriteWins(cache: Option<Location>, us: seq<Update>)
    ensures Replay(cache, us) == (if LastLocation(us).Some? then LastLocation(us).value else cache)
    decreases |us|
  {
    if us != [] {
      var init, u := us[..|us| - 1], us[|us| - 1];
      assert us == init + [u];
      ReplaySnoc(cache, init, u);
      LastWriteWins(cache, init);
    }
  }

  /** Activity updates interleaved with location updates do not affect the cache. */
  lemma {:induction false} ActivityUpdatesInvisible(cache: Option<Location>, us: seq<Update>)
    ensures Replay(cache, us) == Replay(cache, LocationUpdates(us))
    decreases |us|
  {
    if us != [] {
      ActivityUpdatesInvisible(Step(cache, us[0]), us[1..]);
      if us[0].LocationUpdated? {
        var rest := LocationUpdates(us[1..]);
        assert ([us[0]] + rest)[1..] == rest;
        // both sides replay the same update first
        assert Replay(cache, [us[0]] + rest) == Replay(Step(cache, us[0]), rest);
      }
    }
  }
}
