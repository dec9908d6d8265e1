/** The string builders of `SmartLocationImpl`: `showActivity`, `showGeofence` and
    the text `showLocation` produces from a cached location. Each substitutes a
    fixed sentinel for an absent (null) input. The parsers below read the texts
    back and show that each text determines what it reports. */
module Formatter {
  import opened Types
  import opened Decimal
  import opened Classify

  const NullActivity := "Null activity"
  const NullGeofence := "Null geofence"
  const NullLocation := "Null location"

  const ActivityPrefix := "Activity "
  const ActivityMiddle := " with "
  const ActivitySuffix := "% confidence"

  const TransitionPrefix := "Transition "
  const TransitionMiddle := " for Geofence with id = "

  /** What `showLast` puts before a cached value. */
  const CachePrefix := "[From Cache] "

  predicate StartsWith(s: string, p: string) {
    |p| <= |s| && s[..|p|] == p
  }

  predicate EndsWith(s: string, p: string) {
    |p| <= |s| && s[|s| - |p|..] == p
  }

  /** The index of the first space in `s`, or `|s|` when there is none. */
  function WordEnd(s: string): (i: nat)
    ensures i <= |s| && NoSpace(s[..i])
    ensures i < |s| ==> s[i] == ' '
  {
    if s == [] || s[0] == ' ' then 0
    else
      var j := WordEnd(s[1..]);
      assert s[..1 + j] == [s[0]] + s[1..][..j];
      1 + j
  }

  lemma {:induction false} WordEndAfterWord(w: string, t: string)
    requires NoSpace(w) && StartsWith(t, " ")
    ensures WordEnd(w + t) == |w|
  {
    if w == [] {
      assert w + t == t;
    } else {
      assert (w + t)[1..] == w[1..] + t;
      WordEndAfterWord(w[1..], t);
    }
  }

  /** `showActivity`: "Null activity" exactly when the activity is absent. */
  function ShowActivity(detectedActivity: Option<DetectedActivity>): (r: string)
    ensures r == NullActivity <==> detectedActivity.None?
  {
    match detectedActivity
    case None => NullActivity
    case Some(a) =>
      var r := ActivityPrefix + NameFromType(a) + ActivityMiddle + IntText(a.confidence) + ActivitySuffix;
      assert r[0] != NullActivity[0];
      r
  }

  /** `showGeofence`: "Null geofence" exactly when the geofence is absent. */
  function ShowGeofence(geofence: Option<Geofence>, transitionType: int32): (r: string)
    ensures r == NullGeofence <==> geofence.None?
  {
    match geofence
    case None => NullGeofence
    case Some(g) =>
      var r := TransitionPrefix + TransitionNameFromType(transitionType) + TransitionMiddle + g.requestId;
      assert r[0] != NullGeofence[0];
      r
  }

  /** The text `showLocation` builds from the cached location: "Null location" exactly
      when there is none. `fixed6` stands for the "%.6f" rendering of a coordinate. */
  function LocationText(cached: Option<Location>, fixed6: real -> string): (r: string)
    ensures r == NullLocation <==> cached.None?
  {
    match cached
    case None => NullLocation
    case Some(l) =>
      var r := "Latitude " + fixed6(l.latitude) + ", Longitude " + fixed6(l.longitude);
      assert r[0] != NullLocation[0];
      r
  }

  /** Reads an activity text back into its activity name and confidence. */
  function ParseActivity(s: string): Option<(string, int)> {
    if StartsWith(s, ActivityPrefix) && |ActivityPrefix| + |ActivitySuffix| <= |s| && EndsWith(s, ActivitySuffix) then
      var body := s[|ActivityPrefix|..|s| - |ActivitySuffix|];
      var i := WordEnd(body);
      var rest := body[i..];
      if StartsWith(rest, ActivityMiddle) then
        match ParseInt(rest[|ActivityMiddle|..])
        case Some(c) => Some((body[..i], c))
        case None => None
      else None
    else None
  }

  /** Reads a transition text back into its transition name and geofence id. */
  function ParseGeofence(s: string): Option<(string, string)> {
    if StartsWith(s, TransitionPrefix) then
      var body := s[|TransitionPrefix|..];
      var i := WordEnd(body);
      var rest := body[i..];
      if StartsWith(rest, TransitionMiddle) then Some((body[..i], rest[|TransitionMiddle|..]))
      else None
    else None
  }

  /** Any space-free activity name and any confidence are read back from the text
      `showActivity` builds from them. */
  lemma {:induction false} ParseActivityText(name: string, confidence: int)
    requires NoSpace(name)
    ensures ParseActivity(ActivityPrefix + name + ActivityMiddle + IntText(confidence) + ActivitySuffix) ==
            Some((name, confidence))
  {
    var digits := IntText(confidence);
    var tail := ActivityMiddle + digits;
    var s := ActivityPrefix + name + ActivityMiddle + digits + ActivitySuffix;
    assert s == ActivityPrefix + (name + tail) + ActivitySuffix;
    var body := s[|ActivityPrefix|..|s| - |ActivitySuffix|];
    assert body == name + tail;
    WordEndAfterWord(name, tail);
    assert body[..|name|] == name;
    assert body[|name|..] == tail;
    assert tail[|ActivityMiddle|..] == digits;
    IntTextRoundTrip(confidence);
  }

  /** Any space-free transition name and any id are read back from the text
      `showGeofence` builds from them. */
  lemma {:induction false} ParseGeofenceText(name: string, id: string)
    requires NoSpace(name)
    ensures ParseGeofence(TransitionPrefix + name + TransitionMiddle + id) == Some((name, id))
  {
    var tail := TransitionMiddle + id;
    var s := TransitionPrefix + name + TransitionMiddle + id;
    assert s == TransitionPrefix + (name + tail);
    var body := s[|TransitionPrefix|..];
    assert body == name + tail;
    WordEndAfterWord(name, tail);
    assert body[..|name|] == name;
    assert body[|name|..] == tail;
    assert tail[|TransitionMiddle|..] == id;
  }

  /** A present activity's text carries its activity name and its confidence. */
  lemma ShowActivityRoundTrip(a: DetectedActivity)
    ensures ParseActivity(ShowActivity(Some(a))) == Some((NameFromType(a), a.confidence as int))
  {
    ParseActivityText(NameFromType(a), a.confidence);
  }

  /** A present geofence's text carries its transition name and its request id. */
  lemma ShowGeofenceRoundTrip(g: Geofence, transitionType: int32)
    ensures ParseGeofence(ShowGeofence(Some(g), transitionType)) ==
            Some((TransitionNameFromType(transitionType), g.requestId))
  {
    ParseGeofenceText(TransitionNameFromType(transitionType), g.requestId);
  }

  /** Two activities render alike exactly when they have the same name and confidence. */
  lemma ShowActivityInjective(a: DetectedActivity, b: DetectedActivity)
    ensures ShowActivity(Some(a)) == ShowActivity(Some(b)) <==>
            NameFromType(a) == NameFromType(b) && a.confidence == b.confidence
  {
    ShowActivityRoundTrip(a);
    ShowActivityRoundTrip(b);
  }

  /** Two transitions render alike exactly when they have the same transition name
      and the same request id. */
  lemma ShowGeofenceInjective(g: Geofence, s: int32, h: Geofence, t: int32)
    ensures ShowGeofence(Some(g), s) == ShowGeofence(Some(h), t) <==>
            TransitionNameFromType(s) == TransitionNameFromType(t) && g.requestId == h.requestId
  {
    ShowGeofenceRoundTrip(g, s);
    ShowGeofenceRoundTrip(h, t);
  }
}
