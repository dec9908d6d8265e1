/** The two switch statements of `SmartLocationImpl` that turn Play Services codes
    into names. The library constants are distinct integers; the values are
    those of Play Services. */
module Classify {
  import opened Types

  // DetectedActivity activity types
  const IN_VEHICLE: int32 := 0
  const ON_BICYCLE: int32 := 1
  const ON_FOOT: int32 := 2
  const STILL: int32 := 3
  const TILTING: int32 := 5

  // Geofence transition types
  const GEOFENCE_TRANSITION_ENTER: int32 := 1
  const GEOFENCE_TRANSITION_EXIT: int32 := 2
  const GEOFENCE_TRANSITION_DWELL: int32 := 4

  /** The activity types the switch in `getNameFromType` names. */
  const NamedActivityTypes: set<int32> := {IN_VEHICLE, ON_BICYCLE, ON_FOOT, STILL, TILTING}

  /** Every name `getNameFromType` can return. */
  const ActivityNames: set<string> := {"in_vehicle", "on_bicycle", "on_foot", "still", "tilting", "unknown"}

  /** Every name `getTransitionNameFromType` can return. */
  const TransitionNames: set<string> := {"enter", "exit", "dwell"}

  predicate NoSpace(s: string) {
    forall i :: 0 <= i < |s| ==> s[i] != ' '
  }

  /** `getNameFromType`: total; each named code has its own name and every other
      code, WALKING and RUNNING among them, is "unknown". */
  function NameFromType(activity: DetectedActivity): (r: string)
    ensures r in ActivityNames && NoSpace(r)
    ensures r == "in_vehicle" <==> activity.activityType == IN_VEHICLE
    ensures r == "on_bicycle" <==> activity.activityType == ON_BICYCLE
    ensures r == "on_foot" <==> activity.activityType == ON_FOOT
    ensures r == "still" <==> activity.activityType == STILL
    ensures r == "tilting" <==> activity.activityType == TILTING
    ensures r == "unknown" <==> activity.activityType !in NamedActivityTypes
  {
    var t := activity.activityType;
    if t == IN_VEHICLE then "in_vehicle"
    else if t == ON_BICYCLE then "on_bicycle"
    else if t == ON_FOOT then "on_foot"
    else if t == STILL then "still"
    else if t == TILTING then "tilting"
    else "unknown"
  }

  /** `getTransitionNameFromType`: "enter" exactly for ENTER, "exit" exactly for
      EXIT, and "dwell" for every other code, DWELL and unrecognised codes alike. */
  function TransitionNameFromType(transitionType: int32): (r: string)
    ensures r in TransitionNames && NoSpace(r)
    ensures r == "enter" <==> transitionType == GEOFENCE_TRANSITION_ENTER
    ensures r == "exit" <==> transitionType == GEOFENCE_TRANSITION_EXIT
    ensures r == "dwell" <==> transitionType != GEOFENCE_TRANSITION_ENTER && transitionType != GEOFENCE_TRANSITION_EXIT
    ensures transitionType == GEOFENCE_TRANSITION_DWELL ==> r == "dwell"
  {
    if transitionType == GEOFENCE_TRANSITION_ENTER then "enter"
    else if transitionType == GEOFENCE_TRANSITION_EXIT then "exit"
    else "dwell"
  }

  /** Two activities get the same name exactly when they have the same named type
      or both have types outside the named ones. */
  lemma NameFromTypeSameName(a: DetectedActivity, b: DetectedActivity)
    ensures NameFromType(a) == NameFromType(b) <==>
            a.activityType == b.activityType ||
            (a.activityType !in NamedActivityTypes && b.activityType !in NamedActivityTypes)
  {
  }
}
