// Timed travel between regions (services/systems/TravelSystem.ts).

module TravelSystem {
  import opened GameTypes

  /** A journey under way: where to, when it began and how long it takes (ms). */
  datatype Travel = Travel(targetRegion: RegionId, startTime: int, duration: int)

  /** The part of the game state travel reads and writes. */
  datatype TravelState = TravelState(currentRegion: RegionId, travel: Option<Travel>)

  /** A partial update: `currentRegion` and `travel` are written only on arrival. */
  datatype TravelUpdate = NoChange | Arrived(currentRegion: RegionId)

  /** Applies an update as the store merges a partial state. */
  function Apply(s: TravelState, u: TravelUpdate): (s': TravelState)
    ensures u.NoChange? ==> s' == s
    ensures u.Arrived? ==> s'.currentRegion == u.currentRegion && s'.travel.None?
  {
    match u
    case NoChange => s
    case Arrived(region) => TravelState(region, None)
  }

  /** `processTravel` at time `now`. */
  function ProcessTravel(s: TravelState, now: int): (r: (TravelUpdate, seq<VisualEvent>))
    // No journey: an empty update and no events.
    ensures s.travel.None? ==> r == (NoChange, [])
    // Arrival: the region becomes the target, the journey ends, one log.
    ensures s.travel.Some? && now >= s.travel.value.startTime + s.travel.value.duration ==>
      Apply(s, r.0) == TravelState(s.travel.value.targetRegion, None) && |r.1| == 1 && r.1[0].Log?
    // Still on the way: nothing happens.
    ensures s.travel.Some? && now < s.travel.value.startTime + s.travel.value.duration ==> r == (NoChange, [])
  {
    if s.travel.None? then (NoChange, [])
    else
      var arrivalTime := s.travel.value.startTime + s.travel.value.duration;
      if now >= arrivalTime then (Arrived(s.travel.value.targetRegion), [Log("TRAVEL_COMPLETE")])
      else (NoChange, [])
  }

  /** Once the arrival has been applied, a later tick changes nothing. */
  lemma ArrivalIsApplied(s: TravelState, now: int, later: int)
    requires s.travel.Some? && now >= s.travel.value.startTime + s.travel.value.duration
    ensures ProcessTravel(Apply(s, ProcessTravel(s, now).0), later) == (NoChange, [])
  {
  }

  /** A journey that has not arrived keeps the traveller where it is until it does. */
  lemma StaysUntilArrival(s: TravelState, now: int)
    requires s.travel.Some?
    ensures Apply(s, ProcessTravel(s, now).0).currentRegion != s.currentRegion ==>
      now >= s.travel.value.startTime + s.travel.value.duration
  {
  }
}
