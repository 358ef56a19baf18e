/** The persisted location store: the device position, its address and the time
    either was last set. Persisted state older than the expiry time is discarded
    when the store rehydrates. */
module LocationStore {
  import opened Common

  /** Thirty minutes, in milliseconds. */
  const ExpiryTime: int := 30 * 60 * 1000

  datatype State = State(location: Option<Coords>, locationInfo: Option<LocationInfo>, timestamp: Option<int>)

  const Initial: State := State(None, None, None)

  /** What storage hands back. A key may be absent (outer None) or hold null (inner
      None); `timestamp` is None when absent or null. */
  datatype Persisted = Persisted(
    location: Option<Option<Coords>>, locationInfo: Option<Option<LocationInfo>>, timestamp: Option<int>)

  /** The record the store writes for a state: every key present. */
  function Persist(s: State): Persisted {
    Persisted(Some(s.location), Some(s.locationInfo), s.timestamp)
  }

  /** `{...current, ...data}` for one key. */
  function Override<T>(persisted: Option<T>, current: T): T {
    match persisted
    case Some(v) => v
    case None => current
  }

  /** `!data || !data.timestamp`: nothing, or a null, absent or zero timestamp. */
  predicate Falsy(data: Option<Persisted>) {
    data.None? || data.value.timestamp.None? || data.value.timestamp.value == 0
  }

  predicate Expired(data: Persisted, now: int)
    requires data.timestamp.Some?
  {
    now - data.timestamp.value > ExpiryTime
  }

  /** The `merge` option: how persisted state is combined with the current state. */
  function Merge(data: Option<Persisted>, current: State, now: int): (r: State)
    ensures Falsy(data) ==> r == current
    ensures !Falsy(data) && Expired(data.value, now) ==> r == Initial
    ensures !Falsy(data) && !Expired(data.value, now) ==>
              && r.location == Override(data.value.location, current.location)
              && r.locationInfo == Override(data.value.locationInfo, current.locationInfo)
              && r.timestamp == data.value.timestamp
  {
    if Falsy(data) then current
    else if Expired(data.value, now) then current.(location := None, locationInfo := None, timestamp := None)
    else State(Override(data.value.location, current.location),
               Override(data.value.locationInfo, current.locationInfo),
               data.value.timestamp)
  }

  /** The expiry is strict: persisted state exactly thirty minutes old is kept, one
      millisecond older is discarded. */
  lemma ExpiryBoundary(data: Persisted, current: State, stamp: int)
    requires stamp != 0 && data.timestamp == Some(stamp)
    ensures Merge(Some(data), current, stamp + 1800000).timestamp == Some(stamp)
    ensures Merge(Some(data), current, stamp + 1800001) == Initial
  {
  }

  /** A state written with a timestamp comes back unchanged from storage within the
      expiry time, whatever the state it is merged into. */
  lemma RehydrateRoundTrip(s: State, current: State, now: int)
    requires s.timestamp.Some? && s.timestamp.value != 0
    requires now - s.timestamp.value <= ExpiryTime
    ensures Merge(Some(Persist(s)), current, now) == s
  {
  }

  /** Rehydrating into the initial state never yields data older than the expiry time. */
  lemma RehydratedIsFresh(data: Option<Persisted>, now: int)
    ensures var r := Merge(data, Initial, now);
            r.timestamp.Some? ==> now - r.timestamp.value <= ExpiryTime
  {
  }

  /** Merging the same persisted data a second time changes nothing. */
  lemma MergeIdempotent(data: Option<Persisted>, current: State, now: int)
    ensures Merge(data, Merge(data, current, now), now) == Merge(data, current, now)
  {
  }

  /** The store as mutable state. */
  class LocationCache {
    var location: Option<Coords>
    var locationInfo: Option<LocationInfo>
    var timestamp: Option<int>

    function Snapshot(): State
      reads this
    {
      State(location, locationInfo, timestamp)
    }

    constructor ()
      ensures Snapshot() == Initial
    {
      location := None;
      locationInfo := None;
      timestamp := None;
    }

    /** `setLocation(x)` at time `now`. */
    method SetLocation(x: Option<Coords>, now: int)
      modifies this`location, this`timestamp
      ensures Snapshot() == old(Snapshot()).(location := x, timestamp := Some(now))
    {
      location := x;
      timestamp := Some(now);
    }

    /** `setLocationInfo(x)` at time `now`. */
    method SetLocationInfo(x: Option<LocationInfo>, now: int)
      modifies this`locationInfo, this`timestamp
      ensures Snapshot() == old(Snapshot()).(locationInfo := x, timestamp := Some(now))
    {
      locationInfo := x;
      timestamp := Some(now);
    }

    /** Rehydration from storage at time `now`. */
    method Rehydrate(data: Option<Persisted>, now: int)
      modifies this
      ensures Snapshot() == Merge(data, old(Snapshot()), now)
    {
      var r := Merge(data, Snapshot(), now);
      location, locationInfo, timestamp := r.location, r.locationInfo, r.timestamp;
    }
  }
}
