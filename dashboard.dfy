/** The dashboard: it locates the device once, geocodes the position once, and
    queries the product filter on the field the filter mode names. */
module Dashboard {
  import opened Common
  import opened Catalog
  import LocationStore
  import ProductFilter

  datatype FilterMode = CityMode | StateDistrictMode | StateMode

  /** The initial value of `locationFilter`. */
  const InitialMode: FilterMode := CityMode

  /** The mode as the page spells it. */
  function ModeName(m: FilterMode): string {
    match m
    case CityMode => "city"
    case StateDistrictMode => "state_district"
    case StateMode => "state"
  }

  /** `s.charAt(0).toUpperCase() + s.slice(1)`. */
  function Capitalize(s: string): (r: string)
    ensures |r| == |s|
    ensures s != [] ==> r[0] == UpperChar(s[0]) && r[1..] == s[1..]
  {
    if s == [] then [] else [UpperChar(s[0])] + s[1..]
  }

  /** The "Filtering by" text. */
  function FilterLabel(m: FilterMode): string {
    if ModeName(m) == "state_district" then "State-District" else Capitalize(ModeName(m))
  }

  /** The three modes are labelled "City", "State-District" and "State", so the label
      tells the mode. */
  lemma FilterLabels(m: FilterMode, n: FilterMode)
    ensures FilterLabel(CityMode) == "City"
    ensures FilterLabel(StateDistrictMode) == "State-District"
    ensures FilterLabel(StateMode) == "State"
    ensures FilterLabel(m) == FilterLabel(n) ==> m == n
  {
    assert Capitalize("city") == "City";
    assert Capitalize("state") == "State";
  }

  /** A `GET /api/products/filter?<param>=<value>` request. */
  datatype Query = Query(param: string, value: string)

  /** The address field each mode queries. */
  function ModeValue(m: FilterMode, info: LocationInfo): string {
    match m
    case CityMode => info.city
    case StateDistrictMode => info.stateDistrict
    case StateMode => info.state
  }

  function QueryFor(m: FilterMode, info: LocationInfo): (q: Query)
    ensures q.param == ModeName(m) && q.value == ModeValue(m, info)
  {
    Query(ModeName(m), ModeValue(m, info))
  }

  /** The route's view of a query string with one parameter: the named parameter is
      present and the other two are null. */
  function Param(q: Query, name: string): Option<string> {
    if q.param == name then Some(q.value) else None
  }

  /** The filter column each mode means. */
  function ModeField(m: FilterMode): ProductFilter.Field {
    match m
    case CityMode => ProductFilter.CityField
    case StateDistrictMode => ProductFilter.StateDistrictField
    case StateMode => ProductFilter.StateField
  }

  /** Each mode's query asks the filter route for exactly one filter, on that mode's own
      column with that mode's address field, or for none when the field is empty. */
  lemma QueryRequestsOneFilter(m: FilterMode, info: LocationInfo, f: ProductFilter.Filter)
    ensures var q := QueryFor(m, info);
            ProductFilter.Requested(f, Param(q, "city"), Param(q, "state_district"), Param(q, "state")) <==>
              ModeValue(m, info) != "" && f == ProductFilter.Filter(ModeField(m), ModeValue(m, info))
  {
  }

  // ---------------------------------------------------------------------
  // The effects' guards, as functions of the store

  /** The geolocation effect asks for a position only when none is cached. */
  predicate GeolocationWanted(s: LocationStore.State) {
    s.location.None?
  }

  /** The reverse-geocoding effect's target: the cached position, when no address is cached. */
  function GeocodeTarget(s: LocationStore.State): (r: Option<Coords>)
    ensures r.Some? <==> s.location.Some? && s.locationInfo.None?
    ensures r.Some? ==> r == s.location
  {
    if s.locationInfo.Some? then None else s.location
  }

  /** The products effect's query: none without an address. */
  function ProductsQuery(s: LocationStore.State, m: FilterMode): (r: Option<Query>)
    ensures r.None? <==> s.locationInfo.None?
    ensures r.Some? ==> r.value == QueryFor(m, s.locationInfo.value)
  {
    if s.locationInfo.None? then None else Some(QueryFor(m, s.locationInfo.value))
  }

  /** Within thirty minutes of being stored, a cached position and address survive a
      reload, and the dashboard asks for neither again; once expired, it starts over
      with a geolocation request. */
  lemma ReloadUsesCache(s: LocationStore.State, now: int)
    requires s.location.Some? && s.locationInfo.Some?
    requires s.timestamp.Some? && s.timestamp.value != 0
    ensures var r := LocationStore.Merge(Some(LocationStore.Persist(s)), LocationStore.Initial, now);
            now - s.timestamp.value <= LocationStore.ExpiryTime ==>
              !GeolocationWanted(r) && GeocodeTarget(r).None? && ProductsQuery(r, InitialMode).Some?
    ensures var r := LocationStore.Merge(Some(LocationStore.Persist(s)), LocationStore.Initial, now);
            now - s.timestamp.value > LocationStore.ExpiryTime ==>
              GeolocationWanted(r) && GeocodeTarget(r).None? && ProductsQuery(r, InitialMode).None?
  {
    if now - s.timestamp.value <= LocationStore.ExpiryTime {
      LocationStore.RehydrateRoundTrip(s, LocationStore.Initial, now);
    }
  }

  // ---------------------------------------------------------------------
  // The page

  /** The requests an effect run may issue. */
  datatype Request = Geolocate | ReverseGeocode(at: Coords) | FetchProducts(query: Query)

  class DashboardView {
    const store: LocationStore.LocationCache
    var locationFilter: FilterMode
    var products: seq<Product>
    var loadingProducts: bool

    constructor (store: LocationStore.LocationCache)
      ensures this.store == store
      ensures locationFilter == InitialMode && products == [] && loadingProducts
    {
      this.store := store;
      locationFilter := InitialMode;
      products := [];
      loadingProducts := true;
    }

    /** The geolocation effect; `supported` is `"geolocation" in navigator`. */
    method GeolocationEffect(supported: bool) returns (request: Option<Request>)
      ensures request.Some? <==> supported && GeolocationWanted(store.Snapshot())
      ensures request.Some? ==> request.value == Geolocate
    {
      if store.location.Some? {
        return None;
      }
      request := if supported then Some(Geolocate) else None;
    }

    /** The position callback stores the position, stamped `now`. */
    method PositionFound(coords: Coords, now: int)
      modifies store
      ensures store.Snapshot() == old(store.Snapshot()).(location := Some(coords), timestamp := Some(now))
    {
      store.SetLocation(Some(coords), now);
    }

    /** The reverse-geocoding effect. */
    method ReverseGeocodeEffect() returns (request: Option<Request>)
      ensures request.Some? <==> GeocodeTarget(store.Snapshot()).Some?
      ensures request.Some? ==> request.value == ReverseGeocode(GeocodeTarget(store.Snapshot()).value)
    {
      if store.locationInfo.Some? {
        return None;
      }
      if store.location.Some? {
        return Some(ReverseGeocode(store.location.value));
      }
      request := None;
    }

    /** The geocoding response stores the address, stamped `now`. */
    method AddressFound(info: LocationInfo, now: int)
      modifies store
      ensures store.Snapshot() == old(store.Snapshot()).(locationInfo := Some(info), timestamp := Some(now))
    {
      store.SetLocationInfo(Some(info), now);
    }

    /** The products effect: exactly one query for the current mode. The loading flag is
        raised and lowered again before any response arrives. */
    method ProductsEffect() returns (request: Option<Request>)
      modifies this`loadingProducts
      ensures request.None? <==> store.locationInfo.None?
      ensures request.Some? ==> request.value == FetchProducts(ProductsQuery(store.Snapshot(), locationFilter).value)
      ensures loadingProducts == (if request.None? then old(loadingProducts) else false)
    {
      if store.locationInfo.None? {
        return None;
      }
      loadingProducts := true;
      request := Some(FetchProducts(QueryFor(locationFilter, store.locationInfo.value)));
      loadingProducts := false;
    }

    method ProductsLoaded(list: seq<Product>)
      modifies this`products
      ensures products == list
    {
      products := list;
    }

    method SetFilter(m: FilterMode)
      modifies this`locationFilter
      ensures locationFilter == m
    {
      locationFilter := m;
    }
  }
}
