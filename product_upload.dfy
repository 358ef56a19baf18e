/** POST /api/product/upload: validates the listing, uploads its images one by one,
    and stores the product with its location and image URLs. */
module UploadRoute {
  import opened Common
  import opened Catalog

  /** The `location` object of the body; any field may be missing. */
  datatype LocationInput = LocationInput(
    amenity: Option<string>, road: Option<string>, city: Option<string>, county: Option<string>,
    stateDistrict: Option<string>, state: Option<string>, iso3166Lvl4: Option<string>,
    postcode: Option<string>, country: Option<string>, countryCode: Option<string>)

  /** The request body. `price` is a JSON number (None for a missing value or NaN). */
  datatype Body = Body(
    name: Option<string>, description: Option<string>, price: Option<int>,
    category: Option<string>, condition: Option<string>, images: Option<seq<string>>,
    location: Option<LocationInput>, locationCoords: Option<string>)

  datatype Reply =
    | Unauthenticated
    | MissingFields
    | MissingLocationFields
    /** The catch block: an upload or the create threw. */
    | ServerError
    | Created(product: Product)

  function Status(r: Reply): int {
    match r
    case Unauthenticated => 401
    case MissingFields => 400
    case MissingLocationFields => 400
    case ServerError => 500
    case Created(_) => 201
  }

  /** None of name, description, price, category, condition, locationCoords is falsy. */
  predicate RequiredPresent(b: Body) {
    && Truthy(b.name) && Truthy(b.description)
    && b.price.Some? && b.price.value != 0
    && Truthy(b.category) && Truthy(b.condition) && Truthy(b.locationCoords)
  }

  /** `location?.city`, `location?.state` and `location?.country` are all truthy. */
  predicate LocationPresent(b: Body) {
    b.location.Some? && Truthy(b.location.value.city) && Truthy(b.location.value.state)
    && Truthy(b.location.value.country)
  }

  /** The location row created with the product; falsy optional columns become null. */
  function StoredLocationOf(loc: LocationInput): (s: StoredLocation)
    requires Truthy(loc.city) && Truthy(loc.state) && Truthy(loc.country)
    ensures s.city == loc.city.value && s.state == loc.state.value && s.country == loc.country.value
    ensures !Truthy(loc.amenity) ==> s.amenity.None?
    ensures !Truthy(loc.road) ==> s.road.None?
    ensures !Truthy(loc.county) ==> s.county.None?
    ensures !Truthy(loc.stateDistrict) ==> s.stateDistrict.None?
    ensures !Truthy(loc.iso3166Lvl4) ==> s.iso3166Lvl4.None?
    ensures s.amenity == OrNull(loc.amenity) && s.road == OrNull(loc.road) && s.county == OrNull(loc.county)
    ensures s.stateDistrict == OrNull(loc.stateDistrict) && s.iso3166Lvl4 == OrNull(loc.iso3166Lvl4)
    ensures Truthy(loc.amenity) ==> s.amenity == loc.amenity
    ensures Truthy(loc.road) ==> s.road == loc.road
    ensures Truthy(loc.county) ==> s.county == loc.county
    ensures Truthy(loc.stateDistrict) ==> s.stateDistrict == loc.stateDistrict
    ensures Truthy(loc.iso3166Lvl4) ==> s.iso3166Lvl4 == loc.iso3166Lvl4
    ensures s.postcode == loc.postcode && s.countryCode == loc.countryCode
  {
    StoredLocation(
      OrNull(loc.amenity), OrNull(loc.road), loc.city.value, OrNull(loc.county),
      OrNull(loc.stateDistrict), loc.state.value, OrNull(loc.iso3166Lvl4),
      loc.postcode, loc.country.value, loc.countryCode)
  }

  /** `images || []`. */
  function ImagesOf(b: Body): seq<string> {
    match b.images
    case Some(imgs) => imgs
    case None => []
  }

  /** The secure URL the media service hands back for its n-th upload. */
  function SecureUrl(n: nat): string {
    "media-" + Decimal(n)
  }

  /** The media service: the images uploaded so far, in upload order. */
  class MediaStore {
    var uploads: seq<string>

    constructor ()
      ensures uploads == []
    {
      uploads := [];
    }

    method Upload(image: string) returns (url: string)
      modifies this
      ensures uploads == old(uploads) + [image]
      ensures url == SecureUrl(|old(uploads)|)
    {
      url := SecureUrl(|uploads|);
      uploads := uploads + [image];
    }
  }

  /** The product table; new rows get consecutive ids and the schema's default
      moderation status, which is a parameter here. */
  class ProductTable {
    var rows: seq<Product>
    var nextId: nat
    const initialStatus: string

    constructor (initialStatus: string)
      ensures rows == [] && nextId == 0 && this.initialStatus == initialStatus
    {
      rows := [];
      nextId := 0;
      this.initialStatus := initialStatus;
    }

    method Create(p: Product) returns (stored: Product)
      modifies this
      ensures stored == p.(id := Decimal(old(nextId)))
      ensures rows == old(rows) + [stored] && nextId == old(nextId) + 1
    {
      stored := p.(id := Decimal(nextId));
      rows := rows + [stored];
      nextId := nextId + 1;
    }
  }

  /** How many of `n` uploads succeed when the upload at index `failAt`, if any,
      rejects: the loop stops at the first rejection. */
  function UploadedCount(failAt: Option<nat>, n: nat): (k: nat)
    ensures k <= n
    ensures k < n <==> failAt.Some? && failAt.value < n
    ensures k < n ==> k == failAt.value
  {
    if failAt.Some? && failAt.value < n then failAt.value else n
  }

  /** The upload loop: one URL per image, pushed in input order. The upload at index
      `failAt`, if there is one, rejects; the loop then stops, and the images uploaded
      before it stay with the media service. */
  method UploadAll(media: MediaStore, images: seq<string>, failAt: Option<nat>) returns (urls: seq<string>, ok: bool)
    modifies media
    ensures ok <==> UploadedCount(failAt, |images|) == |images|
    ensures media.uploads == old(media.uploads) + images[..UploadedCount(failAt, |images|)]
    ensures |urls| == UploadedCount(failAt, |images|)
    ensures forall k :: 0 <= k < |urls| ==>
              urls[k] == SecureUrl(|old(media.uploads)| + k) && media.uploads[|old(media.uploads)| + k] == images[k]
  {
    ghost var base := media.uploads;
    urls := [];
    for i := 0 to |images|
      invariant media.uploads == base + images[..i]
      invariant |urls| == i
      invariant forall k :: 0 <= k < i ==> urls[k] == SecureUrl(|base| + k)
      invariant failAt.Some? ==> i <= failAt.value
    {
      if failAt == Some(i) {
        return urls, false;
      }
      var url := media.Upload(images[i]);
      urls := urls + [url];
      assert images[..i + 1] == images[..i] + [images[i]];
    }
    assert images[..|images|] == images;
    ok := true;
  }

  /** The handler. Every validation failure answers before any upload or write.
      `parsed` is false when `req.json()` throws. The upload at index `failAt`, if
      any, rejects, and `createFails` says whether the create throws. Every throw is
      answered 500 by the catch block, and the images uploaded before it stay with
      the media service. */
  method Post(caller: Option<string>, body: Body, media: MediaStore, table: ProductTable,
              parsed: bool, failAt: Option<nat>, createFails: bool) returns (reply: Reply)
    modifies media, table
    ensures !Truthy(caller) ==> reply == Unauthenticated
    ensures Truthy(caller) && !parsed ==> reply == ServerError
    ensures Truthy(caller) && parsed && !RequiredPresent(body) ==> reply == MissingFields
    ensures Truthy(caller) && parsed && RequiredPresent(body) && !LocationPresent(body) ==> reply == MissingLocationFields
    ensures Truthy(caller) && parsed && RequiredPresent(body) && LocationPresent(body) ==>
              && (reply.Created? <==> UploadedCount(failAt, |ImagesOf(body)|) == |ImagesOf(body)| && !createFails)
              && (!reply.Created? ==> reply == ServerError)
              && media.uploads == old(media.uploads) + ImagesOf(body)[..UploadedCount(failAt, |ImagesOf(body)|)]
    ensures !(Truthy(caller) && parsed && RequiredPresent(body) && LocationPresent(body)) ==>
              media.uploads == old(media.uploads)
    ensures !reply.Created? ==> table.rows == old(table.rows) && table.nextId == old(table.nextId)
    ensures reply.Created? ==>
              && media.uploads == old(media.uploads) + ImagesOf(body)
              && table.rows == old(table.rows) + [reply.product]
              && reply.product.userId == caller.value
              && reply.product.name == body.name.value
              && reply.product.description == body.description.value
              && reply.product.price == body.price.value
              && reply.product.category == body.category.value
              && reply.product.condition == body.condition.value
              && reply.product.locationCoords == body.locationCoords.value
              && reply.product.status == table.initialStatus
              && reply.product.location == Some(StoredLocationOf(body.location.value))
              && |reply.product.images| == |ImagesOf(body)|
              && (forall k :: 0 <= k < |ImagesOf(body)| ==>
                    reply.product.images[k] == SecureUrl(|old(media.uploads)| + k)
                    && media.uploads[|old(media.uploads)| + k] == ImagesOf(body)[k])
  {
    if !Truthy(caller) {
      return Unauthenticated;
    }
    if !parsed {
      return ServerError;
    }
    if !RequiredPresent(body) {
      return MissingFields;
    }
    if !LocationPresent(body) {
      return MissingLocationFields;
    }
    var urls, ok := UploadAll(media, ImagesOf(body), failAt);
    if !ok || createFails {
      return ServerError;
    }
    assert ImagesOf(body)[..|ImagesOf(body)|] == ImagesOf(body);
    var p := Product("", body.name.value, body.description.value, body.price.value,
                     body.category.value, body.condition.value, table.initialStatus, caller.value,
                     body.locationCoords.value, Some(StoredLocationOf(body.location.value)), urls);
    var stored := table.Create(p);
    reply := Created(stored);
  }
}
