/** The product upload page: the form state, the image list, and the payload it
    posts to the upload route. */
module UploadPage {
  import opened Common
  import UploadRoute

  // ---------------------------------------------------------------------
  // Conditions

  /** The `Condition` enum of the database schema. */
  datatype Condition = New | LikeNew | Used | Repaired

  /** The enum value as it is serialised. */
  function EnumName(c: Condition): string {
    match c
    case New => "NEW"
    case LikeNew => "LIKE_NEW"
    case Used => "USED"
    case Repaired => "REPAIRED"
  }

  /** The text the dropdown shows for each condition. */
  function ConditionLabel(c: Condition): string {
    match c
    case New => "Brand New"
    case LikeNew => "Like New"
    case Used => "Used"
    case Repaired => "Repaired"
  }

  /** `conditionMapping[text]`; any other text is undefined. */
  function ConditionMapping(text: string): (r: Option<Condition>)
    ensures r.Some? ==> ConditionLabel(r.value) == text
  {
    if text == "Brand New" then Some(New)
    else if text == "Like New" then Some(LikeNew)
    else if text == "Used" then Some(Used)
    else if text == "Repaired" then Some(Repaired)
    else None
  }

  /** The dropdown's options, in display order. */
  const Conditions: seq<string> := ["Brand New", "Like New", "Used", "Repaired"]

  /** The mapping is the inverse of the labels: a dropdown text maps to a condition
      exactly when it is that condition's label, and distinct conditions serialise distinctly. */
  lemma ConditionMappingInverse(text: string, c: Condition, d: Condition)
    ensures ConditionMapping(text) == Some(c) <==> text == ConditionLabel(c)
    ensures EnumName(c) == EnumName(d) ==> c == d
    ensures ConditionLabel(c) in Conditions
  {
    if text == ConditionLabel(c) {
      match c
      case New =>
      case LikeNew =>
      case Used => assert text[0] == 'U';
      case Repaired => assert text[0] == 'R';
    }
    if EnumName(c) == EnumName(d) {
      match c
      case New => assert EnumName(d)[0] == 'N';
      case LikeNew => assert EnumName(d)[0] == 'L';
      case Used => assert EnumName(d)[0] == 'U';
      case Repaired => assert EnumName(d)[0] == 'R';
    }
  }

  /** Every option of the dropdown maps to a condition. */
  lemma ConditionsAllMapped(k: int)
    requires 0 <= k < |Conditions|
    ensures ConditionMapping(Conditions[k]).Some?
  {
    match k
    case 0 => ConditionMappingInverse(Conditions[k], New, New);
    case 1 => ConditionMappingInverse(Conditions[k], LikeNew, LikeNew);
    case 2 => ConditionMappingInverse(Conditions[k], Used, Used);
    case 3 => ConditionMappingInverse(Conditions[k], Repaired, Repaired);
  }

  // ---------------------------------------------------------------------
  // The form

  /** The `formData` state; `location` is the address record as a whole. */
  datatype FormData = FormData(
    name: string, description: string, price: string, category: string, condition: string,
    locationCoords: string, location: LocationInfo)

  const BlankLocation: LocationInfo := LocationInfo("", "", "", "", "", "", "", "", "", "")

  /** The initial form, which a successful submit restores. */
  const BlankForm: FormData := FormData("", "", "", "", "", "", BlankLocation)

  /** The inputs wired to `handleInputChange`, by their `name` attribute. */
  datatype Field = NameField | DescriptionField | PriceField | CategoryField | ConditionField

  function FieldValue(form: FormData, f: Field): string {
    match f
    case NameField => form.name
    case DescriptionField => form.description
    case PriceField => form.price
    case CategoryField => form.category
    case ConditionField => form.condition
  }

  /** `{...prev, [name]: value}`: the named field takes the value and nothing else changes. */
  function WithField(form: FormData, f: Field, value: string): (r: FormData)
    ensures FieldValue(r, f) == value
    ensures forall g :: g != f ==> FieldValue(r, g) == FieldValue(form, g)
    ensures r.locationCoords == form.locationCoords && r.location == form.location
  {
    match f
    case NameField => form.(name := value)
    case DescriptionField => form.(description := value)
    case PriceField => form.(price := value)
    case CategoryField => form.(category := value)
    case ConditionField => form.(condition := value)
  }

  // ---------------------------------------------------------------------
  // Images

  /** A dropped or chosen file with the data URL its reader produced (None when the
      reader yields nothing). */
  datatype File = File(mimeType: string, dataUrl: Option<string>)

  predicate IsImage(f: File) {
    StartsWith(f.mimeType, "image/")
  }

  /** What one file contributes: its data URL if it is an image and the reader produced one. */
  function Contribution(f: File): (r: seq<string>)
    ensures |r| <= 1
  {
    if IsImage(f) && Truthy(f.dataUrl) then [f.dataUrl.value] else []
  }

  /** The data URLs `handleFiles` appends for `files`, in file order. */
  function ImageData(files: seq<File>): (r: seq<string>)
    ensures |r| <= |files|
  {
    if files == [] then [] else Contribution(files[0]) + ImageData(files[1..])
  }

  /** Only image files contribute, and every image file with data does. */
  lemma {:induction false} ImageDataOnlyImages(files: seq<File>)
    ensures forall x :: x in ImageData(files) ==> exists f :: f in files && IsImage(f) && f.dataUrl == Some(x)
    ensures forall f :: f in files && IsImage(f) && Truthy(f.dataUrl) ==> f.dataUrl.value in ImageData(files)
  {
    if files != [] {
      ImageDataOnlyImages(files[1..]);
      assert forall f :: f in files ==> f == files[0] || f in files[1..];
    }
  }

  lemma {:induction false} ImageDataAppend(files: seq<File>, f: File)
    ensures ImageData(files + [f]) == ImageData(files) + Contribution(f)
  {
    if files == [] {
      assert files + [f] == [f];
      assert ImageData([f]) == Contribution(f) + ImageData([]);
    } else {
      assert (files + [f])[0] == files[0];
      assert (files + [f])[1..] == files[1..] + [f];
      ImageDataAppend(files[1..], f);
    }
  }

  /** `prev.filter((_, i) => i !== index)`. */
  function RemoveAt(s: seq<string>, index: int): (r: seq<string>)
    ensures 0 <= index < |s| ==> r == s[..index] + s[index + 1..]
    ensures !(0 <= index < |s|) ==> r == s
  {
    if s == [] then []
    else (if index == 0 then [] else [s[0]]) + RemoveAt(s[1..], index - 1)
  }

  // ---------------------------------------------------------------------
  // The payload

  function LocationInputOf(info: LocationInfo): UploadRoute.LocationInput {
    UploadRoute.LocationInput(
      Some(info.amenity), Some(info.road), Some(info.city), Some(info.county),
      Some(info.stateDistrict), Some(info.state), Some(info.iso3166Lvl4),
      Some(info.postcode), Some(info.country), Some(info.countryCode))
  }

  /** `conditionMapping[condition]`, serialised; an unknown text is dropped from the JSON. */
  function SerializedCondition(text: string): (r: Option<string>)
    ensures r.Some? <==> ConditionMapping(text).Some?
    ensures r.Some? ==> r.value == EnumName(ConditionMapping(text).value)
  {
    match ConditionMapping(text)
    case Some(c) => Some(EnumName(c))
    case None => None
  }

  /** The body posted by `handleSubmit`. */
  function Payload(form: FormData, images: seq<string>, info: LocationInfo): (b: UploadRoute.Body)
    ensures b.category == Some(Upper(form.category))
    ensures b.images == Some(images)
    ensures b.location == Some(LocationInputOf(info))
  {
    UploadRoute.Body(
      Some(form.name), Some(form.description), NumberOf(form.price), Some(Upper(form.category)),
      SerializedCondition(form.condition), Some(images), Some(LocationInputOf(info)), Some(form.locationCoords))
  }

  /** The upload route accepts the page's payload exactly when every input is filled,
      the price is a non-zero number, the condition is one of the dropdown's, the
      coordinates are known and the address names a city, a state and a country. */
  lemma PayloadAccepted(form: FormData, images: seq<string>, info: LocationInfo)
    ensures UploadRoute.RequiredPresent(Payload(form, images, info)) <==>
              && form.name != "" && form.description != ""
              && NumberOf(form.price).Some? && NumberOf(form.price).value != 0
              && form.category != "" && ConditionMapping(form.condition).Some?
              && form.locationCoords != ""
    ensures UploadRoute.LocationPresent(Payload(form, images, info)) <==>
              info.city != "" && info.state != "" && info.country != ""
  {
    var b := Payload(form, images, info);
    if ConditionMapping(form.condition).Some? {
      assert b.condition.value == EnumName(ConditionMapping(form.condition).value);
      assert |EnumName(ConditionMapping(form.condition).value)| > 0;
    }
    assert |Upper(form.category)| == |form.category|;
  }

  // ---------------------------------------------------------------------
  // The page state

  /** The result of the upload request: created, or refused with the route's
      `error` text if the response carries one. */
  datatype SubmitOutcome = Succeeded | Failed(error: Option<string>)

  /** The page's view of each route reply. */
  function OutcomeOf(r: UploadRoute.Reply): (o: SubmitOutcome)
    ensures o == Succeeded <==> r.Created?
    ensures o.Failed? ==> Truthy(o.error)
  {
    match r
    case Unauthenticated => Failed(Some("Unauthenticated"))
    case MissingFields => Failed(Some("Missing required fields"))
    case MissingLocationFields => Failed(Some("Missing required location fields"))
    case ServerError => Failed(Some("Internal server error"))
    case Created(_) => Succeeded
  }

  class UploadForm {
    var formData: FormData
    var images: seq<string>
    var location: Option<Coords>
    var locationInfo: Option<LocationInfo>

    constructor ()
      ensures formData == BlankForm && images == [] && location == None && locationInfo == None
    {
      formData := BlankForm;
      images := [];
      location := None;
      locationInfo := None;
    }

    /** The geolocation callback: store the position and its `lat;lon` text. */
    method PositionFound(coords: Coords, coordsText: string)
      modifies this`location, this`formData
      ensures location == Some(coords)
      ensures formData == old(formData).(locationCoords := coordsText)
    {
      location := Some(coords);
      formData := formData.(locationCoords := coordsText);
    }

    /** The reverse-geocoding response, and the effect copying it into the form. */
    method AddressFound(info: LocationInfo)
      modifies this`locationInfo, this`formData
      ensures locationInfo == Some(info)
      ensures formData == old(formData).(location := info)
    {
      locationInfo := Some(info);
      formData := formData.(location := info);
    }

    method InputChanged(f: Field, value: string)
      modifies this`formData
      ensures formData == WithField(old(formData), f, value)
    {
      formData := WithField(formData, f, value);
    }

    /** `handleFiles`: each image file's data URL is appended, in file order. */
    method HandleFiles(files: seq<File>)
      modifies this`images
      ensures images == old(images) + ImageData(files)
    {
      for i := 0 to |files|
        invariant images == old(images) + ImageData(files[..i])
      {
        assert files[..i + 1] == files[..i] + [files[i]];
        ImageDataAppend(files[..i], files[i]);
        if IsImage(files[i]) && Truthy(files[i].dataUrl) {
          images := images + [files[i].dataUrl.value];
        }
        assert images == old(images) + ImageData(files[..i]) + Contribution(files[i]);
      }
      assert files[..|files|] == files;
    }

    method RemoveImage(index: int)
      modifies this`images
      ensures images == RemoveAt(old(images), index)
    {
      images := RemoveAt(images, index);
    }

    /** `handleSubmit`. Without an address no request is sent; otherwise the payload
        is posted and, on success only, the form and the images are reset. */
    method HandleSubmit(outcome: SubmitOutcome) returns (request: Option<UploadRoute.Body>, toast: Toast)
      modifies this`formData, this`images
      ensures old(locationInfo).None? ==>
                && request == None && toast == ToastError("Please wait for location to be fetched!")
                && formData == old(formData) && images == old(images)
      ensures old(locationInfo).Some? ==>
                request == Some(Payload(old(formData), old(images), old(locationInfo).value))
      ensures old(locationInfo).Some? && outcome == Succeeded ==>
                toast == ToastSuccess("Product created!") && formData == BlankForm && images == []
      ensures old(locationInfo).Some? && outcome.Failed? ==>
                && toast == ToastError(if Truthy(outcome.error) then outcome.error.value else "Something went wrong!")
                && formData == old(formData) && images == old(images)
    {
      if locationInfo.None? {
        return None, ToastError("Please wait for location to be fetched!");
      }
      request := Some(Payload(formData, images, locationInfo.value));
      match outcome
      case Succeeded =>
        toast := ToastSuccess("Product created!");
        formData := BlankForm;
        images := [];
      case Failed(error) =>
        toast := ToastError(if Truthy(error) then error.value else "Something went wrong!");
    }
  }

  // ---------------------------------------------------------------------
  // Submitting a second listing

  /** The form after the user fills in the five inputs. */
  function Filled(form: FormData, name: string, description: string, price: string,
                  category: string, condition: string): FormData
  {
    WithField(WithField(WithField(WithField(WithField(form, NameField, name), DescriptionField, description),
      PriceField, price), CategoryField, category), ConditionField, condition)
  }

  /** The reset after a successful submit blanks `locationCoords` too, and the position
      is only fetched when the page mounts: whatever is typed next, the next payload is
      refused by the upload route as lacking a required field. */
  lemma SecondListingRefused(name: string, description: string, price: string, category: string,
                             condition: string, images: seq<string>, info: LocationInfo)
    ensures !UploadRoute.RequiredPresent(Payload(Filled(BlankForm, name, description, price, category, condition),
                                                 images, info))
  {
    var form := Filled(BlankForm, name, description, price, category, condition);
    assert form.locationCoords == "";
  }

  /** A reset that keeps what the page fetched once per mount. */
  function ResetKeepingLocation(form: FormData): (r: FormData)
    ensures forall f :: FieldValue(r, f) == ""
    ensures r.locationCoords == form.locationCoords && r.location == form.location
  {
    BlankForm.(locationCoords := form.locationCoords, location := form.location)
  }

  /** With that reset, refilling the inputs after a successful submit is accepted again. */
  lemma SecondListingAccepted(form: FormData, name: string, description: string, price: string,
                              category: string, condition: string, images: seq<string>, info: LocationInfo)
    requires form.locationCoords != ""
    requires name != "" && description != "" && category != ""
    requires NumberOf(price).Some? && NumberOf(price).value != 0
    requires ConditionMapping(condition).Some?
    ensures UploadRoute.RequiredPresent(
              Payload(Filled(ResetKeepingLocation(form), name, description, price, category, condition), images, info))
  {
    var refilled := Filled(ResetKeepingLocation(form), name, description, price, category, condition);
    assert refilled.locationCoords == form.locationCoords;
    assert FieldValue(refilled, NameField) == name;
    assert FieldValue(refilled, DescriptionField) == description;
    assert FieldValue(refilled, PriceField) == price;
    assert FieldValue(refilled, CategoryField) == category;
    PayloadAccepted(refilled, images, info);
  }
}
