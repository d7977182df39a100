/**
 * The listing editor's draft (client/src/pages/ListingForm.jsx): the form fields with the
 * ordered list of uploaded image URLs, the batch of selected files, and the flags the
 * handlers set while uploading and submitting. Uploads and the create/update request are
 * external; their outcomes are parameters.
 */
module ListingDraft {
  import opened Wrappers

  /** The greatest number of images a listing may have. */
  const MaxImages: nat := 6

  /** The property names of the form's fields. */
  const FieldNames: set<string> := {
    "imageUrls", "name", "description", "address", "type", "bedrooms", "bathrooms",
    "regularPrice", "discountPrice", "offer", "parking", "furnished"}

  /** A key that names no form field, such as the ids "rent" and "sale" of the type radios. */
  type StrayKey = s: string | s !in FieldNames witness "rent"

  /** `formData`. `extras` holds keys a handler adds that are not listing fields. */
  datatype FormData = FormData(
    imageUrls: seq<string>,
    name: string,
    description: string,
    address: string,
    listingType: string,
    bedrooms: int,
    bathrooms: int,
    regularPrice: int,
    discountPrice: int,
    offer: bool,
    parking: bool,
    furnished: bool,
    extras: map<StrayKey, string>)

  /** The form's keys. */
  datatype Field =
    | ImageUrls | Name | Description | Address | Type
    | Bedrooms | Bathrooms | RegularPrice | DiscountPrice
    | Offer | Parking | Furnished

  type TextField = k: Field | k.Name? || k.Description? || k.Address? witness Name
  type NumberField = k: Field | k.Bedrooms? || k.Bathrooms? || k.RegularPrice? || k.DiscountPrice?
    witness Bedrooms
  type FlagField = k: Field | k.Offer? || k.Parking? || k.Furnished? witness Offer

  datatype Value = Urls(urls: seq<string>) | Text(s: string) | Number(n: int) | Flag(b: bool)

  function Get(d: FormData, k: Field): Value
  {
    match k
    case ImageUrls => Urls(d.imageUrls)
    case Name => Text(d.name)
    case Description => Text(d.description)
    case Address => Text(d.address)
    case Type => Text(d.listingType)
    case Bedrooms => Number(d.bedrooms)
    case Bathrooms => Number(d.bathrooms)
    case RegularPrice => Number(d.regularPrice)
    case DiscountPrice => Number(d.discountPrice)
    case Offer => Flag(d.offer)
    case Parking => Flag(d.parking)
    case Furnished => Flag(d.furnished)
  }

  /** Every field outside `changed`, and every extra key, reads the same in both drafts. */
  ghost predicate OnlyChanged(before: FormData, after: FormData, changed: set<Field>)
  {
    && (forall k :: k !in changed ==> Get(after, k) == Get(before, k))
    && after.extras == before.extras
  }

  /** The draft a new listing starts from. */
  const InitialFormData: FormData :=
    FormData([], "", "", "", "rent", 1, 1, 50, 0, false, false, false, map[])

  // ---------------------------------------------------------------- image list

  /** The upload guard: a non-empty batch that keeps the listing under seven images. */
  predicate Admits(batchSize: nat, imageCount: nat)
  {
    0 < batchSize && batchSize + imageCount < 7
  }

  /** One file's upload: the URL it can be downloaded from, or the storage error. */
  datatype UploadResult = Uploaded(url: string) | UploadFailed

  /**
   * `Promise.all` over the batch's uploads: every URL in file order if every upload
   * succeeded, nothing at all if any failed.
   */
  function CollectUrls(results: seq<UploadResult>): (r: Option<seq<string>>)
    ensures r.Some? <==> forall i :: 0 <= i < |results| ==> results[i].Uploaded?
    ensures r.Some? ==> |r.value| == |results|
    ensures r.Some? ==> forall i :: 0 <= i < |results| ==> r.value[i] == results[i].url
  {
    if results == [] then Some([])
    else
      match results[0]
      case UploadFailed => None
      case Uploaded(url) =>
        match CollectUrls(results[1..])
        case None => None
        case Some(rest) => Some([url] + rest)
  }

  /**
   * A batch that passed the guard, merged onto the list it was checked against, leaves at
   * most six images.
   */
  lemma AdmittedMergeWithinCap(imageUrls: seq<string>, results: seq<UploadResult>)
    requires Admits(|results|, |imageUrls|)
    requires CollectUrls(results).Some?
    ensures |imageUrls + CollectUrls(results).value| <= MaxImages
    ensures |imageUrls| < |imageUrls + CollectUrls(results).value|
  {
  }

  /** `imageUrls.filter((_, i) => i !== index)`. */
  function RemoveAt(urls: seq<string>, index: int): (r: seq<string>)
    ensures 0 <= index < |urls| ==> |r| == |urls| - 1
    ensures 0 <= index < |urls| ==> forall i :: 0 <= i < index ==> r[i] == urls[i]
    ensures 0 <= index < |urls| ==> forall i :: index <= i < |r| ==> r[i] == urls[i + 1]
    ensures !(0 <= index < |urls|) ==> r == urls
  {
    if 0 <= index < |urls| then urls[..index] + urls[index + 1..] else urls
  }

  /** Removing one position takes away exactly the URL there and no other. */
  lemma RemoveAtTakesOne(urls: seq<string>, index: int)
    requires 0 <= index < |urls|
    ensures multiset(RemoveAt(urls, index)) + multiset{urls[index]} == multiset(urls)
  {
    assert urls == urls[..index] + [urls[index]] + urls[index + 1..];
  }

  // ---------------------------------------------------------------- handleChange

  /** What an input of the form reports when it changes. */
  datatype FormEvent =
    | RadioChange(id: StrayKey, value: string, checked: bool)   // the type radios
    | CheckboxChange(box: FlagField, checked: bool)
    | TextChange(text: TextField, value: string)
    | NumberChange(number: NumberField, amount: int)

  function WithText(d: FormData, k: TextField, s: string): (r: FormData)
    ensures Get(r, k) == Text(s) && OnlyChanged(d, r, {k})
  {
    match k
    case Name => d.(name := s)
    case Description => d.(description := s)
    case Address => d.(address := s)
  }

  function WithNumber(d: FormData, k: NumberField, n: int): (r: FormData)
    ensures Get(r, k) == Number(n) && OnlyChanged(d, r, {k})
  {
    match k
    case Bedrooms => d.(bedrooms := n)
    case Bathrooms => d.(bathrooms := n)
    case RegularPrice => d.(regularPrice := n)
    case DiscountPrice => d.(discountPrice := n)
  }

  function WithFlag(d: FormData, k: FlagField, b: bool): (r: FormData)
    ensures Get(r, k) == Flag(b) && OnlyChanged(d, r, {k})
  {
    match k
    case Offer => d.(offer := b)
    case Parking => d.(parking := b)
    case Furnished => d.(furnished := b)
  }

  /**
   * The updater `handleChange` applies: a checked radio sets only `type` to its value; a
   * checkbox sets only its field to its checked state; any other input, an unchecked radio
   * included, sets only the key named by its id to its value.
   */
  function ApplyFormChange(d: FormData, e: FormEvent): (r: FormData)
    ensures e.RadioChange? && e.checked ==>
              r.listingType == e.value && OnlyChanged(d, r, {Type})
    ensures e.RadioChange? && !e.checked ==>
              r.extras == d.extras[e.id := e.value] &&
              forall k :: Get(r, k) == Get(d, k)
    ensures e.CheckboxChange? ==> Get(r, e.box) == Flag(e.checked) && OnlyChanged(d, r, {e.box})
    ensures e.TextChange? ==> Get(r, e.text) == Text(e.value) && OnlyChanged(d, r, {e.text})
    ensures e.NumberChange? ==>
              Get(r, e.number) == Number(e.amount) && OnlyChanged(d, r, {e.number})
  {
    match e
    case RadioChange(id, value, checked) =>
      if checked then d.(listingType := value) else d.(extras := d.extras[id := value])
    case CheckboxChange(box, checked) => WithFlag(d, box, checked)
    case TextChange(text, value) => WithText(d, text, value)
    case NumberChange(number, amount) => WithNumber(d, number, amount)
  }

  // ---------------------------------------------------------------- submit validation

  const NoImagesMessage := "You must upload at least one image"
  const DiscountMessage := "Discount price must be lower than regular price"

  /** The checks `handleSubmit` makes before any request, in order. */
  function ValidateForSubmit(d: FormData): (r: Option<string>)
    ensures r == Some(NoImagesMessage) <==> |d.imageUrls| == 0
    ensures r == Some(DiscountMessage) <==> |d.imageUrls| > 0 && d.regularPrice < d.discountPrice
    ensures r.None? <==> |d.imageUrls| > 0 && d.discountPrice <= d.regularPrice
  {
    if |d.imageUrls| < 1 then Some(NoImagesMessage)
    else if d.regularPrice < d.discountPrice then Some(DiscountMessage)
    else None
  }

  /** The price check ignores `offer`: turning the offer off does not make a draft pass. */
  lemma DiscountCheckIgnoresOffer(d: FormData, offer: bool)
    ensures ValidateForSubmit(d.(offer := offer)) == ValidateForSubmit(d)
  {
  }

  // ---------------------------------------------------------------- the editor

  /** A file picked in the file input; only its position in the batch matters here. */
  datatype File = File(name: string)

  /** How the create/update request settles. */
  datatype SubmitResponse =
    | Saved(id: string)              // the stored listing
    | Refused(message: string)       // `{ success: false, message }`
    | Thrown(message: string)        // the fetch or the JSON decoding threw

  /** Whether the editor creates a listing or updates the one with the given id. */
  datatype Mode = Create | Update(listingId: string)

  /** The POST the editor sends: its path, the draft, and the signed-in user's id (`userRef`). */
  datatype SubmitRequest = SubmitRequest(endpoint: string, body: FormData, userRef: string)

  function Endpoint(mode: Mode): string
  {
    match mode
    case Create => "/api/listing/create"
    case Update(id) => "/api/listing/update/" + id
  }

  const TooManyImagesMessage := "You can only upload 6 images per listing"
  const UploadFailedMessage := "Image upload failed (2 mb max per image)"

  class ListingEditor {
    /** The files chosen in the file input (`files`). */
    var files: seq<File>
    var formData: FormData
    /** `imageUploadError`: `false` or a message. */
    var imageUploadError: Option<string>
    var uploading: bool
    /** `error`: `false` or a message. */
    var error: Option<string>
    var loading: bool
    /**
     * The batches an upload click admitted whose `Promise.all` has not settled yet: each
     * merge belongs to the click that started its uploads.
     */
    ghost var pending: multiset<seq<File>>

    /** The state hooks' initial values. */
    constructor ()
      ensures files == [] && formData == InitialFormData
      ensures imageUploadError == None && !uploading && error == None && !loading
      ensures pending == multiset{}
    {
      files := [];
      formData := InitialFormData;
      imageUploadError := None;
      uploading := false;
      error := None;
      loading := false;
      pending := multiset{};
    }

    /** The file input's `setFiles`. */
    method SelectFiles(selection: seq<File>)
      modifies this
      ensures files == selection
      ensures formData == old(formData) && imageUploadError == old(imageUploadError)
      ensures uploading == old(uploading) && error == old(error) && loading == old(loading)
      ensures pending == old(pending)
    {
      files := selection;
    }

    /**
     * `handleImageSubmit` up to `Promise.all`: a batch the guard admits starts uploading with
     * the upload error cleared; any other batch is refused with the six-image message before
     * any upload starts. The image list is not touched either way.
     */
    method BeginImageUpload() returns (batch: seq<File>)
      modifies this
      ensures Admits(|files|, |formData.imageUrls|) ==>
                batch == files && uploading && imageUploadError == None
      ensures !Admits(|files|, |formData.imageUrls|) ==>
                batch == [] && !uploading && imageUploadError == Some(TooManyImagesMessage)
      ensures files == old(files) && formData == old(formData)
      ensures error == old(error) && loading == old(loading)
      ensures pending == old(pending) +
                (if Admits(|files|, |formData.imageUrls|) then multiset{files} else multiset{})
    {
      if 0 < |files| && |files| + |formData.imageUrls| < 7 {
        uploading := true;
        imageUploadError := None;
        batch := files;
        pending := pending + multiset{files};
      } else {
        imageUploadError := Some(TooManyImagesMessage);
        uploading := false;
        batch := [];
      }
    }

    /**
     * `Promise.all` over a batch an earlier click admitted settles, with one result per file of
     * the batch, and the batch is no longer pending: when every
     * upload succeeded, their URLs are appended in file order to the list as it is now; when
     * any failed, the draft is left as it is and the upload error is set. `uploading` ends
     * false on both paths.
     */
    method FinishImageUpload(batch: seq<File>, results: seq<UploadResult>)
      requires batch in pending
      requires |results| == |batch|
      modifies this
      ensures CollectUrls(results).Some? ==>
                formData == old(formData).(imageUrls := old(formData.imageUrls) + CollectUrls(results).value) &&
                imageUploadError == old(imageUploadError)
      ensures CollectUrls(results).None? ==>
                formData == old(formData) && imageUploadError == Some(UploadFailedMessage)
      ensures !uploading
      ensures files == old(files) && error == old(error) && loading == old(loading)
      ensures pending == old(pending) - multiset{batch}
    {
      pending := pending - multiset{batch};
      match CollectUrls(results) {
        case Some(urls) =>
          formData := formData.(imageUrls := formData.imageUrls + urls);
        case None =>
          imageUploadError := Some(UploadFailedMessage);
      }
      uploading := false;
    }

    /** `handleRemoveImage`: the image at `index` leaves the list; other indexes change nothing. */
    method RemoveImage(index: int)
      modifies this
      ensures formData == old(formData).(imageUrls := RemoveAt(old(formData.imageUrls), index))
      ensures files == old(files) && imageUploadError == old(imageUploadError)
      ensures uploading == old(uploading) && error == old(error) && loading == old(loading)
      ensures pending == old(pending)
    {
      formData := formData.(imageUrls := RemoveAt(formData.imageUrls, index));
    }

    /** `handleChange`: one field of the draft takes the input's new value. */
    method HandleChange(e: FormEvent)
      modifies this
      ensures formData == ApplyFormChange(old(formData), e)
      ensures files == old(files) && imageUploadError == old(imageUploadError)
      ensures uploading == old(uploading) && error == old(error) && loading == old(loading)
      ensures pending == old(pending)
    {
      formData := ApplyFormChange(formData, e);
    }

    /**
     * `handleSubmit` up to the request: a draft without images, and then one whose regular
     * price is below its discount price, is refused with its message and no request; a draft
     * that passes clears the error, sets `loading` and is posted, whole, to the endpoint of
     * the editor's mode together with the user's id.
     */
    method HandleSubmit(mode: Mode, userRef: string) returns (request: Option<SubmitRequest>)
      modifies this
      ensures ValidateForSubmit(formData).Some? ==>
                request.None? && error == ValidateForSubmit(formData) && loading == old(loading)
      ensures ValidateForSubmit(formData).None? ==>
                request == Some(SubmitRequest(Endpoint(mode), formData, userRef)) &&
                error == None && loading
      ensures files == old(files) && formData == old(formData)
      ensures imageUploadError == old(imageUploadError) && uploading == old(uploading)
      ensures pending == old(pending)
    {
      if |formData.imageUrls| < 1 {
        error := Some(NoImagesMessage);
        return None;
      }
      if formData.regularPrice < formData.discountPrice {
        error := Some(DiscountMessage);
        return None;
      }
      loading := true;
      error := None;
      request := Some(SubmitRequest(Endpoint(mode), formData, userRef));
    }

    /**
     * The create/update request settles: `loading` ends false; a stored listing leads to its
     * page, a refusal or a thrown error sets `error` to its message.
     */
    method FinishSubmit(response: SubmitResponse) returns (destination: Option<string>)
      modifies this
      ensures !loading
      ensures response.Saved? ==> destination == Some("/listing/" + response.id) && error == old(error)
      ensures !response.Saved? ==> destination.None? && error == Some(response.message)
      ensures files == old(files) && formData == old(formData)
      ensures imageUploadError == old(imageUploadError) && uploading == old(uploading)
      ensures pending == old(pending)
    {
      loading := false;
      match response {
        case Saved(id) =>
          destination := Some("/listing/" + id);
        case Refused(message) =>
          error := Some(message);
          destination := None;
        case Thrown(message) =>
          error := Some(message);
          destination := None;
      }
    }
  }

  /**
   * The guard reads the list when the button is pressed and the merge appends to the list as
   * it is when the uploads settle; the button stays enabled while uploading, so six files
   * uploaded twice before either batch settles both pass the guard and leave twelve images.
   */
  method OverlappingBatches(six: seq<File>, urls: seq<string>) returns (imageCount: nat)
    requires |six| == 6 && |urls| == 6
    ensures imageCount == 12 > MaxImages
  {
    var editor := new ListingEditor();
    editor.SelectFiles(six);
    var first := editor.BeginImageUpload();
    var second := editor.BeginImageUpload();
    var results := seq(6, i requires 0 <= i < 6 => Uploaded(urls[i]));
    editor.FinishImageUpload(first, results);
    editor.FinishImageUpload(second, results);
    imageCount := |editor.formData.imageUrls|;
  }

}
