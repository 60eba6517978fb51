/** The image-resize job (`jobs/image-resize/main.py`): rewrite the key
    prefix, shrink the image to fit a square box unless it already fits,
    pick the content type from the image format, download and upload.

    PIL is foreign: `Imaging` stands for what it does with given bytes
    (identify an image, compute the `thumbnail` size, encode), and
    `ThumbnailFits` states the one promise of `thumbnail` the job relies on. */
module ImageResize {
  import opened Base
  import opened Json
  import opened Jobs

  const MAX_DIMENSION := 200
  const ORIGINAL_PREFIX := "images/"
  const RESIZED_PREFIX := "images_resized/"
  const DEFAULT_FORMAT := "PNG"
  const FALLBACK_CONTENT_TYPE := "application/octet-stream"

  const FORMAT_TO_CONTENT_TYPE: map<string, string> := map[
    "JPEG" := "image/jpeg",
    "PNG" := "image/png",
    "GIF" := "image/gif",
    "WEBP" := "image/webp"
  ]

  /** `build_resized_key`: swap a leading `images/` for `images_resized/`,
      or put `images_resized/` in front of a key without it. */
  function BuildResizedKey(originalKey: string): (r: string)
    ensures StartsWith(r, RESIZED_PREFIX)
  {
    if StartsWith(originalKey, ORIGINAL_PREFIX) then RESIZED_PREFIX + originalKey[|ORIGINAL_PREFIX|..]
    else RESIZED_PREFIX + originalKey
  }

  /** The part of a resized key after `images_resized/`. */
  function ResizedName(resizedKey: string): string
    requires StartsWith(resizedKey, RESIZED_PREFIX)
  {
    resizedKey[|RESIZED_PREFIX|..]
  }

  /** Lines 25-26: a key under `images/` keeps its name below
      `images_resized/`, and the name can be read back. */
  lemma {:induction false} ResizedKeyRoundTrip(name: string)
    ensures BuildResizedKey(ORIGINAL_PREFIX + name) == RESIZED_PREFIX + name
    ensures ResizedName(BuildResizedKey(ORIGINAL_PREFIX + name)) == name
  {
    StartsWithConcat(ORIGINAL_PREFIX, name);
    StartsWithConcat(RESIZED_PREFIX, name);
  }

  /** Line 27: a key not under `images/` is kept whole below
      `images_resized/`; only a leading `images/` is ever rewritten. */
  lemma {:induction false} OtherKeyKeptWhole(key: string)
    requires !StartsWith(key, ORIGINAL_PREFIX)
    ensures BuildResizedKey(key) == RESIZED_PREFIX + key
    ensures ResizedName(BuildResizedKey(key)) == key
  {
    StartsWithConcat(RESIZED_PREFIX, key);
  }

  /** Lines 23-27: two keys under `images/` never share a resized key (the
      rewrite is injective there), yet `images/x` and a bare `x` do. */
  lemma ResizedKeysOfImagesAreDistinct(a: string, b: string)
    requires a != b
    ensures BuildResizedKey(ORIGINAL_PREFIX + a) != BuildResizedKey(ORIGINAL_PREFIX + b)
    ensures !StartsWith(a, ORIGINAL_PREFIX) ==> BuildResizedKey(ORIGINAL_PREFIX + a) == BuildResizedKey(a)
  {
    ResizedKeyRoundTrip(a);
    ResizedKeyRoundTrip(b);
    if !StartsWith(a, ORIGINAL_PREFIX) {
      OtherKeyKeptWhole(a);
    }
  }

  /** What PIL reports for a decoded image: `img.size` and `img.format`. */
  datatype ImageInfo = ImageInfo(width: nat, height: nat, format: Option<string>)

  /** PIL as the job uses it: `Image.open` (`None` when it raises), the size
      `img.thumbnail((m, m))` leaves, and the shrunk image as `img.save`
      encodes it, or the exception raised on the way (`thumbnail` loading
      truncated pixel data, `save` given a format PIL reads but cannot
      write). */
  datatype Imaging = Imaging(
    open: Bytes -> Option<ImageInfo>,
    thumbnail: (nat, nat, int) -> (nat, nat),
    save: (Bytes, nat, nat, string) -> Result<Bytes, Error>)

  /** `thumbnail` never enlarges and fits the result in an `m` by `m` box. */
  ghost predicate ThumbnailFits(pil: Imaging)
  {
    forall w: nat, h: nat, m: int :: m >= 1 ==>
      var size := pil.thumbnail(w, h, m);
      size.0 <= m && size.1 <= m && size.0 <= w && size.1 <= h
  }

  /** `img.format or "PNG"`. */
  function FormatOf(img: ImageInfo): (f: string)
    ensures img.format.Some? && img.format.value != "" ==> f == img.format.value
    ensures img.format.None? || img.format.value == "" ==> f == DEFAULT_FORMAT
  {
    if img.format.Some? && img.format.value != "" then img.format.value else DEFAULT_FORMAT
  }

  predicate Within(img: ImageInfo, maxDim: int)
  {
    img.width <= maxDim && img.height <= maxDim
  }

  datatype Resized = Resized(bytes: Bytes, width: nat, height: nat, format: string)

  /** What the shrink branch's `thumbnail` and `save` produce for `img`. */
  function Shrunk(pil: Imaging, imageBytes: Bytes, img: ImageInfo, maxDim: int): Result<Bytes, Error>
  {
    var size := pil.thumbnail(img.width, img.height, maxDim);
    pil.save(imageBytes, size.0, size.1, FormatOf(img))
  }

  /** `resize_image(image_bytes, max_dim)`: shrink-or-identity. An image that
      fits the box (sides equal to `max_dim` included) comes back as the very
      same bytes with its own size; a larger one is thumbnailed and
      re-encoded, and whatever those raise propagates; the format is the
      decoded one in both cases. */
  function ResizeImage(pil: Imaging, imageBytes: Bytes, maxDim: int := MAX_DIMENSION): (r: Result<Resized, Error>)
    ensures r.Failure? <==>
      || pil.open(imageBytes).None?
      || (!Within(pil.open(imageBytes).value, maxDim) && Shrunk(pil, imageBytes, pil.open(imageBytes).value, maxDim).Failure?)
    ensures pil.open(imageBytes).None? ==> r == Failure(ImageError)
    ensures r.Failure? && pil.open(imageBytes).Some? ==>
      r == Failure(Shrunk(pil, imageBytes, pil.open(imageBytes).value, maxDim).error)
    ensures r.Success? ==> r.value.format == FormatOf(pil.open(imageBytes).value)
    ensures r.Success? && Within(pil.open(imageBytes).value, maxDim) ==>
      var img := pil.open(imageBytes).value;
      r.value.bytes == imageBytes && r.value.width == img.width && r.value.height == img.height
    ensures r.Success? && !Within(pil.open(imageBytes).value, maxDim) ==>
      var img := pil.open(imageBytes).value;
      && (r.value.width, r.value.height) == pil.thumbnail(img.width, img.height, maxDim)
      && r.value.bytes == Shrunk(pil, imageBytes, img, maxDim).value
  {
    match pil.open(imageBytes)
    case None => Failure(ImageError)
    case Some(img) =>
      var fmt := FormatOf(img);
      if Within(img, maxDim) then Success(Resized(imageBytes, img.width, img.height, fmt))
      else
        var size := pil.thumbnail(img.width, img.height, maxDim);
        match Shrunk(pil, imageBytes, img, maxDim)
        case Failure(e) => Failure(e)
        case Success(bytes) => Success(Resized(bytes, size.0, size.1, fmt))
  }

  /** Lines 40-47: whichever branch is taken, the result fits the box and is
      no larger than the source. */
  lemma ResizedFitsBox(pil: Imaging, imageBytes: Bytes, maxDim: int)
    requires ThumbnailFits(pil) && maxDim >= 1
    ensures ResizeImage(pil, imageBytes, maxDim).Success? ==>
      var r := ResizeImage(pil, imageBytes, maxDim).value;
      var img := pil.open(imageBytes).value;
      r.width <= maxDim && r.height <= maxDim && r.width <= img.width && r.height <= img.height
  {
    if pil.open(imageBytes).Some? {
      var img := pil.open(imageBytes).value;
      var size := pil.thumbnail(img.width, img.height, maxDim);
      assert size.0 <= maxDim && size.1 <= maxDim && size.0 <= img.width && size.1 <= img.height;
    }
  }

  /** `FORMAT_TO_CONTENT_TYPE.get(fmt, "application/octet-stream")`. */
  function ContentTypeFor(format: string): (ct: string)
    ensures format in FORMAT_TO_CONTENT_TYPE ==> ct == FORMAT_TO_CONTENT_TYPE[format]
    ensures format !in FORMAT_TO_CONTENT_TYPE ==> ct == FALLBACK_CONTENT_TYPE
  {
    if format in FORMAT_TO_CONTENT_TYPE then FORMAT_TO_CONTENT_TYPE[format] else FALLBACK_CONTENT_TYPE
  }

  /** Lines 50-55, 74: the four known formats get their image type, every
      other format the generic binary type, and an image with no recorded
      format is sent as PNG. */
  lemma ContentTypes(format: string, img: ImageInfo)
    ensures ContentTypeFor("JPEG") == "image/jpeg" && ContentTypeFor("PNG") == "image/png"
    ensures ContentTypeFor("GIF") == "image/gif" && ContentTypeFor("WEBP") == "image/webp"
    ensures ContentTypeFor(format) != FALLBACK_CONTENT_TYPE <==> format in {"JPEG", "PNG", "GIF", "WEBP"}
    ensures img.format.None? ==> ContentTypeFor(FormatOf(img)) == "image/png"
  {
  }

  /** The `r2_key` that `data.get` finds in a payload (`Null` for none). */
  function KeyOf(data: Json): Json
  {
    if Field(data, "r2_key").Success? then Field(data, "r2_key").value else Null
  }

  /** `handle_event(data, publish)` against the results its collaborators
      produce: `downloaded` for `download_from_r2`, `pil` for PIL and
      `uploaded` for `upload_to_r2`. Returns whether it returned or raised,
      and the calls it issued in order. */
  method HandleEvent(data: Json, downloaded: Result<Bytes, Error>, pil: Imaging, uploaded: Outcome<Error>)
    returns (outcome: Outcome<Error>, calls: seq<Call>)
    // a payload without a usable key is refused before any call
    ensures !data.Obj? || !Truthy(KeyOf(data)) ==> outcome.Fail? && calls == []
    ensures data.Obj? && !Truthy(KeyOf(data)) ==> outcome == Fail(ValueError("Missing 'r2_key' in event data"))
    // otherwise the first call downloads the key
    ensures data.Obj? && Truthy(KeyOf(data)) ==> calls != [] && calls[0] == DownloadObject(KeyOf(data))
    // each step's exception propagates, and nothing after it is called
    ensures downloaded.Failure? ==> outcome.Fail? && |calls| <= 1
    ensures data.Obj? && Truthy(KeyOf(data)) && downloaded.Failure? ==> outcome == Fail(downloaded.error)
    ensures data.Obj? && Truthy(KeyOf(data)) && downloaded.Success? && ResizeImage(pil, downloaded.value).Failure? ==>
      outcome == Fail(ResizeImage(pil, downloaded.value).error) && |calls| == 1
    ensures (data.Obj? && KeyOf(data).Str? && KeyOf(data).s != "" && downloaded.Success?
      && ResizeImage(pil, downloaded.value).Success? && uploaded.Fail?) ==> outcome == uploaded && |calls| == 2
    // success needs a string key, a download, a resizable image and an upload
    ensures outcome.Pass? <==>
      && data.Obj? && KeyOf(data).Str? && KeyOf(data).s != ""
      && downloaded.Success? && ResizeImage(pil, downloaded.value).Success? && uploaded.Pass?
    ensures outcome.Pass? ==>
      var k := KeyOf(data).s;
      var r := ResizeImage(pil, downloaded.value).value;
      calls == [DownloadObject(Str(k)), UploadObject(BuildResizedKey(k), r.bytes, ContentTypeFor(r.format))]
    // an image already within the box is uploaded byte for byte
    ensures outcome.Pass? && Within(pil.open(downloaded.value).value, MAX_DIMENSION) ==>
      calls[1].body == downloaded.value
    // the job never publishes
    ensures forall i :: 0 <= i < |calls| ==> !calls[i].PublishCall?
  {
    calls := [];
    var keyField := Field(data, "r2_key");
    if keyField.Failure? {
      return Fail(keyField.error), calls;
    }
    var r2Key := keyField.value;
    if !Truthy(r2Key) {
      return Fail(ValueError("Missing 'r2_key' in event data")), calls;
    }
    calls := calls + [DownloadObject(r2Key)];
    if downloaded.Failure? {
      return Fail(downloaded.error), calls;
    }
    var resized := ResizeImage(pil, downloaded.value);
    if resized.Failure? {
      return Fail(resized.error), calls;
    }
    if !r2Key.Str? {
      // `original_key.startswith` on a value that is not a string
      return Fail(AttributeError("startswith")), calls;
    }
    var resizedKey := BuildResizedKey(r2Key.s);
    var contentType := ContentTypeFor(resized.value.format);
    calls := calls + [UploadObject(resizedKey, resized.value.bytes, contentType)];
    if uploaded.Fail? {
      return uploaded, calls;
    }
    outcome := Pass;
  }
}
