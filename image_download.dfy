/** The image-download job (`jobs/image-download/main.py`): fetch a URL,
    store the body under a fresh `images/<uuid><ext>` key and announce the
    key on `image-downloaded`.

    `requests.get`, `uuid.uuid4` and `urlparse` are foreign: the response
    (or the exception) is a parameter, the UUID is a string parameter, and
    URL parsing is a function parameter giving the path of a URL. */
module ImageDownload {
  import opened Base
  import opened Json
  import opened Jobs
  import opened Paths

  const KEY_PREFIX := "images/"
  const REQUEST_TIMEOUT := 60
  const PUBLISH_SUBJECT := "image-downloaded"
  /** `Content-Type` as a key of the lower-cased header map. */
  const CONTENT_TYPE_KEY := "content-type"
  const FALLBACK_CONTENT_TYPE := "application/octet-stream"

  /** A response as `requests` returns it. Its header dictionary matches
      names without regard to case; here it is keyed by the lower-cased
      names. */
  datatype HttpResponse = HttpResponse(status: int, headers: map<string, string>, content: Bytes)

  datatype Download = Download(content: Bytes, contentType: string)

  /** `raise_for_status` raises for client and server errors. */
  predicate IsHttpError(status: int)
  {
    400 <= status < 600
  }

  /** `download_image(url, headers)` after the request: a raised request
      propagates, an error status raises, otherwise the body and the
      `Content-Type` header, or the generic binary type when there is none. */
  function DownloadImage(response: Result<HttpResponse, Error>): (r: Result<Download, Error>)
    ensures response.Failure? ==> r == Failure(response.error)
    ensures response.Success? && IsHttpError(response.value.status) ==> r == Failure(HttpError(response.value.status))
    ensures response.Success? && !IsHttpError(response.value.status) ==>
      && r.Success?
      && r.value.content == response.value.content
      && (CONTENT_TYPE_KEY in response.value.headers ==>
            r.value.contentType == response.value.headers[CONTENT_TYPE_KEY])
      && (CONTENT_TYPE_KEY !in response.value.headers ==> r.value.contentType == FALLBACK_CONTENT_TYPE)
  {
    match response
    case Failure(e) => Failure(e)
    case Success(resp) =>
      if IsHttpError(resp.status) then Failure(HttpError(resp.status))
      else
        var contentType := if CONTENT_TYPE_KEY in resp.headers then resp.headers[CONTENT_TYPE_KEY] else FALLBACK_CONTENT_TYPE;
        Success(Download(resp.content, contentType))
  }

  /** `build_r2_key(url)` with the UUID and the URL's path given:
      `images/` + the UUID + the path's extension. */
  function BuildR2Key(uuid: string, path: string): (key: string)
    ensures StartsWith(key, KEY_PREFIX)
  {
    KEY_PREFIX + uuid + Splitext(path).1
  }

  /** Lines 33-35: the key is `images/`, then the UUID, then the extension,
      which is empty or a dot followed by neither dots nor slashes, and is
      non-empty exactly when the last path component has one. */
  lemma {:induction false} KeyShape(uuid: string, path: string)
    ensures var key := BuildR2Key(uuid, path);
      var ext := key[|KEY_PREFIX| + |uuid|..];
      && key[..|KEY_PREFIX|] == KEY_PREFIX
      && key[|KEY_PREFIX|..|KEY_PREFIX| + |uuid|] == uuid
      && (ext == "" <==> !HasExtension(path))
      && (ext != "" ==> ext[0] == '.' && forall j :: 0 < j < |ext| ==> ext[j] != '.' && ext[j] != '/')
      && path == Splitext(path).0 + ext
  {
    var key := BuildR2Key(uuid, path);
    assert key == KEY_PREFIX + uuid + Splitext(path).1;
    assert key[|KEY_PREFIX| + |uuid|..] == Splitext(path).1;
  }

  /** Where a path has an extension and `q` is its last dot, the extension
      is everything from `q` on. */
  lemma {:induction false} ExtensionFromLastDot(p: string, q: nat)
    requires q < |p| && p[q] == '.'
    requires forall j :: q < j < |p| ==> p[j] != '.'
    requires HasExtension(p)
    ensures Splitext(p).1 == p[q..]
  {
    var r := Splitext(p);
    var n := |r.0|;
    assert r.1 == p[n..];
    assert forall j :: n < j < |p| ==> p[j] == r.1[j - n] && p[j] != '.';
    assert p[n] == '.';
  }

  /** Lines 33-35 (and the `photo.jpg` / `image.png` cases of the tests): a
      last component `name.ext` with a plain name keeps `.ext`. */
  lemma {:induction false} SimpleExtensionKept(dir: string, name: string, ext: string, uuid: string)
    requires name != [] && forall j :: 0 <= j < |name| ==> name[j] != '.' && name[j] != '/'
    requires forall j :: 0 <= j < |ext| ==> ext[j] != '.' && ext[j] != '/'
    ensures BuildR2Key(uuid, dir + "/" + name + "." + ext) == KEY_PREFIX + uuid + "." + ext
  {
    var p := dir + "/" + name + "." + ext;
    var k := |dir| + 1;            // start of the last component
    var q := k + |name|;           // its dot
    assert p[q..] == "." + ext;
    assert forall j :: q < j < |p| ==> p[j] == ext[j - q - 1];
    assert forall j :: k <= j < q ==> p[j] == name[j - k];
    assert NoSeparatorFrom(p, k);
    assert p[k] == name[0];
    assert 0 <= k < q < |p| && p[q] == '.' && p[k] != '.' && NoSeparatorFrom(p, k);
    assert HasExtension(p);
    ExtensionFromLastDot(p, q);
  }

  /** Lines 34-35 (the `image` case of the tests): a path with no dot gives
      exactly `images/` + the UUID. */
  lemma NoDotNoExtension(uuid: string, path: string)
    requires forall j :: 0 <= j < |path| ==> path[j] != '.'
    ensures BuildR2Key(uuid, path) == KEY_PREFIX + uuid
  {
    assert !HasExtension(path);
  }

  /** The `url` that `data.get` finds in a payload (`Null` for none). */
  function UrlOf(data: Json): Json
  {
    if Field(data, "url").Success? then Field(data, "url").value else Null
  }

  /** `data.get("headers", {})`. */
  function HeadersOf(data: Json): (h: Json)
    requires data.Obj?
    ensures "headers" !in data.fields ==> h == Obj(map[])
    ensures "headers" in data.fields ==> h == data.fields["headers"]
  {
    if "headers" in data.fields then data.fields["headers"] else Obj(map[])
  }

  /** The event announcing where the image was stored. */
  function Announcement(key: string): Call
  {
    PublishCall(PUBLISH_SUBJECT, Obj(map["r2_key" := Str(key)]))
  }

  /** `handle_event(data, publish)` against the results its collaborators
      produce: `response` for `requests.get`, `uuid` for `uuid.uuid4`,
      `pathOf` for `urlparse(...).path`, and `uploaded` and `published` for
      `upload_to_r2` and `publish`. Returns whether it returned or raised,
      and the calls it issued in order. */
  method HandleEvent(data: Json, response: Result<HttpResponse, Error>, uuid: string, pathOf: string -> string,
                     uploaded: Outcome<Error>, published: Outcome<Error>)
    returns (outcome: Outcome<Error>, calls: seq<Call>)
    // no usable url: refused before any download, upload or publish
    ensures !data.Obj? || !Truthy(UrlOf(data)) ==> outcome.Fail? && calls == []
    ensures data.Obj? && !Truthy(UrlOf(data)) ==> outcome == Fail(ValueError("Missing 'url' in event data"))
    // otherwise the first call downloads the url with the given or empty headers
    ensures data.Obj? && Truthy(UrlOf(data)) ==>
      calls != [] && calls[0] == HttpGet(UrlOf(data), HeadersOf(data), REQUEST_TIMEOUT)
    // each step's exception propagates, and nothing after it is called
    ensures DownloadImage(response).Failure? ==> outcome.Fail? && |calls| <= 1
    ensures data.Obj? && Truthy(UrlOf(data)) && DownloadImage(response).Failure? ==>
      outcome == Fail(DownloadImage(response).error)
    ensures (data.Obj? && UrlOf(data).Str? && UrlOf(data).s != "" && DownloadImage(response).Success?
      && uploaded.Fail?) ==> outcome == uploaded && |calls| == 2
    ensures (data.Obj? && UrlOf(data).Str? && UrlOf(data).s != "" && DownloadImage(response).Success?
      && uploaded.Pass? && published.Fail?) ==> outcome == published && |calls| == 3
    ensures outcome.Pass? <==>
      && data.Obj? && UrlOf(data).Str? && UrlOf(data).s != ""
      && DownloadImage(response).Success? && uploaded.Pass? && published.Pass?
    // on success: download, upload under the new key, one announcement of that key
    ensures outcome.Pass? ==>
      var key := BuildR2Key(uuid, pathOf(UrlOf(data).s));
      var d := DownloadImage(response).value;
      calls == [HttpGet(UrlOf(data), HeadersOf(data), REQUEST_TIMEOUT),
                UploadObject(key, d.content, d.contentType),
                Announcement(key)]
    // whatever happens, a publish comes after the upload and names its key
    ensures forall j :: 0 <= j < |calls| && calls[j].PublishCall? ==>
      j == 2 && calls[1].UploadObject? && calls[j] == Announcement(calls[1].key)
  {
    calls := [];
    var urlField := Field(data, "url");
    if urlField.Failure? {
      return Fail(urlField.error), calls;
    }
    var url := urlField.value;
    if !Truthy(url) {
      return Fail(ValueError("Missing 'url' in event data")), calls;
    }
    var headers := HeadersOf(data);
    calls := calls + [HttpGet(url, headers, REQUEST_TIMEOUT)];
    var download := DownloadImage(response);
    if download.Failure? {
      return Fail(download.error), calls;
    }
    if !url.Str? {
      // `urlparse` on a value that is not a string
      return Fail(AttributeError("decode")), calls;
    }
    var key := BuildR2Key(uuid, pathOf(url.s));
    calls := calls + [UploadObject(key, download.value.content, download.value.contentType)];
    if uploaded.Fail? {
      return uploaded, calls;
    }
    calls := calls + [Announcement(key)];
    if published.Fail? {
      return published, calls;
    }
    outcome := Pass;
  }
}
