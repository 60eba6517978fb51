/** The shared Cloudflare R2 helpers (`shared-py/src/r2.py`).

    `R2` holds the module's one-slot client cache (`_s3_client`), a count of
    the `boto3.client` calls made, the requests sent through the client, and
    the bucket contents on the storage service those requests act on. The
    environment variables are read at each call and are passed in as
    `R2Env`; whether `boto3.client` raises is a parameter. */
module R2 {
  import opened Base

  const DEFAULT_BUCKET := "keda-jobs-prod"
  const REGION := "auto"
  const SERVICE := "s3"
  const ENDPOINT_PREFIX := "https://"
  const ENDPOINT_SUFFIX := ".r2.cloudflarestorage.com"

  /** The `R2_*` environment variables; `None` when unset. */
  datatype R2Env = R2Env(
    accountId: Option<string>,
    accessKeyId: Option<string>,
    secretAccessKey: Option<string>,
    bucket: Option<string>)

  datatype ObjectId = ObjectId(bucket: string, key: string)
  datatype StoredObject = StoredObject(body: Bytes, contentType: string)

  /** The requests the client sends to the storage service. */
  datatype Request =
    | PutObject(bucket: string, key: string, body: Bytes, contentType: string)
    | GetObject(bucket: string, key: string)

  /** How an f-string renders an optional value: an unset variable gives
      the text `None`. */
  function Render(v: Option<string>): string
  {
    if v.Some? then v.value else "None"
  }

  /** The endpoint URL of line 23. */
  function Endpoint(accountId: Option<string>): (url: string)
    ensures StartsWith(url, ENDPOINT_PREFIX)
    ensures |url| >= |ENDPOINT_PREFIX| + |ENDPOINT_SUFFIX|
    ensures url[|url| - |ENDPOINT_SUFFIX|..] == ENDPOINT_SUFFIX
  {
    ENDPOINT_PREFIX + Render(accountId) + ENDPOINT_SUFFIX
  }

  /** The account part of an endpoint URL. */
  function AccountOf(url: string): string
    requires |url| >= |ENDPOINT_PREFIX| + |ENDPOINT_SUFFIX|
  {
    url[|ENDPOINT_PREFIX|..|url| - |ENDPOINT_SUFFIX|]
  }

  /** The endpoint names exactly the configured account: the account id can
      be read back from it, so distinct accounts get distinct endpoints. */
  lemma EndpointNamesAccount(accountId: Option<string>)
    ensures AccountOf(Endpoint(accountId)) == Render(accountId)
  {
    var url := Endpoint(accountId);
    assert url == ENDPOINT_PREFIX + Render(accountId) + ENDPOINT_SUFFIX;
    assert url[|ENDPOINT_PREFIX|..|url| - |ENDPOINT_SUFFIX|] == Render(accountId);
  }

  lemma EndpointInjective(a: string, b: string)
    requires Endpoint(Some(a)) == Endpoint(Some(b))
    ensures a == b
  {
    EndpointNamesAccount(Some(a));
    EndpointNamesAccount(Some(b));
  }

  /** An unset `R2_ACCOUNT_ID` is not rejected: it yields the endpoint of an
      account literally named `None`. */
  lemma UnsetAccountIsRenderedNone()
    ensures Endpoint(None) == Endpoint(Some("None"))
  {
  }

  /** `os.environ.get("R2_BUCKET", "keda-jobs-prod")`, for upload and
      download alike. */
  function BucketName(env: R2Env): (b: string)
    ensures env.bucket.Some? ==> b == env.bucket.value
    ensures env.bucket.None? ==> b == DEFAULT_BUCKET
  {
    env.bucket.GetOr(DEFAULT_BUCKET)
  }

  /** What `boto3.client("s3", ...)` returns: a client bound to the R2
      endpoint with the credentials it was given. */
  class S3Client {
    const service: string
    const endpoint: string
    const accessKeyId: Option<string>
    const secretAccessKey: Option<string>
    const region: string

    constructor (env: R2Env)
      ensures service == SERVICE && endpoint == Endpoint(env.accountId)
      ensures accessKeyId == env.accessKeyId && secretAccessKey == env.secretAccessKey
      ensures region == REGION
    {
      service := SERVICE;
      endpoint := Endpoint(env.accountId);
      accessKeyId := env.accessKeyId;
      secretAccessKey := env.secretAccessKey;
      region := REGION;
    }
  }

  class R2 {
    /** `_s3_client`: `null` until a construction succeeds. */
    var client: S3Client?
    /** The number of `boto3.client` calls made so far. */
    var constructions: nat
    /** The requests sent through the client, in order. */
    var requests: seq<Request>
    /** The bucket contents on the storage service. */
    var objects: map<ObjectId, StoredObject>

    /** The process start: the slot is empty (line 13). */
    constructor (objects: map<ObjectId, StoredObject>)
      ensures client == null && constructions == 0 && requests == []
      ensures this.objects == objects
    {
      client := null;
      constructions := 0;
      requests := [];
      this.objects := objects;
    }

    /** `get_s3_client()`: construct on the first call, reuse afterwards; a
        construction that raises leaves the slot empty. */
    method GetClient(env: R2Env, constructionFails: bool) returns (r: Result<S3Client, Error>)
      modifies this`client, this`constructions
      ensures old(client) != null ==> r == Success(old(client)) && client == old(client) && constructions == old(constructions)
      ensures old(client) == null ==> constructions == old(constructions) + 1
      ensures old(client) == null && constructionFails ==> r.Failure? && client == null
      ensures old(client) == null && !constructionFails ==>
        && r.Success? && fresh(r.value) && client == r.value
        && r.value.service == SERVICE && r.value.endpoint == Endpoint(env.accountId)
        && r.value.accessKeyId == env.accessKeyId && r.value.secretAccessKey == env.secretAccessKey
        && r.value.region == REGION
    {
      if client == null {
        constructions := constructions + 1;
        if constructionFails {
          return Failure(Foreign("boto3.client raised"));
        }
        var c := new S3Client(env);
        client := c;
      }
      r := Success(client);
    }

    /** `upload_to_r2(key, body, content_type)`: one put of the given key,
        body and content type into the configured bucket. */
    method UploadToR2(env: R2Env, key: string, body: Bytes, contentType: string, constructionFails: bool)
      returns (r: Outcome<Error>)
      modifies this`client, this`constructions, this`requests, this`objects
      ensures r.Pass? <==> old(client) != null || !constructionFails
      ensures r.Pass? ==> requests == old(requests) + [PutObject(BucketName(env), key, body, contentType)]
      ensures r.Pass? ==> objects == old(objects)[ObjectId(BucketName(env), key) := StoredObject(body, contentType)]
      ensures r.Fail? ==> requests == old(requests) && objects == old(objects)
      ensures old(client) != null ==> client == old(client) && constructions == old(constructions)
      ensures old(client) == null ==> constructions == old(constructions) + 1 && (client == null <==> constructionFails)
      ensures client != old(client) ==> fresh(client)
    {
      var bucket := BucketName(env);
      var c := GetClient(env, constructionFails);
      if c.Failure? {
        return Fail(c.error);
      }
      requests := requests + [PutObject(bucket, key, body, contentType)];
      objects := objects[ObjectId(bucket, key) := StoredObject(body, contentType)];
      r := Pass;
    }

    /** `download_from_r2(key)`: the body of the object under `key` in the
        configured bucket; a missing object raises. */
    method DownloadFromR2(env: R2Env, key: string, constructionFails: bool) returns (r: Result<Bytes, Error>)
      modifies this`client, this`constructions, this`requests
      ensures var id := ObjectId(BucketName(env), key);
        && (r.Success? <==> (old(client) != null || !constructionFails) && id in objects)
        && (r.Success? ==> r.value == objects[id].body)
      ensures requests == old(requests) + (if old(client) != null || !constructionFails then [GetObject(BucketName(env), key)] else [])
      ensures old(client) != null ==> client == old(client) && constructions == old(constructions)
      ensures old(client) == null ==> constructions == old(constructions) + 1 && (client == null <==> constructionFails)
      ensures client != old(client) ==> fresh(client)
    {
      var bucket := BucketName(env);
      var c := GetClient(env, constructionFails);
      if c.Failure? {
        return Failure(c.error);
      }
      requests := requests + [GetObject(bucket, key)];
      var id := ObjectId(bucket, key);
      if id !in objects {
        return Failure(Foreign("NoSuchKey"));
      }
      r := Success(objects[id].body);
    }
  }

  /** `test_caches_client`: two calls return the same object and construct
      it once. */
  method ClientIsCached(r2: R2, env: R2Env, constructionFails: bool) returns (first: Result<S3Client, Error>, second: Result<S3Client, Error>)
    requires r2.client == null
    modifies r2
    ensures !constructionFails ==> first.Success? && second == first && r2.constructions == old(r2.constructions) + 1
    ensures constructionFails ==> first.Failure? && r2.client == null
  {
    first := r2.GetClient(env, constructionFails);
    if first.Success? {
      second := r2.GetClient(env, true);
    } else {
      second := first;
    }
  }

  /** An upload followed by a download of the same key, under the same
      environment, gives back the uploaded body; the client is built at most
      once for both. */
  method UploadThenDownload(r2: R2, env: R2Env, key: string, body: Bytes, contentType: string, constructionFails: bool)
    returns (up: Outcome<Error>, down: Result<Bytes, Error>)
    modifies r2
    ensures up.Pass? ==> down == Success(body)
    ensures up.Pass? ==> r2.constructions <= old(r2.constructions) + 1
  {
    up := r2.UploadToR2(env, key, body, contentType, constructionFails);
    down := r2.DownloadFromR2(env, key, constructionFails);
  }
}
