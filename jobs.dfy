/** What the two job handlers have in common: the payload lookups they make
    and the calls they issue to their collaborators (object storage, HTTP,
    the consumer's `publish`), recorded in a call log. */
module Jobs {
  import opened Base
  import opened Json

  /** A call a handler issues, with its arguments. */
  datatype Call =
    | HttpGet(url: Json, headers: Json, timeout: int)                 // `requests.get`
    | DownloadObject(source: Json)                                     // `download_from_r2`
    | UploadObject(key: string, body: Bytes, contentType: string)     // `upload_to_r2`
    | PublishCall(subject: string, data: Json)                        // `publish`

  /** `data.get(name)` on the decoded payload: a missing entry reads as
      `None`, like an explicit `null`; a payload that is not an object has
      no `get` and raises. */
  function Field(data: Json, name: string): (r: Result<Json, Error>)
    ensures r.Failure? <==> !data.Obj?
    ensures r.Success? && name in data.fields ==> r.value == data.fields[name]
    ensures r.Success? && name !in data.fields ==> r.value == Null
  {
    if !data.Obj? then Failure(AttributeError("get"))
    else Success(Get(data.fields, name).GetOr(Null))
  }
}
