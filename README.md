# keda-jobs worker runtime and image jobs, modelled in Dafny

This project models the core of the keda-jobs repository:

- the shared JetStream consumer loop `_run` (`shared-py/src/nats_consumer.py`), which fetches batches of `concurrency` messages, marks each one in progress, decodes it, runs the job handler under a 300-second limit, acks or naks with a 30-second delay, and tears down after a shutdown signal;
- the shared Cloudflare R2 helpers (`shared-py/src/r2.py`): a lazily built and cached S3 client, the endpoint format, and the bucket default for uploads and downloads;
- the image-resize job (`jobs/image-resize/main.py`): the resized-key rewrite, the shrink-or-identity decision and the format-to-content-type table, and the order of its handler's steps;
- the image-download job (`jobs/image-download/main.py`): the `images/<uuid><ext>` key with `os.path.splitext` semantics, the content-type fallback, and the download, upload and announce sequence of its handler.

Files:

- `base.dfy`: modules `Base` (optional and fallible results, bytes, the exceptions that flow through the code, `startswith`) and `Json` (decoded payloads, Python truthiness, `dict.get`).
- `paths.dfy`: module `Paths` (`str.rfind` and POSIX `os.path.splitext`).
- `jobs.dfy`: module `Jobs` (the calls a handler issues, and a payload lookup).
- `consumer.dfy`: module `Consumer`.
  - The functions `Message`, `BatchStep`, `CycleStep` and `Loop` say which calls one message, one batch, one fetch cycle and the whole loop issue.
  - The class `Worker` holds the shutdown flag and the log of issued calls. Its methods run the two nested loops step by step and are proved to append exactly what those functions say.
  - The lemmas state the delivery rules against the functions.
- `r2.dfy`: module `R2`.
  - The class `R2` holds the one-slot client cache, a count of client constructions, the requests sent, and the bucket contents.
  - The class `S3Client` is the constructed client.
- `image_resize.dfy`, `image_download.dfy`: the two jobs.
  - Their pure rules are functions with lemmas.
  - Their `handle_event` is a method that returns its outcome and the ordered list of calls it issued.

Exceptions and dispositions, as the code handles them:

- Only `nats.errors.TimeoutError` is caught around `fetch` (nats_consumer.py lines 73-76), so any other fetch exception leaves `_run`. In the model such a cycle ends the run as `Crashed`, with no teardown.
- A message whose `ack()` raises is also nak'd: the `except Exception` clause catches the failed ack and naks the message (lines 84, 89-91). So such a message receives two dispositions, Ack then Nak, as `AckFailureIsAlsoNakked` states.
- A `nak()` that raises inside an `except` clause is not caught either. It leaves the loop and the run, which the model also records as `Crashed`.
- A handler that raises a `BaseException` that is not an `Exception` (`asyncio.CancelledError`, `KeyboardInterrupt`, `SystemExit`) is caught by neither clause. The message gets no Ack and no Nak, and the run ends with no teardown, as `UncaughtEndsRun` states.
- With `R2_ACCOUNT_ID` unset, the f-string on r2.py line 23 renders `None`. The endpoint then names an account called `None`, as `UnsetAccountIsRenderedNone` states.

## Model

| member | source | states |
|---|---|---|
| Base.Option.GetOr | shared-py/src/nats_consumer.py:35-38 | a set value is returned as is; an unset one gives the default |
| Json.Get | jobs/image-download/main.py:40 | `data.get(key)` is present exactly when the key is, and then it is that entry |
| Jobs.Field | jobs/image-download/main.py:40 | a payload that is not a dictionary raises; a present field gives its value, an absent one gives `None` |
| Paths.Splitext | jobs/image-download/main.py:34 | root and extension concatenate back to the path; the extension is empty or a dot followed by neither dots nor slashes; it is non-empty exactly when the last component has a dot after a non-dot character |
| Json.Truthy | jobs/image-download/main.py:41 | `not x` holds for exactly `None`, `False`, zero, the empty string, the empty list and the empty dictionary |
| Consumer.ResolveConfig | shared-py/src/nats_consumer.py:34-38 | each setting is its environment variable when set; otherwise the URL and stream defaults, `<job>-consumer`, or the job name |
| Consumer.Setup | shared-py/src/nats_consumer.py:43-53 | the health server on port 8080 starts first, then the connection and the durable subscription; no fetch, disposition or teardown among them |
| Consumer.Teardown | shared-py/src/nats_consumer.py:94-96 | unsubscribe, drain and stop the health server, in that order, and nothing else |
| Consumer.Disposal | shared-py/src/nats_consumer.py:84-91 | after an invoked handler: only dispositions of that message; Ack exactly when the handler returned; Nak with delay 30 exactly when it timed out, raised an `Exception`, or returned and `ack` raised (then Ack before Nak); nothing when it raised a `BaseException` no clause catches |
| Consumer.Message | shared-py/src/nats_consumer.py:78-91 | a message's events start with its in-progress mark; an exception escapes exactly when the handler raised an uncaught `BaseException`, or when `nak` raises after the `try` block failed |
| Consumer.MessageDispositions | shared-py/src/nats_consumer.py:79-91 | the exact Ack/Nak subsequence for every outcome: Ack alone on success, Ack then Nak when `ack` raises, none when the handler raised an uncaught `BaseException`, Nak alone otherwise |
| Consumer.UncaughtIsNotDisposed | shared-py/src/nats_consumer.py:86-91 | a handler's `BaseException` that is not an `Exception` gives the message neither Ack nor Nak and escapes |
| Consumer.SuccessIsAckedOnce | shared-py/src/nats_consumer.py:81-85 | decode, handler and ack all succeed: exactly one Ack, no Nak, and nothing escapes |
| Consumer.TimeoutIsNakked | shared-py/src/nats_consumer.py:83-88 | a handler past the 300-second limit gets one Nak with delay 30 and no Ack |
| Consumer.FailureIsNakked | shared-py/src/nats_consumer.py:79-91 | an `in_progress` failure, decode failure or handler exception gets one Nak with delay 30 and no Ack |
| Consumer.AckFailureIsAlsoNakked | shared-py/src/nats_consumer.py:84-91 | when `ack` raises, the message gets Ack followed by Nak with delay 30 |
| Consumer.MarkedBeforeHandled | shared-py/src/nats_consumer.py:78-83 | the in-progress mark comes first; the handler is invoked exactly when marking and decoding succeed, and then as the second event |
| Consumer.PublishesPassThrough | shared-py/src/nats_consumer.py:65-68 | the publishes reaching the transport are exactly the handler's, in order, and none when the handler is not reached |
| Consumer.PublishesBeforeDisposition | shared-py/src/nats_consumer.py:83-91 | no publish follows a message's Ack or Nak |
| Consumer.MessageMarkedOnce | shared-py/src/nats_consumer.py:80 | each message is marked in progress exactly once |
| Consumer.BatchStep | shared-py/src/nats_consumer.py:78-91 | a batch issues nothing exactly when it is empty, begins with the first message's mark, and can only crash when non-empty |
| Consumer.BatchMarksInOrder | shared-py/src/nats_consumer.py:78-84 | the marks of a batch are the fetched messages' ids in fetch order, up to the last one processed |
| Consumer.BatchCompletes | shared-py/src/nats_consumer.py:78-91 | a batch ends without an escaping exception exactly when every message is processed and none crashes |
| Consumer.BatchStopsAtFirstCrash | shared-py/src/nats_consumer.py:78-91 | when an exception escapes a batch, the last message processed raised it and no earlier one did |
| Consumer.BatchInFetchOrder | shared-py/src/nats_consumer.py:78-91 | the three batch facts together: marks in fetch order, full batch unless a crash, stop at the first crash |
| Consumer.CycleStep | shared-py/src/nats_consumer.py:73-78 | a fetch timeout never crashes; any other fetch exception crashes with no call; events follow exactly a non-empty batch |
| Consumer.Loop | shared-py/src/nats_consumer.py:72-96 | a set flag gives exactly the teardown, `Stopped`; otherwise a pass starts with the fetch |
| Consumer.FetchesAskForBatch | shared-py/src/nats_consumer.py:72-74 | every fetch asks for `concurrency` messages with the 5-second wait; a set flag means only the teardown |
| Consumer.FetchTimeoutOnlyLoops | shared-py/src/nats_consumer.py:72-76 | a fetch that times out adds only the fetch, with no disposition, and the loop goes on from the flag check |
| Consumer.NoFetchAfterSignal | shared-py/src/nats_consumer.py:55-78 | a signal during pass `k` allows at most `k + 1` fetches in the whole run |
| Consumer.ShutdownFinishesBatch | shared-py/src/nats_consumer.py:72-96 | after the first signal in pass `k` with no crash, the run is exactly the passes up to `k`, each batch processed in full, then unsubscribe, drain, stop health server |
| Consumer.UncaughtEndsRun | shared-py/src/nats_consumer.py:78-96 | a handler's uncaught `BaseException` on the first message ends the run as `Crashed` after the fetch and that message's events, with no disposition and no teardown |
| Consumer.TeardownOnlyWhenStopped | shared-py/src/nats_consumer.py:72-96 | teardown calls occur only in a stopped run, exactly once and at its end; a stopped run has the flag set and a waiting one does not |
| Consumer.Worker.constructor | shared-py/src/nats_consumer.py:34-38 | the configuration comes from the environment; the flag is clear and nothing is logged |
| Consumer.Worker.Signal | shared-py/src/nats_consumer.py:57-59 | the signal handler sets the flag and issues nothing |
| Consumer.Worker.ProcessMessage | shared-py/src/nats_consumer.py:78-91 | appends exactly `Message(d)`'s events and reports whether an exception escapes |
| Consumer.Worker.ProcessBatch | shared-py/src/nats_consumer.py:78-91 | appends exactly the batch's events, one message at a time, stopping at an escaping exception |
| Consumer.Worker.Pass | shared-py/src/nats_consumer.py:72-91 | appends the fetch and the cycle's events; the flag afterwards says whether the signal came |
| Consumer.Worker.Drive | shared-py/src/nats_consumer.py:72-91 | runs passes until the flag is seen, the cycles end or one crashes; what remains is what `Loop` still has to do |
| Consumer.Worker.Serve | shared-py/src/nats_consumer.py:72-96 | the log, status and flag after the loop and teardown are what `Loop` says |
| Consumer.Worker.Run | shared-py/src/nats_consumer.py:43-96 | health server, connect, subscribe, then exactly the loop's events, status and flag |
| Consumer.RunConsumer | shared-py/src/nats_consumer.py:100-102 | a fresh worker issues the setup calls followed by the loop's events for the given concurrency (default 1) |
| R2.Endpoint | shared-py/src/r2.py:23 | the endpoint starts with `https://` and ends with `.r2.cloudflarestorage.com` |
| R2.EndpointNamesAccount | shared-py/src/r2.py:23 | the account id can be read back from the endpoint |
| R2.EndpointInjective | shared-py/src/r2.py:23 | distinct account ids give distinct endpoints |
| R2.UnsetAccountIsRenderedNone | shared-py/src/r2.py:20-23 | an unset account id gives the same endpoint as an account named `None` |
| R2.BucketName | shared-py/src/r2.py:33 | `R2_BUCKET` when set, otherwise `keda-jobs-prod` |
| R2.S3Client.constructor | shared-py/src/r2.py:21-27 | service `s3`, the account's endpoint, both credentials passed through, region `auto` |
| R2.R2.constructor | shared-py/src/r2.py:13 | process start: the cache slot is empty, nothing constructed or sent |
| R2.R2.GetClient | shared-py/src/r2.py:16-28 | a filled slot is returned unchanged with no construction; an empty slot costs one construction, which fills it with a fresh client on success and leaves it empty on failure |
| R2.R2.UploadToR2 | shared-py/src/r2.py:31-34 | on success, exactly one put of the given key, body and content type into the configured bucket, which then stores it; nothing is sent when the client cannot be built |
| R2.R2.DownloadFromR2 | shared-py/src/r2.py:37-41 | one get of the key in the configured bucket; the result is the stored body, or an error when the object or client is missing |
| R2.ClientIsCached | shared-py/tests/test_r2.py:34-38 | two calls give the same client and construct it once |
| R2.UploadThenDownload | shared-py/src/r2.py:31-41 | a download after a successful upload of the same key gives back the body, with at most one construction |
| ImageResize.BuildResizedKey | jobs/image-resize/main.py:23-27 | the result always starts with `images_resized/` |
| ImageResize.ResizedKeyRoundTrip | jobs/image-resize/main.py:25-26 | `images/` + name becomes `images_resized/` + name, and stripping the new prefix gives the name back |
| ImageResize.OtherKeyKeptWhole | jobs/image-resize/main.py:27 | a key not under `images/` is kept whole below `images_resized/` |
| ImageResize.ResizedKeysOfImagesAreDistinct | jobs/image-resize/main.py:23-27 | distinct keys under `images/` get distinct resized keys, while `images/x` and a bare `x` collide |
| ImageResize.FormatOf | jobs/image-resize/main.py:37 | the decoded format, or `PNG` when there is none or it is empty |
| ImageResize.ResizeImage | jobs/image-resize/main.py:30-47 | it raises exactly when the bytes do not decode, or the image is too large and thumbnailing or encoding raises, and then with that exception; a fitting image (sides equal to the limit included) comes back as the same bytes and size; a larger one takes the thumbnail size and the encoded bytes; the format is the decoded one either way |
| ImageResize.ResizedFitsBox | jobs/image-resize/main.py:40-47 | the result fits the `max_dim` box and is no larger than the source in either branch |
| ImageResize.ContentTypeFor | jobs/image-resize/main.py:74 | a known format gives its table entry; any other gives `application/octet-stream` |
| ImageResize.ContentTypes | jobs/image-resize/main.py:50-55 | JPEG, PNG, GIF and WEBP get their image types, exactly those four avoid the fallback, and a format-less image is sent as `image/png` |
| ImageResize.HandleEvent | jobs/image-resize/main.py:58-75 | a missing or empty key raises ValueError before any call; otherwise it downloads the key first; a download, resize or upload exception propagates as raised, with no later call; it succeeds exactly when every step does, and then uploads the resized bytes under the resized key with the format's content type, byte for byte when the image already fits; it never publishes |
| ImageDownload.DownloadImage | jobs/image-download/main.py:23-28 | a failed request or a 4xx/5xx status raises; otherwise the body and the Content-Type header, or `application/octet-stream` when there is none |
| ImageDownload.BuildR2Key | jobs/image-download/main.py:31-35 | the key starts with `images/` |
| ImageDownload.KeyShape | jobs/image-download/main.py:33-35 | the key splits into `images/`, the UUID and an extension that is empty exactly when the path has none, and is otherwise a dot without further dots or slashes that ends the path |
| ImageDownload.SimpleExtensionKept | jobs/image-download/tests/test_main.py:13-22 | a last component `name.ext` with a plain name keeps `.ext` after the UUID |
| ImageDownload.NoDotNoExtension | jobs/image-download/tests/test_main.py:24-27 | a path without a dot gives exactly `images/` + the UUID |
| ImageDownload.HeadersOf | jobs/image-download/main.py:44 | the payload's headers, or an empty map when absent |
| ImageDownload.HandleEvent | jobs/image-download/main.py:38-56 | a missing or empty url raises ValueError with no call; otherwise it downloads first with the given headers and a 60-second timeout, and a download, upload or publish exception propagates as raised, with no later call; it succeeds exactly when every step does, and then the calls are download, upload under the new key, and one `image-downloaded` announcement of that same key; any publish follows the upload and names its key |

## Left out

- The NATS connection, the JetStream subscribe, fetch and publish transport, and the aiohttp health server are network I/O. They appear only as entries in the worker's log, and what a fetch returns is an input (`Cycle`).
- Failures during startup (binding the health port, connecting, subscribing) and during teardown are not modelled; the setup and teardown calls always return.
- OS signal registration and the asyncio event loop are not modelled. A signal is an input of each cycle, taken to arrive while the fetch is awaited; the flag is only read at the loop head, so a signal later in the same pass has the same effect.
- The `asyncio.wait_for` timer is not modelled. A handler that runs too long is the `TimedOut` outcome, and a timed-out handler's background work is not modelled.
- JSON decoding of the message body and encoding in `publish` are not modelled. Decoding is a yes/no input, and a publication is the subject and the payload as the handler passes them.
- Logging has no behavioural content and is left out.
- `os.environ` reads are parameters: `NatsEnv` for the consumer and `R2Env` for the storage helpers.
- `boto3.client`, `put_object` and `get_object` are foreign. Whether construction raises is a parameter; put and get act on a modelled bucket map; a missing object raises a foreign error; other storage failures are not modelled.
- `requests.get` is foreign: its response, or the exception it raises, is a parameter. The response's case-insensitive header dictionary is modelled as a map keyed by lower-cased names.
- `uuid.uuid4` and `urlparse` are foreign: the UUID is a string parameter and URL parsing is a function parameter that gives the path.
- PIL is foreign: decoding, the `thumbnail` size and encoding (the encoded bytes, or the exception thumbnailing or saving raises) are parameters (`Imaging`). Its float aspect-ratio arithmetic is not modelled, and the only property assumed of `thumbnail` is that the result fits the box and enlarges neither side (`ThumbnailFits`).
- In the handlers, a field value that is not a string is reported as an AttributeError raised after the collaborator call that received it. The exact exception Python would raise there is not modelled.
- A `BaseException` that is not an `Exception` is modelled only where the handler raises it; `in_progress`, `ack` and `nak` raising one is not modelled.
- Concurrency: the code processes the messages of a batch one after the other, and so does the model. Parallel processing within a batch is not modelled.
