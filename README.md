# SaladCloud transcription SDK: a verified model of its core

This Dafny project models the parts of the SaladCloud transcription client
library that decide something locally. It covers:

- **Webhook signature verification** (`Webhooks`). The `whsec_` secret prefix is
  stripped and the secret is Base64-decoded. The signed content is
  `id "." floor(ts) "." payload`, and its HMAC-SHA256 is compared with every
  `v1` candidate of the signature header. The timestamp must lie within five
  minutes of now. The verifier is a class whose `Verify` walks the candidates
  with an early return.
- **Service configuration** (`BaseServices`). The base service is a class
  holding the base URL, the API-key header, the timeout and the request chain,
  with setters that return the service. Every send goes through a Retry then
  Http chain built from the current timeout. The response tuple carries the
  Content-Type lower-cased, or `""` when it is absent.
- **The storage service** (`SimpleStorage`).
  - `upload_file` checks the organisation name, then the optional signature
    expiry, then builds a PUT of a multipart form.
  - `sign_url` checks the name, the expiry and the HTTP method against the
    closed `HttpMethod` set, then builds a POST of a JSON body.
- **The transcription services** (`Transcription`, `TranscriptionAsync`).
  - Organisation-name check (`OrgNames`): the regular expression is read as a
    pattern of character-class atoms.
  - Sources: a remote URL is used as is; a local path is uploaded.
  - Job input: the `url` key is injected into the request's options.
  - Job prototype: the webhook policies of the synchronous and asynchronous
    variants.
  - Polling: a scripted remote endpoint (a class logging creations and
    lookups) is polled until a terminal status.
  - Webhook requests: `process_webhook_request` turns a signed request into
    job data.
- **Transfer objects** (`TranscriptionRequests`, `TranscriptionJobOutputs`).
  - `TranscriptionRequest.to_dict`, with `options` sent under the name `input`.
  - The transcript output with its word segments and sentence timestamps. Both
    directions of the `to_dict` round trip are proved.
  - `from_json`.

Cryptography, Base64, UTF-8, JSON parsing, URL parsing, the clock and the
network are not defined here. They are parameters: the `Primitives` record of
functions in `Webhooks`, the `urlparse`, `upload`, `send`, `stream` and `loads`
parameters, the `now` argument, and the scripted `JobsEndpoint`. Where the
Base64 primitive matters, the lemmas assume only what RFC 4648 guarantees
(`Base64Sound`): decoding inverts encoding, and encoded text uses the Base64
alphabet only.

Three facts about the verifier shape the model:

- `verify` raises distinct `WebhookVerificationError` messages, and other
  exceptions too. A candidate without exactly one comma fails tuple unpacking
  with `ValueError`. A bad Base64 signature and undecodable payload bytes each
  raise a decoding error.
- `verify` returns `True`, not the parsed job.
- A bytes payload is decoded to text and re-encoded before signing.

## Model

| member | source | states |
|---|---|---|
| Common.LowerAscii | src/salad_cloud_transcription_sdk/services/utils/base_service.py:88 | `str.lower()` on ASCII: it keeps the length, lower-cases every letter, leaves no upper-case letter, and leaves lower-case text unchanged |
| Text.SplitJoin | src/salad_cloud_transcription_sdk/services/utils/webhooks.py:49-53 | `str.split` at a separator undoes joining separator-free pieces with it |
| Text.SplitPiecesAreFree | src/salad_cloud_transcription_sdk/services/utils/webhooks.py:49-53 | no piece of `str.split(sep)` contains the separator |
| Text.JoinSplit | src/salad_cloud_transcription_sdk/services/utils/webhooks.py:49-53 | joining the pieces of a split gives back the original string |
| Text.SplitAfterPiece | src/salad_cloud_transcription_sdk/services/utils/webhooks.py:49 | splitting `a + sep + b`, with `sep` not in `a`, gives `a` followed by the pieces of `b` |
| Text.DecimalRoundTrip | src/salad_cloud_transcription_sdk/services/utils/webhooks.py:63 | `str(n)` of an integer reads back as `n` |
| Text.IntToDecimalInjective | src/salad_cloud_transcription_sdk/services/utils/webhooks.py:63 | two integers have the same decimal rendering exactly when they are equal |
| OrgNames.OrgPatternMeaning | src/salad_cloud_transcription_sdk/services/transcription.py:74-76 | the pattern `^[a-z][a-z0-9-]{0,61}[a-z0-9]$` matches exactly the names that are 2 to 63 characters long, start with a lower-case letter, hold only lower-case letters, digits and hyphens, and end in a letter or digit |
| OrgNames.OrgPatternSound | src/salad_cloud_transcription_sdk/services/transcription.py:74-76 | every name the pattern matches has the plain-words shape |
| OrgNames.OrgPatternComplete | src/salad_cloud_transcription_sdk/services/transcription.py:74-76 | every name of the plain-words shape is matched by the pattern |
| OrgNames.ValidOrgNameMeaning | src/salad_cloud_transcription_sdk/services/simple_storage.py:69-71 | the validator chain (length 2 to 63, then the pattern) accepts exactly those names |
| OrgNames.OrgNameExamples | src/salad_cloud_transcription_sdk/services/transcription.py:74-76 | `salad-1` is accepted; `Salad`, `s` and `-salad` are rejected |
| OrgNames.SignUrlPatternMeaning | src/salad_cloud_transcription_sdk/services/simple_storage.py:122-124 | `sign_url`'s pattern `^[a-z][a-z0-61}[a-z0-9]$` accepts exactly the two-character strings made of a lower-case letter and then a lower-case letter, digit, `}` or `[` |
| OrgNames.SignUrlPatternRejectsValidNames | src/salad_cloud_transcription_sdk/services/simple_storage.py:122-124 | that pattern rejects the valid name `salad-1` and accepts `a}`, which is no valid name |
| Webhooks.StripSecretPrefix | src/salad_cloud_transcription_sdk/services/utils/webhooks.py:30-31 | a secret that starts with `whsec_` loses exactly that prefix; any other secret is unchanged |
| Webhooks.SecretKey | src/salad_cloud_transcription_sdk/services/utils/webhooks.py:25-35 | an empty secret raises `RuntimeError`, in both text and bytes form, and only an empty one does; a non-empty bytes secret is the key unchanged; a non-empty text secret gives the Base64 decoding of the text without its `whsec_` prefix, or the decoding error when that text is no Base64 |
| Webhooks.PayloadText | src/salad_cloud_transcription_sdk/services/utils/webhooks.py:38 | a text payload is used as it is; a bytes payload gives its UTF-8 decoding, and raises the decoding error exactly when it is no UTF-8 |
| Webhooks.SecretPrefixOptional | src/salad_cloud_transcription_sdk/services/utils/webhooks.py:29-32 | a secret with the `whsec_` prefix gives the same key as the secret without it |
| Webhooks.LowerKeys | src/salad_cloud_transcription_sdk/services/utils/webhooks.py:39 | the keys are exactly the lower-cased header names, none holding an upper-case letter; each key is bound to the value of the last header with that name up to case |
| Webhooks.LowerKeysIgnoresCase | src/salad_cloud_transcription_sdk/services/utils/webhooks.py:39 | header lists that differ only in the ASCII case of their names give the same map |
| Webhooks.VerifyIgnoresHeaderCase | src/salad_cloud_transcription_sdk/services/utils/webhooks.py:39-60 | such header lists verify alike |
| Webhooks.MixedCaseHeaderFound | src/salad_cloud_transcription_sdk/services/utils/webhooks.py:39-40 | a header sent as `Webhook-Id` is found under `webhook-id` |
| Webhooks.CheckTimestamp | src/salad_cloud_transcription_sdk/services/utils/webhooks.py:68-80 | the timestamp is accepted exactly when it parses and lies within 300 seconds of now, both bounds included; the result is the parsed time; every rejection is a `WebhookVerificationError` |
| Webhooks.SignedContentUsesFloor | src/salad_cloud_transcription_sdk/services/utils/webhooks.py:63-64 | two timestamps give the same signed content exactly when their floors agree |
| Webhooks.Sign | src/salad_cloud_transcription_sdk/services/utils/webhooks.py:62-66 | a signature always starts with `v1,`; with sound Base64 it splits at its one comma into `v1` and the Base64 of the MAC, whose decoding is the MAC; it holds no space |
| Webhooks.ExpectedSignature | src/salad_cloud_transcription_sdk/services/utils/webhooks.py:48-50 | decoding the part after the comma of `sign`'s result gives the MAC of the signed content |
| Webhooks.ScanCandidates | src/salad_cloud_transcription_sdk/services/utils/webhooks.py:51-60 | the candidate loop returns only `True`; it raises only the no-match error, one of the two unpacking errors or the Base64 error |
| Webhooks.ScanAccepts | src/salad_cloud_transcription_sdk/services/utils/webhooks.py:51-60 | the loop accepts exactly when some candidate of version exactly `v1` decodes to the expected MAC, and every earlier candidate unpacks and decodes |
| Webhooks.ScanRejects | src/salad_cloud_transcription_sdk/services/utils/webhooks.py:52-60 | well-formed candidates none of which matches end in the `No matching signature found` error; candidates of any other version never accept |
| Webhooks.VerifyMissingHeaders | src/salad_cloud_transcription_sdk/services/utils/webhooks.py:39-44 | an absent or empty id, timestamp or signature header is rejected before any signing |
| Webhooks.VerifyRejectsStaleTimestamp | src/salad_cloud_transcription_sdk/services/utils/webhooks.py:46 | with the headers present, a timestamp that does not parse or lies outside the window is rejected with `WebhookVerificationError`, whatever the signature |
| Webhooks.VerifyOutcome | src/salad_cloud_transcription_sdk/services/utils/webhooks.py:37-60 | `verify` returns only `True`, and only for a payload that reads as text; a payload that does not raises its decoding error; every other failure is a verification, unpacking or decoding error |
| Webhooks.VerifyAcceptsIff | src/salad_cloud_transcription_sdk/services/utils/webhooks.py:37-66 | `verify` returns `True` exactly when all of the following hold: the headers are present; the timestamp is in the window; some `v1` candidate carries the HMAC of `id.floor(ts).payload`; every earlier candidate is well formed |
| Webhooks.BytesVerifyAsText | src/salad_cloud_transcription_sdk/services/utils/webhooks.py:38 | a bytes payload verifies exactly as its UTF-8 decoding does |
| Webhooks.WebhookHeaders | src/salad_cloud_transcription_sdk/services/transcription.py:230-234 | the header map holds exactly the keys `webhook-id`, `webhook-timestamp` and `webhook-signature`, each bound to its argument |
| Webhooks.SignThenVerify | src/salad_cloud_transcription_sdk/services/utils/webhooks.py:37-66 | a payload signed with a key verifies under that key for any timestamp inside the window |
| Webhooks.OtherKeyRejected | src/salad_cloud_transcription_sdk/services/utils/webhooks.py:51-60 | a signature made with one key is rejected with the no-match error under a key whose MAC differs |
| Webhooks.Webhook.New | src/salad_cloud_transcription_sdk/services/utils/webhooks.py:25-35 | the constructor stores the derived key, or raises what deriving it raises |
| Webhooks.Webhook.Verify | src/salad_cloud_transcription_sdk/services/utils/webhooks.py:37-60 | the imperative loop with its early returns computes exactly the specified outcome of verification |
| BaseServices.RequestChain.AddHandler | src/salad_cloud_transcription_sdk/services/utils/base_service.py:122-126 | the new handler goes last and the handlers already chained keep their order |
| BaseServices.RequestHandlerFor | src/salad_cloud_transcription_sdk/services/utils/base_service.py:115-126 | the chain is a retry handler, then an HTTP handler with the given timeout |
| BaseServices.HeaderValue | src/salad_cloud_transcription_sdk/services/utils/base_service.py:88 | `headers.get(name)` on a case-insensitive mapping: the value of the entry whose name equals `name` up to ASCII case, and none exactly when no name does |
| BaseServices.ResponseTuple | src/salad_cloud_transcription_sdk/services/utils/base_service.py:84-89 | the tuple holds the body, the status and the Content-Type, found whatever the case of its header name, lower-cased, or `""` when no header has that name; it never holds upper case |
| BaseServices.ResponseTupleIgnoresCase | src/salad_cloud_transcription_sdk/services/utils/base_service.py:88 | responses whose Content-Type values differ only in ASCII case give the same tuple |
| BaseServices.ResponseTupleIgnoresNameCase | src/salad_cloud_transcription_sdk/services/utils/base_service.py:88 | a Content-Type header under a name of any case, such as `content-type`, gives the same tuple as under `Content-Type` |
| BaseServices.ResponseTupleLowerCaseName | src/salad_cloud_transcription_sdk/services/utils/base_service.py:88 | a response carrying `content-type: application/json` gives `application/json` |
| BaseServices.BaseService.constructor | src/salad_cloud_transcription_sdk/services/utils/base_service.py:29-33 | the new service has the given base URL, no API key, a timeout of 60000 and the chain built from it |
| BaseServices.BaseService.GetApiKey | src/salad_cloud_transcription_sdk/services/utils/base_service.py:45-52 | the API-key header is present exactly when one was set, and it is that header |
| BaseServices.BaseService.SetApiKey | src/salad_cloud_transcription_sdk/services/utils/base_service.py:35-43 | installs the key under the API-key slot with the header `Salad-Api-Key` by default, changes nothing else and returns the service |
| BaseServices.BaseService.SetTimeout | src/salad_cloud_transcription_sdk/services/utils/base_service.py:54-64 | stores the timeout and rebuilds the chain with it, keeping the chain consistent with the timeout; returns the service |
| BaseServices.BaseService.SetBaseUrl | src/salad_cloud_transcription_sdk/services/utils/base_service.py:66-74 | changes only the base URL and returns the service |
| BaseServices.BaseService.SendRequest | src/salad_cloud_transcription_sdk/services/utils/base_service.py:76-89 | the request goes through the chain of the current timeout, and the result is the tuple of the response |
| BaseServices.BaseService.StreamRequest | src/salad_cloud_transcription_sdk/services/utils/base_service.py:91-104 | one tuple per partial response, in the order received |
| SimpleStorage.MethodValue | src/salad_cloud_transcription_sdk/services/simple_storage.py:11-18 | every member's value is one of the seven method names |
| SimpleStorage.MethodFromValue | src/salad_cloud_transcription_sdk/services/simple_storage.py:11-18 | a string names a member exactly when it is one of the seven values, and then that member's value is the string |
| SimpleStorage.MethodValueRoundTrip | src/salad_cloud_transcription_sdk/services/simple_storage.py:11-18 | every member is found again from its value |
| SimpleStorage.MethodValueInjective | src/salad_cloud_transcription_sdk/services/simple_storage.py:11-18 | two members have the same value exactly when they are the same member |
| SimpleStorage.ResolveMethod | src/salad_cloud_transcription_sdk/services/simple_storage.py:129-135 | a member gives its value; a string is accepted exactly when it is one of the seven values and is then kept; anything else raises `ValueError` |
| SimpleStorage.ResolveMethodEnumOrText | src/salad_cloud_transcription_sdk/services/simple_storage.py:129-135 | passing a member or its value gives the same method |
| SimpleStorage.CheckMinOne | src/salad_cloud_transcription_sdk/services/simple_storage.py:126 | `Validator(int).min_value(1)` accepts exactly the values of at least 1 and keeps them; it rejects the rest with the expiry error |
| SimpleStorage.UploadForm | src/salad_cloud_transcription_sdk/services/simple_storage.py:76-84 | the form always holds `file`, `mimeType` and `sign`, and holds `signatureExp` exactly when an expiry is given |
| SimpleStorage.UploadFileRequest | src/salad_cloud_transcription_sdk/services/simple_storage.py:69-96 | the request is built exactly when the name is valid and a given expiry is at least 1; the name is checked first; the request is a PUT of that form to `/organizations/{organization_name}/files/{filename}` |
| SimpleStorage.SignBody | src/salad_cloud_transcription_sdk/services/simple_storage.py:137-140 | the body has exactly the keys `method` and `exp` |
| SimpleStorage.SignUrlRequestAfterOrgCheck | src/salad_cloud_transcription_sdk/services/simple_storage.py:125-152 | after the name check, the expiry is checked, then the method; the request is built exactly when all three pass, and is a POST of the body to `/organizations/{organization_name}/file_tokens/{filename}` |
| SimpleStorage.SignUrlRequestAsWritten | src/salad_cloud_transcription_sdk/services/simple_storage.py:122-152 | `sign_url` as written succeeds only for two-character organisation names |
| SimpleStorage.SignUrlRequest | src/salad_cloud_transcription_sdk/services/simple_storage.py:122-152 | `sign_url` with the organisation-name rule of the other operations: it succeeds exactly when the name is valid, `exp >= 1` and the method resolves |
| SimpleStorage.SignUrlAsWrittenRefusesValidOrg | src/salad_cloud_transcription_sdk/services/simple_storage.py:122-124 | for `salad-1`, `upload_file` builds its request and the corrected `sign_url` builds its request, but `sign_url` as written raises |
| SimpleStorage.ValidOrgNameStaysInPathSegment | src/salad_cloud_transcription_sdk/services/simple_storage.py:86-92 | a valid organisation name holds no `/`, `?`, `#`, `{` or `}`, so it stays inside its path segment |
| SimpleStorage.NewSimpleStorageService | src/salad_cloud_transcription_sdk/services/simple_storage.py:23-37 | the API key is set exactly when it is given and non-empty |
| SimpleStorage.UploadFile | src/salad_cloud_transcription_sdk/services/simple_storage.py:69-99 | a request that fails validation is never sent; otherwise the result is the body of the response to the built request |
| SimpleStorage.SignUrl | src/salad_cloud_transcription_sdk/services/simple_storage.py:122-155 | likewise for the (corrected) signed-URL request |
| Transcription.IsRemoteUrl | src/salad_cloud_transcription_sdk/services/transcription.py:129-130 | a source is remote exactly when its scheme is `http` or `https` and it names a host |
| Transcription.ProcessSource | src/salad_cloud_transcription_sdk/services/transcription.py:129-138 | a source whose scheme is `http` or `https` and which names a host is returned unchanged; any other source is uploaded and the upload's URL is used |
| Transcription.ProcessSourceAsWritten | src/salad_cloud_transcription_sdk/services/transcription.py:129-138 | as written, only remote URLs get through; every local path raises `TypeError` |
| Transcription.ProcessSourceLocalPathFails | src/salad_cloud_transcription_sdk/services/transcription.py:134-136 | both agree on remote URLs; on a local path that uploads fine, the code as written raises where the intended code returns the uploaded URL |
| Transcription.JobInput | src/salad_cloud_transcription_sdk/services/transcription.py:81-82 | the job input is the request's options with `url` set to the resolved source; every other key is unchanged and no key is added besides `url` |
| Transcription.SyncPrototype | src/salad_cloud_transcription_sdk/services/transcription.py:84-88 | both webhook fields are passed, and both are the request's webhook whatever it is |
| Transcription.FirstDecided | src/salad_cloud_transcription_sdk/services/transcription.py:102-111 | the first lookup that ends polling: it raised or shows a terminal status, and no earlier one did |
| Transcription.ThirdLookupDecides | src/salad_cloud_transcription_sdk/services/transcription.py:102-112 | a job that is pending, then running, then succeeded ends polling at the third lookup |
| Transcription.JobsEndpoint.GetJob | src/salad_cloud_transcription_sdk/services/transcription.py:140-158 | a lookup is logged under its organisation and id, and gives the next answer of the remote endpoint |
| Transcription.JobsEndpoint.CreateJob | src/salad_cloud_transcription_sdk/services/transcription.py:94-98 | a creation is logged with its organisation and prototype, and gives the endpoint's answer |
| Transcription.JobsEndpoint.PollUntilDone | src/salad_cloud_transcription_sdk/services/transcription.py:102-112 | polling stops at the first answer that raises or shows SUCCEEDED, FAILED or CANCELLED, and returns it; it makes exactly that many lookups, all with the same organisation and job id |
| Transcription.Submit | src/salad_cloud_transcription_sdk/services/transcription.py:74-114 | an invalid name is rejected before any upload, creation or lookup; a failed source resolution returns its error and creates no job; otherwise exactly one job is created with the prototype of the resolved source; without `auto_poll`, or when creation raises, the creation answer is returned and nothing is looked up; with `auto_poll` and a created job, the result is the first lookup answer that raises or shows a terminal status, and every lookup up to it uses the organisation and the created id |
| Transcription.Transcribe | src/salad_cloud_transcription_sdk/services/transcription.py:74-114 | the synchronous `transcribe`: the same outcome, case by case, as `Submit` with the synchronous prototype |
| Transcription.WebhookJobDataAsWritten | src/salad_cloud_transcription_sdk/services/transcription.py:237-243 | as written, the data handed to `_unmap` is always the boolean `True` |
| Transcription.WebhookJobData | src/salad_cloud_transcription_sdk/services/transcription.py:230-243 | job data exists only when the secret decodes, the three headers verify and the payload is text; it is then the JSON of that payload |
| Transcription.WebhookJobDataLosesPayload | src/salad_cloud_transcription_sdk/services/transcription.py:241-243 | for every verified payload, the code as written hands `True` to `_unmap` where the intended code hands the payload's JSON |
| Transcription.WebhookFailureBeforeUnmap | src/salad_cloud_transcription_sdk/services/transcription.py:237-243 | a secret or verification failure propagates before any unmapping, identically in both versions |
| Transcription.ProcessWebhookRequest | src/salad_cloud_transcription_sdk/services/transcription.py:230-243 | the header map, the verifier object and the verification compute exactly that job data |
| TranscriptionAsync.WebhookOrNone | src/salad_cloud_transcription_sdk/services/async_/transcription.py:79-80 | `webhook or None` is `None` exactly for the empty URL |
| TranscriptionAsync.AsyncPrototype | src/salad_cloud_transcription_sdk/services/async_/transcription.py:71-85 | with no webhook only the input is passed; otherwise both webhook fields are the webhook, or `None` when it is empty; the input is the same as the synchronous one |
| TranscriptionAsync.PrototypesAgreeIff | src/salad_cloud_transcription_sdk/services/async_/transcription.py:76-85 | the two variants build the same prototype exactly when the request has a non-empty webhook URL |
| TranscriptionAsync.Transcribe | src/salad_cloud_transcription_sdk/services/async_/transcription.py:66-109 | the asynchronous `transcribe`: the same outcome, case by case, as `Submit` with the asynchronous prototype |
| TranscriptionRequests.TranscriptionRequest.ToDict | src/salad_cloud_transcription_sdk/models/transcription_request.py:38-42 | exactly the keys `input`, `webhook` and `metadata`, with the options under `input` and no `options` key |
| TranscriptionRequests.Unmap | src/salad_cloud_transcription_sdk/models/transcription_request.py:8 | a wire dictionary is read back exactly when it has an object under `input`, a string or null under `webhook`, and a `metadata` key |
| TranscriptionRequests.UnmapToDict | src/salad_cloud_transcription_sdk/models/transcription_request.py:8 | reading back a request's dictionary gives the request |
| TranscriptionRequests.ToDictUnmap | src/salad_cloud_transcription_sdk/models/transcription_request.py:38-42 | writing out a request read from a three-key dictionary gives that dictionary |
| TranscriptionJobOutputs.DefineNumber | src/salad_cloud_transcription_sdk/models/transcription_job_output.py:31-32 | a value is accepted, unchanged, exactly when it is an `int`, a `float` or a `bool`; anything else raises `TypeError` |
| TranscriptionJobOutputs.DefineStr | src/salad_cloud_transcription_sdk/models/transcription_job_output.py:34-35 | a value is accepted exactly when it is a string, and is then that string; anything else raises `TypeError` |
| TranscriptionJobOutputs.WordSegmentFromDict | src/salad_cloud_transcription_sdk/models/transcription_job_output.py:22-36 | `WordSegment(**d)` succeeds exactly when all five parameters are bound, `start` and `end` are numbers, and `word` and `speaker` are strings; extra keys become the keyword arguments; every failure is a `TypeError` |
| TranscriptionJobOutputs.WordSegment.ToDict | src/salad_cloud_transcription_sdk/models/transcription_job_output.py:44-50 | exactly the keys start, end, timestamp, word and speaker |
| TranscriptionJobOutputs.WordSegmentDictRoundTrip | src/salad_cloud_transcription_sdk/models/transcription_job_output.py:22-50 | dictionary to segment and back keeps the five keys and drops only the extra ones |
| TranscriptionJobOutputs.WordSegmentObjectRoundTrip | src/salad_cloud_transcription_sdk/models/transcription_job_output.py:22-50 | segment to dictionary and back gives the segment |
| TranscriptionJobOutputs.SentenceFromDict | src/salad_cloud_transcription_sdk/models/transcription_job_output.py:68-82 | `SentenceTimestamp(**d)` succeeds exactly when the four required parameters are bound, `start` and `end` are numbers and `text` is a string; the speaker defaults to `None` |
| TranscriptionJobOutputs.SentenceTimestamp.ToDict | src/salad_cloud_transcription_sdk/models/transcription_job_output.py:90-100 | the `speaker` key is present exactly when the speaker is not `None` |
| TranscriptionJobOutputs.SentenceDictRoundTrip | src/salad_cloud_transcription_sdk/models/transcription_job_output.py:68-100 | dictionary to sentence and back keeps the known keys, except a `None` speaker |
| TranscriptionJobOutputs.SentenceObjectRoundTrip | src/salad_cloud_transcription_sdk/models/transcription_job_output.py:68-100 | sentence to dictionary and back gives the sentence, also with a `None` speaker |
| TranscriptionJobOutputs.FromItems | src/salad_cloud_transcription_sdk/models/transcription_job_output.py:144-147 | the list comprehension converts every item in order, keeping the count; it succeeds exactly when every item converts, and otherwise raises the error of the first item that fails |
| TranscriptionJobOutputs.OutputFromDict | src/salad_cloud_transcription_sdk/models/transcription_job_output.py:129-157 | on success all ten parameters are bound, the string fields hold the dictionary's strings, the durations are numbers, and both lists keep their length; every failure is a `TypeError` |
| TranscriptionJobOutputs.TranscriptionJobOutput.ToDict | src/salad_cloud_transcription_sdk/models/transcription_job_output.py:165-178 | exactly the ten listed keys |
| TranscriptionJobOutputs.WordListDictRoundTrip | src/salad_cloud_transcription_sdk/models/transcription_job_output.py:144-167 | a list of well-formed segment dictionaries converts, and turning it back gives the same list, in order |
| TranscriptionJobOutputs.SentenceListDictRoundTrip | src/salad_cloud_transcription_sdk/models/transcription_job_output.py:145-170 | likewise for sentence dictionaries |
| TranscriptionJobOutputs.WordListObjectRoundTrip | src/salad_cloud_transcription_sdk/models/transcription_job_output.py:144-167 | segments turned into dictionaries convert back to the same segments, in order |
| TranscriptionJobOutputs.SentenceListObjectRoundTrip | src/salad_cloud_transcription_sdk/models/transcription_job_output.py:145-170 | likewise for sentences |
| TranscriptionJobOutputs.OutputDictRoundTrip | src/salad_cloud_transcription_sdk/models/transcription_job_output.py:129-178 | `TranscriptionJobOutput(**d).to_dict() == d` for every well-formed `d` whose sentences carry no `None` speaker |
| TranscriptionJobOutputs.OutputObjectRoundTrip | src/salad_cloud_transcription_sdk/models/transcription_job_output.py:129-178 | a well-typed output turned into its dictionary converts back to itself |
| TranscriptionJobOutputs.FromJson | src/salad_cloud_transcription_sdk/models/transcription_job_output.py:193-200 | a dictionary is used directly; text is parsed and then bound; bytes that are not UTF-8 raise a decoding error |
| TranscriptionJobOutputs.FromJsonBytesAsText | src/salad_cloud_transcription_sdk/models/transcription_job_output.py:196-198 | bytes are read exactly as the text they decode to |
| TranscriptionJobOutputs.FromJsonTextAsDict | src/salad_cloud_transcription_sdk/models/transcription_job_output.py:193-200 | text whose JSON is an object is read exactly as that dictionary |

## Left out

- HTTP I/O, with `RequestChain`, `RetryHandler` and `HttpHandler`. Their source is not part of this model, so only the chain's order and timeout are modelled. `send` and `stream` are parameters. Retries, backoff and `RequestError` raised by the transport are not modelled.
- BaseServices.BaseService.StreamRequest: returns all the tuples at once, as a sequence. The source is a generator that yields each tuple lazily, as its partial response arrives.
- `SaladCloudSdk` and its job calls. Job creation and lookup go to the scripted `JobsEndpoint`. `list_transcription_jobs` and `delete_transcription_job` are thin calls into that library and are not modelled.
- `InferenceEndpointJob._unmap` is not part of this model. The webhook functions stop at the data handed to it.
- HMAC-SHA256, Base64, UTF-8, `float`/`datetime.fromtimestamp` parsing and `json.loads` are parameters rather than definitions.
- `hmac.compare_digest` is modelled as plain equality. Its constant-time behaviour cannot be stated here.
- Timestamps are real seconds since the epoch, so that `floor` is meaningful. `now` is an argument instead of a clock read.
- `time.sleep`, `asyncio.sleep`, awaiting, cancellation and the `to_async` method patching are not modelled. The asynchronous service shares the synchronous model except for its prototype.
- `urlparse` is not modelled. `_process_source` reads only a (scheme, netloc) pair from a parameter.
- The `Validator` class is not part of this model. Only the checks it is configured with are modelled. A failed check is a `ValueError` here. The `str` type checks are implied by the parameter types. Python's `$` also matches before a trailing newline, which this model does not reflect.
- `BaseModel._define_number`, `_define_str` and `_define_object` are not part of this model. `_define_number` accepts integers and floats, and booleans too, since `bool` is a subclass of `int`; it raises `TypeError` otherwise. `_define_str` accepts strings and raises `TypeError` otherwise. The model departs from that for a request's `webhook`, which may be `None` here and which `TranscriptionRequests.Unmap` reads from a null, because the asynchronous service handles a request without a webhook.
- `TranscriptionJobInput` is not part of this model. The options are the dictionary its `to_dict` gives.
- The values of `Status` come from a library that is not part of this model. They are written as `succeeded`, `failed` and `cancelled`.
- `DefaultHeaders` is a map from the one header key to the API-key header. `get_default_headers` is not modelled.
- The `Serializer` is not part of this model. A request records its method, URL template, path parameters, authentication and body, with no URL encoding.
- `Environment` is not part of this model. Base URLs are plain strings, and the service constructors pass them through.
- Lower-casing covers ASCII letters only. Header names and content types are ASCII.
- Only lists are iterated in `[... for x in xs]`. Any other iterable value raises `TypeError` here.
- `print(job_prototype)` in the synchronous `transcribe` is output only and is not modelled.
- `transcription_engine.py` is a bare enumeration with no behaviour and is not modelled.
- Transcription.JobsEndpoint.PollUntilDone: requires that the scripted answers eventually raise or reach a terminal status. The source would poll forever otherwise.
- Transcription.Submit: with `auto_poll`, requires the same of the endpoint's answers.
- The `@cast_models` decorator on `sign_url` is not part of this model: casting arguments and results through the model types is not modelled, and arguments arrive already typed.
- SimpleStorage.SignUrl: sends the corrected request. The request as written is `SimpleStorage.SignUrlRequestAsWritten`.
- Transcription.Submit: resolves the source with the corrected `ProcessSource`. As written, every local path raises `TypeError`; that behaviour is `Transcription.ProcessSourceAsWritten`.
- Transcription.Transcribe: likewise uses the corrected `ProcessSource`; the as-written counterpart is `Transcription.ProcessSourceAsWritten`.
- TranscriptionAsync.Transcribe: likewise uses the corrected `ProcessSource`; the as-written counterpart is `Transcription.ProcessSourceAsWritten`.
- Transcription.ProcessWebhookRequest: hands the payload's JSON to `_unmap`, not the `True` that `verify` returns. The as-written counterpart is `Transcription.WebhookJobDataAsWritten`.

## Findings

| source | as written | input that shows it | evidently intended | confidence | as-written member | corrected member |
|---|---|---|---|---|---|---|
| src/salad_cloud_transcription_sdk/services/simple_storage.py:122-124 | the pattern `^[a-z][a-z0-61}[a-z0-9]$` has an unclosed class, so it matches only two-character names | `sign_url("salad-1", ...)` raises, while `upload_file` and `transcribe` accept `salad-1`; `a}` is accepted | the organisation-name pattern of `upload_file`, `^[a-z][a-z0-9-]{0,61}[a-z0-9]$` | high (not executed) | `SimpleStorage.SignUrlRequestAsWritten`, `SimpleStorage.SignUrlAsWrittenRefusesValidOrg` | `SimpleStorage.SignUrlRequest` |
| src/salad_cloud_transcription_sdk/services/transcription.py:134-136 | `upload_file(organization_name=..., local_file_path=...)` passes a keyword that `upload_file` does not take | any local path, such as `audio.mp3`: `TypeError` before anything is uploaded | upload the local file and use the URL of the upload: the storage tests call `upload_file` with the same `organization_name`/`local_file_path` keywords (tests/test_simple_storage_service.py:22-26), and a transcription test submits a local file and expects a job (tests/test_transcription_service.py:17-53); the keyword or the storage signature could be aligned on either side, which is why the upload is a parameter of the corrected member | high (not executed) | `Transcription.ProcessSourceAsWritten`, `Transcription.ProcessSourceLocalPathFails` | `Transcription.ProcessSource` |
| src/salad_cloud_transcription_sdk/services/transcription.py:241-243 | `verify` returns `True`, and that boolean is what is unmapped into a job | any correctly signed webhook request | unmap the verified payload's JSON | high (not executed) | `Transcription.WebhookJobDataAsWritten`, `Transcription.WebhookJobDataLosesPayload` | `Transcription.WebhookJobData` |
