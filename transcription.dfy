/** The transcription service: checking the organisation name, resolving the
    audio source to a URL, building the job prototype from the request, creating
    the job on the remote inference endpoint and, when asked, polling it until it
    ends; and turning a signed webhook request into the job it reports. */
module Transcription {

  import opened Common
  import opened OrgNames
  import opened TranscriptionRequests
  import opened Webhooks
  import SimpleStorage

  // ---------------------------------------------------------------------------
  // Sources

  /** What `_process_source` reads of `urlparse(source)`. */
  datatype UrlParts = UrlParts(scheme: string, netloc: string)

  /** A source is a remote URL when its scheme is `http` or `https` and it
      names a host. */
  predicate IsRemoteUrl(u: UrlParts)
    ensures IsRemoteUrl(u) ==> u.netloc != ""
    ensures u.scheme !in {"http", "https"} ==> !IsRemoteUrl(u)
    ensures u.scheme in {"http", "https"} && u.netloc != "" ==> IsRemoteUrl(u)
  {
    (u.scheme == "http" || u.scheme == "https") && u.netloc != ""
  }

  /** Uploading a local file for an organisation and reading back the URL the
      storage service gives it (organisation name, local path). */
  type Upload = (string, string) -> Result<string>

  /** `_process_source` as it is meant: a remote URL is used as it is, anything
      else is uploaded as a local file and the upload's URL is used. */
  function ProcessSource(source: string, org: string, urlparse: string -> UrlParts, upload: Upload)
    : (r: Result<string>)
    ensures IsRemoteUrl(urlparse(source)) ==> r == Success(source)
    ensures !IsRemoteUrl(urlparse(source)) ==> r == upload(org, source)
  {
    if IsRemoteUrl(urlparse(source)) then Success(source) else upload(org, source)
  }

  /** The exception Python raises for `upload_file(organization_name=...,
      local_file_path=...)`: the storage service has no such parameter. */
  const UNEXPECTED_KEYWORD: Error := TypeError("upload_file() got an unexpected keyword argument 'local_file_path'")

  /** `_process_source` as written: the call into the storage service fails
      before anything is uploaded, so only remote URLs get through. */
  function ProcessSourceAsWritten(source: string, org: string, urlparse: string -> UrlParts)
    : (r: Result<string>)
    ensures r.Success? <==> IsRemoteUrl(urlparse(source))
    ensures r.Success? ==> r.value == source
    ensures r.Failure? ==> r.error == UNEXPECTED_KEYWORD
  {
    if IsRemoteUrl(urlparse(source)) then Success(source) else Failure(UNEXPECTED_KEYWORD)
  }

  /** The two agree on remote URLs; on a local path that uploads fine, the code
      as written raises where the intended code returns the uploaded file's URL. */
  lemma ProcessSourceLocalPathFails(source: string, org: string, urlparse: string -> UrlParts,
                                    upload: Upload, url: string)
    ensures IsRemoteUrl(urlparse(source)) ==>
              ProcessSourceAsWritten(source, org, urlparse) == ProcessSource(source, org, urlparse, upload)
    ensures !IsRemoteUrl(urlparse(source)) && upload(org, source) == Success(url) ==>
              ProcessSourceAsWritten(source, org, urlparse) == Failure(UNEXPECTED_KEYWORD)
              && ProcessSource(source, org, urlparse, upload) == Success(url)
  {
  }

  // ---------------------------------------------------------------------------
  // Job prototypes

  /** The job input: the request's options under their wire name, with `url`
      set to the resolved source; every other option is kept. */
  function JobInput(request: TranscriptionRequest, url: string): (input: map<string, Value>)
    ensures input.Keys == request.options.Keys + {"url"}
    ensures input["url"] == Str(url)
    ensures forall k :: k in request.options && k != "url" ==> input[k] == request.options[k]
  {
    request.ToDict()[INPUT_KEY].fields["url" := Str(url)]
  }

  /** A keyword argument that was passed (possibly as `None`) or left out. */
  datatype Field<T> = Absent | Passed(value: T)

  /** `InferenceEndpointJobPrototype(input=..., webhook=..., webhook_url=...)`. */
  datatype JobPrototype = JobPrototype(
    input: map<string, Value>,
    webhook: Field<Option<string>>,
    webhookUrl: Field<Option<string>>)

  /** The prototype of the synchronous `transcribe`: both webhook fields are the
      request's webhook, whatever it is. */
  function SyncPrototype(request: TranscriptionRequest, url: string): (p: JobPrototype)
    ensures p.input == JobInput(request, url)
    ensures p.webhook.Passed? && p.webhookUrl.Passed? && p.webhook == p.webhookUrl
    ensures p.webhook.value == request.webhook
  {
    JobPrototype(JobInput(request, url), Passed(request.webhook), Passed(request.webhook))
  }

  // ---------------------------------------------------------------------------
  // The remote inference endpoint

  /** An inference-endpoint job as far as `transcribe` reads it. */
  datatype Job = Job(id: string, status: string)

  /** The values of `Status.SUCCEEDED`, `Status.FAILED` and `Status.CANCELLED`. */
  const SUCCEEDED: string := "succeeded"
  const FAILED: string := "failed"
  const CANCELLED: string := "cancelled"

  predicate IsTerminal(status: string) {
    status == SUCCEEDED || status == FAILED || status == CANCELLED
  }

  /** A lookup that ends polling: an exception, or a job in a terminal status. */
  predicate Decided(answer: Result<Job>) {
    answer.Failure? || IsTerminal(answer.value.status)
  }

  predicate SomeDecided(answers: seq<Result<Job>>) {
    exists i :: 0 <= i < |answers| && Decided(answers[i])
  }

  /** The position of the first lookup that ends polling. */
  function FirstDecided(answers: seq<Result<Job>>): (k: nat)
    requires SomeDecided(answers)
    ensures k < |answers| && Decided(answers[k])
    ensures forall j :: 0 <= j < k ==> !Decided(answers[j])
  {
    if Decided(answers[0]) then 0
    else
      var rest := answers[1..];
      assert SomeDecided(rest) by {
        var i :| 0 <= i < |answers| && Decided(answers[i]);
        assert rest[i - 1] == answers[i];
      }
      var k := FirstDecided(rest);
      assert forall j :: 1 <= j < k + 1 ==> answers[j] == rest[j - 1];
      k + 1
  }

  /** A job that is still pending, then running, then succeeded ends polling at
      the third lookup, so `PollUntilDone` looks it up exactly three times. */
  lemma ThirdLookupDecides(jobId: string)
    ensures var answers := [Success(Job(jobId, "pending")), Success(Job(jobId, "running")),
                            Success(Job(jobId, SUCCEEDED))];
            SomeDecided(answers) && FirstDecided(answers) == 2
  {
    var answers := [Success(Job(jobId, "pending")), Success(Job(jobId, "running")), Success(Job(jobId, SUCCEEDED))];
    assert Decided(answers[2]);
    assert !Decided(answers[0]) && !Decided(answers[1]);
  }

  const NO_ANSWER: Error := RequestError("the endpoint gave no answer")

  /** The remote inference endpoint of the transcription service. Network I/O is
      not part of this model: the endpoint answers a job creation with
      `createAnswer` and successive lookups with `statusAnswers` in order, and
      logs every creation and lookup it receives. */
  class JobsEndpoint {
    var created: seq<(string, JobPrototype)>
    var lookups: seq<(string, string)>
    var createAnswer: Result<Job>
    var statusAnswers: seq<Result<Job>>

    constructor(createAnswer: Result<Job>, statusAnswers: seq<Result<Job>>)
      ensures created == [] && lookups == []
      ensures this.createAnswer == createAnswer && this.statusAnswers == statusAnswers
    {
      created := [];
      lookups := [];
      this.createAnswer := createAnswer;
      this.statusAnswers := statusAnswers;
    }

    /** `create_inference_endpoint_job`. */
    method CreateJob(org: string, prototype: JobPrototype) returns (r: Result<Job>)
      modifies this
      ensures r == createAnswer
      ensures created == old(created) + [(org, prototype)]
      ensures lookups == old(lookups) && statusAnswers == old(statusAnswers)
      ensures createAnswer == old(createAnswer)
    {
      created := created + [(org, prototype)];
      r := createAnswer;
    }

    /** `get_inference_endpoint_job`: the next scripted answer. */
    method GetJob(org: string, jobId: string) returns (r: Result<Job>)
      modifies this
      ensures old(statusAnswers) != [] ==> r == old(statusAnswers[0]) && statusAnswers == old(statusAnswers[1..])
      ensures old(statusAnswers) == [] ==> r == Failure(NO_ANSWER) && statusAnswers == []
      ensures lookups == old(lookups) + [(org, jobId)]
      ensures created == old(created) && createAnswer == old(createAnswer)
    {
      lookups := lookups + [(org, jobId)];
      if statusAnswers == [] {
        r := Failure(NO_ANSWER);
      } else {
        r := statusAnswers[0];
        statusAnswers := statusAnswers[1..];
      }
    }

    /** The `auto_poll` loop: the job is looked up again and again, always under
        the same organisation and id, until a lookup raises or shows a terminal
        status; that answer is the result. */
    method PollUntilDone(org: string, jobId: string) returns (r: Result<Job>)
      requires SomeDecided(statusAnswers)
      modifies this
      ensures var k := FirstDecided(old(statusAnswers));
              && r == old(statusAnswers)[k]
              && statusAnswers == old(statusAnswers)[k + 1..]
              && lookups == old(lookups) + seq(k + 1, _ => (org, jobId))
      ensures r.Success? ==> IsTerminal(r.value.status)
      ensures created == old(created) && createAnswer == old(createAnswer)
    {
      ghost var answers := statusAnswers;
      ghost var k := FirstDecided(answers);
      r := GetJob(org, jobId);
      var polled := 1;
      while !Decided(r)
        invariant 1 <= polled <= k + 1
        invariant r == answers[polled - 1]
        invariant statusAnswers == answers[polled..]
        invariant lookups == old(lookups) + seq(polled, _ => (org, jobId))
        invariant created == old(created) && createAnswer == old(createAnswer)
        decreases |statusAnswers|
      {
        r := GetJob(org, jobId);
        polled := polled + 1;
      }
    }
  }

  /** `transcribe`, given how it builds its prototype: the organisation name is
      checked before anything else, the source is resolved, the job is created,
      and with `autoPoll` the created job is polled by its id until it ends.
      Without `autoPoll`, or when the creation raised, the creation's answer is
      the result and nothing is looked up. */
  method Submit(endpoint: JobsEndpoint, source: string, org: string, request: TranscriptionRequest,
                autoPoll: bool, prototypeFor: (TranscriptionRequest, string) -> JobPrototype,
                urlparse: string -> UrlParts, upload: Upload)
    returns (r: Result<Job>)
    requires autoPoll && endpoint.createAnswer.Success? ==> SomeDecided(endpoint.statusAnswers)
    modifies endpoint
    ensures !ValidOrgName(org) ==>
              && r == Failure(SimpleStorage.INVALID_ORG_NAME)
              && endpoint.created == old(endpoint.created) && endpoint.lookups == old(endpoint.lookups)
    ensures var fileUrl := ProcessSource(source, org, urlparse, upload);
            ValidOrgName(org) && fileUrl.Failure? ==>
              && r == Failure(fileUrl.error)
              && endpoint.created == old(endpoint.created) && endpoint.lookups == old(endpoint.lookups)
    ensures var fileUrl := ProcessSource(source, org, urlparse, upload);
            ValidOrgName(org) && fileUrl.Success? ==>
              endpoint.created == old(endpoint.created) + [(org, prototypeFor(request, fileUrl.value))]
    ensures var fileUrl := ProcessSource(source, org, urlparse, upload);
            ValidOrgName(org) && fileUrl.Success? && (!autoPoll || old(endpoint.createAnswer).Failure?) ==>
              r == old(endpoint.createAnswer) && endpoint.lookups == old(endpoint.lookups)
    ensures var fileUrl := ProcessSource(source, org, urlparse, upload);
            ValidOrgName(org) && fileUrl.Success? && autoPoll && old(endpoint.createAnswer).Success? ==>
              var k, id := FirstDecided(old(endpoint.statusAnswers)), old(endpoint.createAnswer).value.id;
              && r == old(endpoint.statusAnswers)[k]
              && endpoint.lookups == old(endpoint.lookups) + seq(k + 1, _ => (org, id))
    ensures r.Success? && autoPoll ==> IsTerminal(r.value.status)
  {
    if !ValidOrgName(org) {
      return Failure(SimpleStorage.INVALID_ORG_NAME);
    }
    var fileUrl :- ProcessSource(source, org, urlparse, upload);
    var response := endpoint.CreateJob(org, prototypeFor(request, fileUrl));
    if autoPoll && response.Success? {
      r := endpoint.PollUntilDone(org, response.value.id);
    } else {
      r := response;
    }
  }

  /** The synchronous `transcribe`. */
  method Transcribe(endpoint: JobsEndpoint, source: string, org: string, request: TranscriptionRequest,
                    autoPoll: bool, urlparse: string -> UrlParts, upload: Upload)
    returns (r: Result<Job>)
    requires autoPoll && endpoint.createAnswer.Success? ==> SomeDecided(endpoint.statusAnswers)
    modifies endpoint
    ensures !ValidOrgName(org) ==>
              && r == Failure(SimpleStorage.INVALID_ORG_NAME)
              && endpoint.created == old(endpoint.created) && endpoint.lookups == old(endpoint.lookups)
    ensures var fileUrl := ProcessSource(source, org, urlparse, upload);
            ValidOrgName(org) && fileUrl.Failure? ==>
              && r == Failure(fileUrl.error)
              && endpoint.created == old(endpoint.created) && endpoint.lookups == old(endpoint.lookups)
    ensures var fileUrl := ProcessSource(source, org, urlparse, upload);
            ValidOrgName(org) && fileUrl.Success? ==>
              endpoint.created == old(endpoint.created) + [(org, SyncPrototype(request, fileUrl.value))]
    ensures var fileUrl := ProcessSource(source, org, urlparse, upload);
            ValidOrgName(org) && fileUrl.Success? && (!autoPoll || old(endpoint.createAnswer).Failure?) ==>
              r == old(endpoint.createAnswer) && endpoint.lookups == old(endpoint.lookups)
    ensures var fileUrl := ProcessSource(source, org, urlparse, upload);
            ValidOrgName(org) && fileUrl.Success? && autoPoll && old(endpoint.createAnswer).Success? ==>
              var k, id := FirstDecided(old(endpoint.statusAnswers)), old(endpoint.createAnswer).value.id;
              && r == old(endpoint.statusAnswers)[k]
              && endpoint.lookups == old(endpoint.lookups) + seq(k + 1, _ => (org, id))
    ensures r.Success? && autoPoll ==> IsTerminal(r.value.status)
  {
    r := Submit(endpoint, source, org, request, autoPoll, SyncPrototype, urlparse, upload);
  }

  // ---------------------------------------------------------------------------
  // Webhook requests

  /** What `process_webhook_request` as written hands to `_unmap`: the result of
      `verify`, which is `True` whenever it returns at all. */
  function WebhookJobDataAsWritten(p: Primitives, payload: Payload, secret: Secret,
                                   msgId: string, timestamp: string, signature: string, now: real)
    : (r: Result<Value>)
    ensures r.Success? ==> r.value == Bool(true)
  {
    var key :- SecretKey(secret, p);
    var verified :- VerifyOutcome(key, p, payload, WebhookHeaders(msgId, timestamp, signature), now);
    Success(Bool(verified))
  }

  /** What `process_webhook_request` is meant to hand to `_unmap`: the JSON of the
      payload, once its signature is verified. The JSON parser is a parameter. */
  function WebhookJobData(p: Primitives, payload: Payload, secret: Secret,
                          msgId: string, timestamp: string, signature: string, now: real,
                          loads: string -> Result<Value>)
    : (r: Result<Value>)
    ensures r.Success? ==> SecretKey(secret, p).Success?
                           && VerifyOutcome(SecretKey(secret, p).value, p, payload,
                                            WebhookHeaders(msgId, timestamp, signature), now) == Success(true)
                           && PayloadText(payload, p).Success?
                           && loads(PayloadText(payload, p).value) == r
  {
    var key :- SecretKey(secret, p);
    var verified :- VerifyOutcome(key, p, payload, WebhookHeaders(msgId, timestamp, signature), now);
    loads(PayloadText(payload, p).value)
  }

  /** The two differ on every verified payload whose JSON is not `true`: the code
      as written hands over a boolean instead of the job. A request that fails
      verification fails identically in both, before any unmapping. */
  lemma WebhookJobDataLosesPayload(p: Primitives, payload: Payload, secret: Secret,
                                   msgId: string, timestamp: string, signature: string, now: real,
                                   loads: string -> Result<Value>, job: Value)
    requires SecretKey(secret, p).Success?
    requires VerifyOutcome(SecretKey(secret, p).value, p, payload,
                           WebhookHeaders(msgId, timestamp, signature), now).Success?
    requires PayloadText(payload, p).Success? && loads(PayloadText(payload, p).value) == Success(job)
    ensures WebhookJobDataAsWritten(p, payload, secret, msgId, timestamp, signature, now) == Success(Bool(true))
    ensures WebhookJobData(p, payload, secret, msgId, timestamp, signature, now, loads) == Success(job)
  {
  }

  lemma WebhookFailureBeforeUnmap(p: Primitives, payload: Payload, secret: Secret,
                                  msgId: string, timestamp: string, signature: string, now: real,
                                  loads: string -> Result<Value>)
    requires SecretKey(secret, p).Failure?
             || VerifyOutcome(SecretKey(secret, p).value, p, payload,
                              WebhookHeaders(msgId, timestamp, signature), now).Failure?
    ensures WebhookJobDataAsWritten(p, payload, secret, msgId, timestamp, signature, now).Failure?
    ensures WebhookJobData(p, payload, secret, msgId, timestamp, signature, now, loads)
            == WebhookJobDataAsWritten(p, payload, secret, msgId, timestamp, signature, now)
  {
  }

  /** `process_webhook_request`: the three header values go into a header map
      under exactly the three webhook keys, a verifier is built from the secret,
      and the verified payload's JSON is the job data. */
  method ProcessWebhookRequest(p: Primitives, payload: Payload, secret: Secret,
                               msgId: string, timestamp: string, signature: string, now: real,
                               loads: string -> Result<Value>)
    returns (r: Result<Value>)
    ensures r == WebhookJobData(p, payload, secret, msgId, timestamp, signature, now, loads)
  {
    var headers := WebhookHeaders(msgId, timestamp, signature);
    var webhook :- Webhook.New(secret, p);
    var verified :- webhook.Verify(p, payload, headers, now);
    r := loads(PayloadText(payload, p).value);
  }
}
