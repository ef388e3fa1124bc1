/** The asynchronous transcription service. Its `transcribe` differs from the
    synchronous one only in the job prototype it builds; waiting and scheduling
    are not part of this model. */
module TranscriptionAsync {

  import opened Common
  import opened OrgNames
  import opened TranscriptionRequests
  import opened Transcription
  import SimpleStorage

  /** `request.webhook or None`: the empty URL counts as no URL. */
  function WebhookOrNone(webhook: string): (r: Option<string>)
    ensures r == None <==> webhook == ""
    ensures r.Some? ==> r.value == webhook
  {
    if webhook == "" then None else Some(webhook)
  }

  /** The prototype of the asynchronous `transcribe`: without a webhook only the
      input is passed; with one, both webhook fields are it, or `None` when it is
      empty. */
  function AsyncPrototype(request: TranscriptionRequest, url: string): (p: JobPrototype)
    ensures p.input == JobInput(request, url)
    ensures request.webhook == None <==> p.webhook == Absent && p.webhookUrl == Absent
    ensures request.webhook.Some? ==> p.webhook == p.webhookUrl == Passed(WebhookOrNone(request.webhook.value))
    ensures p.webhook.Passed? && p.webhook.value.Some? ==> p.webhook.value.value != ""
  {
    match request.webhook
    case None => JobPrototype(JobInput(request, url), Absent, Absent)
    case Some(w) => JobPrototype(JobInput(request, url), Passed(WebhookOrNone(w)), Passed(WebhookOrNone(w)))
  }

  /** The two services build the same prototype exactly when the request has a
      non-empty webhook URL; they agree on the job input in every case. */
  lemma PrototypesAgreeIff(request: TranscriptionRequest, url: string)
    ensures AsyncPrototype(request, url).input == SyncPrototype(request, url).input
    ensures AsyncPrototype(request, url) == SyncPrototype(request, url) <==>
              request.webhook.Some? && request.webhook.value != ""
  {
  }

  /** The asynchronous `transcribe`: the same checks, source resolution and
      polling as the synchronous one, with its own prototype. */
  method Transcribe(endpoint: JobsEndpoint, source: string, org: string, request: TranscriptionRequest,
                    autoPoll: bool, urlparse: string -> UrlParts, upload: Upload)
    returns (r: Result<Job>)
    requires autoPoll && endpoint.createAnswer.Success? ==> SomeDecided(endpoint.statusAnswers)
    modifies endpoint
    ensures !ValidOrgName(org) ==>
              && r == Failure(SimpleStorage.INVALID_ORG_NAME)
              && endpoint.created == old(endpoint.created) && endpoint.lookups == old(endpoint.lookups)
    ensures var fileUrl := ProcessSource(source, org, urlparse, upload);
            ValidOrgName(org) && fileUrl.Failure? ==>
              && r == Failure(fileUrl.error)
              && endpoint.created == old(endpoint.created) && endpoint.lookups == old(endpoint.lookups)
    ensures var fileUrl := ProcessSource(source, org, urlparse, upload);
            ValidOrgName(org) && fileUrl.Success? ==>
              endpoint.created == old(endpoint.created) + [(org, AsyncPrototype(request, fileUrl.value))]
    ensures var fileUrl := ProcessSource(source, org, urlparse, upload);
            ValidOrgName(org) && fileUrl.Success? && (!autoPoll || old(endpoint.createAnswer).Failure?) ==>
              r == old(endpoint.createAnswer) && endpoint.lookups == old(endpoint.lookups)
    ensures var fileUrl := ProcessSource(source, org, urlparse, upload);
            ValidOrgName(org) && fileUrl.Success? && autoPoll && old(endpoint.createAnswer).Success? ==>
              var k, id := FirstDecided(old(endpoint.statusAnswers)), old(endpoint.createAnswer).value.id;
              && r == old(endpoint.statusAnswers)[k]
              && endpoint.lookups == old(endpoint.lookups) + seq(k + 1, _ => (org, id))
    ensures r.Success? && autoPoll ==> IsTerminal(r.value.status)
  {
    r := Submit(endpoint, source, org, request, autoPoll, AsyncPrototype, urlparse, upload);
  }
}
