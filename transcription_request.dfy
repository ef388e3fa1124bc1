/** `TranscriptionRequest`: the options of a job, its webhook URL and its metadata.
    On the wire the `options` attribute is named `input`. */
module TranscriptionRequests {

  import opened Common

  const INPUT_KEY: string := "input"
  const WEBHOOK_KEY: string := "webhook"
  const METADATA_KEY: string := "metadata"

  /** `options` stands for the dictionary `TranscriptionJobInput.to_dict()` gives;
      that class is not part of this model. */
  datatype TranscriptionRequest = TranscriptionRequest(
    options: map<string, Value>,
    webhook: Option<string>,
    metadata: Value)
  {
    /** `to_dict`: exactly the keys `input`, `webhook` and `metadata`; the options
        appear under their wire name, the other two pass through unchanged. */
    function ToDict(): (d: map<string, Value>)
      ensures d.Keys == {INPUT_KEY, WEBHOOK_KEY, METADATA_KEY}
      ensures "options" !in d
      ensures d[INPUT_KEY] == Object(options)
      ensures d[WEBHOOK_KEY] == WebhookValue(webhook) && d[METADATA_KEY] == metadata
    {
      map[INPUT_KEY := Object(options), WEBHOOK_KEY := WebhookValue(webhook), METADATA_KEY := metadata]
    }
  }

  function WebhookValue(w: Option<string>): Value {
    match w
    case None => Null
    case Some(s) => Str(s)
  }

  /** Reading a request back from its wire dictionary, renaming `input` to
      `options` as the `{"options": "input"}` JSON map prescribes. */
  function Unmap(d: map<string, Value>): (r: Option<TranscriptionRequest>)
    ensures r.Some? <==> (INPUT_KEY in d && d[INPUT_KEY].Object?
                          && WEBHOOK_KEY in d && (d[WEBHOOK_KEY].Null? || d[WEBHOOK_KEY].Str?)
                          && METADATA_KEY in d)
  {
    if INPUT_KEY in d && WEBHOOK_KEY in d && METADATA_KEY in d then
      match (d[INPUT_KEY], d[WEBHOOK_KEY])
      case (Object(options), Null) => Some(TranscriptionRequest(options, None, d[METADATA_KEY]))
      case (Object(options), Str(w)) => Some(TranscriptionRequest(options, Some(w), d[METADATA_KEY]))
      case _ => None
    else None
  }

  /** Unmapping inverts `to_dict`. */
  lemma UnmapToDict(r: TranscriptionRequest)
    ensures Unmap(r.ToDict()) == Some(r)
  {
  }

  /** `to_dict` inverts unmapping on dictionaries holding exactly the three keys. */
  lemma ToDictUnmap(d: map<string, Value>)
    requires d.Keys == {INPUT_KEY, WEBHOOK_KEY, METADATA_KEY}
    requires Unmap(d).Some?
    ensures Unmap(d).value.ToDict() == d
  {
    var r := Unmap(d).value;
    assert forall k :: k in d ==> r.ToDict()[k] == d[k];
  }
}
