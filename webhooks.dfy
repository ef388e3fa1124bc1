/** Webhook signature verification in the manner of Standard Webhooks: the signed
    content is `id "." floor(ts) "." payload`, its HMAC-SHA256 (RFC 2104) under the
    decoded secret is compared with every `v1` candidate of the signature header,
    and the timestamp must lie within five minutes of the current time. */
module Webhooks {

  import opened Common
  import opened Text

  /** The primitives the verifier calls and this model does not define:
      HMAC-SHA256 (key, message), Base64 of RFC 4648 section 4 (encoding, and a
      decoding that fails on malformed input), UTF-8 encoding and decoding, and
      the reading of the timestamp header as seconds since the epoch (`float`
      followed by `datetime.fromtimestamp`, which fails on text that is no number
      or a time out of range). */
  datatype Primitives = Primitives(
    hmacSha256: (Bytes, Bytes) -> Bytes,
    b64encode: Bytes -> string,
    b64decode: string -> Option<Bytes>,
    utf8encode: string -> Bytes,
    utf8decode: Bytes -> Option<string>,
    parseTimestamp: string -> Option<real>)

  predicate IsBase64Char(c: char) {
    'A' <= c <= 'Z' || 'a' <= c <= 'z' || '0' <= c <= '9' || c == '+' || c == '/' || c == '='
  }

  /** What RFC 4648 guarantees of Base64: decoding inverts encoding, and encoding
      produces only characters of the Base64 alphabet (so no comma and no space). */
  ghost predicate Base64Sound(p: Primitives) {
    && (forall b :: p.b64decode(p.b64encode(b)) == Some(b))
    && (forall b, i :: 0 <= i < |p.b64encode(b)| ==> IsBase64Char(p.b64encode(b)[i]))
  }

  const SECRET_PREFIX: string := "whsec_"
  const TOLERANCE_SECONDS: real := 300.0
  const ID_HEADER: string := "webhook-id"
  const TIMESTAMP_HEADER: string := "webhook-timestamp"
  const SIGNATURE_HEADER: string := "webhook-signature"

  const MISSING_HEADERS: string := "Missing required headers"
  const INVALID_HEADERS: string := "Invalid Signature Headers"
  const TOO_OLD: string := "Message timestamp too old"
  const TOO_NEW: string := "Message timestamp too new"
  const NO_MATCH: string := "No matching signature found"
  /** The two messages of unpacking `version, signature` from a split candidate:
      a candidate without a comma gives one part, one with several commas more
      than two. */
  const NOT_ENOUGH_VALUES: string := "not enough values to unpack (expected 2, got 1)"
  const TOO_MANY_VALUES: string := "too many values to unpack (expected 2)"
  const BAD_BASE64: string := "Incorrect base64 padding"
  const BAD_UTF8: string := "invalid utf-8"
  const EMPTY_SECRET: string := "Secret can't be empty."

  /** The signing secret as handed to the constructor: text (usually prefixed
      with `whsec_`, then Base64) or raw key bytes. */
  datatype Secret = TextSecret(text: string) | ByteSecret(bytes: Bytes)

  /** The webhook body as received: text or raw bytes. */
  datatype Payload = TextPayload(text: string) | BytePayload(bytes: Bytes)

  /** The secret without its optional `whsec_` prefix. */
  function StripSecretPrefix(s: string): (r: string)
    ensures SECRET_PREFIX <= s ==> SECRET_PREFIX + r == s
    ensures !(SECRET_PREFIX <= s) ==> r == s
  {
    if |s| >= |SECRET_PREFIX| && s[..|SECRET_PREFIX|] == SECRET_PREFIX then s[|SECRET_PREFIX|..] else s
  }

  /** The key `Webhook.__init__` stores, or the exception it raises. */
  function SecretKey(secret: Secret, p: Primitives): (r: Result<Bytes>)
    ensures secret == TextSecret([]) || secret == ByteSecret([]) <==> r == Failure(RuntimeError(EMPTY_SECRET))
    ensures secret.ByteSecret? && secret.bytes != [] ==> r == Success(secret.bytes)
    ensures secret.TextSecret? && secret.text != [] ==>
              r == (match p.b64decode(StripSecretPrefix(secret.text))
                    case Some(k) => Success(k)
                    case None => Failure(DecodeError(BAD_BASE64)))
    ensures r.Failure? ==> r.error.RuntimeError? || r.error.DecodeError?
  {
    match secret
    case TextSecret(s) =>
      if s == [] then Failure(RuntimeError(EMPTY_SECRET))
      else (
        match p.b64decode(StripSecretPrefix(s))
        case None => Failure(DecodeError(BAD_BASE64))
        case Some(key) => Success(key))
    case ByteSecret(b) =>
      if b == [] then Failure(RuntimeError(EMPTY_SECRET)) else Success(b)
  }

  /** The `whsec_` prefix is optional: a secret decodes to the same key with or
      without it. */
  lemma SecretPrefixOptional(s: string, p: Primitives)
    requires s != [] && StripSecretPrefix(s) == s
    ensures SecretKey(TextSecret(SECRET_PREFIX + s), p) == SecretKey(TextSecret(s), p)
  {
    var full := SECRET_PREFIX + s;
    assert full[..|SECRET_PREFIX|] == SECRET_PREFIX && full[|SECRET_PREFIX|..] == s;
  }

  /** The payload as text: bytes are decoded as UTF-8 first. */
  function PayloadText(data: Payload, p: Primitives): (r: Result<string>)
    ensures data.TextPayload? ==> r == Success(data.text)
    ensures data.BytePayload? ==> (r.Success? <==> p.utf8decode(data.bytes).Some?)
    ensures data.BytePayload? && r.Success? ==> p.utf8decode(data.bytes) == Some(r.value)
    ensures r.Failure? ==> r == Failure(DecodeError(BAD_UTF8))
  {
    match data
    case TextPayload(s) => Success(s)
    case BytePayload(b) =>
      match p.utf8decode(b)
      case None => Failure(DecodeError(BAD_UTF8))
      case Some(s) => Success(s)
  }

  /** No header after the `i`-th has the same name up to case. */
  predicate LastOfItsName(headers: seq<(string, string)>, i: int)
    requires 0 <= i < |headers|
  {
    forall j :: i < j < |headers| ==> LowerAscii(headers[j].0) != LowerAscii(headers[i].0)
  }

  /** `{k.lower(): v for (k, v) in headers.items()}`: when two keys lower-case
      to the same key, the later one wins. */
  function LowerKeys(headers: seq<(string, string)>): (h: map<string, string>)
    ensures forall k :: k in h ==> NoUpperAscii(k)
    ensures h.Keys == (set i | 0 <= i < |headers| :: LowerAscii(headers[i].0))
    ensures forall i :: 0 <= i < |headers| && LastOfItsName(headers, i) ==> h[LowerAscii(headers[i].0)] == headers[i].1
  {
    if headers == [] then map[]
    else
      var n := |headers| - 1;
      var rest := LowerKeys(headers[..n]);
      LowerKeysStep(headers, rest);
      rest[LowerAscii(headers[n].0) := headers[n].1]
  }

  /** The step of `LowerKeys`: adding the last header to the map of the others
      keeps the keys the set of lower-cased names and the value of each key the
      value of the last header with that name. */
  lemma LowerKeysStep(headers: seq<(string, string)>, rest: map<string, string>)
    requires headers != []
    requires var init := headers[..|headers| - 1];
             && rest.Keys == (set i | 0 <= i < |init| :: LowerAscii(init[i].0))
             && forall i :: 0 <= i < |init| && LastOfItsName(init, i) ==> rest[LowerAscii(init[i].0)] == init[i].1
    ensures var n := |headers| - 1;
            var h := rest[LowerAscii(headers[n].0) := headers[n].1];
            && h.Keys == (set i | 0 <= i < |headers| :: LowerAscii(headers[i].0))
            && forall i :: 0 <= i < |headers| && LastOfItsName(headers, i) ==> h[LowerAscii(headers[i].0)] == headers[i].1
  {
    LowerKeysStepKeys(headers, rest.Keys);
    LowerKeysStepValues(headers, rest);
  }

  lemma LowerKeysStepKeys(headers: seq<(string, string)>, keys: set<string>)
    requires headers != []
    requires var init := headers[..|headers| - 1];
             keys == (set i | 0 <= i < |init| :: LowerAscii(init[i].0))
    ensures keys + {LowerAscii(headers[|headers| - 1].0)} == (set i | 0 <= i < |headers| :: LowerAscii(headers[i].0))
  {
  }

  lemma LowerKeysStepValues(headers: seq<(string, string)>, rest: map<string, string>)
    requires headers != []
    requires var init := headers[..|headers| - 1];
             && (forall i :: 0 <= i < |init| ==> LowerAscii(init[i].0) in rest)
             && forall i :: 0 <= i < |init| && LastOfItsName(init, i) ==> rest[LowerAscii(init[i].0)] == init[i].1
    ensures var n := |headers| - 1;
            var h := rest[LowerAscii(headers[n].0) := headers[n].1];
            forall i :: 0 <= i < |headers| && LastOfItsName(headers, i) ==> h[LowerAscii(headers[i].0)] == headers[i].1
  {
    var n := |headers| - 1;
    var init := headers[..n];
    var h := rest[LowerAscii(headers[n].0) := headers[n].1];
    forall i | 0 <= i < |headers| && LastOfItsName(headers, i)
      ensures h[LowerAscii(headers[i].0)] == headers[i].1
    {
      if i < n {
        assert init[i] == headers[i];
        assert LowerAscii(headers[n].0) != LowerAscii(headers[i].0);
        assert LastOfItsName(init, i) by {
          forall j | i < j < |init| ensures LowerAscii(init[j].0) != LowerAscii(init[i].0) {
            assert init[j] == headers[j];
          }
        }
      }
    }
  }

  /** A header that is present with a non-empty value. */
  predicate Present(h: map<string, string>, key: string) {
    key in h && h[key] != ""
  }

  /** `__verify_timestamp`: the parsed timestamp when it lies within the tolerance
      on either side of `now`, both bounds included. */
  function CheckTimestamp(header: string, now: real, p: Primitives): (r: Result<real>)
    ensures r.Success? <==> (p.parseTimestamp(header).Some?
                             && now - TOLERANCE_SECONDS <= p.parseTimestamp(header).value <= now + TOLERANCE_SECONDS)
    ensures r.Success? ==> Some(r.value) == p.parseTimestamp(header)
    ensures r.Failure? ==> r.error.WebhookVerificationError?
  {
    match p.parseTimestamp(header)
    case None => Failure(WebhookVerificationError(INVALID_HEADERS))
    case Some(ts) =>
      if ts < now - TOLERANCE_SECONDS then Failure(WebhookVerificationError(TOO_OLD))
      else if ts > now + TOLERANCE_SECONDS then Failure(WebhookVerificationError(TOO_NEW))
      else Success(ts)
  }

  /** The text that is signed: `f"{msg_id}.{floor(ts)}.{data}"`. */
  function SignedContent(msgId: string, timestamp: real, data: string): string {
    msgId + "." + IntToDecimal(timestamp.Floor) + "." + data
  }

  /** The signed content depends on the timestamp only through its floor: two
      timestamps give the same content exactly when their floors agree. */
  lemma SignedContentUsesFloor(msgId: string, t1: real, t2: real, data: string)
    ensures SignedContent(msgId, t1, data) == SignedContent(msgId, t2, data) <==> t1.Floor == t2.Floor
  {
    var d1, d2 := IntToDecimal(t1.Floor), IntToDecimal(t2.Floor);
    var c1, c2 := SignedContent(msgId, t1, data), SignedContent(msgId, t2, data);
    if c1 == c2 {
      assert |d1| == |d2|;
      var n := |msgId| + 1;
      assert c1[n..n + |d1|] == d1;
      assert c2[n..n + |d2|] == d2;
    }
    IntToDecimalInjective(t1.Floor, t2.Floor);
  }

  /** The MAC of a message: HMAC-SHA256 of the UTF-8 signed content. */
  function Mac(key: Bytes, p: Primitives, msgId: string, timestamp: real, data: string): Bytes {
    p.hmacSha256(key, p.utf8encode(SignedContent(msgId, timestamp, data)))
  }

  /** `Webhook.sign`, with the stored key passed explicitly: a signature splits at
      its one comma into the version `v1` and a Base64 text that decodes back to
      the MAC, and holds no space. */
  function Sign(key: Bytes, p: Primitives, msgId: string, timestamp: real, data: string): (r: string)
    ensures |r| >= 3 && r[..3] == "v1,"
    ensures Base64Sound(p) ==>
              && Split(r, ',') == ["v1", p.b64encode(Mac(key, p, msgId, timestamp, data))]
              && p.b64decode(Split(r, ',')[1]) == Some(Mac(key, p, msgId, timestamp, data))
              && ' ' !in r
  {
    var enc := p.b64encode(Mac(key, p, msgId, timestamp, data));
    assert Base64Sound(p) ==> Split("v1," + enc, ',') == ["v1", enc] && ' ' !in "v1," + enc by {
      if Base64Sound(p) {
        assert forall i :: 0 <= i < |enc| ==> IsBase64Char(enc[i]);
        assert ',' !in enc && ' ' !in enc;
        assert Join(["v1", enc], ',') == "v1," + enc;
        SplitJoin(["v1", enc], ',');
      }
    }
    "v1," + enc
  }

  /** `b64decode(self.sign(...).split(",")[1])`: the bytes candidates are compared with. */
  function ExpectedSignature(key: Bytes, p: Primitives, msgId: string, timestamp: real, data: string): (r: Result<Bytes>)
    ensures Base64Sound(p) ==> r == Success(Mac(key, p, msgId, timestamp, data))
  {
    var enc := p.b64encode(Mac(key, p, msgId, timestamp, data));
    SplitAfterPiece("v1", ',', enc);
    assert "v1" + [','] + enc == Sign(key, p, msgId, timestamp, data);
    var parts := Split(Sign(key, p, msgId, timestamp, data), ',');
    match p.b64decode(parts[1])
    case None => Failure(DecodeError(BAD_BASE64))
    case Some(sig) => Success(sig)
  }

  /** A candidate `version,signature` that unpacks into two parts and, when its
      version is `v1`, whose signature decodes. */
  predicate WellFormedCandidate(candidate: string, p: Primitives) {
    var parts := Split(candidate, ',');
    |parts| == 2 && (parts[0] == "v1" ==> p.b64decode(parts[1]).Some?)
  }

  /** A candidate of version exactly `v1` whose signature decodes to `expected`. */
  predicate MatchesV1(candidate: string, expected: Bytes, p: Primitives) {
    var parts := Split(candidate, ',');
    |parts| == 2 && parts[0] == "v1" && p.b64decode(parts[1]) == Some(expected)
  }

  /** The loop over the space-separated candidates, in order: the first `v1`
      candidate that matches accepts, a candidate that does not unpack into two
      parts or whose signature does not decode raises, anything else is skipped,
      and running out of candidates is a verification failure. */
  function ScanCandidates(candidates: seq<string>, expected: Bytes, p: Primitives): (r: Result<bool>)
    ensures r.Success? ==> r.value
    ensures r.Failure? ==>
              r.error in {WebhookVerificationError(NO_MATCH), ValueError(NOT_ENOUGH_VALUES),
                          ValueError(TOO_MANY_VALUES), DecodeError(BAD_BASE64)}
    decreases |candidates|
  {
    if candidates == [] then Failure(WebhookVerificationError(NO_MATCH))
    else
      var parts := Split(candidates[0], ',');
      if |parts| < 2 then Failure(ValueError(NOT_ENOUGH_VALUES))
      else if |parts| > 2 then Failure(ValueError(TOO_MANY_VALUES))
      else if parts[0] != "v1" then ScanCandidates(candidates[1..], expected, p)
      else
        match p.b64decode(parts[1])
        case None => Failure(DecodeError(BAD_BASE64))
        case Some(sig) => if sig == expected then Success(true) else ScanCandidates(candidates[1..], expected, p)
  }

  /** The candidate loop accepts exactly when some `v1` candidate matches and every
      candidate before it is well formed. */
  lemma {:induction false} ScanAccepts(candidates: seq<string>, expected: Bytes, p: Primitives)
    ensures ScanCandidates(candidates, expected, p) == Success(true) <==>
              exists i :: 0 <= i < |candidates| && MatchesV1(candidates[i], expected, p)
                          && forall j :: 0 <= j < i ==> WellFormedCandidate(candidates[j], p)
    decreases |candidates|
  {
    if candidates != [] {
      ScanAccepts(candidates[1..], expected, p);
      var rest := candidates[1..];
      if ScanCandidates(candidates, expected, p) == Success(true) {
        if !MatchesV1(candidates[0], expected, p) {
          var i :| 0 <= i < |rest| && MatchesV1(rest[i], expected, p)
                   && forall j :: 0 <= j < i ==> WellFormedCandidate(rest[j], p);
          assert candidates[i + 1] == rest[i];
          forall j | 0 <= j < i + 1 ensures WellFormedCandidate(candidates[j], p) {
            if j > 0 { assert candidates[j] == rest[j - 1]; }
          }
        }
      }
      if exists i :: 0 <= i < |candidates| && MatchesV1(candidates[i], expected, p)
                     && forall j :: 0 <= j < i ==> WellFormedCandidate(candidates[j], p) {
        var i :| 0 <= i < |candidates| && MatchesV1(candidates[i], expected, p)
                 && forall j :: 0 <= j < i ==> WellFormedCandidate(candidates[j], p);
        if i > 0 {
          assert WellFormedCandidate(candidates[0], p);
          assert rest[i - 1] == candidates[i];
          forall j | 0 <= j < i - 1 ensures WellFormedCandidate(rest[j], p) {
            assert rest[j] == candidates[j + 1];
          }
        }
      }
    }
  }

  /** When every candidate is well formed and none matches, the loop ends in the
      verification error: candidates of any version other than `v1` never accept. */
  lemma {:induction false} ScanRejects(candidates: seq<string>, expected: Bytes, p: Primitives)
    requires forall i :: 0 <= i < |candidates| ==> WellFormedCandidate(candidates[i], p)
    requires forall i :: 0 <= i < |candidates| ==> !MatchesV1(candidates[i], expected, p)
    ensures ScanCandidates(candidates, expected, p) == Failure(WebhookVerificationError(NO_MATCH))
    decreases |candidates|
  {
    if candidates != [] {
      var rest := candidates[1..];
      assert forall i :: 0 <= i < |rest| ==> rest[i] == candidates[i + 1];
      ScanRejects(rest, expected, p);
    }
  }

  /** `Webhook.verify` as a whole: the result it returns or the exception it raises. */
  function VerifyOutcome(key: Bytes, p: Primitives, data: Payload, headers: seq<(string, string)>, now: real): (r: Result<bool>)
    ensures r.Success? ==> r.value && PayloadText(data, p).Success?
    ensures PayloadText(data, p).Failure? ==> r == Failure(PayloadText(data, p).error)
    ensures r.Failure? ==> r.error.WebhookVerificationError? || r.error.ValueError? || r.error.DecodeError?
  {
    VerifyLowered(key, p, data, LowerKeys(headers), now)
  }

  /** `verify` from the point where the header keys are lower-cased. */
  function VerifyLowered(key: Bytes, p: Primitives, data: Payload, h: map<string, string>, now: real): Result<bool> {
    match PayloadText(data, p)
    case Failure(e) => Failure(e)
    case Success(text) =>
      if !(Present(h, ID_HEADER) && Present(h, TIMESTAMP_HEADER) && Present(h, SIGNATURE_HEADER)) then
        Failure(WebhookVerificationError(MISSING_HEADERS))
      else
        match CheckTimestamp(h[TIMESTAMP_HEADER], now, p)
        case Failure(e) => Failure(e)
        case Success(ts) =>
          match ExpectedSignature(key, p, h[ID_HEADER], ts, text)
          case Failure(e) => Failure(e)
          case Success(expected) => ScanCandidates(Split(h[SIGNATURE_HEADER], ' '), expected, p)
  }

  /** A missing or empty header is rejected before anything is signed, whatever
      the key, the timestamp or the signatures. */
  lemma VerifyMissingHeaders(key: Bytes, p: Primitives, data: Payload, headers: seq<(string, string)>, now: real)
    requires PayloadText(data, p).Success?
    requires var h := LowerKeys(headers);
             !Present(h, ID_HEADER) || !Present(h, TIMESTAMP_HEADER) || !Present(h, SIGNATURE_HEADER)
    ensures VerifyOutcome(key, p, data, headers, now) == Failure(WebhookVerificationError(MISSING_HEADERS))
  {
  }

  /** With the headers present, a timestamp that does not parse or lies outside
      the window is a verification error, however good the signature. */
  lemma VerifyRejectsStaleTimestamp(key: Bytes, p: Primitives, data: Payload, headers: seq<(string, string)>, now: real)
    requires PayloadText(data, p).Success?
    requires var h := LowerKeys(headers);
             Present(h, ID_HEADER) && Present(h, TIMESTAMP_HEADER) && Present(h, SIGNATURE_HEADER)
    requires var ts := p.parseTimestamp(LowerKeys(headers)[TIMESTAMP_HEADER]);
             ts.None? || ts.value < now - TOLERANCE_SECONDS || ts.value > now + TOLERANCE_SECONDS
    ensures VerifyOutcome(key, p, data, headers, now).Failure?
    ensures VerifyOutcome(key, p, data, headers, now).error.WebhookVerificationError?
  {
  }

  /** Verification accepts exactly when, with the headers present and the
      timestamp inside the window, some `v1` candidate carries the MAC of
      `id.floor(ts).payload` and every candidate before it is well formed. */
  lemma VerifyAcceptsIff(key: Bytes, p: Primitives, data: Payload, headers: seq<(string, string)>, now: real)
    requires Base64Sound(p)
    ensures VerifyOutcome(key, p, data, headers, now) == Success(true) <==>
      && PayloadText(data, p).Success?
      && var h := LowerKeys(headers);
      && Present(h, ID_HEADER) && Present(h, TIMESTAMP_HEADER) && Present(h, SIGNATURE_HEADER)
      && CheckTimestamp(h[TIMESTAMP_HEADER], now, p).Success?
      && var mac := Mac(key, p, h[ID_HEADER], CheckTimestamp(h[TIMESTAMP_HEADER], now, p).value, PayloadText(data, p).value);
      && var candidates := Split(h[SIGNATURE_HEADER], ' ');
      exists i :: 0 <= i < |candidates| && MatchesV1(candidates[i], mac, p)
                  && forall j :: 0 <= j < i ==> WellFormedCandidate(candidates[j], p)
  {
    var outcome := VerifyOutcome(key, p, data, headers, now);
    if PayloadText(data, p).Failure? {
      assert outcome.Failure?;
      return;
    }
    var text := PayloadText(data, p).value;
    var h := LowerKeys(headers);
    if !(Present(h, ID_HEADER) && Present(h, TIMESTAMP_HEADER) && Present(h, SIGNATURE_HEADER)) {
      assert outcome.Failure?;
      return;
    }
    var checked := CheckTimestamp(h[TIMESTAMP_HEADER], now, p);
    if checked.Failure? {
      assert outcome.Failure?;
      return;
    }
    var mac := Mac(key, p, h[ID_HEADER], checked.value, text);
    assert ExpectedSignature(key, p, h[ID_HEADER], checked.value, text) == Success(mac);
    assert outcome == ScanCandidates(Split(h[SIGNATURE_HEADER], ' '), mac, p);
    ScanAccepts(Split(h[SIGNATURE_HEADER], ' '), mac, p);
  }

  /** A bytes payload verifies exactly as its UTF-8 decoding does. */
  lemma BytesVerifyAsText(key: Bytes, p: Primitives, b: Bytes, s: string, headers: seq<(string, string)>, now: real)
    requires p.utf8decode(b) == Some(s)
    ensures VerifyOutcome(key, p, BytePayload(b), headers, now) == VerifyOutcome(key, p, TextPayload(s), headers, now)
  {
  }

  /** Header lists that differ only in the ASCII case of their names. */
  predicate SameUpToCase(a: seq<(string, string)>, b: seq<(string, string)>) {
    |a| == |b| && forall i :: 0 <= i < |a| ==> LowerAscii(a[i].0) == LowerAscii(b[i].0) && a[i].1 == b[i].1
  }

  /** Header names are matched whatever their case: lists that differ only in
      the case of their names lower-case to the same map. */
  lemma {:induction false} LowerKeysIgnoresCase(a: seq<(string, string)>, b: seq<(string, string)>)
    requires SameUpToCase(a, b)
    ensures LowerKeys(a) == LowerKeys(b)
    decreases |a|
  {
    if a != [] {
      var n := |a| - 1;
      assert SameUpToCase(a[..n], b[..n]) by {
        forall i | 0 <= i < n ensures LowerAscii(a[..n][i].0) == LowerAscii(b[..n][i].0) && a[..n][i].1 == b[..n][i].1 {
          assert a[..n][i] == a[i] && b[..n][i] == b[i];
        }
      }
      LowerKeysIgnoresCase(a[..n], b[..n]);
    }
  }

  /** ... and so verify alike. */
  lemma VerifyIgnoresHeaderCase(key: Bytes, p: Primitives, data: Payload, a: seq<(string, string)>, b: seq<(string, string)>, now: real)
    requires SameUpToCase(a, b)
    ensures VerifyOutcome(key, p, data, a, now) == VerifyOutcome(key, p, data, b, now)
  {
    LowerKeysIgnoresCase(a, b);
  }

  /** A header sent as `Webhook-Id` is found under the lower-case key. */
  lemma MixedCaseHeaderFound(v: string)
    ensures LowerKeys([("Webhook-Id", v)]) == map[ID_HEADER := v]
  {
    var name := "Webhook-Id";
    assert LowerChar('W') == 'w' && LowerChar('I') == 'i';
    assert LowerAscii(name) == ID_HEADER;
    assert [("Webhook-Id", v)][..0] == [];
  }

  /** The three webhook headers as `process_webhook_request` builds them. */
  function WebhookHeaders(msgId: string, timestamp: string, signature: string): (headers: seq<(string, string)>)
    ensures LowerKeys(headers) == map[ID_HEADER := msgId, TIMESTAMP_HEADER := timestamp, SIGNATURE_HEADER := signature]
  {
    assert NoUpperAscii(ID_HEADER) && NoUpperAscii(TIMESTAMP_HEADER) && NoUpperAscii(SIGNATURE_HEADER);
    var headers := [(ID_HEADER, msgId), (TIMESTAMP_HEADER, timestamp), (SIGNATURE_HEADER, signature)];
    var one, two := headers[..1], headers[..2];
    assert one[..0] == [] && two[..1] == one && headers[..2] == two;
    assert LowerKeys(one) == map[ID_HEADER := msgId];
    assert LowerKeys(two) == map[ID_HEADER := msgId, TIMESTAMP_HEADER := timestamp];
    headers
  }

  /** Round trip: a payload signed with a key verifies under the same key, for a
      timestamp inside the window. */
  lemma SignThenVerify(key: Bytes, p: Primitives, msgId: string, tsHeader: string, ts: real, text: string, now: real)
    requires Base64Sound(p)
    requires msgId != "" && tsHeader != ""
    requires p.parseTimestamp(tsHeader) == Some(ts)
    requires now - TOLERANCE_SECONDS <= ts <= now + TOLERANCE_SECONDS
    ensures VerifyOutcome(key, p, TextPayload(text),
                          WebhookHeaders(msgId, tsHeader, Sign(key, p, msgId, ts, text)), now) == Success(true)
  {
    var sig := Sign(key, p, msgId, ts, text);
    SplitWithoutSeparator(sig, ' ');
    var mac := Mac(key, p, msgId, ts, text);
    var h := LowerKeys(WebhookHeaders(msgId, tsHeader, sig));
    assert h == map[ID_HEADER := msgId, TIMESTAMP_HEADER := tsHeader, SIGNATURE_HEADER := sig];
    VerifyLoweredScans(key, p, TextPayload(text), h, now);
    assert MatchesV1(sig, mac, p);
    assert ScanCandidates([sig], mac, p) == Success(true);
  }

  /** Past the header and timestamp checks, verification is the scan of the
      candidates against the MAC of the message. */
  lemma VerifyLoweredScans(key: Bytes, p: Primitives, data: Payload, h: map<string, string>, now: real)
    requires Base64Sound(p) && PayloadText(data, p).Success?
    requires Present(h, ID_HEADER) && Present(h, TIMESTAMP_HEADER) && Present(h, SIGNATURE_HEADER)
    requires CheckTimestamp(h[TIMESTAMP_HEADER], now, p).Success?
    ensures VerifyLowered(key, p, data, h, now)
            == ScanCandidates(Split(h[SIGNATURE_HEADER], ' '),
                              Mac(key, p, h[ID_HEADER], CheckTimestamp(h[TIMESTAMP_HEADER], now, p).value,
                                  PayloadText(data, p).value), p)
  {
  }

  /** A signature made under one key is rejected under a key whose MAC of the
      same content differs. */
  lemma OtherKeyRejected(key: Bytes, other: Bytes, p: Primitives, msgId: string, tsHeader: string, ts: real, text: string, now: real)
    requires Base64Sound(p)
    requires msgId != "" && tsHeader != ""
    requires p.parseTimestamp(tsHeader) == Some(ts)
    requires now - TOLERANCE_SECONDS <= ts <= now + TOLERANCE_SECONDS
    requires Mac(other, p, msgId, ts, text) != Mac(key, p, msgId, ts, text)
    ensures VerifyOutcome(other, p, TextPayload(text),
                          WebhookHeaders(msgId, tsHeader, Sign(key, p, msgId, ts, text)), now)
            == Failure(WebhookVerificationError(NO_MATCH))
  {
    var sig := Sign(key, p, msgId, ts, text);
    SplitWithoutSeparator(sig, ' ');
    ScanRejects([sig], Mac(other, p, msgId, ts, text), p);
  }

  /** The verifier; `whsecret` is the key `__init__` derives from the secret. */
  class Webhook {
    const whsecret: Bytes

    constructor FromKey(key: Bytes)
      ensures whsecret == key
    {
      whsecret := key;
    }

    /** `Webhook(secret)`: the verifier, or the exception the constructor raises. */
    static method New(secret: Secret, p: Primitives) returns (r: Result<Webhook>)
      ensures r.Failure? ==> SecretKey(secret, p) == Failure(r.error)
      ensures r.Success? ==> fresh(r.value) && SecretKey(secret, p) == Success(r.value.whsecret)
    {
      var key :- SecretKey(secret, p);
      var w := new Webhook.FromKey(key);
      r := Success(w);
    }

    /** `verify`: decodes the payload, lower-cases the header keys, checks the
        headers and the timestamp, then walks the candidates with an early return. */
    method Verify(p: Primitives, data: Payload, headers: seq<(string, string)>, now: real) returns (r: Result<bool>)
      ensures r == VerifyOutcome(whsecret, p, data, headers, now)
    {
      var text :- PayloadText(data, p);
      var h := LowerKeys(headers);
      if !(Present(h, ID_HEADER) && Present(h, TIMESTAMP_HEADER) && Present(h, SIGNATURE_HEADER)) {
        return Failure(WebhookVerificationError(MISSING_HEADERS));
      }
      var ts :- CheckTimestamp(h[TIMESTAMP_HEADER], now, p);
      var expected :- ExpectedSignature(whsecret, p, h[ID_HEADER], ts, text);
      var candidates := Split(h[SIGNATURE_HEADER], ' ');
      for i := 0 to |candidates|
        invariant ScanCandidates(candidates[i..], expected, p) == ScanCandidates(candidates, expected, p)
      {
        assert candidates[i..][1..] == candidates[i + 1..];
        var parts := Split(candidates[i], ',');
        if |parts| < 2 {
          return Failure(ValueError(NOT_ENOUGH_VALUES));
        }
        if |parts| > 2 {
          return Failure(ValueError(TOO_MANY_VALUES));
        }
        if parts[0] != "v1" {
          continue;
        }
        var sig := p.b64decode(parts[1]);
        if sig.None? {
          return Failure(DecodeError(BAD_BASE64));
        }
        if sig.value == expected {
          return Success(true);
        }
      }
      return Failure(WebhookVerificationError(NO_MATCH));
    }
  }
}
