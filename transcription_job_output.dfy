/** The transcript a finished job returns: the full text, the word segments, the
    sentence-level timestamps, subtitles, summary, translations and durations, each
    built from the dictionaries of the job's JSON output and turned back into them
    by `to_dict`. */
module TranscriptionJobOutputs {

  import opened Common

  /** `isinstance(value, (int, float))` as `_define_number` requires it; `bool`
      is a subclass of `int`, so a boolean passes too. */
  predicate IsNumber(v: Value) { v.Int? || v.Num? || v.Bool? }

  function DefineNumber(name: string, v: Value): (r: Result<Value>)
    ensures r.Success? <==> IsNumber(v)
    ensures r.Success? ==> r.value == v
    ensures r.Failure? ==> r.error.TypeError?
  {
    if IsNumber(v) then Success(v) else Failure(TypeError(name + " must be a number"))
  }

  function DefineStr(name: string, v: Value): (r: Result<string>)
    ensures r.Success? <==> v.Str?
    ensures r.Success? ==> Str(r.value) == v
    ensures r.Failure? ==> r.error.TypeError?
  {
    if v.Str? then Success(v.s) else Failure(TypeError(name + " must be a string"))
  }

  /** `cls(**d)` binds the keys of `d` as keyword arguments: it raises `TypeError`
      when a required parameter is missing or when `d` also names `self`. The keys
      that match no parameter are gathered into `**kwargs`. */
  predicate Binds(d: map<string, Value>, required: set<string>) {
    "self" !in d && required <= d.Keys
  }

  const BIND_ERROR: Error := TypeError("keyword arguments do not match the parameters")
  const NOT_A_MAPPING: Error := TypeError("argument after ** must be a mapping")

  // ---------------------------------------------------------------------------
  // WordSegment

  const WORD_SEGMENT_KEYS: set<string> := {"start", "end", "timestamp", "word", "speaker"}

  datatype WordSegment = WordSegment(
    start: Value, end: Value, timestamp: Value, word: string, speaker: string,
    kwargs: map<string, Value>)
  {
    /** The values `__init__` accepts for the checked fields. */
    predicate WellTyped() { IsNumber(start) && IsNumber(end) }

    function ToDict(): (d: map<string, Value>)
      ensures d.Keys == WORD_SEGMENT_KEYS
    {
      map["start" := start, "end" := end, "timestamp" := timestamp,
          "word" := Str(word), "speaker" := Str(speaker)]
    }
  }

  /** `WordSegment(**d)`. */
  function WordSegmentFromDict(d: map<string, Value>): (r: Result<WordSegment>)
    ensures r.Success? <==> Binds(d, WORD_SEGMENT_KEYS) && IsNumber(d["start"]) && IsNumber(d["end"])
                            && d["word"].Str? && d["speaker"].Str?
    ensures r.Success? ==> r.value.WellTyped() && r.value.kwargs == d - WORD_SEGMENT_KEYS
    ensures r.Failure? ==> r.error.TypeError?
  {
    if !Binds(d, WORD_SEGMENT_KEYS) then Failure(BIND_ERROR)
    else
      var start :- DefineNumber("start", d["start"]);
      var end :- DefineNumber("end", d["end"]);
      var word :- DefineStr("word", d["word"]);
      var speaker :- DefineStr("speaker", d["speaker"]);
      Success(WordSegment(start, end, d["timestamp"], word, speaker, d - WORD_SEGMENT_KEYS))
  }

  /** The dictionaries a word segment's `to_dict` can give. */
  predicate WellFormedWordDict(d: map<string, Value>) {
    d.Keys == WORD_SEGMENT_KEYS && IsNumber(d["start"]) && IsNumber(d["end"])
    && d["word"].Str? && d["speaker"].Str?
  }

  /** Dictionary to segment and back drops the extra keys and nothing else. */
  lemma WordSegmentDictRoundTrip(d: map<string, Value>)
    requires WordSegmentFromDict(d).Success?
    ensures WordSegmentFromDict(d).value.ToDict() == map k | k in WORD_SEGMENT_KEYS :: d[k]
  {
    var m := map k | k in WORD_SEGMENT_KEYS :: d[k];
    var t := WordSegmentFromDict(d).value.ToDict();
    assert forall k :: k in m ==> t[k] == m[k];
  }

  /** Segment to dictionary and back gives the segment again. */
  lemma WordSegmentObjectRoundTrip(w: WordSegment)
    requires w.WellTyped() && w.kwargs == map[]
    ensures WordSegmentFromDict(w.ToDict()) == Success(w)
  {
    assert w.ToDict() - WORD_SEGMENT_KEYS == map[];
  }

  // ---------------------------------------------------------------------------
  // SentenceTimestamp

  const SENTENCE_REQUIRED_KEYS: set<string> := {"start", "end", "timestamp", "text"}
  const SENTENCE_KEYS: set<string> := SENTENCE_REQUIRED_KEYS + {"speaker"}

  /** `speaker` is optional and, unlike the other fields, not checked. */
  datatype SentenceTimestamp = SentenceTimestamp(
    start: Value, end: Value, timestamp: Value, text: string, speaker: Value,
    kwargs: map<string, Value>)
  {
    predicate WellTyped() { IsNumber(start) && IsNumber(end) }

    /** The speaker appears exactly when it is not `None`. */
    function ToDict(): (d: map<string, Value>)
      ensures "speaker" in d <==> speaker != Null
      ensures d.Keys == if speaker == Null then SENTENCE_REQUIRED_KEYS else SENTENCE_KEYS
    {
      var result := map["start" := start, "end" := end, "timestamp" := timestamp, "text" := Str(text)];
      if speaker != Null then result["speaker" := speaker] else result
    }
  }

  /** `SentenceTimestamp(**d)`. */
  function SentenceFromDict(d: map<string, Value>): (r: Result<SentenceTimestamp>)
    ensures r.Success? <==> Binds(d, SENTENCE_REQUIRED_KEYS) && IsNumber(d["start"]) && IsNumber(d["end"])
                            && d["text"].Str?
    ensures r.Success? ==> r.value.WellTyped() && r.value.kwargs == d - SENTENCE_KEYS
    ensures r.Success? ==> r.value.speaker == if "speaker" in d then d["speaker"] else Null
    ensures r.Failure? ==> r.error.TypeError?
  {
    if !Binds(d, SENTENCE_REQUIRED_KEYS) then Failure(BIND_ERROR)
    else
      var start :- DefineNumber("start", d["start"]);
      var end :- DefineNumber("end", d["end"]);
      var text :- DefineStr("text", d["text"]);
      var speaker := if "speaker" in d then d["speaker"] else Null;
      Success(SentenceTimestamp(start, end, d["timestamp"], text, speaker, d - SENTENCE_KEYS))
  }

  /** Dictionary to sentence and back keeps the known keys, except a `None` speaker. */
  lemma SentenceDictRoundTrip(d: map<string, Value>)
    requires SentenceFromDict(d).Success?
    ensures SentenceFromDict(d).value.ToDict()
            == map k | k in SENTENCE_KEYS && k in d && !(k == "speaker" && d[k] == Null) :: d[k]
  {
    var m := map k | k in SENTENCE_KEYS && k in d && !(k == "speaker" && d[k] == Null) :: d[k];
    var t := SentenceFromDict(d).value.ToDict();
    assert forall k :: k in m ==> t[k] == m[k];
  }

  /** Sentence to dictionary and back gives the sentence again, also when its
      speaker is `None` and the dictionary therefore has no speaker key. */
  lemma SentenceObjectRoundTrip(s: SentenceTimestamp)
    requires s.WellTyped() && s.kwargs == map[]
    ensures SentenceFromDict(s.ToDict()) == Success(s)
  {
    assert s.ToDict() - SENTENCE_KEYS == map[];
  }

  // ---------------------------------------------------------------------------
  // Lists of dictionaries

  /** One `Cls(**item)` of a list comprehension. */
  function FromItem<T>(item: Value, from: map<string, Value> -> Result<T>): Result<T> {
    if item.Object? then from(item.fields) else Failure(NOT_A_MAPPING)
  }

  /** `[Cls(**item) for item in items]`: every item converted in order; the
      first item that fails stops the comprehension with its error. */
  function FromItems<T>(items: seq<Value>, from: map<string, Value> -> Result<T>): (r: Result<seq<T>>)
    ensures r.Success? <==> forall i :: 0 <= i < |items| ==> FromItem(items[i], from).Success?
    ensures r.Success? ==> |r.value| == |items|
                           && forall i :: 0 <= i < |items| ==> r.value[i] == FromItem(items[i], from).value
    ensures r.Failure? ==> exists i :: 0 <= i < |items| && FromItem(items[i], from) == Failure(r.error)
                                       && forall j :: 0 <= j < i ==> FromItem(items[j], from).Success?
    decreases |items|
  {
    if items == [] then Success([])
    else
      var head :- FromItem(items[0], from);
      var tail :- FromItems(items[1..], from);
      assert forall i :: 1 <= i < |items| ==> items[i] == items[1..][i - 1];
      Success([head] + tail)
  }

  /** A list field: a list is converted item by item; `for` over anything else is
      not part of this model and is refused. */
  function FromList<T>(name: string, v: Value, from: map<string, Value> -> Result<T>): (r: Result<seq<T>>)
    ensures v.List? ==> r == FromItems(v.items, from)
    ensures !v.List? ==> r.Failure? && r.error.TypeError?
  {
    if v.List? then FromItems(v.items, from) else Failure(TypeError(name + " must be a list"))
  }

  /** `[x.to_dict() for x in xs]`. */
  function WordSegmentsToValue(ws: seq<WordSegment>): Value {
    List(seq(|ws|, i requires 0 <= i < |ws| => Object(ws[i].ToDict())))
  }

  function SentencesToValue(ss: seq<SentenceTimestamp>): Value {
    List(seq(|ss|, i requires 0 <= i < |ss| => Object(ss[i].ToDict())))
  }

  // ---------------------------------------------------------------------------
  // TranscriptionJobOutput

  const OUTPUT_KEYS: set<string> :=
    {"text", "word_segments", "sentence_level_timestamps", "srt_content", "summary",
     "llm_translation", "srt_translation", "duration_in_seconds", "duration", "processing_time"}

  datatype TranscriptionJobOutput = TranscriptionJobOutput(
    text: string,
    wordSegments: seq<WordSegment>,
    sentenceLevelTimestamps: seq<SentenceTimestamp>,
    srtContent: string,
    summary: string,
    llmTranslation: Value,
    srtTranslation: Value,
    durationInSeconds: Value,
    duration: Value,
    processingTime: Value,
    kwargs: map<string, Value>)
  {
    /** The values `__init__` accepts, with no extra keyword arguments anywhere. */
    predicate WellTyped() {
      && IsNumber(durationInSeconds) && IsNumber(duration) && IsNumber(processingTime)
      && (forall i :: 0 <= i < |wordSegments| ==> wordSegments[i].WellTyped() && wordSegments[i].kwargs == map[])
      && (forall i :: 0 <= i < |sentenceLevelTimestamps| ==>
            sentenceLevelTimestamps[i].WellTyped() && sentenceLevelTimestamps[i].kwargs == map[])
      && kwargs == map[]
    }

    function ToDict(): (d: map<string, Value>)
      ensures d.Keys == OUTPUT_KEYS
    {
      map["text" := Str(text),
          "word_segments" := WordSegmentsToValue(wordSegments),
          "sentence_level_timestamps" := SentencesToValue(sentenceLevelTimestamps),
          "srt_content" := Str(srtContent),
          "summary" := Str(summary),
          "llm_translation" := llmTranslation,
          "srt_translation" := srtTranslation,
          "duration_in_seconds" := durationInSeconds,
          "duration" := duration,
          "processing_time" := processingTime]
    }
  }

  /** `TranscriptionJobOutput(**d)`: the fields are checked in the order
      `__init__` assigns them, and the first failure is the one raised. */
  function OutputFromDict(d: map<string, Value>): (r: Result<TranscriptionJobOutput>)
    ensures r.Success? ==> Binds(d, OUTPUT_KEYS) && r.value.kwargs == d - OUTPUT_KEYS
    ensures r.Success? ==> d["text"] == Str(r.value.text) && d["srt_content"] == Str(r.value.srtContent)
                           && d["summary"] == Str(r.value.summary)
    ensures r.Success? ==> IsNumber(r.value.durationInSeconds) && IsNumber(r.value.duration)
                           && IsNumber(r.value.processingTime)
    ensures r.Success? ==> d["word_segments"].List? && |r.value.wordSegments| == |d["word_segments"].items|
    ensures r.Success? ==> d["sentence_level_timestamps"].List?
                           && |r.value.sentenceLevelTimestamps| == |d["sentence_level_timestamps"].items|
    ensures r.Failure? ==> r.error.TypeError?
  {
    if !Binds(d, OUTPUT_KEYS) then Failure(BIND_ERROR)
    else
      var text :- DefineStr("text", d["text"]);
      var words :- FromList("word_segments", d["word_segments"], WordSegmentFromDict);
      var sentences :- FromList("sentence_level_timestamps", d["sentence_level_timestamps"], SentenceFromDict);
      var srt :- DefineStr("srt_content", d["srt_content"]);
      var summary :- DefineStr("summary", d["summary"]);
      var durationInSeconds :- DefineNumber("duration_in_seconds", d["duration_in_seconds"]);
      var duration :- DefineNumber("duration", d["duration"]);
      var processingTime :- DefineNumber("processing_time", d["processing_time"]);
      Success(TranscriptionJobOutput(text, words, sentences, srt, summary,
                                     d["llm_translation"], d["srt_translation"],
                                     durationInSeconds, duration, processingTime, d - OUTPUT_KEYS))
  }

  /** A list of well-formed segment dictionaries converts, and turning the
      segments back into dictionaries gives the list again. */
  lemma WordListDictRoundTrip(v: Value)
    requires v.List? && forall i :: 0 <= i < |v.items| ==> v.items[i].Object? && WellFormedWordDict(v.items[i].fields)
    ensures FromList("word_segments", v, WordSegmentFromDict).Success?
    ensures WordSegmentsToValue(FromList("word_segments", v, WordSegmentFromDict).value) == v
  {
    var items := v.items;
    forall i | 0 <= i < |items|
      ensures FromItem(items[i], WordSegmentFromDict).Success?
    {
    }
    var ws := FromItems(items, WordSegmentFromDict).value;
    forall i | 0 <= i < |items|
      ensures Object(ws[i].ToDict()) == items[i]
    {
      WordSegmentDictRoundTrip(items[i].fields);
      assert ws[i].ToDict() == map k | k in WORD_SEGMENT_KEYS :: items[i].fields[k];
      assert ws[i].ToDict() == items[i].fields;
    }
  }

  lemma SentenceListDictRoundTrip(v: Value)
    requires v.List? && forall i :: 0 <= i < |v.items| ==> v.items[i].Object? && WellFormedSentenceDict(v.items[i].fields)
    ensures FromList("sentence_level_timestamps", v, SentenceFromDict).Success?
    ensures SentencesToValue(FromList("sentence_level_timestamps", v, SentenceFromDict).value) == v
  {
    var items := v.items;
    forall i | 0 <= i < |items|
      ensures FromItem(items[i], SentenceFromDict).Success?
    {
    }
    var ss := FromItems(items, SentenceFromDict).value;
    forall i | 0 <= i < |items|
      ensures Object(ss[i].ToDict()) == items[i]
    {
      var f := items[i].fields;
      SentenceDictRoundTrip(f);
      assert ss[i].ToDict() == map k | k in SENTENCE_KEYS && k in f && !(k == "speaker" && f[k] == Null) :: f[k];
      assert ss[i].ToDict() == f;
    }
  }

  /** The dictionaries a sentence's `to_dict` can give: a speaker key only when it
      is not `None`. */
  predicate WellFormedSentenceDict(d: map<string, Value>) {
    && (d.Keys == SENTENCE_REQUIRED_KEYS || (d.Keys == SENTENCE_KEYS && d["speaker"] != Null))
    && IsNumber(d["start"]) && IsNumber(d["end"]) && d["text"].Str?
  }

  /** The dictionaries the job output's `to_dict` can give. */
  predicate WellFormedOutputDict(d: map<string, Value>) {
    && d.Keys == OUTPUT_KEYS
    && d["text"].Str? && d["srt_content"].Str? && d["summary"].Str?
    && IsNumber(d["duration_in_seconds"]) && IsNumber(d["duration"]) && IsNumber(d["processing_time"])
    && d["word_segments"].List?
    && (forall i :: 0 <= i < |d["word_segments"].items| ==>
          d["word_segments"].items[i].Object? && WellFormedWordDict(d["word_segments"].items[i].fields))
    && d["sentence_level_timestamps"].List?
    && (forall i :: 0 <= i < |d["sentence_level_timestamps"].items| ==>
          d["sentence_level_timestamps"].items[i].Object?
          && WellFormedSentenceDict(d["sentence_level_timestamps"].items[i].fields))
  }

  /** `__init__` succeeding: each field holds the checked value of its key. */
  lemma OutputFromDictParts(d: map<string, Value>)
    requires Binds(d, OUTPUT_KEYS) && d["text"].Str? && d["srt_content"].Str? && d["summary"].Str?
    requires IsNumber(d["duration_in_seconds"]) && IsNumber(d["duration"]) && IsNumber(d["processing_time"])
    requires FromList("word_segments", d["word_segments"], WordSegmentFromDict).Success?
    requires FromList("sentence_level_timestamps", d["sentence_level_timestamps"], SentenceFromDict).Success?
    ensures OutputFromDict(d) == Success(TranscriptionJobOutput(
              d["text"].s,
              FromList("word_segments", d["word_segments"], WordSegmentFromDict).value,
              FromList("sentence_level_timestamps", d["sentence_level_timestamps"], SentenceFromDict).value,
              d["srt_content"].s, d["summary"].s, d["llm_translation"], d["srt_translation"],
              d["duration_in_seconds"], d["duration"], d["processing_time"], d - OUTPUT_KEYS))
  {
  }

  /** `to_dict` gives every field under its key. */
  lemma OutputToDictFields(o: TranscriptionJobOutput)
    ensures var d := o.ToDict();
            && d["text"] == Str(o.text) && d["srt_content"] == Str(o.srtContent) && d["summary"] == Str(o.summary)
            && d["word_segments"] == WordSegmentsToValue(o.wordSegments)
            && d["sentence_level_timestamps"] == SentencesToValue(o.sentenceLevelTimestamps)
            && d["llm_translation"] == o.llmTranslation && d["srt_translation"] == o.srtTranslation
            && d["duration_in_seconds"] == o.durationInSeconds && d["duration"] == o.duration
            && d["processing_time"] == o.processingTime
  {
  }

  /** A well-formed output dictionary converts, and `to_dict` gives it back. */
  lemma OutputDictRoundTrip(d: map<string, Value>)
    requires WellFormedOutputDict(d)
    ensures OutputFromDict(d).Success? && OutputFromDict(d).value.ToDict() == d
  {
    WordListDictRoundTrip(d["word_segments"]);
    SentenceListDictRoundTrip(d["sentence_level_timestamps"]);
    OutputFromDictParts(d);
    var o := OutputFromDict(d).value;
    OutputToDictFields(o);
    var t := o.ToDict();
    assert t.Keys == d.Keys;
    forall k | k in d
      ensures t[k] == d[k]
    {
    }
  }

  /** Segments turned into a list of dictionaries convert back to themselves. */
  lemma WordListObjectRoundTrip(ws: seq<WordSegment>)
    requires forall i :: 0 <= i < |ws| ==> ws[i].WellTyped() && ws[i].kwargs == map[]
    ensures FromList("word_segments", WordSegmentsToValue(ws), WordSegmentFromDict) == Success(ws)
  {
    var items := WordSegmentsToValue(ws).items;
    forall i | 0 <= i < |items|
      ensures FromItem(items[i], WordSegmentFromDict) == Success(ws[i])
    {
      WordSegmentObjectRoundTrip(ws[i]);
    }
    assert FromItems(items, WordSegmentFromDict).value == ws;
  }

  lemma SentenceListObjectRoundTrip(ss: seq<SentenceTimestamp>)
    requires forall i :: 0 <= i < |ss| ==> ss[i].WellTyped() && ss[i].kwargs == map[]
    ensures FromList("sentence_level_timestamps", SentencesToValue(ss), SentenceFromDict) == Success(ss)
  {
    var items := SentencesToValue(ss).items;
    forall i | 0 <= i < |items|
      ensures FromItem(items[i], SentenceFromDict) == Success(ss[i])
    {
      SentenceObjectRoundTrip(ss[i]);
    }
    assert FromItems(items, SentenceFromDict).value == ss;
  }

  /** A well-typed output turned into its dictionary converts back to itself. */
  lemma OutputObjectRoundTrip(o: TranscriptionJobOutput)
    requires o.WellTyped()
    ensures OutputFromDict(o.ToDict()) == Success(o)
  {
    var d := o.ToDict();
    OutputToDictFields(o);
    WordListObjectRoundTrip(o.wordSegments);
    SentenceListObjectRoundTrip(o.sentenceLevelTimestamps);
    assert d - OUTPUT_KEYS == map[];
    assert d["text"].s == o.text && d["srt_content"].s == o.srtContent && d["summary"].s == o.summary;
    OutputFromDictParts(d);
    assert OutputFromDict(d) == Success(TranscriptionJobOutput(
              o.text, o.wordSegments, o.sentenceLevelTimestamps, o.srtContent, o.summary,
              o.llmTranslation, o.srtTranslation, o.durationInSeconds, o.duration, o.processingTime, map[]));
  }

  // ---------------------------------------------------------------------------
  // from_json

  /** The three forms `from_json` accepts. */
  datatype JsonData = DictData(d: map<string, Value>) | TextData(text: string) | BytesData(bytes: Bytes)

  /** `cls(**data)` on whatever `json.loads` gave. */
  function OutputFromValue(v: Value): (r: Result<TranscriptionJobOutput>)
    ensures v.Object? ==> r == OutputFromDict(v.fields)
    ensures !v.Object? ==> r == Failure(NOT_A_MAPPING)
  {
    if v.Object? then OutputFromDict(v.fields) else Failure(NOT_A_MAPPING)
  }

  /** `from_json`: a dictionary is used as it is; bytes are decoded as UTF-8 and
      then, like text, parsed as JSON. The UTF-8 decoder and the JSON parser are
      parameters. */
  function FromJson(data: JsonData, utf8decode: Bytes -> Option<string>, loads: string -> Result<Value>)
    : (r: Result<TranscriptionJobOutput>)
    ensures data.DictData? ==> r == OutputFromDict(data.d)
    ensures data.TextData? ==> r == (match loads(data.text)
                                     case Failure(e) => Failure(e)
                                     case Success(v) => OutputFromValue(v))
    ensures data.BytesData? && utf8decode(data.bytes).None? ==> r.Failure? && r.error.DecodeError?
  {
    match data
    case DictData(d) => OutputFromDict(d)
    case TextData(t) =>
      var v :- loads(t);
      OutputFromValue(v)
    case BytesData(b) =>
      match utf8decode(b)
      case None => Failure(DecodeError("invalid utf-8"))
      case Some(t) =>
        var v :- loads(t);
        OutputFromValue(v)
  }

  /** Bytes are read exactly as the text they decode to. */
  lemma FromJsonBytesAsText(b: Bytes, t: string, utf8decode: Bytes -> Option<string>, loads: string -> Result<Value>)
    requires utf8decode(b) == Some(t)
    ensures FromJson(BytesData(b), utf8decode, loads) == FromJson(TextData(t), utf8decode, loads)
  {
  }

  /** Text whose JSON is an object is read exactly as that dictionary. */
  lemma FromJsonTextAsDict(t: string, d: map<string, Value>, utf8decode: Bytes -> Option<string>,
                           loads: string -> Result<Value>)
    requires loads(t) == Success(Object(d))
    ensures FromJson(TextData(t), utf8decode, loads) == FromJson(DictData(d), utf8decode, loads)
  {
  }
}
