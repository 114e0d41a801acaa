/** What the service and the isolated training process tell each other: one JSON text each way. */
module Envelopes {
  import opened Texts
  import opened JsonNumbers
  import opened JsonStrings
  import opened Json
  import opened JsonFacts
  import opened Contracts
  import opened Jobs
  import opened Persistence
  import opened Protocol
  import opened Workers
  import opened SerialFacts
  import opened Outcomes

  // --- To the process

  /** What the process is asked to do, keys sorted. */
  function EnvelopeMembers(jobId: Text, q: Request): (ms: seq<Member>) {
    [Member(Lit("datasetId"), Str(q.datasetId)),
     Member(Lit("jobId"), Str(jobId)),
     Member(Lit("modelId"), Str(q.modelId)),
     Member(Lit("retentionPolicy"), RetentionJson(q.retention)),
     Member(Lit("trainingParameters"), ParamsJson(q.params))]
  }

  function EnvelopeText(jobId: Text, q: Request): Text {
    Dumps(Obj(EnvelopeMembers(jobId, q)), Compact)
  }

  /** A checked envelope. */
  datatype Order = Order(jobId: Text, datasetId: Text, modelId: Text, params: seq<Member>, retention: seq<Member>)

  /** `isinstance(value, (int, float, bool))` */
  predicate IsScalar(v: Value) {
    v.Num? || v.Bool?
  }

  /** The checks of `execute_gpu_worker_envelope`. */
  function CheckEnvelope(ms: seq<Member>): (r: Result<Order>) {
    var jobId, modelId, datasetId := GetText(ms, Lit("jobId")), GetText(ms, Lit("modelId")), GetText(ms, Lit("datasetId"));
    var params, retention := Get(ms, Lit("trainingParameters")), Get(ms, Lit("retentionPolicy"));
    if jobId.None? || modelId.None? then Err(ValidationError)
    else if datasetId.None? || !OwnDatasetId(datasetId.value) then Err(ValidationError)
    else if modelId.value != GpuModel() then Err(ValidationError)
    else if params.None? || !params.value.Obj? then Err(ValidationError)
    else if Get(params.value.members, Lit("dryRun")) != Some(Bool(false)) then Err(ValidationError)
    else if retention.None? || !retention.value.Obj? then Err(ValidationError)
    else if exists m :: m in params.value.members && !IsScalar(m.value) then Err(ValidationError)
    else Ok(Order(jobId.value, datasetId.value, modelId.value, params.value.members, retention.value.members))
  }

  /** What the process makes of its standard input. */
  function ReadEnvelope(t: Text): (r: Result<Order>) {
    var v := Loads(t);
    if v.None? || !v.value.Obj? then Err(ValidationError) else CheckEnvelope(v.value.members)
  }

  lemma EnvelopeKeys()
    ensures Ascii(Lit("datasetId")) && Ascii(Lit("jobId")) && Ascii(Lit("modelId"))
    ensures Ascii(Lit("retentionPolicy")) && Ascii(Lit("trainingParameters"))
  {
  }

  lemma EnvelopePairFree(jobId: Text, q: Request)
    requires ValidRequest(q) && IsJobId(jobId)
    ensures PairFreeValue(Obj(EnvelopeMembers(jobId, q)))
  {
    hide PairFreeMember, PairFreeValue, ParamsJson, RetentionJson, ValidRequest, Ascii, IsJobId;
    EnvelopeKeys();
    RequestTexts(q);
    JobIdAscii(jobId);
    ParamsPairFree(q.params);
    RetentionPairFree(q.retention);
    TextMember(Lit("datasetId"), q.datasetId);
    TextMember(Lit("jobId"), jobId);
    TextMember(Lit("modelId"), q.modelId);
    NamedMember(Lit("retentionPolicy"), RetentionJson(q.retention));
    NamedMember(Lit("trainingParameters"), ParamsJson(q.params));
    PairFreeObj(EnvelopeMembers(jobId, q));
  }

  lemma EnvelopeLookup(jobId: Text, q: Request)
    ensures var ms := EnvelopeMembers(jobId, q);
            && GetText(ms, Lit("datasetId")) == Some(q.datasetId)
            && GetText(ms, Lit("jobId")) == Some(jobId)
            && GetText(ms, Lit("modelId")) == Some(q.modelId)
            && Get(ms, Lit("retentionPolicy")) == Some(RetentionJson(q.retention))
            && Get(ms, Lit("trainingParameters")) == Some(ParamsJson(q.params))
  {
    hide Get, ParamsJson, RetentionJson;
    var ms := EnvelopeMembers(jobId, q);
    GetAt(ms, 0);
    GetAt(ms, 1);
    GetAt(ms, 2);
    GetAt(ms, 3);
    GetAt(ms, 4);
  }

  lemma ParamsAreScalar(p: Params)
    ensures forall m :: m in ParamsJson(p).members ==> IsScalar(m.value)
  {
  }

  lemma GpuRequest(q: Request)
    requires ValidRequest(q) && q.modelId == GpuModel()
    ensures OwnDatasetId(q.datasetId) && q.params.dryRun == Some(false) && ValidParams(q.params, true, true)
  {
  }

  /**
   The process accepts the envelope of every valid request for its model, and is told just what the request
   says: read back, the parameters and the retention policy are those of the request.
   */
  lemma EnvelopeIsAccepted(jobId: Text, q: Request)
    requires ValidRequest(q) && q.modelId == GpuModel() && IsJobId(jobId)
    ensures var order := ReadEnvelope(EnvelopeText(jobId, q));
            && order.Ok?
            && order.value.jobId == jobId && order.value.datasetId == q.datasetId && order.value.modelId == q.modelId
            && ReadParams(Some(Obj(order.value.params)), true, true) == Ok(q.params)
            && ReadRetention(Some(Obj(order.value.retention))) == Ok(q.retention)
  {
    hide ValidRequest, OwnDatasetId, ValidParams, Loads, Dumps, EnvelopeMembers, GetText, Get, ReadParams,
      ReadRetention, IsJobId, IsScalar;
    GpuRequest(q);
    EnvelopePairFree(jobId, q);
    RoundTripExactly(Obj(EnvelopeMembers(jobId, q)), Compact, []);
    assert EnvelopeText(jobId, q) + [] == EnvelopeText(jobId, q);
    EnvelopeLookup(jobId, q);
    ParamLookup(q.params);
    ParamsAreScalar(q.params);
    ParamsRoundTrip(q.params, true, true);
    ValidPolicy(q);
    RetentionRoundTrip(q.retention);
  }

  lemma ValidPolicy(q: Request)
    requires ValidRequest(q)
    ensures ValidRetention(q.retention)
  {
  }

  // --- From the process

  /** What the process writes when it has trained. */
  function OutputMembers(jobId: Text, artifactHash: Text, datasetHash: Text, configHash: Text): (ms: seq<Member>) {
    [Member(Lit("artifactHash"), Str(artifactHash)),
     Member(Lit("baseModelId"), Str(GpuModel())),
     Member(Lit("datasetHash"), Str(datasetHash)),
     Member(Lit("jobId"), Str(jobId)),
     Member(Lit("trainingConfigHash"), Str(configHash))]
  }

  function OutputText(jobId: Text, artifactHash: Text, datasetHash: Text, configHash: Text): Text {
    Dumps(Obj(OutputMembers(jobId, artifactHash, datasetHash, configHash)), Compact) + [10]
  }

  predicate OutputKey(k: Text) {
    || k == Lit("artifactHash") || k == Lit("baseModelId") || k == Lit("datasetHash") || k == Lit("jobId")
    || k == Lit("trainingConfigHash")
  }

  /** `_invoke_isolated_process`: what the worker takes from the output; other keys or none are no result. */
  function ReadOutput(t: Text, now: int): (o: Outcome) {
    var v := Loads(t);
    if v.None? || !v.value.Obj? then NoResult
    else
      var ms := v.value.members;
      var artifactHash, baseModelId := GetText(ms, Lit("artifactHash")), GetText(ms, Lit("baseModelId"));
      var datasetHash, configHash := GetText(ms, Lit("datasetHash")), GetText(ms, Lit("trainingConfigHash"));
      if (exists m :: m in ms && !OutputKey(m.key)) || GetText(ms, Lit("jobId")).None?
         || artifactHash.None? || baseModelId.None? || datasetHash.None? || configHash.None? then NoResult
      else Produced(datasetHash.value, artifactHash.value, baseModelId.value, configHash.value, now)
  }

  lemma OutputKeysAscii()
    ensures Ascii(Lit("artifactHash")) && Ascii(Lit("baseModelId")) && Ascii(Lit("datasetHash"))
    ensures Ascii(Lit("jobId")) && Ascii(Lit("trainingConfigHash"))
  {
  }

  lemma GpuModelText()
    ensures Ascii(GpuModel()) && SafeIdentifier(GpuModel())
  {
  }

  lemma OutputPairFree(jobId: Text, artifactHash: Text, datasetHash: Text, configHash: Text)
    requires IsJobId(jobId) && IsHash(artifactHash) && IsHash(datasetHash) && IsHash(configHash)
    ensures PairFreeValue(Obj(OutputMembers(jobId, artifactHash, datasetHash, configHash)))
  {
    hide PairFreeMember, PairFreeValue, Ascii, IsJobId, IsHash;
    OutputKeysAscii();
    GpuModelText();
    JobIdAscii(jobId);
    HashAscii(artifactHash);
    HashAscii(datasetHash);
    HashAscii(configHash);
    TextMember(Lit("artifactHash"), artifactHash);
    TextMember(Lit("baseModelId"), GpuModel());
    TextMember(Lit("datasetHash"), datasetHash);
    TextMember(Lit("jobId"), jobId);
    TextMember(Lit("trainingConfigHash"), configHash);
    PairFreeObj(OutputMembers(jobId, artifactHash, datasetHash, configHash));
  }

  lemma OutputLookup(jobId: Text, artifactHash: Text, datasetHash: Text, configHash: Text)
    ensures var ms := OutputMembers(jobId, artifactHash, datasetHash, configHash);
            && GetText(ms, Lit("artifactHash")) == Some(artifactHash)
            && GetText(ms, Lit("baseModelId")) == Some(GpuModel())
            && GetText(ms, Lit("datasetHash")) == Some(datasetHash)
            && GetText(ms, Lit("jobId")) == Some(jobId)
            && GetText(ms, Lit("trainingConfigHash")) == Some(configHash)
            && forall m :: m in ms ==> OutputKey(m.key)
  {
    hide Get;
    var ms := OutputMembers(jobId, artifactHash, datasetHash, configHash);
    GetAt(ms, 0);
    GetAt(ms, 1);
    GetAt(ms, 2);
    GetAt(ms, 3);
    GetAt(ms, 4);
  }

  /**
   What the process reports reaches the worker unchanged, and with digests for hashes it makes valid provenance:
   the run succeeds, and its artifact and provenance hold the reported hashes.
   */
  lemma OutputIsTaken(jobId: Text, retention: Retention, artifactHash: Text, datasetHash: Text, configHash: Text,
      now: int)
    requires IsJobId(jobId) && IsHash(artifactHash) && IsHash(datasetHash) && IsHash(configHash)
    ensures var o := ReadOutput(OutputText(jobId, artifactHash, datasetHash, configHash), now);
            && o == Produced(datasetHash, artifactHash, GpuModel(), configHash, now)
            && Succeeds(jobId, retention, o)
  {
    hide Loads, Dumps, OutputMembers, GetText, OutputKey, IsJobId, IsHash, SafeIdentifier;
    GpuModelText();
    OutputPairFree(jobId, artifactHash, datasetHash, configHash);
    RoundTripExactly(Obj(OutputMembers(jobId, artifactHash, datasetHash, configHash)), Compact, [10]);
    OutputLookup(jobId, artifactHash, datasetHash, configHash);
  }

  /** So an isolated run that writes digests has a report to succeed with. */
  lemma OutputIsReported(jobId: Text, artifactHash: Text, datasetHash: Text, configHash: Text, now: int)
    requires IsJobId(jobId) && IsHash(artifactHash) && IsHash(datasetHash) && IsHash(configHash)
    ensures GpuReport(Ended(ReadOutput(OutputText(jobId, artifactHash, datasetHash, configHash), now))) ==
            Some(Report(datasetHash, artifactHash, Lit("scooling-lab-gpu-personal-v1"), configHash, now))
  {
    hide IsJobId, IsHash, SafeIdentifier, OutputText, ReadOutput, Succeeds;
    GpuModelText();
    OutputIsTaken(jobId, Retention(Standard, 0), artifactHash, datasetHash, configHash, now);
  }

  /** What output is a result: an object with just the five texts, the job id among them whatever it is. */
  predicate OutputSays(ms: seq<Member>, datasetHash: Text, artifactHash: Text, model: Text, configHash: Text) {
    && (forall m :: m in ms ==>
          m.key in {Lit("artifactHash"), Lit("baseModelId"), Lit("datasetHash"), Lit("jobId"), Lit("trainingConfigHash")})
    && Get(ms, Lit("jobId")).Some? && Get(ms, Lit("jobId")).value.Str?
    && Get(ms, Lit("datasetHash")) == Some(Str(datasetHash)) && Get(ms, Lit("artifactHash")) == Some(Str(artifactHash))
    && Get(ms, Lit("baseModelId")) == Some(Str(model)) && Get(ms, Lit("trainingConfigHash")) == Some(Str(configHash))
  }

  /** The worker takes a result from a text exactly when the text says it; from any other text it takes none. */
  lemma OutputExactly(t: Text, now: int)
    ensures var o := ReadOutput(t, now);
            && (o.Produced? <==>
                && Loads(t).Some? && Loads(t).value.Obj?
                && exists d, a, m, c :: OutputSays(Loads(t).value.members, d, a, m, c))
            && (o.Produced? ==>
                  && OutputSays(Loads(t).value.members, o.datasetHash, o.artifactHash, o.baseModelId, o.trainingConfigHash)
                  && o.createdAt == now)
  {
    hide Loads, Get;
    var o := ReadOutput(t, now);
    if Loads(t).Some? && Loads(t).value.Obj? {
      var ms := Loads(t).value.members;
      assert o.Produced? ==> OutputSays(ms, o.datasetHash, o.artifactHash, o.baseModelId, o.trainingConfigHash);
      if d, a, m, c :| OutputSays(ms, d, a, m, c) {
        assert GetText(ms, Lit("datasetHash")) == Some(d) && GetText(ms, Lit("artifactHash")) == Some(a);
        assert GetText(ms, Lit("baseModelId")) == Some(m) && GetText(ms, Lit("trainingConfigHash")) == Some(c);
        assert !exists x :: x in ms && !OutputKey(x.key);
      }
    }
  }
}
