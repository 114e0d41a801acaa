/** Requests, retention policies and provenance: validation, wire form and the fingerprint of a request. */
module Contracts {
  import opened Texts
  import opened JsonNumbers
  import opened JsonStrings
  import opened Json
  import opened JsonFacts

  datatype ErrorCode =
    | MalformedJson
    | ValidationError
    | NotFound
    | InvalidTransition
    | QueueLimitExceeded
    | Conflict
    | InternalError
    | DatasetNotApproved
    | Unauthorized

  datatype Result<+T> = Ok(value: T) | Err(code: ErrorCode)

  // --- Identifiers

  predicate IsLetter(c: CodePoint) {
    65 <= c <= 90 || 97 <= c <= 122
  }

  /** The class `[A-Za-z0-9._-]`. */
  predicate IsNameChar(c: CodePoint) {
    IsLetter(c) || IsDigit(c) || c == 46 || c == 95 || c == 45
  }

  /** The class `[A-Za-z0-9._:-]`; no text over it can match the patterns for URLs, paths and shell text. */
  predicate IsIdentifierChar(c: CodePoint) {
    IsNameChar(c) || c == 58
  }

  predicate IdentifierText(t: Text) {
    forall i :: 0 <= i < |t| ==> IsIdentifierChar(t[i])
  }

  predicate SafeIdentifier(t: Text) {
    3 <= |t| <= 96 && IdentifierText(t)
  }

  predicate Requester(t: Text) {
    3 <= |t| <= 80 && IdentifierText(t)
  }

  predicate OwnDatasetId(t: Text) {
    7 <= |t| <= 68 && t[..4] == Lit("own:") && forall i :: 4 <= i < |t| ==> IsNameChar(t[i])
  }

  predicate TrainingDatasetId(t: Text) {
    SafeIdentifier(t) && (t == Lit("fixture:synthetic-tiny-v1") || OwnDatasetId(t))
  }

  predicate IsJobId(t: Text) {
    |t| == 28 && t[..4] == Lit("job_") && AllHex(t[4..])
  }

  predicate IsArtifactId(t: Text) {
    |t| == 33 && t[..9] == Lit("artifact_") && AllHex(t[9..])
  }

  predicate IsHash(t: Text) {
    |t| == 64 && AllHex(t)
  }

  function WaveAModel(): Text {
    Lit("fixture-tiny-llm")
  }

  function GpuModel(): Text {
    Lit("scooling-lab-gpu-personal-v1")
  }

  function SchemaVersion(): Text {
    Lit("scooling-lab.provenance.v1")
  }

  // --- Digests

  /** Some digest function; only the low 256 bits of its value are shown. */
  type Sha = Text -> nat

  /** `hashlib.sha256(...).hexdigest()` */
  function HexDigest(sha: Sha, t: Text): (h: Text)
    ensures IsHash(h)
  {
    HexDigits(sha(t), 64)
  }

  /** `job_` and the first 24 digits of a digest. */
  function DigestJobId(sha: Sha, t: Text): (id: Text)
    ensures IsJobId(id)
  {
    var id := Lit("job_") + HexDigest(sha, t)[..24];
    assert id[..4] == Lit("job_") && id[4..] == HexDigest(sha, t)[..24];
    id
  }

  function ArtifactId(hash: Text): (id: Text)
    requires IsHash(hash)
    ensures IsArtifactId(id)
  {
    var id := Lit("artifact_") + hash[..24];
    assert id[..9] == Lit("artifact_") && id[9..] == hash[..24];
    id
  }

  // --- Retention

  datatype PolicyClass = Ephemeral | Standard | Extended

  datatype Retention = Retention(cls: PolicyClass, ttl: int)

  datatype Bounds = Bounds(default: int, min: int, max: int)

  function RetentionBounds(c: PolicyClass): Bounds {
    match c
    case Ephemeral => Bounds(3_600, 60, 86_400)
    case Standard => Bounds(2_592_000, 3_600, 7_776_000)
    case Extended => Bounds(31_536_000, 86_400, 63_072_000)
  }

  predicate ValidRetention(r: Retention) {
    RetentionBounds(r.cls).min <= r.ttl <= RetentionBounds(r.cls).max
  }

  function DefaultRetention(): (r: Retention)
    ensures ValidRetention(r)
  {
    Retention(Standard, RetentionBounds(Standard).default)
  }

  function ClassName(c: PolicyClass): Text {
    match c
    case Ephemeral => Lit("ephemeral")
    case Standard => Lit("standard")
    case Extended => Lit("extended")
  }

  function ClassNamed(t: Text): (c: Option<PolicyClass>)
    ensures forall k: PolicyClass :: ClassName(k) == t ==> c == Some(k)
  {
    if t == Lit("ephemeral") then Some(Ephemeral)
    else if t == Lit("standard") then Some(Standard)
    else if t == Lit("extended") then Some(Extended)
    else None
  }

  function RetentionJson(r: Retention): (v: Value)
  {
    Obj([Member(Lit("policyClass"), Str(ClassName(r.cls))), Member(Lit("ttlSeconds"), Num(Int(r.ttl)))])
  }

  /** `retention_policy_from_mapping`; absent and null both ask for the default policy. */
  function ReadRetention(v: Option<Value>): (r: Result<Retention>)
    ensures r.Ok? ==> ValidRetention(r.value)
  {
    if v.None? || v.value.Null? then Ok(DefaultRetention())
    else if !v.value.Obj? then Err(ValidationError)
    else
      var ms := v.value.members;
      if exists m :: m in ms && m.key != Lit("policyClass") && m.key != Lit("ttlSeconds") then Err(ValidationError)
      else
        var name := Get(ms, Lit("policyClass"));
        if name.None? || !name.value.Str? || ClassNamed(name.value.s).None? then Err(ValidationError)
        else
          var cls := ClassNamed(name.value.s).value;
          var ttl := Get(ms, Lit("ttlSeconds"));
          if ttl.Some? && !(ttl.value.Num? && ttl.value.n.Int?) then Err(ValidationError)
          else
            var policy := Retention(cls, if ttl.None? then RetentionBounds(cls).default else ttl.value.n.n);
            if ValidRetention(policy) then Ok(policy) else Err(ValidationError)
  }

  // --- Training parameters

  datatype Params = Params(epochs: Option<int>, learningRate: Option<Float>, dryRun: Option<bool>)

  function One(): (d: Float)
  {
    Decimal(false, [49], 1)
  }

  /** Positive and at most one. */
  predicate RateInRange(d: Float) {
    !d.neg && d.digits != [] && (d.point <= 0 || d == One())
  }

  predicate ValidParams(p: Params, gpu: bool, requireDryRun: bool) {
    && (p.epochs.Some? ==> 1 <= p.epochs.value <= 3)
    && (p.learningRate.Some? ==> RateInRange(p.learningRate.value))
    && (p.dryRun.Some? ==> p.dryRun.value == !gpu)
    && (gpu || requireDryRun ==> p.dryRun.Some?)
  }

  function ParamsJson(p: Params): (v: Value)
  {
    Obj(Optional(Lit("dryRun"), if p.dryRun.None? then None else Some(Bool(p.dryRun.value)))
        + Optional(Lit("epochs"), if p.epochs.None? then None else Some(Num(Int(p.epochs.value))))
        + Optional(Lit("learningRate"), if p.learningRate.None? then None else Some(Num(Real(p.learningRate.value)))))
  }

  /** A number in (0, 1] as a float; the only such integer is one. */
  function ReadRate(v: Value): (r: Option<Float>)
    ensures r.Some? ==> RateInRange(r.value)
  {
    if v == Num(Int(1)) then Some(One())
    else if v.Num? && v.n.Real? && RateInRange(v.n.d) then Some(v.n.d)
    else None
  }

  /** `validate_training_parameters` */
  function ReadParams(v: Option<Value>, gpu: bool, requireDryRun: bool): (r: Result<Params>)
    ensures r.Ok? ==> ValidParams(r.value, gpu, requireDryRun)
  {
    if v.Some? && !v.value.Obj? then Err(ValidationError)
    else
      var ms := if v.None? then [] else v.value.members;
      if exists m :: m in ms && m.key != Lit("epochs") && m.key != Lit("learningRate") && m.key != Lit("dryRun") then Err(ValidationError)
      else
        var epochs := Get(ms, Lit("epochs"));
        var rate := Get(ms, Lit("learningRate"));
        var dryRun := Get(ms, Lit("dryRun"));
        if epochs.Some? && !(epochs.value.Num? && epochs.value.n.Int? && 1 <= epochs.value.n.n <= 3) then Err(ValidationError)
        else if rate.Some? && ReadRate(rate.value).None? then Err(ValidationError)
        else if dryRun.Some? && dryRun.value != Bool(!gpu) then Err(ValidationError)
        else if dryRun.None? && (gpu || requireDryRun) then Err(ValidationError)
        else
          Ok(Params(if epochs.None? then None else Some(epochs.value.n.n),
                    if rate.None? then None else ReadRate(rate.value),
                    if dryRun.None? then None else Some(!gpu)))
  }

  // --- Requests

  datatype Request = Request(
    idempotencyKey: Text,
    datasetId: Text,
    modelId: Text,
    requestedBy: Text,
    retention: Retention,
    params: Params)

  predicate ValidRequest(r: Request) {
    && SafeIdentifier(r.idempotencyKey)
    && TrainingDatasetId(r.datasetId)
    && (r.modelId == WaveAModel() || r.modelId == GpuModel())
    && (r.modelId == GpuModel() ==> OwnDatasetId(r.datasetId))
    && Requester(r.requestedBy)
    && ValidRetention(r.retention)
    && ValidParams(r.params, r.modelId == GpuModel(), OwnDatasetId(r.datasetId))
  }

  /** The request as it is fingerprinted and persisted, keys sorted. */
  function RequestMembers(r: Request): (ms: seq<Member>)
  {
    [Member(Lit("datasetId"), Str(r.datasetId)),
     Member(Lit("idempotencyKey"), Str(r.idempotencyKey)),
     Member(Lit("modelId"), Str(r.modelId)),
     Member(Lit("requestedBy"), Str(r.requestedBy)),
     Member(Lit("retentionPolicy"), RetentionJson(r.retention)),
     Member(Lit("trainingParameters"), ParamsJson(r.params))]
  }

  function RequestJson(r: Request): (v: Value)
  {
    Obj(RequestMembers(r))
  }

  predicate AllowedRequestKey(k: Text) {
    || k == Lit("idempotencyKey") || k == Lit("datasetId") || k == Lit("modelId")
    || k == Lit("requestedBy") || k == Lit("retentionPolicy") || k == Lit("trainingParameters")
  }

  function GetText(ms: seq<Member>, key: Text): (t: Option<Text>) {
    var v := Get(ms, key);
    if v.Some? && v.value.Str? then Some(v.value.s) else None
  }

  /** `TrainingJobRequest.from_mapping` */
  function FromMapping(ms: seq<Member>): (r: Result<Request>)
    ensures r.Ok? ==> ValidRequest(r.value)
  {
    var idempotencyKey := GetText(ms, Lit("idempotencyKey"));
    var datasetId := GetText(ms, Lit("datasetId"));
    var modelId := GetText(ms, Lit("modelId"));
    var requestedBy := GetText(ms, Lit("requestedBy"));
    var retention := ReadRetention(Get(ms, Lit("retentionPolicy")));
    if exists m :: m in ms && !AllowedRequestKey(m.key) then Err(ValidationError)
    else if idempotencyKey.None? || !SafeIdentifier(idempotencyKey.value) then Err(ValidationError)
    else if datasetId.None? || !TrainingDatasetId(datasetId.value) then Err(ValidationError)
    else if requestedBy.None? || !Requester(requestedBy.value) then Err(ValidationError)
    else if retention.Err? then Err(retention.code)
    else if modelId != Some(WaveAModel()) && modelId != Some(GpuModel()) then Err(ValidationError)
    else
      var gpu := modelId.value == GpuModel();
      var own := OwnDatasetId(datasetId.value);
      if gpu && !own then Err(ValidationError)
      else
        var params := ReadParams(Get(ms, Lit("trainingParameters")), gpu, own);
        if params.Err? then Err(params.code)
        else Ok(Request(idempotencyKey.value, datasetId.value, modelId.value, requestedBy.value, retention.value, params.value))
  }

  /** `fingerprint` */
  function Fingerprint(r: Request): Text
    requires ValidRequest(r)
  {
    Dumps(RequestJson(r), Compact)
  }

  /** `stable_job_id` */
  function StableJobId(sha: Sha, r: Request): (id: Text)
    requires ValidRequest(r)
    ensures IsJobId(id)
  {
    DigestJobId(sha, Fingerprint(r))
  }

  // --- A stored request reads back as itself

  lemma RetentionRoundTrip(r: Retention)
    requires ValidRetention(r)
    ensures ReadRetention(Some(RetentionJson(r))) == Ok(r)
  {
    var ms := RetentionJson(r).members;
    GetAt(ms, 0);
    GetAt(ms, 1);
  }

  lemma ParamsRoundTrip(p: Params, gpu: bool, requireDryRun: bool)
    requires ValidParams(p, gpu, requireDryRun)
    ensures ReadParams(Some(ParamsJson(p)), gpu, requireDryRun) == Ok(p)
  {
    hide Get;
    ParamLookup(p);
    ParamKeys(p);
  }

  lemma ParamKeys(p: Params)
    ensures forall m :: m in ParamsJson(p).members ==>
              m.key == Lit("epochs") || m.key == Lit("learningRate") || m.key == Lit("dryRun")
  {
  }

  lemma ParamLookup(p: Params)
    ensures var ms := ParamsJson(p).members;
            && Get(ms, Lit("dryRun")) == (if p.dryRun.Some? then Some(Bool(p.dryRun.value)) else None)
            && Get(ms, Lit("epochs")) == (if p.epochs.Some? then Some(Num(Int(p.epochs.value))) else None)
            && Get(ms, Lit("learningRate")) ==
               (if p.learningRate.Some? then Some(Num(Real(p.learningRate.value))) else None)
  {
    OptionalTriple(Lit("dryRun"), if p.dryRun.None? then None else Some(Bool(p.dryRun.value)),
                   Lit("epochs"), if p.epochs.None? then None else Some(Num(Int(p.epochs.value))),
                   Lit("learningRate"), if p.learningRate.None? then None else Some(Num(Real(p.learningRate.value))));
  }

  lemma OptionalTriple(a: Text, x: Option<Value>, b: Text, y: Option<Value>, c: Text, z: Option<Value>)
    requires a != b && b != c && a != c
    ensures var ms := Optional(a, x) + Optional(b, y) + Optional(c, z);
            Get(ms, a) == x && Get(ms, b) == y && Get(ms, c) == z
  {
    hide Get;
    forall k: Text
      ensures Get(Optional(a, x) + Optional(b, y) + Optional(c, z), k) ==
              if k == c && z.Some? then z else if k == b && y.Some? then y else if k == a then x else None
    {
      GetAppend(Optional(a, x) + Optional(b, y), Optional(c, z), k);
      GetAppend(Optional(a, x), Optional(b, y), k);
      GetOptional(a, x, k);
      GetOptional(b, y, k);
      GetOptional(c, z, k);
    }
  }

  /** Reading the wire form of a valid request gives that request. */
  lemma RequestRoundTrip(r: Request)
    requires ValidRequest(r)
    ensures FromMapping(RequestMembers(r)) == Ok(r)
  {
    hide RetentionJson, ParamsJson, ReadRetention, ReadParams, ValidParams, SafeIdentifier, Requester,
      TrainingDatasetId, OwnDatasetId, ValidRetention;
    RetentionRoundTrip(r.retention);
    ParamsRoundTrip(r.params, r.modelId == GpuModel(), OwnDatasetId(r.datasetId));
    var ms := RequestMembers(r);
    RequestLookup(r);
    assert forall m :: m in ms ==> AllowedRequestKey(m.key);
  }

  lemma RequestLookup(r: Request)
    ensures var ms := RequestMembers(r);
            && Get(ms, Lit("datasetId")) == Some(Str(r.datasetId))
            && Get(ms, Lit("idempotencyKey")) == Some(Str(r.idempotencyKey))
            && Get(ms, Lit("modelId")) == Some(Str(r.modelId))
            && Get(ms, Lit("requestedBy")) == Some(Str(r.requestedBy))
            && Get(ms, Lit("retentionPolicy")) == Some(RetentionJson(r.retention))
            && Get(ms, Lit("trainingParameters")) == Some(ParamsJson(r.params))
  {
    hide RetentionJson, ParamsJson, Get;
    var ms := RequestMembers(r);
    GetAt(ms, 0);
    GetAt(ms, 1);
    GetAt(ms, 2);
    GetAt(ms, 3);
    GetAt(ms, 4);
    GetAt(ms, 5);
  }

  lemma ParamsPairFree(p: Params)
    ensures PairFreeValue(ParamsJson(p))
  {
    AsciiPairFree(Lit("dryRun"));
    AsciiPairFree(Lit("epochs"));
    AsciiPairFree(Lit("learningRate"));
  }

  lemma RetentionPairFree(r: Retention)
    ensures PairFreeValue(RetentionJson(r))
  {
    TextMember(Lit("policyClass"), ClassName(r.cls));
    NamedMember(Lit("ttlSeconds"), Num(Int(r.ttl)));
    PairFreeObj(RetentionJson(r).members);
  }

  lemma RequestTexts(r: Request)
    requires ValidRequest(r)
    ensures Ascii(r.datasetId) && Ascii(r.idempotencyKey) && Ascii(r.modelId) && Ascii(r.requestedBy)
  {
    hide ValidParams, ValidRetention, OwnDatasetId;
  }

  lemma KeyTexts()
    ensures Ascii(Lit("datasetId")) && Ascii(Lit("idempotencyKey")) && Ascii(Lit("modelId"))
    ensures Ascii(Lit("requestedBy")) && Ascii(Lit("retentionPolicy")) && Ascii(Lit("trainingParameters"))
  {
  }

  lemma RequestPairFree(r: Request)
    requires ValidRequest(r)
    ensures PairFreeValue(RequestJson(r))
  {
    hide PairFreeMember, PairFreeValue, ParamsJson, RetentionJson, ValidRequest, Ascii;
    RequestTexts(r);
    KeyTexts();
    ParamsPairFree(r.params);
    RetentionPairFree(r.retention);
    TextMember(Lit("datasetId"), r.datasetId);
    TextMember(Lit("idempotencyKey"), r.idempotencyKey);
    TextMember(Lit("modelId"), r.modelId);
    TextMember(Lit("requestedBy"), r.requestedBy);
    NamedMember(Lit("retentionPolicy"), RetentionJson(r.retention));
    NamedMember(Lit("trainingParameters"), ParamsJson(r.params));
    PairFreeObj(RequestMembers(r));
  }

  /** Accepted requests with the same fingerprint are the same request. */
  lemma FingerprintInjective(q: Request, r: Request)
    requires ValidRequest(q) && ValidRequest(r)
    requires Fingerprint(q) == Fingerprint(r)
    ensures q == r
  {
    RequestPairFree(q);
    RequestPairFree(r);
    DumpsInjective(RequestJson(q), RequestJson(r), Compact);
    RequestRoundTrip(q);
    RequestRoundTrip(r);
  }

  // --- Provenance

  datatype Provenance = Provenance(
    jobId: Text,
    datasetHash: Text,
    artifactHash: Text,
    baseModelId: Text,
    trainingConfigHash: Text,
    createdAt: int,
    schemaVersion: Text)

  /** `validate_provenance_record`; texts that match these patterns hold no unsafe character. */
  predicate ValidProvenance(p: Provenance) {
    && IsJobId(p.jobId)
    && IsHash(p.datasetHash)
    && IsHash(p.artifactHash)
    && IsHash(p.trainingConfigHash)
    && SafeIdentifier(p.baseModelId)
    && p.schemaVersion == SchemaVersion()
  }
}
