/** Which JSON objects are requests for a job, and for which: what stands under each key decides, defaults included. */
module RequestForms {
  import opened Texts
  import opened JsonNumbers
  import opened Json
  import opened JsonFacts
  import opened Contracts

  /** The policy asked for: thirty days when none is, the time of the class when only a class is. */
  predicate PolicySays(v: Option<Value>, r: Retention) {
    if v.None? || v == Some(Null) then r == Retention(Standard, 2_592_000)
    else
      && v.value.Obj?
      && (forall m :: m in v.value.members ==> m.key == Lit("policyClass") || m.key == Lit("ttlSeconds"))
      && var name, ttl := Get(v.value.members, Lit("policyClass")), Get(v.value.members, Lit("ttlSeconds"));
         match r.cls
         case Ephemeral => name == Some(Str(Lit("ephemeral"))) && TimeSays(ttl, r.ttl, 3_600, 60, 86_400)
         case Standard => name == Some(Str(Lit("standard"))) && TimeSays(ttl, r.ttl, 2_592_000, 3_600, 7_776_000)
         case Extended => name == Some(Str(Lit("extended"))) && TimeSays(ttl, r.ttl, 31_536_000, 86_400, 63_072_000)
  }

  predicate TimeSays(v: Option<Value>, ttl: int, default: int, least: int, most: int) {
    if v.None? then ttl == default else v == Some(Num(Int(ttl))) && least <= ttl <= most
  }

  /** The learning rate is a float in (0, 1], or the integer one. */
  predicate RateSays(v: Value, d: Float) {
    (v == Num(Int(1)) && d == Decimal(false, [49], 1)) || (v == Num(Real(d)) && RateInRange(d))
  }

  /** The parameters asked for; the dry-run flag must be false for training proper and true otherwise. */
  predicate ParamsSay(v: Option<Value>, gpu: bool, own: bool, p: Params) {
    && (v.Some? ==> v.value.Obj?)
    && var ms := if v.Some? then v.value.members else [];
       var epochs, rate, dryRun := Get(ms, Lit("epochs")), Get(ms, Lit("learningRate")), Get(ms, Lit("dryRun"));
       && (forall m :: m in ms ==> m.key == Lit("epochs") || m.key == Lit("learningRate") || m.key == Lit("dryRun"))
       && (if p.epochs.None? then epochs.None? else epochs == Some(Num(Int(p.epochs.value))) && 1 <= p.epochs.value <= 3)
       && (if p.learningRate.None? then rate.None? else rate.Some? && RateSays(rate.value, p.learningRate.value))
       && (if p.dryRun.None? then dryRun.None? && !gpu && !own
           else dryRun == Some(Bool(p.dryRun.value)) && p.dryRun.value == !gpu)
  }

  /** The object asks for just this request. */
  predicate FormSays(ms: seq<Member>, q: Request) {
    var gpu := q.modelId == Lit("scooling-lab-gpu-personal-v1");
    && (forall m :: m in ms ==>
          || m.key == Lit("idempotencyKey") || m.key == Lit("datasetId") || m.key == Lit("modelId")
          || m.key == Lit("requestedBy") || m.key == Lit("retentionPolicy") || m.key == Lit("trainingParameters"))
    && Get(ms, Lit("idempotencyKey")) == Some(Str(q.idempotencyKey)) && SafeIdentifier(q.idempotencyKey)
    && Get(ms, Lit("datasetId")) == Some(Str(q.datasetId)) && SafeIdentifier(q.datasetId)
    && (q.datasetId == Lit("fixture:synthetic-tiny-v1") || OwnDatasetId(q.datasetId))
    && Get(ms, Lit("modelId")) == Some(Str(q.modelId))
    && (q.modelId == Lit("fixture-tiny-llm") || (gpu && OwnDatasetId(q.datasetId)))
    && Get(ms, Lit("requestedBy")) == Some(Str(q.requestedBy)) && Requester(q.requestedBy)
    && PolicySays(Get(ms, Lit("retentionPolicy")), q.retention)
    && ParamsSay(Get(ms, Lit("trainingParameters")), gpu, OwnDatasetId(q.datasetId), q.params)
  }

  lemma ClassesDiffer()
    ensures Lit("ephemeral") != Lit("standard") && Lit("ephemeral") != Lit("extended") && Lit("standard") != Lit("extended")
  {
  }

  lemma PolicyExactly(v: Option<Value>, r: Retention)
    ensures ReadRetention(v) == Ok(r) <==> PolicySays(v, r)
    ensures ReadRetention(v).Err? ==> ReadRetention(v).code == ValidationError
  {
    hide Get;
    ClassesDiffer();
  }

  lemma RateExactly(v: Value, d: Float)
    ensures ReadRate(v) == Some(d) <==> RateSays(v, d)
  {
  }

  lemma ParamsExactly(v: Option<Value>, gpu: bool, own: bool, p: Params)
    ensures ReadParams(v, gpu, own) == Ok(p) <==> ParamsSay(v, gpu, own, p)
    ensures ReadParams(v, gpu, own).Err? ==> ReadParams(v, gpu, own).code == ValidationError
  {
    hide Get, ReadRate, RateSays;
    var ms := if v.Some? && v.value.Obj? then v.value.members else [];
    var rate := Get(ms, Lit("learningRate"));
    if rate.Some? {
      if p.learningRate.Some? {
        RateExactly(rate.value, p.learningRate.value);
      }
      if ReadRate(rate.value).Some? {
        RateExactly(rate.value, ReadRate(rate.value).value);
      }
    }
  }

  lemma ModelsDiffer()
    ensures WaveAModel() != GpuModel()
  {
  }

  /** An object is accepted as a request exactly when it asks for just that one; anything else is a validation error. */
  lemma FormExactly(ms: seq<Member>, q: Request)
    ensures FromMapping(ms) == Ok(q) <==> FormSays(ms, q)
    ensures FromMapping(ms).Err? ==> FromMapping(ms).code == ValidationError
  {
    hide Get, ReadRetention, ReadParams, PolicySays, ParamsSay, SafeIdentifier, OwnDatasetId, Requester, ValidRequest;
    ModelsDiffer();
    var retention := Get(ms, Lit("retentionPolicy"));
    PolicyExactly(retention, q.retention);
    if ReadRetention(retention).Ok? {
      PolicyExactly(retention, ReadRetention(retention).value);
    }
    var gpu := q.modelId == GpuModel();
    ParamsExactly(Get(ms, Lit("trainingParameters")), gpu, OwnDatasetId(q.datasetId), q.params);
    if FromMapping(ms).Err? {
      forall g, o
        ensures ReadParams(Get(ms, Lit("trainingParameters")), g, o).Err? ==>
                  ReadParams(Get(ms, Lit("trainingParameters")), g, o).code == ValidationError
      {
        ParamsExactly(Get(ms, Lit("trainingParameters")), g, o, q.params);
      }
    }
  }
}
