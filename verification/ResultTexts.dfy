/** What the hashes in a fixture result stand for: the texts behind them tell exactly what they should apart. */
module ResultTexts {
  import opened Texts
  import opened JsonNumbers
  import opened JsonStrings
  import opened Json
  import opened JsonFacts
  import opened Contracts
  import opened StateMachine
  import opened Jobs
  import opened JobInvariants
  import opened Persistence
  import opened Protocol
  import opened Workers

  lemma ConfigPairFree(q: Request)
    requires ValidRequest(q)
    ensures PairFreeValue(ConfigJson(q))
  {
    hide PairFreeMember, PairFreeValue, ParamsJson, RetentionJson, ValidRequest, Ascii;
    RequestTexts(q);
    KeyTexts();
    ParamsPairFree(q.params);
    RetentionPairFree(q.retention);
    TextMember(Lit("modelId"), q.modelId);
    NamedMember(Lit("retentionPolicy"), RetentionJson(q.retention));
    NamedMember(Lit("trainingParameters"), ParamsJson(q.params));
    PairFreeObj(ConfigJson(q).members);
  }

  lemma PlaceholderTexts()
    ensures Ascii(Lit("datasetHash")) && Ascii(Lit("jobId")) && Ascii(Lit("placeholder"))
    ensures Ascii(Lit("scooling-lab-fake-artifact-v1"))
  {
  }

  lemma PlaceholderPairFree(jobId: Text, q: Request, datasetHash: Text)
    requires ValidRequest(q) && IsJobId(jobId) && IsHash(datasetHash)
    ensures PairFreeValue(PlaceholderJson(jobId, q, datasetHash))
  {
    hide PairFreeMember, PairFreeValue, ParamsJson, ValidRequest, Ascii, IsJobId, IsHash;
    RequestTexts(q);
    KeyTexts();
    PlaceholderTexts();
    JobIdAscii(jobId);
    HashAscii(datasetHash);
    ParamsPairFree(q.params);
    TextMember(Lit("datasetHash"), datasetHash);
    TextMember(Lit("jobId"), jobId);
    TextMember(Lit("modelId"), q.modelId);
    TextMember(Lit("placeholder"), Lit("scooling-lab-fake-artifact-v1"));
    NamedMember(Lit("trainingParameters"), ParamsJson(q.params));
    PairFreeObj(PlaceholderJson(jobId, q, datasetHash).members);
  }

  lemma SameParams(q: Request, r: Request)
    requires ValidRequest(q) && ValidRequest(r) && q.modelId == r.modelId && ParamsJson(q.params) == ParamsJson(r.params)
    ensures q.params == r.params
  {
    hide ParamsJson, ReadParams, ValidParams, ValidRetention, TrainingDatasetId, SafeIdentifier, Requester;
    var gpu := q.modelId == GpuModel();
    WeakerParams(q);
    WeakerParams(r);
    ParamsRoundTrip(q.params, gpu, gpu);
    ParamsRoundTrip(r.params, gpu, gpu);
  }

  lemma WeakerParams(q: Request)
    requires ValidRequest(q)
    ensures ValidParams(q.params, q.modelId == GpuModel(), q.modelId == GpuModel())
  {
    hide TrainingDatasetId, SafeIdentifier, Requester, ValidRetention, RateInRange;
  }

  lemma SameRetention(q: Retention, r: Retention)
    requires ValidRetention(q) && ValidRetention(r) && RetentionJson(q) == RetentionJson(r)
    ensures q == r
  {
    hide RetentionJson, ReadRetention, ValidRetention;
    RetentionRoundTrip(q);
    RetentionRoundTrip(r);
  }

  lemma PolicyValid(q: Request)
    requires ValidRequest(q)
    ensures ValidRetention(q.retention)
  {
  }

  /** Two requests have the same configuration text exactly when model, policy and parameters are the same. */
  lemma ConfigTextExactly(q: Request, r: Request)
    requires ValidRequest(q) && ValidRequest(r)
    ensures Dumps(ConfigJson(q), Compact) == Dumps(ConfigJson(r), Compact) <==>
            q.modelId == r.modelId && q.retention == r.retention && q.params == r.params
  {
    hide Dumps, ParamsJson, RetentionJson, ValidRequest, PairFreeValue;
    if Dumps(ConfigJson(q), Compact) == Dumps(ConfigJson(r), Compact) {
      ConfigPairFree(q);
      ConfigPairFree(r);
      DumpsInjective(ConfigJson(q), ConfigJson(r), Compact);
      assert ConfigJson(q).members[0] == ConfigJson(r).members[0];
      assert ConfigJson(q).members[1] == ConfigJson(r).members[1];
      assert ConfigJson(q).members[2] == ConfigJson(r).members[2];
      SameParams(q, r);
      PolicyValid(q);
      PolicyValid(r);
      SameRetention(q.retention, r.retention);
    }
  }

  /** Two fixture artifacts have the same text exactly when job, dataset, model and parameters are the same. */
  lemma PlaceholderTextExactly(j: Text, q: Request, d: Text, k: Text, r: Request, e: Text)
    requires ValidRequest(q) && ValidRequest(r) && IsJobId(j) && IsJobId(k) && IsHash(d) && IsHash(e)
    ensures Dumps(PlaceholderJson(j, q, d), Compact) == Dumps(PlaceholderJson(k, r, e), Compact) <==>
            j == k && d == e && q.modelId == r.modelId && q.params == r.params
  {
    hide Dumps, ParamsJson, ValidRequest, PairFreeValue, IsJobId, IsHash;
    if Dumps(PlaceholderJson(j, q, d), Compact) == Dumps(PlaceholderJson(k, r, e), Compact) {
      var v, w := PlaceholderJson(j, q, d), PlaceholderJson(k, r, e);
      PlaceholderPairFree(j, q, d);
      PlaceholderPairFree(k, r, e);
      DumpsInjective(v, w, Compact);
      assert v.members[0] == w.members[0] && v.members[1] == w.members[1] && v.members[2] == w.members[2];
      assert v.members[4] == w.members[4];
      SameParams(q, r);
    }
  }
}
