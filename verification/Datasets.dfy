/** The dataset review lifecycle: what each operation makes of the registered datasets. */
module Datasets {
  import opened Texts
  import opened Contracts

  datatype ReviewStatus = Registered | PendingReview | Approved | Rejected

  datatype Reason = SyntheticLimit | FormatInvalid | PolicyViolation | SchemaMismatch | DuplicateSubmission

  /** Content-free metadata of a dataset, with a reason when the registration was malformed. */
  datatype Shape = Shape(rowCount: int, schema: map<Text, Text>, parseReason: Option<Reason>)

  datatype DatasetRecord = DatasetRecord(
    status: ReviewStatus,
    reason: Option<Reason>,
    shape: Shape,
    registeredAt: int,
    updatedAt: int)

  /** `self._datasets` */
  type Registry = map<Text, DatasetRecord>

  /** `has_forbidden_field_term`: some test of schema labels. */
  type LabelTest = Text -> bool

  function SyntheticSchema(): map<Text, Text> {
    map[Lit("exampleId") := Lit("string"),
        Lit("inputTokenCount") := Lit("integer"),
        Lit("outputTokenCount") := Lit("integer"),
        Lit("split") := Lit("string")]
  }

  function DefaultShape(): Shape {
    Shape(1, SyntheticSchema(), None)
  }

  function FixtureId(): Text {
    Lit("fixture:synthetic-tiny-v1")
  }

  /** `dataset_transition` */
  function ReviewTransition(current: ReviewStatus, target: ReviewStatus): (r: Result<ReviewStatus>) {
    if current == target then Ok(current)
    else if current == Registered && target == PendingReview then Ok(target)
    else if current == PendingReview && (target == Approved || target == Rejected) then Ok(target)
    else Err(InvalidTransition)
  }

  /** `validate_synthetic_dataset_shape`: why a shape is refused, if it is. */
  function Verdict(forbidden: LabelTest, shape: Shape): (r: Option<Reason>) {
    if shape.parseReason.Some? then shape.parseReason
    else if !(1 <= shape.rowCount <= 10_000) then Some(SyntheticLimit)
    else if exists f :: f in shape.schema && (forbidden(f) || forbidden(shape.schema[f])) then Some(PolicyViolation)
    else if shape.schema != SyntheticSchema() then Some(SchemaMismatch)
    else None
  }

  /** `DatasetStore()`: only the fixture, approved from the start. */
  function InitialRegistry(now: int): Registry {
    map[FixtureId() := DatasetRecord(Approved, None, DefaultShape(), now, now)]
  }

  /** `register_shape` */
  function RegisterShape(ds: Registry, id: Text, shape: Shape, now: int): (r: Result<Registry>) {
    if !TrainingDatasetId(id) then Err(ValidationError)
    else if id in ds then
      if ds[id].status == Approved || ds[id].status == Rejected then Err(Conflict) else Ok(ds)
    else Ok(ds[id := DatasetRecord(Registered, None, shape, now, now)])
  }

  /** `submit_for_review`: pending and decided in one step. */
  function Submit(forbidden: LabelTest, ds: Registry, id: Text, now: int): (r: Result<Registry>) {
    if !TrainingDatasetId(id) then Err(ValidationError)
    else if id !in ds then Err(NotFound)
    else if ReviewTransition(ds[id].status, PendingReview).Err? then Err(InvalidTransition)
    else
      var verdict := Verdict(forbidden, ds[id].shape);
      Ok(ds[id := ds[id].(status := if verdict.None? then Approved else Rejected, reason := verdict, updatedAt := now)])
  }

  /** `approve` */
  function Approve(ds: Registry, id: Text, now: int): (r: Result<Registry>) {
    if !TrainingDatasetId(id) then Err(ValidationError)
    else if id !in ds then Err(NotFound)
    else if ReviewTransition(ds[id].status, Approved).Err? then Err(InvalidTransition)
    else Ok(ds[id := ds[id].(status := Approved, updatedAt := now)])
  }

  /** `reject` */
  function Reject(ds: Registry, id: Text, reason: Reason, now: int): (r: Result<Registry>) {
    if !TrainingDatasetId(id) then Err(ValidationError)
    else if id !in ds then Err(NotFound)
    else if ds[id].status == Rejected then Ok(ds)
    else if ReviewTransition(ds[id].status, Rejected).Err? then Err(InvalidTransition)
    else Ok(ds[id := ds[id].(status := Rejected, reason := Some(reason), updatedAt := now)])
  }

  /** `is_approved` */
  predicate IsApproved(ds: Registry, id: Text) {
    TrainingDatasetId(id) && id in ds && ds[id].status == Approved
  }

  // --- Decisions are determined by shape and permanent

  /** At rest: decided by the verdict on its shape, or not yet submitted. */
  predicate RecordDecided(forbidden: LabelTest, r: DatasetRecord) {
    && r.status != PendingReview
    && (r.status == Approved ==> Verdict(forbidden, r.shape).None? && r.reason.None?)
    && (r.status == Rejected ==> Verdict(forbidden, r.shape).Some? && r.reason == Verdict(forbidden, r.shape))
  }

  predicate Decided(forbidden: LabelTest, ds: Registry) {
    forall id :: id in ds ==> RecordDecided(forbidden, ds[id])
  }

  /** Datasets stay registered with their shapes, and decisions stay as they are. */
  predicate DecisionsStand(ds: Registry, later: Registry) {
    forall id :: id in ds ==>
      && id in later
      && later[id].shape == ds[id].shape
      && (ds[id].status == Approved || ds[id].status == Rejected ==>
            later[id].status == ds[id].status && later[id].reason == ds[id].reason)
  }

  /** The labels of the synthetic schema pass the label test. */
  predicate SchemaAllowed(forbidden: LabelTest) {
    && !forbidden(Lit("exampleId")) && !forbidden(Lit("inputTokenCount")) && !forbidden(Lit("outputTokenCount"))
    && !forbidden(Lit("split")) && !forbidden(Lit("string")) && !forbidden(Lit("integer"))
  }

  lemma InitialDecided(forbidden: LabelTest, now: int)
    requires SchemaAllowed(forbidden)
    ensures Decided(forbidden, InitialRegistry(now))
  {
    var schema := SyntheticSchema();
    forall f | f in schema
      ensures !forbidden(f) && !forbidden(schema[f])
    {
      assert f == Lit("exampleId") || f == Lit("inputTokenCount") || f == Lit("outputTokenCount") || f == Lit("split");
    }
    assert Verdict(forbidden, DefaultShape()).None?;
  }

  lemma RegisterDecided(forbidden: LabelTest, ds: Registry, id: Text, shape: Shape, now: int)
    requires Decided(forbidden, ds) && RegisterShape(ds, id, shape, now).Ok?
    ensures Decided(forbidden, RegisterShape(ds, id, shape, now).value)
    ensures DecisionsStand(ds, RegisterShape(ds, id, shape, now).value)
  {
    hide Verdict, TrainingDatasetId;
  }

  /** Submitting decides by the verdict: approved if there is none, rejected with it otherwise. */
  lemma SubmitDecides(forbidden: LabelTest, ds: Registry, id: Text, now: int)
    requires Decided(forbidden, ds) && Submit(forbidden, ds, id, now).Ok?
    ensures var t := Submit(forbidden, ds, id, now).value;
            && Decided(forbidden, t) && DecisionsStand(ds, t)
            && id in t && t[id].reason == Verdict(forbidden, ds[id].shape)
            && (t[id].status == Approved <==> Verdict(forbidden, ds[id].shape).None?)
  {
    hide Verdict, TrainingDatasetId;
  }

  /** Manual approval never changes a decision: it succeeds only where the dataset is approved already. */
  lemma ApproveIsIdle(forbidden: LabelTest, ds: Registry, id: Text, now: int)
    requires Decided(forbidden, ds)
    ensures Approve(ds, id, now).Ok? <==> IsApproved(ds, id)
    ensures Approve(ds, id, now).Ok? ==> Approve(ds, id, now).value == ds[id := ds[id].(updatedAt := now)]
    ensures Approve(ds, id, now).Ok? ==>
              Decided(forbidden, Approve(ds, id, now).value) && DecisionsStand(ds, Approve(ds, id, now).value)
  {
    hide Verdict, TrainingDatasetId;
  }

  /** Manual rejection never changes anything: it succeeds only where the dataset is rejected already. */
  lemma RejectIsIdle(forbidden: LabelTest, ds: Registry, id: Text, reason: Reason, now: int)
    requires Decided(forbidden, ds)
    ensures Reject(ds, id, reason, now).Ok? <==> TrainingDatasetId(id) && id in ds && ds[id].status == Rejected
    ensures Reject(ds, id, reason, now).Ok? ==> Reject(ds, id, reason, now).value == ds
  {
    hide Verdict, TrainingDatasetId;
  }

  lemma DecisionsStandTransitive(a: Registry, b: Registry, c: Registry)
    requires DecisionsStand(a, b) && DecisionsStand(b, c)
    ensures DecisionsStand(a, c)
  {
  }

  lemma ApprovedStands(ds: Registry, later: Registry, id: Text)
    requires DecisionsStand(ds, later) && IsApproved(ds, id)
    ensures IsApproved(later, id)
  {
  }
}
