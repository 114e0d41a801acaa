/** The in-memory dataset store, proved against the review lifecycle. */
module DatasetStores {
  import opened Texts
  import opened Contracts
  import opened Datasets

  class DatasetStore {
    var datasets: Registry
    const forbidden: LabelTest

    constructor (forbidden: LabelTest, now: int)
      ensures this.forbidden == forbidden && datasets == InitialRegistry(now)
      ensures SchemaAllowed(forbidden) ==> Decided(forbidden, datasets)
    {
      this.forbidden := forbidden;
      datasets := InitialRegistry(now);
      new;
      if SchemaAllowed(forbidden) {
        InitialDecided(forbidden, now);
      }
    }

    method RegisterShape(id: Text, shape: Shape, now: int) returns (r: Result<DatasetRecord>)
      modifies this
      ensures old(Decided(forbidden, datasets)) ==> Decided(forbidden, datasets) && DecisionsStand(old(datasets), datasets)
      ensures var spec := Datasets.RegisterShape(old(datasets), id, shape, now);
              if spec.Ok? then datasets == spec.value && id in datasets && r == Ok(datasets[id])
              else datasets == old(datasets) && r == Err(spec.code)
    {
      if Decided(forbidden, datasets) && Datasets.RegisterShape(datasets, id, shape, now).Ok? {
        RegisterDecided(forbidden, datasets, id, shape, now);
      }
      if !TrainingDatasetId(id) {
        return Err(ValidationError);
      }
      if id in datasets {
        var existing := datasets[id];
        if existing.status == Approved || existing.status == Rejected {
          return Err(Conflict);
        }
        return Ok(existing);
      }
      var record := DatasetRecord(Registered, None, shape, now, now);
      datasets := datasets[id := record];
      return Ok(record);
    }

    method SubmitForReview(id: Text, now: int) returns (r: Result<DatasetRecord>)
      modifies this
      ensures old(Decided(forbidden, datasets)) ==> Decided(forbidden, datasets) && DecisionsStand(old(datasets), datasets)
      ensures var spec := Submit(forbidden, old(datasets), id, now);
              if spec.Ok? then datasets == spec.value && id in datasets && r == Ok(datasets[id])
              else datasets == old(datasets) && r == Err(spec.code)
    {
      hide Verdict, TrainingDatasetId;
      if Decided(forbidden, datasets) && Submit(forbidden, datasets, id, now).Ok? {
        SubmitDecides(forbidden, datasets, id, now);
      }
      if !TrainingDatasetId(id) {
        return Err(ValidationError);
      }
      if id !in datasets {
        return Err(NotFound);
      }
      var pending := ReviewTransition(datasets[id].status, PendingReview);
      if pending.Err? {
        return Err(pending.code);
      }
      datasets := datasets[id := datasets[id].(status := pending.value)];
      var reason := Verdict(forbidden, datasets[id].shape);
      var decided := ReviewTransition(datasets[id].status, if reason.None? then Approved else Rejected);
      datasets := datasets[id := datasets[id].(status := decided.value, reason := reason)];
      datasets := datasets[id := datasets[id].(updatedAt := now)];
      assert datasets == Submit(forbidden, old(datasets), id, now).value;
      return Ok(datasets[id]);
    }

    method Approve(id: Text, now: int) returns (r: Result<DatasetRecord>)
      modifies this
      ensures old(Decided(forbidden, datasets)) ==> Decided(forbidden, datasets) && DecisionsStand(old(datasets), datasets)
      ensures var spec := Datasets.Approve(old(datasets), id, now);
              if spec.Ok? then datasets == spec.value && id in datasets && r == Ok(datasets[id])
              else datasets == old(datasets) && r == Err(spec.code)
    {
      if Decided(forbidden, datasets) {
        ApproveIsIdle(forbidden, datasets, id, now);
      }
      if !TrainingDatasetId(id) {
        return Err(ValidationError);
      }
      if id !in datasets {
        return Err(NotFound);
      }
      var approved := ReviewTransition(datasets[id].status, Approved);
      if approved.Err? {
        return Err(approved.code);
      }
      datasets := datasets[id := datasets[id].(status := approved.value, updatedAt := now)];
      return Ok(datasets[id]);
    }

    method Reject(id: Text, reason: Reason, now: int) returns (r: Result<DatasetRecord>)
      modifies this
      ensures old(Decided(forbidden, datasets)) ==> Decided(forbidden, datasets) && DecisionsStand(old(datasets), datasets)
      ensures var spec := Datasets.Reject(old(datasets), id, reason, now);
              if spec.Ok? then datasets == spec.value && id in datasets && r == Ok(datasets[id])
              else datasets == old(datasets) && r == Err(spec.code)
    {
      if Decided(forbidden, datasets) {
        RejectIsIdle(forbidden, datasets, id, reason, now);
      }
      if !TrainingDatasetId(id) {
        return Err(ValidationError);
      }
      if id !in datasets {
        return Err(NotFound);
      }
      if datasets[id].status == Rejected {
        return Ok(datasets[id]);
      }
      var rejected := ReviewTransition(datasets[id].status, Rejected);
      if rejected.Err? {
        return Err(rejected.code);
      }
      datasets := datasets[id := datasets[id].(status := rejected.value, reason := Some(reason), updatedAt := now)];
      return Ok(datasets[id]);
    }
  }
}
