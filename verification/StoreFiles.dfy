/** The store file over whole runs: always what the store would be saved as, so that a restart at any point is invisible. */
module StoreFiles {
  import opened Texts
  import opened Json
  import opened Contracts
  import opened StateMachine
  import opened Jobs
  import opened JobInvariants
  import opened Sorting
  import opened Datasets
  import opened Persistence
  import opened Restarts
  import opened Protocol
  import opened ProtocolInvariants
  import opened ProtocolTheorems
  import opened ProtocolLimits
  import opened TrainingStores
  import Serial
  import SerialFacts
  import opened SerialTheorems
  import opened SerialResults
  import opened Dates

  /** What a job store keeps, as a value: its jobs and its file. */
  datatype Kept = Kept(jobs: Jobs, file: Option<Text>)

  /** Either nothing changed, or what is saved is current. */
  predicate SavedIfChanged(cal: Calendar, persistent: bool, before: Kept, after: Kept) {
    InSync(cal, persistent, after.jobs, after.file) || after == before
  }

  lemma NothingToSave(cal: Calendar, persistent: bool, k: Kept)
    ensures SavedIfChanged(cal, persistent, k, k)
  {
  }

  lemma SavedIfChangedTransitive(cal: Calendar, persistent: bool, a: Kept, b: Kept, c: Kept)
    requires SavedIfChanged(cal, persistent, a, b) && SavedIfChanged(cal, persistent, b, c)
    ensures SavedIfChanged(cal, persistent, a, c)
  {
    hide InSync;
  }

  /** The file is the print of the jobs; there is none only before the first job. */
  predicate FileCurrent(cal: Calendar, persistent: bool, k: Kept) {
    (k.file.None? && k.jobs == []) || InSync(cal, persistent, k.jobs, k.file)
  }

  lemma StaysCurrent(cal: Calendar, persistent: bool, before: Kept, after: Kept)
    requires FileCurrent(cal, persistent, before) && SavedIfChanged(cal, persistent, before, after)
    ensures FileCurrent(cal, persistent, after)
  {
    hide InSync;
  }

  /** Stores and files along a run whose file is current at the start. */
  predicate Kepts(cal: Calendar, history: seq<Kept>) {
    && |history| > 0 && FileCurrent(cal, true, history[0])
    && forall k :: 0 <= k < |history| - 1 ==> SavedIfChanged(cal, true, history[k], history[k + 1])
  }

  lemma {:induction false} AlwaysCurrent(cal: Calendar, history: seq<Kept>, k: nat)
    requires Kepts(cal, history) && k < |history|
    ensures FileCurrent(cal, true, history[k])
  {
    hide InSync;
    if k > 0 {
      AlwaysCurrent(cal, history, k - 1);
      assert SavedIfChanged(cal, true, history[k - 1], history[k - 1 + 1]);
      StaysCurrent(cal, true, history[k - 1], history[k]);
    }
  }

  /** The jobs a new process would start with. */
  function Reopened(cal: Calendar, file: Option<Text>): (s: Result<Jobs>) {
    if file.None? then Ok([]) else LoadedJobs(cal, file.value)
  }

  /** Every view of one job, and the queue counts, are the same in both stores. */
  predicate SameViews(cal: Calendar, cfg: Config, s: Jobs, t: Jobs, id: Text) {
    && JobView(cal, t, id) == JobView(cal, s, id)
    && ArtifactsView(cal, t, id) == ArtifactsView(cal, s, id)
    && ProvenanceView(t, id) == ProvenanceView(s, id)
    && QueueView(cfg, t) == QueueView(cfg, s)
  }

  /** A process that starts from a current file shows what the old one showed. */
  lemma ReopenedShowsTheSame(cal: Calendar, cfg: Config, k: Kept, id: Text)
    requires Faithful(cal) && JobsOk(k.jobs) && AllDated(k.jobs) && FileCurrent(cal, true, k)
    ensures var t := Reopened(cal, k.file);
            t.Ok? && SameViews(cal, cfg, k.jobs, t.value, id)
  {
    hide SavedText, LoadedJobs, JobsOk, AllDated, JobView, ArtifactsView, ProvenanceView, QueueView, Faithful;
    if k.file.Some? {
      RestartIsTransparent(cal, cfg, k.jobs, id);
    }
  }

  // --- Runs of requests

  /** The stores of a run of requests. */
  ghost predicate HistoryOf(setup: Serial.Setup, w: Serial.World, calls: seq<Serial.Call>, history: seq<Kept>) {
    && |history| == |calls| + 1
    && forall k: nat :: k <= |calls| ==> history[k].jobs == Serial.ServeAll(setup, w, calls[..k]).jobs
  }

  /**
   A restart after any request of any run is invisible: the file is then the print of the jobs, unless there are
   none and it was never written, and the process that loads it shows every job, artifact and provenance and the
   queue counts as they were.
   */
  lemma RestartAfterAnyRequest(setup: Serial.Setup, cal: Calendar, w: Serial.World, calls: seq<Serial.Call>,
      history: seq<Kept>,
      k: nat, id: Text)
    requires SerialFacts.Rest(setup, w) && AllDated(w.jobs) && Faithful(cal)
    requires forall i :: 0 <= i < |calls| ==> CallInTime(calls[i])
    requires HistoryOf(setup, w, calls, history) && Kepts(cal, history) && k <= |calls|
    ensures var jobs := Serial.ServeAll(setup, w, calls[..k]).jobs;
            var t := Reopened(cal, history[k].file);
            && SavedText(cal, jobs).Ok?
            && (history[k].file == Some(SavedText(cal, jobs).value) || (history[k].file.None? && jobs == []))
            && t.Ok? && SameViews(cal, setup.cfg, jobs, t.value, id)
  {
    hide Faithful, CallInTime, SavedText, LoadedJobs, SerialFacts.Rest, Serial.Serve, SameViews, JobsOk, AllDated,
      Reopened, Kepts;
    var u := Serial.ServeAll(setup, w, calls[..k]);
    RunKeepsRest(setup, w, calls[..k]);
    RunKeepsDates(setup, w, calls[..k]);
    JobsAtRest(setup, u);
    AlwaysCurrent(cal, history, k);
    Writes(cal, u.jobs);
    ReopenedShowsTheSame(cal, setup.cfg, history[k], id);
  }

  lemma JobsAtRest(setup: Serial.Setup, w: Serial.World)
    requires SerialFacts.Rest(setup, w)
    ensures JobsOk(w.jobs)
  {
  }

  lemma JobsWritable(s: Jobs)
    requires JobsOk(s)
    ensures AllWritable(s) && UniqueIds(s)
  {
    hide RecordOk;
    forall i | 0 <= i < |s|
      ensures Writable(s[i])
    {
      assert s[i] in s;
      OkIsWritable(s[i]);
    }
  }

  /** Jobs in order can be saved. */
  lemma Writes(cal: Calendar, s: Jobs)
    requires JobsOk(s)
    ensures SavedText(cal, s).Ok?
  {
    hide SavedText, JobsOk;
    JobsWritable(s);
    SaveSucceeds(cal, s);
  }

  lemma OkIsWritable(r: Record)
    requires RecordOk(r)
    ensures Writable(r)
  {
  }

  // --- Interleavings

  /**
   The same in the middle of any interleaving, from any system in which its invariant holds, so after earlier
   restarts too. Every event makes at most one store call: what is on disk at that moment shows every job as the
   store does, provided its instants are in the calendar.
   */
  lemma RestartAfterAnyEvent(cfg: Config, forbidden: LabelTest, cal: Calendar, s: System, events: seq<Event>,
      history: seq<Kept>, k: nat, id: Text)
    requires Inv(cfg, forbidden, s) && Faithful(cal) && |history| == |events| + 1 && k <= |events|
    requires forall j: nat :: j <= |events| ==> history[j].jobs == At(cfg, forbidden, s, events, j).jobs
    requires Kepts(cal, history) && AllDated(history[k].jobs)
    ensures var jobs := At(cfg, forbidden, s, events, k).jobs;
            var t := Reopened(cal, history[k].file);
            && SavedText(cal, jobs).Ok?
            && (history[k].file == Some(SavedText(cal, jobs).value) || (history[k].file.None? && jobs == []))
            && t.Ok? && SameViews(cal, cfg, jobs, t.value, id)
  {
    hide Faithful, SavedText, LoadedJobs, Next, SameViews, JobsOk, AllDated, Inv, Reopened, Kepts;
    RunKeeps(cfg, forbidden, s, events[..k]);
    JobsOfInv(cfg, forbidden, At(cfg, forbidden, s, events, k));
    AlwaysCurrent(cal, history, k);
    Writes(cal, history[k].jobs);
    ReopenedShowsTheSame(cal, cfg, history[k], id);
  }

  /** What a new process starts with is current again: the next run may start from there. */
  lemma ReopenedIsCurrent(cal: Calendar, k: Kept)
    requires Faithful(cal) && JobsOk(k.jobs) && AllDated(k.jobs) && FileCurrent(cal, true, k)
    ensures var t := Reopened(cal, k.file);
            && t.Ok? && FileCurrent(cal, true, Kept(t.value, k.file))
            && t.value == AfterRestart(k.jobs) && JobsOk(t.value) && AllDated(t.value)
  {
    hide SavedText, LoadedJobs, Faithful, SortById, RecordOk, Dated, Restarted;
    if k.file.Some? {
      LoadUndoesSave(cal, k.jobs);
      SavedAgain(cal, k.jobs);
    }
    RestartKeepsJobs(k.jobs, []);
    SortByIdSorts(k.jobs);
    var t := SortById(k.jobs);
    forall i | 0 <= i < |t|
      ensures Dated(Restarted(t[i]))
    {
      assert t[i] in k.jobs;
      RestartedDated(t[i]);
    }
  }

  lemma RestartedDated(r: Record)
    requires Dated(r)
    ensures Dated(Restarted(r))
  {
  }
}
