# Scooling Lab training API: a model and its proofs

The repository serves training jobs: a client submits a request for an approved dataset, the service queues a
job, a worker runs it, and the result is kept as an artifact with provenance until it is deleted or its retention
policy runs out. This project models that behaviour in Dafny and proves what holds of it.

The model has four layers.

* **Texts and values.** `Texts`, `JsonNumbers`, `JsonStrings`, `Json`, `JsonFacts`, `Utf8`, `Base64` model what Python
  writes and reads: `json.dumps` with `ensure_ascii` in its compact, default and indented layouts, `json.loads`
  (section 7 of RFC 8259 for strings), UTF-8, and base64url without padding (section 5 of RFC 4648, Appendix C of
  RFC 7515). A text is a sequence of code points in which, as in a Python `str`, lone surrogates may stand. The
  round trip of any value is proved together with the one case in which it is not exact: a string in which a
  high surrogate stands right before a low one comes back with the two merged.
* **Formats built on them.** `Contracts` and `RequestForms` (requests, their fingerprint, retention, provenance, and
  which JSON objects are requests for what), `JsonLines` and `LineReading` (training rows at ingest and in the worker),
  `Tokens` and `TokenChecks` (signed claims, sections 4.1.4 and 4.1.6 of RFC 7519, volume content tokens, and which of
  all texts a client may send are accepted), `Ingest` (a package from the body of the request to the rows the worker
  loads), `Envelopes` (what the service and the isolated training process tell each other), `ResultTexts` (what the
  hashes of a fixture result stand for), `Persistence` (the store file), `Views` (what clients read off the answers)
  and `HashAbsence` (the search for deleted hashes). `Samples` holds known forms of the encodings.
* **The job store.** `StateMachine`, `Jobs`, `JobFacts`, `JobInvariants`, `Sorting` describe the store as a value: the
  records in insertion order and what each operation makes of them. `TrainingStores` is the store as the program has
  it, a class over mutable records with its loops, each method proved against that description; `Restarts` says what
  survives a restart. `Datasets` and `DatasetStores` do the same for the dataset review machine.
* **The service, twice.** `Protocol` is a transition system over atomic store calls with any number of requests in
  flight: a list of events is one interleaving. `ProtocolInvariants` and `ProtocolTheorems` prove what every
  interleaving keeps, `ProtocolFreshStart` what holds besides while no store has been loaded, `ProtocolLimits` and
  `ProtocolWitnesses` treat two properties that are not kept. `Lifetimes` strings interleavings together with restarts
  between them. `Workers` and `Serial` describe requests served one at a time; `SerialFacts`, `SerialTheorems` and
  `SerialResults` prove storage agreement, quiescence and the life of tombstones over all runs of requests, `Dates`
  that instants stay writable, and `SharedHashes` why deleting one fixture job is never verified while another is
  stored. `TrainingServices` is the service and its workers as classes, each method proved against one serial request,
  and `RequestHandlers` is the server's dispatch to it, over whole sessions. `Outcomes` and `RequestRules` say once
  more, independently of all functions the service is composed of, how each request is answered: by the records, the
  objects and the environment. `RequestRules` proves that the service answers just so, `CalmRuns` that it does after
  any requests and restarts, `StoredContents` where the content of every object comes from, and `SerialInterleavings`
  that serial service is an instance of the protocol. `StoreFiles` says what the store file holds
  along a run, serial or interleaved, and that a restart at any point of it is invisible.

## Assumptions

* SHA-256 and HMAC are arbitrary functions (`Sha`, `Mac`) given as parameters. Where distinct digests matter the
  assumption is a named hypothesis about the texts at hand: `ToldApart` for the fingerprints and retry seeds of the
  jobs in one store, `DistinctAttempts` for the first attempts of one retry search. `OwnJobUnlessClash` needs none.
* Instants are whole seconds. How they are written and read is a parameter (`Calendar`); `Faithful` says that instants
  of the years 1 to 9999 are written in ASCII and read back as themselves. Results about restarts ask that the instants
  in the store are among those (`AllDated`), which runs of requests dated so keep (`Dates.RunKeepsDates`).
* What the environment decides is a parameter: the clock (one reading for each operation), how the training process
  ends, whether a worker left a tarball, and the tests of dataset labels and row texts for forbidden terms.

## Where code and documentation part

* The store and the service are said to cap how many jobs are in the running state at once
  (`src/scooling_lab/store.py:284-285`, `src/scooling_lab/service.py:42-43`). The code caps only the worker calls in
  flight: `update_status` does not look at capacity and promotion takes no permit. The model follows the code;
  `ProtocolLimits.RunningBoundExactly` says which steps break the cap and `ProtocolWitnesses.RunningBoundBroken`
  gives a run that does.
* Object keys are not written to the store file, so after a restart no record points to its stored object
  (`SerialResults.RestartOrphansObjects`).

## Model

| member | source | states |
|---|---|---|
| JsonNumbers.NumberRoundTrip | src/scooling_lab/store.py:679-686 | a written integer or shortest-form float reads back as itself, in fixed and in scientific notation |
| JsonStrings.StringRoundTrip | src/scooling_lab/package_ingest.py:45-48 | a written string reads back with its surrogate pairs merged, for every text: quotes, backslashes, control characters, characters beyond the basic plane |
| JsonStrings.JoinedExactly | src/scooling_lab/package_ingest.py:45-48 | merging changes a text exactly when a high surrogate stands right before a low one |
| JsonStrings.ParsedPairFree | src/scooling_lab/gpu_worker.py:154-155 | no string read from decoded text holds such a pair |
| Json.LoadsDumps | src/scooling_lab/store.py:679-686 | reading undoes writing for every value and layout, with blanks behind the text |
| JsonFacts.RoundTripExactly | src/scooling_lab/store.py:679-686 | a value comes back unchanged if and only if none of its strings or keys holds a surrogate pair |
| JsonFacts.DumpsInjective | src/scooling_lab/contracts.py:138-149 | values without such pairs that are written alike are the same |
| JsonFacts.LoadedValuesRoundTrip | src/scooling_lab/gpu_worker.py:151-155 | whatever was read from decoded text survives writing and reading |
| JsonFacts.PrintFit | src/scooling_lab/package_ingest.py:45-48 | what is written is ASCII, and printable on one line unless indented |
| JsonFacts.WrittenStrings | src/scooling_lab/store.py:513-535 | a plain string anywhere in a value is a substring of what is written for it |
| Samples.ListSamples | src/scooling_lab/store.py:679-686 | the separators and the indentation of lists in the three layouts |
| Samples.ObjectSamples | src/scooling_lab/store.py:679-686 | the same for objects |
| Samples.EscapeSamples | src/scooling_lab/package_ingest.py:45-48 | known escapes of a quote, a line break and a letter beyond ASCII |
| Samples.PairSample | src/scooling_lab/package_ingest.py:45-48 | a known pair of escapes for a character beyond the basic plane |
| Utf8.EncodeRoundTrip | src/scooling_lab/package_ingest.py:48 | encoding fails exactly on surrogates, and decoding undoes it otherwise |
| Samples.Utf8Samples | src/scooling_lab/package_ingest.py:48 | known encodings of one to four bytes |
| JsonLines.LoadTrainJsonl | src/scooling_lab/gpu_worker.py:143-165 | the worker's loop over the lines computes the rows of the file, or the error for a missing, unreadable or empty one |
| JsonLines.JsonlRoundTrip | src/scooling_lab/package_ingest.py:40-48 | loading the canonical bytes of any non-empty list of rows gives those rows in order, surrogate pairs merged |
| JsonLines.JsonlExactly | src/scooling_lab/gpu_worker.py:143-165 | the rows come back unchanged if and only if no field holds a surrogate pair |
| JsonLines.CanonicalBytesInjective | src/scooling_lab/package_ingest.py:40-48 | different rows have different canonical bytes |
| JsonLines.IngestedRowsRoundTrip | src/scooling_lab/package_ingest.py:112-135 | rows accepted from the bytes of a request body are exactly what the worker later loads |
| LineReading.LinesBreak | src/scooling_lab/gpu_worker.py:150-152 | any text falls into lines at each break, carriage return and line feed together being one |
| LineReading.NewlinesAreUniversal | src/scooling_lab/gpu_worker.py:151 | any carriage return in the file reads as a line feed |
| LineReading.LinesCompose | src/scooling_lab/gpu_worker.py:149-165 | whatever the lines, the rows of some lines and then others are the rows of the ones and then the others, and an error in either is one of the whole |
| LineReading.OneLine | src/scooling_lab/gpu_worker.py:153-162 | a blank line has no row, an object is one, anything else is an error |
| Ingest.IngestExactly | src/scooling_lab/service.py:115-139 | a package is accepted if and only if its body is the JSON of rows and a scope of the right shape, the header bears an authentic token for the dataset, the dataset is registered and not rejected, and there is a package root; otherwise nothing is written |
| Ingest.IngestWrites | src/scooling_lab/package_ingest.py:112-180 | then the dataset's file, and no other, is replaced by one from which the worker loads, item by item and key by key, the texts the body sent; the answer has that file's digest, the number of items and the scope |
| Ingest.IngestRefusal | src/scooling_lab/service.py:115-139 | which error a refused package is answered with |
| Ingest.PackageExactly | src/scooling_lab/package_ingest.py:51-135 | payloads are parsed exactly when they have the known keys, rows of the right shape and a scope, and anything else is a validation error |
| Ingest.PackageRoot.Ingest | src/scooling_lab/service.py:115-139 | the method leaves the files and gives the answer described |
| Ingest.PackageRoot.Write | src/scooling_lab/package_ingest.py:149-180 | the file of one dataset is replaced by the canonical bytes, whose digest is returned |
| Base64.DecodeEncode | src/scooling_lab/server_auth.py:39-45 | decoding undoes encoding for every byte string, padded or not |
| Samples.Base64Samples | src/scooling_lab/server_auth.py:39-45 | known encodings of section 10 of RFC 4648 |
| Samples.UrlAlphabetSamples | src/scooling_lab/server_auth.py:39-45 | another, and the two letters of the URL alphabet |
| Tokens.SplitsInThree | src/scooling_lab/server_auth.py:100-104 | a signed token splits at its dots into just its three segments |
| Tokens.IngestTokenWindow | src/scooling_lab/server_auth.py:48-160 | an ingest token the program signed is accepted if and only if the dataset is its own, the issuer has no surrogate pair, and now lies between t0-60 and t0+ttl+60 |
| Tokens.DownloadTokenWindow | src/scooling_lab/download_auth.py:44-128 | the same for download tokens, for their own job and artifact only |
| TokenChecks.IngestAuthExactly | src/scooling_lab/server_auth.py:88-160 | of all headers, just those are accepted for a subject that bear a token of three segments, the third the keyed digest of the first two, the first a header for HS256, the second claims of the issuer for the dataset and the subject within the time; and how the others are refused |
| TokenChecks.DownloadAuthExactly | src/scooling_lab/download_auth.py:88-128 | the same for downloads, for the job and artifact that the signed claims name |
| Tokens.StorageKeyInjective | src/scooling_lab/artifact_storage.py:38-43 | object keys are equal exactly for the same job and artifact |
| Tokens.VolumeTokenWindow | src/scooling_lab/artifact_storage.py:246-309 | a content token gives its key back if and only if job and artifact match and now is at most exp+60 |
| Tokens.VolumeTokenKey | src/scooling_lab/artifact_storage.py:126-147 | for the key the backend made it gives back just that key |
| TokenChecks.VolumeAuthExactly | src/scooling_lab/artifact_storage.py:275-309 | of all texts, just those give a key out whose last part is the keyed digest of the payload before it, which names job, artifact and key and has not run out |
| TokenChecks.VolumeRefusal | src/scooling_lab/artifact_storage.py:275-309 | how the others are refused |
| Envelopes.EnvelopeIsAccepted | src/scooling_lab/gpu_worker.py:380-416 | the training process accepts the envelope of every valid request for its model and reads from it the same parameters and policy |
| Envelopes.OutputIsTaken | src/scooling_lab/gpu_worker.py:496-536 | the reported hashes reach the worker unchanged and make a run that succeeds |
| Envelopes.OutputIsReported | src/scooling_lab/gpu_worker.py:496-536 | so an isolated run that writes digests has the report its job succeeds with |
| Envelopes.OutputExactly | src/scooling_lab/gpu_worker.py:520-536 | a text is taken for a result exactly when it is an object with just the five texts, and the result says what they say |
| Contracts.ReadRetention | src/scooling_lab/retention.py:78-103 | an accepted policy is within the bounds of its class |
| Contracts.ReadParams | src/scooling_lab/contracts.py:237-291 | accepted parameters are within bounds and have the dry-run flag their model and dataset ask for |
| Contracts.FromMapping | src/scooling_lab/contracts.py:93-133 | an accepted request is valid in every field |
| Contracts.RequestRoundTrip | src/scooling_lab/contracts.py:93-133 | validating the written form of a valid request gives the same request |
| RequestForms.FormExactly | src/scooling_lab/contracts.py:93-133 | a JSON object is accepted as a request exactly when what stands under its keys asks for just that one, defaults included; anything else is a validation error |
| RequestForms.PolicyExactly | src/scooling_lab/retention.py:78-103 | no policy asks for thirty days, a class alone for its own time, and a time must be within the bounds of the class |
| RequestForms.ParamsExactly | src/scooling_lab/contracts.py:237-291 | the parameters accepted, each as it stands, and nothing besides |
| Contracts.FingerprintInjective | src/scooling_lab/contracts.py:135-149 | accepted requests with equal fingerprints are equal in every field |
| StateMachine.ForwardIsReachable | src/scooling_lab/state_machine.py:11-34 | the forward order on statuses is reachability in the transition table |
| StateMachine.ForwardAntisymmetric | src/scooling_lab/state_machine.py:11-34 | the table has no cycles |
| JobFacts.PromotionIsFifo | src/scooling_lab/store.py:561-574 | promotion starts exactly the first min(free slots, queued) queued jobs by insertion, keeps the active count, never passes the limit by itself and leaves no free slot or no queued job |
| JobFacts.FreedSlotIsReused | src/scooling_lab/store.py:312-325 | when a running job ends, exactly the queued jobs that then find a slot are started, first come first served |
| JobFacts.LeastFreeUnique | src/scooling_lab/store.py:576-585 | the retry search stops at the least free attempt |
| JobFacts.RetryAttemptExists | src/scooling_lab/store.py:576-585 | it stops if and only if some attempt is free |
| JobFacts.RetrySearchTerminates | src/scooling_lab/store.py:576-585 | when the digests of the first jobs+1 attempts differ it stops within that many |
| JobFacts.RetrySearchHangs | src/scooling_lab/store.py:576-585 | without that it may never stop: if all attempts collide with one stored job it does not |
| JobFacts.SweepIsExact | src/scooling_lab/store.py:457-481 | a sweep deletes exactly the succeeded jobs holding an artifact with now at or past created+ttl and leaves every other record as it was |
| JobFacts.SweepAgain | src/scooling_lab/store.py:457-481 | a second sweep at the same instant changes nothing |
| JobFacts.SweepsCompose | src/scooling_lab/store.py:457-481 | sweeping early and late deletes what sweeping late deletes |
| JobInvariants.MoveOk | src/scooling_lab/store.py:361-379 | a move along the table keeps every record in order and moves all statuses forward, promotions included |
| JobInvariants.RegisterOk | src/scooling_lab/store.py:381-396 | registering keeps artifact ids distinct and the provenance that of the last artifact |
| JobInvariants.SetStorageKeyOk | src/scooling_lab/store.py:398-419 | setting a key keeps the record in order and its status, request and lineage |
| JobInvariants.DeleteArtifactOk | src/scooling_lab/store.py:483-504 | deletion keeps the store in order and is a forward move |
| Sorting.SortByIdSorts | src/scooling_lab/store.py:672-676 | records by id: the same records, ids strictly ascending |
| Datasets.SubmitDecides | src/scooling_lab/dataset_review.py:306-323 | submitting approves exactly the shapes the validator accepts and rejects others with its verdict; nothing stays pending and no earlier decision changes |
| Datasets.ApproveIsIdle | src/scooling_lab/dataset_review.py:325-333 | manual approval succeeds exactly on approved datasets and changes no decision |
| Datasets.RejectIsIdle | src/scooling_lab/dataset_review.py:335-348 | manual rejection succeeds exactly on rejected datasets and changes nothing |
| Datasets.RegisterDecided | src/scooling_lab/dataset_review.py:287-304 | registering keeps every decision |
| Datasets.InitialDecided | src/scooling_lab/dataset_review.py:262-274 | the preapproved fixture passes its own validator |
| DatasetStores.DatasetStore.SubmitForReview | src/scooling_lab/dataset_review.py:306-323 | the method does just that to the registry and keeps all decisions |
| DatasetStores.DatasetStore.RegisterShape | src/scooling_lab/dataset_review.py:287-304 | as described: conflict for decided ids, the existing record for others |
| DatasetStores.DatasetStore.Approve | src/scooling_lab/dataset_review.py:325-333 | keeps decisions determined by shapes |
| DatasetStores.DatasetStore.Reject | src/scooling_lab/dataset_review.py:335-348 | keeps decisions determined by shapes |
| ProtocolInvariants.NextKeeps | src/scooling_lab/service.py:274-305 | every atomic step of any request keeps the invariant of store, datasets, requests in flight and permits, and moves jobs and decisions forward only |
| ProtocolInvariants.RunKeeps | src/scooling_lab/service.py:274-305 | so does every interleaving of any length |
| ProtocolFreshStart.RunStaysFresh | src/scooling_lab/service.py:150-182 | from where retries stand behind their parents and every live job is for an approved dataset, every interleaving leads only to such systems |
| ProtocolTheorems.SucceededHasResult | src/scooling_lab/fake_worker.py:92-133 | in every interleaving a succeeded job has artifacts with distinct ids and valid provenance with the hashes of the last one |
| ProtocolTheorems.StatusesMoveForward | src/scooling_lab/store.py:361-379 | from any point of a run to any later one each job keeps its id and lineage and its status moves along a path of the table |
| ProtocolTheorems.QuotaAndPermits | src/scooling_lab/service.py:285-295 | queued plus running jobs never exceed the queue limit, worker calls in flight never exceed the permits, and permits are conserved |
| ProtocolTheorems.GateOutlivesCreation | src/scooling_lab/service.py:150-182 | every job that is no tombstone, retries included, is for a dataset approved now, whose shape validates |
| ProtocolTheorems.LineageIsForest | src/scooling_lab/store.py:327-350 | retry links lead to earlier jobs over without result, end at a root whose request every live descendant has, and never change |
| ProtocolTheorems.DecisionsFollowShapes | src/scooling_lab/dataset_review.py:287-348 | in every interleaving a dataset is approved or rejected, and for which reason, as the validator finds of its shape; nothing stays pending, and neither shape nor decision ever changes |
| ProtocolTheorems.OwnJobUnlessClash | src/scooling_lab/contracts.py:151-155 | whatever the digests do: a root with the id of a request is for that request in every field if and only if the two fingerprints do not clash, and a retry has the id only by a clash of its seed |
| ProtocolTheorems.OwnJob | src/scooling_lab/contracts.py:151-155 | when no fingerprint or retry seed of a job in the store clashes with a request's fingerprint, the job with its id is its own: no retry, and the same request unless it is a tombstone |
| ProtocolTheorems.CreateIsIdempotent | src/scooling_lab/store.py:297-310 | after any events creating a request again leads to the same job, changes nothing and needs no room in the queue, whatever the digests do |
| ProtocolLimits.RunningBoundExactly | src/scooling_lab/store.py:361-379 | a step keeps running jobs within the limit if and only if it does not mark a queued job running while no slot is free |
| ProtocolLimits.BareExactly | src/scooling_lab/store.py:389-396 | a step leaves failed and cancelled jobs and tombstones without artifacts if and only if it neither ends a job holding one nor registers one for a job already over |
| ProtocolLimits.RunWithinBoundExactly | src/scooling_lab/store.py:361-379 | along an interleaving running jobs stay within the limit at every point if and only if no event of it is such a step |
| ProtocolLimits.RunBareExactly | src/scooling_lab/store.py:389-396 | and no job is left with an artifact at any point if and only if no event of it is a step of those two kinds |
| ProtocolWitnesses.RunningBoundBroken | src/scooling_lab/service.py:274-295 | with one slot an interleaving from a fresh start, in which the fake worker does all it does for a job cancelled meanwhile, ends with two running jobs |
| ProtocolWitnesses.SamplesAreThree | src/scooling_lab/contracts.py:93-133 | three concrete requests are as that run needs them if and only if their ids differ |
| ProtocolWitnesses.BareBroken | src/scooling_lab/store.py:381-396 | an interleaving from a fresh start leaves a cancelled job with an artifact |
| Persistence.ReadProvenance | src/scooling_lab/provenance.py:60-98 | provenance that is read is valid |
| Persistence.ProvenanceRoundTrip | src/scooling_lab/provenance.py:46-72 | valid provenance reads back as itself |
| Persistence.ArtifactRoundTrip | src/scooling_lab/store.py:66-94 | an artifact reads back as itself but for its object key |
| Persistence.RecordRoundTrip | src/scooling_lab/store.py:175-268 | a record in order can be written and reads back as a restart leaves it |
| Persistence.LoadUndoesSave | src/scooling_lab/store.py:669-698 | loading the saved file gives all records by ascending id, without object keys and with bare tombstones |
| Restarts.RestartIsTransparent | src/scooling_lab/store.py:669-698 | a restart changes no view: job, artifacts, provenance and queue counts are as before, and what was not found is still not found |
| Restarts.RestartKeepsJobs | src/scooling_lab/store.py:684-698 | the loaded store is in order again and holds a job exactly when the saved one did |
| Restarts.SavedAgain | src/scooling_lab/store.py:669-682 | the first save after a restart writes the same file |
| Restarts.RestartIsExact | src/scooling_lab/store.py:669-698 | a restart gives back the very same store if and only if it is in order of ids, holds no object keys and its tombstones no artifacts |
| Views.JobIsShown | src/scooling_lab/store.py:147-173 | the view of a job shows its identity, state, instants and link, and its request but for the idempotency key unless it is a tombstone; of no other id is there a view |
| Views.ArtifactsAreShown | src/scooling_lab/store.py:66-78 | the list shows every artifact of a live job in order, its end included and its object key left out |
| Views.ShownExpiryIsActedOn | src/scooling_lab/store.py:605-615 | the end shown is the instant from which a read or a sweep buries the job |
| Views.QueueIsShown | src/scooling_lab/store.py:587-603 | the queue view gives the numbers of queued, running and all active jobs |
| Lifetimes.RestartKeepsInv | src/scooling_lab/store.py:684-698 | the invariant of interleavings holds again of the system a restart starts from: loaded jobs, fresh reviews, all permits, no request in flight |
| Lifetimes.LivedInv | src/scooling_lab/store.py:684-698 | so it holds after any number of processes one after another, each with any interleaving |
| Lifetimes.SafeAcrossRestarts | src/scooling_lab/store.py:327-350 | after any such lifetimes the quota holds, succeeded jobs have distinct artifacts and matching provenance, and retry links form a forest whose parents are stored and over |
| Lifetimes.JobsOutliveRestarts | src/scooling_lab/store.py:361-379 | no later event and no restart loses a job, changes its lineage or moves its status back |
| Lifetimes.GateSurvivesExactly | src/scooling_lab/service.py:73 | after a restart every live job is for an approved dataset if and only if all live jobs were for the fixture, since reviews are not saved |
| Lifetimes.OrderSurvivesExactly | src/scooling_lab/store.py:672-676 | retries still stand behind their parents after a restart if and only if each retry's id is above its parent's |
| HashAbsence.AbsenceIsSound | src/scooling_lab/store.py:506-535 | when absence is reported no record holds any digest among the given hashes in an artifact or provenance field |
| HashAbsence.AbsenceExactly | src/scooling_lab/store.py:506-535 | digests are reported absent if and only if there is one and no string, key or number among the views and saved forms of the records shows any of them |
| HashAbsence.PresenceIsReported | src/scooling_lab/store.py:506-535 | while any record holds one of the digests they are not reported absent |
| HashAbsence.AbsenceOfOthersIsVacuous | src/scooling_lab/store.py:506-535 | for a text with a character beyond ASCII absence is always reported |
| TrainingStores.SaveSucceeds | src/scooling_lab/store.py:175-214 | saving never meets a record without its request |
| TrainingStores.NothingToldExactly | src/scooling_lab/store.py:506-535 | a deletion is found verified exactly when none of the hashes of the artifact and its provenance that are not empty occurs in anything the store could tell, and there is one |
| TrainingStores.SweepReport | src/scooling_lab/store.py:457-481 | a sweep reports exactly the deleted jobs, ids strictly ascending |
| TrainingStores.LoadedOk | src/scooling_lab/store.py:684-698 | whatever file is loaded, ids are distinct and every record can be written |
| TrainingStores.TrainingJobRecord.constructor | src/scooling_lab/store.py:133-145 | a record object holds the given values |
| TrainingStores.TrainingJobStore.constructor | src/scooling_lab/store.py:274-295 | an empty store |
| TrainingStores.TrainingJobStore.Open | src/scooling_lab/store.py:274-295 | a store starts with what its file holds, or fails as loading does |
| TrainingStores.TrainingJobStore.Create | src/scooling_lab/store.py:297-310 | the store becomes what creation makes of it, and the file is current if anything changed |
| TrainingStores.TrainingJobStore.Cancel | src/scooling_lab/store.py:312-325 | the same for cancelling, promotion included |
| TrainingStores.TrainingJobStore.Retry | src/scooling_lab/store.py:327-350 | the same for retrying, with the least free attempt |
| TrainingStores.TrainingJobStore.NextRetryId | src/scooling_lab/store.py:576-585 | the search loop returns the id of the least free attempt |
| TrainingStores.TrainingJobStore.UpdateStatus | src/scooling_lab/store.py:361-379 | the same for the status changes the workers make |
| TrainingStores.TrainingJobStore.PromoteQueued | src/scooling_lab/store.py:561-574 | the promotion loop ends and computes the promotion of the whole store at once |
| TrainingStores.TrainingJobStore.RegisterArtifact | src/scooling_lab/store.py:381-396 | the same for registering a result |
| TrainingStores.TrainingJobStore.SetArtifactStorageKey | src/scooling_lab/store.py:398-419 | the same for setting an object key |
| TrainingStores.TrainingJobStore.EvaluateExpiry | src/scooling_lab/store.py:446-455 | an expired job becomes a tombstone and its object is deleted, any other job stays |
| TrainingStores.TrainingJobStore.DeleteExpired | src/scooling_lab/store.py:605-615 | the loop over artifacts finds the first expired one |
| TrainingStores.TrainingJobStore.SweepExpired | src/scooling_lab/store.py:457-481 | the loop over records by id computes the sweep of the whole store, its report, and deletes just the objects of expired jobs |
| TrainingStores.TrainingJobStore.DeleteArtifact | src/scooling_lab/store.py:483-504 | deletion, its receipt and its effect on storage; the receipt is verified exactly when the job was deleted before or the check of its hashes reports them absent, and then no record holds any digest of the deleted artifact |
| TrainingStores.TrainingJobStore.DeleteLocked | src/scooling_lab/store.py:617-645 | the cascade on one record, saved before the object is deleted |
| TrainingStores.TrainingJobStore.Save | src/scooling_lab/store.py:669-682 | the file holds what the store would be saved as |
| SerialFacts.Concluded | src/scooling_lab/gpu_worker.py:461-494 | the end of a run cannot raise: the job has succeeded with one artifact or failed with none, and others change only by promotion |
| SerialTheorems.JobRun | src/scooling_lab/gpu_worker.py:427-494 | a whole run ends the job unless the training process crashes, and only then raises |
| Outcomes.RunExactly | src/scooling_lab/service.py:274-320 | how a run on request ends: a GPU job succeeds exactly when the process ended with digests and a safe model id, with just what was reported and the policy of its request; a fixture job with the fixture's digest; the tarball, if any, becomes the object under the artifact's key; the queue moves up |
| Outcomes.ConcludedAs | src/scooling_lab/gpu_worker.py:461-494 | what the end of training makes of the record, for the report taken as given |
| Outcomes.MovesUp | src/scooling_lab/store.py:361-379 | when a running job ends, a queued one starts exactly when fewer jobs are ahead of it than slots are free |
| Outcomes.ActiveIsSize | src/scooling_lab/store.py:537-545 | the active count is the number of queued and running jobs |
| ResultTexts.ConfigTextExactly | src/scooling_lab/fake_worker.py:60-74 | configurations are hashed alike before digests exactly when model, policy and parameters are the same |
| ResultTexts.PlaceholderTextExactly | src/scooling_lab/fake_worker.py:34-50 | fixture artifacts exactly when job, dataset, model and parameters are |
| SerialTheorems.UploadAgrees | src/scooling_lab/service.py:307-320 | an upload leaves keys and objects in agreement |
| SerialTheorems.BuriedAgrees | src/scooling_lab/store.py:617-645 | deleting an artifact with its object leaves every other object where it belongs |
| SerialTheorems.ServeRests | src/scooling_lab/service.py:150-267 | every request keeps store, reviews, results and storage in agreement |
| SerialTheorems.RunKeepsRest | src/scooling_lab/service.py:150-267 | so does every run of requests, from any world in which they agree, and it moves every job forward only |
| SerialTheorems.ServeStaysFresh | src/scooling_lab/service.py:150-182 | a request to a service whose retries stand behind their parents and whose live jobs are for approved datasets leaves it so |
| RequestRules.CreateKeepsRule | src/scooling_lab/service.py:150-162 | a job is made exactly for an accepted request on an approved dataset with room in the queue, unless it is there already; then it is run |
| RequestRules.RetryKeepsRule | src/scooling_lab/store.py:327-350 | a retry is accepted exactly of a stored job that has failed or was cancelled, with room in the queue; it appends one queued job with the parent's request and link, and is refused without change otherwise, with the error that applies |
| RequestRules.CancelKeepsRule | src/scooling_lab/store.py:312-325 | a queued or running job ends cancelled, a running one makes room; others stay as they are |
| RequestRules.ReadKeepsRule | src/scooling_lab/store.py:446-455 | a read buries the job with its object exactly when its artifact is past its time |
| RequestRules.DeleteKeepsRule | src/scooling_lab/store.py:483-504 | a deletion buries exactly a succeeded job whose artifact is named, provenance and object included |
| RequestRules.SweepKeepsRule | src/scooling_lab/store.py:457-481 | a sweep buries exactly the jobs that are due and deletes exactly their objects |
| RequestRules.ReviewsKeepRules | src/scooling_lab/dataset_review.py:287-348 | registration, submission and manual decisions: when they are refused and how, and what they change otherwise |
| RequestRules.FlawExactly | src/scooling_lab/dataset_review.py:195-209 | what is wrong with a shape: malformed as registered, its size, a forbidden label, another schema, in this order |
| RequestRules.ServedByRule | src/scooling_lab/service.py:76-267 | a request to a store in order is answered in some way if and only if its rule says so |
| CalmRuns.RestartIsCalm | src/scooling_lab/store.py:684-698 | a restart keeps the store in order, whatever objects it orphans |
| CalmRuns.AlwaysByRule | src/scooling_lab/service.py:76-267 | after any requests and restarts every request is answered just as its rule says |
| SerialInterleavings.ServeLeads | src/scooling_lab/service.py:274-320 | what a request does alone, some interleaving of its atomic steps does |
| SerialInterleavings.RunsAreInterleavings | src/scooling_lab/service.py:274-320 | so runs of requests are among the interleavings, and what holds of all those holds of them |
| SerialResults.StorageIsExact | src/scooling_lab/service.py:307-320 | after any run of requests the stored objects are exactly those whose keys succeeded jobs hold, each held by one job |
| StoredContents.ServedContent | src/scooling_lab/service.py:307-320 | a request leaves every object as it was, but for the one it puts under the key of the job it made succeed, with the tarball it met |
| StoredContents.ContentsAreOfTheirRuns | src/scooling_lab/service.py:307-320 | so after any run of requests every object has the content of the tarball that the run of its job met |
| SerialResults.RequestsSettle | src/scooling_lab/service.py:274-305 | a request to a quiet store leaves it quiet if and only if it does not add a job no worker brings to an end; the added job has succeeded or failed, and succeeded for the fixture model |
| SerialResults.RunsAreQuietExactly | src/scooling_lab/service.py:274-305 | a run of requests has no active job left after any request if and only if none of them adds a job that no worker brings to an end |
| SerialResults.RunsAreQuiet | src/scooling_lab/service.py:274-305 | with workers on, a permit, and no crash of the training process for an added GPU job, no run of requests leaves an active job |
| SerialResults.FakeSucceeds | src/scooling_lab/fake_worker.py:100-133 | the provenance of a fake run always validates |
| SerialResults.TombstonesAreFinal | src/scooling_lab/store.py:483-504 | no request changes a tombstone, repeated deletion included |
| SerialResults.DeletionLeavesTombstone | src/scooling_lab/store.py:605-645 | a tombstone comes only from success; its provenance is kept by expiry and gone after deletion |
| SerialResults.TombstonesAreBare | src/scooling_lab/store.py:175-214 | after any run of requests a record is a tombstone exactly when its request is gone, and only succeeded jobs hold an artifact, exactly one |
| SerialResults.RestartOrphansObjects | src/scooling_lab/store.py:207 | after a restart storage agrees with the store exactly when there are no objects |
| SharedHashes.SharedHashIsReported | src/scooling_lab/store.py:483-535 | a deletion is not verified while another record holds one of the digests of what is deleted |
| SharedHashes.FixtureJobsAreMarked | src/scooling_lab/fake_worker.py:92-133 | after any run of requests every fixture job's provenance, a tombstone's included, has the digest of the fixture |
| SharedHashes.FixtureJobsShareADigest | src/scooling_lab/store.py:483-535 | so deleting the artifact of one fixture job is never verified while another one is stored, were it the tombstone of an expired job |
| Dates.RunKeepsDates | src/scooling_lab/store.py:361-419 | requests made early enough for every policy to run out within the calendar leave only instants of the calendar in the store |
| StoreFiles.ReopenedShowsTheSame | src/scooling_lab/store.py:274-295 | a process that starts from a current file, or from none when there are no jobs, shows every job, artifact and provenance and the queue counts as before |
| StoreFiles.RestartAfterAnyRequest | src/scooling_lab/store.py:669-698 | after every request of any run the file is what the jobs are saved as, unless there are none and it was never written, and a restart then is invisible |
| StoreFiles.RestartAfterAnyEvent | src/scooling_lab/store.py:669-698 | the same at every point of an interleaving, between the atomic steps of requests in flight, from a fresh start or after restarts |
| StoreFiles.ReopenedIsCurrent | src/scooling_lab/store.py:684-698 | a process that loads a current file has it current: the next run can be followed in the same way |
| TrainingServices.FakeTrainingWorker.RunJob | src/scooling_lab/fake_worker.py:85-133 | the worker leaves the store and the error of the run described as one piece, and the file current if anything changed |
| TrainingServices.IsolatedGpuWorker.RunJob | src/scooling_lab/gpu_worker.py:427-494 | the same for the isolated worker, however training ends; `Outcomes.RunExactly` says what that is |
| TrainingServices.TrainingApiService.UploadArtifacts | src/scooling_lab/service.py:307-320 | the upload loop does what uploading each artifact in order does, up to the first error, and leaves the file current if a key was set; `Outcomes.RunExactly` says what that is |
| TrainingServices.TrainingApiService.DispatchWorker | src/scooling_lab/service.py:297-305 | the model of the request decides which worker runs, and the file is current if anything changed |
| TrainingServices.TrainingApiService.RunIfConfigured | src/scooling_lab/service.py:274-295 | the job is run if it can be, the file is current if anything changed, and all permits are free again afterwards, errors included |
| TrainingServices.TrainingApiService.CreateAndRun | src/scooling_lab/service.py:159-162 | a request that has been let in: jobs, objects and error of the serial step, the job answered is the one with the request's id, and the file stays current |
| TrainingServices.TrainingApiService.CreateTrainingJob | src/scooling_lab/service.py:150-162 | jobs, objects and error are those of one serial create request, the job answered has the id of the request, and the file stays current |
| TrainingServices.TrainingApiService.RetryTrainingJob | src/scooling_lab/service.py:176-182 | the same for a retry; the job answered has the id of the least free attempt |
| TrainingServices.TrainingApiService.CancelTrainingJob | src/scooling_lab/service.py:170-174 | the same for a cancellation |
| TrainingServices.TrainingApiService.GetTrainingJob | src/scooling_lab/service.py:164-168 | the same for reading a job, which may expire it |
| TrainingServices.TrainingApiService.DeleteArtifact | src/scooling_lab/service.py:255-261 | the same for a deletion; the receipt is verified exactly when the job was deleted before or its hashes are reported absent, and then no record holds a digest of the deleted artifact |
| TrainingServices.TrainingApiService.SweepExpiredArtifacts | src/scooling_lab/service.py:263-267 | the same for a sweep, with its report |
| RequestHandlers.RequestHandler.Handle | src/scooling_lab/api.py:88-197 | whatever the request, jobs, objects, reviews and error are those of the request as one step, and the file is current if the jobs changed |
| RequestHandlers.RequestHandler.HandleAll | src/scooling_lab/api.py:88-197 | a session of requests leaves the world of the serial run, and along it the file follows the jobs as `StoreFiles` needs |

## Left out

- Retry: the class method asks that some attempt be free, because otherwise its search loop does not end and no method that ends could model it; `RetryAttemptExists` says exactly when that is, `RetrySearchTerminates` bounds the search, and the store as a value and the protocol say what happens otherwise (nothing).
- NextRetryId: asks the same, for the same reason.
- RetryTrainingJob: asks the same of the retry search.
- Handle: asks the same of a retry request.
- HandleAll: asks the same of every retry request of the session, at its turn.
- LoadUndoesSave: files are read only where their members have the types the program writes; the source turns other values into text, keeps unreadable instants as text, and the model refuses both.
- ReadOutput: members of the training process's output that are no text are refused here; the source turns them into text first.
- RestartIsTransparent: insertion order is lost on a restart, so promotion afterwards goes by id; `RestartIsExact` and `OrderSurvivesExactly` say when it is not lost, what promotion does afterwards is `PromotionIsFifo` for the new order.
- JSON literals `NaN` and `Infinity`, decimal literals that are not the shortest form of a double and integers too large for a float: a float is its shortest decimal form and is read as it stands.
- The scan of payload keys for forbidden terms: it can only refuse payloads that the list of allowed keys refuses with the same error.
- The pattern for URLs, paths and shell text: it can match no identifier over the allowed characters; in row texts it is a parameter.
- Parsing of dataset registrations and review requests, the markdown and licence checks, `bom.py`, `runtime_config.py`.
- IngestWrites: the manifest beside the training file is not modelled, nor the temporary directory it is moved from; a package is its training file.
- Size limits and headers of request bodies other than packages.
- HTTP, sockets, environment lookups, S3 requests and their signing; a storage backend is a map from keys to bytes that does not fail.
- A session through the request handlers is served one request at a time; requests in flight together are the protocol's.
- Training itself, tarballs, subprocess spawning, directory handling, hashing of files in chunks, and the clamping of training parameters in the training process.
- The contents of a dictionary are a sequence of records with distinct ids in insertion order; dataset records are values in a map, not objects, so aliasing of a returned dataset record is not captured.
- Locks: each store operation is one atomic step, as the reentrant lock makes it.
- Where an exception of the source would not be one of its own error codes, the model answers with the internal error.
- Messages and HTTP status codes of errors: only the error code is modelled.
