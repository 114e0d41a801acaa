/** Package ingest as one request: from the bytes of a body to the training file, and what the worker reads there. */
module Ingest {
  import opened Texts
  import opened JsonNumbers
  import opened JsonStrings
  import opened Json
  import opened JsonFacts
  import opened Utf8
  import opened Contracts
  import opened Datasets
  import opened JsonLines
  import opened Tokens
  import opened TokenChecks

  const MAX_BODY: int := 4_194_304
  const MAX_IDS: int := 256

  // --- The parts of a request

  /** `_read_json` with the limit for packages. */
  function ReadBody(body: Bytes): (r: Result<seq<Member>>) {
    if body == [] || |body| > MAX_BODY then Err(ValidationError)
    else if Decode(body).None? || Loads(Decode(body).value).None? then Err(MalformedJson)
    else if !Loads(Decode(body).value).value.Obj? then Err(ValidationError)
    else Ok(Loads(Decode(body).value).value.members)
  }

  /** A checked vault scope: its kind and the ids it lists, if any. */
  datatype Scope = Scope(kind: Text, ids: Option<seq<Text>>)

  /** `_SCOPE_ID_LIST_KEYS`, and no key for the kind that lists nothing. */
  function ListKey(kind: Text): (k: Option<Text>) {
    if kind == Lit("folder") then Some(Lit("folderIds"))
    else if kind == Lit("tag") then Some(Lit("tagIds"))
    else if kind == Lit("selection") then Some(Lit("noteIds"))
    else if kind == Lit("youtube") then Some(Lit("youtubeIds"))
    else None
  }

  predicate ScopeKey(k: Text) {
    || k == Lit("kind") || k == Lit("folderIds") || k == Lit("tagIds") || k == Lit("noteIds") || k == Lit("youtubeIds")
  }

  /** Each entry in order, as far as all are identifiers. */
  function ReadIds(vs: seq<Value>): (r: Result<seq<Text>>)
    ensures r.Ok? ==> |r.value| == |vs|
  {
    if vs == [] then Ok([])
    else
      var before, last := ReadIds(vs[..|vs| - 1]), vs[|vs| - 1];
      if before.Err? then before
      else if !last.Str? || !SafeIdentifier(last.s) then Err(ValidationError)
      else Ok(before.value + [last.s])
  }

  /** `validate_vault_scope` */
  function ReadScope(v: Option<Value>): (r: Result<Scope>) {
    if v.None? || !v.value.Obj? then Err(ValidationError)
    else
      var ms := v.value.members;
      var kind := GetText(ms, Lit("kind"));
      if exists m :: m in ms && !ScopeKey(m.key) then Err(ValidationError)
      else if kind.None? || (kind.value != Lit("all") && ListKey(kind.value).None?) then Err(ValidationError)
      else if kind.value == Lit("all")
              || (kind.value == Lit("youtube") && Get(ms, Lit("youtubeIds")).None?) then
        if exists m :: m in ms && m.key != Lit("kind") then Err(ValidationError) else Ok(Scope(kind.value, None))
      else
        var list := Get(ms, ListKey(kind.value).value);
        if list.None? || !list.value.Arr? || list.value.items == [] || |list.value.items| > MAX_IDS then Err(ValidationError)
        else
          var ids := ReadIds(list.value.items);
          if ids.Err? then Err(ids.code) else Ok(Scope(kind.value, Some(ids.value)))
  }

  predicate PackageKey(k: Text) {
    k == Lit("rows") || k == Lit("vaultScope") || k == Lit("rowCount")
  }

  /** `parse_package_ingest_request` */
  function ParsePackage(forbidden: Text -> bool, payload: seq<Member>): (r: Result<(seq<Row>, Scope)>) {
    if exists m :: m in payload && !PackageKey(m.key) then Err(ValidationError)
    else
      var rows, scope := IngestRows(forbidden, payload), ReadScope(Get(payload, Lit("vaultScope")));
      if rows.Err? then Err(rows.code) else if scope.Err? then Err(scope.code) else Ok((rows.value, scope.value))
  }

  /** The training file of each package. */
  type Packages = map<Text, Bytes>

  datatype IngestReceipt = IngestReceipt(datasetId: Text, datasetHash: Text, rowCount: nat, scope: Scope)

  /** What ingest depends on: signing, the pattern for row texts, the digest, and whether a package root is set. */
  datatype IngestSetup = IngestSetup(mac: Mac, secret: Text, issuer: Text, forbidden: Text -> bool, sha: Sha, rooted: bool)

  /** The digest of a file in UTF-8: `hash_file_bytes`. */
  function FileDigest(sha: Sha, file: Bytes): Option<Text> {
    if Decode(file).None? then None else Some(HexDigest(sha, Decode(file).value))
  }

  /** `POST /datasets/{id}/package`: the packages afterwards and the answer. */
  function IngestPackage(setup: IngestSetup, ds: Registry, packages: Packages, id: Text, authorization: Text,
      body: Bytes,
      now: int): (r: (Packages, Result<IngestReceipt>)) {
    var payload := ReadBody(body);
    if payload.Err? then (packages, Err(payload.code))
    else
      var subject := VerifyIngest(setup.mac, setup.secret, setup.issuer, authorization, id, now);
      if subject.Err? then (packages, Err(subject.code))
      else if !TrainingDatasetId(id) then (packages, Err(ValidationError))
      else if id !in ds then (packages, Err(NotFound))
      else if ds[id].status == Rejected then (packages, Err(Conflict))
      else
        var parsed := ParsePackage(setup.forbidden, payload.value);
        if parsed.Err? then (packages, Err(parsed.code))
        else if !setup.rooted then (packages, Err(InternalError))
        else
          var file := CanonicalBytes(parsed.value.0);
          if file.Err? then (packages, Err(file.code))
          else
            (packages[id := file.value],
             Ok(IngestReceipt(id, HexDigest(setup.sha, JoinedLines(parsed.value.0)), |parsed.value.0|, parsed.value.1)))
  }

  lemma SomeRows(forbidden: Text -> bool, payload: seq<Member>)
    requires ParsePackage(forbidden, payload).Ok?
    ensures ParsePackage(forbidden, payload).value.0 != []
  {
    hide ReadScope, PackageKey;
  }

  /** The package root on disk, and the request that writes there. */
  class PackageRoot {
    const setup: IngestSetup
    /** The training file of each dataset that has one. */
    var packages: Packages

    constructor (setup: IngestSetup)
      ensures this.setup == setup && packages == map[]
    {
      this.setup := setup;
      packages := map[];
    }

    /** `write_package_files`: the directory of the dataset is replaced as a whole. */
    method Write(id: Text, rows: seq<Row>) returns (r: Result<Text>)
      modifies this
      ensures if rows == [] then r == Err(ValidationError) && packages == old(packages)
              else
                && CanonicalBytes(rows).Ok? && packages == old(packages)[id := CanonicalBytes(rows).value]
                && r == Ok(HexDigest(setup.sha, JoinedLines(rows)))
    {
      hide CanonicalBytes, JoinedLines, HexDigest;
      if rows == [] {
        return Err(ValidationError);
      }
      JsonlRoundTrip(rows);
      packages := packages[id := CanonicalBytes(rows).value];
      return Ok(HexDigest(setup.sha, JoinedLines(rows)));
    }

    /** `POST /datasets/{id}/package`: as described, files and answer. */
    method Ingest(ds: Registry, id: Text, authorization: Text, body: Bytes, now: int) returns (r: Result<IngestReceipt>)
      modifies this
      ensures (packages, r) == IngestPackage(setup, ds, old(packages), id, authorization, body, now)
    {
      hide ReadBody, VerifyIngest, ParsePackage, CanonicalBytes, JoinedLines, HexDigest, TrainingDatasetId;
      var payload := ReadBody(body);
      if payload.Err? {
        return Err(payload.code);
      }
      var subject := VerifyIngest(setup.mac, setup.secret, setup.issuer, authorization, id, now);
      if subject.Err? {
        return Err(subject.code);
      }
      if !TrainingDatasetId(id) {
        return Err(ValidationError);
      }
      if id !in ds {
        return Err(NotFound);
      }
      if ds[id].status == Rejected {
        return Err(Conflict);
      }
      var parsed := ParsePackage(setup.forbidden, payload.value);
      if parsed.Err? {
        return Err(parsed.code);
      }
      if !setup.rooted {
        return Err(InternalError);
      }
      SomeRows(setup.forbidden, payload.value);
      var hash := Write(id, parsed.value.0);
      return Ok(IngestReceipt(id, hash.value, |parsed.value.0|, parsed.value.1));
    }
  }

  // --- What an acceptable body is, from its JSON alone

  /** The body is the JSON of an object within the size limit. */
  predicate Sent(body: Bytes, payload: seq<Member>) {
    && 1 <= |body| <= 4_194_304
    && Decode(body).Some? && Loads(Decode(body).value) == Some(Obj(payload))
  }

  /** Under the key stands a string of at most 16384 characters, free of the forbidden pattern. */
  predicate GoodField(forbidden: Text -> bool, item: Value, key: Text)
    requires item.Obj?
  {
    var v := Get(item.members, key);
    v.Some? && v.value.Str? && |v.value.s| <= 16_384 && !forbidden(v.value.s)
  }

  /** An object with just the three fields of a training row. */
  predicate GoodItem(forbidden: Text -> bool, item: Value) {
    && item.Obj?
    && (forall m :: m in item.members ==>
          m.key == Lit("input") || m.key == Lit("instruction") || m.key == Lit("output"))
    && GoodField(forbidden, item, Lit("input")) && GoodField(forbidden, item, Lit("instruction"))
    && GoodField(forbidden, item, Lit("output"))
  }

  /** The items sent as rows. */
  function SentItems(payload: seq<Member>): (items: seq<Value>) {
    var v := Get(payload, Lit("rows"));
    if v.Some? && v.value.Arr? then v.value.items else []
  }

  predicate GoodRows(forbidden: Text -> bool, payload: seq<Member>) {
    var items, declared := SentItems(payload), Get(payload, Lit("rowCount"));
    && 1 <= |items| <= 10_000
    && (forall i :: 0 <= i < |items| ==> GoodItem(forbidden, items[i]))
    && (declared.Some? && declared.value != Null ==> declared.value == Num(Int(|items|)))
  }

  predicate IdList(v: Option<Value>, ids: seq<Text>) {
    && v.Some? && v.value.Arr? && |v.value.items| == |ids| && 1 <= |ids| <= 256
    && forall i :: 0 <= i < |ids| ==> v.value.items[i] == Str(ids[i]) && SafeIdentifier(ids[i])
  }

  /** The scope is for everything, or lists ids under the key of its kind; all of YouTube needs no list. */
  predicate ScopeSays(v: Option<Value>, scope: Scope) {
    && v.Some? && v.value.Obj?
    && (forall m :: m in v.value.members ==>
          m.key in {Lit("kind"), Lit("folderIds"), Lit("tagIds"), Lit("noteIds"), Lit("youtubeIds")})
    && Get(v.value.members, Lit("kind")) == Some(Str(scope.kind))
    && if scope.ids.None? then
         && (scope.kind == Lit("all") || scope.kind == Lit("youtube"))
         && forall m :: m in v.value.members ==> m.key == Lit("kind")
       else
         || (scope.kind == Lit("folder") && IdList(Get(v.value.members, Lit("folderIds")), scope.ids.value))
         || (scope.kind == Lit("tag") && IdList(Get(v.value.members, Lit("tagIds")), scope.ids.value))
         || (scope.kind == Lit("selection") && IdList(Get(v.value.members, Lit("noteIds")), scope.ids.value))
         || (scope.kind == Lit("youtube") && IdList(Get(v.value.members, Lit("youtubeIds")), scope.ids.value))
  }

  ghost predicate Scoped(v: Option<Value>) {
    exists scope :: ScopeSays(v, scope)
  }

  function SentScope(payload: seq<Member>): Option<Value> {
    Get(payload, Lit("vaultScope"))
  }

  predicate KnownKeys(payload: seq<Member>) {
    forall m :: m in payload ==> m.key in {Lit("rows"), Lit("vaultScope"), Lit("rowCount")}
  }

  /** Just the keys of a package, rows of the right shape and a scope. */
  ghost predicate Acceptable(setup: IngestSetup, payload: seq<Member>) {
    KnownKeys(payload) && GoodRows(setup.forbidden, payload) && Scoped(SentScope(payload))
  }

  // --- Parsing, exactly

  lemma BodyExactly(body: Bytes, payload: seq<Member>)
    ensures ReadBody(body) == Ok(payload) <==> Sent(body, payload)
  {
    hide Decode, Loads;
  }

  /** A row is read from each item, field by field. */
  predicate RowOf(item: Value, r: Row) {
    && item.Obj?
    && Get(item.members, Lit("input")) == Some(Str(r.input))
    && Get(item.members, Lit("instruction")) == Some(Str(r.instruction))
    && Get(item.members, Lit("output")) == Some(Str(r.output))
  }

  lemma RowExactly(forbidden: Text -> bool, item: Value)
    ensures ReadRow(forbidden, item).Ok? <==> GoodItem(forbidden, item)
    ensures ReadRow(forbidden, item).Ok? ==> RowOf(item, ReadRow(forbidden, item).value)
    ensures ReadRow(forbidden, item).Err? ==> ReadRow(forbidden, item).code == ValidationError
  {
    hide Get;
  }

  lemma {:induction false} RowsExactly(forbidden: Text -> bool, items: seq<Value>)
    ensures ReadRows(forbidden, items).Ok? <==> forall i :: 0 <= i < |items| ==> GoodItem(forbidden, items[i])
    ensures ReadRows(forbidden, items).Ok? ==>
              forall i :: 0 <= i < |items| ==> RowOf(items[i], ReadRows(forbidden, items).value[i])
    ensures ReadRows(forbidden, items).Err? ==> ReadRows(forbidden, items).code == ValidationError
  {
    hide ReadRow, GoodItem, RowOf;
    if items != [] {
      RowExactly(forbidden, items[0]);
      RowsExactly(forbidden, items[1..]);
      forall i | 0 < i < |items|
        ensures items[i] == items[1..][i - 1]
      {
      }
    }
  }

  lemma IngestRowsExactly(forbidden: Text -> bool, payload: seq<Member>)
    ensures IngestRows(forbidden, payload).Ok? <==> GoodRows(forbidden, payload)
    ensures IngestRows(forbidden, payload).Ok? ==>
              var rows, items := IngestRows(forbidden, payload).value, SentItems(payload);
              && |rows| == |items| && items == Get(payload, Lit("rows")).value.items
              && (forall i :: 0 <= i < |items| ==> RowOf(items[i], rows[i]))
    ensures IngestRows(forbidden, payload).Err? ==> IngestRows(forbidden, payload).code == ValidationError
  {
    hide Get, ReadRows, GoodItem, RowOf;
    RowsExactly(forbidden, SentItems(payload));
  }

  lemma {:induction false} IdsExactly(vs: seq<Value>, ids: seq<Text>)
    ensures ReadIds(vs) == Ok(ids) <==>
            |vs| == |ids| && forall i :: 0 <= i < |ids| ==> vs[i] == Str(ids[i]) && SafeIdentifier(ids[i])
    ensures ReadIds(vs).Err? ==> ReadIds(vs).code == ValidationError
    decreases |vs|
  {
    hide SafeIdentifier;
    if vs != [] {
      var n := |vs| - 1;
      IdsExactly(vs[..n], if |ids| > 0 then ids[..|ids| - 1] else []);
      if |ids| > 0 {
        assert ids == ids[..|ids| - 1] + [ids[|ids| - 1]];
      }
    }
  }

  lemma KindsDiffer()
    ensures Lit("all") != Lit("youtube") && Lit("folder") != Lit("tag") && Lit("folder") != Lit("selection")
    ensures Lit("folder") != Lit("youtube") && Lit("tag") != Lit("selection") && Lit("tag") != Lit("youtube")
    ensures Lit("selection") != Lit("youtube") && Lit("all") != Lit("folder") && Lit("all") != Lit("tag")
    ensures Lit("all") != Lit("selection")
  {
  }

  lemma ScopeKeysExactly(ms: seq<Member>)
    ensures (exists m :: m in ms && !ScopeKey(m.key)) <==>
            !forall m :: m in ms ==>
               m.key in {Lit("kind"), Lit("folderIds"), Lit("tagIds"), Lit("noteIds"), Lit("youtubeIds")}
  {
  }

  lemma ScopeExactly(v: Option<Value>, scope: Scope)
    ensures ReadScope(v) == Ok(scope) <==> ScopeSays(v, scope)
    ensures ReadScope(v).Err? ==> ReadScope(v).code == ValidationError
  {
    hide Get, ReadIds, SafeIdentifier, ScopeKey;
    KindsDiffer();
    if v.Some? && v.value.Obj? {
      var ms := v.value.members;
      ScopeKeysExactly(ms);
      var kind := GetText(ms, Lit("kind"));
      if Get(ms, Lit("youtubeIds")).Some? {
        InMembers(ms, Lit("youtubeIds"));
        YoutubeIsNotKind();
      }
      if kind.Some? && ListKey(kind.value).Some? {
        var list := Get(ms, ListKey(kind.value).value);
        if list.Some? && list.value.Arr? {
          IdsExactly(list.value.items, if scope.ids.Some? then scope.ids.value else []);
          if ReadIds(list.value.items).Ok? {
            IdsExactly(list.value.items, ReadIds(list.value.items).value);
          }
        }
      }
    }
  }

  lemma YoutubeIsNotKind()
    ensures Lit("youtubeIds") != Lit("kind")
  {
  }

  lemma {:induction false} InMembers(ms: seq<Member>, key: Text)
    requires Get(ms, key).Some?
    ensures exists m :: m in ms && m.key == key
  {
    if ms[|ms| - 1].key == key {
      assert ms[|ms| - 1] in ms;
    } else {
      InMembers(ms[..|ms| - 1], key);
    }
  }

  lemma PackageExactly(forbidden: Text -> bool, payload: seq<Member>)
    ensures var r := ParsePackage(forbidden, payload);
            && (r.Ok? <==>
                KnownKeys(payload) && GoodRows(forbidden, payload) && Scoped(SentScope(payload)))
            && (r.Ok? ==>
                  && r.value.0 == IngestRows(forbidden, payload).value
                  && ScopeSays(SentScope(payload), r.value.1))
            && (r.Err? ==> r.code == ValidationError)
  {
    hide Get, IngestRows, ReadScope, ScopeSays, GoodRows;
    IngestRowsExactly(forbidden, payload);
    var v := Get(payload, Lit("vaultScope"));
    if ReadScope(v).Ok? {
      ScopeExactly(v, ReadScope(v).value);
    }
    forall scope | ScopeSays(v, scope)
      ensures ReadScope(v) == Ok(scope)
    {
      ScopeExactly(v, scope);
    }
    ScopeExactly(v, Scope([], None));
    assert KnownKeys(payload) <==> !exists m :: m in payload && !PackageKey(m.key);
  }

  // --- From the body to the worker

  lemma RowLookup(r: Row)
    ensures RowOf(RowJson(r), r)
  {
    hide Get;
    var ms := RowJson(r).members;
    GetAt(ms, 0);
    GetAt(ms, 1);
    GetAt(ms, 2);
  }

  lemma WrittenFile(rows: seq<Row>)
    requires CanonicalBytes(rows).Ok?
    ensures Decode(CanonicalBytes(rows).value) == Some(JoinedLines(rows))
  {
    hide Encode, Decode, JoinedLines;
    EncodeRoundTrip(JoinedLines(rows));
  }

  /** What the worker loads: an object for each item sent, with the item's text under each of the three keys. */
  ghost predicate LoadsAsSent(file: Bytes, items: seq<Value>) {
    var loaded := LoadedRows(Some(file));
    && loaded.Ok? && |loaded.value| == |items|
    && forall i :: 0 <= i < |items| ==>
         && loaded.value[i].Obj? && items[i].Obj?
         && Get(loaded.value[i].members, Lit("input")) == Get(items[i].members, Lit("input"))
         && Get(loaded.value[i].members, Lit("instruction")) == Get(items[i].members, Lit("instruction"))
         && Get(loaded.value[i].members, Lit("output")) == Get(items[i].members, Lit("output"))
  }

  lemma FileLoadsAsSent(forbidden: Text -> bool, body: Bytes, payload: seq<Member>)
    requires Sent(body, payload) && IngestRows(forbidden, payload).Ok?
    ensures var rows := IngestRows(forbidden, payload).value;
            && CanonicalBytes(rows).Ok? && LoadsAsSent(CanonicalBytes(rows).value, SentItems(payload))
  {
    hide Decode, Loads, CanonicalBytes, LoadedRows, IngestRows, Get, GoodRows, RowJson;
    IngestedRowsRoundTrip(forbidden, body);
    IngestRowsExactly(forbidden, payload);
    var rows := IngestRows(forbidden, payload).value;
    forall i | 0 <= i < |rows|
      ensures RowOf(RowJson(rows[i]), rows[i])
    {
      RowLookup(rows[i]);
    }
  }

  /** An authentic token of the issuer for the dataset, for some subject. */
  ghost predicate LetIn(setup: IngestSetup, authorization: Text, id: Text, now: int) {
    exists subject, claims ::
      && Authentic(setup.mac, setup.secret, authorization, claims)
      && Grants(claims, setup.issuer, id, subject, now)
  }

  lemma GrantedExactly(setup: IngestSetup, authorization: Text, id: Text, now: int)
    ensures VerifyIngest(setup.mac, setup.secret, setup.issuer, authorization, id, now).Ok? <==>
            SafeIdentifier(id) && OwnDatasetId(id) && LetIn(setup, authorization, id, now)
  {
    hide VerifyIngest, Authentic, Grants, OwnDatasetId, SafeIdentifier, OddSubject;
    var r := VerifyIngest(setup.mac, setup.secret, setup.issuer, authorization, id, now);
    if r.Ok? {
      IngestAuthExactly(setup.mac, setup.secret, setup.issuer, authorization, id, now, r.value);
    }
    if subject, claims :|
      Authentic(setup.mac, setup.secret, authorization, claims) && Grants(claims, setup.issuer, id, subject, now)
    {
      IngestAuthExactly(setup.mac, setup.secret, setup.issuer, authorization, id, now, subject);
    }
  }

  /** A body can be parsed in one way only. */
  lemma OneBody(body: Bytes, payload: seq<Member>)
    requires Sent(body, payload)
    ensures ReadBody(body) == Ok(payload)
  {
    hide Sent, ReadBody;
    BodyExactly(body, payload);
  }

  /**
   A package is accepted if and only if its body is the JSON of rows and a scope of the right shape, the header
   bears an authentic token for the dataset, the dataset is registered and not rejected, and there is a package
   root. Otherwise nothing is written.
   */
  lemma IngestExactly(setup: IngestSetup, ds: Registry, packages: Packages, id: Text, authorization: Text, body: Bytes,
      now: int)
    ensures var (after, r) := IngestPackage(setup, ds, packages, id, authorization, body, now);
            && (r.Ok? <==>
                && (exists payload :: Sent(body, payload) && Acceptable(setup, payload))
                && LetIn(setup, authorization, id, now) && OwnDatasetId(id) && SafeIdentifier(id)
                && id in ds && ds[id].status != Rejected && setup.rooted)
            && (r.Err? ==> after == packages)
  {
    hide ReadBody, Sent, Scoped, VerifyIngest, ParsePackage, CanonicalBytes, JoinedLines, LetIn, OwnDatasetId,
      SafeIdentifier, GoodRows, KnownKeys, LoadsAsSent, HexDigest, ScopeSays;
    var payload := ReadBody(body);
    if p :| Sent(body, p) && Acceptable(setup, p) {
      OneBody(body, p);
    }
    if payload.Ok? {
      BodyExactly(body, payload.value);
      PackageExactly(setup.forbidden, payload.value);
      if IngestRows(setup.forbidden, payload.value).Ok? {
        FileLoadsAsSent(setup.forbidden, body, payload.value);
      }
      IngestRowsExactly(setup.forbidden, payload.value);
    }
    GrantedExactly(setup, authorization, id, now);
  }

  /**
   What an accepted package leaves behind: the dataset's file, and no other, is replaced by one from which the
   worker loads the text of every field of every item sent, in order; the answer has the digest of that file.
   */
  lemma IngestWrites(setup: IngestSetup, ds: Registry, packages: Packages, id: Text, authorization: Text, body: Bytes,
      now: int, payload: seq<Member>)
    requires Sent(body, payload) && IngestPackage(setup, ds, packages, id, authorization, body, now).1.Ok?
    ensures var (after, r) := IngestPackage(setup, ds, packages, id, authorization, body, now);
            && id in after && after == packages[id := after[id]]
            && LoadsAsSent(after[id], SentItems(payload))
            && FileDigest(setup.sha, after[id]) == Some(r.value.datasetHash)
            && r.value.datasetId == id && r.value.rowCount == |SentItems(payload)|
            && ScopeSays(SentScope(payload), r.value.scope)
  {
    hide ReadBody, Sent, VerifyIngest, ParsePackage, CanonicalBytes, JoinedLines, GoodRows, KnownKeys, LoadsAsSent,
      HexDigest, ScopeSays, Decode, SentItems, SentScope, TrainingDatasetId;
    OneBody(body, payload);
    PackageExactly(setup.forbidden, payload);
    IngestRowsExactly(setup.forbidden, payload);
    FileLoadsAsSent(setup.forbidden, body, payload);
    WrittenFile(IngestRows(setup.forbidden, payload).value);
  }

  /** How a package is refused: what is wrong with the body as a whole first, then the token, the dataset, the content. */
  lemma IngestRefusal(setup: IngestSetup, ds: Registry, packages: Packages, id: Text, authorization: Text, body: Bytes,
      now: int)
    ensures var r := IngestPackage(setup, ds, packages, id, authorization, body, now).1;
            var token := VerifyIngest(setup.mac, setup.secret, setup.issuer, authorization, id, now);
            r.Err? ==>
              r.code ==
              if !(1 <= |body| <= 4_194_304) then ValidationError
              else if Decode(body).None? || Loads(Decode(body).value).None? then MalformedJson
              else if !exists payload :: Sent(body, payload) then ValidationError
              else if token.Err? then token.code
              else if id !in ds then NotFound
              else if ds[id].status == Rejected then Conflict
              else if !exists payload :: Sent(body, payload) && Acceptable(setup, payload) then ValidationError
              else InternalError
  {
    hide Scoped, VerifyIngest, ParsePackage, CanonicalBytes, JoinedLines, LetIn, OwnDatasetId, SafeIdentifier,
      GoodRows, KnownKeys, LoadsAsSent, HexDigest, ScopeSays, Decode, Loads;
    GrantedExactly(setup, authorization, id, now);
    var payload := ReadBody(body);
    if payload.Ok? {
      assert Sent(body, payload.value);
      PackageExactly(setup.forbidden, payload.value);
      IngestRowsExactly(setup.forbidden, payload.value);
      if IngestRows(setup.forbidden, payload.value).Ok? {
        FileLoadsAsSent(setup.forbidden, body, payload.value);
      }
    }
  }
}
