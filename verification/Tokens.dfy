/** Signed tokens: the HS256 envelope of ingest and download requests, and volume content tokens. */
module Tokens {
  import opened Texts
  import opened JsonNumbers
  import opened JsonStrings
  import opened Json
  import opened JsonFacts
  import opened Utf8
  import opened Base64
  import opened Contracts

  /** Some keyed digest of a message: `hmac.new(secret, message, sha256).digest()`. */
  type Mac = (Text, Text) -> Bytes

  const SKEW: int := 60
  const DOT_CHAR: CodePoint := 46

  lemma DumpsEncodes(v: Value)
    ensures Encode(Dumps(v, Compact)).Some?
    ensures Decode(Encode(Dumps(v, Compact)).value) == Some(Dumps(v, Compact))
  {
    hide Dumps, Encode, Decode;
    DumpsAscii(v);
    EncodeRoundTrip(Dumps(v, Compact));
  }

  lemma DumpsAscii(v: Value)
    ensures Ascii(Dumps(v, Compact)) && NoSurrogates(Dumps(v, Compact))
  {
    hide Print;
    PrintFit(v, Compact, 0);
  }

  function DumpsBytes(v: Value): Bytes {
    DumpsEncodes(v);
    Encode(Dumps(v, Compact)).value
  }

  /** One part of a token: compact JSON in unpadded base64url. */
  function Segment(v: Value): (t: Text)
    ensures Base64Text(t)
  {
    EncodeUnpadded(DumpsBytes(v))
  }

  function HeaderMembers(): seq<Member> {
    [Member(Lit("alg"), Str(Lit("HS256"))), Member(Lit("typ"), Str(Lit("JWT")))]
  }

  function ClaimMembers(claim: Text, exp: int, iat: int, issuer: Text, subject: Text): seq<Member> {
    [Member(Lit("datasetId"), Str(claim)),
     Member(Lit("exp"), Num(Int(exp))),
     Member(Lit("iat"), Num(Int(iat))),
     Member(Lit("iss"), Str(issuer)),
     Member(Lit("sub"), Str(subject))]
  }

  function SigningInput(header: Text, claims: Text): Text {
    header + ([DOT_CHAR] + claims)
  }

  /** The token both signers build, for the text they put in the `datasetId` claim. */
  function SignedToken(mac: Mac, secret: Text, issuer: Text, subject: Text, claim: Text, now: int, ttl: int): Text {
    var header := Segment(Obj(HeaderMembers()));
    var claims := Segment(Obj(ClaimMembers(claim, now + ttl, now, issuer, subject)));
    var signature := EncodeUnpadded(mac(secret, SigningInput(header, claims)));
    header + ([DOT_CHAR] + (claims + ([DOT_CHAR] + signature)))
  }

  /** `sign_ingest_jwt` */
  function SignIngest(mac: Mac, secret: Text, issuer: Text, datasetId: Text, subject: Text, now: int,
      ttl: int): (r: Result<Text>) {
    if !SafeIdentifier(datasetId) || !SafeIdentifier(subject) || !OwnDatasetId(datasetId) then Err(ValidationError)
    else Ok(SignedToken(mac, secret, issuer, subject, datasetId, now, ttl))
  }

  function Composite(jobId: Text, artifactId: Text): Text {
    jobId + ([58] + artifactId)
  }

  /** `sign_download_jwt` */
  function SignDownload(mac: Mac, secret: Text, issuer: Text, jobId: Text, artifactId: Text, subject: Text, now: int,
      ttl: int): (r: Result<Text>) {
    if !IsJobId(jobId) || !IsArtifactId(artifactId) || !SafeIdentifier(subject) then Err(ValidationError)
    else Ok(SignedToken(mac, secret, issuer, subject, Composite(jobId, artifactId), now, ttl))
  }

  // --- Verifying

  function DotIndex(t: Text): (k: nat)
    ensures k <= |t| && (k < |t| ==> t[k] == DOT_CHAR)
  {
    if t == [] || t[0] == DOT_CHAR then 0 else 1 + DotIndex(t[1..])
  }

  /** `token.split(".")` */
  function SplitDots(t: Text): (parts: seq<Text>)
    decreases |t|
  {
    var k := DotIndex(t);
    if k == |t| then [t] else [t[..k]] + SplitDots(t[k + 1..])
  }

  function AsciiLower(c: CodePoint): CodePoint {
    if 65 <= c <= 90 then c + 32 else c
  }

  /** `_parse_bearer_token` */
  function BearerToken(header: Text): (r: Result<Text>) {
    var h := Strip(header);
    if |h| < 7 || (exists i :: 0 <= i < 7 && AsciiLower(h[i]) != Lit("bearer ")[i]) then Err(Unauthorized)
    else
      var token := Strip(h[7..]);
      if token == [] || 32 in token then Err(Unauthorized) else Ok(token)
  }

  function DecodeSegment(t: Text): (v: Option<Value>) {
    var b := DecodeUnpadded(t);
    if b.None? || Decode(b.value).None? then None else Loads(Decode(b.value).value)
  }

  /** `_decode_hs256_jwt` */
  function DecodeJwt(mac: Mac, secret: Text, token: Text): (r: Result<seq<Member>>) {
    var parts := SplitDots(token);
    if |parts| != 3 then Err(Unauthorized)
    else
      var header, claims, signature := DecodeSegment(parts[0]), DecodeSegment(parts[1]), DecodeUnpadded(parts[2]);
      if header.None? || claims.None? || signature.None? then Err(Unauthorized)
      else if !header.value.Obj? || Get(header.value.members, Lit("alg")) != Some(Str(Lit("HS256"))) then Err(Unauthorized)
      else if !claims.value.Obj? then Err(Unauthorized)
      else if signature.value != mac(secret, SigningInput(parts[0], parts[1])) then Err(Unauthorized)
      else Ok(claims.value.members)
  }

  predicate IsInt(v: Option<Value>) {
    v.Some? && v.value.Num? && v.value.n.Int?
  }

  /** The claim checks both verifiers make; the result is the subject. */
  function CheckClaims(ms: seq<Member>, issuer: Text, claim: Text, now: int): (r: Result<Text>) {
    var subject := Get(ms, Lit("sub"));
    var exp := Get(ms, Lit("exp"));
    var iat := Get(ms, Lit("iat"));
    if Get(ms, Lit("iss")) != Some(Str(issuer)) then Err(Unauthorized)
    else if Get(ms, Lit("datasetId")) != Some(Str(claim)) then Err(Unauthorized)
    else if subject.None? || !subject.value.Str? then Err(Unauthorized)
    else if exp.None? then Err(Unauthorized)
    else if !SafeIdentifier(subject.value.s) then Err(ValidationError)
    else if !IsInt(exp) then Err(Unauthorized)
    else if exp.value.n.n < now - SKEW then Err(Unauthorized)
    else if IsInt(iat) && iat.value.n.n > now + SKEW then Err(Unauthorized)
    else Ok(subject.value.s)
  }

  function VerifyClaim(mac: Mac, secret: Text, issuer: Text, authorization: Text, claim: Text,
      now: int): (r: Result<Text>) {
    var token := BearerToken(authorization);
    if token.Err? then token
    else
      var claims := DecodeJwt(mac, secret, token.value);
      if claims.Err? then Err(claims.code) else CheckClaims(claims.value, issuer, claim, now)
  }

  /** `verify_ingest_auth`; the result is the subject. */
  function VerifyIngest(mac: Mac, secret: Text, issuer: Text, authorization: Text, datasetId: Text,
      now: int): (r: Result<Text>) {
    if !SafeIdentifier(datasetId) || !OwnDatasetId(datasetId) then Err(ValidationError)
    else VerifyClaim(mac, secret, issuer, authorization, datasetId, now)
  }

  /** `verify_download_auth`; the result is the subject. */
  function VerifyDownload(mac: Mac, secret: Text, issuer: Text, authorization: Text, jobId: Text, artifactId: Text,
      now: int): (r: Result<Text>) {
    if !IsJobId(jobId) || !IsArtifactId(artifactId) then Err(ValidationError)
    else VerifyClaim(mac, secret, issuer, authorization, Composite(jobId, artifactId), now)
  }

  // --- A signed token verifies exactly in its window

  lemma SegmentRoundTrip(v: Value)
    ensures DecodeSegment(Segment(v)) == Some(JoinedValue(v))
  {
    hide Dumps, Encode, Decode, EncodeUnpadded, DecodeUnpadded, Loads, JoinedValue;
    DumpsEncodes(v);
    DecodeEncode(DumpsBytes(v));
    LoadsDumps(v, Compact, []);
    assert Dumps(v, Compact) + [] == Dumps(v, Compact);
  }

  lemma {:induction false} DotIndexOf(a: Text, rest: Text)
    requires Base64Text(a)
    ensures DotIndex(a + ([DOT_CHAR] + rest)) == |a|
    ensures DotIndex(a) == |a|
  {
    if a == [] {
    } else {
      assert (a + ([DOT_CHAR] + rest))[1..] == a[1..] + ([DOT_CHAR] + rest);
      DotIndexOf(a[1..], rest);
    }
  }

  lemma SplitHead(a: Text, rest: Text)
    requires Base64Text(a)
    ensures SplitDots(a + ([DOT_CHAR] + rest)) == [a] + SplitDots(rest)
    ensures SplitDots(a) == [a]
  {
    DotIndexOf(a, rest);
    var t := a + ([DOT_CHAR] + rest);
    assert t[..|a|] == a && t[|a| + 1..] == rest;
  }

  /** A token of three segments splits into just those. */
  lemma SplitsInThree(a: Text, b: Text, c: Text)
    requires Base64Text(a) && Base64Text(b) && Base64Text(c)
    ensures SplitDots(a + ([DOT_CHAR] + (b + ([DOT_CHAR] + c)))) == [a, b, c]
  {
    hide SplitDots;
    SplitHead(a, b + ([DOT_CHAR] + c));
    SplitHead(b, c);
    SplitHead(c, []);
    assert [a] + ([b] + [c]) == [a, b, c];
  }

  predicate NoSpaces(t: Text) {
    forall i :: 0 <= i < |t| ==> !IsSpace(t[i])
  }

  lemma BearerOf(token: Text)
    requires token != [] && NoSpaces(token)
    ensures BearerToken(Lit("Bearer ") + token) == Ok(token)
  {
    hide Strip;
    var h := Lit("Bearer ") + token;
    StripNothing(h);
    assert h[7..] == token;
    StripNothing(token);
    forall i | 0 <= i < 7
      ensures AsciiLower(h[i]) == Lit("bearer ")[i]
    {
      assert h[i] == Lit("Bearer ")[i] == "Bearer "[i] as int;
      assert Lit("bearer ")[i] == "bearer "[i] as int;
    }
  }

  lemma TokenShape(mac: Mac, secret: Text, issuer: Text, subject: Text, claim: Text, now: int, ttl: int)
    ensures SignedToken(mac, secret, issuer, subject, claim, now, ttl) != []
    ensures NoSpaces(SignedToken(mac, secret, issuer, subject, claim, now, ttl))
  {
    hide Segment, EncodeUnpadded;
  }

  lemma LiteralsJoined(t: Text)
    requires Ascii(t)
    ensures Joined(t) == t
  {
    AsciiPairFree(t);
    PairFreeIsJoined(t);
  }

  lemma JoinedCons(m: Member, more: seq<Member>)
    ensures JoinedMembers([m] + more) == [Member(Joined(m.key), JoinedValue(m.value))] + JoinedMembers(more)
  {
    assert ([m] + more)[1..] == more;
  }

  lemma JoinedHeader()
    ensures JoinedValue(Obj(HeaderMembers())) == Obj(HeaderMembers())
  {
    hide Joined, JoinedMembers;
    var ms := HeaderMembers();
    LiteralsJoined(Lit("alg"));
    LiteralsJoined(Lit("typ"));
    LiteralsJoined(Lit("HS256"));
    LiteralsJoined(Lit("JWT"));
    JoinedCons(ms[0], [ms[1]]);
    JoinedCons(ms[1], []);
    JoinedNone();
    assert [ms[0]] + [ms[1]] == ms && [ms[1]] + [] == [ms[1]];
  }

  lemma JoinedNone()
    ensures JoinedMembers([]) == []
  {
  }

  lemma JoinedClaims(claim: Text, exp: int, iat: int, issuer: Text, subject: Text)
    requires Ascii(claim) && Ascii(subject)
    ensures JoinedValue(Obj(ClaimMembers(claim, exp, iat, issuer, subject))) ==
            Obj(ClaimMembers(claim, exp, iat, Joined(issuer), subject))
  {
    hide Joined, JoinedMembers, Ascii;
    var ms := ClaimMembers(claim, exp, iat, issuer, subject);
    ClaimTexts();
    LiteralsJoined(claim);
    LiteralsJoined(subject);
    JoinedCons(ms[0], ms[1..]);
    JoinedCons(ms[1], ms[2..]);
    JoinedCons(ms[2], ms[3..]);
    JoinedCons(ms[3], ms[4..]);
    JoinedCons(ms[4], []);
    JoinedNone();
    assert [ms[0]] + ms[1..] == ms && [ms[1]] + ms[2..] == ms[1..] && [ms[2]] + ms[3..] == ms[2..];
    assert [ms[3]] + ms[4..] == ms[3..] && [ms[4]] + [] == ms[4..];
  }

  lemma ClaimTexts()
    ensures Joined(Lit("datasetId")) == Lit("datasetId") && Joined(Lit("exp")) == Lit("exp")
    ensures Joined(Lit("iat")) == Lit("iat") && Joined(Lit("iss")) == Lit("iss") && Joined(Lit("sub")) == Lit("sub")
  {
    hide Joined;
    LiteralsJoined(Lit("datasetId"));
    LiteralsJoined(Lit("exp"));
    LiteralsJoined(Lit("iat"));
    LiteralsJoined(Lit("iss"));
    LiteralsJoined(Lit("sub"));
  }

  lemma ClaimLookup(claim: Text, exp: int, iat: int, issuer: Text, subject: Text)
    ensures var ms := ClaimMembers(claim, exp, iat, issuer, subject);
            && Get(ms, Lit("datasetId")) == Some(Str(claim))
            && Get(ms, Lit("exp")) == Some(Num(Int(exp)))
            && Get(ms, Lit("iat")) == Some(Num(Int(iat)))
            && Get(ms, Lit("iss")) == Some(Str(issuer))
            && Get(ms, Lit("sub")) == Some(Str(subject))
  {
    hide Get;
    var ms := ClaimMembers(claim, exp, iat, issuer, subject);
    GetAt(ms, 0);
    GetAt(ms, 1);
    GetAt(ms, 2);
    GetAt(ms, 3);
    GetAt(ms, 4);
  }

  lemma HeaderLookup()
    ensures Get(HeaderMembers(), Lit("alg")) == Some(Str(Lit("HS256")))
  {
    GetAt(HeaderMembers(), 0);
  }

  lemma SignedTokenDecodes(mac: Mac, secret: Text, issuer: Text, subject: Text, claim: Text, now: int, ttl: int)
    requires Ascii(claim) && Ascii(subject)
    ensures DecodeJwt(mac, secret, SignedToken(mac, secret, issuer, subject, claim, now, ttl)) ==
            Ok(ClaimMembers(claim, now + ttl, now, Joined(issuer), subject))
  {
    hide Segment, DecodeSegment, EncodeUnpadded, DecodeUnpadded, HeaderMembers, ClaimMembers, SplitDots, Get, Joined;
    var header := Segment(Obj(HeaderMembers()));
    var claims := Segment(Obj(ClaimMembers(claim, now + ttl, now, issuer, subject)));
    var signed := mac(secret, SigningInput(header, claims));
    SplitsInThree(header, claims, EncodeUnpadded(signed));
    SegmentRoundTrip(Obj(HeaderMembers()));
    SegmentRoundTrip(Obj(ClaimMembers(claim, now + ttl, now, issuer, subject)));
    JoinedHeader();
    JoinedClaims(claim, now + ttl, now, issuer, subject);
    DecodeEncode(signed);
    HeaderLookup();
  }

  /** Accepted exactly for the signed claim, an issuer without surrogate pairs, and inside the time window. */
  lemma SignedClaimVerifies(mac: Mac, secret: Text, issuer: Text, subject: Text, claim: Text, expected: Text,
      signedAt: int, ttl: int, now: int)
    requires Ascii(claim) && SafeIdentifier(subject)
    ensures var token := SignedToken(mac, secret, issuer, subject, claim, signedAt, ttl);
            var r := VerifyClaim(mac, secret, issuer, Lit("Bearer ") + token, expected, now);
            && (r.Ok? <==> expected == claim && PairFree(issuer) && signedAt - SKEW <= now <= signedAt + ttl + SKEW)
            && (r.Ok? ==> r.value == subject)
  {
    hide SignedToken, BearerToken, DecodeJwt, Get, ClaimMembers, Joined, PairFree;
    var token := SignedToken(mac, secret, issuer, subject, claim, signedAt, ttl);
    TokenShape(mac, secret, issuer, subject, claim, signedAt, ttl);
    BearerOf(token);
    SubjectAscii(subject);
    SignedTokenDecodes(mac, secret, issuer, subject, claim, signedAt, ttl);
    ClaimLookup(claim, signedAt + ttl, signedAt, Joined(issuer), subject);
    JoinedExactly(issuer);
  }

  lemma SubjectAscii(t: Text)
    requires SafeIdentifier(t)
    ensures Ascii(t)
  {
  }

  /** An ingest token is accepted for its own dataset, from `signedAt - 60` to `signedAt + ttl + 60`. */
  lemma IngestTokenWindow(mac: Mac, secret: Text, issuer: Text, datasetId: Text, subject: Text, expected: Text,
      signedAt: int, ttl: int, now: int)
    requires SignIngest(mac, secret, issuer, datasetId, subject, signedAt, ttl).Ok?
    ensures var token := SignIngest(mac, secret, issuer, datasetId, subject, signedAt, ttl).value;
            var r := VerifyIngest(mac, secret, issuer, Lit("Bearer ") + token, expected, now);
            && (r.Ok? <==> expected == datasetId && PairFree(issuer) && signedAt - SKEW <= now <= signedAt + ttl + SKEW)
            && (r.Ok? ==> r.value == subject)
  {
    hide SignedToken, VerifyClaim, PairFree;
    SubjectAscii(datasetId);
    SignedClaimVerifies(mac, secret, issuer, subject, datasetId, expected, signedAt, ttl, now);
  }

  lemma CompositeInjective(j: Text, a: Text, k: Text, b: Text)
    requires IsJobId(j) && IsJobId(k) && IsArtifactId(a) && IsArtifactId(b)
    ensures Composite(j, a) == Composite(k, b) <==> j == k && a == b
    ensures Ascii(Composite(j, a))
  {
    assert Composite(j, a)[..28] == j && Composite(k, b)[..28] == k;
    assert Composite(j, a)[29..] == a && Composite(k, b)[29..] == b;
  }

  /** A download token is accepted for its own job and artifact only, in the same window. */
  lemma DownloadTokenWindow(mac: Mac, secret: Text, issuer: Text, j: Text, a: Text, subject: Text, k: Text, b: Text,
      signedAt: int, ttl: int, now: int)
    requires SignDownload(mac, secret, issuer, j, a, subject, signedAt, ttl).Ok?
    requires IsJobId(k) && IsArtifactId(b)
    ensures var token := SignDownload(mac, secret, issuer, j, a, subject, signedAt, ttl).value;
            var r := VerifyDownload(mac, secret, issuer, Lit("Bearer ") + token, k, b, now);
            && (r.Ok? <==> j == k && a == b && PairFree(issuer) && signedAt - SKEW <= now <= signedAt + ttl + SKEW)
            && (r.Ok? ==> r.value == subject)
  {
    hide SignedToken, VerifyClaim, PairFree, Composite, IsJobId, IsArtifactId;
    CompositeInjective(j, a, k, b);
    SignedClaimVerifies(mac, secret, issuer, subject, Composite(j, a), Composite(k, b), signedAt, ttl, now);
  }

  // --- Volume content tokens

  /** `storage_object_key` */
  function StorageKey(jobId: Text, artifactId: Text): Text {
    jobId + ([47] + (artifactId + ([47] + Lit("artifact.tar.gz"))))
  }

  /** No two artifacts share an object key. */
  lemma StorageKeyInjective(j: Text, a: Text, k: Text, b: Text)
    requires IsJobId(j) && IsJobId(k) && IsArtifactId(a) && IsArtifactId(b)
    ensures StorageKey(j, a) == StorageKey(k, b) <==> j == k && a == b
  {
    assert StorageKey(j, a)[..28] == j && StorageKey(k, b)[..28] == k;
    assert StorageKey(j, a)[29..62] == a && StorageKey(k, b)[29..62] == b;
  }

  function HexBytes(b: Bytes): (t: Text)
    ensures AllHex(t)
  {
    if b == [] then [] else HexDigits(b[0], 2) + HexBytes(b[1..])
  }

  function VolumePayload(jobId: Text, artifactId: Text, storageKey: Text, exp: int): seq<Member> {
    [Member(Lit("artifactId"), Str(artifactId)),
     Member(Lit("exp"), Num(Int(exp))),
     Member(Lit("jobId"), Str(jobId)),
     Member(Lit("storageKey"), Str(storageKey))]
  }

  /** The payload, a colon and the hexadecimal digest. */
  function VolumeText(mac: Mac, secret: Text, payload: Text): Text {
    payload + ([COLON] + HexBytes(mac(secret, payload)))
  }

  /** `sign_volume_content_token` */
  function SignVolume(mac: Mac, secret: Text, jobId: Text, artifactId: Text, storageKey: Text,
      exp: int): (r: Result<Text>) {
    if !IsJobId(jobId) || !IsArtifactId(artifactId) then Err(ValidationError)
    else
      var b := Encode(VolumeText(mac, secret, Dumps(Obj(VolumePayload(jobId, artifactId, storageKey, exp)), Compact)));
      if b.None? then Err(InternalError) else Ok(EncodePadded(b.value))
  }

  /** The position of the last colon, where `rsplit(":", 1)` cuts. */
  function LastColon(t: Text): (k: Option<nat>)
    ensures k.Some? ==> k.value < |t|
  {
    if t == [] then None
    else if t[|t| - 1] == COLON then Some(|t| - 1)
    else LastColon(t[..|t| - 1])
  }

  /** `verify_volume_content_token`; the result is the storage key. */
  function VerifyVolume(mac: Mac, secret: Text, jobId: Text, artifactId: Text, token: Text,
      now: int): (r: Result<Text>) {
    if !IsJobId(jobId) || !IsArtifactId(artifactId) then Err(ValidationError)
    else
      var b := DecodeText(token);
      if b.None? || Decode(b.value).None? then Err(Unauthorized)
      else
        var t := Decode(b.value).value;
        var cut := LastColon(t);
        if cut.None? then Err(Unauthorized)
        else
          var payload, digest := t[..cut.value], t[cut.value + 1..];
          var v := Loads(payload);
          if v.None? || !v.value.Obj? then Err(Unauthorized)
          else if !Ascii(digest) then Err(InternalError)
          else if digest != HexBytes(mac(secret, payload)) then Err(Unauthorized)
          else VolumeKey(v.value.members, jobId, artifactId, now)
  }

  /** The checks on the payload of an authentic volume token. */
  function VolumeKey(ms: seq<Member>, jobId: Text, artifactId: Text, now: int): (r: Result<Text>) {
    var exp := Get(ms, Lit("exp"));
    var key := GetText(ms, Lit("storageKey"));
    if Get(ms, Lit("jobId")) != Some(Str(jobId)) || Get(ms, Lit("artifactId")) != Some(Str(artifactId)) then Err(Unauthorized)
    else if !IsInt(exp) || exp.value.n.n < now - SKEW then Err(Unauthorized)
    else if key.None? || key.value == [] then Err(Unauthorized)
    else Ok(key.value)
  }

  lemma {:induction false} LastColonOf(payload: Text, digest: Text)
    requires AllHex(digest)
    ensures LastColon(payload + ([COLON] + digest)) == Some(|payload|)
  {
    var t := payload + ([COLON] + digest);
    if digest != [] {
      assert t[..|t| - 1] == payload + ([COLON] + digest[..|digest| - 1]);
      LastColonOf(payload, digest[..|digest| - 1]);
    }
  }

  lemma JoinedVolume(j: Text, a: Text, key: Text, exp: int)
    requires IsJobId(j) && IsArtifactId(a)
    ensures JoinedValue(Obj(VolumePayload(j, a, key, exp))) == Obj(VolumePayload(j, a, Joined(key), exp))
  {
    hide Joined, JoinedMembers, Ascii;
    var ms := VolumePayload(j, a, key, exp);
    VolumeTexts(j, a);
    JoinedCons(ms[0], ms[1..]);
    JoinedCons(ms[1], ms[2..]);
    JoinedCons(ms[2], ms[3..]);
    JoinedCons(ms[3], []);
    JoinedNone();
    assert [ms[0]] + ms[1..] == ms && [ms[1]] + ms[2..] == ms[1..];
    assert [ms[2]] + ms[3..] == ms[2..] && [ms[3]] + [] == ms[3..];
  }

  lemma VolumeTexts(j: Text, a: Text)
    requires IsJobId(j) && IsArtifactId(a)
    ensures Joined(Lit("artifactId")) == Lit("artifactId") && Joined(Lit("exp")) == Lit("exp")
    ensures Joined(Lit("jobId")) == Lit("jobId") && Joined(Lit("storageKey")) == Lit("storageKey")
    ensures Joined(j) == j && Joined(a) == a
  {
    hide Joined;
    LiteralsJoined(Lit("artifactId"));
    LiteralsJoined(Lit("exp"));
    LiteralsJoined(Lit("jobId"));
    LiteralsJoined(Lit("storageKey"));
    IdsAscii(j, a);
    LiteralsJoined(j);
    LiteralsJoined(a);
  }

  lemma IdsAscii(j: Text, a: Text)
    requires IsJobId(j) && IsArtifactId(a)
    ensures Ascii(j) && Ascii(a)
  {
    assert j == Lit("job_") + j[4..] && a == Lit("artifact_") + a[9..];
  }

  lemma VolumeLookup(j: Text, a: Text, key: Text, exp: int)
    ensures var ms := VolumePayload(j, a, key, exp);
            && Get(ms, Lit("artifactId")) == Some(Str(a))
            && Get(ms, Lit("exp")) == Some(Num(Int(exp)))
            && Get(ms, Lit("jobId")) == Some(Str(j))
            && Get(ms, Lit("storageKey")) == Some(Str(key))
  {
    hide Get;
    var ms := VolumePayload(j, a, key, exp);
    GetAt(ms, 0);
    GetAt(ms, 1);
    GetAt(ms, 2);
    GetAt(ms, 3);
  }

  lemma VolumeTextAscii(mac: Mac, secret: Text, v: Value)
    ensures NoSurrogates(VolumeText(mac, secret, Dumps(v, Compact)))
  {
    hide Dumps, HexBytes;
    DumpsAscii(v);
  }

  lemma {:induction false} JoinedNonEmpty(s: Text)
    ensures Joined(s) == [] <==> s == []
  {
  }

  lemma VolumePayloadReads(j: Text, a: Text, key: Text, exp: int)
    requires IsJobId(j) && IsArtifactId(a)
    ensures Loads(Dumps(Obj(VolumePayload(j, a, key, exp)), Compact)) == Some(Obj(VolumePayload(j, a, Joined(key), exp)))
  {
    hide Loads, Dumps, VolumePayload, Joined, JoinedValue, IsJobId, IsArtifactId;
    var v := Obj(VolumePayload(j, a, key, exp));
    LoadsDumps(v, Compact, []);
    assert Dumps(v, Compact) + [] == Dumps(v, Compact);
    JoinedVolume(j, a, key, exp);
  }

  /** A content token gives its storage key back exactly for its job and artifact and until `exp + 60`. */
  lemma VolumeTokenWindow(mac: Mac, secret: Text, j: Text, a: Text, key: Text, exp: int, k: Text, b: Text, now: int)
    requires IsJobId(j) && IsArtifactId(a) && IsJobId(k) && IsArtifactId(b)
    ensures SignVolume(mac, secret, j, a, key, exp).Ok?
    ensures var r := VerifyVolume(mac, secret, k, b, SignVolume(mac, secret, j, a, key, exp).value, now);
            && (r.Ok? <==> j == k && a == b && key != [] && now <= exp + SKEW)
            && (r.Ok? ==> r.value == Joined(key))
  {
    hide Dumps, HexBytes, Encode, Decode, Loads, DecodeText, EncodePadded, LastColon, VolumePayload, Get, Joined,
      IsJobId, IsArtifactId;
    var v := Obj(VolumePayload(j, a, key, exp));
    var payload := Dumps(v, Compact);
    var t := VolumeText(mac, secret, payload);
    VolumeTextAscii(mac, secret, v);
    EncodeRoundTrip(t);
    DecodeEncode(Encode(t).value);
    LastColonOf(payload, HexBytes(mac(secret, payload)));
    assert t[..|payload|] == payload && t[|payload| + 1..] == HexBytes(mac(secret, payload));
    VolumePayloadReads(j, a, key, exp);
    VolumeLookup(j, a, Joined(key), exp);
    JoinedNonEmpty(key);
  }

  /** For the key the backend made, the token gives back just that key. */
  lemma VolumeTokenKey(mac: Mac, secret: Text, j: Text, a: Text, exp: int, now: int)
    requires IsJobId(j) && IsArtifactId(a) && now <= exp + SKEW
    ensures SignVolume(mac, secret, j, a, StorageKey(j, a), exp).Ok?
    ensures VerifyVolume(mac, secret, j, a, SignVolume(mac, secret, j, a, StorageKey(j, a), exp).value, now) ==
            Ok(StorageKey(j, a))
  {
    hide SignVolume, VerifyVolume, IsJobId, IsArtifactId, Joined;
    VolumeTokenWindow(mac, secret, j, a, StorageKey(j, a), exp, j, a, now);
    IdsAscii(j, a);
    LiteralsJoined(StorageKey(j, a));
  }
}
