/** Exactly which tokens are accepted, of all texts a client may send: what the verifiers grant is authentic. */
module TokenChecks {
  import opened Texts
  import opened JsonNumbers
  import opened Json
  import opened JsonFacts
  import opened Utf8
  import opened Base64
  import opened Contracts
  import opened Tokens

  // --- What an acceptable token is, from its text alone

  predicate Undotted(t: Text) {
    forall i :: 0 <= i < |t| ==> t[i] != 46
  }

  /** The letters of `bearer `, in either case. */
  predicate BearerPrefix(t: Text) {
    |t| == 7 && forall i :: 0 <= i < 7 ==> t[i] == Lit("bearer ")[i] || t[i] == Lit("BEARER ")[i]
  }

  /** The header is the bearer prefix and the token, blanks around either aside. */
  ghost predicate Bears(authorization: Text, token: Text) {
    && token != [] && 32 !in token
    && exists pre, rest :: Strip(authorization) == pre + rest && BearerPrefix(pre) && Strip(rest) == token
  }

  /** The segment is base64url of UTF-8 of JSON for the value. */
  predicate Says(segment: Text, v: Value) {
    && DecodeUnpadded(segment).Some?
    && Decode(DecodeUnpadded(segment).value).Some?
    && Loads(Decode(DecodeUnpadded(segment).value).value) == Some(v)
  }

  /** The three segments: a header for HS256, the claims, and the keyed digest of the text before the last dot. */
  ghost predicate SignedAs(mac: Mac, secret: Text, token: Text, h: Text, c: Text, s: Text, claims: seq<Member>) {
    && Undotted(h) && Undotted(c) && Undotted(s)
    && token == h + [46] + c + [46] + s
    && DecodeUnpadded(s) == Some(mac(secret, h + [46] + c))
    && (exists ms :: Says(h, Obj(ms)) && Get(ms, Lit("alg")) == Some(Str(Lit("HS256"))))
    && Says(c, Obj(claims))
  }

  /** The holder of the secret signed these claims. */
  ghost predicate Authentic(mac: Mac, secret: Text, authorization: Text, claims: seq<Member>) {
    exists token, h, c, s :: Bears(authorization, token) && SignedAs(mac, secret, token, h, c, s, claims)
  }

  predicate ForClaim(claims: seq<Member>, issuer: Text, claim: Text, subject: Text) {
    && Get(claims, Lit("iss")) == Some(Str(issuer))
    && Get(claims, Lit("datasetId")) == Some(Str(claim))
    && Get(claims, Lit("sub")) == Some(Str(subject))
  }

  /** The claims are for the subject and the time, give or take a minute. */
  ghost predicate Grants(claims: seq<Member>, issuer: Text, claim: Text, subject: Text, now: int) {
    && ForClaim(claims, issuer, claim, subject) && SafeIdentifier(subject)
    && (exists exp: int :: Get(claims, Lit("exp")) == Some(Num(Int(exp))) && now <= exp + 60)
    && (forall iat: int :: Get(claims, Lit("iat")) == Some(Num(Int(iat))) ==> iat <= now + 60)
  }

  /** Signed for the request, but for a subject that is no identifier: the one way a token is called invalid. */
  ghost predicate OddSubject(claims: seq<Member>, issuer: Text, claim: Text) {
    && Get(claims, Lit("exp")).Some?
    && exists subject :: ForClaim(claims, issuer, claim, subject) && !SafeIdentifier(subject)
  }

  // --- Splitting

  lemma {:induction false} FirstDot(t: Text)
    ensures var k := DotIndex(t); Undotted(t[..k]) && (k == |t| || t[k] == 46)
  {
    if t != [] && t[0] != 46 {
      FirstDot(t[1..]);
      assert t[..DotIndex(t)] == [t[0]] + t[1..][..DotIndex(t[1..])];
    }
  }

  lemma {:induction false} DotAfter(a: Text, rest: Text)
    requires Undotted(a)
    ensures DotIndex(a) == |a| && DotIndex(a + ([46] + rest)) == |a|
  {
    if a != [] {
      assert (a + ([46] + rest))[1..] == a[1..] + ([46] + rest);
      DotAfter(a[1..], rest);
    }
  }

  lemma SplitAfter(a: Text, rest: Text)
    requires Undotted(a)
    ensures SplitDots(a) == [a] && SplitDots(a + ([46] + rest)) == [a] + SplitDots(rest)
  {
    hide DotIndex, Undotted;
    DotAfter(a, rest);
    var t := a + ([46] + rest);
    assert t[..|a|] == a && t[|a| + 1..] == rest;
  }

  lemma JoinsThree(h: Text, c: Text, s: Text)
    requires Undotted(h) && Undotted(c) && Undotted(s)
    ensures SplitDots(h + [46] + c + [46] + s) == [h, c, s]
  {
    hide SplitDots, Undotted;
    SplitAfter(h, c + ([46] + s));
    SplitAfter(c, s);
    SplitAfter(s, []);
    assert h + [46] + c + [46] + s == h + ([46] + (c + ([46] + s)));
    assert [h] + ([c] + [s]) == [h, c, s];
  }

  lemma OneMore(t: Text)
    ensures var k := DotIndex(t);
            if k == |t| then SplitDots(t) == [t] && Undotted(t)
            else SplitDots(t) == [t[..k]] + SplitDots(t[k + 1..]) && Undotted(t[..k]) && t == t[..k] + [46] + t[k + 1..]
  {
    hide Undotted;
    FirstDot(t);
    assert t[..|t|] == t;
    assert SplitDots(t) == if DotIndex(t) == |t| then [t] else [t[..DotIndex(t)]] + SplitDots(t[DotIndex(t) + 1..]);
  }

  lemma SplitsSomewhere(t: Text)
    ensures |SplitDots(t)| >= 1
  {
  }

  /** A text that splits into three is the three with dots in between. */
  lemma ThreeParts(t: Text)
    requires |SplitDots(t)| == 3
    ensures var p := SplitDots(t);
            && Undotted(p[0]) && Undotted(p[1]) && Undotted(p[2])
            && t == p[0] + [46] + p[1] + [46] + p[2]
  {
    hide SplitDots, DotIndex, Undotted;
    OneMore(t);
    var k := DotIndex(t);
    var u := t[k + 1..];
    OneMore(u);
    if DotIndex(u) < |u| {
      var v := u[DotIndex(u) + 1..];
      OneMore(v);
      if DotIndex(v) < |v| {
        SplitsSomewhere(v[DotIndex(v) + 1..]);
      }
      assert u == u[..DotIndex(u)] + [46] + v;
      assert t == t[..k] + [46] + (u[..DotIndex(u)] + [46] + v);
      assert t == t[..k] + [46] + u[..DotIndex(u)] + [46] + v;
    }
  }

  // --- The verifiers step by step

  lemma BearerExactly(authorization: Text, token: Text)
    ensures BearerToken(authorization) == Ok(token) <==> Bears(authorization, token)
  {
    hide Strip;
    var h := Strip(authorization);
    if |h| >= 7 {
      PrefixExactly(h[..7]);
      assert h == h[..7] + h[7..];
    }
    if Bears(authorization, token) {
      var pre, rest :| h == pre + rest && BearerPrefix(pre) && Strip(rest) == token;
      assert h[..7] == pre && h[7..] == rest;
    }
  }

  lemma PrefixExactly(t: Text)
    requires |t| == 7
    ensures BearerPrefix(t) <==> forall i :: 0 <= i < 7 ==> AsciiLower(t[i]) == Lit("bearer ")[i]
  {
    var lower, upper := "bearer ", "BEARER ";
    forall i | 0 <= i < 7
      ensures (t[i] == Lit(lower)[i] || t[i] == Lit(upper)[i]) <==> AsciiLower(t[i]) == Lit(lower)[i]
    {
      assert Lit(lower)[i] == lower[i] as int && Lit(upper)[i] == upper[i] as int;
    }
  }

  lemma SegmentExactly(t: Text, v: Value)
    ensures DecodeSegment(t) == Some(v) <==> Says(t, v)
  {
    hide DecodeUnpadded, Decode, Loads;
  }

  lemma DecodedExactly(mac: Mac, secret: Text, token: Text, claims: seq<Member>)
    ensures DecodeJwt(mac, secret, token) == Ok(claims) <==>
            exists h, c, s :: SignedAs(mac, secret, token, h, c, s, claims)
  {
    hide SplitDots, DecodeSegment, DecodeUnpadded, Says, Get, Undotted;
    var p := SplitDots(token);
    if DecodeJwt(mac, secret, token) == Ok(claims) {
      ThreeParts(token);
      SegmentExactly(p[0], DecodeSegment(p[0]).value);
      SegmentExactly(p[1], DecodeSegment(p[1]).value);
      assert SigningInput(p[0], p[1]) == p[0] + [46] + p[1];
      assert SignedAs(mac, secret, token, p[0], p[1], p[2], claims);
    }
    if h, c, s :| SignedAs(mac, secret, token, h, c, s, claims) {
      JoinsThree(h, c, s);
      var ms :| Says(h, Obj(ms)) && Get(ms, Lit("alg")) == Some(Str(Lit("HS256")));
      SegmentExactly(h, Obj(ms));
      SegmentExactly(c, Obj(claims));
      assert SigningInput(h, c) == h + [46] + c;
    }
  }

  lemma GrantsExactly(claims: seq<Member>, issuer: Text, claim: Text, subject: Text, now: int)
    ensures CheckClaims(claims, issuer, claim, now) == Ok(subject) <==> Grants(claims, issuer, claim, subject, now)
    ensures CheckClaims(claims, issuer, claim, now).Err? ==>
              CheckClaims(claims, issuer, claim, now).code ==
              if OddSubject(claims, issuer, claim) then ValidationError else Unauthorized
  {
    hide Get, SafeIdentifier;
    var sub, exp := Get(claims, Lit("sub")), Get(claims, Lit("exp"));
    if sub.Some? && sub.value.Str? {
      assert ForClaim(claims, issuer, claim, sub.value.s) <==>
             Get(claims, Lit("iss")) == Some(Str(issuer)) && Get(claims, Lit("datasetId")) == Some(Str(claim));
    }
  }

  lemma DecodesToOne(mac: Mac, secret: Text, authorization: Text, a: seq<Member>, b: seq<Member>)
    requires Authentic(mac, secret, authorization, a) && Authentic(mac, secret, authorization, b)
    ensures a == b
  {
    hide Bears, SignedAs, DecodeJwt, BearerToken;
    var t, h, c, s :| Bears(authorization, t) && SignedAs(mac, secret, t, h, c, s, a);
    var u, i, d, r :| Bears(authorization, u) && SignedAs(mac, secret, u, i, d, r, b);
    BearerExactly(authorization, t);
    BearerExactly(authorization, u);
    DecodedExactly(mac, secret, t, a);
    DecodedExactly(mac, secret, u, b);
  }

  /** The claims of an authentic header, or the refusal of any other. */
  lemma AuthenticExactly(mac: Mac, secret: Text, authorization: Text)
    ensures var token := BearerToken(authorization);
            var authentic := token.Ok? && DecodeJwt(mac, secret, token.value).Ok?;
            && (authentic ==> Authentic(mac, secret, authorization, DecodeJwt(mac, secret, token.value).value))
            && (!authentic ==> forall claims :: !Authentic(mac, secret, authorization, claims))
  {
    hide Bears, SignedAs, DecodeJwt, BearerToken;
    var token := BearerToken(authorization);
    if token.Ok? {
      BearerExactly(authorization, token.value);
      if DecodeJwt(mac, secret, token.value).Ok? {
        DecodedExactly(mac, secret, token.value, DecodeJwt(mac, secret, token.value).value);
      }
    }
    forall claims | Authentic(mac, secret, authorization, claims)
      ensures token.Ok? && DecodeJwt(mac, secret, token.value).Ok?
    {
      var t, h, c, s :| Bears(authorization, t) && SignedAs(mac, secret, t, h, c, s, claims);
      BearerExactly(authorization, t);
      DecodedExactly(mac, secret, t, claims);
    }
  }

  lemma RefusalCodes(mac: Mac, secret: Text, authorization: Text)
    ensures BearerToken(authorization).Err? ==> BearerToken(authorization).code == Unauthorized
    ensures BearerToken(authorization).Ok? && DecodeJwt(mac, secret, BearerToken(authorization).value).Err? ==>
              DecodeJwt(mac, secret, BearerToken(authorization).value).code == Unauthorized
  {
    hide Strip, SplitDots, DecodeSegment, DecodeUnpadded, Get;
  }

  lemma ClaimExactly(mac: Mac, secret: Text, issuer: Text, authorization: Text, claim: Text, now: int, subject: Text)
    ensures VerifyClaim(mac, secret, issuer, authorization, claim, now) == Ok(subject) <==>
            exists claims :: Authentic(mac, secret, authorization, claims) && Grants(claims, issuer, claim, subject, now)
    ensures var r := VerifyClaim(mac, secret, issuer, authorization, claim, now);
            r.Err? ==>
              r.code == if exists claims :: Authentic(mac, secret, authorization, claims) && OddSubject(claims, issuer, claim)
                        then ValidationError else Unauthorized
  {
    hide Authentic, DecodeJwt, BearerToken, CheckClaims, Grants, OddSubject;
    AuthenticExactly(mac, secret, authorization);
    RefusalCodes(mac, secret, authorization);
    var token := BearerToken(authorization);
    if token.Ok? && DecodeJwt(mac, secret, token.value).Ok? {
      var ms := DecodeJwt(mac, secret, token.value).value;
      GrantsExactly(ms, issuer, claim, subject, now);
      forall claims | Authentic(mac, secret, authorization, claims)
        ensures claims == ms
      {
        DecodesToOne(mac, secret, authorization, claims, ms);
      }
    }
  }

  /**
   An upload is let in for a subject if and only if the header bears a token signed with the secret: its third
   segment is the keyed digest of the first two, the first is a header for HS256, the second are claims of the
   issuer for this dataset and subject, within the time. A refusal is a validation error only for an id that is
   none, and otherwise for authentic claims whose subject is no identifier.
   */
  lemma IngestAuthExactly(mac: Mac, secret: Text, issuer: Text, authorization: Text, datasetId: Text, now: int,
      subject: Text)
    ensures var r := VerifyIngest(mac, secret, issuer, authorization, datasetId, now);
            && (r == Ok(subject) <==>
                && SafeIdentifier(datasetId) && OwnDatasetId(datasetId)
                && exists claims ::
                     Authentic(mac, secret, authorization, claims) && Grants(claims, issuer, datasetId, subject, now))
            && (r.Err? ==>
                  r.code == if !SafeIdentifier(datasetId) || !OwnDatasetId(datasetId)
                               || exists claims ::
                                    Authentic(mac, secret, authorization, claims) && OddSubject(claims, issuer, datasetId)
                            then ValidationError else Unauthorized)
  {
    hide Authentic, VerifyClaim, Grants, OddSubject, SafeIdentifier, OwnDatasetId;
    ClaimExactly(mac, secret, issuer, authorization, datasetId, now, subject);
  }

  /** A download likewise, for the job and the artifact that the signed claims name. */
  lemma DownloadAuthExactly(mac: Mac, secret: Text, issuer: Text, authorization: Text, jobId: Text, artifactId: Text,
      now: int, subject: Text)
    ensures var r := VerifyDownload(mac, secret, issuer, authorization, jobId, artifactId, now);
            var claim := jobId + [58] + artifactId;
            && (r == Ok(subject) <==>
                && IsJobId(jobId) && IsArtifactId(artifactId)
                && exists claims ::
                     Authentic(mac, secret, authorization, claims) && Grants(claims, issuer, claim, subject, now))
            && (r.Err? ==>
                  r.code == if !IsJobId(jobId) || !IsArtifactId(artifactId)
                               || exists claims ::
                                    Authentic(mac, secret, authorization, claims) && OddSubject(claims, issuer, claim)
                            then ValidationError else Unauthorized)
  {
    hide Authentic, VerifyClaim, Grants, OddSubject, IsJobId, IsArtifactId;
    assert Composite(jobId, artifactId) == jobId + [58] + artifactId;
    ClaimExactly(mac, secret, issuer, authorization, jobId + [58] + artifactId, now, subject);
  }

  // --- Volume content tokens

  predicate Uncoloned(t: Text) {
    forall i :: 0 <= i < |t| ==> t[i] != 58
  }

  lemma {:induction false} LastColonExactly(payload: Text, digest: Text)
    requires Uncoloned(digest)
    ensures LastColon(payload + [58] + digest) == Some(|payload|)
  {
    var t := payload + [58] + digest;
    if digest != [] {
      assert t[..|t| - 1] == payload + [58] + digest[..|digest| - 1];
      LastColonExactly(payload, digest[..|digest| - 1]);
    }
  }

  lemma {:induction false} BehindLastColon(t: Text)
    requires LastColon(t).Some?
    ensures var k := LastColon(t).value; Uncoloned(t[k + 1..]) && t == t[..k] + [58] + t[k + 1..]
  {
    var k := LastColon(t).value;
    if t[|t| - 1] != 58 {
      var u := t[..|t| - 1];
      BehindLastColon(u);
      assert t[k + 1..] == u[k + 1..] + [t[|t| - 1]];
      assert t[..k] == u[..k];
    }
  }

  /** What the token says, and what it vouches for with the keyed digest of the payload. */
  ghost predicate VolumeSays(mac: Mac, secret: Text, token: Text, payload: Text, ms: seq<Member>) {
    && DecodeText(token).Some?
    && Decode(DecodeText(token).value) == Some(payload + [58] + HexBytes(mac(secret, payload)))
    && Loads(payload) == Some(Obj(ms))
  }

  lemma HexUncoloned(b: Bytes)
    ensures Uncoloned(HexBytes(b))
  {
  }

  lemma VolumeCut(mac: Mac, secret: Text, token: Text, payload: Text, ms: seq<Member>)
    requires VolumeSays(mac, secret, token, payload, ms)
    ensures var t := Decode(DecodeText(token).value).value;
            && LastColon(t) == Some(|payload|) && t[..|payload|] == payload
            && t[|payload| + 1..] == HexBytes(mac(secret, payload))
  {
    hide DecodeText, Decode, HexBytes, LastColon, Loads, Uncoloned;
    HexUncoloned(mac(secret, payload));
    LastColonExactly(payload, HexBytes(mac(secret, payload)));
  }

  /** A content token gives a key out if and only if its digest is the keyed one of its payload, which names job, artifact and key. */
  lemma VolumeAuthExactly(mac: Mac, secret: Text, jobId: Text, artifactId: Text, token: Text, now: int, key: Text)
    ensures VerifyVolume(mac, secret, jobId, artifactId, token, now) == Ok(key) <==>
            && IsJobId(jobId) && IsArtifactId(artifactId) && key != []
            && exists payload, ms ::
                 && VolumeSays(mac, secret, token, payload, ms)
                 && Get(ms, Lit("jobId")) == Some(Str(jobId)) && Get(ms, Lit("artifactId")) == Some(Str(artifactId))
                 && Get(ms, Lit("storageKey")) == Some(Str(key))
                 && exists exp: int :: Get(ms, Lit("exp")) == Some(Num(Int(exp))) && now <= exp + 60
  {
    hide DecodeText, Decode, HexBytes, LastColon, Loads, Get, IsJobId, IsArtifactId, Uncoloned, Ascii;
    if VerifyVolume(mac, secret, jobId, artifactId, token, now) == Ok(key) {
      var t := Decode(DecodeText(token).value).value;
      var k := LastColon(t).value;
      BehindLastColon(t);
      var ms := Loads(t[..k]).value.members;
      assert VolumeSays(mac, secret, token, t[..k], ms);
      assert Get(ms, Lit("exp")) == Some(Num(Int(Get(ms, Lit("exp")).value.n.n)));
    }
    if payload, ms :| (
        && VolumeSays(mac, secret, token, payload, ms)
        && Get(ms, Lit("jobId")) == Some(Str(jobId)) && Get(ms, Lit("artifactId")) == Some(Str(artifactId))
        && Get(ms, Lit("storageKey")) == Some(Str(key))
        && exists exp: int :: Get(ms, Lit("exp")) == Some(Num(Int(exp))) && now <= exp + 60)
    {
      VolumeCut(mac, secret, token, payload, ms);
      HexAscii(mac(secret, payload));
    }
  }

  lemma HexAscii(b: Bytes)
    ensures Ascii(HexBytes(b))
  {
  }

  /** Text of an object, a colon, and a last part that has no keyed digest to be compared with. */
  ghost predicate Incomparable(token: Text) {
    && DecodeText(token).Some?
    && exists payload, digest ::
         && Decode(DecodeText(token).value) == Some(payload + [58] + digest) && Uncoloned(digest) && !Ascii(digest)
         && Loads(payload).Some? && Loads(payload).value.Obj?
  }

  /** How a content token is refused: a digest beyond ASCII cannot even be compared. */
  lemma VolumeRefusal(mac: Mac, secret: Text, jobId: Text, artifactId: Text, token: Text, now: int)
    ensures var r := VerifyVolume(mac, secret, jobId, artifactId, token, now);
            r.Err? ==>
              r.code == if !IsJobId(jobId) || !IsArtifactId(artifactId) then ValidationError
                        else if Incomparable(token) then InternalError
                        else Unauthorized
  {
    hide DecodeText, Decode, HexBytes, LastColon, Loads, Get, IsJobId, IsArtifactId, Uncoloned, Ascii;
    if IsJobId(jobId) && IsArtifactId(artifactId) && DecodeText(token).Some? && Decode(DecodeText(token).value).Some? {
      var t := Decode(DecodeText(token).value).value;
      if payload, digest :|
        && t == payload + [58] + digest && Uncoloned(digest) && !Ascii(digest)
        && Loads(payload).Some? && Loads(payload).value.Obj?
      {
        LastColonExactly(payload, digest);
        assert t[..|payload|] == payload && t[|payload| + 1..] == digest;
        VolumeParts(mac, secret, jobId, artifactId, token, now, t, |payload|);
      } else if LastColon(t).Some? {
        BehindLastColon(t);
        VolumeParts(mac, secret, jobId, artifactId, token, now, t, LastColon(t).value);
      }
    }
  }

  lemma VolumeParts(mac: Mac, secret: Text, jobId: Text, artifactId: Text, token: Text, now: int, t: Text, k: nat)
    requires IsJobId(jobId) && IsArtifactId(artifactId)
    requires DecodeText(token).Some? && Decode(DecodeText(token).value) == Some(t) && LastColon(t) == Some(k)
    ensures var r := VerifyVolume(mac, secret, jobId, artifactId, token, now);
            var v := Loads(t[..k]);
            r.Err? ==>
              r.code == if v.Some? && v.value.Obj? && !Ascii(t[k + 1..]) then InternalError else Unauthorized
  {
    hide DecodeText, Decode, HexBytes, LastColon, Loads, Get, IsJobId, IsArtifactId, Ascii;
  }
}
