/** The token signer: an HTTP handler that turns the caller's assumed-role
    identity into an IAM role ARN, looks up the signing key behind the
    CURRENT alias and its `jwk_kid` tag, and returns a JWS compact
    serialization (RFC 7515 section 7.1) signed with RS256 by the key store.

    The three key-store reads (DescribeKey, ListResourceTags, Sign) are
    answered by functions passed in as `KeyStoreReads`, so that the answer to
    every call depends on what was asked.  The handler records the calls it
    issues, in order.  The wall clock is an integer millisecond input, and the
    JSON serialization of the header and the payload (with its UTF-8
    encoding) is the uninterpreted `Codec`. */
module Signer {
  import opened Wrappers
  import opened Encoding
  import opened Arn
  import Cloud
  import KeyRotation

  /** The alias the TypeScript handler describes; the compiled handler reads
      the alias name from `CURRENT_KEY` instead.  The handler below takes the
      alias as a parameter. */
  const SourceCurrentAlias: string := "alias/sts/CURRENT"

  // ----- getTagValueFromTags -----

  /** A key-store tag; the SDK types both of its members as optional. */
  datatype Tag = Tag(tagKey: Option<string>, tagValue: Option<string>)

  /** What `getTagValueFromTags` returns: `null` when no tag carries the key,
      otherwise the `TagValue` of the matching tag, which may be undefined. */
  datatype TagLookup = NoTag | TagFound(value: Option<string>)

  /** `i` is the first position whose tag carries `tagKey`. */
  predicate FirstMatchAt(tagKey: string, tags: seq<Tag>, i: int) {
    && 0 <= i < |tags|
    && tags[i].tagKey == Some(tagKey)
    && forall j :: 0 <= j < i ==> tags[j].tagKey != Some(tagKey)
  }

  /** The lookup as a function on the remaining tags. */
  function TagValue(tagKey: string, tags: seq<Tag>): TagLookup {
    if tags == [] then NoTag
    else if tags[0].tagKey == Some(tagKey) then TagFound(tags[0].tagValue)
    else TagValue(tagKey, tags[1..])
  }

  /** The first tag with the key wins, and the answer is "no tag" exactly when
      no tag carries the key. */
  lemma {:induction false} TagValueFirstMatch(tagKey: string, tags: seq<Tag>)
    ensures TagValue(tagKey, tags) == NoTag <==> forall i :: 0 <= i < |tags| ==> tags[i].tagKey != Some(tagKey)
    ensures forall i :: FirstMatchAt(tagKey, tags, i) ==> TagValue(tagKey, tags) == TagFound(tags[i].tagValue)
    ensures TagValue(tagKey, tags).TagFound? ==> exists i :: FirstMatchAt(tagKey, tags, i)
    decreases |tags|
  {
    if tags != [] {
      TagValueFirstMatch(tagKey, tags[1..]);
      forall i | FirstMatchAt(tagKey, tags, i) && i > 0
        ensures FirstMatchAt(tagKey, tags[1..], i - 1)
      {
        assert tags[1..][i - 1] == tags[i];
        forall j | 0 <= j < i - 1 ensures tags[1..][j].tagKey != Some(tagKey) {
          assert tags[1..][j] == tags[j + 1];
        }
      }
      if tags[0].tagKey == Some(tagKey) {
        assert FirstMatchAt(tagKey, tags, 0);
      } else {
        forall i | 0 <= i < |tags[1..]| ensures tags[1..][i] == tags[i + 1] { }
        if TagValue(tagKey, tags).TagFound? {
          var i :| FirstMatchAt(tagKey, tags[1..], i);
          assert FirstMatchAt(tagKey, tags, i + 1);
        }
      }
    }
  }

  /** `getTagValueFromTags`: scans the tags in order and returns the value of
      the first one whose key is `tagKey`. */
  method GetTagValueFromTags(tagKey: string, tags: seq<Tag>) returns (r: TagLookup)
    ensures r == TagValue(tagKey, tags)
  {
    var i := 0;
    while i < |tags|
      invariant 0 <= i <= |tags|
      invariant TagValue(tagKey, tags[i..]) == TagValue(tagKey, tags)
    {
      if tags[i].tagKey == Some(tagKey) {
        return TagFound(tags[i].tagValue);
      }
      assert tags[i..][1..] == tags[i + 1..];
      i := i + 1;
    }
    r := NoTag;
  }

  /** `Tags ?? []`. */
  function TagsOf(listed: Option<seq<Tag>>): seq<Tag> {
    if listed.Some? then listed.value else []
  }

  /** The `kid` the handler accepts: the value of the first `jwk_kid` tag.
      `kid == null` rejects both a missing tag and a tag without a value. */
  function KidOf(listed: Option<seq<Tag>>): (kid: Option<string>)
    ensures var tags := TagsOf(listed);
            kid.Some? <==> exists i :: FirstMatchAt(KeyRotation.KidTag, tags, i) && tags[i].tagValue.Some?
    ensures var tags := TagsOf(listed);
            forall i :: FirstMatchAt(KeyRotation.KidTag, tags, i) ==> kid == tags[i].tagValue
  {
    var found := TagValue(KeyRotation.KidTag, TagsOf(listed));
    TagValueFirstMatch(KeyRotation.KidTag, TagsOf(listed));
    if found.TagFound? then found.value else None
  }

  // ----- respond -----

  /** An API Gateway proxy result. */
  datatype Response = Response(statusCode: int, body: string)

  /** `respond`: the message becomes the body, with status 200 unless another
      is given. */
  function Respond(message: string, statusCode: int := 200): (r: Response)
    ensures r.body == message && r.statusCode == statusCode
  {
    Response(statusCode, message)
  }

  // ----- the request and its audience -----

  /** The parts of the API Gateway event the handler reads: the caller's
      `userArn`, absent when the request carries no identity, and the query
      string parameters, absent when there are none. */
  datatype Request = Request(userArn: Option<string>, query: Option<map<string, string>>)

  /** `DEFAULT_AUDIENCE` and `ISSUER`; either may be unset. */
  datatype Environment = Environment(defaultAudience: Option<string>, issuer: Option<string>)

  /** `aud`: the query parameter when there are query parameters and `aud`
      among them is truthy, i.e. present and non-empty; the default otherwise. */
  function Audience(query: Option<map<string, string>>, defaultAudience: Option<string>): (aud: Option<string>)
    ensures query.Some? && "aud" in query.value && query.value["aud"] != "" ==> aud == Some(query.value["aud"])
    ensures aud != defaultAudience ==> query.Some? && "aud" in query.value && aud == Some(query.value["aud"]) && aud != Some("")
  {
    if query.Some? && "aud" in query.value && query.value["aud"] != "" then Some(query.value["aud"])
    else defaultAudience
  }

  // ----- claims -----

  /** The JOSE header (RFC 7515 section 4). */
  datatype Header = Header(alg: string, typ: string, kid: string)

  /** The registered claims the payload carries (RFC 7519 section 4.1); an
      unset audience or issuer is left out of the JSON. */
  datatype Payload = Payload(sub: string, aud: Option<string>, iss: Option<string>, iat: int, exp: int, nbf: int)

  /** The header of every token: RS256 (RFC 7518 section 3.3), type JWT, and
      the key's `kid`. */
  function TokenHeader(kid: string): (h: Header)
    ensures h.alg == "RS256" && h.typ == "JWT" && h.kid == kid
  {
    Header("RS256", "JWT", kid)
  }

  /** The payload for a caller at millisecond time `now`: the token is valid
      for one hour from the second of issue and from five minutes before it.
      `Math.floor(ms / 1000)` is floor division, as Dafny's `/` is for a
      positive divisor. */
  function Claims(sub: string, aud: Option<string>, iss: Option<string>, now: int): (p: Payload)
    ensures p.sub == sub && p.aud == aud && p.iss == iss
    ensures p.iat * 1000 <= now < p.iat * 1000 + 1000
    ensures p.exp - p.iat == 3600 && p.iat - p.nbf == 300
  {
    Payload(sub, aud, iss, now / 1000, (now + 60 * 60 * 1000) / 1000, (now - 5 * 60 * 1000) / 1000)
  }

  // ----- compact serialization -----

  /** `JSON.stringify` of the header and of the payload, as UTF-8 bytes. */
  datatype Codec = Codec(header: Header -> seq<byte>, payload: Payload -> seq<byte>)

  predicate IsAscii(s: string) {
    forall i :: 0 <= i < |s| ==> s[i] as int < 128
  }

  /** `Buffer.from(s)` for a string of ASCII characters: one byte per character. */
  function AsciiBytes(s: string): (b: seq<byte>)
    requires IsAscii(s)
    ensures |b| == |s| && forall i :: 0 <= i < |s| ==> b[i] as int == s[i] as int
  {
    seq(|s|, i requires 0 <= i < |s| => s[i] as int as byte)
  }

  /** A part of a compact serialization: URL-safe characters only. */
  predicate IsSegment(s: string) {
    forall i :: 0 <= i < |s| ==> IsUrlSafe(s[i])
  }

  lemma SegmentHasNoDot(s: string)
    requires IsSegment(s)
    ensures '.' !in s && IsAscii(s)
  {
  }

  /** `a.b`, the signing input of RFC 7515 section 5.1 when applied to the
      header and payload segments. */
  function Dot(a: string, b: string): (s: string)
    requires IsSegment(a) && IsSegment(b)
    ensures IsAscii(s) && |s| == |a| + 1 + |b|
  {
    a + "." + b
  }

  /** `s.split('.')`. */
  function Split(s: string): (parts: seq<string>)
    ensures |parts| >= 1
    decreases |s|
  {
    if s == [] then [""]
    else if s[0] == '.' then [""] + Split(s[1..])
    else
      var rest := Split(s[1..]);
      [[s[0]] + rest[0]] + rest[1..]
  }

  /** Splitting at the first dot: a part without dots followed by a dot comes
      off as one piece. */
  lemma {:induction false} SplitAtDot(a: string, b: string)
    requires '.' !in a
    ensures Split(a + "." + b) == [a] + Split(b)
    decreases |a|
  {
    if a == [] {
      assert a + "." + b == ['.'] + b;
      assert (['.'] + b)[1..] == b;
    } else {
      assert '.' !in a[1..] by {
        forall x | x in a[1..] ensures x in a { }
      }
      SplitAtDot(a[1..], b);
      assert (a + "." + b)[1..] == a[1..] + "." + b;
      assert a[0] != '.' by { assert a[0] in a; }
      assert [a[0]] + a[1..] == a;
    }
  }

  /** A string without dots does not split. */
  lemma {:induction false} SplitWhole(a: string)
    requires '.' !in a
    ensures Split(a) == [a]
    decreases |a|
  {
    if a != [] {
      assert '.' !in a[1..] by {
        forall x | x in a[1..] ensures x in a { }
      }
      SplitWhole(a[1..]);
      assert a[0] != '.' by { assert a[0] in a; }
      assert [a[0]] + a[1..] == a;
    }
  }

  /** A compact serialization splits back into its three segments, and the
      signing input is the text before the second dot. */
  lemma CompactSplits(h: string, p: string, s: string)
    requires IsSegment(h) && IsSegment(p) && IsSegment(s)
    ensures Split(Dot(h, p) + "." + s) == [h, p, s]
    ensures (Dot(h, p) + "." + s)[..|h| + 1 + |p|] == Dot(h, p)
  {
    SegmentHasNoDot(h);
    SegmentHasNoDot(p);
    SegmentHasNoDot(s);
    assert Dot(h, p) + "." + s == h + "." + (p + "." + s);
    SplitAtDot(h, p + "." + s);
    SplitAtDot(p, s);
    SplitWhole(s);
  }

  /** `JSON.stringify({ token })`.  The token is made of URL-safe characters
      and dots, none of which JSON escapes, so the text is written out. */
  function TokenBody(token: string): string {
    "{\"token\":\"" + token + "\"}"
  }

  // ----- handler -----

  /** The three key-store reads.  `describe` answers `DescribeKey` with the
      `KeyMetadata.KeyId` it carries (none when the metadata has no id);
      `listTags` answers `ListResourceTags` with its `Tags`, which may be
      absent; `sign` answers `Sign` with its `Signature`, which may be absent.
      A `Failure` is an error the call raises. */
  datatype KeyStoreReads = KeyStoreReads(
    describe: string -> Result<Option<Cloud.KeyId>, Cloud.StoreError>,
    listTags: Cloud.KeyId -> Result<Option<seq<Tag>>, Cloud.StoreError>,
    sign: (Cloud.KeyId, seq<byte>) -> Result<Option<seq<byte>>, Cloud.StoreError>)

  /** A call the handler issues to the key store. */
  datatype Call =
    | DescribeCall(alias: string)
    | ListTagsCall(key: Cloud.KeyId)
    | SignCall(key: Cloud.KeyId, message: seq<byte>)

  /** An error the handler does not catch: one a key-store call raises, or the
      `TypeError` of `Buffer.from(undefined)` when the signature is absent. */
  datatype Fault = StoreFault(error: Cloud.StoreError) | MissingSignature

  /** How an invocation ends: with a response, or with an uncaught error. */
  datatype Invocation = Responded(response: Response) | Raised(fault: Fault)

  /** An invocation's outcome and the calls it issued, in order. */
  datatype Exchange = Exchange(result: Invocation, calls: seq<Call>)

  const UnresolvedIdentity: Response := Respond("Unable to resolve identity", 400)
  const KeyNotRetrieved: Response := Respond("KMS key could not be retrieved", 500)
  const KeyNotTagged: Response := Respond("KMS key is not correctly tagged", 500)

  /** The header segment of a token. */
  function HeaderSegment(codec: Codec, kid: string): (s: string)
    ensures IsSegment(s)
  {
    Base64Url(codec.header(TokenHeader(kid)))
  }

  /** The payload segment of a token. */
  function PayloadSegment(codec: Codec, payload: Payload): (s: string)
    ensures IsSegment(s)
  {
    Base64Url(codec.payload(payload))
  }

  /** The signature segment of a token. */
  function SignatureSegment(signature: seq<byte>): (s: string)
    ensures IsSegment(s)
  {
    SignatureTextIsBase64Url(signature);
    SignatureText(signature)
  }

  /** The calls `earlier` followed by the exchange `x`. */
  function After(earlier: seq<Call>, x: Exchange): (y: Exchange)
    ensures y.result == x.result && y.calls == earlier + x.calls
  {
    Exchange(x.result, earlier + x.calls)
  }

  /** The last stage of the handler: sign the header with `kid` and the
      claims with `key`, and answer with the token. */
  function SignWith(key: Cloud.KeyId, kid: string, claims: Payload, kms: KeyStoreReads, codec: Codec): (x: Exchange)
    ensures |x.calls| == 1 && x.calls[0].SignCall? && x.calls[0].key == key
    ensures x.result.Responded? <==> kms.sign(key, x.calls[0].message).Success? && kms.sign(key, x.calls[0].message).value.Some?
    ensures x.result.Responded? ==> x.result.response.statusCode == 200
  {
    var message := Dot(HeaderSegment(codec, kid), PayloadSegment(codec, claims));
    var signed := [SignCall(key, AsciiBytes(message))];
    match kms.sign(key, AsciiBytes(message))
    case Failure(e) => Exchange(Raised(StoreFault(e)), signed)
    case Success(None) => Exchange(Raised(MissingSignature), signed)
    case Success(Some(signature)) =>
      Exchange(Responded(Respond(TokenBody(message + "." + SignatureSegment(signature)))), signed)
  }

  /** The handler once the key behind the alias is known: read its `kid`
      tag, then sign. */
  function IssueWith(key: Cloud.KeyId, claims: Payload, kms: KeyStoreReads, codec: Codec): (x: Exchange)
    ensures 1 <= |x.calls| <= 2 && x.calls[0] == ListTagsCall(key)
    ensures forall i :: 0 <= i < |x.calls| ==> !x.calls[i].DescribeCall? && x.calls[i].key == key
  {
    var listed := [ListTagsCall(key)];
    match kms.listTags(key)
    case Failure(e) => Exchange(Raised(StoreFault(e)), listed)
    case Success(tags) =>
      match KidOf(tags)
      case None => Exchange(Responded(KeyNotTagged), listed)
      case Some(kid) => After(listed, SignWith(key, kid, claims, kms, codec))
  }

  /** What the handler does, as a function of its inputs and the answers of
      the key store. */
  function Handle(alias: string, req: Request, env: Environment, now: int, kms: KeyStoreReads, codec: Codec): Exchange {
    var identityArn := GetArnFromIdentity(req.userArn);
    if identityArn.None? then Exchange(Responded(UnresolvedIdentity), [])
    else
      var claims := Claims(identityArn.value, Audience(req.query, env.defaultAudience), env.issuer, now);
      var asked := [DescribeCall(alias)];
      match kms.describe(alias)
      case Failure(e) => Exchange(Raised(StoreFault(e)), asked)
      case Success(None) => Exchange(Responded(KeyNotRetrieved), asked)
      case Success(Some(key)) => After(asked, IssueWith(key, claims, kms, codec))
  }

  /** `handler`: resolves the identity and the audience, then reads the key
      behind `alias`, its tags, and a signature over the header and payload,
      answering with the first failure or with the token. */
  method Handler(alias: string, req: Request, env: Environment, now: int, kms: KeyStoreReads, codec: Codec)
    returns (res: Invocation, calls: seq<Call>)
    ensures Exchange(res, calls) == Handle(alias, req, env, now, kms, codec)
  {
    calls := [];
    var identityArn := GetArnFromIdentity(req.userArn);
    if identityArn.None? {
      return Responded(UnresolvedIdentity), calls;
    }
    var aud := Audience(req.query, env.defaultAudience);

    calls := calls + [DescribeCall(alias)];
    var currentResponse := kms.describe(alias);
    if currentResponse.Failure? {
      return Raised(StoreFault(currentResponse.error)), calls;
    }
    var currentKeyId := currentResponse.value;
    if currentKeyId.None? {
      return Responded(KeyNotRetrieved), calls;
    }
    assert Handle(alias, req, env, now, kms, codec)
        == After(calls, IssueWith(currentKeyId.value, Claims(identityArn.value, aud, env.issuer, now), kms, codec));
    var later;
    res, later := IssueToken(currentKeyId.value, identityArn.value, aud, env.issuer, now, kms, codec);
    calls := calls + later;
  }

  /** The part of `handler` after the key is described: read the key's tags
      and its `kid`. */
  method IssueToken(key: Cloud.KeyId, sub: string, aud: Option<string>, iss: Option<string>, now: int,
                    kms: KeyStoreReads, codec: Codec)
    returns (res: Invocation, calls: seq<Call>)
    ensures Exchange(res, calls) == IssueWith(key, Claims(sub, aud, iss, now), kms, codec)
  {
    calls := [ListTagsCall(key)];
    var listResourceTagsResponse := kms.listTags(key);
    if listResourceTagsResponse.Failure? {
      return Raised(StoreFault(listResourceTagsResponse.error)), calls;
    }
    var tags := TagsOf(listResourceTagsResponse.value);
    var kid := GetTagValueFromTags(KeyRotation.KidTag, tags);
    if kid.NoTag? || kid.value.None? {
      return Responded(KeyNotTagged), calls;
    }
    assert KidOf(listResourceTagsResponse.value) == kid.value;
    var later;
    res, later := SignToken(key, kid.value.value, sub, aud, iss, now, kms, codec);
    calls := calls + later;
  }

  /** The part of `handler` after the `kid` is read: build the header and the
      payload, sign them, and answer with the token. */
  method SignToken(key: Cloud.KeyId, kid: string, sub: string, aud: Option<string>, iss: Option<string>, now: int,
                   kms: KeyStoreReads, codec: Codec)
    returns (res: Invocation, calls: seq<Call>)
    ensures Exchange(res, calls) == SignWith(key, kid, Claims(sub, aud, iss, now), kms, codec)
  {
    var headers := TokenHeader(kid);
    var payload := Claims(sub, aud, iss, now);
    var tokenHeaders := Base64Url(codec.header(headers));
    var tokenPayload := Base64Url(codec.payload(payload));
    var message := Dot(tokenHeaders, tokenPayload);

    calls := [SignCall(key, AsciiBytes(message))];
    var signResponse := kms.sign(key, AsciiBytes(message));
    if signResponse.Failure? {
      return Raised(StoreFault(signResponse.error)), calls;
    }
    if signResponse.value.None? {
      return Raised(MissingSignature), calls;
    }
    var signature := SignatureSegment(signResponse.value.value);
    var token := message + "." + signature;
    res := Responded(Respond(TokenBody(token)));
  }

  // ----- properties of the handler -----

  /** The response is decided in a fixed order: an identity that does not
      resolve is answered with 400 before any key-store call; a described key
      without an id gives the first 500; a key without a usable `jwk_kid` tag
      the second; everything answered gives 200. */
  lemma ResponseOrder(alias: string, req: Request, env: Environment, now: int, kms: KeyStoreReads, codec: Codec)
    ensures var x := Handle(alias, req, env, now, kms, codec);
            var identity := GetArnFromIdentity(req.userArn);
            && (x.result == Responded(UnresolvedIdentity) <==> identity.None?)
            && (identity.None? ==> x.calls == [])
            && (x.result == Responded(KeyNotRetrieved) <==> identity.Some? && kms.describe(alias) == Success(None))
            && (x.result == Responded(KeyNotTagged) <==>
                  && identity.Some? && kms.describe(alias).Success? && kms.describe(alias).value.Some?
                  && kms.listTags(kms.describe(alias).value.value).Success?
                  && KidOf(kms.listTags(kms.describe(alias).value.value).value).None?)
            && (x.result.Responded? && x.result.response.statusCode == 200 <==>
                  && identity.Some? && kms.describe(alias).Success? && kms.describe(alias).value.Some?
                  && kms.listTags(kms.describe(alias).value.value).Success?
                  && KidOf(kms.listTags(kms.describe(alias).value.value).value).Some?
                  && |x.calls| == 3 && x.calls[2].SignCall?
                  && kms.sign(x.calls[2].key, x.calls[2].message).Success?
                  && kms.sign(x.calls[2].key, x.calls[2].message).value.Some?)
  {
    var x := Handle(alias, req, env, now, kms, codec);
    var identity := GetArnFromIdentity(req.userArn);
    if identity.None? {
      assert x == Exchange(Responded(UnresolvedIdentity), []);
    } else {
      var claims := Claims(identity.value, Audience(req.query, env.defaultAudience), env.issuer, now);
      match kms.describe(alias)
      case Failure(e) =>
        assert x.result == Raised(StoreFault(e));
      case Success(None) =>
        assert x.result == Responded(KeyNotRetrieved);
      case Success(Some(key)) =>
        var y := IssueWith(key, claims, kms, codec);
        assert x == After([DescribeCall(alias)], y);
        match kms.listTags(key)
        case Failure(e) =>
          assert y.result == Raised(StoreFault(e));
        case Success(tags) =>
          if KidOf(tags).None? {
            assert y.result == Responded(KeyNotTagged);
          } else {
            var z := SignWith(key, KidOf(tags).value, claims, kms, codec);
            assert y == After([ListTagsCall(key)], z);
            ThreeCalls(DescribeCall(alias), ListTagsCall(key), z.calls[0]);
          }
    }
  }

  /** Calls about `key` alone, after describing `alias`. */
  lemma DescribedFirst(alias: string, key: Cloud.KeyId, y: Exchange)
    requires |y.calls| <= 2
    requires forall i :: 0 <= i < |y.calls| ==> !y.calls[i].DescribeCall? && y.calls[i].key == key
    ensures var x := After([DescribeCall(alias)], y);
            && |x.calls| <= 3 && x.calls[0] == DescribeCall(alias)
            && forall i :: 1 <= i < |x.calls| ==> !x.calls[i].DescribeCall? && x.calls[i].key == key
  {
    var x := After([DescribeCall(alias)], y);
    assert forall i :: 1 <= i < |x.calls| ==> x.calls[i] == y.calls[i - 1];
  }

  /** The handler describes only the alias it is given, once and first, and
      every later call is about the key that alias resolved to. */
  lemma OnlyCurrentAliasDescribed(alias: string, req: Request, env: Environment, now: int, kms: KeyStoreReads, codec: Codec)
    ensures var x := Handle(alias, req, env, now, kms, codec);
            && |x.calls| <= 3
            && (x.calls == [] || x.calls[0] == DescribeCall(alias))
            && forall i :: 1 <= i < |x.calls| ==>
                 !x.calls[i].DescribeCall? && kms.describe(alias) == Success(Some(x.calls[i].key))
  {
    var identity := GetArnFromIdentity(req.userArn);
    if identity.Some? && kms.describe(alias).Success? && kms.describe(alias).value.Some? {
      var claims := Claims(identity.value, Audience(req.query, env.defaultAudience), env.issuer, now);
      var y := IssueWith(kms.describe(alias).value.value, claims, kms, codec);
      var x := Handle(alias, req, env, now, kms, codec);
      assert x == After([DescribeCall(alias)], y);
      DescribedFirst(alias, kms.describe(alias).value.value, y);
    }
  }

  /** A token from the signing stage is the header segment, the payload
      segment and the base64url text of the signature the key store returned
      for exactly the first two joined by a dot. */
  lemma SignedToken(key: Cloud.KeyId, kid: string, claims: Payload, kms: KeyStoreReads, codec: Codec)
    requires SignWith(key, kid, claims, kms, codec).result.Responded?
    ensures var h := HeaderSegment(codec, kid);
            var p := PayloadSegment(codec, claims);
            var x := SignWith(key, kid, claims, kms, codec);
            && x.calls == [SignCall(key, AsciiBytes(Dot(h, p)))]
            && kms.sign(key, AsciiBytes(Dot(h, p))).Success? && kms.sign(key, AsciiBytes(Dot(h, p))).value.Some?
            && var s := Base64Url(kms.sign(key, AsciiBytes(Dot(h, p))).value.value);
               && x.result.response == Response(200, TokenBody(Dot(h, p) + "." + s))
               && Split(Dot(h, p) + "." + s) == [h, p, s]
               && (Dot(h, p) + "." + s)[..|h| + 1 + |p|] == Dot(h, p)
  {
    var h := HeaderSegment(codec, kid);
    var p := PayloadSegment(codec, claims);
    var signature := kms.sign(key, AsciiBytes(Dot(h, p))).value.value;
    SignatureTextIsBase64Url(signature);
    CompactSplits(h, p, Base64Url(signature));
  }

  /** A 200 answer carries a token whose three parts are the header segment
      (RS256, JWT, the `kid` of the described key), the payload segment (the
      caller's role ARN, the audience, the issuer and the lifetimes), and the
      unpadded base64url text of the signature the key store returned for
      exactly the first two parts joined by a dot. */
  lemma TokenIssued(alias: string, req: Request, env: Environment, now: int, kms: KeyStoreReads, codec: Codec)
    requires Handle(alias, req, env, now, kms, codec).result.Responded?
    requires Handle(alias, req, env, now, kms, codec).result.response.statusCode == 200
    ensures GetArnFromIdentity(req.userArn).Some?
    ensures kms.describe(alias).Success? && kms.describe(alias).value.Some?
    ensures kms.listTags(kms.describe(alias).value.value).Success?
    ensures KidOf(kms.listTags(kms.describe(alias).value.value).value).Some?
    ensures var key := kms.describe(alias).value.value;
            var kid := KidOf(kms.listTags(key).value).value;
            var payload := Claims(GetArnFromIdentity(req.userArn).value, Audience(req.query, env.defaultAudience), env.issuer, now);
            var h := HeaderSegment(codec, kid);
            var p := PayloadSegment(codec, payload);
            var x := Handle(alias, req, env, now, kms, codec);
            && x.calls == [DescribeCall(alias), ListTagsCall(key), SignCall(key, AsciiBytes(Dot(h, p)))]
            && kms.sign(key, AsciiBytes(Dot(h, p))).Success? && kms.sign(key, AsciiBytes(Dot(h, p))).value.Some?
            && var s := Base64Url(kms.sign(key, AsciiBytes(Dot(h, p))).value.value);
               && x.result.response.body == TokenBody(Dot(h, p) + "." + s)
               && Split(Dot(h, p) + "." + s) == [h, p, s]
               && (Dot(h, p) + "." + s)[..|h| + 1 + |p|] == Dot(h, p)
  {
    var x := Handle(alias, req, env, now, kms, codec);
    var identity := GetArnFromIdentity(req.userArn);
    assert identity.Some? && kms.describe(alias).Success? && kms.describe(alias).value.Some?;
    var key := kms.describe(alias).value.value;
    var payload := Claims(identity.value, Audience(req.query, env.defaultAudience), env.issuer, now);
    var issued := IssueWith(key, payload, kms, codec);
    assert x == After([DescribeCall(alias)], issued);
    assert kms.listTags(key).Success? && KidOf(kms.listTags(key).value).Some?;
    var kid := KidOf(kms.listTags(key).value).value;
    var signing := SignWith(key, kid, payload, kms, codec);
    assert issued == After([ListTagsCall(key)], signing);
    SignedToken(key, kid, payload, kms, codec);
    ThreeCalls(DescribeCall(alias), ListTagsCall(key), signing.calls[0]);
  }

  lemma ThreeCalls(a: Call, b: Call, c: Call)
    ensures [a] + ([b] + [c]) == [a, b, c]
  {
  }

  /** An identity without a single `:` cannot be an assumed-role ARN: the
      handler answers 400 and calls nothing. */
  lemma GarbageIdentityRejected(s: string, query: Option<map<string, string>>, alias: string, env: Environment, now: int,
                                kms: KeyStoreReads, codec: Codec)
    requires ':' !in s
    ensures Handle(alias, Request(Some(s), query), env, now, kms, codec) == Exchange(Responded(UnresolvedIdentity), [])
  {
    GetArnRejectsWithoutColon(s);
  }

  /** With the identity resolved to `sub`, the key described, its `kid`
      read and every signing request answered, the handler answers 200 with
      the token over that `kid` and the claims for `sub` at time `now`. */
  lemma Issues(alias: string, req: Request, env: Environment, now: int, kms: KeyStoreReads, codec: Codec,
               sub: string, key: Cloud.KeyId, kid: string, signature: seq<byte>)
    requires GetArnFromIdentity(req.userArn) == Some(sub)
    requires kms.describe(alias) == Success(Some(key))
    requires kms.listTags(key).Success? && KidOf(kms.listTags(key).value) == Some(kid)
    requires forall m :: kms.sign(key, m) == Success(Some(signature))
    ensures var message := Dot(HeaderSegment(codec, kid),
                               PayloadSegment(codec, Claims(sub, Audience(req.query, env.defaultAudience), env.issuer, now)));
            Handle(alias, req, env, now, kms, codec)
              == Exchange(Responded(Response(200, TokenBody(message + "." + Base64Url(signature)))),
                          [DescribeCall(alias), ListTagsCall(key), SignCall(key, AsciiBytes(message))])
  {
    SignatureTextIsBase64Url(signature);
  }

  /** A key whose only tag is `jwk_kid` yields that tag's value as `kid`. */
  lemma SingleKidTag(value: string)
    ensures KidOf(Some([Tag(Some("jwk_kid"), Some(value))])) == Some(value)
  {
    assert FirstMatchAt(KeyRotation.KidTag, [Tag(Some("jwk_kid"), Some(value))], 0);
  }

  /** The claims at midnight of 2020-01-01 (1577836800000 ms). */
  lemma NewYear2020Claims(sub: string, aud: Option<string>, iss: Option<string>)
    ensures Claims(sub, aud, iss, 1577836800000) == Payload(sub, aud, iss, 1577836800, 1577840400, 1577836500)
  {
  }

  /** The successful signing scenario: the session
      `arn:aws:sts:eu-central-1:123456789012:assumed-role/this-is-my-role-name/this-is-my-username`
      at midnight of 2020-01-01, a key tagged with a `kid`, the default
      audience and an issuer set.  The token is signed over the header with
      that `kid` and the payload with the normalised role ARN and lifetimes
      one hour after and five minutes before the second of issue. */
  lemma SigningScenario(alias: string, kms: KeyStoreReads, codec: Codec, key: Cloud.KeyId, signature: seq<byte>)
    requires kms.describe(alias) == Success(Some(key))
    requires kms.listTags(key) == Success(Some([Tag(Some("jwk_kid"), Some("I am the KID from the JWK"))]))
    requires forall m :: kms.sign(key, m) == Success(Some(signature))
    ensures var c := Captures("eu-central-1", "123456789012", "this-is-my-role-name", "this-is-my-username");
            var req := Request(Some(Assemble(c)), None);
            var env := Environment(Some("api://default-aud"), Some("https://test-issuer.com"));
            var x := Handle(alias, req, env, 1577836800000, kms, codec);
            var payload := Payload(RoleArn(c), Some("api://default-aud"), Some("https://test-issuer.com"),
                                   1577836800, 1577840400, 1577836500);
            var message := Dot(HeaderSegment(codec, "I am the KID from the JWK"), PayloadSegment(codec, payload));
            && x.result == Responded(Response(200, TokenBody(message + "." + Base64Url(signature))))
            && x.calls == [DescribeCall(alias), ListTagsCall(key), SignCall(key, AsciiBytes(message))]
  {
    var c := Captures("eu-central-1", "123456789012", "this-is-my-role-name", "this-is-my-username");
    var req := Request(Some(Assemble(c)), None);
    var env := Environment(Some("api://default-aud"), Some("https://test-issuer.com"));
    var sub := RoleArn(c);
    var kid := "I am the KID from the JWK";
    GetArnSessionExample();
    SingleKidTag(kid);
    NewYear2020Claims(sub, Some("api://default-aud"), Some("https://test-issuer.com"));
    assert Audience(req.query, env.defaultAudience) == Some("api://default-aud");
    Issues(alias, req, env, 1577836800000, kms, codec, sub, key, kid, signature);
  }

  // ----- the signer and the published key set -----

  /** `tags` lists the tag map `m` of a key: every listed tag is an entry of
      `m`, and every entry of `m` is listed. */
  predicate Lists(tags: seq<Tag>, m: map<string, string>) {
    && (forall i :: 0 <= i < |tags| ==>
          tags[i].tagKey.Some? && tags[i].tagKey.value in m && tags[i].tagValue == Some(m[tags[i].tagKey.value]))
    && (forall key :: key in m ==> exists i :: 0 <= i < |tags| && tags[i].tagKey == Some(key))
  }

  /** Read from a listing, the `kid` the handler accepts is the key's
      `jwk_kid` tag, and there is none when the key has no such tag. */
  lemma KidOfListing(tags: seq<Tag>, m: map<string, string>)
    requires Lists(tags, m)
    ensures KidOf(Some(tags)) == if KeyRotation.KidTag in m then Some(m[KeyRotation.KidTag]) else None
  {
    TagValueFirstMatch(KeyRotation.KidTag, tags);
    if KeyRotation.KidTag in m {
      var i :| 0 <= i < |tags| && tags[i].tagKey == Some(KeyRotation.KidTag);
      var j :| FirstMatchAt(KeyRotation.KidTag, tags, j);
    }
  }

  /** In a key store where every aliased key carries the `kid` of its entry,
      the `kid` read from the listing of CURRENT's tags is the `kid` of an
      entry of the key set of the aliases. */
  lemma CurrentKidPublished(st: Cloud.KeyStore, cfg: KeyRotation.Config, toJwk: Cloud.PublicKeyDer -> Cloud.PublicJwk,
                            tags: seq<Tag>)
    requires Cloud.Consistent(st) && KeyRotation.KidsTagged(st, st.tags, KeyRotation.Aliases(cfg), toJwk)
    requires cfg.currentAlias in st.aliases && Lists(tags, st.tags[st.aliases[cfg.currentAlias]])
    ensures var keys := KeyRotation.PublishedKeys(st.aliases, st.material, KeyRotation.Aliases(cfg), toJwk);
            && KidOf(Some(tags)).Some?
            && exists j :: 0 <= j < |keys| && keys[j].kid == KidOf(Some(tags)).value
  {
    var k := st.aliases[cfg.currentAlias];
    assert KeyRotation.Aliases(cfg)[1] == cfg.currentAlias;
    KidOfListing(tags, st.tags[k]);
    KeyRotation.PublishedKeysOfAliases(st.aliases, st.material, cfg, toJwk);
    var before := KeyRotation.Entry(st.aliases, st.material, cfg.previousAlias, toJwk);
    var keys := KeyRotation.PublishedKeys(st.aliases, st.material, KeyRotation.Aliases(cfg), toJwk);
    assert keys[|before|] == KeyRotation.Publish(toJwk(st.material[k]));
  }

  /** After a rotation run from a ring with every call answered, a token
      signed with the key behind CURRENT carries in its header the `kid` of
      an entry of the key set the run published, so that a verifier reading
      `discovery/keys` finds the key. */
  lemma IssuedKidIsPublished(w: KeyRotation.World, cfg: KeyRotation.Config, der: Cloud.PublicKeyDer,
                             toJwk: Cloud.PublicKeyDer -> Cloud.PublicJwk, tags: seq<Tag>)
    requires KeyRotation.Ring(w.kms, cfg) && KeyRotation.Healthy(w)
    requires var after := KeyRotation.Cycle(w, cfg, der, toJwk).world.kms;
             cfg.currentAlias in after.aliases && after.aliases[cfg.currentAlias] in after.tags
             && Lists(tags, after.tags[after.aliases[cfg.currentAlias]])
    ensures var objects := KeyRotation.Cycle(w, cfg, der, toJwk).world.objects;
            && KidOf(Some(tags)).Some?
            && KeyRotation.JwksKey in objects
            && var published := objects[KeyRotation.JwksKey];
            && published.KeySet?
            && exists j :: 0 <= j < |published.keys| && published.keys[j].kid == KidOf(Some(tags)).value
  {
    var r := KeyRotation.Cycle(w, cfg, der, toJwk);
    KeyRotation.CyclePublishes(w, cfg, der, toJwk);
    CurrentKidPublished(r.world.kms, cfg, toJwk, tags);
  }
}
