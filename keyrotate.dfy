/** The key rotation engine: a handler that performs one step of the rotation
    of three key aliases (PREVIOUS, CURRENT, PENDING) per invocation, and the
    chain that runs the five steps in order.

    Every step is a method that issues its calls to the key store and the
    bucket one by one.  Each method is specified by a function on snapshots
    (`KeyStore`, `World`) that says what the step does to the services, and
    the properties of the rotation are lemmas about those functions. */
module KeyRotation {
  import opened Wrappers
  import opened Cloud

  /** The alias names and the issuer, read from the environment when the
      handler is loaded (`PREVIOUS_KEY`, `CURRENT_KEY`, `PENDING_KEY`,
      `ISSUER`); an unset issuer is `None`. */
  datatype Config = Config(previousAlias: string, currentAlias: string, pendingAlias: string, issuer: Option<string>)

  /** `ALIASES`: the order in which the key set lists the keys. */
  function Aliases(cfg: Config): seq<string> {
    [cfg.previousAlias, cfg.currentAlias, cfg.pendingAlias]
  }

  predicate DistinctAliases(cfg: Config) {
    cfg.previousAlias != cfg.currentAlias && cfg.currentAlias != cfg.pendingAlias
    && cfg.previousAlias != cfg.pendingAlias
  }

  /** Object keys in the bucket and the tag that records a key's `kid`. */
  const JwksKey: string := "discovery/keys"
  const OpenIdKey: string := ".well-known/openid-configuration"
  const KidTag: string := "jwk_kid"

  /** The key an alias is bound to, if any. */
  function Lookup(st: KeyStore, name: string): Option<KeyId> {
    if name in st.aliases then Some(st.aliases[name]) else None
  }

  // ---------------------------------------------------------------------
  // Single steps on the key store
  // ---------------------------------------------------------------------

  /** `getKeyIdForAlias`: the bound key, `None` when the store reports the
      alias as not found, and any other error passed on. */
  function KeyIdOf(st: KeyStore, name: string): (r: Result<Option<KeyId>, StoreError>)
    ensures Command.DescribeKey in st.failing ==> r == Failure(Rejected(Command.DescribeKey))
    ensures Command.DescribeKey !in st.failing ==> r == Success(Lookup(st, name))
  {
    match Describe(st, name)
    case Success(k) => Success(Some(k))
    case Failure(NotFound) => Success(None)
    case Failure(err) => Failure(err)
  }

  /** `updateOrCreateAlias`: `UpdateAlias`, and `CreateAlias` when the update
      reports the alias as not found. */
  function UpdateOrCreate(st: KeyStore, name: string, key: KeyId): (e: Effect)
    ensures e.outcome.Pass? ==> e.store == st.(aliases := st.aliases[name := key])
    ensures e.outcome.Fail? ==> e.store == st
    ensures key in st.keys && Command.UpdateAlias !in st.failing && Command.CreateAlias !in st.failing
            ==> e.outcome.Pass?
    ensures Command.UpdateAlias in st.failing ==> e.outcome == Fail(Rejected(Command.UpdateAlias))
    ensures Command.UpdateAlias !in st.failing && name !in st.aliases && Command.CreateAlias in st.failing
            ==> e == Effect(Fail(Rejected(Command.CreateAlias)), st)
    ensures Consistent(st) ==> Consistent(e.store)
  {
    var updated := Repoint(st, name, key);
    if updated.outcome == Fail(NotFound) then NewAlias(updated.store, name, key) else updated
  }

  /** `deletePrevious`: schedules the key PREVIOUS is bound to for deletion;
      the alias itself stays where it is. */
  function DeletePreviousStep(st: KeyStore, cfg: Config): (e: Effect)
    ensures e.store == st.(scheduled := e.store.scheduled)
    ensures Command.DescribeKey in st.failing ==> e == Effect(Fail(Rejected(Command.DescribeKey)), st)
    ensures Command.DescribeKey !in st.failing && Lookup(st, cfg.previousAlias).None? ==> e == Effect(Pass, st)
    ensures Consistent(st) && Command.DescribeKey !in st.failing && Command.ScheduleKeyDeletion !in st.failing
            && Lookup(st, cfg.previousAlias).Some?
            ==> e == Effect(Pass, st.(scheduled := st.scheduled + {Lookup(st, cfg.previousAlias).value}))
    ensures Command.DescribeKey !in st.failing && Lookup(st, cfg.previousAlias).Some?
            && Command.ScheduleKeyDeletion in st.failing
            ==> e == Effect(Fail(Rejected(Command.ScheduleKeyDeletion)), st)
    ensures Consistent(st) ==> Consistent(e.store)
  {
    match KeyIdOf(st, cfg.previousAlias)
    case Failure(err) => Effect(Fail(err), st)
    case Success(None) => Effect(Pass, st)
    case Success(Some(k)) => ScheduleDeletion(st, k)
  }

  /** The common shape of `movePrevious` and `moveCurrent`: bind `target` to
      the key `source` is bound to, and do nothing when `source` is unbound. */
  function Promote(st: KeyStore, source: string, target: string): (e: Effect)
    ensures e.outcome.Fail? ==> e.store == st
    ensures e.outcome.Pass? && Lookup(st, source).Some?
            ==> e.store == st.(aliases := st.aliases[target := Lookup(st, source).value])
    ensures Command.DescribeKey in st.failing ==> e == Effect(Fail(Rejected(Command.DescribeKey)), st)
    ensures Command.DescribeKey !in st.failing && Lookup(st, source).None? ==> e == Effect(Pass, st)
    ensures Command.DescribeKey !in st.failing && Lookup(st, source).Some? && Command.UpdateAlias in st.failing
            ==> e == Effect(Fail(Rejected(Command.UpdateAlias)), st)
    ensures Command.DescribeKey !in st.failing && Lookup(st, source).Some? && Command.UpdateAlias !in st.failing
            && target !in st.aliases && Command.CreateAlias in st.failing
            ==> e == Effect(Fail(Rejected(Command.CreateAlias)), st)
    ensures (Consistent(st) && Command.DescribeKey !in st.failing && Command.UpdateAlias !in st.failing
             && Command.CreateAlias !in st.failing) ==> e.outcome.Pass?
    ensures Consistent(st) ==> Consistent(e.store)
  {
    match KeyIdOf(st, source)
    case Failure(err) => Effect(Fail(err), st)
    case Success(None) => Effect(Pass, st)
    case Success(Some(k)) => UpdateOrCreate(st, target, k)
  }

  /** `movePrevious`: PREVIOUS follows CURRENT. */
  function MovePreviousStep(st: KeyStore, cfg: Config): Effect {
    Promote(st, cfg.currentAlias, cfg.previousAlias)
  }

  /** `moveCurrent`: CURRENT follows PENDING. */
  function MoveCurrentStep(st: KeyStore, cfg: Config): Effect {
    Promote(st, cfg.pendingAlias, cfg.currentAlias)
  }

  /** `createPending`: a new key, with public material `der`, bound to
      PENDING.  When the alias cannot be bound the new key is left behind
      without an alias. */
  function CreatePendingStep(st: KeyStore, cfg: Config, der: PublicKeyDer): (e: Effect)
    ensures e.outcome.Pass? ==>
              var k := st.nextKeyId;
              e.store == st.(keys := st.keys + {k}, material := st.material[k := der],
                             tags := st.tags[k := map[]], nextKeyId := k + 1,
                             aliases := st.aliases[cfg.pendingAlias := k])
    ensures e.outcome.Fail? ==> e.store.aliases == st.aliases && e.store.scheduled == st.scheduled
    ensures Command.CreateKey in st.failing ==> e == Effect(Fail(Rejected(Command.CreateKey)), st)
    ensures Command.CreateKey !in st.failing
            && (Command.UpdateAlias in st.failing || (cfg.pendingAlias !in st.aliases && Command.CreateAlias in st.failing))
            ==> var k := st.nextKeyId;
                e == Effect(Fail(Rejected(if Command.UpdateAlias in st.failing then Command.UpdateAlias else Command.CreateAlias)),
                            st.(keys := st.keys + {k}, material := st.material[k := der],
                                tags := st.tags[k := map[]], nextKeyId := k + 1))
    ensures (Command.CreateKey !in st.failing && Command.UpdateAlias !in st.failing
             && Command.CreateAlias !in st.failing) ==> e.outcome.Pass?
    ensures Consistent(st) ==> Consistent(e.store)
  {
    var created := NewKey(st, der);
    match created.result
    case Failure(err) => Effect(Fail(err), st)
    case Success(k) => UpdateOrCreate(created.store, cfg.pendingAlias, k)
  }

  /** A new key never collides with an existing one. */
  lemma FreshKeyId(st: KeyStore)
    requires Consistent(st)
    ensures st.nextKeyId !in st.keys && st.nextKeyId !in st.scheduled && st.nextKeyId !in st.aliases.Values
  {
  }

  // ---------------------------------------------------------------------
  // The published documents
  // ---------------------------------------------------------------------

  /** `generateJWK`'s additions to the converted key: signing use, RS256
      (section 3.3 of RFC 7518). */
  function Publish(p: PublicJwk): (j: Jwk)
    ensures j.use == "sig" && j.alg == "RS256"
    ensures j.kty == p.kty && j.n == p.n && j.e == p.e && j.kid == p.kid
  {
    Jwk(p.kty, p.n, p.e, p.kid, "RS256", "sig")
  }

  /** `generateJWK`: the public key behind an alias, converted by `toJwk`
      (the PEM wrapping and `KEYUTIL.getJWK`). */
  function JwkFor(st: KeyStore, name: string, toJwk: PublicKeyDer -> PublicJwk): Result<Jwk, StoreError> {
    match PublicKeyOf(st, name)
    case Failure(err) => Failure(err)
    case Success(der) => Success(Publish(toJwk(der)))
  }

  /** The key-set entry of one alias: the published form of its key, or
      nothing when it is unbound. */
  function Entry(aliases: map<string, KeyId>, material: map<KeyId, PublicKeyDer>, name: string,
                 toJwk: PublicKeyDer -> PublicJwk): seq<Jwk>
  {
    if name in aliases && aliases[name] in material then [Publish(toJwk(material[aliases[name]]))] else []
  }

  /** The key set the rotation is meant to publish: one entry per bound
      alias, in the order of `names`. */
  function PublishedKeys(aliases: map<string, KeyId>, material: map<KeyId, PublicKeyDer>, names: seq<string>,
                         toJwk: PublicKeyDer -> PublicJwk): seq<Jwk>
  {
    if names == [] then [] else Entry(aliases, material, names[0], toJwk) + PublishedKeys(aliases, material, names[1..], toJwk)
  }

  /** The state of `generateJWKS`'s loop: the outcome so far, the key store,
      and `allKeys`. */
  datatype Gathered = Gathered(outcome: Outcome<StoreError>, store: KeyStore, keys: seq<Jwk>)

  /** One iteration of `generateJWKS`'s loop: describe the alias and, when it
      is bound, convert its public key, tag the key with the `kid`, and append
      the entry. */
  function AddKey(g: Gathered, name: string, toJwk: PublicKeyDer -> PublicJwk): Gathered {
    match KeyIdOf(g.store, name)
    case Failure(err) => g.(outcome := Fail(err))
    case Success(None) => g
    case Success(Some(k)) =>
      match JwkFor(g.store, name, toJwk)
      case Failure(err) => g.(outcome := Fail(err))
      case Success(jwk) =>
        var tagged := Tag(g.store, k, KidTag, jwk.kid);
        if tagged.outcome.Fail? then Gathered(tagged.outcome, tagged.store, g.keys)
        else Gathered(Pass, tagged.store, g.keys + [jwk])
  }

  /** The loop of `generateJWKS` over `names`, stopping at the first error. */
  function GatherKeys(st: KeyStore, names: seq<string>, toJwk: PublicKeyDer -> PublicJwk): Gathered
    decreases |names|
  {
    if names == [] then Gathered(Pass, st, [])
    else
      var g := GatherKeys(st, names[..|names| - 1], toJwk);
      if g.outcome.Fail? then g else AddKey(g, names[|names| - 1], toJwk)
  }

  /** The text of the issuer in the `jwks_uri` template: an unset issuer is
      spelled `undefined`. */
  function IssuerText(issuer: Option<string>): string {
    match issuer
    case None => "undefined"
    case Some(s) => s
  }

  /** `generateOpenIDConfiguration`'s document. */
  function OpenIdDocument(issuer: Option<string>): (d: Document)
    ensures d.OpenIdConfiguration? && d.issuer == issuer
    ensures d.jwksUri == IssuerText(issuer) + "/" + JwksKey
    ensures d.idTokenSigningAlgValuesSupported == ["RS256"]
  {
    OpenIdConfiguration(issuer, IssuerText(issuer) + "/discovery/keys", ["token"], ["RS256"], ["openid"],
                        ["client_secret_basic"], ["aud", "exp", "iat", "iss", "sub"])
  }

  // ---------------------------------------------------------------------
  // Whole invocations
  // ---------------------------------------------------------------------

  /** Both services together. */
  datatype World = World(kms: KeyStore, objects: map<string, Document>, bucketFailing: bool)

  /** How an invocation ended, and the services afterwards. */
  datatype Run = Run(outcome: Outcome<StoreError>, world: World)

  function OnKeys(w: World, e: Effect): Run {
    Run(e.outcome, w.(kms := e.store))
  }

  /** `uploadToS3`: a whole-object write. */
  function Put(w: World, key: string, doc: Document): (r: Run)
    ensures r.world.kms == w.kms && r.world.bucketFailing == w.bucketFailing
    ensures r.outcome.Pass? <==> !w.bucketFailing
    ensures r.world.objects == if w.bucketFailing then w.objects else w.objects[key := doc]
  {
    if w.bucketFailing then Run(Fail(Rejected(Command.PutObject)), w)
    else Run(Pass, w.(objects := w.objects[key := doc]))
  }

  /** `generateJWKS`: gather the keys of the three aliases, then upload the
      key set. */
  function JwksStep(w: World, cfg: Config, toJwk: PublicKeyDer -> PublicJwk): Run {
    var g := GatherKeys(w.kms, Aliases(cfg), toJwk);
    if g.outcome.Fail? then Run(g.outcome, w.(kms := g.store))
    else Put(w.(kms := g.store), JwksKey, KeySet(g.keys))
  }

  /** The `generateArtifacts` step: the key set, then the discovery document. */
  function ArtifactsStep(w: World, cfg: Config, toJwk: PublicKeyDer -> PublicJwk): Run {
    var r := JwksStep(w, cfg, toJwk);
    if r.outcome.Fail? then r else Put(r.world, OpenIdKey, OpenIdDocument(cfg.issuer))
  }

  /** `handler`: one step chosen by the event's `step`; any other step is
      logged and ignored. */
  function HandleStep(step: string, w: World, cfg: Config, der: PublicKeyDer,
                      toJwk: PublicKeyDer -> PublicJwk): (r: Run)
    ensures step !in {"deletePrevious", "movePrevious", "moveCurrent", "createPending", "generateArtifacts"}
            ==> r == Run(Pass, w)
    ensures step != "generateArtifacts" ==> r.world.objects == w.objects
  {
    if step == "deletePrevious" then OnKeys(w, DeletePreviousStep(w.kms, cfg))
    else if step == "movePrevious" then OnKeys(w, MovePreviousStep(w.kms, cfg))
    else if step == "moveCurrent" then OnKeys(w, MoveCurrentStep(w.kms, cfg))
    else if step == "createPending" then OnKeys(w, CreatePendingStep(w.kms, cfg, der))
    else if step == "generateArtifacts" then ArtifactsStep(w, cfg, toJwk)
    else Run(Pass, w)
  }

  /** The next step of the chain, unless an earlier one failed (a failed
      step sends the state machine to its failure state). */
  function AndThen(r: Run, step: string, cfg: Config, der: PublicKeyDer, toJwk: PublicKeyDer -> PublicJwk): Run {
    if r.outcome.Fail? then r else HandleStep(step, r.world, cfg, der, toJwk)
  }

  /** The runs after each step of one pass of the rotation state machine:
      delete, move PREVIOUS, move CURRENT, create PENDING, generate the
      artifacts. */
  function Stages(w: World, cfg: Config, der: PublicKeyDer, toJwk: PublicKeyDer -> PublicJwk): (s: seq<Run>)
    ensures |s| == 5
  {
    var deleted := HandleStep("deletePrevious", w, cfg, der, toJwk);
    var movedPrevious := AndThen(deleted, "movePrevious", cfg, der, toJwk);
    var movedCurrent := AndThen(movedPrevious, "moveCurrent", cfg, der, toJwk);
    var created := AndThen(movedCurrent, "createPending", cfg, der, toJwk);
    [deleted, movedPrevious, movedCurrent, created, AndThen(created, "generateArtifacts", cfg, der, toJwk)]
  }

  /** One whole run of the rotation state machine. */
  function Cycle(w: World, cfg: Config, der: PublicKeyDer, toJwk: PublicKeyDer -> PublicJwk): Run {
    Stages(w, cfg, der, toJwk)[4]
  }

  // ---------------------------------------------------------------------
  // The methods
  // ---------------------------------------------------------------------

  ghost function WorldOf(kms: KeyService, bucket: Bucket): World
    reads kms, bucket
  {
    World(kms.State(), bucket.objects, bucket.failing)
  }

  method GetKeyIdForAlias(kms: KeyService, name: string) returns (r: Result<Option<KeyId>, StoreError>)
    ensures r == KeyIdOf(kms.State(), name)
  {
    var described := kms.DescribeKey(name);
    match described
    case Success(k) => r := Success(Some(k));
    case Failure(NotFound) => r := Success(None);
    case Failure(err) => r := Failure(err);
  }

  method UpdateOrCreateAlias(kms: KeyService, name: string, key: KeyId) returns (o: Outcome<StoreError>)
    modifies kms`aliases
    ensures Effect(o, kms.State()) == UpdateOrCreate(old(kms.State()), name, key)
  {
    o := kms.UpdateAlias(name, key);
    if o == Fail(NotFound) {
      o := kms.CreateAlias(name, key);
    }
  }

  method DeletePrevious(kms: KeyService, cfg: Config) returns (o: Outcome<StoreError>)
    modifies kms`scheduled
    ensures Effect(o, kms.State()) == DeletePreviousStep(old(kms.State()), cfg)
  {
    var previous := GetKeyIdForAlias(kms, cfg.previousAlias);
    match previous
    case Failure(err) => o := Fail(err);
    case Success(None) => o := Pass;
    case Success(Some(k)) => o := kms.ScheduleKeyDeletion(k);
  }

  method MovePrevious(kms: KeyService, cfg: Config) returns (o: Outcome<StoreError>)
    modifies kms`aliases
    ensures Effect(o, kms.State()) == MovePreviousStep(old(kms.State()), cfg)
  {
    var current := GetKeyIdForAlias(kms, cfg.currentAlias);
    match current
    case Failure(err) => o := Fail(err);
    case Success(None) => o := Pass;
    case Success(Some(k)) => o := UpdateOrCreateAlias(kms, cfg.previousAlias, k);
  }

  method MoveCurrent(kms: KeyService, cfg: Config) returns (o: Outcome<StoreError>)
    modifies kms`aliases
    ensures Effect(o, kms.State()) == MoveCurrentStep(old(kms.State()), cfg)
  {
    var pending := GetKeyIdForAlias(kms, cfg.pendingAlias);
    match pending
    case Failure(err) => o := Fail(err);
    case Success(None) => o := Pass;
    case Success(Some(k)) => o := UpdateOrCreateAlias(kms, cfg.currentAlias, k);
  }

  method CreatePending(kms: KeyService, cfg: Config, der: PublicKeyDer) returns (o: Outcome<StoreError>)
    modifies kms`aliases, kms`keys, kms`material, kms`tags, kms`nextKeyId
    ensures Effect(o, kms.State()) == CreatePendingStep(old(kms.State()), cfg, der)
  {
    var created := kms.CreateKey(der);
    match created
    case Failure(err) => o := Fail(err);
    case Success(k) => o := UpdateOrCreateAlias(kms, cfg.pendingAlias, k);
  }

  method GenerateJwk(kms: KeyService, name: string, toJwk: PublicKeyDer -> PublicJwk) returns (r: Result<Jwk, StoreError>)
    ensures r == JwkFor(kms.State(), name, toJwk)
  {
    var der := kms.GetPublicKey(name);
    match der
    case Failure(err) => r := Failure(err);
    case Success(bytes) => r := Success(Publish(toJwk(bytes)));
  }

  method GenerateJwks(kms: KeyService, bucket: Bucket, cfg: Config, toJwk: PublicKeyDer -> PublicJwk)
    returns (o: Outcome<StoreError>)
    modifies kms`tags, bucket`objects
    ensures Run(o, WorldOf(kms, bucket)) == JwksStep(old(WorldOf(kms, bucket)), cfg, toJwk)
  {
    var names := Aliases(cfg);
    var allKeys: seq<Jwk> := [];
    var i := 0;
    while i < |names|
      invariant 0 <= i <= |names|
      invariant GatherKeys(old(kms.State()), names[..i], toJwk) == Gathered(Pass, kms.State(), allKeys)
      invariant bucket.objects == old(bucket.objects)
    {
      ghost var before := Gathered(Pass, kms.State(), allKeys);
      GatherStep(old(kms.State()), names, i, toJwk);
      var name := names[i];
      var found := GetKeyIdForAlias(kms, name);
      if found.Failure? {
        o := Fail(found.error);
        assert AddKey(before, name, toJwk) == Gathered(o, kms.State(), allKeys);
        ExhaustedGathering(old(kms.State()), names, i + 1, toJwk);
        return;
      }
      if found.value.Some? {
        var k := found.value.value;
        var jwk := GenerateJwk(kms, name, toJwk);
        if jwk.Failure? {
          o := Fail(jwk.error);
          assert AddKey(before, name, toJwk) == Gathered(o, kms.State(), allKeys);
          ExhaustedGathering(old(kms.State()), names, i + 1, toJwk);
          return;
        }
        var tagged := kms.TagResource(k, KidTag, jwk.value.kid);
        if tagged.Fail? {
          o := tagged;
          assert AddKey(before, name, toJwk) == Gathered(o, kms.State(), allKeys);
          ExhaustedGathering(old(kms.State()), names, i + 1, toJwk);
          return;
        }
        allKeys := allKeys + [jwk.value];
        assert AddKey(before, name, toJwk) == Gathered(Pass, kms.State(), allKeys);
      } else {
        assert AddKey(before, name, toJwk) == before;
      }
      i := i + 1;
    }
    assert names[..i] == names;
    o := bucket.PutObject(JwksKey, KeySet(allKeys));
  }

  /** One more alias gathered after a clean prefix is one more loop iteration. */
  lemma GatherStep(st: KeyStore, names: seq<string>, i: nat, toJwk: PublicKeyDer -> PublicJwk)
    requires i < |names| && GatherKeys(st, names[..i], toJwk).outcome.Pass?
    ensures GatherKeys(st, names[..i + 1], toJwk) == AddKey(GatherKeys(st, names[..i], toJwk), names[i], toJwk)
  {
    assert names[..i + 1][..i] == names[..i];
  }

  /** Once the loop has failed, the remaining aliases are skipped. */
  lemma {:induction false} ExhaustedGathering(st: KeyStore, names: seq<string>, i: nat, toJwk: PublicKeyDer -> PublicJwk)
    requires i <= |names| && GatherKeys(st, names[..i], toJwk).outcome.Fail?
    ensures GatherKeys(st, names, toJwk) == GatherKeys(st, names[..i], toJwk)
    decreases |names| - i
  {
    if i < |names| {
      assert names[..i + 1][..i] == names[..i];
      ExhaustedGathering(st, names, i + 1, toJwk);
    } else {
      assert names[..i] == names;
    }
  }

  method GenerateOpenIdConfiguration(bucket: Bucket, cfg: Config) returns (o: Outcome<StoreError>)
    modifies bucket`objects
    ensures o == (if bucket.failing then Fail(Rejected(Command.PutObject)) else Pass)
    ensures bucket.objects == if bucket.failing then old(bucket.objects)
                              else old(bucket.objects)[OpenIdKey := OpenIdDocument(cfg.issuer)]
  {
    o := bucket.PutObject(OpenIdKey, OpenIdDocument(cfg.issuer));
  }

  method Handler(step: string, kms: KeyService, bucket: Bucket, cfg: Config, der: PublicKeyDer,
                 toJwk: PublicKeyDer -> PublicJwk) returns (o: Outcome<StoreError>)
    modifies kms, bucket`objects
    ensures Run(o, WorldOf(kms, bucket)) == HandleStep(step, old(WorldOf(kms, bucket)), cfg, der, toJwk)
  {
    if step == "deletePrevious" {
      o := DeletePrevious(kms, cfg);
    } else if step == "movePrevious" {
      o := MovePrevious(kms, cfg);
    } else if step == "moveCurrent" {
      o := MoveCurrent(kms, cfg);
    } else if step == "createPending" {
      o := CreatePending(kms, cfg, der);
    } else if step == "generateArtifacts" {
      o := GenerateJwks(kms, bucket, cfg, toJwk);
      if o.Pass? {
        o := GenerateOpenIdConfiguration(bucket, cfg);
      }
    } else {
      o := Pass;
    }
  }

  /** The rotation state machine: the five steps in order, stopping at the
      first failure. */
  method RotationCycle(kms: KeyService, bucket: Bucket, cfg: Config, der: PublicKeyDer,
                       toJwk: PublicKeyDer -> PublicJwk) returns (o: Outcome<StoreError>)
    modifies kms, bucket`objects
    ensures Run(o, WorldOf(kms, bucket)) == Cycle(old(WorldOf(kms, bucket)), cfg, der, toJwk)
  {
    o := Handler("deletePrevious", kms, bucket, cfg, der, toJwk);
    if o.Fail? { return; }
    o := Handler("movePrevious", kms, bucket, cfg, der, toJwk);
    if o.Fail? { return; }
    o := Handler("moveCurrent", kms, bucket, cfg, der, toJwk);
    if o.Fail? { return; }
    o := Handler("createPending", kms, bucket, cfg, der, toJwk);
    if o.Fail? { return; }
    o := Handler("generateArtifacts", kms, bucket, cfg, der, toJwk);
  }
  // ---------------------------------------------------------------------
  // Properties of the key set
  // ---------------------------------------------------------------------

  /** The key set of a list of aliases grows by the entry of the alias added
      at its end, which is how the loop builds it. */
  lemma {:induction false} PublishedKeysSnoc(aliases: map<string, KeyId>, material: map<KeyId, PublicKeyDer>,
                                             names: seq<string>, toJwk: PublicKeyDer -> PublicJwk)
    requires |names| > 0
    ensures PublishedKeys(aliases, material, names, toJwk)
            == PublishedKeys(aliases, material, names[..|names| - 1], toJwk) + Entry(aliases, material, names[|names| - 1], toJwk)
    decreases |names|
  {
    if |names| > 1 {
      PublishedKeysSnoc(aliases, material, names[1..], toJwk);
      assert names[1..][..|names| - 2] == names[..|names| - 1][1..];
    }
  }

  /** The key set lists PREVIOUS, CURRENT and PENDING in that order, each
      only when it is bound. */
  lemma PublishedKeysOfAliases(aliases: map<string, KeyId>, material: map<KeyId, PublicKeyDer>,
                               cfg: Config, toJwk: PublicKeyDer -> PublicJwk)
    ensures PublishedKeys(aliases, material, Aliases(cfg), toJwk)
            == Entry(aliases, material, cfg.previousAlias, toJwk) + Entry(aliases, material, cfg.currentAlias, toJwk)
               + Entry(aliases, material, cfg.pendingAlias, toJwk)
  {
    var names := Aliases(cfg);
    assert names[1..] == [cfg.currentAlias, cfg.pendingAlias];
    assert names[1..][1..] == [cfg.pendingAlias];
    assert names[1..][1..][1..] == [];
    assert PublishedKeys(aliases, material, names[1..][1..], toJwk) == Entry(aliases, material, cfg.pendingAlias, toJwk);
  }

  /** Every entry of the key set is a signing key for RS256 and is the
      converted public key of one of the bound aliases. */
  lemma {:induction false} PublishedKeysAreSigningKeys(aliases: map<string, KeyId>, material: map<KeyId, PublicKeyDer>,
                                                      names: seq<string>, toJwk: PublicKeyDer -> PublicJwk)
    ensures forall j :: 0 <= j < |PublishedKeys(aliases, material, names, toJwk)| ==>
              var key := PublishedKeys(aliases, material, names, toJwk)[j];
              && key.use == "sig" && key.alg == "RS256"
              && exists i :: 0 <= i < |names| && names[i] in aliases && aliases[names[i]] in material
                             && key == Publish(toJwk(material[aliases[names[i]]]))
    decreases |names|
  {
    if names != [] {
      PublishedKeysAreSigningKeys(aliases, material, names[1..], toJwk);
      var head := Entry(aliases, material, names[0], toJwk);
      var rest := PublishedKeys(aliases, material, names[1..], toJwk);
      forall j | 0 <= j < |head + rest|
        ensures var key: Jwk := (head + rest)[j];
                && key.use == "sig" && key.alg == "RS256"
                && exists i :: 0 <= i < |names| && names[i] in aliases && aliases[names[i]] in material
                               && key == Publish(toJwk(material[aliases[names[i]]]))
      {
        if j < |head| {
          assert (head + rest)[j] == Publish(toJwk(material[aliases[names[0]]]));
        } else {
          var key := rest[j - |head|];
          assert (head + rest)[j] == key;
          var i :| 0 <= i < |names[1..]| && names[1..][i] in aliases && aliases[names[1..][i]] in material
                   && key == Publish(toJwk(material[aliases[names[1..][i]]]));
          assert names[i + 1] == names[1..][i];
        }
      }
    }
  }

  /** The tag `generateJWKS` leaves on every key it lists: the `kid` of that
      key's own entry. */
  ghost predicate KidsTagged(st: KeyStore, tags: map<KeyId, map<string, string>>, names: seq<string>,
                             toJwk: PublicKeyDer -> PublicJwk)
    requires Consistent(st)
  {
    forall i :: 0 <= i < |names| && names[i] in st.aliases ==>
      var k := st.aliases[names[i]];
      k in tags && KidTag in tags[k] && tags[k][KidTag] == toJwk(st.material[k]).kid
  }

  /** The loop's state after the aliases `names`, with every call answered:
      the key set so far, a store changed only in its tags, and every listed
      key tagged with its `kid`. */
  ghost predicate Publishing(st: KeyStore, g: Gathered, names: seq<string>, toJwk: PublicKeyDer -> PublicJwk)
    requires Consistent(st)
  {
    && g.outcome == Pass
    && g.keys == PublishedKeys(st.aliases, st.material, names, toJwk)
    && g.store == st.(tags := g.store.tags)
    && g.store.tags.Keys == st.keys
    && KidsTagged(st, g.store.tags, names, toJwk)
  }

  /** One iteration over an unbound alias changes nothing. */
  lemma AddUnboundKey(st: KeyStore, g: Gathered, names: seq<string>, name: string, toJwk: PublicKeyDer -> PublicJwk)
    requires Consistent(st) && Command.DescribeKey !in st.failing
    requires Publishing(st, g, names, toJwk) && name !in st.aliases
    ensures AddKey(g, name, toJwk) == g
    ensures KidsTagged(st, g.store.tags, names + [name], toJwk)
  {
    assert KeyIdOf(g.store, name) == Success(None);
    forall i | 0 <= i < |names + [name]| && (names + [name])[i] in st.aliases
      ensures var key := st.aliases[(names + [name])[i]];
              key in g.store.tags && KidTag in g.store.tags[key]
              && g.store.tags[key][KidTag] == toJwk(st.material[key]).kid
    {
      assert i < |names|;
      assert (names + [name])[i] == names[i];
    }
  }

  /** One iteration over a bound alias appends its entry and tags its key. */
  lemma AddBoundKey(st: KeyStore, g: Gathered, names: seq<string>, name: string, toJwk: PublicKeyDer -> PublicJwk)
    requires Consistent(st)
    requires Command.DescribeKey !in st.failing && Command.GetPublicKey !in st.failing
             && Command.TagResource !in st.failing
    requires Publishing(st, g, names, toJwk) && name in st.aliases
    ensures var k := st.aliases[name];
            var a := AddKey(g, name, toJwk);
            && a.outcome == Pass
            && a.keys == g.keys + [Publish(toJwk(st.material[k]))]
            && a.store == g.store.(tags := g.store.tags[k := g.store.tags[k][KidTag := toJwk(st.material[k]).kid]])
  {
    var k := st.aliases[name];
    assert KeyIdOf(g.store, name) == Success(Some(k));
    assert JwkFor(g.store, name, toJwk) == Success(Publish(toJwk(st.material[k])));
  }

  /** Tagging the key of the alias added at the end keeps every listed key
      tagged with its `kid`. */
  lemma TagKeepsKidsTagged(st: KeyStore, tags: map<KeyId, map<string, string>>, names: seq<string>, name: string,
                           toJwk: PublicKeyDer -> PublicJwk)
    requires Consistent(st) && name in st.aliases && st.aliases[name] in tags
    requires KidsTagged(st, tags, names, toJwk)
    ensures var k := st.aliases[name];
            KidsTagged(st, tags[k := tags[k][KidTag := toJwk(st.material[k]).kid]], names + [name], toJwk)
  {
    var k := st.aliases[name];
    var after := tags[k := tags[k][KidTag := toJwk(st.material[k]).kid]];
    forall i | 0 <= i < |names + [name]| && (names + [name])[i] in st.aliases
      ensures var key := st.aliases[(names + [name])[i]];
              key in after && KidTag in after[key] && after[key][KidTag] == toJwk(st.material[key]).kid
    {
      if i < |names| {
        assert (names + [name])[i] == names[i];
      }
    }
  }

  /** With every call answered, the loop of `generateJWKS` succeeds, collects
      exactly the key set of the aliases, tags every listed key with its
      entry's `kid`, and changes nothing in the key store but tags. */
  lemma {:induction false} GatherKeysPublishes(st: KeyStore, names: seq<string>, toJwk: PublicKeyDer -> PublicJwk)
    requires Consistent(st)
    requires Command.DescribeKey !in st.failing && Command.GetPublicKey !in st.failing
             && Command.TagResource !in st.failing
    ensures var g := GatherKeys(st, names, toJwk);
            && g.outcome == Pass
            && g.keys == PublishedKeys(st.aliases, st.material, names, toJwk)
            && g.store == st.(tags := g.store.tags)
            && g.store.tags.Keys == st.keys
            && KidsTagged(st, g.store.tags, names, toJwk)
    decreases |names|
  {
    if names != [] {
      var n := |names| - 1;
      var init := names[..n];
      var name := names[n];
      assert init + [name] == names;
      GatherKeysPublishes(st, init, toJwk);
      PublishedKeysSnoc(st.aliases, st.material, names, toJwk);
      var g := GatherKeys(st, init, toJwk);
      assert Publishing(st, g, init, toJwk);
      if name in st.aliases {
        AddBoundKey(st, g, init, name, toJwk);
        TagKeepsKidsTagged(st, g.store.tags, init, name, toJwk);
      } else {
        AddUnboundKey(st, g, init, name, toJwk);
      }
    }
  }

  // ---------------------------------------------------------------------
  // Properties of whole invocations and of the rotation
  // ---------------------------------------------------------------------

  /** Neither service rejects any call. */
  predicate Healthy(w: World) {
    w.kms.failing == {} && !w.bucketFailing
  }

  /** `generateArtifacts`, with every call answered, replaces exactly the two
      published objects: the key set of the bound aliases under
      `discovery/keys`, then the discovery document, whose `jwks_uri` names
      that object; each listed key is tagged with its `kid`. */
  lemma ArtifactsPublish(w: World, cfg: Config, toJwk: PublicKeyDer -> PublicJwk)
    requires Consistent(w.kms) && Healthy(w)
    ensures var r := ArtifactsStep(w, cfg, toJwk);
            && r.outcome == Pass
            && r.world.objects == w.objects[JwksKey := KeySet(PublishedKeys(w.kms.aliases, w.kms.material, Aliases(cfg), toJwk))]
                                           [OpenIdKey := OpenIdDocument(cfg.issuer)]
            && r.world.kms == w.kms.(tags := r.world.kms.tags)
            && KidsTagged(w.kms, r.world.kms.tags, Aliases(cfg), toJwk)
            && Consistent(r.world.kms)
            && r.world.bucketFailing == w.bucketFailing
  {
    GatherKeysPublishes(w.kms, Aliases(cfg), toJwk);
  }

  /** Some alias among `names` is bound. */
  predicate AnyBound(st: KeyStore, names: seq<string>) {
    exists i :: 0 <= i < |names| && names[i] in st.aliases
  }

  /** A rejected DescribeKey stops `generateJWKS`'s loop at its first alias,
      before anything is tagged or collected. */
  lemma {:induction false} GatherDescribeRejected(st: KeyStore, names: seq<string>, toJwk: PublicKeyDer -> PublicJwk)
    requires Command.DescribeKey in st.failing
    ensures GatherKeys(st, names, toJwk)
            == if names == [] then Gathered(Pass, st, []) else Gathered(Fail(Rejected(Command.DescribeKey)), st, [])
    decreases |names|
  {
    if names != [] {
      GatherDescribeRejected(st, names[..|names| - 1], toJwk);
    }
  }

  /** With DescribeKey answered but GetPublicKey or TagResource rejected, the
      loop fails at the first bound alias, having tagged and collected
      nothing; when no alias is bound it passes with nothing collected. */
  lemma {:induction false} GatherKeyReadRejected(st: KeyStore, names: seq<string>, toJwk: PublicKeyDer -> PublicJwk)
    requires Consistent(st) && Command.DescribeKey !in st.failing
    requires Command.GetPublicKey in st.failing || Command.TagResource in st.failing
    ensures var c := if Command.GetPublicKey in st.failing then Command.GetPublicKey else Command.TagResource;
            GatherKeys(st, names, toJwk)
            == if AnyBound(st, names) then Gathered(Fail(Rejected(c)), st, []) else Gathered(Pass, st, [])
    decreases |names|
  {
    if names != [] {
      var init := names[..|names| - 1];
      var last := names[|names| - 1];
      GatherKeyReadRejected(st, init, toJwk);
      if AnyBound(st, init) {
        var i :| 0 <= i < |init| && init[i] in st.aliases;
        assert names[i] == init[i];
      } else if last in st.aliases {
        assert names[|names| - 1] in st.aliases;
        assert st.aliases[last] in st.aliases.Values;
      } else {
        forall i | 0 <= i < |names|
          ensures names[i] !in st.aliases
        {
          if i < |names| - 1 {
            assert names[i] == init[i];
          }
        }
      }
    }
  }

  /** How `generateArtifacts` fails: a rejected DescribeKey fails it before
      anything changes; a rejected GetPublicKey or TagResource fails it, with
      nothing changed, as soon as one alias is bound; a rejecting bucket fails
      it with no object written; and when the key-set upload fails the
      discovery document is not written. */
  lemma ArtifactsRejected(w: World, cfg: Config, toJwk: PublicKeyDer -> PublicJwk)
    ensures Command.DescribeKey in w.kms.failing
            ==> ArtifactsStep(w, cfg, toJwk) == Run(Fail(Rejected(Command.DescribeKey)), w)
    ensures Consistent(w.kms) && Command.DescribeKey !in w.kms.failing
            && (Command.GetPublicKey in w.kms.failing || Command.TagResource in w.kms.failing)
            && AnyBound(w.kms, Aliases(cfg))
            ==> var c := if Command.GetPublicKey in w.kms.failing then Command.GetPublicKey else Command.TagResource;
                ArtifactsStep(w, cfg, toJwk) == Run(Fail(Rejected(c)), w)
    ensures w.bucketFailing
            ==> ArtifactsStep(w, cfg, toJwk).outcome.Fail? && ArtifactsStep(w, cfg, toJwk).world.objects == w.objects
    ensures JwksStep(w, cfg, toJwk).outcome.Fail? ==> ArtifactsStep(w, cfg, toJwk) == JwksStep(w, cfg, toJwk)
  {
    if Command.DescribeKey in w.kms.failing {
      GatherDescribeRejected(w.kms, Aliases(cfg), toJwk);
    } else if Consistent(w.kms) && (Command.GetPublicKey in w.kms.failing || Command.TagResource in w.kms.failing) {
      GatherKeyReadRejected(w.kms, Aliases(cfg), toJwk);
    }
  }

  /** Two aliases that are both bound are bound to different keys. */
  predicate Apart(st: KeyStore, a: string, b: string) {
    Lookup(st, a).None? || Lookup(st, b).None? || Lookup(st, a) != Lookup(st, b)
  }

  /** A bound alias points at a key that is not scheduled for deletion. */
  predicate Live(st: KeyStore, a: string) {
    Lookup(st, a).None? || Lookup(st, a).value !in st.scheduled
  }

  /** The resting state of the three aliases between runs: they are filled
      from PENDING backwards (PREVIOUS bound only if CURRENT is, CURRENT only
      if PENDING is), bound to three different keys, none of which is
      scheduled for deletion. */
  predicate Ring(st: KeyStore, cfg: Config) {
    && Consistent(st) && DistinctAliases(cfg)
    && (Lookup(st, cfg.previousAlias).Some? ==> Lookup(st, cfg.currentAlias).Some?)
    && (Lookup(st, cfg.currentAlias).Some? ==> Lookup(st, cfg.pendingAlias).Some?)
    && Apart(st, cfg.previousAlias, cfg.currentAlias) && Apart(st, cfg.currentAlias, cfg.pendingAlias)
    && Apart(st, cfg.previousAlias, cfg.pendingAlias)
    && Live(st, cfg.previousAlias) && Live(st, cfg.currentAlias) && Live(st, cfg.pendingAlias)
  }

  /** The keys retired by a run: the key PREVIOUS was bound to, if any. */
  function Retired(st: KeyStore, cfg: Config): set<KeyId> {
    match Lookup(st, cfg.previousAlias)
    case None => {}
    case Some(k) => {k}
  }

  /** `target` rebound to the key of `source`, when `source` is bound. */
  function Shift(st: KeyStore, source: string, target: string): KeyStore {
    if source in st.aliases then st.(aliases := st.aliases[target := st.aliases[source]]) else st
  }

  /** The four alias steps, every call answered, on a consistent store. */
  lemma HealthySteps(st: KeyStore, cfg: Config, der: PublicKeyDer)
    requires Consistent(st) && st.failing == {}
    ensures DeletePreviousStep(st, cfg) == Effect(Pass, st.(scheduled := st.scheduled + Retired(st, cfg)))
    ensures MovePreviousStep(st, cfg) == Effect(Pass, Shift(st, cfg.currentAlias, cfg.previousAlias))
    ensures MoveCurrentStep(st, cfg) == Effect(Pass, Shift(st, cfg.pendingAlias, cfg.currentAlias))
    ensures CreatePendingStep(st, cfg, der).outcome == Pass
  {
  }

  /** The stages of a run, one step after the other. */
  lemma StagesUnfold(w: World, cfg: Config, der: PublicKeyDer, toJwk: PublicKeyDer -> PublicJwk)
    ensures var s := Stages(w, cfg, der, toJwk);
            && s[0] == HandleStep("deletePrevious", w, cfg, der, toJwk)
            && s[1] == AndThen(s[0], "movePrevious", cfg, der, toJwk)
            && s[2] == AndThen(s[1], "moveCurrent", cfg, der, toJwk)
            && s[3] == AndThen(s[2], "createPending", cfg, der, toJwk)
            && s[4] == AndThen(s[3], "generateArtifacts", cfg, der, toJwk)
  {
  }

  /** A failed step ends the run: every later stage is that failure,
      unchanged, and a run passes exactly when each of its five steps does. */
  lemma FailureStopsChain(w: World, cfg: Config, der: PublicKeyDer, toJwk: PublicKeyDer -> PublicJwk)
    ensures var s := Stages(w, cfg, der, toJwk);
            forall i, j :: 0 <= i <= j < 5 && s[i].outcome.Fail? ==> s[j] == s[i]
    ensures var s := Stages(w, cfg, der, toJwk);
            Cycle(w, cfg, der, toJwk).outcome.Pass? <==> forall i :: 0 <= i < 5 ==> s[i].outcome.Pass?
  {
    StagesUnfold(w, cfg, der, toJwk);
  }

  /** The handler's dispatch on the five step names. */
  lemma HandleStepCases(w: World, cfg: Config, der: PublicKeyDer, toJwk: PublicKeyDer -> PublicJwk)
    ensures HandleStep("deletePrevious", w, cfg, der, toJwk) == OnKeys(w, DeletePreviousStep(w.kms, cfg))
    ensures HandleStep("movePrevious", w, cfg, der, toJwk) == OnKeys(w, MovePreviousStep(w.kms, cfg))
    ensures HandleStep("moveCurrent", w, cfg, der, toJwk) == OnKeys(w, MoveCurrentStep(w.kms, cfg))
    ensures HandleStep("createPending", w, cfg, der, toJwk) == OnKeys(w, CreatePendingStep(w.kms, cfg, der))
    ensures HandleStep("generateArtifacts", w, cfg, der, toJwk) == ArtifactsStep(w, cfg, toJwk)
  {
  }

  /** The key store after the first four steps of a run, every call
      answered: PREVIOUS's key scheduled, PREVIOUS moved to CURRENT's key,
      CURRENT to PENDING's, and PENDING bound to a new key. */
  function Rotated(st: KeyStore, cfg: Config, der: PublicKeyDer): KeyStore {
    var st1 := st.(scheduled := st.scheduled + Retired(st, cfg));
    var st3 := Shift(Shift(st1, cfg.currentAlias, cfg.previousAlias), cfg.pendingAlias, cfg.currentAlias);
    CreatePendingStep(st3, cfg, der).store
  }

  /** Pointing one alias where another points keeps the store consistent. */
  lemma ShiftConsistent(st: KeyStore, source: string, target: string)
    requires Consistent(st)
    ensures Consistent(Shift(st, source, target)) && Shift(st, source, target).failing == st.failing
  {
    if source in st.aliases {
      assert st.aliases[source] in st.aliases.Values;
    }
  }

  /** The runs of the state machine's first four steps on a ring, every call
      answered. */
  lemma RingStages(w: World, cfg: Config, der: PublicKeyDer, toJwk: PublicKeyDer -> PublicJwk)
    requires Ring(w.kms, cfg) && Healthy(w)
    ensures var s := Stages(w, cfg, der, toJwk);
            var st1 := w.kms.(scheduled := w.kms.scheduled + Retired(w.kms, cfg));
            var st2 := Shift(st1, cfg.currentAlias, cfg.previousAlias);
            var st3 := Shift(st2, cfg.pendingAlias, cfg.currentAlias);
            && s[0] == Run(Pass, w.(kms := st1))
            && s[1] == Run(Pass, w.(kms := st2))
            && s[2] == Run(Pass, w.(kms := st3))
            && s[3] == Run(Pass, w.(kms := Rotated(w.kms, cfg, der)))
            && s[4] == ArtifactsStep(s[3].world, cfg, toJwk)
  {
    var s := Stages(w, cfg, der, toJwk);
    StagesUnfold(w, cfg, der, toJwk);
    var st1 := w.kms.(scheduled := w.kms.scheduled + Retired(w.kms, cfg));
    HealthySteps(w.kms, cfg, der);
    HandleStepCases(w, cfg, der, toJwk);
    assert s[0] == Run(Pass, w.(kms := st1));
    var st2 := Shift(st1, cfg.currentAlias, cfg.previousAlias);
    HealthySteps(st1, cfg, der);
    HandleStepCases(s[0].world, cfg, der, toJwk);
    assert s[1] == Run(Pass, w.(kms := st2));
    var st3 := Shift(st2, cfg.pendingAlias, cfg.currentAlias);
    ShiftConsistent(st1, cfg.currentAlias, cfg.previousAlias);
    ShiftConsistent(st2, cfg.pendingAlias, cfg.currentAlias);
    HealthySteps(st2, cfg, der);
    HandleStepCases(s[1].world, cfg, der, toJwk);
    assert s[2] == Run(Pass, w.(kms := st3));
    HealthySteps(st3, cfg, der);
    HandleStepCases(s[2].world, cfg, der, toJwk);
    HandleStepCases(s[3].world, cfg, der, toJwk);
  }

  /** Where the aliases point between the steps of a run.  They coincide only
      transiently: after `movePrevious` PREVIOUS shares CURRENT's key, after
      `moveCurrent` CURRENT shares PENDING's. */
  lemma ShiftedAliases(st: KeyStore, cfg: Config)
    requires Ring(st, cfg)
    ensures var st2 := Shift(st, cfg.currentAlias, cfg.previousAlias);
            var st3 := Shift(st2, cfg.pendingAlias, cfg.currentAlias);
            && Lookup(st2, cfg.previousAlias) == Lookup(st, cfg.currentAlias)
            && Lookup(st2, cfg.currentAlias) == Lookup(st, cfg.currentAlias)
            && Lookup(st2, cfg.pendingAlias) == Lookup(st, cfg.pendingAlias)
            && Lookup(st3, cfg.previousAlias) == Lookup(st, cfg.currentAlias)
            && Lookup(st3, cfg.currentAlias) == Lookup(st, cfg.pendingAlias)
            && Lookup(st3, cfg.pendingAlias) == Lookup(st, cfg.pendingAlias)
            && forall n :: n !in Aliases(cfg) ==> Lookup(st3, n) == Lookup(st, n)
  {
  }

  /** `createPending` on a healthy store: PENDING names a fresh key with the
      given material, and nothing else moves. */
  lemma CreatedPending(st: KeyStore, cfg: Config, der: PublicKeyDer)
    requires Consistent(st) && st.failing == {} && DistinctAliases(cfg)
    ensures var after := CreatePendingStep(st, cfg, der).store;
            && Lookup(after, cfg.pendingAlias) == Some(st.nextKeyId)
            && (forall n :: n != cfg.pendingAlias ==> Lookup(after, n) == Lookup(st, n))
            && after.scheduled == st.scheduled
            && after.material == st.material[st.nextKeyId := der]
            && after.nextKeyId == st.nextKeyId + 1
            && Consistent(after) && after.failing == {}
  {
    HealthySteps(st, cfg, der);
  }

  /** Where the four alias steps from a ring leave the aliases, every call
      answered. */
  lemma RotatedAliases(st: KeyStore, cfg: Config, der: PublicKeyDer)
    requires Ring(st, cfg) && st.failing == {}
    ensures var after := Rotated(st, cfg, der);
            && Lookup(after, cfg.previousAlias) == Lookup(st, cfg.currentAlias)
            && Lookup(after, cfg.currentAlias) == Lookup(st, cfg.pendingAlias)
            && Lookup(after, cfg.pendingAlias) == Some(st.nextKeyId)
            && after.scheduled == st.scheduled + Retired(st, cfg)
            && after.material == st.material[st.nextKeyId := der]
            && after.nextKeyId == st.nextKeyId + 1
            && (forall n :: n !in Aliases(cfg) ==> Lookup(after, n) == Lookup(st, n))
            && Consistent(after) && after.failing == {}
  {
    var cur, pend := cfg.currentAlias, cfg.pendingAlias;
    var st1 := st.(scheduled := st.scheduled + Retired(st, cfg));
    var st2 := Shift(st1, cur, cfg.previousAlias);
    var st3 := Shift(st2, pend, cur);
    ShiftedAliases(st, cfg);
    assert Lookup(st3, cfg.previousAlias) == Lookup(st, cur) && Lookup(st3, cur) == Lookup(st, pend) by {
      assert Shift(st, cur, cfg.previousAlias).aliases == st2.aliases;
      assert Shift(Shift(st, cur, cfg.previousAlias), pend, cur).aliases == st3.aliases;
    }
    assert forall n :: n !in Aliases(cfg) ==> Lookup(st3, n) == Lookup(st, n) by {
      assert Shift(Shift(st, cur, cfg.previousAlias), pend, cur).aliases == st3.aliases;
    }
    assert st3 == st.(aliases := st3.aliases, scheduled := st1.scheduled);
    assert Consistent(st3) by {
      if cur in st.aliases {
        assert st.aliases[cur] in st.aliases.Values;
      }
      if pend in st2.aliases {
        assert st2.aliases[pend] in st2.aliases.Values;
      }
    }
    CreatedPending(st3, cfg, der);
  }

  /** A ring turned by one position, with a fresh key entering at PENDING and
      PREVIOUS's key retired, is a ring again. */
  lemma TurnedRing(st: KeyStore, after: KeyStore, cfg: Config)
    requires Ring(st, cfg) && Consistent(after)
    requires Lookup(after, cfg.previousAlias) == Lookup(st, cfg.currentAlias)
    requires Lookup(after, cfg.currentAlias) == Lookup(st, cfg.pendingAlias)
    requires Lookup(after, cfg.pendingAlias) == Some(st.nextKeyId)
    requires after.scheduled == st.scheduled + Retired(st, cfg)
    ensures Ring(after, cfg)
  {
    FreshKeyId(st);
    if Lookup(st, cfg.currentAlias).Some? {
      assert Lookup(st, cfg.currentAlias).value in st.aliases.Values;
    }
    if Lookup(st, cfg.pendingAlias).Some? {
      assert Lookup(st, cfg.pendingAlias).value in st.aliases.Values;
    }
  }

  /** The key store after one turn of the ring: PREVIOUS takes CURRENT's key,
      CURRENT takes PENDING's, PENDING gets a fresh key with the given
      material, the old PREVIOUS key is scheduled for deletion, no other alias
      moves, and the result is a ring again.  From a fully bound ring
      `(P, C, N)` this is `(C, N, fresh)` with `P` scheduled. */
  ghost predicate Turned(st: KeyStore, after: KeyStore, cfg: Config, der: PublicKeyDer) {
    && Lookup(after, cfg.previousAlias) == Lookup(st, cfg.currentAlias)
    && Lookup(after, cfg.currentAlias) == Lookup(st, cfg.pendingAlias)
    && Lookup(after, cfg.pendingAlias) == Some(st.nextKeyId)
    && st.nextKeyId !in st.keys
    && after.scheduled == st.scheduled + Retired(st, cfg)
    && after.material == st.material[st.nextKeyId := der]
    && after.nextKeyId == st.nextKeyId + 1
    && (forall n :: n !in Aliases(cfg) ==> Lookup(after, n) == Lookup(st, n))
    && Ring(after, cfg) && after.failing == {}
  }

  /** The four alias steps from a ring, every call answered, turn the ring. */
  lemma RotatedRing(st: KeyStore, cfg: Config, der: PublicKeyDer)
    requires Ring(st, cfg) && st.failing == {}
    ensures Turned(st, Rotated(st, cfg, der), cfg, der)
  {
    RotatedAliases(st, cfg, der);
    TurnedRing(st, Rotated(st, cfg, der), cfg);
    FreshKeyId(st);
  }

  /** Re-tagging keys does not affect a turn of the ring. */
  lemma TurnedIgnoresTags(st: KeyStore, after: KeyStore, tags: map<KeyId, map<string, string>>, cfg: Config,
                          der: PublicKeyDer)
    requires Turned(st, after, cfg, der) && tags.Keys == after.keys
    ensures Turned(st, after.(tags := tags), cfg, der)
  {
    var t := after.(tags := tags);
    assert forall n :: Lookup(t, n) == Lookup(after, n);
  }

  /** From a ring with every call answered, an invocation is the artifacts
      step run on the rotated key store. */
  lemma CycleArtifacts(w: World, cfg: Config, der: PublicKeyDer, toJwk: PublicKeyDer -> PublicJwk)
    requires Ring(w.kms, cfg) && Healthy(w)
    ensures Cycle(w, cfg, der, toJwk) == ArtifactsStep(w.(kms := Rotated(w.kms, cfg, der)), cfg, toJwk)
  {
    RingStages(w, cfg, der, toJwk);
  }

  /** One successful run that turns the ring, with both services still
      answering. */
  ghost predicate Rotates(st: KeyStore, r: Run, cfg: Config, der: PublicKeyDer) {
    r.outcome == Pass && Healthy(r.world) && Turned(st, r.world.kms, cfg, der)
  }

  /** The artifacts step run on the rotated key store completes the rotation. */
  lemma RotatedArtifacts(w: World, cfg: Config, der: PublicKeyDer, toJwk: PublicKeyDer -> PublicJwk)
    requires Ring(w.kms, cfg) && Healthy(w)
    ensures Rotates(w.kms, ArtifactsStep(w.(kms := Rotated(w.kms, cfg, der)), cfg, toJwk), cfg, der)
  {
    RotatedRing(w.kms, cfg, der);
    var rotated := Rotated(w.kms, cfg, der);
    var r := ArtifactsStep(w.(kms := rotated), cfg, toJwk);
    ArtifactsPublish(w.(kms := rotated), cfg, toJwk);
    TurnedIgnoresTags(w.kms, rotated, r.world.kms.tags, cfg, der);
  }

  /** A run that fails part-way can leave the ring broken: when UpdateAlias is
      rejected, `deletePrevious` has already scheduled PREVIOUS's key, and the
      failed `movePrevious` leaves PREVIOUS bound to that key. */
  lemma FailedMoveStrandsPrevious(w: World, cfg: Config, der: PublicKeyDer, toJwk: PublicKeyDer -> PublicJwk)
    requires Ring(w.kms, cfg) && w.kms.failing == {Command.UpdateAlias}
    requires Lookup(w.kms, cfg.previousAlias).Some?
    ensures var r := Cycle(w, cfg, der, toJwk);
            && r.outcome == Fail(Rejected(Command.UpdateAlias))
            && Lookup(r.world.kms, cfg.previousAlias) == Lookup(w.kms, cfg.previousAlias)
            && Lookup(w.kms, cfg.previousAlias).value in r.world.kms.scheduled
            && !Ring(r.world.kms, cfg)
  {
    var s := Stages(w, cfg, der, toJwk);
    StagesUnfold(w, cfg, der, toJwk);
    HandleStepCases(w, cfg, der, toJwk);
    HandleStepCases(s[0].world, cfg, der, toJwk);
    FailureStopsChain(w, cfg, der, toJwk);
    assert s[1].outcome == Fail(Rejected(Command.UpdateAlias));
  }

  /** One run from a ring, every call answered, rotates the keys. */
  lemma CycleRotates(w: World, cfg: Config, der: PublicKeyDer, toJwk: PublicKeyDer -> PublicJwk)
    requires Ring(w.kms, cfg) && Healthy(w)
    ensures var r := Cycle(w, cfg, der, toJwk);
            var st := w.kms;
            var after := r.world.kms;
            && r.outcome == Pass
            && Lookup(after, cfg.previousAlias) == Lookup(st, cfg.currentAlias)
            && Lookup(after, cfg.currentAlias) == Lookup(st, cfg.pendingAlias)
            && Lookup(after, cfg.pendingAlias) == Some(st.nextKeyId)
            && st.nextKeyId !in st.keys
            && after.scheduled == st.scheduled + Retired(st, cfg)
            && after.material == st.material[st.nextKeyId := der]
            && after.nextKeyId == st.nextKeyId + 1
            && (forall n :: n !in Aliases(cfg) ==> Lookup(after, n) == Lookup(st, n))
            && Ring(after, cfg) && Healthy(r.world)
  {
    CycleArtifacts(w, cfg, der, toJwk);
    RotatedArtifacts(w, cfg, der, toJwk);
  }

  /** What one run from a ring publishes, every call answered: the key set of
      the new bindings and the discovery document, each key listed tagged
      with its own `kid`. */
  lemma CyclePublishes(w: World, cfg: Config, der: PublicKeyDer, toJwk: PublicKeyDer -> PublicJwk)
    requires Ring(w.kms, cfg) && Healthy(w)
    ensures var r := Cycle(w, cfg, der, toJwk);
            var after := r.world.kms;
            && r.world.objects == w.objects[JwksKey := KeySet(PublishedKeys(after.aliases, after.material, Aliases(cfg), toJwk))]
                                           [OpenIdKey := OpenIdDocument(cfg.issuer)]
            && Consistent(after)
            && KidsTagged(after, after.tags, Aliases(cfg), toJwk)
  {
    CycleArtifacts(w, cfg, der, toJwk);
    RotatedRing(w.kms, cfg, der);
    ArtifactsPublish(w.(kms := Rotated(w.kms, cfg, der)), cfg, toJwk);
  }

  /** The deployment runs the state machine twice on a key store where none
      of the three aliases exists.  Afterwards CURRENT and PENDING are bound
      to two different new keys and PREVIOUS is still unbound: a third run is
      needed before all three aliases are bound. */
  lemma Bootstrap(w: World, cfg: Config, der1: PublicKeyDer, der2: PublicKeyDer, toJwk: PublicKeyDer -> PublicJwk)
    requires Consistent(w.kms) && DistinctAliases(cfg) && Healthy(w)
    requires Lookup(w.kms, cfg.previousAlias).None? && Lookup(w.kms, cfg.currentAlias).None?
             && Lookup(w.kms, cfg.pendingAlias).None?
    ensures var first := Cycle(w, cfg, der1, toJwk);
            var second := Cycle(first.world, cfg, der2, toJwk);
            var k := w.kms.nextKeyId;
            && first.outcome == Pass && second.outcome == Pass
            && Lookup(second.world.kms, cfg.previousAlias) == None
            && Lookup(second.world.kms, cfg.currentAlias) == Some(k)
            && Lookup(second.world.kms, cfg.pendingAlias) == Some(k + 1)
            && k !in w.kms.keys && k + 1 !in w.kms.keys
            && second.world.kms.material == w.kms.material[k := der1][k + 1 := der2]
            && second.world.kms.scheduled == w.kms.scheduled
            && Ring(second.world.kms, cfg) && Healthy(second.world)
  {
    assert Ring(w.kms, cfg);
    var first := Cycle(w, cfg, der1, toJwk);
    CycleRotates(w, cfg, der1, toJwk);
    CycleRotates(first.world, cfg, der2, toJwk);
    assert Retired(w.kms, cfg) == {};
    assert Lookup(first.world.kms, cfg.previousAlias).None?;
    assert Retired(first.world.kms, cfg) == {};
  }

  /** The key set a store with only CURRENT and PENDING bound publishes. */
  lemma TwoKeySet(st: KeyStore, cfg: Config, k: KeyId, der1: PublicKeyDer, der2: PublicKeyDer,
                  toJwk: PublicKeyDer -> PublicJwk)
    requires Lookup(st, cfg.previousAlias).None? && Lookup(st, cfg.currentAlias) == Some(k)
    requires Lookup(st, cfg.pendingAlias) == Some(k + 1)
    requires k in st.material && st.material[k] == der1 && k + 1 in st.material && st.material[k + 1] == der2
    ensures PublishedKeys(st.aliases, st.material, Aliases(cfg), toJwk) == [Publish(toJwk(der1)), Publish(toJwk(der2))]
  {
    PublishedKeysOfAliases(st.aliases, st.material, cfg, toJwk);
  }

  /** The second bootstrap run, from a store where only PENDING is bound,
      binds CURRENT and PENDING to the old PENDING key and the new one. */
  lemma SecondRunKeySet(first: World, cfg: Config, k: KeyId, der1: PublicKeyDer, der2: PublicKeyDer,
                        toJwk: PublicKeyDer -> PublicJwk)
    requires Ring(first.kms, cfg) && Healthy(first)
    requires Lookup(first.kms, cfg.previousAlias).None? && Lookup(first.kms, cfg.currentAlias).None?
    requires Lookup(first.kms, cfg.pendingAlias) == Some(k) && first.kms.nextKeyId == k + 1
    requires k in first.kms.material && first.kms.material[k] == der1
    ensures var after := Cycle(first, cfg, der2, toJwk).world.kms;
            PublishedKeys(after.aliases, after.material, Aliases(cfg), toJwk) == [Publish(toJwk(der1)), Publish(toJwk(der2))]
  {
    CycleRotates(first, cfg, der2, toJwk);
    RotatedKeySet(first.kms, Cycle(first, cfg, der2, toJwk), cfg, k, der1, der2, toJwk);
  }

  /** The key set after rotating a store where only PENDING was bound. */
  lemma RotatedKeySet(st: KeyStore, r: Run, cfg: Config, k: KeyId, der1: PublicKeyDer, der2: PublicKeyDer,
                      toJwk: PublicKeyDer -> PublicJwk)
    requires Turned(st, r.world.kms, cfg, der2)
    requires Lookup(st, cfg.previousAlias).None? && Lookup(st, cfg.currentAlias).None?
    requires Lookup(st, cfg.pendingAlias) == Some(k) && st.nextKeyId == k + 1
    requires k in st.material && st.material[k] == der1
    ensures PublishedKeys(r.world.kms.aliases, r.world.kms.material, Aliases(cfg), toJwk)
            == [Publish(toJwk(der1)), Publish(toJwk(der2))]
  {
    var after := r.world.kms;
    assert after.material == st.material[k + 1 := der2];
    TwoKeySet(after, cfg, k, der1, der2, toJwk);
  }

  /** After the two bootstrap runs the published key set lists exactly the
      two new keys, CURRENT's first. */
  lemma BootstrapPublishes(w: World, cfg: Config, der1: PublicKeyDer, der2: PublicKeyDer, toJwk: PublicKeyDer -> PublicJwk)
    requires Consistent(w.kms) && DistinctAliases(cfg) && Healthy(w)
    requires Lookup(w.kms, cfg.previousAlias).None? && Lookup(w.kms, cfg.currentAlias).None?
             && Lookup(w.kms, cfg.pendingAlias).None?
    ensures var first := Cycle(w, cfg, der1, toJwk);
            var second := Cycle(first.world, cfg, der2, toJwk);
            JwksKey in second.world.objects
            && second.world.objects[JwksKey] == KeySet([Publish(toJwk(der1)), Publish(toJwk(der2))])
  {
    assert Ring(w.kms, cfg);
    CycleRotates(w, cfg, der1, toJwk);
    var first := Cycle(w, cfg, der1, toJwk).world;
    SecondRunKeySet(first, cfg, w.kms.nextKeyId, der1, der2, toJwk);
    CyclePublishes(first, cfg, der2, toJwk);
  }
}
