# aws-jwt-sts in Dafny

aws-jwt-sts issues JSON Web Tokens to AWS callers. It has two Lambda handlers.

- The **key rotation engine** (`src/index.keyrotate.ts`) keeps three key
  aliases in the key store: PREVIOUS, CURRENT and PENDING. A step-function
  chain runs its five steps in order: `deletePrevious`, `movePrevious`,
  `moveCurrent`, `createPending` and `generateArtifacts`. The last step
  publishes two documents to a bucket: the JWK Set of the bound keys under
  `discovery/keys`, and the OpenID discovery document. The chain runs twice
  after deployment.
- The **token signer** (`src/index.sign.ts` and its compiled twin
  `dist/index.sign.js`) answers an API Gateway request. It turns the caller's
  assumed-role ARN into an IAM role ARN and reads the key behind CURRENT and
  that key's `jwk_kid` tag. It then returns an RS256-signed JWS compact
  serialization (section 7.1 of RFC 7515) whose header and payload were
  signed by the key store.

The project has six files:

- `wrappers.dfy`: Option, Result and Outcome.
- `encoding.dfy`: padded base64 (section 4 of RFC 4648), unpadded base64url
  (section 5), and the signer's hand-written rewrite from one to the other.
- `cloud.dfy`: the key store and the bucket. Each is a class whose fields
  hold its state (aliases, keys, public material, tags, keys scheduled for
  deletion, objects). Each call is a method, specified by a function on a
  `KeyStore` snapshot. A set `failing` names the calls the service currently
  rejects with an error other than NotFound.
- `keyrotate.dfy`: the five steps, `updateOrCreateAlias`,
  `getKeyIdForAlias`, the JWKS loop, the handler's dispatch and the chain.
  - Each step is a method that issues calls one by one.
  - Each method is proved equal to a step function on snapshots.
  - The rotation's properties are lemmas about those functions: the ring
    turns, the bootstrap, and what gets published.
- `arn.dfy`: `getARNFromIdentity`.
  - The regular expression is written as a staged matcher, with `exec` as a
    left-to-right search.
  - A declarative `Shape` states what the pattern accepts.
  - The lemmas prove the matcher sound and complete against `Shape`, and
    prove that the match start is unique.
- `sign.dfy`: `getTagValueFromTags`, `respond`, the audience, the claims,
  the token and the handler.
  - The key-store reads are function-valued inputs.
  - The handler returns its result together with the calls it issued, in
    order.
  - The alias it describes is a parameter. `src/index.sign.ts:11` hard-codes
    `alias/sts/CURRENT`, while `dist/index.sign.js:10` reads `CURRENT_KEY`.
  - The last lemma links the signer to the rotation: after a rotation run,
    the `kid` the signer puts in its header is the `kid` of a published key.

## Model

| member | source | states |
|---|---|---|
| Encoding.Base64 | src/index.sign.ts:86-88 | `toString('base64')` gives 4 characters per started 3-byte group, padding included |
| Encoding.Base64Url | src/index.sign.ts:74-75 | the `base64url` encoding of n bytes has ⌈4n/3⌉ characters, all from the URL-safe alphabet |
| Encoding.ReplaceAll | src/index.sign.ts:89-90 | a global one-character replace keeps the length and changes exactly the occurrences of the pattern |
| Encoding.RemoveAll | src/index.sign.ts:91 | `replace(/=/g, '')` leaves no `=` and keeps the count of every other character |
| Encoding.SignatureTextIsBase64Url | src/index.sign.ts:86-91 | padded base64 with `+`→`-`, `/`→`_` and every `=` removed equals the unpadded base64url of the same bytes |
| Encoding.SignatureTextIsUrlSafe | dist/index.sign.js:70-75 | the signature text has only URL-safe characters, so no `+`, `/`, `=` or `.` |
| Arn.IndexOf | src/index.sign.ts:116-117 | `[^:]*` followed by `:` stops at the first colon: the index has a colon and no colon comes before it |
| Arn.RoleSpan | src/index.sign.ts:120-121 | the longest run of `[A-z0-9\-]` characters, followed by a character outside the class |
| Arn.MatchAtSound | src/index.sign.ts:114-126 | whatever the anchored matcher accepts has the pattern's shape, and the groups it returns are that shape's groups |
| Arn.MatchAtComplete | src/index.sign.ts:114-126 | every string of the pattern's shape is accepted with exactly the groups it was built from |
| Arn.MatchStartUnique | src/index.sign.ts:126-127 | at most one start position matches, so the missing `^` anchor never makes the match ambiguous |
| Arn.ExecFinds | src/index.sign.ts:127 | `exec` returns the groups of a shaped suffix, whatever position the search starts from up to that suffix |
| Arn.ExecSound | src/index.sign.ts:127 | whatever `exec` returns comes from a suffix of the pattern's shape |
| Arn.GetArnSound | src/index.sign.ts:108-134 | a result exists only for a present identity, and it is always the whole role ARN of a shaped suffix, never a partial one |
| Arn.GetArnComplete | dist/index.sign.js:89-113 | for any suffix of the pattern's shape the result is `arn:aws:iam:<region>:<account>:role/<role>` built from exactly its groups |
| Arn.GetArnRejects | src/index.sign.ts:108-131 | null for a missing identity, and null for every string with no suffix of the pattern's shape |
| Arn.GetArnRejectsWithoutColon | src/test/index.sign.test.ts:84-93 | a string without a colon, such as `i-am-not-even-trying`, is rejected |
| Arn.MatchFramedByColons | src/index.sign.ts:114-124 | in `x:region:account:tail`, where only `x` holds other colons, a match needs `x` to end in `arn:aws:sts` and the account to be twelve digits |
| Arn.RejectsUnlessStsAccount | src/index.sign.ts:114-131 | such a string is rejected when its last three colons do not frame `arn:aws:sts`, a region and twelve digits |
| Arn.WrongServiceRejected | src/test/index.sign.test.ts:61-71 | the `arn:aws:invalid-service:…` identity is rejected |
| Arn.NonDigitAccountRejected | src/test/index.sign.test.ts:73-82 | the identity whose account is `account-id` is rejected |
| Arn.GetArnIgnoresPrefix | src/index.sign.ts:126-127 | without a `^` anchor, any text in front of a well-formed assumed-role ARN is skipped |
| Arn.GetArnOfMatch | dist/index.sign.js:106-112 | a whole match is normalised to the role ARN of its groups |
| Arn.GetArnSessionExample | src/test/index.sign.test.ts:23 | the test identity in `eu-central-1` becomes `arn:aws:iam:eu-central-1:123456789012:role/this-is-my-role-name` |
| Cloud.Describe | src/index.keyrotate.ts:132 | a successful DescribeKey returns the key the alias is bound to |
| Cloud.Repoint | src/index.keyrotate.ts:111-114 | UpdateAlias moves only the named alias, and a failed call changes nothing |
| Cloud.NewAlias | src/index.keyrotate.ts:119-122 | CreateAlias succeeds only for a name that has no alias yet, and then adds just that alias; a failed call changes nothing |
| Cloud.NewKey | src/index.keyrotate.ts:99-102 | a new key's id is the store's next unused id |
| Cloud.ScheduleDeletion | src/index.keyrotate.ts:65-67 | ScheduleKeyDeletion only adds the key to the scheduled set, and a failed call changes nothing |
| Cloud.PublicKeyOf | src/index.keyrotate.ts:193 | GetPublicKey answers with the material of the key the alias is bound to |
| Cloud.Tag | src/index.keyrotate.ts:210-212 | TagResource sets one tag of an existing key, keeps its other tags and every other key's, and a failed call changes nothing |
| Cloud.KeyService.DescribeKey | src/index.keyrotate.ts:132 | the DescribeKey call answers as `Describe` on the current state |
| Cloud.KeyService.UpdateAlias | src/index.keyrotate.ts:111-114 | UpdateAlias re-points an existing alias at an existing key; otherwise it fails with NotFound or a rejection |
| Cloud.KeyService.CreateAlias | src/index.keyrotate.ts:119-122 | CreateAlias adds a missing alias for an existing key; otherwise it fails with AlreadyExists, NotFound or a rejection |
| Cloud.KeyService.CreateKey | src/index.keyrotate.ts:99-102 | CreateKey adds a key with a fresh id, the given material and no tags |
| Cloud.KeyService.ScheduleKeyDeletion | src/index.keyrotate.ts:65-67 | ScheduleKeyDeletion marks an existing key and changes nothing else |
| Cloud.KeyService.GetPublicKey | src/index.keyrotate.ts:193 | GetPublicKey returns the public material of the key behind the alias |
| Cloud.KeyService.TagResource | src/index.keyrotate.ts:210-212 | TagResource sets one tag on an existing key and keeps its other tags |
| Cloud.Bucket.PutObject | src/index.keyrotate.ts:214-228 | `uploadToS3` replaces the whole object under the key, or fails and changes nothing |
| KeyRotation.KeyIdOf | src/index.keyrotate.ts:130-142 | `getKeyIdForAlias` gives the bound key, `null` for an unbound alias, and passes any other error on |
| KeyRotation.GetKeyIdForAlias | src/index.keyrotate.ts:130-142 | the method's answer equals `KeyIdOf` on the store it saw |
| KeyRotation.UpdateOrCreate | src/index.keyrotate.ts:109-128 | on success the alias maps to the key and nothing else changes; on failure nothing changes; for an existing key with both alias calls answered it succeeds, whether the alias existed or not; a rejected UpdateAlias is passed on, and so is a rejected CreateAlias on the create path, with nothing changed; a consistent store stays consistent |
| KeyRotation.UpdateOrCreateAlias | src/index.keyrotate.ts:109-128 | the method's outcome and new store equal `UpdateOrCreate` on the old store |
| KeyRotation.DeletePreviousStep | src/index.keyrotate.ts:60-72 | only the scheduled set can change; a bound PREVIOUS has its key scheduled when the calls are answered; an unbound PREVIOUS changes nothing; a rejected DescribeKey, or a rejected ScheduleKeyDeletion for a bound PREVIOUS, is passed on with nothing changed |
| KeyRotation.DeletePrevious | src/index.keyrotate.ts:60-72 | the method changes only the scheduled set, as `DeletePreviousStep` says |
| KeyRotation.Promote | src/index.keyrotate.ts:74-93 | the target alias takes the source alias's key; an unbound source changes nothing; a rejected DescribeKey, or for a bound source a rejected UpdateAlias or (when the target alias is missing) a rejected CreateAlias, is passed on with nothing changed; with every call answered the step succeeds |
| KeyRotation.MovePrevious | src/index.keyrotate.ts:74-82 | the method changes only aliases, as `Promote` from CURRENT to PREVIOUS does |
| KeyRotation.MoveCurrent | src/index.keyrotate.ts:84-93 | the method changes only aliases, as `Promote` from PENDING to CURRENT does |
| KeyRotation.CreatePendingStep | src/index.keyrotate.ts:95-107 | on success, exactly one new key with the next id, the given material and no tags, bound to PENDING; on failure, no alias moves and nothing is scheduled; a rejected CreateKey changes nothing; after CreateKey, a rejected UpdateAlias, or a rejected CreateAlias for a missing PENDING, fails the step and leaves the new key in the store with no alias; with the calls answered it succeeds |
| KeyRotation.CreatePending | src/index.keyrotate.ts:95-107 | the method's new store equals `CreatePendingStep` on the old store |
| KeyRotation.FreshKeyId | src/index.keyrotate.ts:99-106 | the id of a new key is not an existing key, not scheduled and not bound to any alias |
| KeyRotation.Publish | src/index.keyrotate.ts:204-207 | the published JWK is the converted key with `use` set to `sig` and `alg` set to `RS256` |
| KeyRotation.GenerateJwk | src/index.keyrotate.ts:191-208 | the method reads the public key behind the alias and publishes its conversion |
| KeyRotation.GenerateJwks | src/index.keyrotate.ts:144-159 | the loop over ALIASES and the upload change only tags and the bucket, as the JWKS step function says (its failures are stated by `ArtifactsRejected`) |
| KeyRotation.GatherStep | src/index.keyrotate.ts:147-154 | one more alias gathered after a clean prefix is one more loop iteration |
| KeyRotation.ExhaustedGathering | src/index.keyrotate.ts:147-154 | after the first error the remaining aliases are not visited |
| KeyRotation.OpenIdDocument | src/index.keyrotate.ts:161-189 | the discovery document carries the issuer, `jwks_uri` = issuer + `/discovery/keys` (`undefined` when unset), and RS256 |
| KeyRotation.GenerateOpenIdConfiguration | src/index.keyrotate.ts:161-189 | the document replaces `.well-known/openid-configuration`, unless the bucket rejects the write |
| KeyRotation.Put | src/index.keyrotate.ts:214-228 | the write replaces one whole object and leaves the key store alone |
| KeyRotation.HandleStep | src/index.keyrotate.ts:32-58 | an unknown step changes nothing; every step other than `generateArtifacts` leaves the published objects alone |
| KeyRotation.Handler | src/index.keyrotate.ts:32-58 | the dispatch method's outcome and new state equal `HandleStep` |
| KeyRotation.RotationCycle | src/index.ts:255-260 | the chain of the five handler invocations, stopping at the first failure, equals `Cycle` |
| KeyRotation.FailureStopsChain | src/index.ts:247-260 | once a step fails, every later stage is that same failure with nothing more changed, and a run passes exactly when all five steps pass |
| KeyRotation.PublishedKeysSnoc | src/index.keyrotate.ts:147-154 | the key set grows by the entry of the alias appended at its end, as `allKeys.push` does |
| KeyRotation.PublishedKeysOfAliases | src/index.keyrotate.ts:26-30 | the key set lists PREVIOUS, CURRENT and PENDING in that order, each only when bound |
| KeyRotation.PublishedKeysAreSigningKeys | src/index.keyrotate.ts:191-208 | every entry has `use` = `sig` and `alg` = `RS256`, and is the converted key of a bound alias |
| KeyRotation.AddUnboundKey | src/index.keyrotate.ts:148-149 | an unbound alias adds no entry and tags nothing |
| KeyRotation.AddBoundKey | src/index.keyrotate.ts:149-153 | a bound alias appends its entry and tags its key with the entry's `kid` |
| KeyRotation.TagKeepsKidsTagged | src/index.keyrotate.ts:151 | tagging one more key keeps every listed key tagged with its own `kid` |
| KeyRotation.GatherKeysPublishes | src/index.keyrotate.ts:144-154 | with every call answered, the loop collects exactly one entry per bound alias in order, tags each listed key with its `kid`, and changes nothing in the store but tags |
| KeyRotation.GatherDescribeRejected | src/index.keyrotate.ts:147-148 | a rejected DescribeKey fails the loop at its first alias, with nothing tagged or collected |
| KeyRotation.GatherKeyReadRejected | src/index.keyrotate.ts:147-154 | with DescribeKey answered, a rejected GetPublicKey or TagResource fails the loop exactly when some alias is bound, with nothing tagged or collected; with no alias bound the loop passes with an empty key set |
| KeyRotation.ArtifactsRejected | src/index.keyrotate.ts:50-53 | `generateArtifacts` fails with nothing changed on a rejected DescribeKey, or on a rejected GetPublicKey or TagResource once an alias is bound; a rejecting bucket fails it with no object written; a failed key-set upload means the discovery document is not written |
| KeyRotation.ArtifactsPublish | src/test/index.keyrotate.test.ts:84-143 | `generateArtifacts` replaces exactly `discovery/keys` (the key set) and then `.well-known/openid-configuration`, with each listed key tagged |
| KeyRotation.HealthySteps | src/index.keyrotate.ts:60-107 | with every call answered: delete schedules PREVIOUS's key, the moves shift one alias, create succeeds |
| KeyRotation.RingStages | src/index.ts:255-260 | from a ring, the stores between the chain's stages are: PREVIOUS's key scheduled, then PREVIOUS moved, then CURRENT moved, then PENDING created |
| KeyRotation.ShiftedAliases | src/index.keyrotate.ts:74-93 | after `movePrevious`, PREVIOUS holds CURRENT's key; after `moveCurrent`, CURRENT holds PENDING's; no other alias moves |
| KeyRotation.CreatedPending | src/index.keyrotate.ts:95-107 | PENDING names the fresh key with the given material, and every other alias stays where it was |
| KeyRotation.RotatedAliases | src/index.keyrotate.ts:60-107 | after the four alias steps, PREVIOUS holds CURRENT's key, CURRENT holds PENDING's, PENDING holds a fresh key, and PREVIOUS's key is scheduled |
| KeyRotation.TurnedRing | src/index.keyrotate.ts:60-107 | a ring turned by one position, with a fresh key entering, is again a ring: distinct live keys, filled from PENDING backwards |
| KeyRotation.RotatedRing | src/index.keyrotate.ts:60-107 | the four alias steps from a ring turn the ring: `(P, C, N)` becomes `(C, N, fresh)` with `P` scheduled |
| KeyRotation.TurnedIgnoresTags | src/index.keyrotate.ts:151 | the tags written by `generateArtifacts` do not affect the turn |
| KeyRotation.CycleArtifacts | src/index.ts:255-260 | from a ring with every call answered, a run is the artifacts step on the rotated store |
| KeyRotation.RotatedArtifacts | src/index.keyrotate.ts:50-53 | the artifacts step on the rotated store completes the turn and leaves both services answering |
| KeyRotation.FailedMoveStrandsPrevious | src/index.keyrotate.ts:60-82 | from a fully bound ring with UpdateAlias rejected, the run fails at `movePrevious` with PREVIOUS still bound to its key, which is now scheduled for deletion, so the result is no longer a ring |
| KeyRotation.CycleRotates | src/index.keyrotate.ts:60-107 | one run from a ring succeeds and yields `(C, N, fresh)` with `P` scheduled, the material updated, other aliases unchanged, and a ring again |
| KeyRotation.CyclePublishes | src/index.keyrotate.ts:144-189 | a run publishes the key set of the new bindings and the discovery document, with each listed key tagged with its `kid` |
| KeyRotation.Bootstrap | src/index.ts:270-284 | two runs from an empty store leave PREVIOUS unbound and CURRENT and PENDING bound to two different fresh keys, with nothing scheduled |
| KeyRotation.TwoKeySet | src/index.keyrotate.ts:144-159 | with only CURRENT and PENDING bound, the key set is their two entries, CURRENT's first |
| KeyRotation.RotatedKeySet | src/index.keyrotate.ts:144-159 | turning a store where only PENDING is bound publishes the old PENDING key, then the new one |
| KeyRotation.SecondRunKeySet | src/index.ts:281-282 | the second bootstrap run publishes the keys of the first and the second run, in that order |
| KeyRotation.BootstrapPublishes | src/index.ts:270-284 | after the two bootstrap runs `discovery/keys` lists exactly the two new keys, CURRENT's first |
| Signer.GetTagValueFromTags | src/index.sign.ts:137-145 | the loop returns the lookup's answer: the first matching tag's value, or null |
| Signer.TagValueFirstMatch | dist/index.sign.js:114-121 | the first tag with the key wins, and the answer is null exactly when no tag carries the key |
| Signer.KidOf | src/index.sign.ts:40-45 | a `kid` exists exactly when the first `jwk_kid` tag has a value, and then it is that value |
| Signer.KidOfListing | src/index.sign.ts:40-41 | read from a listing of a key's tags, the `kid` is the key's `jwk_kid` tag |
| Signer.Respond | src/index.sign.ts:101-106 | the message becomes the body, with the given status code (200 by default) |
| Signer.Audience | src/index.sign.ts:23-27 | a present, non-empty `aud` query parameter wins; any other result is `DEFAULT_AUDIENCE` |
| Signer.TokenHeader | src/index.sign.ts:50-54 | the header is `alg` RS256, `typ` JWT and the tag's `kid` |
| Signer.Claims | src/index.sign.ts:57-71 | `sub`, `aud` and `iss` are copied; `iat` is the second of issue; `exp - iat` = 3600 and `iat - nbf` = 300 |
| Signer.NewYear2020Claims | src/test/index.sign.test.ts:128-131 | at 2020-01-01T00:00Z the claims are iat 1577836800, exp 1577840400 and nbf 1577836500 |
| Signer.AsciiBytes | src/index.sign.ts:80 | `Buffer.from` of the ASCII signing input is one byte per character |
| Signer.Dot | src/index.sign.ts:80 | the signing input `header.payload` is ASCII, of length \|h\| + 1 + \|p\| |
| Signer.HeaderSegment | src/index.sign.ts:74 | the header segment is URL-safe text |
| Signer.PayloadSegment | src/index.sign.ts:75 | the payload segment is URL-safe text |
| Signer.SignatureSegment | src/index.sign.ts:86-91 | the signature segment is URL-safe text |
| Signer.CompactSplits | src/index.sign.ts:93 | the token splits on `.` into exactly its three segments, and the signed message is the text before the second dot |
| Signer.SignWith | src/index.sign.ts:78-98 | signing issues one Sign call on the key; it answers 200 exactly when the store returns a signature |
| Signer.IssueWith | src/index.sign.ts:40-45 | after DescribeKey the handler issues one or two calls, all about the described key: ListResourceTags first |
| Signer.Handler | src/index.sign.ts:14-99 | the handler's result and its call sequence equal `Handle` |
| Signer.IssueToken | src/index.sign.ts:40-98 | reading the tags and signing equal the tag and sign stages of `Handle` |
| Signer.SignToken | src/index.sign.ts:47-98 | building, signing and answering equal the sign stage of `Handle` |
| Signer.ResponseOrder | src/index.sign.ts:15-45 | 400 exactly for an unresolved identity, with no key-store call; then the first 500 exactly when the described key has no id; then the second 500 exactly when no usable `jwk_kid`; 200 exactly when all three reads succeed |
| Signer.OnlyCurrentAliasDescribed | dist/index.sign.js:10-32 | the handler describes only the configured alias, once and first; every later call is about the key that alias resolved to |
| Signer.SignedToken | dist/index.sign.js:60-80 | the token is the header segment, the payload segment and the base64url of the signature over exactly the first two joined by a dot |
| Signer.TokenIssued | src/index.sign.ts:74-98 | a 200 answer means the calls were DescribeKey, ListResourceTags, Sign; its body is `{"token": h.p.s}` with the header for the tag's `kid`, the payload for the caller's role ARN, and `s` the signature over `h.p` |
| Signer.GarbageIdentityRejected | src/test/index.sign.test.ts:84-93 | an identity without a colon is answered 400 with no key-store call |
| Signer.Issues | src/index.sign.ts:47-98 | with the identity, key, `kid` and signature available, the answer is 200 with exactly that token and those three calls |
| Signer.SingleKidTag | src/test/index.sign.test.ts:142-149 | a key whose only tag is `jwk_kid` yields that tag's value |
| Signer.SigningScenario | src/test/index.sign.test.ts:128-177 | the test's request at 2020-01-01 is answered 200 with the token over the normalised role ARN, the default audience, the issuer and the tag's `kid` |
| Signer.CurrentKidPublished | src/index.keyrotate.ts:147-153 | when every aliased key carries its entry's `kid`, CURRENT's `kid` is the `kid` of an entry of the key set |
| Signer.IssuedKidIsPublished | src/index.sign.ts:39-41 | after a rotation run, the `kid` the signer reads for CURRENT is the `kid` of a key in the published `discovery/keys` |

## Behaviour of the code

Three consequences of the code that a reader might not expect.

- Two rotation runs from an empty store leave PREVIOUS unbound. All three
  aliases are bound only from the third run on (`KeyRotation.Bootstrap`).
  After every run in which no call is rejected, `Ring` holds: the bound
  aliases name distinct keys, none of them scheduled for deletion. A run
  that fails part-way can break it. When UpdateAlias is rejected,
  `deletePrevious` has already scheduled PREVIOUS's key, and the failed
  `movePrevious` leaves PREVIOUS bound to that key
  (`KeyRotation.FailedMoveStrandsPrevious`).
- Every run turns the ring, even when all keys already exist
  (`KeyRotation.CycleRotates`). The twice-run bootstrap is therefore not
  idempotent, and it is triggered on stack updates as well as on creation
  (src/index.ts:306-319), so each deployment update rotates the keys twice.
- In the signer, an unbound CURRENT makes DescribeKey raise
  NotFoundException. The signer does not catch it, so the invocation fails
  with that error (`Raised` in `Signer.Handle`) and no 500 is answered. The
  500 `KMS key could not be retrieved` is given only when the described
  metadata has no KeyId.

## Left out

- Cryptography. RSA key generation, signing and the DER → PEM → JWK
  conversion with its `kid` derivation are inputs: the new key's material
  `der`, the `sign` answer of `KeyStoreReads`, and the function `toJwk`.
  Because `toJwk` is a function, the same key always gives the same JWK.
- `JSON.stringify` of the header and payload with their UTF-8 bytes is the
  uninterpreted `Codec`. The JSON of the response body (`TokenBody`) and the
  uploaded documents (`Document`) are written out as values, not text.
- The wall clock is an integer millisecond input `now`. JavaScript's `Date`
  and float arithmetic are exact on these values within the range of dates.
- Logging (`console.log`, `Logger`), S3 bucket names, content types and
  encodings, and the key spec and usage of CreateKey are not modelled.
- KeyRotation.KeyIdOf: the key store's DescribeKey always reports the
  bound key's id. The source reads `KeyMetadata?.KeyId`, which could be
  undefined and would then count as unbound; that answer is not modelled
  for the rotation engine, although the signer's `KeyStoreReads.describe`
  does model it.
- Key-store semantics the code does not rely on are not modelled: the
  deletion window, aliases that point at keys pending deletion, and the
  rejection of a ScheduleKeyDeletion for a key already pending deletion.
- Concurrency is not modelled: signer requests racing a rotation, and
  overlapping runs.
- Service faults are the sets `failing` and `bucketFailing` of calls a
  service currently rejects. The engine never changes them, and a fault is
  not tied to particular arguments.
- The configuration read at load time (`PREVIOUS_KEY`, `CURRENT_KEY`,
  `PENDING_KEY`, `ISSUER`, `DEFAULT_AUDIENCE`) is a parameter. An unset
  alias variable, which makes the module throw when it loads, is not
  modelled.
- Strings are sequences of Dafny characters, not UTF-16 code units. The
  pattern's classes only involve ASCII, so this does not change which
  identities match.
- The Step Functions state machine, its failure notification and the rest
  of the CDK stack (src/index.ts) are not part of this model. Only the step
  order and the twice-run bootstrap are modelled, as `Cycle`.
- Signer.SigningScenario: the signature bytes are a parameter, not the
  test's `i-am-a-signature`, and the token's header and payload segments
  are stated through the `Codec` rather than as literal text.
