/** The two external services the rotation engine drives: the key store that
    holds the signing keys and their aliases, and the bucket that serves the
    published discovery documents.

    Each service is a class whose fields hold its state, and each call the
    engine issues is a method of that class.  The behaviour of every call is
    given by a function on a snapshot of the state (`KeyStore`), so that the
    engine's steps can be specified, and reasoned about, as functions too.

    A service can reject calls for reasons that have nothing to do with the
    engine's arguments (throttling, permissions, an outage).  Such faults are
    modelled by the set `failing` of commands the service currently rejects;
    the engine never changes it. */
module Cloud {
  import opened Wrappers
  import opened Encoding

  /** Key ids are allocated by the key store; they are never empty, so the
      engine's truthiness test on an id is the same as "an id was returned". */
  type KeyId = nat

  /** The DER-encoded public half of an asymmetric key. */
  type PublicKeyDer = seq<byte>

  datatype Command =
    | DescribeKey | UpdateAlias | CreateAlias | CreateKey
    | ScheduleKeyDeletion | GetPublicKey | TagResource | PutObject

  /** `NotFoundException`, `AlreadyExistsException`, and every other error a
      call can raise, tagged with the call that raised it. */
  datatype StoreError = NotFound | AlreadyExists | Rejected(command: Command)

  /** A snapshot of the key store. */
  datatype KeyStore = KeyStore(
    aliases: map<string, KeyId>,
    keys: set<KeyId>,
    material: map<KeyId, PublicKeyDer>,
    tags: map<KeyId, map<string, string>>,
    scheduled: set<KeyId>,
    nextKeyId: nat,
    failing: set<Command>)

  /** Aliases point at existing keys, every key has its material and its tags,
      only existing keys are scheduled for deletion, and ids are allocated
      from a counter that is past every id handed out so far. */
  predicate Consistent(st: KeyStore) {
    && st.aliases.Values <= st.keys
    && st.material.Keys == st.keys
    && st.tags.Keys == st.keys
    && st.scheduled <= st.keys
    && forall k :: k in st.keys ==> k < st.nextKeyId
  }

  /** The answer of a call that returns a value, and the state after it. */
  datatype Answer<T> = Answer(result: Result<T, StoreError>, store: KeyStore)

  /** The answer of a call that returns nothing, and the state after it. */
  datatype Effect = Effect(outcome: Outcome<StoreError>, store: KeyStore)

  /** `DescribeKey` on an alias name: the key id the alias points at. */
  function Describe(st: KeyStore, name: string): (r: Result<KeyId, StoreError>)
    ensures r.Success? ==> name in st.aliases && r.value == st.aliases[name]
  {
    if Command.DescribeKey in st.failing then Failure(Rejected(Command.DescribeKey))
    else if name in st.aliases then Success(st.aliases[name])
    else Failure(NotFound)
  }

  /** `UpdateAlias`: re-points an existing alias at an existing key. */
  function Repoint(st: KeyStore, name: string, key: KeyId): (e: Effect)
    ensures e.outcome.Pass? ==> e.store == st.(aliases := st.aliases[name := key])
    ensures e.outcome.Fail? ==> e.store == st
  {
    if Command.UpdateAlias in st.failing then Effect(Fail(Rejected(Command.UpdateAlias)), st)
    else if name !in st.aliases || key !in st.keys then Effect(Fail(NotFound), st)
    else Effect(Pass, st.(aliases := st.aliases[name := key]))
  }

  /** `CreateAlias`: a new alias for an existing key. */
  function NewAlias(st: KeyStore, name: string, key: KeyId): (e: Effect)
    ensures e.outcome.Pass? ==> name !in st.aliases && e.store == st.(aliases := st.aliases[name := key])
    ensures e.outcome.Fail? ==> e.store == st
  {
    if Command.CreateAlias in st.failing then Effect(Fail(Rejected(Command.CreateAlias)), st)
    else if name in st.aliases then Effect(Fail(AlreadyExists), st)
    else if key !in st.keys then Effect(Fail(NotFound), st)
    else Effect(Pass, st.(aliases := st.aliases[name := key]))
  }

  /** `CreateKey`: a new key with the given public material, no tags and a
      fresh id. */
  function NewKey(st: KeyStore, der: PublicKeyDer): (a: Answer<KeyId>)
    ensures a.result.Success? ==> a.result.value == st.nextKeyId
  {
    if Command.CreateKey in st.failing then Answer(Failure(Rejected(Command.CreateKey)), st)
    else
      var k := st.nextKeyId;
      Answer(Success(k), st.(keys := st.keys + {k}, material := st.material[k := der],
                             tags := st.tags[k := map[]], nextKeyId := k + 1))
  }

  /** `ScheduleKeyDeletion`: marks an existing key for deletion.  A key that is
      already pending deletion is accepted again here; the service's own
      answer to such a request is not modelled. */
  function ScheduleDeletion(st: KeyStore, key: KeyId): (e: Effect)
    ensures e.outcome.Pass? ==> e.store == st.(scheduled := st.scheduled + {key})
    ensures e.outcome.Fail? ==> e.store == st
  {
    if Command.ScheduleKeyDeletion in st.failing then Effect(Fail(Rejected(Command.ScheduleKeyDeletion)), st)
    else if key !in st.keys then Effect(Fail(NotFound), st)
    else Effect(Pass, st.(scheduled := st.scheduled + {key}))
  }

  /** `GetPublicKey` on an alias name. */
  function PublicKeyOf(st: KeyStore, name: string): (r: Result<PublicKeyDer, StoreError>)
    ensures r.Success? ==> name in st.aliases && st.aliases[name] in st.material
                           && r.value == st.material[st.aliases[name]]
  {
    if Command.GetPublicKey in st.failing then Failure(Rejected(Command.GetPublicKey))
    else if name !in st.aliases || st.aliases[name] !in st.material then Failure(NotFound)
    else Success(st.material[st.aliases[name]])
  }

  /** `TagResource` with a single tag: sets `tagKey` to `tagValue` on the key,
      keeping its other tags. */
  function Tag(st: KeyStore, key: KeyId, tagKey: string, tagValue: string): (e: Effect)
    ensures e.outcome.Pass? ==> key in st.tags && e.store == st.(tags := st.tags[key := st.tags[key][tagKey := tagValue]])
    ensures e.outcome.Fail? ==> e.store == st
  {
    if Command.TagResource in st.failing then Effect(Fail(Rejected(Command.TagResource)), st)
    else if key !in st.tags then Effect(Fail(NotFound), st)
    else Effect(Pass, st.(tags := st.tags[key := st.tags[key][tagKey := tagValue]]))
  }

  /** The key store. */
  class KeyService {
    var aliases: map<string, KeyId>
    var keys: set<KeyId>
    var material: map<KeyId, PublicKeyDer>
    var tags: map<KeyId, map<string, string>>
    var scheduled: set<KeyId>
    var nextKeyId: nat
    var failing: set<Command>

    ghost function State(): KeyStore
      reads this
    {
      KeyStore(aliases, keys, material, tags, scheduled, nextKeyId, failing)
    }

    constructor (st: KeyStore)
      ensures State() == st
    {
      aliases, keys, material, tags := st.aliases, st.keys, st.material, st.tags;
      scheduled, nextKeyId, failing := st.scheduled, st.nextKeyId, st.failing;
    }

    method DescribeKey(name: string) returns (r: Result<KeyId, StoreError>)
      ensures r == Describe(State(), name)
    {
      if Command.DescribeKey in failing {
        r := Failure(Rejected(Command.DescribeKey));
      } else if name in aliases {
        r := Success(aliases[name]);
      } else {
        r := Failure(NotFound);
      }
    }

    method UpdateAlias(name: string, key: KeyId) returns (o: Outcome<StoreError>)
      modifies this`aliases
      ensures Effect(o, State()) == Repoint(old(State()), name, key)
    {
      if Command.UpdateAlias in failing {
        o := Fail(Rejected(Command.UpdateAlias));
      } else if name !in aliases || key !in keys {
        o := Fail(NotFound);
      } else {
        aliases := aliases[name := key];
        o := Pass;
      }
    }

    method CreateAlias(name: string, key: KeyId) returns (o: Outcome<StoreError>)
      modifies this`aliases
      ensures Effect(o, State()) == NewAlias(old(State()), name, key)
    {
      if Command.CreateAlias in failing {
        o := Fail(Rejected(Command.CreateAlias));
      } else if name in aliases {
        o := Fail(AlreadyExists);
      } else if key !in keys {
        o := Fail(NotFound);
      } else {
        aliases := aliases[name := key];
        o := Pass;
      }
    }

    method CreateKey(der: PublicKeyDer) returns (r: Result<KeyId, StoreError>)
      modifies this`keys, this`material, this`tags, this`nextKeyId
      ensures Answer(r, State()) == NewKey(old(State()), der)
    {
      if Command.CreateKey in failing {
        r := Failure(Rejected(Command.CreateKey));
      } else {
        var k := nextKeyId;
        keys := keys + {k};
        material := material[k := der];
        tags := tags[k := map[]];
        nextKeyId := k + 1;
        r := Success(k);
      }
    }

    method ScheduleKeyDeletion(key: KeyId) returns (o: Outcome<StoreError>)
      modifies this`scheduled
      ensures Effect(o, State()) == ScheduleDeletion(old(State()), key)
    {
      if Command.ScheduleKeyDeletion in failing {
        o := Fail(Rejected(Command.ScheduleKeyDeletion));
      } else if key !in keys {
        o := Fail(NotFound);
      } else {
        scheduled := scheduled + {key};
        o := Pass;
      }
    }

    method GetPublicKey(name: string) returns (r: Result<PublicKeyDer, StoreError>)
      ensures r == PublicKeyOf(State(), name)
    {
      if Command.GetPublicKey in failing {
        r := Failure(Rejected(Command.GetPublicKey));
      } else if name !in aliases || aliases[name] !in material {
        r := Failure(NotFound);
      } else {
        r := Success(material[aliases[name]]);
      }
    }

    method TagResource(key: KeyId, tagKey: string, tagValue: string) returns (o: Outcome<StoreError>)
      modifies this`tags
      ensures Effect(o, State()) == Tag(old(State()), key, tagKey, tagValue)
    {
      if Command.TagResource in failing {
        o := Fail(Rejected(Command.TagResource));
      } else if key !in tags {
        o := Fail(NotFound);
      } else {
        tags := tags[key := tags[key][tagKey := tagValue]];
        o := Pass;
      }
    }
  }

  /** The public part of a JSON Web Key as the key converter derives it from
      the key's public material (RFC 7517 section 4). */
  datatype PublicJwk = PublicJwk(kty: string, n: string, e: string, kid: string)

  /** A published JSON Web Key: the converted key plus its intended use and
      algorithm. */
  datatype Jwk = Jwk(kty: string, n: string, e: string, kid: string, alg: string, use: string)

  /** The JSON objects the engine publishes: a JWK Set (RFC 7517 section 5)
      and an OpenID Provider Configuration (OpenID Connect Discovery 1.0,
      section 3).  A missing `issuer` is an absent member. */
  datatype Document =
    | KeySet(keys: seq<Jwk>)
    | OpenIdConfiguration(
        issuer: Option<string>,
        jwksUri: string,
        responseTypesSupported: seq<string>,
        idTokenSigningAlgValuesSupported: seq<string>,
        scopesSupported: seq<string>,
        tokenEndpointAuthMethodsSupported: seq<string>,
        claimsSupported: seq<string>)

  /** The bucket the discovery documents are served from. */
  class Bucket {
    var objects: map<string, Document>
    var failing: bool

    constructor (objects: map<string, Document>, failing: bool)
      ensures this.objects == objects && this.failing == failing
    {
      this.objects := objects;
      this.failing := failing;
    }

    /** `PutObject`: replaces the whole object stored under `key`. */
    method PutObject(key: string, body: Document) returns (o: Outcome<StoreError>)
      modifies this`objects
      ensures o == (if failing then Fail(Rejected(Command.PutObject)) else Pass)
      ensures objects == if failing then old(objects) else old(objects)[key := body]
    {
      if failing {
        o := Fail(Rejected(Command.PutObject));
      } else {
        objects := objects[key := body];
        o := Pass;
      }
    }
  }
}
