/** Credential references: how they are resolved, which secrets they name, and which secret
    values the change detector hashes. */
module Credentials {
  import opened Seqs

  datatype CredentialRef = CredentialRef(secretName: string, key: string, skip: bool)

  datatype ClusterCredentials = ClusterCredentials(datastoreUri: Option<CredentialRef>,
                                                   presharedKey: Option<CredentialRef>,
                                                   migrationSecrets: Option<CredentialRef>)

  datatype Spec = Spec(secretRef: string, credentials: Option<ClusterCredentials>)

  type Secrets = map<string, map<string, string>>

  const DATASTORE_URI := "datastore_uri"
  const PRESHARED_KEY := "preshared_key"
  const MIGRATION_SECRETS := "migration_secrets"

  /** A pair of a secret and a key in it. */
  datatype CredKey = CredKey(secret: string, key: string)

  function KeyOr(key: string, fallback: string): string {
    if key == "" then fallback else key
  }

  predicate Active(ref: Option<CredentialRef>) {
    ref.Some? && !ref.value.skip
  }

  // ---- Validation of the spec ----

  predicate NamedOrSkipped(ref: Option<CredentialRef>) {
    Active(ref) ==> ref.value.secretName != ""
  }

  predicate RefsNamed(spec: Spec) {
    spec.credentials.Some? ==>
      && NamedOrSkipped(spec.credentials.value.datastoreUri)
      && NamedOrSkipped(spec.credentials.value.presharedKey)
      && NamedOrSkipped(spec.credentials.value.migrationSecrets)
  }

  predicate SpecOk(spec: Spec) {
    (spec.secretRef == "" || spec.credentials.None?) && RefsNamed(spec)
  }

  datatype SpecFault = BothSet | UnnamedDatastoreUri | UnnamedPresharedKey | UnnamedMigrationSecrets

  /** The first fault of a spec. */
  function FaultOf(spec: Spec): (r: Option<SpecFault>)
    ensures r.None? <==> SpecOk(spec)
  {
    if spec.credentials.None? then None
    else if spec.secretRef != "" then Some(BothSet)
    else if !NamedOrSkipped(spec.credentials.value.datastoreUri) then Some(UnnamedDatastoreUri)
    else if !NamedOrSkipped(spec.credentials.value.presharedKey) then Some(UnnamedPresharedKey)
    else if !NamedOrSkipped(spec.credentials.value.migrationSecrets) then Some(UnnamedMigrationSecrets)
    else None
  }

  /** A reference that is in use but names no secret. */
  predicate Unnamed(ref: Option<CredentialRef>) {
    ref.Some? && !ref.value.skip && ref.value.secretName == ""
  }

  method ValidateSpec(spec: Spec) returns (fault: Option<SpecFault>)
    ensures fault == FaultOf(spec) && (fault.None? <==> SpecOk(spec))
    ensures fault == Some(BothSet) <==> spec.secretRef != "" && spec.credentials.Some?
    ensures spec.secretRef == "" && spec.credentials.Some? ==>
              var c := spec.credentials.value;
              && (fault == Some(UnnamedDatastoreUri) <==> Unnamed(c.datastoreUri))
              && (fault == Some(UnnamedPresharedKey) <==> !Unnamed(c.datastoreUri) && Unnamed(c.presharedKey))
              && (fault == Some(UnnamedMigrationSecrets) <==>
                    !Unnamed(c.datastoreUri) && !Unnamed(c.presharedKey) && Unnamed(c.migrationSecrets))
    ensures spec.credentials.None? ==> fault.None?
  {
    if spec.secretRef != "" && spec.credentials.Some? {
      return Some(BothSet);
    }
    if spec.credentials.Some? {
      var c := spec.credentials.value;
      var fields := [(UnnamedDatastoreUri, c.datastoreUri), (UnnamedPresharedKey, c.presharedKey),
                     (UnnamedMigrationSecrets, c.migrationSecrets)];
      for i := 0 to |fields|
        invariant forall k :: 0 <= k < i ==> NamedOrSkipped(fields[k].1)
      {
        var (name, ref) := fields[i];
        if ref.Some? && !ref.value.skip && ref.value.secretName == "" {
          assert !NamedOrSkipped(fields[i].1);
          assert i > 0 ==> NamedOrSkipped(fields[0].1);
          assert i > 1 ==> NamedOrSkipped(fields[1].1);
          return Some(name);
        }
      }
      assert NamedOrSkipped(fields[0].1) && NamedOrSkipped(fields[1].1) && NamedOrSkipped(fields[2].1);
    }
    fault := None;
  }

  // ---- Resolution ----

  datatype ResolvedRef = ResolvedRef(secretName: string, key: string, skip: bool)

  const SKIPPED := ResolvedRef("", "", true)

  datatype Resolved = Resolved(datastoreUri: ResolvedRef, presharedKey: ResolvedRef, migrationSecrets: ResolvedRef)

  datatype CredError = NoCredentials | MissingRef | MissingSecret | MissingKey

  /** The credentials of a spec; a plain secret name stands for two references into that secret. */
  function Promoted(spec: Spec): Option<ClusterCredentials> {
    if spec.credentials.Some? then spec.credentials
    else if spec.secretRef == "" then None
    else Some(ClusterCredentials(Some(CredentialRef(spec.secretRef, DATASTORE_URI, false)),
                                 Some(CredentialRef(spec.secretRef, PRESHARED_KEY, false)), None))
  }

  predicate HasValue(secrets: Secrets, secret: string, key: string) {
    secret in secrets && key in secrets[secret]
  }

  /** The specs whose credentials resolve without an error. */
  predicate Resolves(spec: Spec, engine: string, secrets: Secrets) {
    var c := Promoted(spec);
    && c.Some? && c.value.datastoreUri.Some? && c.value.presharedKey.Some?
    && (Active(c.value.datastoreUri) && engine != "memory" ==>
        HasValue(secrets, c.value.datastoreUri.value.secretName,
                 KeyOr(c.value.datastoreUri.value.key, DATASTORE_URI)))
    && (Active(c.value.presharedKey) ==>
        HasValue(secrets, c.value.presharedKey.value.secretName,
                 KeyOr(c.value.presharedKey.value.key, PRESHARED_KEY)))
  }

  function ResolveOne(ref: CredentialRef, fallback: string): ResolvedRef {
    if ref.skip then SKIPPED else ResolvedRef(ref.secretName, KeyOr(ref.key, fallback), false)
  }

  /** The references of an accepted spec; migration secrets default to the datastore secret. */
  function ResolvedRefs(c: ClusterCredentials): Resolved
    requires c.datastoreUri.Some? && c.presharedKey.Some?
  {
    var uri := ResolveOne(c.datastoreUri.value, DATASTORE_URI);
    Resolved(uri,
             ResolveOne(c.presharedKey.value, PRESHARED_KEY),
             if c.migrationSecrets.Some? then ResolveOne(c.migrationSecrets.value, MIGRATION_SECRETS)
             else if uri.skip then SKIPPED
             else ResolvedRef(uri.secretName, MIGRATION_SECRETS, false))
  }

  /** What is read for a reference: its secret and its key, or a default one, unless it is skipped. */
  predicate Refers(r: ResolvedRef, ref: CredentialRef, fallback: string) {
    if ref.skip then r.skip
    else !r.skip && r.secretName == ref.secretName && r.key == (if ref.key == "" then fallback else ref.key)
  }

  /** Each reference is read for what it is named after. */
  predicate RefersEach(r: Resolved, c: ClusterCredentials) {
    && c.datastoreUri.Some? && Refers(r.datastoreUri, c.datastoreUri.value, "datastore_uri")
    && c.presharedKey.Some? && Refers(r.presharedKey, c.presharedKey.value, "preshared_key")
    && (if c.migrationSecrets.Some? then Refers(r.migrationSecrets, c.migrationSecrets.value, "migration_secrets")
        else if c.datastoreUri.value.skip then r.migrationSecrets.skip
        else r.migrationSecrets == ResolvedRef(c.datastoreUri.value.secretName, "migration_secrets", false))
  }

  /** A reference that is read, but whose secret is not there, or does not have the key. */
  predicate NoSecret(ref: Option<CredentialRef>, secrets: Secrets) {
    ref.Some? && !ref.value.skip && ref.value.secretName !in secrets
  }

  predicate NoKey(ref: Option<CredentialRef>, fallback: string, secrets: Secrets) {
    && ref.Some? && !ref.value.skip && ref.value.secretName in secrets
    && (if ref.value.key == "" then fallback else ref.value.key) !in secrets[ref.value.secretName]
  }

  function SecretErrors(secrets: Secrets, secret: string, key: string): seq<CredError> {
    if secret !in secrets then [MissingSecret] else if key !in secrets[secret] then [MissingKey] else []
  }

  /** The errors of one reference that has to be there. */
  function RefErrors(ref: Option<CredentialRef>, fallback: string, checked: bool, secrets: Secrets): seq<CredError> {
    if ref.None? then [MissingRef]
    else if ref.value.skip || !checked then []
    else SecretErrors(secrets, ref.value.secretName, KeyOr(ref.value.key, fallback))
  }

  function CredErrors(spec: Spec, engine: string, secrets: Secrets): seq<CredError> {
    var c := Promoted(spec);
    if c.None? then [NoCredentials]
    else RefErrors(c.value.datastoreUri, DATASTORE_URI, engine != "memory", secrets) +
         RefErrors(c.value.presharedKey, PRESHARED_KEY, true, secrets)
  }

  lemma RefErrorsMeaning(ref: Option<CredentialRef>, fallback: string, checked: bool, secrets: Secrets)
    ensures var errs := RefErrors(ref, fallback, checked, secrets);
            && NoCredentials !in errs && (MissingRef in errs <==> ref.None?)
            && (MissingSecret in errs <==> checked && NoSecret(ref, secrets))
            && (MissingKey in errs <==> checked && NoKey(ref, fallback, secrets))
            && (errs == [] <==> ref.Some? && (Active(ref) && checked ==>
                  HasValue(secrets, ref.value.secretName, KeyOr(ref.value.key, fallback))))
  {
  }

  /** Which errors there are. */
  lemma CredErrorsMeaning(spec: Spec, engine: string, secrets: Secrets)
    ensures var errs := CredErrors(spec, engine, secrets);
            && (errs == [] <==> Resolves(spec, engine, secrets))
            && (NoCredentials in errs <==> spec.credentials.None? && spec.secretRef == "")
            && (spec.credentials.Some? ==>
                  var c := spec.credentials.value;
                  && (MissingRef in errs <==> c.datastoreUri.None? || c.presharedKey.None?)
                  && (MissingSecret in errs <==>
                        (engine != "memory" && NoSecret(c.datastoreUri, secrets)) || NoSecret(c.presharedKey, secrets))
                  && (MissingKey in errs <==>
                        || (engine != "memory" && NoKey(c.datastoreUri, "datastore_uri", secrets))
                        || NoKey(c.presharedKey, "preshared_key", secrets)))
            && (spec.credentials.None? && spec.secretRef != "" ==>
                  && MissingRef !in errs && (MissingSecret in errs <==> spec.secretRef !in secrets)
                  && (MissingKey in errs <==>
                        && spec.secretRef in secrets
                        && ((engine != "memory" && "datastore_uri" !in secrets[spec.secretRef])
                            || "preshared_key" !in secrets[spec.secretRef])))
  {
    var c := Promoted(spec);
    if c.Some? {
      RefErrorsMeaning(c.value.datastoreUri, DATASTORE_URI, engine != "memory", secrets);
      RefErrorsMeaning(c.value.presharedKey, PRESHARED_KEY, true, secrets);
    }
  }

  /** Which reference is which. */
  lemma ResolvedMeaning(spec: Spec)
    requires var c := Promoted(spec);
             c.Some? && c.value.datastoreUri.Some? && c.value.presharedKey.Some?
    ensures var refs := ResolvedRefs(Promoted(spec).value);
            && (spec.credentials.Some? ==> RefersEach(refs, spec.credentials.value))
            && (spec.credentials.None? ==>
                  refs == Resolved(ResolvedRef(spec.secretRef, "datastore_uri", false),
                                   ResolvedRef(spec.secretRef, "preshared_key", false),
                                   ResolvedRef(spec.secretRef, "migration_secrets", false)))
  {
  }

  method ResolveCredentials(spec: Spec, engine: string, secrets: Secrets)
    returns (refs: Resolved, errs: seq<CredError>)
    ensures errs == [] <==> Resolves(spec, engine, secrets)
    ensures errs == [] ==> refs == ResolvedRefs(Promoted(spec).value)
    ensures errs == [] && spec.credentials.Some? ==> RefersEach(refs, spec.credentials.value)
    ensures errs == [] && spec.credentials.None? ==>
              refs == Resolved(ResolvedRef(spec.secretRef, "datastore_uri", false),
                               ResolvedRef(spec.secretRef, "preshared_key", false),
                               ResolvedRef(spec.secretRef, "migration_secrets", false))
    ensures NoCredentials in errs <==> spec.credentials.None? && spec.secretRef == ""
    ensures spec.credentials.Some? ==>
              var c := spec.credentials.value;
              && (MissingRef in errs <==> c.datastoreUri.None? || c.presharedKey.None?)
              && (MissingSecret in errs <==>
                    (engine != "memory" && NoSecret(c.datastoreUri, secrets)) || NoSecret(c.presharedKey, secrets))
              && (MissingKey in errs <==>
                    || (engine != "memory" && NoKey(c.datastoreUri, "datastore_uri", secrets))
                    || NoKey(c.presharedKey, "preshared_key", secrets))
    ensures spec.credentials.None? && spec.secretRef != "" ==>
              && MissingRef !in errs && (MissingSecret in errs <==> spec.secretRef !in secrets)
              && (MissingKey in errs <==>
                    && spec.secretRef in secrets
                    && ((engine != "memory" && "datastore_uri" !in secrets[spec.secretRef])
                        || "preshared_key" !in secrets[spec.secretRef]))
  {
    var unset := ResolvedRef("", "", false);
    refs := Resolved(unset, unset, unset);
    errs := [];
    var credentials := spec.credentials;
    if credentials.None? {
      if spec.secretRef == "" {
        errs := errs + [NoCredentials];
      } else {
        credentials := Some(ClusterCredentials(Some(CredentialRef(spec.secretRef, DATASTORE_URI, false)),
                                               Some(CredentialRef(spec.secretRef, PRESHARED_KEY, false)), None));
      }
    }
    if credentials.Some? {
      refs, errs := ResolveEach(credentials.value, engine, secrets);
    }
    assert errs == CredErrors(spec, engine, secrets);
    CredErrorsMeaning(spec, engine, secrets);
    if errs == [] {
      ResolvedMeaning(spec);
    }
  }

  /** The references of the credentials, one after the other. */
  method ResolveEach(c: ClusterCredentials, engine: string, secrets: Secrets)
    returns (refs: Resolved, errs: seq<CredError>)
    ensures errs == RefErrors(c.datastoreUri, DATASTORE_URI, engine != "memory", secrets) +
                    RefErrors(c.presharedKey, PRESHARED_KEY, true, secrets)
    ensures c.datastoreUri.Some? && c.presharedKey.Some? ==> refs == ResolvedRefs(c)
  {
    var unset := ResolvedRef("", "", false);
    refs := Resolved(unset, unset, unset);
    errs := [];
    if c.datastoreUri.None? {
      errs := errs + [MissingRef];
    } else if c.datastoreUri.value.skip {
      refs := refs.(datastoreUri := SKIPPED);
    } else {
      var key := c.datastoreUri.value.key;
      if key == "" {
        key := DATASTORE_URI;
      }
      refs := refs.(datastoreUri := ResolvedRef(c.datastoreUri.value.secretName, key, false));
      if engine != "memory" {
        var more := CheckSecret(secrets, c.datastoreUri.value.secretName, key);
        errs := errs + more;
      }
    }
    assert errs == RefErrors(c.datastoreUri, DATASTORE_URI, engine != "memory", secrets);
    if c.presharedKey.None? {
      errs := errs + [MissingRef];
    } else if c.presharedKey.value.skip {
      refs := refs.(presharedKey := SKIPPED);
    } else {
      var key := c.presharedKey.value.key;
      if key == "" {
        key := PRESHARED_KEY;
      }
      refs := refs.(presharedKey := ResolvedRef(c.presharedKey.value.secretName, key, false));
      var more := CheckSecret(secrets, c.presharedKey.value.secretName, key);
      errs := errs + more;
    }
    if c.migrationSecrets.None? {
      if refs.datastoreUri.skip {
        refs := refs.(migrationSecrets := SKIPPED);
      } else {
        refs := refs.(migrationSecrets := ResolvedRef(refs.datastoreUri.secretName, MIGRATION_SECRETS, false));
      }
    } else if c.migrationSecrets.value.skip {
      refs := refs.(migrationSecrets := SKIPPED);
    } else {
      var key := c.migrationSecrets.value.key;
      if key == "" {
        key := MIGRATION_SECRETS;
      }
      refs := refs.(migrationSecrets := ResolvedRef(c.migrationSecrets.value.secretName, key, false));
    }
  }

  method CheckSecret(secrets: Secrets, secret: string, key: string) returns (errs: seq<CredError>)
    ensures errs == [] <==> HasValue(secrets, secret, key)
    ensures errs == SecretErrors(secrets, secret, key)
  {
    if secret !in secrets {
      return [MissingSecret];
    }
    if key !in secrets[secret] {
      return [MissingKey];
    }
    errs := [];
  }

  // ---- The keys the change detector hashes ----

  function CredKeys(spec: Spec): seq<CredKey> {
    if spec.credentials.None? then
      if spec.secretRef == "" then []
      else [CredKey(spec.secretRef, DATASTORE_URI), CredKey(spec.secretRef, MIGRATION_SECRETS),
            CredKey(spec.secretRef, PRESHARED_KEY)]
    else
      var c := spec.credentials.value;
      (if Active(c.datastoreUri) then
         [CredKey(c.datastoreUri.value.secretName, KeyOr(c.datastoreUri.value.key, DATASTORE_URI))] +
         (if c.migrationSecrets.None? then [CredKey(c.datastoreUri.value.secretName, MIGRATION_SECRETS)] else [])
       else []) +
      (if Active(c.presharedKey) then
         [CredKey(c.presharedKey.value.secretName, KeyOr(c.presharedKey.value.key, PRESHARED_KEY))] else []) +
      (if Active(c.migrationSecrets) then
         [CredKey(c.migrationSecrets.value.secretName, KeyOr(c.migrationSecrets.value.key, MIGRATION_SECRETS))]
       else [])
  }

  method CollectCredKeys(spec: Spec) returns (credKeys: seq<CredKey>)
    ensures credKeys == CredKeys(spec)
  {
    credKeys := [];
    if spec.credentials.None? && spec.secretRef != "" {
      credKeys := [CredKey(spec.secretRef, DATASTORE_URI), CredKey(spec.secretRef, MIGRATION_SECRETS),
                   CredKey(spec.secretRef, PRESHARED_KEY)];
    } else if spec.credentials.Some? {
      var c := spec.credentials.value;
      if c.datastoreUri.Some? && !c.datastoreUri.value.skip {
        var k := c.datastoreUri.value.key;
        if k == "" {
          k := DATASTORE_URI;
        }
        credKeys := credKeys + [CredKey(c.datastoreUri.value.secretName, k)];
        if c.migrationSecrets.None? {
          credKeys := credKeys + [CredKey(c.datastoreUri.value.secretName, MIGRATION_SECRETS)];
        }
      }
      if c.presharedKey.Some? && !c.presharedKey.value.skip {
        var k := c.presharedKey.value.key;
        if k == "" {
          k := PRESHARED_KEY;
        }
        credKeys := credKeys + [CredKey(c.presharedKey.value.secretName, k)];
      }
      if c.migrationSecrets.Some? && !c.migrationSecrets.value.skip {
        var k := c.migrationSecrets.value.key;
        if k == "" {
          k := MIGRATION_SECRETS;
        }
        credKeys := credKeys + [CredKey(c.migrationSecrets.value.secretName, k)];
      }
    }
  }

  /** The pairs a deployment or a migration job reads. */
  function ResolvedKeys(r: Resolved): set<CredKey> {
    (if r.datastoreUri.skip then {} else {CredKey(r.datastoreUri.secretName, r.datastoreUri.key)}) +
    (if r.presharedKey.skip then {} else {CredKey(r.presharedKey.secretName, r.presharedKey.key)}) +
    (if r.migrationSecrets.skip then {} else {CredKey(r.migrationSecrets.secretName, r.migrationSecrets.key)})
  }

  /** For every spec whose credentials resolve, the hashed pairs are exactly the resolved ones. */
  lemma HashedKeysAreResolved(spec: Spec, engine: string, secrets: Secrets, k: CredKey)
    requires Resolves(spec, engine, secrets)
    ensures k in CredKeys(spec) <==> k in ResolvedKeys(ResolvedRefs(Promoted(spec).value))
  {
  }

  // ---- The secrets the cluster watches ----

  function WatchedSecrets(spec: Spec): set<string> {
    set k | k in CredKeys(spec) && k.secret != "" :: k.secret
  }

  method CredentialSecretNames(spec: Spec) returns (names: seq<string>)
    ensures Distinct(names)
    ensures forall n :: n in names <==> n in WatchedSecrets(spec)
  {
    if spec.credentials.None? && spec.secretRef != "" {
      assert CredKeys(spec)[0].secret == spec.secretRef;
      return [spec.secretRef];
    }
    if spec.credentials.None? {
      return [];
    }
    var c := spec.credentials.value;
    var refs := [c.datastoreUri, c.presharedKey, c.migrationSecrets];
    names := [];
    var seen: set<string> := {};
    for i := 0 to |refs|
      invariant Distinct(names) && forall n :: n in names <==> n in seen
      invariant forall n :: n in seen <==>
                  n != "" && exists k :: 0 <= k < i && Active(refs[k]) && refs[k].value.secretName == n
    {
      var ref := refs[i];
      if ref.Some? && !ref.value.skip && ref.value.secretName != "" {
        if ref.value.secretName !in seen {
          seen := seen + {ref.value.secretName};
          names := names + [ref.value.secretName];
        }
      }
    }
    forall n ensures n in seen <==> n in WatchedSecrets(spec) {
      NamesAreOfKeys(spec, refs, n);
    }
  }

  lemma NamesAreOfKeys(spec: Spec, refs: seq<Option<CredentialRef>>, n: string)
    requires spec.credentials.Some?
    requires refs == [spec.credentials.value.datastoreUri, spec.credentials.value.presharedKey,
                      spec.credentials.value.migrationSecrets]
    ensures (exists i :: 0 <= i < 3 && Active(refs[i]) && refs[i].value.secretName == n)
       <==> exists k :: k in CredKeys(spec) && k.secret == n
  {
    if i :| 0 <= i < 3 && Active(refs[i]) && refs[i].value.secretName == n {
      var fallback := if i == 0 then DATASTORE_URI else if i == 1 then PRESHARED_KEY else MIGRATION_SECRETS;
      assert CredKey(n, KeyOr(refs[i].value.key, fallback)) in CredKeys(spec);
    }
    if k :| k in CredKeys(spec) && k.secret == n {
      assert (Active(refs[0]) && refs[0].value.secretName == n) ||
             (Active(refs[1]) && refs[1].value.secretName == n) ||
             (Active(refs[2]) && refs[2].value.secretName == n);
    }
  }

  /** Resolution alone does not make every resolved secret a watched one: it accepts a reference
      without a secret name. The spec check is what closes that gap. */
  lemma ResolvedSecretsAreWatched(spec: Spec, engine: string, secrets: Secrets)
    requires Resolves(spec, engine, secrets)
    ensures (forall k :: k in ResolvedKeys(ResolvedRefs(Promoted(spec).value)) ==> k.secret in WatchedSecrets(spec))
       <==> RefsNamed(spec)
    ensures SpecOk(spec) ==> RefsNamed(spec)
  {
    var refs := ResolvedRefs(Promoted(spec).value);
    forall k { HashedKeysAreResolved(spec, engine, secrets, k); }
    if RefsNamed(spec) {
      forall k | k in ResolvedKeys(refs) ensures k.secret in WatchedSecrets(spec) {
        assert k in CredKeys(spec);
      }
    } else {
      var c := spec.credentials.value;
      var bad := if !NamedOrSkipped(c.datastoreUri) then refs.datastoreUri
                 else if !NamedOrSkipped(c.presharedKey) then refs.presharedKey
                 else refs.migrationSecrets;
      assert CredKey(bad.secretName, bad.key) in ResolvedKeys(refs);
    }
  }

  /** Migration secrets without a secret name resolve, and are hashed under a secret nobody watches. */
  lemma UnnamedRefIsNotWatched(secrets: Secrets, name: string, engine: string)
    requires HasValue(secrets, name, DATASTORE_URI) && HasValue(secrets, name, PRESHARED_KEY)
    ensures var spec := Spec("", Some(ClusterCredentials(Some(CredentialRef(name, DATASTORE_URI, false)),
                                                         Some(CredentialRef(name, PRESHARED_KEY, false)),
                                                         Some(CredentialRef("", "", false)))));
            && Resolves(spec, engine, secrets) && !RefsNamed(spec)
            && CredKey("", MIGRATION_SECRETS) in CredKeys(spec) && "" !in WatchedSecrets(spec)
  {
  }

  // ---- Sorting ----

  predicate StringLe(a: string, b: string) {
    a == "" || (b != "" && (a[0] < b[0] || (a[0] == b[0] && StringLe(a[1..], b[1..]))))
  }

  lemma {:induction false} StringOrder(a: string, b: string, c: string)
    ensures StringLe(a, a) && (StringLe(a, b) || StringLe(b, a))
    ensures StringLe(a, b) && StringLe(b, a) ==> a == b
    ensures StringLe(a, b) && StringLe(b, c) ==> StringLe(a, c)
    decreases |a| + |b| + |c|
  {
    if a != "" {
      StringOrder(a[1..], if b == "" then "" else b[1..], if c == "" then "" else c[1..]);
      assert a == [a[0]] + a[1..];
      assert b != "" ==> b == [b[0]] + b[1..];
    }
  }

  predicate KeyLe(a: CredKey, b: CredKey) {
    if a.secret != b.secret then StringLe(a.secret, b.secret) else StringLe(a.key, b.key)
  }

  lemma KeyOrder(a: CredKey, b: CredKey, c: CredKey)
    ensures KeyLe(a, b) || KeyLe(b, a)
    ensures KeyLe(a, b) && KeyLe(b, a) ==> a == b
    ensures KeyLe(a, b) && KeyLe(b, c) ==> KeyLe(a, c)
  {
    StringOrder(a.secret, b.secret, c.secret);
    StringOrder(a.key, b.key, c.key);
  }

  /** Each key is at most every later one. */
  predicate Sorted(s: seq<CredKey>) {
    s != [] ==> (forall x :: x in s[1..] ==> KeyLe(s[0], x)) && Sorted(s[1..])
  }

  function InsertKey(x: CredKey, s: seq<CredKey>): seq<CredKey> {
    if s == [] || KeyLe(x, s[0]) then [x] + s else [s[0]] + InsertKey(x, s[1..])
  }

  function SortKeys(s: seq<CredKey>): seq<CredKey> {
    if s == [] then [] else InsertKey(s[0], SortKeys(s[1..]))
  }

  lemma {:induction false} InsertKeySorts(x: CredKey, s: seq<CredKey>)
    requires Sorted(s)
    ensures Sorted(InsertKey(x, s))
    ensures multiset(InsertKey(x, s)) == multiset(s) + multiset{x}
  {
    if s != [] {
      assert s == [s[0]] + s[1..];
      if KeyLe(x, s[0]) {
        forall y | y in s ensures KeyLe(x, y) {
          KeyOrder(x, s[0], y);
        }
        assert ([x] + s)[1..] == s;
      } else {
        InsertKeySorts(x, s[1..]);
        KeyOrder(x, s[0], x);
        var rest := InsertKey(x, s[1..]);
        forall y | y in rest ensures KeyLe(s[0], y) {
          assert y in multiset(rest);
        }
        assert ([s[0]] + rest)[1..] == rest;
      }
    }
  }

  lemma {:induction false} SortKeysSorts(s: seq<CredKey>)
    ensures Sorted(SortKeys(s)) && multiset(SortKeys(s)) == multiset(s)
  {
    if s != [] {
      SortKeysSorts(s[1..]);
      InsertKeySorts(s[0], SortKeys(s[1..]));
      assert s == [s[0]] + s[1..];
    }
  }

  lemma SortedHead(s: seq<CredKey>, x: CredKey)
    requires s != [] && Sorted(s) && x in s
    ensures KeyLe(s[0], x)
  {
    KeyOrder(x, x, x);
    assert s == [s[0]] + s[1..];
  }

  /** Sorting forgets the order of collection: sorted rearrangements are equal. */
  lemma {:induction false} SortedIsUnique(s: seq<CredKey>, t: seq<CredKey>)
    requires Sorted(s) && Sorted(t) && multiset(s) == multiset(t)
    ensures s == t
  {
    assert |multiset(s)| == |multiset(t)|;
    if s != [] {
      var x, y := s[0], t[0];
      assert y in s by { assert y in multiset(s); }
      assert x in t by { assert x in multiset(t); }
      SortedHead(s, y);
      SortedHead(t, x);
      KeyOrder(x, y, x);
      assert multiset(s[1..]) == multiset(t[1..]) by {
        assert s == [x] + s[1..] && t == [x] + t[1..];
        assert multiset(s[1..]) == multiset(s) - multiset{x} == multiset(t[1..]);
      }
      SortedIsUnique(s[1..], t[1..]);
      assert s == [x] + s[1..] && t == [x] + t[1..];
    }
  }

  // ---- Hashing ----

  datatype HashEntry = HashEntry(secret: string, key: string, value: string)

  /** The value under a key; a missing key reads as the empty string. */
  function ValueOf(secrets: Secrets, k: CredKey): string
    requires k.secret in secrets
  {
    if k.key in secrets[k.secret] then secrets[k.secret][k.key] else ""
  }

  function Entries(keys: seq<CredKey>, secrets: Secrets): seq<HashEntry> {
    if keys == [] then []
    else
      var init := Entries(keys[..|keys| - 1], secrets);
      var k := Last(keys);
      if k.secret in secrets then init + [HashEntry(k.secret, k.key, ValueOf(secrets, k))] else init
  }

  /** The data hashed for a spec. Hashes are taken to be injective, so it stands for the hash. */
  function HashData(spec: Spec, secrets: Secrets): seq<HashEntry> {
    Entries(SortKeys(CredKeys(spec)), secrets)
  }

  method ComputeHashData(spec: Spec, secrets: Secrets) returns (hashData: seq<HashEntry>)
    ensures hashData == HashData(spec, secrets)
  {
    var credKeys := CollectCredKeys(spec);
    credKeys := SortCredKeys(credKeys);
    hashData := ReadEntries(credKeys, secrets);
  }

  method ReadEntries(credKeys: seq<CredKey>, secrets: Secrets) returns (hashData: seq<HashEntry>)
    ensures hashData == Entries(credKeys, secrets)
  {
    hashData := [];
    for i := 0 to |credKeys|
      invariant hashData == Entries(credKeys[..i], secrets)
    {
      assert credKeys[..i + 1][..i] == credKeys[..i];
      var ck := credKeys[i];
      if ck.secret !in secrets {
        continue;
      }
      hashData := hashData + [HashEntry(ck.secret, ck.key, ValueOf(secrets, ck))];
    }
    assert credKeys[..|credKeys|] == credKeys;
  }

  method SortCredKeys(s: seq<CredKey>) returns (t: seq<CredKey>)
    ensures t == SortKeys(s) && Sorted(t) && multiset(t) == multiset(s)
  {
    t := [];
    var i := |s|;
    while i > 0
      invariant 0 <= i <= |s| && t == SortKeys(s[i..])
    {
      i := i - 1;
      assert s[i..][1..] == s[i + 1..];
      t := InsertKey(s[i], t);
    }
    assert s[0..] == s;
    SortKeysSorts(s);
  }

  lemma {:induction false} EntryMember(keys: seq<CredKey>, secrets: Secrets, e: HashEntry)
    ensures e in Entries(keys, secrets) <==>
            CredKey(e.secret, e.key) in keys && e.secret in secrets &&
            e.value == ValueOf(secrets, CredKey(e.secret, e.key))
  {
    if keys != [] {
      EntryMember(keys[..|keys| - 1], secrets, e);
      assert keys == keys[..|keys| - 1] + [Last(keys)];
    }
  }

  ghost predicate SameFor(k: CredKey, a: Secrets, b: Secrets) {
    && (k.secret in a <==> k.secret in b)
    && (k.secret in a && k.secret in b ==>
          (if k.key in a[k.secret] then a[k.secret][k.key] else "") ==
          (if k.key in b[k.secret] then b[k.secret][k.key] else ""))
  }

  lemma {:induction false} EntriesAgree(keys: seq<CredKey>, a: Secrets, b: Secrets)
    requires forall k :: k in keys ==> SameFor(k, a, b)
    ensures Entries(keys, a) == Entries(keys, b)
  {
    if keys != [] {
      EntriesAgree(keys[..|keys| - 1], a, b);
      assert SameFor(Last(keys), a, b);
    }
  }

  lemma EntriesDiffer(keys: seq<CredKey>, a: Secrets, b: Secrets, k: CredKey)
    requires Entries(keys, a) == Entries(keys, b) && k in keys
    ensures SameFor(k, a, b)
  {
    if k.secret in a {
      EntryMember(keys, a, HashEntry(k.secret, k.key, ValueOf(a, k)));
      EntryMember(keys, b, HashEntry(k.secret, k.key, ValueOf(a, k)));
    }
    if k.secret in b {
      EntryMember(keys, a, HashEntry(k.secret, k.key, ValueOf(b, k)));
      EntryMember(keys, b, HashEntry(k.secret, k.key, ValueOf(b, k)));
    }
  }

  /** The hash changes exactly when a referenced value does: unrelated keys and secrets have no
      effect, and a missing key counts as an empty one. */
  lemma HashTracksReferencedValues(spec: Spec, a: Secrets, b: Secrets)
    ensures HashData(spec, a) == HashData(spec, b) <==> forall k :: k in CredKeys(spec) ==> SameFor(k, a, b)
  {
    var keys := SortKeys(CredKeys(spec));
    SortKeysSorts(CredKeys(spec));
    forall k ensures k in keys <==> k in CredKeys(spec) {
      assert k in multiset(keys) <==> k in multiset(CredKeys(spec));
    }
    if HashData(spec, a) == HashData(spec, b) {
      forall k | k in CredKeys(spec) ensures SameFor(k, a, b) {
        EntriesDiffer(keys, a, b, k);
      }
    }
    if forall k :: k in CredKeys(spec) ==> SameFor(k, a, b) {
      EntriesAgree(keys, a, b);
    }
  }

  /** The order in which the keys are collected does not matter. */
  lemma HashIgnoresCollectionOrder(s: seq<CredKey>, t: seq<CredKey>, secrets: Secrets)
    requires multiset(s) == multiset(t)
    ensures Entries(SortKeys(s), secrets) == Entries(SortKeys(t), secrets)
  {
    SortKeysSorts(s);
    SortKeysSorts(t);
    SortedIsUnique(SortKeys(s), SortKeys(t));
  }
}
