/** Load-or-create bootstrap of the ACME identity: the account key and the
    account registration (section 7.3 of RFC 8555).

    Both artifacts follow one rule: if the file exists, read it and leave
    storage alone; otherwise create the artifact once and write it. Files are an
    abstract path-to-bytes map. Key generation, PEM (de)serialisation, JSON
    (de)serialisation and the calls to the CA are foreign code, given to the
    model as function values. */
module AccountBootstrap {

  import opened Wrappers
  import opened AcmeErrors

  type Bytes = seq<bv8>

  type Path = string

  /** Size of the account key, in bits. */
  const AccountKeyBits: nat := 2048

  /** RSA public exponent used when generating the account key. */
  const RsaPublicExponent: nat := 65537

  const AccountKeyName: Path := "account.key"

  const AccountDataName: Path := "account.json"

  /** os.path.join of a directory and a relative file name (POSIX). */
  function JoinPath(dir: Path, name: Path): Path {
    if dir == [] || dir[|dir| - 1] == '/' then dir + name else dir + "/" + name
  }

  /** The two artifacts live at different paths whatever the directory. */
  lemma AccountPathsDistinct(dir: Path)
    ensures JoinPath(dir, AccountKeyName) != JoinPath(dir, AccountDataName)
  {
  }

  // ---------------------------------------------------------------------------
  // Foreign collaborators

  /** A private key object; its structure is not modelled. */
  datatype PrivateKey = PrivateKey(material: Bytes)

  /** The parameters a key generation is asked for. */
  datatype KeyRequest = KeyRequest(publicExponent: nat, keySize: nat)

  const AccountKeyRequest := KeyRequest(RsaPublicExponent, AccountKeyBits)

  /** The account key wrapped as an RSA JSON Web Key. */
  datatype Jwk = JwkRsa(key: PrivateKey)

  /** Key generation and PEM (PKCS#8, unencrypted) serialisation. `generate`
      stands for the key the generator yields on this run; `loadPem` yields
      None where the parser raises. */
  datatype Crypto = Crypto(
    generate: KeyRequest -> PrivateKey,
    toPem: PrivateKey -> Bytes,
    loadPem: Bytes -> Option<PrivateKey>)

  /** A registration resource as the CA returns it; its contents are opaque. */
  datatype Registration = Registration(uri: string, body: Bytes)

  /** The new-account request payload. */
  datatype NewRegistration = NewRegistration(termsOfServiceAgreed: bool)

  /** JSON serialisation of a registration resource; `load` yields None where
      decoding raises. */
  datatype AccountCodec = AccountCodec(
    dump: Registration -> Bytes,
    load: Bytes -> Option<Registration>)

  /** The two account calls of the CA client. */
  datatype CaClient = CaClient(
    newAccount: NewRegistration -> Result<Registration, CaError>,
    queryRegistration: Registration -> Result<Registration, CaError>)

  /** Everything get_acme_client depends on; `connect` builds the CA client
      that signs with the given account key. */
  datatype Collaborators = Collaborators(
    crypto: Crypto,
    codec: AccountCodec,
    connect: Jwk -> CaClient)

  // ---------------------------------------------------------------------------
  // Specification of one call of each operation

  /** What one get_account_key call does: the new files, the key generations it
      asked for, the paths it wrote, and its result. */
  datatype KeyStep = KeyStep(
    files: map<Path, Bytes>,
    generated: seq<KeyRequest>,
    written: seq<Path>,
    key: Result<Jwk, ApiError>)

  function AccountKeyStep(files: map<Path, Bytes>, keyPath: Path, crypto: Crypto): KeyStep {
    if keyPath in files then
      match crypto.loadPem(files[keyPath])
      case Some(k) => KeyStep(files, [], [], Success(JwkRsa(k)))
      case None => KeyStep(files, [], [], Failure(KeyNotLoadable))
    else
      var k := crypto.generate(AccountKeyRequest);
      KeyStep(files[keyPath := crypto.toPem(k)], [AccountKeyRequest], [keyPath], Success(JwkRsa(k)))
  }

  /** What one ensure_account_exists call does. */
  datatype AccountStep = AccountStep(
    files: map<Path, Bytes>,
    registrations: seq<NewRegistration>,
    queries: seq<Registration>,
    written: seq<Path>,
    outcome: Outcome<ApiError>)

  function EnsureAccountStep(files: map<Path, Bytes>, dataPath: Path, codec: AccountCodec, ca: CaClient): AccountStep {
    if dataPath in files then
      match codec.load(files[dataPath])
      case None => AccountStep(files, [], [], [], Fail(AccountDataNotLoadable))
      case Some(reg) =>
        match ca.queryRegistration(reg)
        case Success(_) => AccountStep(files, [], [reg], [], Pass)
        case Failure(e) => AccountStep(files, [], [reg], [], Fail(Ca(e)))
    else
      var request := NewRegistration(true);
      match ca.newAccount(request)
      case Failure(e) => AccountStep(files, [request], [], [], Fail(Ca(e)))
      case Success(reg) => AccountStep(files[dataPath := codec.dump(reg)], [request], [], [dataPath], Pass)
  }

  /** What one get_acme_client call does; its result is the account key the
      returned client signs with. */
  datatype ClientStep = ClientStep(
    files: map<Path, Bytes>,
    generated: seq<KeyRequest>,
    registrations: seq<NewRegistration>,
    queries: seq<Registration>,
    written: seq<Path>,
    client: Result<Jwk, ApiError>)

  function AcmeClientStep(files: map<Path, Bytes>, keyPath: Path, dataPath: Path, env: Collaborators): ClientStep {
    var k := AccountKeyStep(files, keyPath, env.crypto);
    match k.key
    case Failure(e) => ClientStep(k.files, k.generated, [], [], k.written, Failure(e))
    case Success(jwk) =>
      var a := EnsureAccountStep(k.files, dataPath, env.codec, env.connect(jwk));
      ClientStep(a.files, k.generated, a.registrations, a.queries, k.written + a.written,
                 match a.outcome case Pass => Success(jwk) case Fail(e) => Failure(e))
  }

  /** The cumulative effect of successive process starts, each calling
      get_acme_client; `envs[i]` gives the collaborators of start i, so the key
      generator and the CA may answer differently on each start. */
  datatype History = History(
    files: map<Path, Bytes>,
    generated: seq<KeyRequest>,
    registrations: seq<NewRegistration>,
    written: seq<Path>)

  function Runs(files: map<Path, Bytes>, keyPath: Path, dataPath: Path, envs: seq<Collaborators>): History
    decreases |envs|
  {
    if envs == [] then History(files, [], [], [])
    else
      var s := AcmeClientStep(files, keyPath, dataPath, envs[0]);
      var h := Runs(s.files, keyPath, dataPath, envs[1..]);
      History(h.files, s.generated + h.generated, s.registrations + h.registrations, s.written + h.written)
  }

  ghost predicate NoRepeats<T>(s: seq<T>) {
    forall i, j :: 0 <= i < j < |s| ==> s[i] != s[j]
  }

  /** `files'` keeps every file of `files` with its contents. */
  ghost predicate Extends(files: map<Path, Bytes>, files': map<Path, Bytes>) {
    forall p :: p in files ==> p in files' && files'[p] == files[p]
  }

  // ---------------------------------------------------------------------------
  // Properties of get_account_key

  /** With the key file present: storage is unchanged, nothing is generated or
      written, and the key is the one parsed from the file. */
  lemma KeyFilePresentIsOnlyRead(files: map<Path, Bytes>, keyPath: Path, crypto: Crypto)
    requires keyPath in files
    ensures var s := AccountKeyStep(files, keyPath, crypto);
            s.files == files && s.generated == [] && s.written == [] &&
            (s.key.Success? <==> crypto.loadPem(files[keyPath]).Some?) &&
            (s.key.Success? ==> s.key.value == JwkRsa(crypto.loadPem(files[keyPath]).value))
  {
  }

  /** With the key file absent: exactly one 2048-bit key is generated, its PEM
      is written to the key path, and no other path changes. */
  lemma KeyFileAbsentCreatesOnce(files: map<Path, Bytes>, keyPath: Path, crypto: Crypto)
    requires keyPath !in files
    ensures var s := AccountKeyStep(files, keyPath, crypto);
            var k := crypto.generate(AccountKeyRequest);
            s.generated == [KeyRequest(65537, 2048)] && s.written == [keyPath] &&
            s.files.Keys == files.Keys + {keyPath} && s.files[keyPath] == crypto.toPem(k) &&
            Extends(files, s.files) && s.key == Success(JwkRsa(k))
  {
  }

  /** A second call generates nothing and writes nothing; it returns the same
      key as the first whenever PEM serialisation round-trips. */
  lemma SecondKeyCallIsIdle(files: map<Path, Bytes>, keyPath: Path, crypto: Crypto)
    ensures var s1 := AccountKeyStep(files, keyPath, crypto);
            var s2 := AccountKeyStep(s1.files, keyPath, crypto);
            var k := crypto.generate(AccountKeyRequest);
            s2.files == s1.files && s2.generated == [] && s2.written == [] &&
            (keyPath in files || crypto.loadPem(crypto.toPem(k)) == Some(k) ==> s2.key == s1.key)
  {
  }

  // ---------------------------------------------------------------------------
  // Properties of ensure_account_exists

  /** With the account file present: no registration and no write, only a
      registration query for the decoded resource. */
  lemma AccountFilePresentOnlyQueries(files: map<Path, Bytes>, dataPath: Path, codec: AccountCodec, ca: CaClient)
    requires dataPath in files
    ensures var s := EnsureAccountStep(files, dataPath, codec, ca);
            s.files == files && s.registrations == [] && s.written == [] &&
            (match codec.load(files[dataPath])
             case None => s.queries == [] && s.outcome == Fail(AccountDataNotLoadable)
             case Some(reg) => s.queries == [reg] &&
                               (s.outcome.Pass? <==> ca.queryRegistration(reg).Success?))
  {
  }

  /** With the account file absent: exactly one new-account registration, with
      the terms of service agreed; on success its resource is written to the
      account path and nothing else changes, on failure nothing is written. */
  lemma AccountFileAbsentRegistersOnce(files: map<Path, Bytes>, dataPath: Path, codec: AccountCodec, ca: CaClient)
    requires dataPath !in files
    ensures var s := EnsureAccountStep(files, dataPath, codec, ca);
            s.registrations == [NewRegistration(true)] && s.queries == [] &&
            match ca.newAccount(NewRegistration(true))
            case Success(reg) =>
              s.outcome == Pass && s.written == [dataPath] &&
              s.files.Keys == files.Keys + {dataPath} && s.files[dataPath] == codec.dump(reg) &&
              Extends(files, s.files)
            case Failure(e) =>
              s.outcome == Fail(Ca(e)) && s.written == [] && s.files == files
  {
  }

  /** Two calls in a row, the first one succeeding: one registration in total
      when the file was absent, none when it was present; the second call only
      queries, and queries the resource the first one stored whenever the JSON
      codec round-trips. */
  lemma SecondEnsureAccountOnlyQueries(files: map<Path, Bytes>, dataPath: Path, codec: AccountCodec, ca: CaClient)
    requires EnsureAccountStep(files, dataPath, codec, ca).outcome.Pass?
    ensures var s1 := EnsureAccountStep(files, dataPath, codec, ca);
            var s2 := EnsureAccountStep(s1.files, dataPath, codec, ca);
            |s1.registrations| + |s2.registrations| == (if dataPath in files then 0 else 1) &&
            s2.files == s1.files && s2.written == [] &&
            var created := ca.newAccount(NewRegistration(true));
            (dataPath !in files && codec.load(codec.dump(created.value)) == Some(created.value) ==>
               s2.queries == [created.value])
  {
  }

  // ---------------------------------------------------------------------------
  // Properties of repeated bootstrapping

  /** One get_acme_client call writes only paths that were absent, each once,
      only the key and account paths, and never changes an existing file. */
  lemma ClientStepWritesOnlyAbsent(files: map<Path, Bytes>, keyPath: Path, dataPath: Path, env: Collaborators)
    requires keyPath != dataPath
    ensures var s := AcmeClientStep(files, keyPath, dataPath, env);
            NoRepeats(s.written) && Extends(files, s.files) &&
            (forall p :: p in s.written ==> p !in files && p in s.files && (p == keyPath || p == dataPath)) &&
            |s.generated| <= 1 && (keyPath in files ==> s.generated == []) &&
            (s.generated != [] ==> keyPath in s.files) &&
            (dataPath in files ==> s.registrations == []) &&
            (forall r :: r in s.registrations ==> r.termsOfServiceAgreed)
  {
  }

  lemma NoRepeatsConcat<T>(a: seq<T>, b: seq<T>)
    requires NoRepeats(a) && NoRepeats(b)
    requires forall x :: x in a ==> x !in b
    ensures NoRepeats(a + b)
  {
    forall i, j | 0 <= i < j < |a + b| ensures (a + b)[i] != (a + b)[j] {
      if j < |a| {
      } else if i < |a| {
        assert (a + b)[i] in a && (a + b)[j] == b[j - |a|];
      } else {
        assert (a + b)[i] == b[i - |a|] && (a + b)[j] == b[j - |a|];
      }
    }
  }

  /** However many times the process starts: the account key is generated at
      most once and never while its file exists, no registration happens once
      the account file exists, every registration agrees to the terms of
      service, each artifact is written at most once, only absent files are
      written, and an existing file is never changed. */
  lemma {:induction false} RunsCreateEachArtifactOnce(
    files: map<Path, Bytes>, keyPath: Path, dataPath: Path, envs: seq<Collaborators>)
    requires keyPath != dataPath
    ensures var h := Runs(files, keyPath, dataPath, envs);
            |h.generated| <= 1 && (keyPath in files ==> h.generated == []) &&
            (dataPath in files ==> h.registrations == []) &&
            (forall r :: r in h.registrations ==> r.termsOfServiceAgreed) &&
            NoRepeats(h.written) &&
            (forall p :: p in h.written ==> p !in files && p in h.files && (p == keyPath || p == dataPath)) &&
            Extends(files, h.files)
    decreases |envs|
  {
    if envs != [] {
      var s := AcmeClientStep(files, keyPath, dataPath, envs[0]);
      var h' := Runs(s.files, keyPath, dataPath, envs[1..]);
      ClientStepWritesOnlyAbsent(files, keyPath, dataPath, envs[0]);
      RunsCreateEachArtifactOnce(s.files, keyPath, dataPath, envs[1..]);
      NoRepeatsConcat(s.written, h'.written);
      assert forall r :: r in s.registrations + h'.registrations ==> r in s.registrations || r in h'.registrations;
      assert forall p :: p in s.written + h'.written ==> p in s.written || p in h'.written;
    }
  }

  // ---------------------------------------------------------------------------
  // The store, updated in place

  /** The on-disk identity: the files under the ACME directory, with ghost
      logs of every key generation, new-account request, registration query
      and file write performed through it. */
  class IdentityStore {
    var files: map<Path, Bytes>
    const keyPath: Path
    const dataPath: Path
    ghost var keyRequests: seq<KeyRequest>
    ghost var registrationRequests: seq<NewRegistration>
    ghost var queries: seq<Registration>
    ghost var writes: seq<Path>

    /** Every write created a file that still exists, no path was written
        twice, and the key was generated at most once, and only ever stored. */
    ghost predicate Valid()
      reads this
    {
      keyPath != dataPath &&
      NoRepeats(writes) &&
      (forall p :: p in writes ==> p in files) &&
      |keyRequests| <= 1 &&
      (keyRequests != [] ==> keyPath in files)
    }

    constructor (acmeDir: Path, existing: map<Path, Bytes>)
      ensures Valid()
      ensures keyPath == JoinPath(acmeDir, AccountKeyName) && dataPath == JoinPath(acmeDir, AccountDataName)
      ensures files == existing
      ensures keyRequests == [] && registrationRequests == [] && queries == [] && writes == []
    {
      keyPath := JoinPath(acmeDir, AccountKeyName);
      dataPath := JoinPath(acmeDir, AccountDataName);
      files := existing;
      keyRequests, registrationRequests, queries, writes := [], [], [], [];
      AccountPathsDistinct(acmeDir);
    }

    /** get_account_key */
    method GetAccountKey(crypto: Crypto) returns (key: Result<Jwk, ApiError>)
      requires Valid()
      modifies this
      ensures Valid()
      ensures var s := AccountKeyStep(old(files), keyPath, crypto);
              files == s.files && key == s.key &&
              keyRequests == old(keyRequests) + s.generated &&
              writes == old(writes) + s.written
      ensures registrationRequests == old(registrationRequests) && queries == old(queries)
    {
      var privateKey: PrivateKey;
      if keyPath in files {
        var loaded := crypto.loadPem(files[keyPath]);
        if loaded.None? {
          return Failure(KeyNotLoadable);
        }
        privateKey := loaded.value;
      } else {
        keyRequests := keyRequests + [AccountKeyRequest];
        privateKey := crypto.generate(AccountKeyRequest);
        var pem := crypto.toPem(privateKey);
        files := files[keyPath := pem];
        writes := writes + [keyPath];
      }
      key := Success(JwkRsa(privateKey));
    }

    /** ensure_account_exists */
    method EnsureAccountExists(codec: AccountCodec, ca: CaClient) returns (outcome: Outcome<ApiError>)
      requires Valid()
      modifies this
      ensures Valid()
      ensures var s := EnsureAccountStep(old(files), dataPath, codec, ca);
              files == s.files && outcome == s.outcome &&
              registrationRequests == old(registrationRequests) + s.registrations &&
              queries == old(queries) + s.queries &&
              writes == old(writes) + s.written
      ensures keyRequests == old(keyRequests)
    {
      if dataPath in files {
        var accountData := codec.load(files[dataPath]);
        if accountData.None? {
          return Fail(AccountDataNotLoadable);
        }
        var accountResource := accountData.value;
        queries := queries + [accountResource];
        var account := ca.queryRegistration(accountResource);
        if account.Failure? {
          return Fail(Ca(account.error));
        }
      } else {
        var request := NewRegistration(true);
        registrationRequests := registrationRequests + [request];
        var register := ca.newAccount(request);
        if register.Failure? {
          return Fail(Ca(register.error));
        }
        files := files[dataPath := codec.dump(register.value)];
        writes := writes + [dataPath];
      }
      outcome := Pass;
    }

    /** get_acme_client: load or create the key, connect, then make sure the
        account exists; returns the key the connected client signs with. */
    method GetAcmeClient(env: Collaborators) returns (client: Result<Jwk, ApiError>)
      requires Valid()
      modifies this
      ensures Valid()
      ensures var s := AcmeClientStep(old(files), keyPath, dataPath, env);
              files == s.files && client == s.client &&
              keyRequests == old(keyRequests) + s.generated &&
              registrationRequests == old(registrationRequests) + s.registrations &&
              queries == old(queries) + s.queries &&
              writes == old(writes) + s.written
    {
      var accountKey := GetAccountKey(env.crypto);
      if accountKey.Failure? {
        return Failure(accountKey.error);
      }
      var ca := env.connect(accountKey.value);
      var ensured := EnsureAccountExists(env.codec, ca);
      if ensured.Fail? {
        return Failure(ensured.error);
      }
      client := Success(accountKey.value);
    }
  }
}
