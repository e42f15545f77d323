# ACME v2 helpers of domain-admin, modelled in Dafny

`domain_admin/utils/acme_util/acme_v2_api.py` is a thin layer over the
`acme`, `josepy`, OpenSSL and `cryptography` libraries that obtains a
certificate from an ACME certificate authority (RFC 8555). This model covers
the logic the file itself owns:

- **Challenge selection** (`select_http01_chall`, module `ChallengeSelection`):
  scan the order's authorizations in list order and each one's offered
  challenges in order; return the first HTTP-01 challenge body (section 8.3 of
  RFC 8555), or fail with "HTTP-01 challenge was not offered by the CA server."
  The nested loops are a method proved equal to a recursive scan function;
  lemmas prove that the result is HTTP-01, is offered by the order, is the
  first one in scan order, that the scan fails exactly when none is offered,
  and that it agrees with a search over the flattened list of challenges.
- **Identity bootstrap** (`get_account_key`, `ensure_account_exists`,
  `get_acme_client`, module `AccountBootstrap`): a class `IdentityStore`
  holds the files as a path-to-bytes map, the two paths `<ACME_DIR>/account.key`
  and `<ACME_DIR>/account.json`, and ghost logs of key generations, new-account
  requests, registration queries and writes. Each method is proved against a
  pure step function. Lemmas about those functions prove load-or-create:
  nothing is generated, registered or written while the file exists; the
  first run generates one 2048-bit key (exponent 65537) or sends one new-account
  request with `termsOfServiceAgreed = true` and writes the result once; a
  second call is idle. Over any number of process starts, each artifact is
  written at most once and existing files are never changed.
- **Answering HTTP-01** (`perform_http01`, module `Http01Flow`): the response
  is sent to the CA, then polling and finalization get a deadline of the clock
  reading plus ten seconds. A polling timeout becomes the application error
  "证书获取超时" (certificate retrieval timed out). Other library errors pass
  through unchanged.

Key generation, PEM and JSON (de)serialisation and the CA client are foreign
code. They enter the model as function values inside the datatypes `Crypto`,
`AccountCodec`, `CaClient` and `Http01Client`, passed as parameters. The
clock reading is an integer parameter in microseconds. `ACME_DIR` comes from
`domain_admin/config.py`, which is not part of this model, so it is a
constructor parameter. Paths are joined as POSIX `os.path.join` joins them.

Behaviour of the code worth noting:

- `ensure_account_exists` has no special case for a deactivated account. It
  calls `query_registration`, discards the result, and lets any library error
  propagate. The model returns `Ca(e)` for such an error.
- A key file that does not parse raises whatever the PEM loader raises. The
  model returns `KeyNotLoadable`.
- The ten-second deadline is measured from the clock reading taken just
  after `answer_challenge` returns.
- The validation content is computed but never published, because this file
  sets up no responder.

## Model

| member | source | states |
|---|---|---|
| `ChallengeSelection.FirstHttp01` | domain_admin/utils/acme_util/acme_v2_api.py:116-119 | the inner scan returns only an HTTP-01 challenge body taken from the authorization's challenges |
| `ChallengeSelection.ScanAuthorizations` | domain_admin/utils/acme_util/acme_v2_api.py:113-121 | on success the selected challenge is HTTP-01; the only failure is ChallengeNotOffered, carrying the message "HTTP-01 challenge was not offered by the CA server." |
| `ChallengeSelection.SelectHttp01Chall` | domain_admin/utils/acme_util/acme_v2_api.py:107-121 | the nested loops with early return give exactly the result of the scan over the order's authorizations |
| `ChallengeSelection.FirstHttp01Correct` | domain_admin/utils/acme_util/acme_v2_api.py:116-119 | within one authorization: nothing is found iff no offered challenge is HTTP-01, and what is found is the first HTTP-01 challenge |
| `ChallengeSelection.ScanFailsIffNoneOffered` | domain_admin/utils/acme_util/acme_v2_api.py:113-121 | selection fails exactly when no authorization of the order offers an HTTP-01 challenge |
| `ChallengeSelection.ScanReturnsFirstInScanOrder` | domain_admin/utils/acme_util/acme_v2_api.py:113-119 | the selected challenge sits at a position (i, j): every earlier authorization offers no HTTP-01, and no earlier challenge of authorization i is HTTP-01 |
| `ChallengeSelection.SelectedIsOffered` | domain_admin/utils/acme_util/acme_v2_api.py:111-119 | the selected challenge is one of the challenges of one of the order's authorizations |
| `ChallengeSelection.FirstInScanOrderUnique` | domain_admin/utils/acme_util/acme_v2_api.py:113-119 | the first HTTP-01 position in scan order is unique, so the selection is determined by the order |
| `ChallengeSelection.ScanMatchesFlattened` | domain_admin/utils/acme_util/acme_v2_api.py:113-121 | the nested scan equals a search for the first HTTP-01 challenge in the concatenation of all offered challenges |
| `AccountBootstrap.AccountPathsDistinct` | domain_admin/utils/acme_util/acme_v2_api.py:85-89 | the account key file and the account data file are different paths for every ACME directory |
| `AccountBootstrap.KeyFilePresentIsOnlyRead` | domain_admin/utils/acme_util/acme_v2_api.py:153-160 | with the key file present: storage unchanged, no key generated, nothing written, and the key is the one parsed from the file (an error iff it does not parse) |
| `AccountBootstrap.KeyFileAbsentCreatesOnce` | domain_admin/utils/acme_util/acme_v2_api.py:161-177 | with the key file absent: exactly one key generation, with exponent 65537 and 2048 bits; its PEM is written to the key path only; no other file changes; that key is returned |
| `AccountBootstrap.SecondKeyCallIsIdle` | domain_admin/utils/acme_util/acme_v2_api.py:153-177 | a second call generates nothing, writes nothing, and returns the same key whenever the PEM round-trips |
| `AccountBootstrap.AccountFilePresentOnlyQueries` | domain_admin/utils/acme_util/acme_v2_api.py:188-194 | with the account file present: no new-account registration and no write; one registration query for the decoded resource, or a decoding error |
| `AccountBootstrap.AccountFileAbsentRegistersOnce` | domain_admin/utils/acme_util/acme_v2_api.py:195-202 | with the account file absent: exactly one new-account request with termsOfServiceAgreed = true; on success its resource is written to the account path only; on failure nothing is written |
| `AccountBootstrap.SecondEnsureAccountOnlyQueries` | domain_admin/utils/acme_util/acme_v2_api.py:188-202 | two calls in a row, the first succeeding: one registration in total (none if the file existed); the second call writes nothing and queries the stored resource whenever the JSON codec round-trips |
| `AccountBootstrap.ClientStepWritesOnlyAbsent` | domain_admin/utils/acme_util/acme_v2_api.py:205-215 | one get_acme_client call writes only the key and account paths, only when absent, each once; it generates at most one key and never changes an existing file |
| `AccountBootstrap.RunsCreateEachArtifactOnce` | domain_admin/utils/acme_util/acme_v2_api.py:205-215 | over any sequence of process starts, each with its own key generator, codecs and CA answers (so a registration may fail on one start and succeed on a later one): at most one key generation and none once the key file exists; no registration once the account file exists; every registration agrees to the terms; each artifact written at most once and existing files never changed |
| `AccountBootstrap.IdentityStore.constructor` | domain_admin/utils/acme_util/acme_v2_api.py:85-89 | the store's paths are account.key and account.json under the ACME directory, with empty logs |
| `AccountBootstrap.IdentityStore.GetAccountKey` | domain_admin/utils/acme_util/acme_v2_api.py:146-179 | the new files, generation log, write log and returned key are those of the load-or-create key step; the store invariant (no path written twice, key generated at most once) is kept |
| `AccountBootstrap.IdentityStore.EnsureAccountExists` | domain_admin/utils/acme_util/acme_v2_api.py:182-202 | the new files, registration, query and write logs and the outcome are those of the load-or-register step; the store invariant is kept |
| `AccountBootstrap.IdentityStore.GetAcmeClient` | domain_admin/utils/acme_util/acme_v2_api.py:205-215 | key step, then (only if it succeeded) account step with a client signing with that key; the result is the key or the first error |
| `Http01Flow.PerformHttp01` | domain_admin/utils/acme_util/acme_v2_api.py:124-143 | the answer is sent first; any poll uses deadline now + 10 s; timeout error (message "证书获取超时") iff polling timed out; success iff polling finalized, returning its full chain; a library error iff answering or polling raised it |
| `Http01Flow.PollsOnceIffAnswered` | domain_admin/utils/acme_util/acme_v2_api.py:127-137 | the call trace is exactly: answer the challenge with the response computed from it, then, only if the CA accepted the answer, one poll-and-finalize of the order with deadline now + 10 s |

## Left out

- `new_csr_comp` (certificate key generation and CSR construction): foreign crypto calls, not modelled.
- RSA key generation, PEM/PKCS#8 serialisation and JWK wrapping are not modelled. They are opaque function values; `generate` stands for the key the generator yields on that run.
- JSON (de)serialisation of the registration resource: an opaque codec; the stored bytes are not interpreted.
- Network interaction with the CA (nonces, JWS signing, `badNonce` retry, the polling loop inside `poll_and_finalize`, certificate download) happens inside the `acme` library, whose source is not part of this model. Each call is represented only by its outcome.
- AccountBootstrap.IdentityStore.GetAcmeClient: `ClientNetwork` and `get_directory` are folded into the total function `connect`, so a failure to fetch the directory is not modelled; the method returns the client's key rather than the client object.
- Filesystem semantics: a file in the map is always readable, and writes always succeed. Permissions, partial writes and concurrent processes are not modelled.
- Wall-clock time, logging and traceback formatting: the clock reading is a parameter; logging is not modelled.
