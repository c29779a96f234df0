# Administrative API of an identity provider, in Dafny

This project models the request logic of the `v1alpha1` administrative API of
the dex identity provider. Operators use the API to manage three kinds of
records:

- OAuth client registrations. Create fills in a missing id and secret; update
  patches only the supplied fields; delete and list round out the set.
- Local password credentials. The API checks a hash's bcrypt cost against a
  fixed range. It never returns the hash in a listing. A wrong password in
  `VerifyPassword` is a normal answer, not an error.
- Refresh grants held in a user's offline session. They can be listed and
  revoked. Revocation is two storage calls with no transaction around them.
  Phase A detaches the client's reference from the session and captures its
  token id. Phase B deletes the standalone refresh-token record. If phase B
  fails, the grant stays detached and the token record is left as an orphan.

Storage is an external collaborator, the `storage.Storage` interface. Here it
is the class `Storage.Store`, held in memory:

- one map for each record kind;
- get, create, delete and update primitives, whose meaning is defined once by
  the functions `Lookup`, `Insert`, `Remove`, `Update` and `UpdateCapturing`;
- list primitives, defined by the method `EnumerateMap`: every stored record
  once, in an order the storage engine chooses (`ListsKeysOf`);
- a fault switch, `faults`, that makes any primitive fail with a chosen error;
- a ghost log, `writes`, of every call that may change storage, in call order.
  Contracts use it to say that validation failures never reach storage and that
  phase A comes before phase B.

Handlers return a `Codes.Code`: `Ok`, `InvalidArgument`, `NotFound`,
`AlreadyExists` or `Internal`. `CreateStatus` and `LookupStatus` map storage
errors onto these codes.

Modules, one per file: `Common` (Option, Result, bytes), `Bcrypt` (hash type,
default cost, the abstract hasher), `Api` (cost constants), `Storage`, `Ids`
(the identifier supplier), `Codes`, `Passwords`, `Clients`, `Refresh`, and
`Scenarios` (call sequences proved from the handlers' contracts).

A caller might expect the answer to a client creation to carry the generated
id and secret. It does not: the response is empty (`client.go:40`), and the
generated values appear only in the request object, which `CreateClient`
overwrites in place. The model does the same: `CreateClient` returns only a
code and writes the filled-in client back into `CreateClientReq.client`.

## Model

| member | source | states |
|---|---|---|
| `Codes.CreateStatus` | server/api/v1alpha1/password.go:34-40 | a failed create is AlreadyExists exactly when storage said ErrAlreadyExists, and Internal for every other storage error |
| `Codes.LookupStatus` | server/api/v1alpha1/password.go:71-77 | a failed update, delete or get is NotFound exactly when storage said ErrNotFound, and Internal for every other storage error |
| `Api.CostBoundsOrdered` | server/api/v1alpha1/api.go:14-21 | bcrypt's default cost (10) < recommended cost (12) < upper bound (16) |
| `Passwords.CheckCost` | server/api/v1alpha1/password.go:151-165 | a hash passes iff its cost parses and 10 <= cost <= 16; an unparsable hash, a cost below 10 and a cost above 16 each give their own error, which carries the parsed cost |
| `Passwords.StoredPassword` | server/api/v1alpha1/password.go:28-33 | the stored record copies email, hash, username and user id one for one |
| `Passwords.CreatePassword` | server/api/v1alpha1/password.go:13-43 | a missing password, an empty user id, a missing hash or a hash failing the cost check is InvalidArgument and makes no storage call; an empty email is accepted; otherwise exactly one create call, whose outcome maps through CreateStatus |
| `Passwords.PatchPassword` | server/api/v1alpha1/password.go:59-69 | the hash changes only when a new one is supplied, the username only when a non-empty one is; email and user id never change |
| `Passwords.PatchPasswordIdempotent` | server/api/v1alpha1/password.go:59-69 | applying the same password patch twice equals applying it once |
| `Passwords.PatchPasswordCompose` | server/api/v1alpha1/password.go:59-69 | two successive patches equal one patch in which the later patch wins on each field it supplies |
| `Passwords.UpdatePassword` | server/api/v1alpha1/password.go:45-80 | an empty email, nothing to update, or a new hash failing the cost check is InvalidArgument with no storage call; otherwise one update call; Ok iff the email is stored and the update is not faulted, and then only that record changes, to its patch |
| `Passwords.DeletePassword` | server/api/v1alpha1/password.go:82-97 | an empty email is InvalidArgument with no storage call; otherwise one delete call, whose outcome maps through LookupStatus |
| `Passwords.Redacted` | server/api/v1alpha1/password.go:108-112 | a listed password carries the stored email, username and user id, and no hash |
| `Passwords.ListPasswords` | server/api/v1alpha1/password.go:99-120 | a storage failure is Internal with an empty list; otherwise exactly one entry per stored password, in the order storage lists them, none with a hash |
| `Passwords.VerifyPassword` | server/api/v1alpha1/password.go:122-149 | an empty email or password is InvalidArgument; a missing email is NotFound and any other lookup failure is Internal; for a stored email the answer is Ok and `verified` is the hash comparison's result, so a wrong password is not an error |
| `Ids.IdSource.NewID` | server/api/v1alpha1/client.go:16-21 | every drawn identifier is non-empty, was never drawn before, and is no shorter than any earlier draw |
| `Ids.DecimalInjective` | server/api/v1alpha1/client.go:16-21 | distinct counters give distinct identifiers; this is what makes NewID never repeat |
| `Ids.IssuedDistinct` | server/api/v1alpha1/client.go:16-21 | no identifier is handed out twice, across all calls |
| `Ids.DecimalLengthMonotone` | server/api/v1alpha1/client.go:19-21 | a larger counter never has a shorter spelling, so a later identifier is never shorter than an earlier one |
| `Ids.IssuedNeverShorter` | server/api/v1alpha1/client.go:19-21 | across all calls, identifiers are handed out in order of non-decreasing length |
| `Ids.ConcatDistinct` | server/api/v1alpha1/client.go:20 | two concatenations differ when their first parts differ and neither part of the first is longer than the matching part of the second |
| `Ids.ConsecutivePairsDistinct` | server/api/v1alpha1/client.go:20 | in a sequence of distinct strings that never get shorter, the concatenations of two consecutive elements starting at different positions differ |
| `Ids.IssuedPairsDistinct` | server/api/v1alpha1/client.go:19-21 | the concatenations of any two different pairs of consecutive identifiers, as a missing secret is filled, are different; this follows from freshness plus non-decreasing length |
| `Clients.WithGeneratedIds` | server/api/v1alpha1/client.go:16-21 | an empty id becomes one fresh identifier and an empty secret the concatenation of two; supplied values and all other fields are kept; with non-empty draws both come out non-empty |
| `Clients.CreateClient` | server/api/v1alpha1/client.go:11-41 | a missing client is InvalidArgument with no identifier drawn and no storage call; otherwise it draws exactly the identifiers it needs, writes the filled-in client back into the request, and makes one create call with the client's fields one for one, mapped through CreateStatus |
| `Clients.StoredClientRoundTrip` | server/api/v1alpha1/client.go:23-31 | the create mapping and the list mapping are mutual inverses, so listing returns every field that was created, the secret included |
| `Clients.PatchClient` | server/api/v1alpha1/client.go:48-62 | redirect URIs and trusted peers change only when supplied, name and logo URL only when non-empty; id, secret and public never change |
| `Clients.EmptyPatchIsIdentity` | server/api/v1alpha1/client.go:48-62 | a patch that supplies nothing returns the old record unchanged |
| `Clients.PatchClientIdempotent` | server/api/v1alpha1/client.go:48-62 | applying the same client patch twice equals applying it once |
| `Clients.UpdateClient` | server/api/v1alpha1/client.go:43-72 | an empty id is InvalidArgument with no storage call; otherwise one update call; Ok iff the id is stored and the update is not faulted, and then only that record changes, to its patch |
| `Clients.DeleteClient` | server/api/v1alpha1/client.go:74-84 | no empty-id check: every call reaches storage; the outcome maps through LookupStatus |
| `Clients.ListClients` | server/api/v1alpha1/client.go:86-111 | a storage failure is Internal with an empty list; otherwise exactly one entry per stored client, in the order storage lists them, with every field copied |
| `Refresh.ToApiRef` | server/api/v1alpha1/refresh.go:34-39 | a listed reference carries the stored token id, client id and both timestamps |
| `Refresh.ListRefreshForUser` | server/api/v1alpha1/refresh.go:12-46 | an undecodable subject is Internal; a missing offline session is Ok with an empty list; any other lookup failure is Internal; otherwise one reference per entry of the session's map, each entry exactly once, in no promised order |
| `Refresh.Detach` | server/api/v1alpha1/refresh.go:59-73 | without a live reference for the client the callback aborts with ErrNotFound and sets only the not-found flag; otherwise it removes only that client's entry, keeps all others and the session's identity, and captures the removed token id |
| `Refresh.DetachTwiceFindsNothing` | server/api/v1alpha1/refresh.go:59-66 | after a grant is detached, detaching it again aborts with ErrNotFound |
| `Refresh.DetachKeepsOtherClients` | server/api/v1alpha1/refresh.go:67-72 | detaching one client leaves every other client's reference as it was |
| `Refresh.DetachCommutes` | server/api/v1alpha1/refresh.go:59-75 | revoking two different clients of one session gives the same session in either order |
| `Refresh.RevokeRefresh` | server/api/v1alpha1/refresh.go:48-97 | an undecodable subject is Internal with no storage call; without a detachable reference the call is NotFound, or the update's own failure, and DeleteRefresh is never called; otherwise the session update comes strictly before DeleteRefresh, which gets the detached reference's token id; Ok iff that delete succeeds; if it fails the answer is Internal, the reference stays removed and the token record stays: the orphan |
| `Storage.Update` | server/api/v1alpha1/client.go:48-70 | update of an absent key is ErrNotFound; a callback error aborts with nothing written; otherwise the callback's record is stored under the same key |
| `Storage.UpdateCapturing` | server/api/v1alpha1/refresh.go:55-75 | the same update, with a callback that also assigns its caller's variables; when the callback never runs they keep their earlier values |
| `Storage.Insert` | server/api/v1alpha1/client.go:32-38 | create of an existing key is ErrAlreadyExists and writes nothing; otherwise it adds exactly that key |
| `Storage.Remove` | server/api/v1alpha1/password.go:87-94 | delete of an absent key is ErrNotFound; otherwise it removes exactly that key |
| `Storage.Lookup` | server/api/v1alpha1/password.go:131-138 | get returns the stored record, or ErrNotFound when the key is absent |
| `Storage.EnumerateMap` | server/api/v1alpha1/client.go:87 | the storage listing behind `ListClients` (and `ListPasswords`, password.go:100) yields each stored key exactly once, with its value, and as many entries as the map has |
| `Scenarios.ClientLifecycle` | server/api/v1alpha1/client.go:11-84 | create "c1" with no secret, then patch its redirect URIs, then delete it twice: the secret is filled in, only the redirect URIs change, and the second delete is NotFound |
| `Scenarios.GeneratedIdsDiffer` | server/api/v1alpha1/client.go:16-18 | two clients created without ids get different, non-empty ids |
| `Scenarios.GeneratedSecretsDiffer` | server/api/v1alpha1/client.go:19-21 | two clients created without secrets get different, non-empty secrets |
| `Scenarios.RevokeWithFailingDeleteLeavesOrphan` | server/api/v1alpha1/refresh.go:86-94 | with DeleteRefresh failing, revoking gives Internal; the session no longer lists the grant but still lists the others, and the token record remains |
| `Scenarios.RevokeTwice` | server/api/v1alpha1/refresh.go:59-96 | the first revoke is Ok and deletes the token; the second is NotFound and makes only the session update, never DeleteRefresh |
| `Scenarios.VerifyAfterCreate` | server/api/v1alpha1/password.go:13-149 | after storing a cost-12 hash, the right password verifies, a wrong one is Ok with verified == false, an unknown email is NotFound, and a cost-9 hash is refused |

## Left out

- The gRPC status and codes plumbing, the error messages and `context`. Handlers return a `Code`. The empty or nil response object that accompanies an error is not modelled.
- Logging. It has no effect on behaviour.
- bcrypt internals. Hash parsing (`bcrypt.Cost`) and the constant-time `CompareHashAndPassword` are foreign cryptography, so `Bcrypt.Hasher` takes both as uninterpreted functions.
- `internal.Unmarshal` of the ID-token subject. It is an opaque decoder, passed to the refresh handlers as the parameter `unmarshal`. It returns the (user id, connector id) pair or nothing.
- The randomness of `storage.NewID`. `Ids.IdSource` draws the decimal spelling of a counter instead. The model proves such an identifier is non-empty, never repeats and is never shorter than an earlier one. It asserts nothing about entropy or a fixed length, so a secret's length of at least 64 characters is not modelled.
- Distinct generated secrets (`Ids.IssuedPairsDistinct`, `Scenarios.GeneratedSecretsDiffer`) rest on the supplier never handing out a shorter identifier after a longer one. Freshness alone does not suffice: "0" + "12" == "01" + "2". The model's supplier provides this property; the real supplier is not part of this model.
- `time.Time.Unix()`. Timestamps are stored as integer seconds.
- The storage engine's retry and version-check loop, and concurrency between calls. Each update runs its callback at most once, on the current record.
- A storage failure after an update callback has run is not modelled. An injected fault makes a primitive fail before it reads anything. So the model also misses that Go's `delete` on the session's `Refresh` map mutates a map it shares with the stored record.
- The difference between nil and empty slices in stored clients. An absent patch field is `None` in the request.
- A nil `*RefreshTokenRef` stored as a map value. The model treats only an absent key as a missing reference.
- The implementation of `storage.Storage`, including its email lower-casing, is not part of this model. `Storage.Store` is an in-memory stand-in with the interface's documented outcomes.
- Fields of the standalone refresh-token record other than its id and client id. The handlers never read them.
- `GetVersion` (`misc.go`) and `NewAPI` (`api.go`). They only return constants or wrap a constructor.
