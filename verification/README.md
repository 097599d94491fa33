# Local storage and identity: a verified model

A Dafny model of the parts of the system whose correctness depends on whole runs or on
every input: the replicated database lifecycle, the OAuth grant machine, the key tree,
device bootstrap and system setup, the texts devices sign, residency and eviction, and the
browser client's PKCE store. `dafny verify dfyconfig.toml` checks all of it.

| file | models |
|---|---|
| `Text.dfy`, `Identifiers.dfy` | decimal numbers, split and join, string order; UUIDs and their text |
| `StoragePaths.dfy`, `Catalogs.dfy` | where files of a namespace live; the catalog of live and tombstoned databases |
| `RuntimeCalls.dfy`, `Runtimes.dfy` | what each call of the database runtime is for; the runtime with its two handle caches, one call at a time |
| `RuntimeInterleavings.dfy`, `UndisturbedCalls.dfy`, `HandleDiscipline.dfy` | the runtime under threads interleaved at lock operations; its calls when no other thread moves; and as the protocol uses it |
| `DatabaseSync.dfy`, `SyncRounds.dfy` | pairwise synchronization of any number of devices, message by message; what exchanges and rounds of them come to |
| `DeletionReach.dfy`, `AuthorizedTransport.dfy` | who can learn of a deletion; the transport that asks before and after every frame |
| `Scopes.dfy`, `ScopeClaims.dfy` | scope lists and the consent key; the scope claim of a token |
| `OAuthGrants.dfy`, `GrantConditions.dfy` | consent, codes, tokens, refresh and exchange; exactly when each is granted |
| `ApprovedScopes.dfy`, `RefreshProvenance.dfy` | whether tokens are for approved scopes; where refreshed tokens come from |
| `KeyTree.dfy`, `KeyPaths.dfy`, `PathText.dfy` | the key table with its printed paths; when two live keys can print one path; what a printed path reads as |
| `KeyDerivation.dfy` | deriving and verifying keys along paths |
| `BootstrapGrants.dfy` | one-time grants and the sessions that reserve them |
| `NamedRows.dfy`, `SystemBaseline.dfy`, `SystemPlan.dfy` | the tasks of the re-runnable system setup, and their list for every configuration |
| `SystemOutcome.dfy`, `SystemFrame.dfy`, `SystemSetup.dfy` | what a system that was set up has; what setup adds at most; the service that sets it up |
| `SignedPayloads.dfy` | pairing approval and self-revocation texts |
| `ResidencyPolicies.dfy`, `Eviction.dfy`, `FileSystemInterleavings.dfy` | most-specific-rule lookup; removing unselected projected copies; the same runtime under threads |
| `PkceStore.dfy` | verifiers in memory and in browser storage |

Conventions. Time, generated ids and codes, digests, signatures, engine and network
outcomes are parameters or uninterpreted functions; generated ids are fresh. A Rust string
whose byte length matters is a `string` with one character per UTF-8 byte. Unsigned
integers are `nat` with their width stated where it matters. A catalog write happens as a
whole or not at all. `residency.rs` is modelled as it stands in the tree although
`crates/storage-service/src/lib.rs` does not list it as a module.

## Where the code does not keep a promise

Each of these has a concrete run or input and an exact condition.

- A creation whose engine does not open writes a tombstone but evicts nothing. At the
  runtime's interface, no interleaving leaves a stale key-value handle for a database
  exactly when its engine opens after creation (`NoStaleHandleIff`, `StaleHandle`). The
  program itself does not reach this: its callers of `open_kv_selected`
  (`crates/storage-server/src/database_protocol.rs`, lines 137 and 281) hold a handle of the
  database already, and then no interleaving leaves a stale handle, for any database
  (`NoStaleHandleEver`).
- A key created under a parent of another entity is orphaned when the parent's entity is
  deleted. A creation is safe in every continuation exactly when it is for the parent's
  entity (`CreateIsSafeIff`), and a table stays a forest exactly when every live child shares
  its parent's entity (`ForestForGoodIff`). Two live keys can even come to print one path
  (`SharedPath`): exactly when the child's entity is not the parent's and all its roots come
  before the root of the parent's tree, so that the parent's place can be taken again
  (`SharedPathIff`).
- A refresh decodes the presented token without verifying its signature. Its tokens always
  stay within the presented claims, and within tokens the service issued exactly when the
  claims do (`RefreshCoveredIff`, `ProvenanceSurvivesIff`). Otherwise there may be no approval,
  code or earlier token at all (`UnissuedClaims`).
- Codes are matched to approvals by the consent key only. For any given set of registered
  scope lists, all tokens from codes were approved for their set of scopes in every run
  exactly when consent keys tell apart what can be granted under them (`ApprovedScopesIff`).
  For finitely many lists a test on the lists themselves decides it (`ApprovedScopesDecided`).
  Lists of non-empty scopes without spaces do (`CleanKeysTell`); "a b" beside "a" and "b"
  does not (`SpacesInRegistrations`).
- A token's scope claim reads back exactly when no scope contains whitespace that JSON does
  not escape; otherwise the token cannot be decoded at all (`ScopeClaimRoundTrip`).
- Running setup once more changes nothing exactly when fewer than 1,000 management roles
  sort before "admin" and "*" is, or would be created, among the first 1,000 management
  permissions (`SetupRepeatsIff`). Exactly 1,000 other permissions are already too many
  (`ThousandDoNot`).
- Registering a bootstrap grant again under an id that a session holds lets a second session
  hold it. A registration is safe in every continuation exactly when no session holds the id
  (`RegisterSafeIff`, `HeldTwice`). The only caller
  (`crates/idp-server/src/router/routes/setup.rs`, line 39) draws a random id, so this concerns
  the registry's interface.
- A registration of a selected file system looks for an entry and imports one in two catalog
  calls outside any lock. A file system whose deletion has returned stays gone in every
  interleaving exactly when an import keeps a tombstone it meets (`DeletedStaysGoneIff`,
  `RevivedByImport`); whether it does is up to the file system catalog, which is not part of
  this model.
- A PKCE verifier comes back with its state exactly when the state is not empty
  (`ReturnsIff`).
- A deletion on one device can become known to another exactly when that other device has a
  larger key (`ReachesIff`), and a failure-free round makes it known to fully authorized peers
  exactly then (`RoundReachesIff`); a deletion on the device with the largest key stays unheard
  (`LargerKeyUnheard`).

## Model

| member | source | states |
|---|---|---|
| Identifiers.UuidRoundTrip | crates/storage-service/src/database_runtime.rs:223-246 | the text of an id, as it is used in file names, parses back to the id |
| Identifiers.ParsedUuidText | crates/storage-service/src/database_runtime.rs:223-246 | a canonical text that parses is the text of what it parses to |
| SignedPayloads.PairingRoundTrip | crates/idp-model/src/contract/device_pairing.rs:40-55 | an independent reader recovers device id, name, key and address from every payload, whatever they contain |
| SignedPayloads.PairingReadsExactly | crates/idp-model/src/contract/device_pairing.rs:40-55 | what reads as an approval is byte for byte the payload of what was read |
| SignedPayloads.PairingPayloadInjective | crates/idp-model/src/contract/device_pairing.rs:40-55 | equal payloads have equal ids, names, keys and addresses |
| SignedPayloads.RevocationRoundTrip | crates/idp-model/src/contract/device_self_revocation.rs:15-21 | the public key is recovered from every self-revocation payload |
| SignedPayloads.RevocationPayloadInjective | crates/idp-model/src/contract/device_self_revocation.rs:15-21 | equal self-revocations name equal keys |
| SignedPayloads.PairingNeverRevocation | crates/idp-model/src/contract/device_self_revocation.rs:15-21 | no text is both a pairing approval and a self-revocation |
| StoragePaths.SetExtensionShape | crates/storage-service/src/database_runtime.rs:159-165 | replacing the extension of a dotted file name keeps folder and stem |
| StoragePaths.ValidNamespaceIff | crates/storage-service/src/database_catalog.rs:222-235 | a namespace is valid exactly when its subject names a directory entry in letters, digits, '-', '_' and '.', and the text of its application id is not all zeros |
| StoragePaths.FilePathShape | crates/storage-service/src/database_catalog.rs:222-241 | every path of a valid namespace is root, subject, application and a file name that tells the kind and id apart |
| StoragePaths.FilePathInjective | crates/storage-service/src/database_catalog.rs:222-241 | catalogs, databases, key-value files and temporary files of valid namespaces never share a path |
| Catalogs.EffectsAreLocal | crates/storage-service/src/database_catalog.rs:46-173 | each operation changes at most the record of its own id |
| Catalogs.CatalogEffects | crates/storage-service/src/database_catalog.rs:86-173 | registering never overrides a tombstone, deleting and importing set one, and nothing removes one |
| Catalogs.CreateKeepsTombstonesIff | crates/storage-service/src/database_catalog.rs:46-70 | creation keeps all tombstones exactly when its id has none |
| Catalogs.DatabaseCatalog.Create | crates/storage-service/src/database_catalog.rs:46-70 | on success the namespace gains one live record; on failure and for other namespaces nothing changes |
| Catalogs.DatabaseCatalog.List | crates/storage-service/src/database_catalog.rs:72-84 | lists exactly the live records of the namespace |
| Catalogs.DatabaseCatalog.RegisterSelected | crates/storage-service/src/database_catalog.rs:86-110 | answers whether the id is live, adds a record only for an unknown id, refuses a tombstoned one |
| Catalogs.DatabaseCatalog.Get | crates/storage-service/src/database_catalog.rs:112-127 | finds exactly the live record of the id |
| Catalogs.DatabaseCatalog.Delete | crates/storage-service/src/database_catalog.rs:129-146 | tombstones a live record and says whether there was one; other namespaces see no change |
| Catalogs.DatabaseCatalog.ApplyTombstone | crates/storage-service/src/database_catalog.rs:148-173 | leaves a tombstone, also for an unknown id |
| Catalogs.DatabaseCatalog.IsTombstoned | crates/storage-service/src/database_catalog.rs:175-189 | answers for every id whether its record is a tombstone |
| Runtimes.DatabaseRuntime.Create | crates/storage-service/src/database_runtime.rs:36-58 | a created database is live and cached; a failed creation leaves a tombstone and no handle |
| Runtimes.DatabaseRuntime.RollBack | crates/storage-service/src/database_runtime.rs:53-56 | the record of a database whose engine did not open becomes a tombstone |
| Runtimes.DatabaseRuntime.Evict | crates/storage-service/src/database_runtime.rs:105-118 | drops exactly the handles of the key from both caches |
| Runtimes.DatabaseRuntime.Delete | crates/storage-service/src/database_runtime.rs:72-82 | after a deletion the database is tombstoned and in neither cache |
| Runtimes.DatabaseRuntime.ApplyTombstone | crates/storage-service/src/database_runtime.rs:84-95 | the same after an imported tombstone |
| Runtimes.DatabaseRuntime.OpenSelected | crates/storage-service/src/database_runtime.rs:120-143 | returns the cached or a new handle of a live database, registers an unknown one, refuses a tombstoned one |
| Runtimes.DatabaseRuntime.OpenKvSelected | crates/storage-service/src/database_runtime.rs:145-188 | the same for the key-value store |
| Runtimes.DatabaseRuntime.Open | crates/storage-service/src/database_runtime.rs:190-213 | opens exactly databases that are already live, registering nothing |
| UndisturbedCalls.CallsReturn | crates/storage-service/src/database_runtime.rs:36-213 | from every state with its thread idle and the locks free, every call goes on without waiting, returns within eight actions with the right answer, frees its locks, and does to caches and catalog exactly what the call is for, as the class does |
| UndisturbedCalls.CallIsRun | crates/storage-service/src/database_runtime.rs:36-213 | after every run such a call is a run too |
| RuntimeInterleavings.RunsKeepInv | crates/storage-service/src/database_runtime.rs:36-213 | in every interleaving locks have one owner, program counters match the catalog, and a cached tombstone is mid-eviction or from a failed creation |
| RuntimeInterleavings.NoStaleHandleIff | crates/storage-service/src/database_runtime.rs:36-118 | at the public interface a tombstoned database is, in all interleavings, cached only while its own eviction runs, exactly when its engine opens after creation |
| RuntimeInterleavings.StaleHandle | crates/storage-service/src/database_runtime.rs:44-57 | a run of the public interface, with a direct call of open_kv_selected, that ends with all threads idle and a tombstoned database cached |
| HandleDiscipline.DisciplinedRunsKeepInv | crates/storage-server/src/database_protocol.rs:128-143 | when key-value stores are asked for only with a handle in hand, a database still being created is known to no other thread and has no key-value store open |
| HandleDiscipline.NoStaleHandleEver | crates/storage-server/src/database_protocol.rs:128-143 | then in every interleaving every database, failing engines included, is cached while tombstoned only during its own eviction |
| HandleDiscipline.DeletedStaysGoneEver | crates/storage-service/src/database_runtime.rs:72-118 | then every call that deletes, imports or finds a tombstone leaves the database in neither cache for good, failing engines included |
| RuntimeInterleavings.GoneIsStable | crates/storage-service/src/database_runtime.rs:120-213 | once tombstoned and in no cache, a database is never cached again |
| RuntimeInterleavings.DeletedStaysGone | crates/storage-service/src/database_runtime.rs:72-118 | from the return of a deletion or imported tombstone on, and of a deletion that found a tombstone unless a creation may have failed, neither cache holds the database in any continuation |
| RuntimeInterleavings.NothingToDelete | crates/storage-service/src/database_runtime.rs:72-82 | a deletion that finds a tombstone finds the database in neither cache and no handle on the way |
| RuntimeInterleavings.RunKeepsKvFacts | crates/storage-service/src/database_runtime.rs:53-56 | only the rollback of a creation can make a tombstone of a cached key-value store without an eviction to follow |
| RuntimeInterleavings.LockOrder | crates/storage-service/src/database_runtime.rs:36-213 | a thread waits only for locks after all it holds, in the order open, key-value, catalog |
| RuntimeInterleavings.NoDeadlock | crates/storage-service/src/database_runtime.rs:36-213 | whenever a call is in progress some call in progress can move |
| DatabaseSync.TombstonesGrow | crates/storage-server/src/database_protocol.rs:80-328 | no step of any device removes a tombstone |
| DatabaseSync.HandlesAreLive | crates/storage-server/src/database_protocol.rs:80-328 | a data session is opened only for an id the device's own catalog has not tombstoned |
| DatabaseSync.RunsAreTraced | crates/storage-server/src/database_protocol.rs:80-328 | in every run every tombstone stems from a delete call on some device |
| DatabaseSync.TombstonedForGood | crates/storage-server/src/database_protocol.rs:234-328 | along every continuation a tombstone stays and no handle is taken for it on that device |
| DatabaseSync.AnnouncementArrives | crates/storage-server/src/database_protocol.rs:234-328 | an announcement handled by an authorizing peer becomes a tombstone there |
| DatabaseSync.AnnouncedTombstoneStays | crates/storage-server/src/database_protocol.rs:80-127 | whatever happens in between, a handled announcement leaves a tombstone for good |
| DatabaseSync.ExactlyOneInitiates | crates/storage-server/src/database_protocol.rs:54-78 | of two devices with distinct keys exactly one opens the exchange |
| DatabaseSync.TombstonesTravelUpwards | crates/storage-server/src/database_protocol.rs:54-127 | in every run whose exchanges the smaller key opens, a tombstone is held only by devices whose key is not smaller than that of a device that deleted |
| DeletionReach.ReachesIff | crates/storage-server/src/database_protocol.rs:54-127 | a deletion on one device alone can become known to another in such a run exactly when that one is the device itself or has a larger key |
| DeletionReach.RefusedNeverReached | crates/storage-service/src/database_catalog.rs:222-235 | in a namespace that storage refuses, no deletion can become known on any device |
| DeletionReach.RoundReachesIff | crates/storage-server/src/database_protocol.rs:54-127 | after a failure-free round a fully authorized peer knows of it exactly then |
| DeletionReach.LargerKeyUnheard | crates/storage-server/src/database_protocol.rs:63-67 | a run after which no round tells a smaller, fully authorized peer of a deletion |
| SyncRounds.HandleIfPresent | crates/storage-server/src/database_protocol.rs:234-328 | handling a message is a step of the cluster |
| SyncRounds.SynchronizePeer | crates/storage-server/src/database_protocol.rs:80-173 | an exchange is a run of the cluster that comes to exactly what it is for when no message of it is under way; new tombstones are only the peer's, of databases tombstoned on the initiator |
| SyncRounds.ExchangeOutcome | crates/storage-server/src/database_protocol.rs:80-328 | the messages of an exchange, handled one after the other, come to what an independent description of the whole exchange says |
| SyncRounds.ExchangeIsFor | crates/storage-server/src/database_protocol.rs:80-328 | a database live on the initiator and not tombstoned on the peer is live on both, the peer's two handles taken before the initiator's two; a tombstone of the peer stops everything; without a record the initiator takes no handle; a tombstone of the initiator reaches the peer; nothing else changes |
| SyncRounds.FinishExchange | crates/storage-server/src/database_protocol.rs:118-173 | the part after the handshake is a run of the cluster that handles its three messages in turn and makes no tombstone |
| SyncRounds.SynchronizeSelection | crates/storage-server/src/database_protocol.rs:58-77 | after all selected databases the peer has every tombstone announceable at the start, and every live one has had a data session unless the peer has its tombstone |
| SyncRounds.SynchronizeSelectedPeers | crates/storage-server/src/database_protocol.rs:54-78 | the same for every peer with a larger key, a run of the cluster, and no tombstone goes to a smaller key than all that held it |
| SyncRounds.Round | crates/storage-server/src/database_protocol.rs:54-127 | after a failure-free round every tombstone held at its start for a database selected and admitted on both sides is held by each peer with a larger key, every database live at its start has had a data session with each such peer that does not hold its tombstone, and no tombstone has travelled to a smaller key |
| SyncRounds.FollowsIsRun | crates/storage-server/src/database_protocol.rs:54-173 | what those methods reach is the end of a run, so all properties of runs apply |
| AuthorizedTransport.AtMostOneAfterWithdrawal | crates/storage-server/src/database_protocol.rs:376-405 | after a withdrawal that is not restored at most one more frame is sent or delivered, that of the call already past its check |
| AuthorizedTransport.NothingAfterRefusal | crates/storage-server/src/database_protocol.rs:376-405 | once the withdrawn question is asked again nothing more goes through |
| AuthorizedTransport.SendGoesOut | crates/storage-server/src/database_protocol.rs:397-404 | while both permissions last every frame that is sent goes out |
| AuthorizedTransport.ReceiveDelivers | crates/storage-server/src/database_protocol.rs:379-395 | while both permissions last every frame that arrives for a receive is delivered |
| AuthorizedTransport.BigEndian | crates/storage-server/src/database_protocol.rs:433-445 | the four length bytes read back to the length |
| AuthorizedTransport.FrameRoundTrip | crates/storage-server/src/database_protocol.rs:414-445 | a written handshake frame is read back whole and the rest of the stream is left |
| Scopes.ParsedScopesAreTokens | crates/idp-service/src/oauth2/scope.rs:11-17 | parsing yields non-empty scopes without whitespace |
| Scopes.ParseJoined | crates/idp-service/src/oauth2/scope.rs:11-21 | parsing undoes joining of such scopes |
| Scopes.ParsesExactly | crates/idp-service/src/oauth2/scope.rs:11-17 | whitespace of any kind separates scopes and is otherwise skipped, and every piece between is one |
| Scopes.IntersectScopes | crates/idp-service/src/oauth2/scope.rs:47-57 | the result is within what is allowed, and within the request unless that was empty |
| Scopes.AllowedIntersection | crates/idp-service/src/oauth2/scope.rs:23-57 | a request that passes validation is intersected to itself |
| Scopes.StrictlySortedUnique | crates/idp-service/src/oauth2/service.rs:888-893 | a set of scopes has one strictly sorted list |
| Scopes.ConsentKeyCanonical | crates/idp-service/src/oauth2/service.rs:888-893 | for lists of non-empty space-free scopes the consent keys are equal exactly when the scope sets are |
| Scopes.SpacesShareKeys | crates/idp-service/src/oauth2/service.rs:888-893 | with spaces two different sets share a key |
| Scopes.Normalize | crates/idp-service/src/oauth2/service.rs:888-893 | sorting in place, dropping repetitions and joining computes the key |
| Scopes.Sort | crates/idp-service/src/oauth2/service.rs:889-890 | sorted, with the same elements |
| Scopes.Dedup | crates/idp-service/src/oauth2/service.rs:891-891 | strictly sorted from sorted, with the same elements |
| Scopes.JoinAll | crates/idp-service/src/oauth2/scope.rs:19-21 | the loop computes the join |
| OAuthGrants.ApproveKeepsInv | crates/idp-service/src/oauth2/service.rs:352-392 | an approval keeps every consent backed by an approval of the same user, client, redirect URI and key |
| OAuthGrants.AuthorizeKeepsInv | crates/idp-service/src/oauth2/service.rs:283-350 | a code is issued only under a consent of the principal for its client, redirect URI and scopes |
| OAuthGrants.RedeemKeepsInv | crates/idp-service/src/oauth2/service.rs:540-617 | tokens from a code carry the code's user, client and scopes, met its challenge in time, and consume it |
| OAuthGrants.PasswordKeepsInv | crates/idp-service/src/oauth2/service.rs:460-538 | the password grant keeps the invariant: its tokens name the user of their key |
| OAuthGrants.ClientCredentialsKeepsInv | crates/idp-service/src/oauth2/service.rs:619-709 | the client credentials grant keeps it |
| OAuthGrants.RefreshKeepsInv | crates/idp-service/src/oauth2/service.rs:711-785 | whatever token is presented, refreshed tokens keep the invariant: they are for the presented key's user and stay within the presented claims |
| OAuthGrants.ExchangeKeepsInv | crates/idp-service/src/oauth2/service.rs:787-872 | exchanged tokens stay within the ones presented |
| OAuthGrants.FindCode | crates/idp-service/src/oauth2/service.rs:540-554 | finds the first code with the hash, or says there is none |
| OAuthGrants.RunKeepsInv | crates/idp-service/src/oauth2/service.rs:438-872 | the facts about codes and tokens hold along every run, refreshes of arbitrary claims included |
| OAuthGrants.CodeTokensWereApproved | crates/idp-service/src/oauth2/service.rs:283-617 | in every run tokens from a code trace back to an approval by their user for their client, redirect URI and consent key, and the verifier met the challenge before expiry |
| OAuthGrants.CodesYieldTokensOnce | crates/idp-service/src/oauth2/service.rs:540-617 | in every run a code yields tokens at most once |
| OAuthGrants.CheckCode | crates/idp-service/src/oauth2/service.rs:540-600 | a code that passes the checks is an unconsumed one of a client and a principal that exist |
| GrantConditions.ApproveIff | crates/idp-service/src/oauth2/service.rs:352-392 | an approval is recorded exactly for a user, a registered client, one of its redirect URIs and scopes it is allowed, and is then as requested |
| GrantConditions.AuthorizeIff | crates/idp-service/src/oauth2/service.rs:283-350 | a code is issued exactly to a user who consented to the client, redirect URI and scopes asked for, with a fitting challenge, and carries them |
| GrantConditions.CheckCodeIff | crates/idp-service/src/oauth2/service.rs:540-600 | a code may be redeemed exactly when it is the first with its hash, unconsumed and unexpired, its key represents somebody, the caller is its client, client id and redirect URI agree if sent, and its challenge is met |
| GrantConditions.RedeemIff | crates/idp-service/src/oauth2/service.rs:540-617 | such a code is consumed, and yields tokens exactly when its key represents a user and can sign; they carry what the code carries |
| GrantConditions.RedeemRefused | crates/idp-service/src/oauth2/service.rs:540-600 | any other code changes nothing |
| GrantConditions.PasswordIff | crates/idp-service/src/oauth2/service.rs:460-538 | the password grant succeeds exactly for an admitted client, a user whose password was verified and whose key is their active root key; it adds one response for that user and client within the scopes; otherwise the answer to a wrong user or password is invalid_grant |
| GrantConditions.CredentialsIff | crates/idp-service/src/oauth2/service.rs:619-709 | client credentials are granted exactly to an admitted confidential client with an unexpired secret, an allowed audience, allowed scopes and an active root key |
| GrantConditions.RefreshIff | crates/idp-service/src/oauth2/service.rs:711-785 | a refresh succeeds exactly for unexpired refresh claims of an admitted client whose key represents a user, and a request within their scopes |
| GrantConditions.RefreshAdded | crates/idp-service/src/oauth2/service.rs:711-785 | it adds one response, of the presented key and client and within the presented scopes |
| GrantConditions.ExchangeIff | crates/idp-service/src/oauth2/service.rs:787-872 | an exchange succeeds exactly for a readable access token within its lifetime, of an admitted client, whose key represents a user |
| GrantConditions.ExchangeAdded | crates/idp-service/src/oauth2/service.rs:787-872 | it adds one response, of the token's key and client and within its scopes |
| GrantConditions.TokensAreEarned | crates/idp-service/src/oauth2/service.rs:438-872 | in every run every response stems from one step whose conditions held then, of the kind its origin says: a verified password, a fresh code with its verifier, a client's secret, unexpired refresh claims or a live access token |
| ApprovedScopes.CodeTokensHaveApprovedScopes | crates/idp-service/src/oauth2/service.rs:283-617 | when consent keys tell the registrations' choices apart, tokens from a code were approved for exactly their set of scopes |
| ApprovedScopes.CleanKeysTell | crates/idp-service/src/oauth2/service.rs:888-893 | registrations that list only non-empty scopes without spaces are told apart |
| ApprovedScopes.ApprovedScopesIff | crates/idp-service/src/oauth2/service.rs:283-392 | for every set of registered scope lists, all code tokens were approved for their scopes in every run exactly when consent keys tell the choices under them apart |
| ApprovedScopes.ListsTellIff | crates/idp-service/src/oauth2/service.rs:888-893 | consent keys tell all choices under the listed registrations apart exactly when a test on pairs of lists passes |
| ApprovedScopes.ApprovedScopesDecided | crates/idp-service/src/oauth2/service.rs:283-392 | for finitely many registered lists that test decides whether all code tokens were approved for their scopes in every run |
| ApprovedScopes.SharedKeyRun | crates/idp-service/src/oauth2/service.rs:221-392 | any two choices that share a key yield a run with tokens for the one under an approval of the other |
| ApprovedScopes.SpacesInRegistrations | crates/idp-service/src/oauth2/service.rs:221-274 | a run in which "a b" is approved and readable tokens for "a" and "b" are issued |
| ScopeClaims.JsonStringReads | crates/model/src/space_delimited.rs:7-30 | a scope printed as a JSON string reads back |
| ScopeClaims.ScopeClaimRoundTrip | crates/model/src/space_delimited.rs:7-30 | a scope claim reads back to its scopes exactly when none contains unescaped whitespace, and to nothing otherwise |
| RefreshProvenance.ChainsStayWithin | crates/idp-service/src/oauth2/service.rs:711-872 | tokens at the end of a chain of refreshes and exchanges stay within those at its start |
| RefreshProvenance.ScopesNeverGrow | crates/idp-service/src/oauth2/service.rs:711-872 | in every run, along every such chain from issued tokens, scopes never grow and subject and client stay the same |
| RefreshProvenance.RefreshStaysWithinClaims | crates/idp-service/src/oauth2/service.rs:711-785 | in every run refreshed tokens stay within the presented claims |
| RefreshProvenance.RefreshCoveredIff | crates/idp-service/src/oauth2/service.rs:711-785 | whatever scope is asked for, refreshed tokens stay within issued ones exactly when the presented claims do |
| RefreshProvenance.ProvenanceSurvivesIff | crates/idp-service/src/oauth2/service.rs:718-742 | that all tokens stay within issued ones survives a refresh exactly when its claims do |
| RefreshProvenance.IssuedIsCovered | crates/idp-service/src/oauth2/service.rs:1066-1148 | presenting a refresh token the service issued is such a case |
| RefreshProvenance.TokensHaveOrigin | crates/idp-service/src/oauth2/service.rs:711-872 | in runs that present only such claims all tokens stay within tokens of a code, password or client credentials grant |
| RefreshProvenance.UnissuedClaims | crates/idp-service/src/oauth2/jwt.rs:60-92 | a run from claims nobody issued to tokens without any approval, code or earlier token |
| OAuthGrants.ConsentsLast | crates/idp-service/src/oauth2/service.rs:352-392 | a consent lasts until it is revoked |
| OAuthGrants.SameScopesSameKey | crates/idp-service/src/oauth2/service.rs:299-330 | allowed requests with the same set of scopes have one consent key |
| OAuthGrants.ApprovedOnceIsEnough | crates/idp-service/src/oauth2/service.rs:283-392 | after an approval no reordered or repeated request for those scopes is told that approval is required |
| KeyTree.BuildDerivationPath | crates/idp-model/src/model/key.rs:88-108 | pushing the pieces together prints the path that the lemmas below read back |
| PathText.PathReads | crates/idp-model/src/model/key.rs:80-108 | a printed path reads, by an independent reader of BIP 32 path text, as its parent's steps and one more: the index, hardened exactly when the key is |
| PathText.ForestPathReads | crates/idp-model/src/model/key.rs:80-108 | in every forest the path a key prints reads as the indices and hardening of the keys from its root down to it |
| PathText.HasLineage | crates/idp-service/src/replica/key_repo.rs:171-231 | every key of a forest has such a line of keys from a root down to it |
| PathText.DerivedBelowParent | crates/key/src/derived_key.rs:104-129 | the private key at a key's path is one step, of its own index and hardening, below the one at its parent's path |
| KeyTree.DerivationPathInjective | crates/idp-model/src/model/key.rs:88-108 | equal paths under equal or absent parents have equal index and hardening |
| KeyTree.ActiveIff | crates/idp-service/src/replica/key_repo.rs:339-342 | a key is active exactly until its revocation or expiry |
| KeyTree.KeyRepo.LargestSiblingIndex | crates/idp-service/src/replica/key_repo.rs:187-196 | the largest index among the children of a parent |
| KeyTree.KeyRepo.CreateKey | crates/idp-service/src/replica/key_repo.rs:171-231 | a new key gets the next sibling index and the extended path; a missing parent or exhausted index changes nothing |
| KeyTree.KeyRepo.DeleteByEntity | crates/idp-service/src/replica/key_repo.rs:152-169 | removes exactly the entity's keys, and leaves a forest of one-entity trees such a forest with distinct paths |
| KeyTree.KeyRepo.FindActiveEntityRootKey | crates/idp-service/src/replica/key_repo.rs:138-150 | finds an active root key of the entity that no other is newer than |
| KeyTree.CreateKeepsForest | crates/idp-service/src/replica/key_repo.rs:171-231 | creation keeps the forest, whatever the entity |
| KeyTree.CreateKeepsSameEntityIff | crates/idp-service/src/replica/key_repo.rs:171-231 | creation keeps trees to one entity exactly when the child is created for its parent's |
| KeyTree.DeleteKeepsForest | crates/idp-service/src/replica/key_repo.rs:152-169 | deleting an entity keeps the forest when trees belong to one entity each |
| KeyTree.MixedChildOrphaned | crates/idp-service/src/replica/key_repo.rs:152-169 | otherwise deleting some entity orphans a key |
| KeyTree.OwnRunsKeepForest | crates/idp-service/src/replica/key_repo.rs:152-231 | runs that create children for their parent's entity keep a forest of one-entity trees, reused indices included |
| KeyTree.OwnRunsHaveDistinctPaths | crates/idp-service/src/replica/key_repo.rs:152-231 | in such runs from the empty table live keys form a closed forest with pairwise distinct paths |
| KeyTree.ForestForGoodIff | crates/idp-service/src/replica/key_repo.rs:152-231 | a forest stays one in every such continuation exactly when every live child shares its parent's entity |
| KeyTree.CreateIsSafeIff | crates/idp-service/src/replica/key_repo.rs:171-231 | after a creation keys form a forest with distinct paths in every such continuation exactly when it is for the parent's entity |
| KeyTree.ForestPathsDistinct | crates/idp-model/src/model/key.rs:88-108 | in a forest no two keys print the same path |
| KeyTree.SharedPath | crates/idp-service/src/replica/key_repo.rs:171-231 | a run in which two live keys print one path |
| KeyPaths.LaterRootProtects | crates/idp-service/src/replica/key_repo.rs:152-231 | after a creation for another entity with a root after the parent's tree, live keys print distinct paths in every continuation that creates children for their parent's entity |
| KeyPaths.PlaceTakenAgain | crates/idp-service/src/replica/key_repo.rs:152-231 | when the entity has no such root, some such continuation ends with two live keys printing one path |
| KeyPaths.SharedPathIff | crates/idp-service/src/replica/key_repo.rs:152-231 | a creation lets two live keys come to print one path exactly when it is for another entity than the parent's, all of whose roots come before the root of the parent's tree |
| KeyDerivation.DeriveFromChildNumber | crates/key/src/derived_key.rs:80-90 | one step is a derivation to the path one longer |
| KeyDerivation.DeriveFromDerivationPath | crates/key/src/derived_key.rs:104-129 | the loop computes the derivation along the rest of the path, or the error of a shorter path, another branch or a failing step |
| KeyDerivation.VerifyDerivedKey | crates/key/src/derived_key.rs:131-150 | false off the path, an error when a step fails, otherwise whether the scalars agree |
| KeyDerivation.VerifyEcdsaKey | crates/key/src/derived_key.rs:152-181 | true exactly for the point reached by public steps strictly below, none of them hardened |
| KeyDerivation.MasterDerive | crates/key/src/master_key.rs:101-114 | agrees with the derived key the master key converts to |
| KeyDerivation.MasterVerifyDerivedKey | crates/key/src/master_key.rs:116-124 | agrees with the converted key |
| KeyDerivation.MasterVerifyEcdsaKey | crates/key/src/master_key.rs:126-146 | agrees with the converted key except that the empty path names the master key itself |
| KeyDerivation.DerivedIff | crates/key/src/derived_key.rs:104-129 | deriving to a path yields a key exactly when the path lies at or below and a list of keys, each got from the one before by the private step at its place, leads there |
| KeyDerivation.DerivedErrors | crates/key/src/derived_key.rs:104-129 | which of the three errors it is otherwise |
| KeyDerivation.DerivedSelf | crates/key/src/derived_key.rs:104-129 | deriving to a key's own path gives the key back |
| KeyDerivation.DerivedChild | crates/key/src/derived_key.rs:80-90 | deriving to a path one longer is one private step, success and failure alike |
| KeyDerivation.VerifiedIff | crates/key/src/derived_key.rs:131-150 | verification answers false off the path, otherwise whether the scalars agree of the child and of the key that private steps lead to, and fails exactly when none do |
| KeyDerivation.EcdsaVerifiedIff | crates/key/src/derived_key.rs:152-181 | a public key verifies exactly when the path lies strictly below and public steps, none of them hardened, lead to its point |
| KeyDerivation.DeriveInStages | crates/key/src/derived_key.rs:104-129 | deriving to a prefix and then to the path equals deriving directly, success and failure alike |
| KeyDerivation.VerifiesExactlyDerived | crates/key/src/derived_key.rs:131-150 | a key verifies exactly when the key derived to its path has its scalar; derived keys do |
| KeyDerivation.VerifiesAgainstAncestors | crates/key/src/derived_key.rs:104-150 | a derived key verifies against the key at every path on its way |
| KeyDerivation.EcdsaVerifiesIff | crates/key/src/derived_key.rs:152-181 | when one public and one private step commute, a derived key's public key verifies exactly for a non-empty non-hardened suffix |
| BootstrapGrants.BootstrapRegistry.Register | crates/idp-server/src/bootstrap/registry.rs:45-72 | prunes expired grants and adds one that its peer can reserve for 900 seconds |
| BootstrapGrants.BootstrapRegistry.Reserve | crates/idp-server/src/bootstrap/registry.rs:82-93 | succeeds exactly for an unexpired free grant of the peer, and marks it |
| BootstrapGrants.BootstrapRegistry.Finish | crates/idp-server/src/bootstrap/registry.rs:95-109 | removes or frees the grant of the peer and nothing else |
| BootstrapGrants.Handle | crates/idp-server/src/bootstrap/handler.rs:36-110 | an undisturbed session succeeds exactly when everything does and then uses the grant up; otherwise the registry is as after a prune |
| BootstrapGrants.RunsKeepInv | crates/idp-server/src/bootstrap/handler.rs:36-110 | in every interleaving with fresh ids marked grants are exactly the held ones and unspent grants are kept |
| BootstrapGrants.RegisterSafeIff | crates/idp-server/src/bootstrap/registry.rs:45-93 | in every reachable state registering an id is safe, no two sessions holding one grant in any continuation, exactly when no session holds the id |
| BootstrapGrants.RunsKeepExclusive | crates/idp-server/src/bootstrap/registry.rs:45-109 | while no held id is registered again, no two sessions hold one grant |
| BootstrapGrants.HeldTwice | crates/idp-server/src/bootstrap/registry.rs:45-93 | from every such state, registering a held id leads to two holders |
| BootstrapGrants.ReservedIff | crates/idp-server/src/bootstrap/registry.rs:82-93 | in every run a session gets a grant exactly when it was issued to its peer, is unexpired and unredeemed, and no session holds it |
| BootstrapGrants.SpentForGood | crates/idp-server/src/bootstrap/handler.rs:56-61 | an expired or redeemed grant is never reserved again |
| BootstrapGrants.FinishReturnsGrant | crates/idp-server/src/bootstrap/handler.rs:87-105 | a failed session leaves its grant reservable by its peer exactly when it is unexpired; a successful one leaves it spent |
| BootstrapGrants.EverySessionReleases | crates/idp-server/src/bootstrap/handler.rs:56-105 | a session that reserves can always go on, ends within six steps of its own and calls finish exactly once |
| BootstrapGrants.SuccessIff | crates/idp-server/src/bootstrap/handler.rs:62-105 | in every interleaving a session uses its grant up exactly when its synchronization succeeded, and then its device was approved and acknowledged |
| BootstrapGrants.RunsApproveIssued | crates/idp-server/src/bootstrap/handler.rs:62-86 | a session approves only the device its grant was issued for |
| NamedRows.SortSorts | crates/management-service/src/replica/role_repo.rs:156-179 | the listing is sorted by name and has the same rows |
| NamedRows.FoundInListing | crates/management-service/src/replica/role_repo.rs:156-179 | a name is found in the sorted, cut-off list exactly when fewer rows than the limit sort before it, and then as the first of its name |
| SystemBaseline.DoKeeps | crates/bootstrap-service/src/bootstrap/service.rs:196-543 | no step removes a row or changes what a successful lookup finds |
| SystemBaseline.DoFits | crates/bootstrap-service/src/bootstrap/service.rs:370-433 | no step changes whether the management lists have room |
| SystemBaseline.DoDone | crates/bootstrap-service/src/bootstrap/service.rs:196-543 | a step whose prerequisites are done leaves its own part of the baseline found by the next run |
| SystemBaseline.DoStable | crates/bootstrap-service/src/bootstrap/service.rs:72-194 | what a step has set up stays set up through every later step |
| SystemBaseline.PrefixDone | crates/bootstrap-service/src/bootstrap/service.rs:72-194 | wherever a run is cut off, all it got to is done |
| SystemBaseline.ResumesAlways | crates/bootstrap-service/src/bootstrap/service.rs:72-194 | after any number of interrupted runs a completed one ends exactly where an uninterrupted one would |
| SystemBaseline.RepeatsIff | crates/bootstrap-service/src/bootstrap/service.rs:370-433 | a completed run leaves everything found, and one more changes nothing, exactly when the lists have room |
| SystemSetup.BootstrapService.EnsureApplication | crates/bootstrap-service/src/bootstrap/service.rs:196-209 | finds or creates the application in at most one write |
| SystemSetup.BootstrapService.EnsureClient | crates/bootstrap-service/src/bootstrap/service.rs:211-315 | an existing client is brought to the expected fields; a new one gets its row and key material |
| SystemSetup.EditClient | crates/bootstrap-service/src/bootstrap/service.rs:234-266 | editing the fields that differ gives the client as it would have been created, under its own id, and says whether one did |
| SystemSetup.BootstrapService.UpdateClient | crates/bootstrap-service/src/bootstrap/service.rs:234-276 | brings the client to the expected fields and writes the row exactly when one differed |
| SystemSetup.BootstrapService.CreateClient | crates/idp-service/src/replica/client_repo.rs:215-297 | a new client gets its row and then its key material, or a prefix of both |
| SystemSetup.BootstrapService.CreateKeys | crates/idp-service/src/replica/client_repo.rs:280-296 | a new client gets master key, root key and stored derived key |
| SystemSetup.BootstrapService.EnsureAdminUser | crates/bootstrap-service/src/bootstrap/service.rs:317-334 | finds the user by name or email or creates it; a blank password is refused only when it must be created |
| SystemSetup.BootstrapService.EnsureBootstrapDevice | crates/bootstrap-service/src/bootstrap/device.rs:10-32 | creates an approved device only when there is none |
| SystemSetup.BootstrapService.EnsureManagementAdminAccess | crates/bootstrap-service/src/bootstrap/service.rs:336-368 | afterwards the user has a role "admin" of the management application that carries its permission "*" |
| SystemSetup.BootstrapService.EnsureRole | crates/bootstrap-service/src/bootstrap/service.rs:370-400 | returns the listed admin role or else one it creates |
| SystemSetup.BootstrapService.EnsurePermission | crates/bootstrap-service/src/bootstrap/service.rs:402-433 | returns the listed permission or else one it creates |
| SystemSetup.BootstrapService.EnsureRolePermission | crates/bootstrap-service/src/bootstrap/service.rs:435-468 | relates role and permission if they are not |
| SystemSetup.BootstrapService.EnsureUserRole | crates/bootstrap-service/src/bootstrap/service.rs:470-500 | gives the user the role if it has not got it |
| SystemSetup.BootstrapService.EnsureActiveKey | crates/bootstrap-service/src/bootstrap/service.rs:502-543 | master key, active root key and its stored derived key; nothing is written when all are there |
| SystemSetup.BootstrapService.EnsureMasterKey | crates/idp-service/src/repo/private_key_repo.rs:20-36 | stores a master key only when there is none |
| SystemSetup.BootstrapService.EnsureDerivationPath | crates/idp-service/src/repo/private_key_repo.rs:42-64 | stores the derived key only when it is missing |
| SystemSetup.BootstrapService.EnsureSystemBaseline | crates/bootstrap-service/src/bootstrap/service.rs:72-194 | on Ok the repositories hold the baseline; in any case nothing was added that was not asked for; a call that fails has done a prefix of the plan, and enough writes finish it |
| SystemPlan.PlanOrdered | crates/bootstrap-service/src/bootstrap/service.rs:72-194 | every task of the plan comes after what it builds on, for every configuration |
| SystemPlan.PlanCompatible | crates/bootstrap-service/src/bootstrap/service.rs:72-160 | no two tasks of the plan ask different things of one client |
| SystemOutcome.PlanMeets | crates/bootstrap-service/src/bootstrap/service.rs:72-194 | from every valid world the plan leaves both applications, every configured client with its fields and keys, an administrator with role, permission and keys, and a given device as the first, approved one |
| SystemOutcome.AccessMeets | crates/bootstrap-service/src/bootstrap/service.rs:336-368 | the access tasks make their user an administrator, however long the lists are |
| SystemOutcome.ClientMeets | crates/bootstrap-service/src/bootstrap/service.rs:211-315 | the tasks of a client leave it with the expected fields, a master key, a root key and the stored derived key |
| SystemFrame.PlanFrame | crates/bootstrap-service/src/bootstrap/service.rs:72-194 | however far a run of the plan gets, it adds no other application, client, user name, role, permission or key, gives no other user a role and no other role a permission |
| SystemSetup.SetupResumes | crates/bootstrap-service/src/bootstrap/service.rs:72-543 | re-running setup after interruptions at any writes reaches the full baseline, the same as without them |
| SystemSetup.FailedIsAttempt | crates/bootstrap-service/src/bootstrap/service.rs:72-194 | what a failed call leaves is one interrupted attempt |
| SystemSetup.SetupAfterFailures | crates/bootstrap-service/src/bootstrap/service.rs:72-194 | after any list of failed calls, each from what the one before left, a call that returns Ok leaves the system exactly as one call that never failed would have |
| SystemSetup.SetupRepeatsIff | crates/bootstrap-service/src/bootstrap/service.rs:370-433 | the baseline is complete and one more run changes nothing exactly when the management lists had room |
| SystemSetup.FewFit | crates/bootstrap-service/src/bootstrap/service.rs:370-433 | fewer than 1,000 roles and permissions are always enough room |
| SystemSetup.ThousandDoNot | crates/bootstrap-service/src/bootstrap/service.rs:402-433 | exactly 1,000 other permissions are not |
| ResidencyPolicies.MatchingRule | crates/storage-service/src/residency.rs:125-136 | the loop over parents computes the rule of the nearest path upwards |
| ResidencyPolicies.LongestAncestorWins | crates/storage-service/src/residency.rs:98-136 | the rule that applies is that of the longest component-wise ancestor with one, the root included, and there is none exactly when no ancestor has one |
| ResidencyPolicies.SetRule | crates/storage-service/src/residency.rs:81-96 | a new rule decides exactly the paths below it without a more specific one |
| ResidencyPolicies.NamespaceKeyInjective | crates/storage-service/src/residency.rs:115-123 | different valid namespaces have different keys |
| ResidencyPolicies.SetResidencyIsLocal | crates/storage-service/src/residency.rs:81-136 | setting a rule changes the residency of exactly those paths, in the same namespace |
| ResidencyPolicies.DefaultIsLast | crates/storage-service/src/residency.rs:98-112 | another device default changes the residency of exactly the paths that no rule covers |
| ResidencyPolicies.JoinValid | crates/storage-service/src/residency.rs:158-173 | valid paths are what lists of valid components print |
| ResidencyPolicies.ValidPathIff | crates/storage-service/src/residency.rs:158-173 | a path is valid exactly when it prints a list of names, none empty, "." or ".." |
| ResidencyPolicies.ResidencyPolicy.SetResidency | crates/storage-service/src/residency.rs:81-96 | adds the rule exactly for a valid subject, application and path |
| ResidencyPolicies.ResidencyPolicy.SetDeviceDefault | crates/storage-service/src/residency.rs:63-65 | decides exactly the paths of all namespaces that no rule covers |
| ResidencyPolicies.ResidencyPolicy.GetResidency | crates/storage-service/src/residency.rs:98-112 | answers exactly for valid arguments, with the rule or the device default |
| ResidencyPolicies.ResidencyPolicy.SetApplicationExcluded | crates/storage-service/src/residency.rs:67-79 | changes the exclusion of that application only |
| Eviction.ScopedFileSystemRuntime.RemoveUnselectedProjectedResources | crates/storage-service/src/scoped_file_system.rs:153-193 | evicts exactly the projected, unselected resources not held outside the cache over all namespaces, fails exactly when a needed catalog call does, and then has touched only such resources |
| Eviction.ScopedFileSystemRuntime.EvictNamespace | crates/storage-service/src/scoped_file_system.rs:171-190 | the same for one catalog |
| Eviction.ScopedFileSystemRuntime.EvictOne | crates/storage-service/src/scoped_file_system.rs:176-189 | the same for one resource |
| Eviction.OthersUntouched | crates/storage-service/src/scoped_file_system.rs:153-193 | even a failed pass leaves selected, in-use and not projected resources alone |
| Eviction.RepeatFinishes | crates/storage-service/src/scoped_file_system.rs:153-193 | repeating a failed pass ends where one pass would have |
| Eviction.ScopedFileSystemRuntime.CreateResource | crates/storage-service/src/scoped_file_system.rs:54-64 | a resource created here is local and unprojected; a failing catalog changes nothing |
| Eviction.ScopedFileSystemRuntime.RegisterSelectedResource | crates/storage-service/src/scoped_file_system.rs:117-151 | projects a resource unless it is tombstoned, which it reports, or local; says which catalog failures leave an unprojected entry |
| Eviction.ScopedFileSystemRuntime.OpenResource | crates/storage-service/src/scoped_file_system.rs:195-216 | returns the cached or a new handle, which is then in use; missing, deleted and failing resources are refused and not cached |
| Eviction.ScopedFileSystemRuntime.Release | crates/storage-service/src/scoped_file_system.rs:180-185 | dropping the last outside reference frees the file system it was for, and no other, for eviction |
| Eviction.ScopedFileSystemRuntime.DeleteResource | crates/storage-service/src/scoped_file_system.rs:73-88 | tombstones a live resource and drops its handle, says when there is none, and changes nothing on failure |
| Eviction.ScopedFileSystemRuntime.ApplyDeletionTombstone | crates/storage-service/src/scoped_file_system.rs:90-101 | leaves a tombstone and no cached handle, or nothing changed on failure |
| FileSystemInterleavings.RunsKeepInv | crates/storage-service/src/scoped_file_system.rs:73-216 | in every interleaving the lock has one owner, and a deletion past its catalog step finds its tombstone, when imports keep tombstones |
| FileSystemInterleavings.GoneOnReturn | crates/storage-service/src/scoped_file_system.rs:73-101 | then a deletion that returns leaves the file system tombstoned, not cached and not about to be, whatever overlapped with it |
| FileSystemInterleavings.GoneStays | crates/storage-service/src/scoped_file_system.rs:90-216 | then no step revives, caches or hands out a file system that is gone |
| FileSystemInterleavings.RevivedByImport | crates/storage-service/src/scoped_file_system.rs:117-151 | a run in which an import that overrides tombstones revives a file system whose deletion has returned |
| FileSystemInterleavings.DeletedStaysGoneIff | crates/storage-service/src/scoped_file_system.rs:73-216 | deleted file systems stay gone in every interleaving exactly when imports keep the tombstones they meet |
| FileSystemInterleavings.OpeningWorks | crates/storage-service/src/scoped_file_system.rs:195-216 | an undisturbed opening hands out a cached file system, opens and caches a live one, and fails for any other |
| FileSystemInterleavings.DeletingWorks | crates/storage-service/src/scoped_file_system.rs:73-88 | an undisturbed deletion leaves a live file system tombstoned and uncached and changes nothing otherwise |
| FileSystemInterleavings.ApplyingWorks | crates/storage-service/src/scoped_file_system.rs:90-101 | an undisturbed tombstone leaves any file system tombstoned and uncached |
| FileSystemInterleavings.RegisteringWorks | crates/storage-service/src/scoped_file_system.rs:117-151 | an undisturbed registration makes an unknown file system live, leaves a live one and refuses a tombstone |
| PkceStore.KeysDistinct | packages/oidc-client/src/OidcClient.ts:128-138 | storage keys of different states differ, and none is the last or the token key |
| PkceStore.OidcClient.RememberPkceVerifier | packages/oidc-client/src/OidcClient.ts:176-186 | changes what a callback would get for this state only, in memory and storage alike |
| PkceStore.OidcClient.ConsumePkceVerifier | packages/oidc-client/src/OidcClient.ts:188-208 | takes the verifier of the state and leaves all others; without a state takes the last one and leaves every state's |
| PkceStore.OidcClient.HandleCodeCallback | packages/oidc-client/src/OidcClient.ts:568-590 | reports a missing or unknown state, otherwise yields its verifier and consumes it |
| PkceStore.LookupIsPending | packages/oidc-client/src/OidcClient.ts:176-208 | with reloads at any point memory agrees with storage, and what a non-empty state would get is what was remembered for it and neither used nor lost |
| PkceStore.CallbackIff | packages/oidc-client/src/OidcClient.ts:568-590 | a callback succeeds with exactly the verifier pending for its own state |
| PkceStore.AtMostOnce | packages/oidc-client/src/OidcClient.ts:188-208 | no verifier is handed out twice |
| PkceStore.OthersIntact | packages/oidc-client/src/OidcClient.ts:188-208 | a callback leaves every other state's verifier intact |
| PkceStore.ReturnsIff | packages/oidc-client/src/OidcClient.ts:176-208 | a verifier comes back with its state exactly when the state is not empty |

## Left out

- Faults in the middle of a write, lock poisoning, panics and task cancellation: a step completes or fails as a whole.
- Two token requests for one code at the same time, which depends on the authorization code repository, not part of this model.
- The OAuth repositories are values rather than objects updated in place; the service itself has no fields that change.
- Signature arithmetic and base64, client registration details, JWKS, metadata, device authorization and user administration; of the token encoding only the scope claim is modelled, without `\u` escapes of surrogate pairs.
- Error descriptions of the OAuth service are kept only where they tell two failures apart.
- Alternative spellings of UUIDs: synchronization works with an arbitrary id parser, paths with the canonical text.
- KeyTree.KeyRepo.FindActiveEntityRootKey: which of two equally old root keys is picked is left open, because the order of the table's rows is not part of this model.
- The key crate's own parser of printed paths; the reader of BIP 32 path text here takes decimal indices below any given limit.
- Catalogs.DatabaseCatalog.List: the order of the listing is not modelled.
- SystemSetup.ThousandDoNot: rests on permission rows being listed in order of creation, because `list_permissions` does not sort them and the engine's order is not part of this model.
- Row conflicts of the replicated tables (`ensure_clear`), row codecs and revoked relations between roles and permissions.
- System setup: client secrets, passphrases, credentials and timestamps of rows; the index a new root key gets is only new, its allocation is in the key tree.
- The file system catalog behind eviction is described by what its callers rely on: each of its calls is one step, and evicting a copy leaves its entry; namespace validation before each of its calls is not repeated.
- Interleavings of eviction beyond deletion: which resources are marked projected, and the residency of files, do not take part in them.
- Saving and loading the residency policy, and the PKCE storage shared by several clients or tabs.
- Routers, control plane, transports, engines, native fetch, the user interfaces and `provision_service_client.rs`.
