# Policy store and sync handlers

A model of the local policy cache of the application-policy sidecar and of the code that keeps
it up to date from the policy-sync stream:

- `policystore/store.go`: the `PolicyStore` (policies by id, profiles by id, IP sets by id,
  one optional workload endpoint), its constructor, and the `Write`/`Read` entry points that
  run a callback under the write or a read lock.
- `syncher/syncserver.go`: `processUpdate`, which hands each message to the handler of its
  payload variant, the ten handlers, and the receive loop of `Sync`, which applies messages
  one by one, in order, each under the write lock.

Files: `wrappers.dfy` (Option, Result), `proto.dfy` (the messages), `store.dfy` (module
`Store`), `syncher.dfy` (module `Syncher`: the handlers, each an imperative method proved
against a function on store contents; `Apply`, the dispatcher on contents; `Replay`, the left
fold of `Apply` over a stream; `Sync`), `properties.dfy` (module `SyncherProperties`: what
the handlers, the dispatcher and the fold guarantee) and `finding.dfy` (module `IPSetFinding`).

Go's nil pointers are `Option`s. Where the Go handlers call `log.Fatal` (a delta update of an
unknown IP set, a profile or policy message with a nil id) the model's handler returns a
`ProtocolError` and changes nothing; each of those checks runs before any change in the
source too. `Sync` takes the messages received before the stream broke, and returns how it
ended: `ConnectionBroken` after the last of them, or `ProtocolViolation(i, e)` at the first
message that violates the protocol. The lock is two ghost fields of the store (`writer`,
`readers`); the handlers require the write lock to be held.

Points where the model follows the code as written:
- A full IP-set update for an unknown id builds and fills a new set but never stores it
  (syncher/syncserver.go:91-97); Findings gives what is evidently intended and the corrected
  handler.
- `Write` and `Read` unlock after the callback returns, without `defer`
  (policystore/store.go:46-48, 52-54), so a callback that panics leaves the lock held. The
  model's callbacks are total functions, so that path does not arise in it.
- The receive loop never returns; it stops the process (syncher/syncserver.go:48-56). The
  model returns the reason the process would stop.

## Model

| member | source | states |
|---|---|---|
| `Store.IPSet.AddString` | syncher/syncserver.go:95-97 | adding a member makes it present, keeps the type, and leaves every other member's presence as it was (idempotent add) |
| `Store.IPSet.RemoveString` | syncher/syncserver.go:108-110 | removing a member makes it absent, keeps the type, and leaves every other member's presence as it was (idempotent remove) |
| `Store.NewIPSet` | syncher/syncserver.go:93 | a new set carries the message's type and has no members |
| `Store.PolicyStore.constructor` | policystore/store.go:35-41 | a new store has empty policy, profile and IP-set maps, no endpoint, and no lock held, so `LockValid` holds from the start |
| `Store.PolicyStore.Lock` | policystore/store.go:46 | the write lock is taken only when no lock is held, and is then held; the write lock is never held together with a read lock (`LockValid`) |
| `Store.PolicyStore.Unlock` | policystore/store.go:48 | releases the write lock, keeping `LockValid` |
| `Store.PolicyStore.RLock` | policystore/store.go:52 | a read lock is taken only while no writer holds the lock; read locks are shared (the count goes up by one); keeps `LockValid` |
| `Store.PolicyStore.RUnlock` | policystore/store.go:54 | releases one read lock, keeping `LockValid` |
| `Store.PolicyStore.Write` | policystore/store.go:45-49 | the store afterwards is exactly what the callback made of it, and no lock is held afterwards |
| `Store.PolicyStore.Read` | policystore/store.go:51-55 | returns the callback's result on the current contents, leaves every field unchanged, and gives back its read lock |
| `Syncher.ProcessInSync` | syncher/syncserver.go:85-88 | the in-sync marker leaves the whole store unchanged |
| `Syncher.ProcessIPSetUpdate` | syncher/syncserver.go:90-98 | adding the members one by one gives the store `IPSetUpdated`: a known set gains them, an unknown id leaves the store as it was; only the IP-set map may change |
| `Syncher.ProcessIPSetDeltaUpdate` | syncher/syncserver.go:100-111 | all additions then all removals, one by one, give `IPSetDeltaUpdated`; an unknown id reports `UnknownIPSet` and commits nothing |
| `Syncher.ProcessIPSetRemove` | syncher/syncserver.go:113-115 | the store becomes `IPSetRemoved`: that id deleted from the IP-set map |
| `Syncher.ProcessActiveProfileUpdate` | syncher/syncserver.go:117-122 | a nil id reports `NilProfileID` and commits nothing; otherwise the store becomes `ProfileUpdated` |
| `Syncher.ProcessActiveProfileRemove` | syncher/syncserver.go:124-129 | a nil id reports `NilProfileID` and commits nothing; otherwise the store becomes `ProfileRemoved` |
| `Syncher.ProcessActivePolicyUpdate` | syncher/syncserver.go:131-136 | a nil id reports `NilPolicyID` and commits nothing; otherwise the store becomes `PolicyUpdated` |
| `Syncher.ProcessActivePolicyRemove` | syncher/syncserver.go:138-143 | a nil id reports `NilPolicyID` and commits nothing; otherwise the store becomes `PolicyRemoved` |
| `Syncher.ProcessWorkloadEndpointUpdate` | syncher/syncserver.go:145-153 | the endpoint becomes the one sent (nil included); only the endpoint may change |
| `Syncher.ProcessWorkloadEndpointRemove` | syncher/syncserver.go:155-163 | the endpoint becomes nil; only the endpoint may change |
| `Syncher.Apply` | syncher/syncserver.go:60-83 | the dispatcher on store contents: the in-sync marker and a payload matching no case leave the contents as they were; a failure is only ever `UnknownIPSet` of a delta update's id, `NilProfileID` from a profile message or `NilPolicyID` from a policy message |
| `Syncher.Replay` | syncher/syncserver.go:48-54 | the in-order left fold of `Apply` over the received messages: no messages leave the contents as they were, and a failure names the index of a message of the stream |
| `Syncher.ProcessUpdate` | syncher/syncserver.go:60-83 | the store ends as `Apply` of the message says, or, on a protocol violation, reports it and keeps its old contents |
| `Syncher.Sync` | syncher/syncserver.go:48-54 | applying the received messages in order, each under the write lock, leaves the store equal to the left fold `Replay` over them; it stops at the first violation with that message's index and error and the contents committed before it; no lock is held at the end |
| `Syncher.ReplayKeepsFailure` | syncher/syncserver.go:48-54 | once a prefix of the stream has failed, nothing after it is applied: the whole replay is that failure |
| `SyncherProperties.AddStringsIsUnion` | syncher/syncserver.go:95-97 | adding members one at a time gives the old members united with all of them, type unchanged |
| `SyncherProperties.RemoveStringsIsDifference` | syncher/syncserver.go:108-110 | removing members one at a time gives the old members minus all of them, type unchanged |
| `SyncherProperties.IPSetUpdateOfKnownSet` | syncher/syncserver.go:90-98 | a full update of a known set leaves it holding old members plus the new ones (no prior member removed), same type; other sets and fields unchanged |
| `SyncherProperties.IPSetUpdateOfUnknownSet` | syncher/syncserver.go:91-97 | a full update for an id not in the map leaves the store unchanged, as the new set is never stored |
| `SyncherProperties.IPSetDeltaUpdateEffect` | syncher/syncserver.go:100-111 | fails exactly when the id is unknown; otherwise the set is (old + added) - removed, a member both added and removed ends absent, other sets and fields unchanged |
| `SyncherProperties.IPSetRemoveEffect` | syncher/syncserver.go:113-115 | deletes that key only; other sets and fields unchanged; removing an absent id is a no-op |
| `SyncherProperties.ProfileUpdateEffect` | syncher/syncserver.go:117-122 | fails exactly on a nil id; otherwise the key holds exactly the payload sent, other keys and fields unchanged |
| `SyncherProperties.ProfileRemoveEffect` | syncher/syncserver.go:124-129 | fails exactly on a nil id; otherwise deletes that key only; an absent key is a no-op |
| `SyncherProperties.PolicyUpdateEffect` | syncher/syncserver.go:131-136 | fails exactly on a nil id; otherwise the key holds exactly the payload sent, other keys and fields unchanged |
| `SyncherProperties.PolicyRemoveEffect` | syncher/syncserver.go:138-143 | fails exactly on a nil id; otherwise deletes that key only; an absent key is a no-op |
| `SyncherProperties.EndpointEffect` | syncher/syncserver.go:145-163 | an endpoint update sets the endpoint to the one sent, a remove sets it to nil; neither touches the three maps |
| `SyncherProperties.ApplyRoutesToOneHandler` | syncher/syncserver.go:60-83 | each message changes at most the part of the store its variant's handler owns; the in-sync marker and an unmatched payload change nothing; a message fails exactly on the three violations |
| `SyncherProperties.ApplyIsIdempotent` | syncher/syncserver.go:60-163 | applying a successful message a second time changes nothing more |
| `SyncherProperties.ProfileUpsertLastWriteWins` | syncher/syncserver.go:117-122 | of two upserts of one profile, the result is that of the later one alone |
| `SyncherProperties.PolicyUpsertLastWriteWins` | syncher/syncserver.go:131-136 | of two upserts of one policy, the result is that of the later one alone |
| `SyncherProperties.ReplayStep` | syncher/syncserver.go:48-54 | helper for `ReplayConcat`: `Replay`'s defining step, for a stream written as the messages so far plus one more |
| `SyncherProperties.ReplayFailureIsPrefix` | syncher/syncserver.go:48-54 | on failure, the state reported is what the messages before the failing one committed, and that message is rejected on it |
| `SyncherProperties.ReplayConcat` | syncher/syncserver.go:48-54 | replaying two streams one after the other equals replaying their concatenation |
| `SyncherProperties.EndpointLifecycle` | syncher/syncserver.go:145-163 | after an endpoint update the store shows that endpoint; after a following remove it shows none |
| `IPSetFinding.FreshStoreNeverHoldsIPSets` | syncher/syncserver.go:90-115 | as written, a store that starts empty holds no IP set after any stream of messages |
| `IPSetFinding.DeltaAfterFreshStartFails` | syncher/syncserver.go:100-104 | as written, from an empty store every delta update is rejected as one for an unknown set |
| `IPSetFinding.RepeatedFullUpdateLeavesNoSet` | syncher/syncserver.go:90-98 | as written, full updates {A,B} then {B,C} of one set on an empty store leave no set at all |
| `IPSetFinding.IPSetUpdatedCorrected` | syncher/syncserver.go:90-98 | corrected: the set, old or new with the message's type, holds its old members plus the new ones and is stored under its id; nothing else changes |
| `IPSetFinding.ProcessIPSetUpdateCorrected` | syncher/syncserver.go:90-98 | the corrected handler, adding the members one by one, gives `IPSetUpdatedCorrected` |
| `IPSetFinding.CorrectedFullUpdateEnablesDelta` | syncher/syncserver.go:90-111 | corrected: after a full update of a set, a delta update of that set is accepted |
| `IPSetFinding.CorrectedRepeatedFullUpdateIsUnion` | syncher/syncserver.go:90-98 | corrected: full updates {A,B} then {B,C} of one set on an empty store leave it holding {A,B,C} |

## Left out

- Dialling the sync server, opening the stream and receiving from it (syncher/syncserver.go:27-47, 49-51), and the `syncClient` value with its target and dial options: network I/O. The messages received are a parameter of `Sync`; a dial or stream-open failure, which stops the process before any message, is not modelled.
- The context passed to `Sync` is not a parameter of the model: the stream is opened with it (syncher/syncserver.go:44), so cancelling it makes the next receive fail, and the loop stops as for a broken connection (lines 49-51). That case is the model's `ConnectionBroken`, reached after the messages received before the cancellation.
- `log.Fatal`: stopping the process is replaced by returning a `ProtocolError` or a `Termination`.
- Logging (syncher/syncserver.go:147-151, 157-161).
- What `sync.RWMutex` does between goroutines: blocking, fairness and mutual exclusion across threads. Only which locks are held is modelled, as ghost state, and lock operations require the lock to be free rather than waiting for it.
- The internals of IP sets: how the type tag interprets a member string (address, address and port, network). A set is its type tag and a set of member strings.
- The contents of policies, profiles and endpoints: they are stored and replaced whole, kept as opaque encoded bytes.
- Sharing: in Go the map holds a reference to each IP set and the handler changes that set in place. The model holds IP sets as values and writes the changed set back under its id, which is the same as long as no two ids share one set, and nothing in this code makes them share.
- Store.PolicyStore.Write: the callback is a function from contents to contents, not a procedure that changes the store, so `Sync` takes and releases the lock around `ProcessUpdate` itself instead of passing it to `Write`; a callback that panics (leaving the lock held in the source) is not modelled.
- Store.PolicyStore.Read: the callback is a function of the contents, so it cannot change the store; a callback that does change it, or panics, is not modelled.

## Findings

| source | as written | input that shows it | evidently intended | confidence | as-written member | corrected member |
|---|---|---|---|---|---|---|
| syncher/syncserver.go:90-98 | for an id not in the map, a new IP set is made and filled but never stored; since nothing else stores a set, the IP-set map of a store that starts empty stays empty and every delta update stops the process | on an empty store, full update of "S" with {A, B}, then full update of "S" with {B, C}: no set "S" exists afterwards | the new set is stored under its id, so "S" holds {A, B, C} and a later delta update of "S" is accepted | high; not executed | `IPSetFinding.RepeatedFullUpdateLeavesNoSet` | `IPSetFinding.IPSetUpdatedCorrected` |

The rest of the model (`Syncher.Apply`, `Syncher.ProcessUpdate`, `Syncher.Sync`) keeps the
behaviour as written; `IPSetFinding` gives the corrected handler and what it guarantees.
