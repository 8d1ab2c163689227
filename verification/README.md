# Session bookkeeping of the threshold-signature coordination server, and the dapp's state store

This project models two small cores of a multi-party threshold-signature system in Dafny.

**The coordination server** (`library/src/server.rs`, module `Server` in `server.dfy`) keeps its
shared `State` in two collections. `clients` holds the connected websocket clients. `groups` holds
the groups of clients by UUID. A group holds its client list and its key-generation and signing
sessions. Each session holds `party_signups`, the ordered list of (party number, connection) pairs.
The model covers:

- issuing party numbers (`Session::signup`) and re-admitting persisted ones (`Session::load`) with its
  three checks;
- the constructors and defaults (`Parameters::default`, `Group::new`, `Session::from`,
  `Session::default`);
- `client_disconnected`: the connection leaves every group once, and groups left empty are deleted;
- the choice of the connections a `Notification` is sent to (`filter_clients`, and the client-list
  computation in `rpc_notify`), together with the check `rpc_response` makes that a connection still
  has a sender.

`Session` is a class, because `signup` and `load` push onto its list in place. `State` is a class
whose `groups` map is reassigned by the two passes of `client_disconnected`. `Group` is a value
whose `sessions` map refers to `Session` objects. Party numbers, party counts and thresholds are a
`uint16` newtype. Connection identifiers (`usize`) are `nat`. UUIDs are opaque values supplied by
the caller.

**The dapp's application-state store** (`snap/dapp/src/store/state.ts`, module `AppStateStore` in
`app_state.dfy`) loads, saves and clears the `AppState` (key shares, message proofs, transaction
receipts) under one fixed identity in a remote store. The remote store is a class holding the last
state saved per identity. A fetch yields that state, or `null` when nothing was saved. The `!== null`
test is modelled with a separate `Undefined` reply, which is passed through unchanged as the
source does.

`wrappers.dfy` holds the `Option` and `Result` datatypes used for Rust's `Option` and `Result`.

## Model

| member | source | states |
|---|---|---|
| `Server.DefaultParameters` | library/src/server.rs:74-81 | The default is 3 parties with threshold 1, so the threshold + 1 signers needed fit within the parties. |
| `Server.Session.constructor` | library/src/server.rs:161-170 | `Session::from(kind)` creates a session with the given kind and fresh uuid, no sign-ups and nothing finished. |
| `Server.Session.Default` | library/src/server.rs:150-159 | The default session is a key-generation session with no sign-ups and nothing finished. |
| `Server.Session.Signup` | library/src/server.rs:177-187 | Returns 1 on an empty list, otherwise the last entry's number + 1. Appends exactly `(num, conn)` at the end and leaves every earlier entry unchanged. |
| `Server.SignupKeepsAscending` | library/src/server.rs:178-186 | When the numbers already increase along the list, the issued number is unused and the list stays strictly increasing, so numbers stay unique. |
| `Server.SignupAfterLoadsCanRepeat` | library/src/server.rs:178-185 | Because `signup` uses the last entry and not the largest, loading 3 and then 1 makes the second following `signup` issue 3 again, which is a duplicate. |
| `Server.LoadCheck` | library/src/server.rs:199-213 | The checks run in order: zero gives `ZeroPartyNumber`, then above `parties` gives `PartyNumberOutOfRange`, then already present gives `PartyNumberAlreadyExists` with this session's uuid. Success exactly when all three pass. |
| `Server.Session.Load` | library/src/server.rs:193-216 | Returns the outcome of those checks. Appends `(party_number, conn)` on success and leaves the list unchanged on any error. |
| `Server.LoadKeepsRegistry` | library/src/server.rs:199-215 | If the numbers were distinct and within 1..parties before `load`, they still are after it. `load` succeeds exactly when appending the number keeps that so. |
| `Server.Position` | library/src/server.rs:596-597 | `position` returns the index of the first occurrence, or none exactly when the id is absent. |
| `Server.RemoveFirst` | library/src/server.rs:596-600 | `position` then `remove` leaves the list unchanged when the id is absent, and makes it exactly one element shorter when the id is present. |
| `Server.RemoveFirstDropsOne` | library/src/server.rs:596-600 | `position` then `remove` takes out exactly one copy of the id when present. It keeps all other ids with their multiplicities, keeps their order, and changes nothing when the id is absent. |
| `Server.PrunedGroups` | library/src/server.rs:602-614 | After a disconnect, no group with an empty client list remains, and no group is added. |
| `Server.DisconnectOneGroup` | library/src/server.rs:595-614 | A group survives exactly when it had a client besides one copy of the id. A survivor lost only that copy and kept its sessions (and their sign-ups), parameters and label. A non-empty group without the id is unchanged. |
| `Server.NewGroup` | library/src/server.rs:121-129 | `Group::new(conn, params, label)` has `[conn]` as its only client and no sessions, and keeps the given uuid, parameters and label. |
| `Server.NewGroupLifetime` | library/src/server.rs:121-129 | A group made by `Group::new(conn, ..)` is deleted when `conn` disconnects and is unchanged when anyone else does. |
| `Server.State.constructor` | library/src/server.rs:314-318 | The server starts with no clients and no groups. |
| `Server.State.ClientDisconnected` | library/src/server.rs:584-615 | Removes the id from `clients` and leaves every other client. The groups become `PrunedGroups` of the old groups. Session objects are not modified. |
| `Server.State.DetachEverywhere` | library/src/server.rs:591-606 | The first pass removes the first occurrence of the id from every group and lists exactly the groups it left empty. |
| `Server.State.RemoveGroups` | library/src/server.rs:609-614 | The second pass deletes exactly the listed groups and leaves the others as they were. |
| `Server.PruneInTwoPasses` | library/src/server.rs:589-614 | Detaching everywhere and then deleting the groups left empty is the same as `PrunedGroups`. |
| `Server.Without` | library/src/server.rs:501-505 | The filtered list contains exactly the ids of the list that are not in the filter, and is no longer. |
| `Server.FilterClients` | library/src/server.rs:497-509 | With no filter the list is returned unchanged. With a filter, an id is kept exactly when it is in the list and not in the filter, so the result is disjoint from the filter. |
| `Server.WithoutAppend` | library/src/server.rs:501-505 | Filtering a concatenation is concatenating the filtered parts, so the kept ids stay in their original order. |
| `Server.WithoutCount` | library/src/server.rs:501-505 | An id not in the filter keeps all its occurrences. An id in the filter keeps none. |
| `Server.WithoutIdempotent` | library/src/server.rs:501-505 | Removing the same filter twice is removing it once. |
| `Server.FilterClientsIdempotent` | library/src/server.rs:497-509 | `filter_clients` applied twice with the same filter equals applying it once. |
| `Server.SignupConns` | library/src/server.rs:539 | The session's connection ids, one per sign-up, in sign-up order. |
| `Server.Audience` | library/src/server.rs:520-548 | A group broadcast addresses the group's clients. A session broadcast addresses the connections of `party_signups` in sign-up order. A missing group, or a missing session, addresses the placeholder `[0]`. |
| `Server.Recipients` | library/src/server.rs:514-561 | `Noop` reaches nobody. `Relay` reaches the listed ids in order. A broadcast reaches its audience minus the filter, and reaches the whole audience in order when there is no filter. |
| `Server.Delivered` | library/src/server.rs:571-581 | A message is handed to a connection exactly when that connection is still in `clients`. |
| `Server.UnknownTargetReachesNobody` | library/src/server.rs:537-548 | A broadcast to a missing group or session is computed as `[0]` minus the filter. Since no client is ever numbered 0, it is delivered to nobody. |
| `AppStateStore.DefaultAppState` | snap/dapp/src/store/state.ts:7-13 | The default state has no key shares, no message proofs and no transaction receipts. |
| `AppStateStore.OrDefault` | snap/dapp/src/store/state.ts:26-32 | The result is never `null`. `null` becomes an empty state. Anything else, `undefined` included, is returned unchanged. |
| `AppStateStore.Lookup` | snap/dapp/src/store/state.ts:15-18 | A fetch answers `Data(s)` exactly when a state `s` was saved under the identity, and `null` otherwise. A map-like store never answers `undefined`. |
| `AppStateStore.RemoteStore.SetState` | snap/dapp/src/services/auth.service.ts:42-47 | A write replaces the state stored under the given identity and nothing else. |
| `AppStateStore.LoadStateData` | snap/dapp/src/store/state.ts:25-33 | Returns `OrDefault` of the store's answer: the stored state verbatim when there is one, otherwise an empty state. It never returns `null` and writes nothing. |
| `AppStateStore.SaveStateData` | snap/dapp/src/store/state.ts:35-37 | Stores exactly its argument under the fixed identity. |
| `AppStateStore.ClearStateData` | snap/dapp/src/store/state.ts:39-41 | Stores the default empty state under the fixed identity. |
| `AppStateStore.LoadBeforeSave` | snap/dapp/src/store/state.ts:25-33 | Before any save, loading gives the default state: no key shares, proofs or receipts. |
| `AppStateStore.LoadAfterSave` | snap/dapp/src/store/state.ts:20-37 | A save followed by a load returns exactly the saved state. |
| `AppStateStore.LoadAfterClear` | snap/dapp/src/store/state.ts:7-41 | A clear followed by a load returns a state whose three collections are empty. |
| `AppStateStore.SaveLeavesOtherIdentities` | snap/dapp/src/store/state.ts:20-23 | A save under the fixed identity leaves what any other identity reads unchanged. |

## Left out

- Server.Session.Signup: requires the last party number to be below 65535. In the source, `num + 1` on a `u16` panics in a debug build and wraps to 0 in a release build. Neither is modelled.
- Server.Recipients: returns only the connection ids, in sending order. The response each connection receives is not modelled: the notification's one response for a broadcast, or the listed one for a relay.
- AppStateStore.Lookup: a fetch always succeeds here; a rejected request is not modelled. It also assumes the store answers `null` for an identity with nothing saved. The store server is not part of this model. The `undefined` reply is handled by `OrDefault`, but a map-like store never produces it.
- AppStateStore.RemoteStore.SetState: the write always happens. In the source, `setStateFromMagic` is an HTTP request that can reject on a network failure or an error status. The model does not capture that failure, nor whether the write took effect.
- AppStateStore.LoadStateData: always returns a reply. In the source, a rejected fetch propagates to the caller as an error instead of a state. That path is not modelled.
- AppStateStore.SaveStateData: always stores its argument. In the source, a rejected write propagates to the caller as an error, and whether the store was updated is unknown. That path is not modelled.
- AppStateStore.ClearStateData: always stores the default state. In the source, a rejected write propagates to the caller as an error, and whether the store was updated is unknown. That path is not modelled.
- Server.State.ClientDisconnected: runs as one atomic step. In the source the write lock is taken twice (server.rs lines 591 and 610) and released in between. A client that joins a listed group between the two passes is deleted with the group. `groups == PrunedGroups(old(groups), conn)` does not capture that interleaving.
- `Server::start` (routing, logging, environment variables, static-file paths) and the websocket plumbing of `client_connected` (socket split, send task, close flag) are I/O. They are not modelled.
- The connection-id counter and the `RwLock`/`Mutex` wrappers exist for concurrency. Connection ids are given as inputs, and each operation is modelled as one atomic step.
- `rpc_request`'s JSON-RPC dispatch to the service handler is not modelled, because that handler is not part of this model. `rpc_response`'s serialisation and channel send are I/O. Only its lookup of the connection's sender is modelled (`Delivered`).
- `State.notification` is not modelled: `rpc_request` keeps the pending notification in a local instead.
- `Session.finished` is declared and initialised empty. No modelled code updates it.
- The `ServerError` variants for I/O, address parsing and JSON-RPC are not modelled.
- The identity service calls (`isActiveUser`, `deactivateUser`, `sendEmail`, `getUserInfos`) and all UI components are outside the store core.
- The `label` field of a group is named `name` in the model, because `label` is a reserved word in Dafny.
- `AppState`'s key-share entries are modelled as a list of `KeyShare` values, as the default `[]` in `state.ts` suggests. The `types` module that defines them is not part of this model.
- Neither source file has the session phase machine, quorum timeouts, "one active session per address" rejection, or serialised per-identity writes, so none of them is modelled.
