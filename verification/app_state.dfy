/** Loading, saving and clearing the dapp's application state
    (snap/dapp/src/store/state.ts) in a remote store keyed by identity. */
module AppStateStore {

  /** A key share kept for a wallet address; the share itself is opaque key material. */
  datatype KeyShare = KeyShare(address: string, name: string, share: string)

  /** `AppState`: the key shares, and the message proofs and transaction
      receipts keyed by their identifiers (both opaque here). */
  datatype AppState = AppState(keyShares: seq<KeyShare>,
                               messageProofs: map<string, string>,
                               transactionReceipts: map<string, string>)

  /** What fetching the state yields: a stored value, `null`, or `undefined`
      (the last when the response carries no data at all). */
  datatype Reply = Null | Undefined | Data(state: AppState)

  /** The participant identity a state is stored under. */
  type Identity = string

  /** The one identity the dapp reads and writes. */
  const StateIdentity: Identity := "magiclink.ekino@gmail.com"

  /** `getDefaultAppState`. */
  function DefaultAppState(): (s: AppState)
    ensures IsEmpty(s)
  {
    AppState([], map[], map[])
  }

  /** An application state holding no key share, proof or receipt. */
  predicate IsEmpty(s: AppState) {
    s.keyShares == [] && s.messageProofs == map[] && s.transactionReceipts == map[]
  }

  /** The `!== null` test of `loadStateData`: `null` becomes the default empty
      state; anything else, `undefined` included, is passed through. */
  function OrDefault(reply: Reply): (r: Reply)
    ensures r != Null
    ensures reply != Null ==> r == reply
    ensures reply == Null ==> r.Data? && IsEmpty(r.state)
  {
    if reply != Null then reply else Data(DefaultAppState())
  }

  /** The store answers with what was last saved under `id`, and `null` when
      nothing was. */
  function Lookup(states: map<Identity, AppState>, id: Identity): (r: Reply)
    ensures r != Undefined
    ensures r.Data? <==> id in states
    ensures r.Data? ==> r.state == states[id]
  {
    if id in states then Data(states[id]) else Null
  }

  /** The remote store: the latest state saved under each identity. */
  class RemoteStore {
    var states: map<Identity, AppState>

    /** A store in which nothing has been saved yet. */
    constructor ()
      ensures states == map[]
    {
      states := map[];
    }

    /** `setStateFromMagic`: replace the state saved under `id`. */
    method SetState(id: Identity, value: AppState)
      modifies this
      ensures states == old(states)[id := value]
    {
      states := states[id := value];
    }
  }

  /** `loadStateData`: fetch the state saved under the dapp's identity, reading
      a missing one as the default empty state, and write nothing. */
  method LoadStateData(store: RemoteStore) returns (r: Reply)
    ensures r == OrDefault(Lookup(store.states, StateIdentity))
    ensures r != Null
    ensures StateIdentity in store.states ==> r == Data(store.states[StateIdentity])
    ensures StateIdentity !in store.states ==> r.Data? && IsEmpty(r.state)
  {
    var reply := Lookup(store.states, StateIdentity);
    if reply != Null {
      return reply;
    }
    r := Data(DefaultAppState());
  }

  /** `saveStateData`: store `appState` verbatim under the dapp's identity. */
  method SaveStateData(store: RemoteStore, appState: AppState)
    modifies store
    ensures store.states == old(store.states)[StateIdentity := appState]
  {
    store.SetState(StateIdentity, appState);
  }

  /** `clearStateData`: store the default empty state under the dapp's identity. */
  method ClearStateData(store: RemoteStore)
    modifies store
    ensures store.states == old(store.states)[StateIdentity := DefaultAppState()]
  {
    store.SetState(StateIdentity, DefaultAppState());
  }

  /** Before any save, loading yields the default empty state. */
  lemma LoadBeforeSave(states: map<Identity, AppState>)
    requires StateIdentity !in states
    ensures OrDefault(Lookup(states, StateIdentity)) == Data(DefaultAppState())
  {
  }

  /** Saving then loading returns exactly what was saved. */
  lemma LoadAfterSave(states: map<Identity, AppState>, appState: AppState)
    ensures OrDefault(Lookup(states[StateIdentity := appState], StateIdentity)) == Data(appState)
  {
  }

  /** Clearing then loading returns a state with every collection empty. */
  lemma LoadAfterClear(states: map<Identity, AppState>)
    ensures var r := OrDefault(Lookup(states[StateIdentity := DefaultAppState()], StateIdentity));
            r.Data? && IsEmpty(r.state)
  {
  }

  /** A save and a load touch only the dapp's identity: every other identity's
      state is as it was. */
  lemma SaveLeavesOtherIdentities(states: map<Identity, AppState>, appState: AppState, other: Identity)
    requires other != StateIdentity
    ensures Lookup(states[StateIdentity := appState], other) == Lookup(states, other)
  {
  }
}
