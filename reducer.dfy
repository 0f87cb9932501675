/**
 * The global store's reducer (store/reducer.ts): `SET_USER` replaces the
 * user, `PURGE_STATE` returns the initial state, any other action type is
 * ignored.
 */
module Store {
  import opened Wrappers

  /** The signed-in user, as far as this model needs it. */
  datatype User = User(id: string, walletPublicKey: string, discordName: string, verified: bool, isOG: bool)

  /** GlobalStateInterface. */
  datatype GlobalState = GlobalState(user: Option<User>, persistenceType: string)

  /** ActionType: a type tag and an optional payload. */
  datatype Action = Action(kind: string, payload: Option<User>)

  const SetUser: string := "SET_USER"
  const PurgeState: string := "PURGE_STATE"

  /** The reducer; `initialState` is the store's starting value. */
  function Reduce(state: GlobalState, action: Action, initialState: GlobalState): (r: GlobalState)
    ensures action.kind == SetUser ==>
      r.user == action.payload && r.persistenceType == state.persistenceType
    ensures action.kind == PurgeState ==> r == initialState
    ensures action.kind != SetUser && action.kind != PurgeState ==> r == state
  {
    if action.kind == SetUser then state.(user := action.payload)
    else if action.kind == PurgeState then initialState
    else state
  }

  /** Every action is idempotent: dispatching it twice is dispatching it once. */
  lemma ReduceIdempotent(state: GlobalState, action: Action, initialState: GlobalState)
    ensures Reduce(Reduce(state, action, initialState), action, initialState) == Reduce(state, action, initialState)
  {
  }

  /** `PURGE_STATE` forgets the state it is applied to. */
  lemma PurgeIgnoresState(s1: GlobalState, s2: GlobalState, payload: Option<User>, initialState: GlobalState)
    ensures Reduce(s1, Action(PurgeState, payload), initialState) == Reduce(s2, Action(PurgeState, payload), initialState)
  {
  }

  /** Two `SET_USER` actions in a row: only the last payload matters. */
  lemma SetUserLastWins(state: GlobalState, u1: Option<User>, u2: Option<User>, initialState: GlobalState)
    ensures Reduce(Reduce(state, Action(SetUser, u1), initialState), Action(SetUser, u2), initialState)
         == Reduce(state, Action(SetUser, u2), initialState)
  {
  }

  /** `SET_LANDING`, dispatched by the navigation bar, has no case in the reducer and leaves the state alone. */
  lemma SetLandingIgnored(state: GlobalState, payload: Option<User>, initialState: GlobalState)
    ensures Reduce(state, Action("SET_LANDING", payload), initialState) == state
  {
  }
}
