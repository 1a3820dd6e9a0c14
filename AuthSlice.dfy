/**
 * The authentication slice of the client store: the signed-in user (any
 * value, or null) and a loading flag, changed by two reducers. The draft
 * updates of the reducers are modelled as state-to-state functions.
 */
module AuthSlice {
  import opened Wrappers

  datatype AuthState<U> = AuthState(user: Option<U>, isLoading: bool)

  /** Before anything is known: no user, still loading. */
  function InitialState<U>(): (s: AuthState<U>)
    ensures s.user.None? && s.isLoading
  {
    AuthState(None, true)
  }

  /** Records the user (or its absence) and always ends loading. */
  function SetUser<U>(state: AuthState<U>, payload: Option<U>): (s: AuthState<U>)
    ensures s.user == payload && !s.isLoading
  {
    state.(user := payload, isLoading := false)
  }

  /** Sets the loading flag and leaves the user as it is. */
  function SetLoading<U>(state: AuthState<U>, payload: bool): (s: AuthState<U>)
    ensures s.isLoading == payload && s.user == state.user
  {
    state.(isLoading := payload)
  }

  /** The two actions the slice exports. */
  datatype Action<U> = SetUserAction(user: Option<U>) | SetLoadingAction(loading: bool)

  /** The slice's reducer: dispatches on the action. */
  function Reduce<U>(state: AuthState<U>, action: Action<U>): (s: AuthState<U>)
    ensures action.SetUserAction? ==> s.user == action.user && !s.isLoading
    ensures action.SetLoadingAction? ==> s.isLoading == action.loading && s.user == state.user
  {
    match action
    case SetUserAction(u) => SetUser(state, u)
    case SetLoadingAction(b) => SetLoading(state, b)
  }

  /** The state after dispatching `actions` in order. */
  function Run<U>(state: AuthState<U>, actions: seq<Action<U>>): (s: AuthState<U>)
    ensures actions == [] ==> s == state
    ensures actions != [] ==>
              s.isLoading == (actions[|actions| - 1].SetLoadingAction? && actions[|actions| - 1].loading)
  {
    if actions == [] then state else Reduce(Run(state, actions[..|actions| - 1]), actions[|actions| - 1])
  }

  /** The payload of the last `setUser` among `actions`, if there is one. */
  function LastUser<U>(actions: seq<Action<U>>): Option<Option<U>>
  {
    if actions == [] then None
    else if actions[|actions| - 1].SetUserAction? then Some(actions[|actions| - 1].user)
    else LastUser(actions[..|actions| - 1])
  }

  /**
   * The user is that of the last `setUser`; `setLoading` never changes it, so
   * with no `setUser` at all the user is still the starting one.
   */
  lemma {:induction false} RunUser<U>(state: AuthState<U>, actions: seq<Action<U>>)
    ensures Run(state, actions).user == if LastUser(actions).Some? then LastUser(actions).value else state.user
  {
    if actions != [] {
      RunUser(state, actions[..|actions| - 1]);
    }
  }

  /**
   * From the initial state, loading ends exactly when a `setUser` or a
   * `setLoading(false)` is the latest action.
   */
  lemma RunLoadingFromInitial<U>(actions: seq<Action<U>>)
    ensures Run(InitialState<U>(), actions).isLoading <==>
              actions == [] || actions[|actions| - 1] == SetLoadingAction(true)
  {
  }
}
