/**
 * The root reducer: `combineReducers` over the `auth` slice and the two RTK
 * Query API slices (`authApi`, `tagApi`), wrapped so that the sentinel action
 * type `RESET_STORE` throws the whole previous state away before delegating.
 *
 * The API slices are opaque: each is a reducer passed in as a function
 * from its (possibly absent) previous state and the action to its next state.
 */
module RootReducer {
  import opened Js
  import opened AuthSlice

  const ResetSentinel := "RESET_STORE"

  /** The combined state `{ auth, authApi, tagApi }`. */
  datatype RootState<A, B> = RootState(auth: AuthState, authApi: A, tagApi: B)

  /** `combineReducers`: every slice reducer gets its own part of the state, or nothing. */
  function AppReducer<A, B>(state: Option<RootState<A, B>>, action: Action,
                            authApi: (Option<A>, Action) -> A,
                            tagApi: (Option<B>, Action) -> B): (r: RootState<A, B>)
    ensures r.auth == Reduce(if state.Some? then Some(state.value.auth) else None, action)
    ensures r.authApi == authApi(if state.Some? then Some(state.value.authApi) else None, action)
    ensures r.tagApi == tagApi(if state.Some? then Some(state.value.tagApi) else None, action)
  {
    match state
    case None => RootState(Reduce(None, action), authApi(None, action), tagApi(None, action))
    case Some(s) => RootState(Reduce(Some(s.auth), action), authApi(Some(s.authApi), action), tagApi(Some(s.tagApi), action))
  }

  /** `rootReducer(state, action)`: `state = undefined` on the sentinel, then `appReducer(state, action)`. */
  function Root<A, B>(state: Option<RootState<A, B>>, action: Action,
                      authApi: (Option<A>, Action) -> A,
                      tagApi: (Option<B>, Action) -> B): (r: RootState<A, B>)
    ensures action.kind == ResetSentinel ==>
      r == RootState(InitialState, authApi(None, action), tagApi(None, action))
    ensures action.kind != ResetSentinel ==> r == AppReducer(state, action, authApi, tagApi)
  {
    var s := if action.kind == ResetSentinel then None else state;
    AppReducer(s, action, authApi, tagApi)
  }

  /** The sentinel yields `appReducer(undefined, action)`, so the prior state is irrelevant. */
  lemma ResetForgetsPriorState<A, B>(s1: Option<RootState<A, B>>, s2: Option<RootState<A, B>>, action: Action,
                                     authApi: (Option<A>, Action) -> A, tagApi: (Option<B>, Action) -> B)
    requires action.kind == ResetSentinel
    ensures Root(s1, action, authApi, tagApi) == AppReducer(None, action, authApi, tagApi)
    ensures Root(s1, action, authApi, tagApi) == Root(s2, action, authApi, tagApi)
  {
  }

  /** Every other action type is delegated with the state untouched. */
  lemma OtherActionsDelegate<A, B>(s: Option<RootState<A, B>>, action: Action,
                                   authApi: (Option<A>, Action) -> A, tagApi: (Option<B>, Action) -> B)
    requires action.kind != ResetSentinel
    ensures Root(s, action, authApi, tagApi) == AppReducer(s, action, authApi, tagApi)
  {
  }

  /** After the sentinel the `auth` part is the slice's initial state. */
  lemma ResetRestoresInitialAuth<A, B>(s: Option<RootState<A, B>>, action: Action,
                                       authApi: (Option<A>, Action) -> A, tagApi: (Option<B>, Action) -> B)
    requires action.kind == ResetSentinel
    ensures Root(s, action, authApi, tagApi).auth == InitialState
  {
  }

  /** Applying the sentinel twice is the same as applying it once. */
  lemma ResetIdempotent<A, B>(s: Option<RootState<A, B>>, action: Action,
                              authApi: (Option<A>, Action) -> A, tagApi: (Option<B>, Action) -> B)
    requires action.kind == ResetSentinel
    ensures var once := Root(s, action, authApi, tagApi);
      Root(Some(once), action, authApi, tagApi) == once
  {
  }

  /**
   * Only the exact string `RESET_STORE` is intercepted: the slice's own
   * `resetStore()` (type `auth/resetStore`) reaches the API slices with their
   * previous state, and only the `auth` part returns to its initial state.
   */
  lemma SliceResetIsNotTheSentinel<A, B>(s: RootState<A, B>,
                                         authApi: (Option<A>, Action) -> A, tagApi: (Option<B>, Action) -> B)
    ensures var r := Root(Some(s), ResetStoreAction(), authApi, tagApi);
      && r == AppReducer(Some(s), ResetStoreAction(), authApi, tagApi)
      && r.auth == InitialState
      && r.authApi == authApi(Some(s.authApi), ResetStoreAction())
      && r.tagApi == tagApi(Some(s.tagApi), ResetStoreAction())
  {
  }
}
