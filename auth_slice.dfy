/**
 * The `auth` slice of the Redux store: `{token, isLogin}` with the three
 * reducers `setToken`, `clearToken` and `resetStore`.
 *
 * The slice's case reducers write into an Immer draft (`AuthDraft` below);
 * `Reduce` is the slice reducer seen from outside, as a function from the
 * previous state and an action to the next state.
 */
module AuthSlice {
  import opened Js

  /** A Redux action: its `type` string and its (possibly missing) payload. */
  datatype Action = Action(kind: string, payload: Option<string>)

  /** `token: string | null` (a missing payload is `None`), `isLogin: boolean`. */
  datatype AuthState = AuthState(token: Option<string>, isLogin: bool)

  const InitialState := AuthState(Some(""), false)

  /** Action types generated by `createSlice({ name: 'auth', ... })`. */
  const SetTokenType := "auth/setToken"
  const ClearTokenType := "auth/clearToken"
  const ResetStoreType := "auth/resetStore"

  /** The action creators: `setToken(t)`, `clearToken()`, `resetStore()`. */
  function SetTokenAction(t: Option<string>): Action { Action(SetTokenType, t) }
  function ClearTokenAction(): Action { Action(ClearTokenType, None) }
  function ResetStoreAction(): Action { Action(ResetStoreType, None) }

  /**
   * The slice reducer: an absent state starts from `initialState`; an action
   * of one of the three types runs its case reducer; any other action leaves
   * the state as it is.
   */
  function Reduce(state: Option<AuthState>, action: Action): (r: AuthState)
    ensures action.kind == SetTokenType ==> r == AuthState(action.payload, true)
    ensures action.kind == ClearTokenType ==> r == AuthState(Some(""), false)
    ensures action.kind == ResetStoreType ==> r == InitialState
    ensures action.kind !in {SetTokenType, ClearTokenType, ResetStoreType} ==>
      r == if state.Some? then state.value else InitialState
    ensures r.isLogin <==>
      action.kind == SetTokenType ||
      (action.kind !in {ClearTokenType, ResetStoreType} && state.Some? && state.value.isLogin)
  {
    var s := if state.Some? then state.value else InitialState;
    if action.kind == SetTokenType then s.(token := action.payload, isLogin := true)
    else if action.kind == ClearTokenType then s.(token := Some(""), isLogin := false)
    else if action.kind == ResetStoreType then InitialState
    else s
  }

  /** `setToken(t)` stores `t` and sets `isLogin`, whatever the previous state. */
  lemma SetTokenLogsIn(s: Option<AuthState>, t: Option<string>)
    ensures Reduce(s, SetTokenAction(t)) == AuthState(t, true)
  {
  }

  /** `isLogin` is not derived from the token: `setToken('')` still logs in. */
  lemma EmptyTokenStillLogsIn(s: Option<AuthState>)
    ensures var r := Reduce(s, SetTokenAction(Some("")));
      r.isLogin && r.token == InitialState.token
  {
  }

  /** `clearToken` empties the token and logs out from any state, and is idempotent. */
  lemma ClearTokenLogsOut(s: Option<AuthState>)
    ensures Reduce(s, ClearTokenAction()) == AuthState(Some(""), false)
    ensures Reduce(Some(Reduce(s, ClearTokenAction())), ClearTokenAction()) == Reduce(s, ClearTokenAction())
  {
  }

  /** `resetStore` returns `initialState` regardless of the prior state. */
  lemma ResetStoreIsInitial(s: Option<AuthState>)
    ensures Reduce(s, ResetStoreAction()) == InitialState
  {
  }

  /** `clearToken` and `resetStore` agree on every state. */
  lemma ClearTokenMatchesReset(s: Option<AuthState>)
    ensures Reduce(s, ClearTokenAction()) == Reduce(s, ResetStoreAction())
  {
  }

  /** An action of a foreign type leaves a present state untouched. */
  lemma ForeignActionKeepsState(s: AuthState, a: Action)
    requires a.kind !in {SetTokenType, ClearTokenType, ResetStoreType}
    ensures Reduce(Some(s), a) == s
  {
  }

  /** The Immer draft the `setToken` and `clearToken` case reducers assign into. */
  class AuthDraft {
    var token: Option<string>
    var isLogin: bool

    function State(): AuthState
      reads this
    {
      AuthState(token, isLogin)
    }

    constructor (s: AuthState)
      ensures State() == s
    {
      token := s.token;
      isLogin := s.isLogin;
    }

    /** `state.token = action.payload; state.isLogin = true`. */
    method SetToken(payload: Option<string>)
      modifies this`token, this`isLogin
      ensures State() == Reduce(Some(old(State())), SetTokenAction(payload))
    {
      token := payload;
      isLogin := true;
    }

    /** `state.token = ''; state.isLogin = false`. */
    method ClearToken()
      modifies this`token, this`isLogin
      ensures State() == Reduce(Some(old(State())), ClearTokenAction())
    {
      token := Some("");
      isLogin := false;
    }
  }
}
