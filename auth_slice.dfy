/** The auth slice (frontend/src/features/auth/authSlice.ts): its state, the thunks' outcomes as
    actions, the reducer as a pure transition function, the store whose case reducers assign the
    state's fields in place, and what the transition function guarantees over any stream of
    actions. */
module AuthSlice {
  import opened Types
  import opened Rejection

  /** `IAuthState`. */
  datatype AuthState = AuthState(
    user: Option<LoggedInUser>,
    isSuccess: bool,
    isLoading: bool,
    isError: bool,
    errorMessage: string)

  /** The two thunks that share one set of case reducers. */
  datatype AuthOp = Register | Login

  /** The actions the slice reacts to. */
  datatype AuthAction =
    | Reset
    | Pending(op: AuthOp)
    | Fulfilled(op: AuthOp, user: LoggedInUser)
    | Rejected(op: AuthOp, payload: RejectPayload)
    | LogoutFulfilled

  /** `initialState`, with the user read from local storage passed in as `persisted`. */
  function Initial(persisted: Option<LoggedInUser>): (s: AuthState)
    ensures s.user == persisted && !s.isSuccess && !s.isLoading && !s.isError && s.errorMessage == ""
  {
    AuthState(persisted, false, false, false, "")
  }

  /** The `register` and `login` thunks: a resolved service call becomes `fulfilled` with the
      returned user; a throw becomes `rejected` with the payload the `catch` block extracts. */
  function Settle(op: AuthOp, outcome: ServiceOutcome<LoggedInUser>): (a: AuthAction)
    ensures (a.Fulfilled? || a.Rejected?) && a.op == op
    ensures outcome.Resolved? <==> a.Fulfilled?
    ensures outcome.Resolved? ==> a.user == outcome.value
    ensures outcome.Threw? ==> a.Rejected? && a.payload == ExtractPayload(outcome.error)
  {
    match outcome
    case Resolved(u) => Fulfilled(op, u)
    case Threw(e) => Rejected(op, ExtractPayload(e))
  }

  /** The slice reducer: `reset` and the `extraReducers` cases. */
  function Reduce(s: AuthState, a: AuthAction, stringify: RejectPayload -> string): AuthState
  {
    match a
    case Reset => s.(isSuccess := false, isLoading := false, isError := false, errorMessage := "")
    case Pending(_) => s.(isLoading := true)
    case Fulfilled(_, u) => s.(isLoading := false, isSuccess := true, user := Some(u))
    case Rejected(_, p) =>
      s.(isSuccess := false, isLoading := false, isError := true,
         errorMessage := StoredMessage(p, stringify), user := None)
    case LogoutFulfilled => s.(user := None)
  }

  /** The state after a sequential stream of actions. */
  function Run(s: AuthState, actions: seq<AuthAction>, stringify: RejectPayload -> string): AuthState
    decreases |actions|
  {
    if actions == [] then s else Run(Reduce(s, actions[0], stringify), actions[1..], stringify)
  }

  /** The store: one mutable `IAuthState` whose fields the case reducers assign. */
  class AuthStore {
    var user: Option<LoggedInUser>
    var isSuccess: bool
    var isLoading: bool
    var isError: bool
    var errorMessage: string
    /** `JSON.stringify`, used by the rejected cases for a non-string payload. */
    const stringify: RejectPayload -> string

    function Snapshot(): AuthState
      reads this
    {
      AuthState(user, isSuccess, isLoading, isError, errorMessage)
    }

    constructor (persisted: Option<LoggedInUser>, stringify: RejectPayload -> string)
      ensures user == persisted && !isSuccess && !isLoading && !isError && errorMessage == ""
      ensures Snapshot() == Initial(persisted) && this.stringify == stringify
    {
      user := persisted;
      isSuccess, isLoading, isError := false, false, false;
      errorMessage := "";
      this.stringify := stringify;
    }

    /** `reset`: clears the flags and the message, keeps the user. */
    method Reset()
      modifies this
      ensures !isSuccess && !isLoading && !isError && errorMessage == ""
      ensures user == old(user)
      ensures Snapshot() == Reduce(old(Snapshot()), AuthAction.Reset, stringify)
    {
      isSuccess := false;
      isLoading := false;
      isError := false;
      errorMessage := "";
    }

    /** `register.pending`: only `isLoading` changes. */
    method RegisterPending()
      modifies this
      ensures isLoading
      ensures user == old(user) && isSuccess == old(isSuccess)
      ensures isError == old(isError) && errorMessage == old(errorMessage)
      ensures Snapshot() == Reduce(old(Snapshot()), Pending(Register), stringify)
    {
      isLoading := true;
    }

    /** `register.fulfilled`: the payload becomes the user; the error state is left alone. */
    method RegisterFulfilled(payload: LoggedInUser)
      modifies this
      ensures user == Some(payload) && !isLoading && isSuccess
      ensures isError == old(isError) && errorMessage == old(errorMessage)
      ensures Snapshot() == Reduce(old(Snapshot()), Fulfilled(Register, payload), stringify)
    {
      isLoading := false;
      isSuccess := true;
      user := Some(payload);
    }

    /** `register.rejected`: error flags set, message stored, user dropped. */
    method RegisterRejected(payload: RejectPayload)
      modifies this
      ensures user == None && !isSuccess && !isLoading && isError
      ensures payload.Text? ==> errorMessage == payload.text
      ensures !payload.Text? ==> errorMessage == stringify(payload)
      ensures Snapshot() == Reduce(old(Snapshot()), Rejected(Register, payload), stringify)
    {
      isSuccess := false;
      isLoading := false;
      isError := true;
      if payload.Text? {
        errorMessage := payload.text;
      } else {
        errorMessage := stringify(payload);
      }
      user := None;
    }

    /** `login.pending`: only `isLoading` changes. */
    method LoginPending()
      modifies this
      ensures isLoading
      ensures user == old(user) && isSuccess == old(isSuccess)
      ensures isError == old(isError) && errorMessage == old(errorMessage)
      ensures Snapshot() == Reduce(old(Snapshot()), Pending(Login), stringify)
    {
      isLoading := true;
    }

    /** `login.fulfilled`: the payload becomes the user; the error state is left alone. */
    method LoginFulfilled(payload: LoggedInUser)
      modifies this
      ensures user == Some(payload) && !isLoading && isSuccess
      ensures isError == old(isError) && errorMessage == old(errorMessage)
      ensures Snapshot() == Reduce(old(Snapshot()), Fulfilled(Login, payload), stringify)
    {
      isLoading := false;
      isSuccess := true;
      user := Some(payload);
    }

    /** `login.rejected`: error flags set, message stored, user dropped. */
    method LoginRejected(payload: RejectPayload)
      modifies this
      ensures user == None && !isSuccess && !isLoading && isError
      ensures payload.Text? ==> errorMessage == payload.text
      ensures !payload.Text? ==> errorMessage == stringify(payload)
      ensures Snapshot() == Reduce(old(Snapshot()), Rejected(Login, payload), stringify)
    {
      isSuccess := false;
      isLoading := false;
      isError := true;
      if payload.Text? {
        errorMessage := payload.text;
      } else {
        errorMessage := stringify(payload);
      }
      user := None;
    }

    /** `logout.fulfilled`: drops the user and nothing else. */
    method LogoutFulfilled()
      modifies this
      ensures user == None
      ensures isSuccess == old(isSuccess) && isLoading == old(isLoading)
      ensures isError == old(isError) && errorMessage == old(errorMessage)
      ensures Snapshot() == Reduce(old(Snapshot()), AuthAction.LogoutFulfilled, stringify)
    {
      user := None;
    }
  }

  /** Running `rest` and then `a` is running `rest + [a]`. */
  lemma {:induction false} RunSnoc(s: AuthState, rest: seq<AuthAction>, a: AuthAction, stringify: RejectPayload -> string)
    ensures Run(s, rest + [a], stringify) == Reduce(Run(s, rest, stringify), a, stringify)
    decreases |rest|
  {
    if rest == [] {
      assert rest + [a] == [a];
    } else {
      assert (rest + [a])[1..] == rest[1..] + [a];
      RunSnoc(Reduce(s, rest[0], stringify), rest[1..], a, stringify);
    }
  }

  /** The user as determined by the last action that writes it: a success installs its user,
      a rejection or a logout clears it, and without any of those the starting user remains. */
  function UserAfter(start: Option<LoggedInUser>, actions: seq<AuthAction>): Option<LoggedInUser>
    decreases |actions|
  {
    if actions == [] then start
    else
      match actions[|actions| - 1]
      case Fulfilled(_, u) => Some(u)
      case Rejected(_, _) => None
      case LogoutFulfilled => None
      case _ => UserAfter(start, actions[..|actions| - 1])
  }

  /** The reducer keeps exactly the user the last user-writing action leaves: neither `reset`
      nor a pending action ever touches it. */
  lemma {:induction false} RunUser(s: AuthState, actions: seq<AuthAction>, stringify: RejectPayload -> string)
    ensures Run(s, actions, stringify).user == UserAfter(s.user, actions)
    decreases |actions|
  {
    if actions != [] {
      var n := |actions| - 1;
      assert actions == actions[..n] + [actions[n]];
      RunSnoc(s, actions[..n], actions[n], stringify);
      RunUser(s, actions[..n], stringify);
    }
  }

  /** Only `reset` clears `isError`: pending and fulfilled actions leave an error flag standing. */
  lemma {:induction false} ErrorFlagStaysUntilReset(s: AuthState, actions: seq<AuthAction>, stringify: RejectPayload -> string)
    requires s.isError
    requires forall i :: 0 <= i < |actions| ==> !actions[i].Reset?
    ensures Run(s, actions, stringify).isError
    decreases |actions|
  {
    if actions != [] {
      ErrorFlagStaysUntilReset(Reduce(s, actions[0], stringify), actions[1..], stringify);
    }
  }

  /** An error message is written only by a rejection and cleared only by `reset`. */
  lemma {:induction false} ErrorMessageStaysUntilResetOrRejection(s: AuthState, actions: seq<AuthAction>, stringify: RejectPayload -> string)
    requires forall i :: 0 <= i < |actions| ==> !actions[i].Reset? && !actions[i].Rejected?
    ensures Run(s, actions, stringify).errorMessage == s.errorMessage
    decreases |actions|
  {
    if actions != [] {
      ErrorMessageStaysUntilResetOrRejection(Reduce(s, actions[0], stringify), actions[1..], stringify);
    }
  }

  /** Without an error flag there is no error message. */
  predicate MessageConsistent(s: AuthState)
  {
    !s.isError ==> s.errorMessage == ""
  }

  /** No stream of actions produces an error message without also raising `isError`. */
  lemma {:induction false} RunKeepsMessageConsistent(s: AuthState, actions: seq<AuthAction>, stringify: RejectPayload -> string)
    requires MessageConsistent(s)
    ensures MessageConsistent(Run(s, actions, stringify))
    decreases |actions|
  {
    if actions != [] {
      RunKeepsMessageConsistent(Reduce(s, actions[0], stringify), actions[1..], stringify);
    }
  }
}
