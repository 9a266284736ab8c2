/** The delivery slice (frontend/src/features/delivery/deliverySlice.ts). Most case reducers
    assign fields of the state in place; `createDelivery.fulfilled` and `reset` instead return a
    fresh state, which the store adopts whole. */
module DeliverySlice {
  import opened Types
  import opened Rejection

  /** `IDeliveryState` as the code uses it: the list sits inside a `{ deliveries }` wrapper. */
  datatype DeliveryState = DeliveryState(
    deliveries: DeliveryList,
    isLoading: bool,
    isSuccess: bool,
    isError: bool,
    errorMessage: string)

  /** The actions the slice reacts to. */
  datatype DeliveryAction =
    | Reset
    | CreatePending
    | CreateFulfilled(created: Delivery)
    | CreateRejected(payload: RejectPayload)
    | GetPending
    | GetFulfilled(list: DeliveryList)
    | GetRejected(payload: RejectPayload)

  /** The list of deliveries the state holds. */
  function Held(s: DeliveryState): seq<Delivery>
  {
    s.deliveries.deliveries
  }

  /** `initialState`: nothing held, no flag raised, no message. */
  function Initial(): (s: DeliveryState)
    ensures Held(s) == [] && !s.isLoading && !s.isSuccess && !s.isError && s.errorMessage == ""
  {
    DeliveryState(DeliveryList([]), false, false, false, "")
  }

  /** The fresh state `createDelivery.fulfilled` returns: `...state` with the payload appended
      behind the held deliveries. */
  function WithCreated(s: DeliveryState, created: Delivery): (r: DeliveryState)
    ensures |Held(r)| == |Held(s)| + 1
    ensures Held(r)[..|Held(s)|] == Held(s) && Held(r)[|Held(s)|] == created
    ensures !r.isLoading && r.isSuccess
    ensures r.isError == s.isError && r.errorMessage == s.errorMessage
  {
    s.(isLoading := false, isSuccess := true, deliveries := DeliveryList(Held(s) + [created]))
  }

  /** The `createDelivery` thunk. It reads the session token first: with no logged-in user the
      destructuring throws a `TypeError` (whose engine-specific text is `noSessionError`) inside
      the `try`, so the action is a rejection and the service is never called. Otherwise the
      service outcome settles the action. */
  function SettleCreate(session: Option<LoggedInUser>, service: Option<string> -> ServiceOutcome<Delivery>,
                        noSessionError: string): (a: DeliveryAction)
    ensures session.None? ==> a == CreateRejected(Text(noSessionError))
    ensures session.Some? && service(session.value.token).Resolved? ==>
              a == CreateFulfilled(service(session.value.token).value)
    ensures session.Some? && service(session.value.token).Threw? ==>
              a == CreateRejected(ExtractPayload(service(session.value.token).error))
  {
    match session
    case None => CreateRejected(ExtractPayload(NativeError(noSessionError)))
    case Some(u) =>
      match service(u.token)
      case Resolved(d) => CreateFulfilled(d)
      case Threw(e) => CreateRejected(ExtractPayload(e))
  }

  /** The `getDeliveries` thunk, with the same session read and `catch` block. */
  function SettleGet(session: Option<LoggedInUser>, service: Option<string> -> ServiceOutcome<DeliveryList>,
                     noSessionError: string): (a: DeliveryAction)
    ensures session.None? ==> a == GetRejected(Text(noSessionError))
    ensures session.Some? && service(session.value.token).Resolved? ==>
              a == GetFulfilled(service(session.value.token).value)
    ensures session.Some? && service(session.value.token).Threw? ==>
              a == GetRejected(ExtractPayload(service(session.value.token).error))
  {
    match session
    case None => GetRejected(ExtractPayload(NativeError(noSessionError)))
    case Some(u) =>
      match service(u.token)
      case Resolved(list) => GetFulfilled(list)
      case Threw(e) => GetRejected(ExtractPayload(e))
  }

  /** The state a rejected case leaves: flags set and the payload's message stored. */
  function AfterRejection(s: DeliveryState, p: RejectPayload, stringify: RejectPayload -> string): DeliveryState
  {
    s.(isSuccess := false, isLoading := false, isError := true, errorMessage := StoredMessage(p, stringify))
  }

  /** The slice reducer: `reset` and the six `extraReducers` cases. */
  function Reduce(s: DeliveryState, a: DeliveryAction, stringify: RejectPayload -> string): DeliveryState
  {
    match a
    case Reset => Initial()
    case CreatePending => s.(isLoading := true)
    case CreateFulfilled(d) => WithCreated(s, d)
    case CreateRejected(p) => AfterRejection(s, p, stringify)
    case GetPending => s.(isLoading := true)
    case GetFulfilled(list) => s.(isLoading := false, isSuccess := true, deliveries := list)
    case GetRejected(p) => AfterRejection(s, p, stringify)
  }

  /** The state after a sequential stream of actions. */
  function Run(s: DeliveryState, actions: seq<DeliveryAction>, stringify: RejectPayload -> string): DeliveryState
    decreases |actions|
  {
    if actions == [] then s else Run(Reduce(s, actions[0], stringify), actions[1..], stringify)
  }

  /** The store: one mutable `IDeliveryState`. */
  class DeliveryStore {
    var deliveries: DeliveryList
    var isLoading: bool
    var isSuccess: bool
    var isError: bool
    var errorMessage: string
    /** `JSON.stringify`, used by the rejected cases for a non-string payload. */
    const stringify: RejectPayload -> string

    function Snapshot(): DeliveryState
      reads this
    {
      DeliveryState(deliveries, isLoading, isSuccess, isError, errorMessage)
    }

    constructor (stringify: RejectPayload -> string)
      ensures Snapshot() == Initial() && this.stringify == stringify
    {
      deliveries := DeliveryList([]);
      isLoading, isSuccess, isError := false, false, false;
      errorMessage := "";
      this.stringify := stringify;
    }

    /** Replaces the whole state with one a case reducer returned. */
    method Adopt(next: DeliveryState)
      modifies this
      ensures Snapshot() == next
    {
      deliveries := next.deliveries;
      isLoading := next.isLoading;
      isSuccess := next.isSuccess;
      isError := next.isError;
      errorMessage := next.errorMessage;
    }

    /** `reset`: returns `initialState`, so the held list is discarded along with the flags. */
    method Reset()
      modifies this
      ensures Snapshot() == Initial()
      ensures Held(Snapshot()) == [] && !isLoading && !isSuccess && !isError && errorMessage == ""
      ensures Snapshot() == Reduce(old(Snapshot()), DeliveryAction.Reset, stringify)
    {
      Adopt(Initial());
    }

    /** `createDelivery.pending`: only `isLoading` changes. */
    method CreatePending()
      modifies this
      ensures isLoading
      ensures deliveries == old(deliveries) && isSuccess == old(isSuccess)
      ensures isError == old(isError) && errorMessage == old(errorMessage)
      ensures Snapshot() == Reduce(old(Snapshot()), DeliveryAction.CreatePending, stringify)
    {
      isLoading := true;
    }

    /** `createDelivery.fulfilled`: adopts the fresh state with the payload appended. */
    method CreateFulfilled(payload: Delivery)
      modifies this
      ensures deliveries.deliveries == old(deliveries.deliveries) + [payload]
      ensures !isLoading && isSuccess
      ensures isError == old(isError) && errorMessage == old(errorMessage)
      ensures Snapshot() == Reduce(old(Snapshot()), DeliveryAction.CreateFulfilled(payload), stringify)
    {
      Adopt(WithCreated(Snapshot(), payload));
    }

    /** `createDelivery.rejected`: flags set, message stored, list kept. */
    method CreateRejected(payload: RejectPayload)
      modifies this
      ensures !isSuccess && !isLoading && isError && deliveries == old(deliveries)
      ensures payload.Text? ==> errorMessage == payload.text
      ensures !payload.Text? ==> errorMessage == stringify(payload)
      ensures Snapshot() == Reduce(old(Snapshot()), DeliveryAction.CreateRejected(payload), stringify)
    {
      isSuccess := false;
      isLoading := false;
      isError := true;
      if payload.Text? {
        errorMessage := payload.text;
      } else {
        errorMessage := stringify(payload);
      }
    }

    /** `getDeliveries.pending`: only `isLoading` changes. */
    method GetPending()
      modifies this
      ensures isLoading
      ensures deliveries == old(deliveries) && isSuccess == old(isSuccess)
      ensures isError == old(isError) && errorMessage == old(errorMessage)
      ensures Snapshot() == Reduce(old(Snapshot()), DeliveryAction.GetPending, stringify)
    {
      isLoading := true;
    }

    /** `getDeliveries.fulfilled`: the payload replaces the held wrapper wholesale. */
    method GetFulfilled(payload: DeliveryList)
      modifies this
      ensures deliveries == payload && !isLoading && isSuccess
      ensures isError == old(isError) && errorMessage == old(errorMessage)
      ensures Snapshot() == Reduce(old(Snapshot()), DeliveryAction.GetFulfilled(payload), stringify)
    {
      isLoading := false;
      isSuccess := true;
      deliveries := payload;
    }

    /** `getDeliveries.rejected`: flags set, message stored, list kept. */
    method GetRejected(payload: RejectPayload)
      modifies this
      ensures !isSuccess && !isLoading && isError && deliveries == old(deliveries)
      ensures payload.Text? ==> errorMessage == payload.text
      ensures !payload.Text? ==> errorMessage == stringify(payload)
      ensures Snapshot() == Reduce(old(Snapshot()), DeliveryAction.GetRejected(payload), stringify)
    {
      isSuccess := false;
      isLoading := false;
      isError := true;
      if payload.Text? {
        errorMessage := payload.text;
      } else {
        errorMessage := stringify(payload);
      }
    }
  }

  /** The delivery one action appends: its payload for `createDelivery.fulfilled`, else nothing. */
  function CreatedBy(a: DeliveryAction): seq<Delivery>
  {
    if a.CreateFulfilled? then [a.created] else []
  }

  /** The deliveries the `createDelivery.fulfilled` actions of a stream carry, in order. */
  function Created(actions: seq<DeliveryAction>): seq<Delivery>
    decreases |actions|
  {
    if actions == [] then [] else CreatedBy(actions[0]) + Created(actions[1..])
  }

  /** The actions that replace the held list rather than extend it. */
  predicate Replaces(a: DeliveryAction)
  {
    a.Reset? || a.GetFulfilled?
  }

  /** One action that does not replace the list appends what it created, if anything. */
  lemma HeldStep(s: DeliveryState, a: DeliveryAction, stringify: RejectPayload -> string)
    requires !Replaces(a)
    ensures Held(Reduce(s, a, stringify)) == Held(s) + CreatedBy(a)
  {
  }

  /** Between replacements the held list only grows at its end, by the created deliveries in the
      order their actions arrive; pending and rejected actions never touch it. */
  lemma {:induction false} HeldGrowsByCreations(s: DeliveryState, actions: seq<DeliveryAction>, stringify: RejectPayload -> string)
    requires forall i :: 0 <= i < |actions| ==> !Replaces(actions[i])
    ensures Held(Run(s, actions, stringify)) == Held(s) + Created(actions)
    decreases |actions|
  {
    if actions != [] {
      var next, rest := Reduce(s, actions[0], stringify), actions[1..];
      assert forall i :: 0 <= i < |rest| ==> rest[i] == actions[i + 1];
      HeldStep(s, actions[0], stringify);
      HeldGrowsByCreations(next, rest, stringify);
      assert Held(s) + CreatedBy(actions[0]) + Created(rest) == Held(s) + (CreatedBy(actions[0]) + Created(rest));
    }
  }

  /** The last replacement decides the list: after `getDeliveries.fulfilled` it is the fetched
      list followed by what was created since, after `reset` only what was created since. */
  lemma LastReplacementDecides(s: DeliveryState, fetched: DeliveryList, actions: seq<DeliveryAction>, stringify: RejectPayload -> string)
    requires forall i :: 0 <= i < |actions| ==> !Replaces(actions[i])
    ensures Held(Run(s, [GetFulfilled(fetched)] + actions, stringify)) == fetched.deliveries + Created(actions)
    ensures Held(Run(s, [DeliveryAction.Reset] + actions, stringify)) == Created(actions)
  {
    assert ([GetFulfilled(fetched)] + actions)[1..] == actions;
    assert ([DeliveryAction.Reset] + actions)[1..] == actions;
    HeldGrowsByCreations(Reduce(s, GetFulfilled(fetched), stringify), actions, stringify);
    HeldGrowsByCreations(Initial(), actions, stringify);
  }

  /** Only `reset` clears `isError`, and only `reset` or a rejection rewrites `errorMessage`:
      a stale error survives later pending and fulfilled actions. */
  lemma {:induction false} ErrorStaysUntilReset(s: DeliveryState, actions: seq<DeliveryAction>, stringify: RejectPayload -> string)
    requires forall i :: 0 <= i < |actions| ==> !actions[i].Reset?
    ensures s.isError ==> Run(s, actions, stringify).isError
    ensures (forall i :: 0 <= i < |actions| ==> !actions[i].CreateRejected? && !actions[i].GetRejected?) ==>
              Run(s, actions, stringify).errorMessage == s.errorMessage
    decreases |actions|
  {
    if actions != [] {
      var rest := actions[1..];
      assert forall i :: 0 <= i < |rest| ==> rest[i] == actions[i + 1];
      ErrorStaysUntilReset(Reduce(s, actions[0], stringify), rest, stringify);
    }
  }

  /** Without an error flag there is no error message. */
  predicate MessageConsistent(s: DeliveryState)
  {
    !s.isError ==> s.errorMessage == ""
  }

  /** No stream of actions produces an error message without also raising `isError`. */
  lemma {:induction false} RunKeepsMessageConsistent(s: DeliveryState, actions: seq<DeliveryAction>, stringify: RejectPayload -> string)
    requires MessageConsistent(s)
    ensures MessageConsistent(Run(s, actions, stringify))
    decreases |actions|
  {
    if actions != [] {
      RunKeepsMessageConsistent(Reduce(s, actions[0], stringify), actions[1..], stringify);
    }
  }
}
