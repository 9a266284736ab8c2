/** The two slices' `reset` reducers differ: the auth one clears only the flags and the message,
    the delivery one returns the initial state and so also drops the held deliveries. */
module ResetContrast {
  import opened Types
  import opened Rejection
  import AuthSlice
  import DeliverySlice

  lemma ResetsDiffer(a: AuthSlice.AuthState, d: DeliverySlice.DeliveryState, stringify: RejectPayload -> string)
    ensures var a' := AuthSlice.Reduce(a, AuthSlice.Reset, stringify);
      a'.user == a.user && !a'.isSuccess && !a'.isLoading && !a'.isError && a'.errorMessage == ""
    ensures var d' := DeliverySlice.Reduce(d, DeliverySlice.Reset, stringify);
      DeliverySlice.Held(d') == [] && !d'.isSuccess && !d'.isLoading && !d'.isError && d'.errorMessage == ""
  {
  }

  /** A logged-in user survives a later `reset`; a created delivery does not. */
  lemma SessionSurvivesResetDeliveriesDoNot(u: LoggedInUser, created: Delivery, stringify: RejectPayload -> string)
    ensures AuthSlice.Run(AuthSlice.Initial(None),
                          [AuthSlice.Pending(AuthSlice.Login), AuthSlice.Fulfilled(AuthSlice.Login, u), AuthSlice.Reset],
                          stringify).user == Some(u)
    ensures DeliverySlice.Held(DeliverySlice.Run(DeliverySlice.Initial(),
                          [DeliverySlice.CreatePending, DeliverySlice.CreateFulfilled(created), DeliverySlice.Reset],
                          stringify)) == []
  {
    var auth := [AuthSlice.Pending(AuthSlice.Login), AuthSlice.Fulfilled(AuthSlice.Login, u), AuthSlice.Reset];
    AuthSlice.RunUser(AuthSlice.Initial(None), auth, stringify);
    assert auth[..2] == [AuthSlice.Pending(AuthSlice.Login), AuthSlice.Fulfilled(AuthSlice.Login, u)];
    var deliveries := [DeliverySlice.CreatePending, DeliverySlice.CreateFulfilled(created), DeliverySlice.Reset];
    var s1 := DeliverySlice.Reduce(DeliverySlice.Initial(), deliveries[0], stringify);
    var s2 := DeliverySlice.Reduce(s1, deliveries[1], stringify);
    assert deliveries[1..][1..] == [DeliverySlice.Reset];
    assert DeliverySlice.Run(DeliverySlice.Initial(), deliveries, stringify)
        == DeliverySlice.Run(s2, [DeliverySlice.Reset], stringify);
  }
}
