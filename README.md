# weShip: delivery and auth client state, and the authorization gate

This project models three small pieces of the weShip delivery tracker and proves what they guarantee:

- **The delivery slice** (`frontend/src/features/delivery/deliverySlice.ts`). It is the client-side Redux state for deliveries: the held list, the `isLoading`/`isSuccess`/`isError` flags and `errorMessage`. It reacts to `reset` and to the `pending`, `fulfilled` and `rejected` actions of the `createDelivery` and `getDeliveries` thunks. Module `DeliverySlice`, file `delivery_slice.dfy`.
- **The auth slice** (`frontend/src/features/auth/authSlice.ts`). It holds the same flags around the logged-in user. It reacts to `reset`, to the three actions of `register` and of `login`, and to `logout.fulfilled`. Module `AuthSlice`, file `auth_slice.dfy`.
- **The `requiredAuth` middleware** (`backend/src/middlewares/requiredAuth.ts`). It applies the `Bearer` header guard and extracts the token. It resolves the token to a user, stamps `req.body.user_id` and calls `next`, or answers 401. Module `RequiredAuth`, file `required_auth.dfy`.

Shared pieces:
- `types.dfy` (`Types`) holds the records from `frontend/src/types.ts/index.ts`.
- `rejection.dfy` (`Rejection`) holds the thunks' shared `catch` block and the `typeof payload === 'string' ? payload : JSON.stringify(payload)` step of the rejected cases.
- `reset_contrast.dfy` (`ResetContrast`) sets the two `reset` reducers side by side.

How each piece is modelled:
- Each slice has a pure transition function `Reduce(state, action, stringify)`. `Run` folds it over a sequential stream of actions.
- Each slice also has a store class. Its case-reducer methods assign its fields in place, as the source does. Every method's postcondition states the new fields and ties the store's `Snapshot()` to `Reduce`.
- In the delivery slice, `createDelivery.fulfilled` and `reset` return fresh objects in the source. Here they are the functions `WithCreated` and `Initial`, and the store adopts their result whole.
- `JSON.stringify` is the parameter `stringify`.
- `jwt.verify` is the oracle `verify: string -> Option<UserId>`, where `None` means it threw.
- `User.findById(...).select('-password')` is the oracle `lookup: UserId -> Lookup`, which returns a user, null, or a throw.

Behaviour of the code worth knowing:
- **Delivery `reset`.** The delivery `reset` returns `initialState`, so it empties the held list. Only the auth `reset` keeps its held value, the user.
- **Held list shape.** The delivery list is held inside a `{ deliveries: [...] }` wrapper (`DeliveryList`). The declared type says it is a bare array.
- **Deleted user.** A token whose user no longer exists is not refused. The request proceeds with `user_id` set to `undefined`.
- **Failed verification.** A failed token verification is not turned into a 401. `jwt.verify` runs outside the `try`, so the handler's promise rejects and nothing is written.
- **Non-`Error` throw.** A lookup that throws something other than an `Error` is logged and swallowed. No reply is written and `next` is not called.
- **Structured provider errors.** The message of a structured provider error is not extracted. The third `catch` branch stores an arrow function, so every such error yields the same payload.

## Model

| member | source | states |
|---|---|---|
| Rejection.MessageOfThrown | frontend/src/features/delivery/deliverySlice.ts:22-27 | The message a rejection stores for a thrown value is the `Error`'s own message, or a thrown string verbatim. For any other value it is the serialisation of the arrow function. The same `catch` chain is repeated at deliverySlice.ts:38-44 and authSlice.ts:21-27, 35-41. |
| Rejection.ProviderMessageIgnored | frontend/src/features/auth/authSlice.ts:25 | Two non-`Error`, non-string throws give the same payload and the same stored message, whatever provider message they carry. |
| AuthSlice.Settle | frontend/src/features/auth/authSlice.ts:17-42 | The `register`/`login` thunk yields `fulfilled` with the returned user exactly when the service resolves. Otherwise it yields `rejected` with the payload extracted from the thrown value. |
| AuthSlice.AuthStore.constructor | frontend/src/features/auth/authSlice.ts:8-14 | The initial state holds the persisted user (or none), all three flags are false, and `errorMessage` is empty. |
| AuthSlice.AuthStore.Reset | frontend/src/features/auth/authSlice.ts:51-56 | `reset` clears `isSuccess`, `isLoading`, `isError` and `errorMessage`, and leaves `user` unchanged. |
| AuthSlice.AuthStore.RegisterPending | frontend/src/features/auth/authSlice.ts:60-62 | Sets `isLoading` and changes no other field. |
| AuthSlice.AuthStore.RegisterFulfilled | frontend/src/features/auth/authSlice.ts:63-67 | The payload becomes the user, `isLoading` is false and `isSuccess` is true. `isError` and `errorMessage` are untouched. |
| AuthSlice.AuthStore.RegisterRejected | frontend/src/features/auth/authSlice.ts:68-76 | The user becomes null, `isError` is true, and `isSuccess`/`isLoading` are false. A string payload is stored verbatim; any other payload is stored as its serialisation. |
| AuthSlice.AuthStore.LoginPending | frontend/src/features/auth/authSlice.ts:77-79 | Sets `isLoading` and changes no other field. |
| AuthSlice.AuthStore.LoginFulfilled | frontend/src/features/auth/authSlice.ts:80-84 | The payload becomes the user, `isLoading` is false and `isSuccess` is true. The error state is untouched. |
| AuthSlice.AuthStore.LoginRejected | frontend/src/features/auth/authSlice.ts:85-93 | Same as the register rejection: the user is null, the error flags are set, and the message is the string payload or its serialisation. |
| AuthSlice.AuthStore.LogoutFulfilled | frontend/src/features/auth/authSlice.ts:94-96 | The user becomes null, and every flag and the message are unchanged. |
| AuthSlice.RunUser | frontend/src/features/auth/authSlice.ts:51-96 | After any stream of actions, the held user is the one the last user-writing action leaves. A success installs its payload, a rejection or logout clears it, and `reset` and pending actions never touch it. |
| AuthSlice.ErrorFlagStaysUntilReset | frontend/src/features/auth/authSlice.ts:51-96 | Once `isError` is set, only `reset` clears it. Pending and fulfilled actions do not. |
| AuthSlice.ErrorMessageStaysUntilResetOrRejection | frontend/src/features/auth/authSlice.ts:51-96 | `errorMessage` changes only on `reset` or a rejection. |
| AuthSlice.Initial | frontend/src/features/auth/authSlice.ts:8-14 | `initialState` holds the persisted user (or none), all three flags are false and `errorMessage` is empty, so it has no error message without `isError`. |
| AuthSlice.RunKeepsMessageConsistent | frontend/src/features/auth/authSlice.ts:51-96 | Every state reached from one with an empty `errorMessage` whenever `isError` is false keeps that property: no stream of actions leaves a message without raising `isError`. |
| DeliverySlice.Initial | frontend/src/features/delivery/deliverySlice.ts:7-13 | The initial state holds an empty list inside its wrapper, all flags are false, and the message is empty. |
| DeliverySlice.WithCreated | frontend/src/features/delivery/deliverySlice.ts:58-63 | The state `createDelivery.fulfilled` returns has one more delivery. The earlier entries keep their order and the payload is last. `isLoading` is false, `isSuccess` is true, and `isError`/`errorMessage` are as before. |
| DeliverySlice.SettleCreate | frontend/src/features/delivery/deliverySlice.ts:16-29 | With no logged-in user, reading the token throws inside the `try`, so `createDelivery` is rejected with that error's message and the service is not called. Otherwise a resolved call is `fulfilled` with the created delivery, and a throw is `rejected` with the extracted payload. |
| DeliverySlice.SettleGet | frontend/src/features/delivery/deliverySlice.ts:32-45 | The same as `SettleCreate`, for `getDeliveries` and its fetched list. |
| DeliverySlice.DeliveryStore.constructor | frontend/src/features/delivery/deliverySlice.ts:7-13 | The store starts in `initialState`. |
| DeliverySlice.DeliveryStore.Reset | frontend/src/features/delivery/deliverySlice.ts:51 | `reset` yields exactly the initial state: the list is empty, all flags are false and the message is empty. The previous list is discarded. |
| DeliverySlice.DeliveryStore.CreatePending | frontend/src/features/delivery/deliverySlice.ts:55-57 | Sets `isLoading` and changes no other field. A previous error flag and message survive. |
| DeliverySlice.DeliveryStore.CreateFulfilled | frontend/src/features/delivery/deliverySlice.ts:58-63 | The held list becomes the old list with the payload appended. `isLoading` is false, `isSuccess` is true, and the error state is unchanged. |
| DeliverySlice.DeliveryStore.CreateRejected | frontend/src/features/delivery/deliverySlice.ts:64-71 | `isError` is true and `isSuccess`/`isLoading` are false. The list is unchanged. The message is the string payload verbatim or the serialisation of any other payload. |
| DeliverySlice.DeliveryStore.GetPending | frontend/src/features/delivery/deliverySlice.ts:72-74 | Sets `isLoading` and changes no other field. |
| DeliverySlice.DeliveryStore.GetFulfilled | frontend/src/features/delivery/deliverySlice.ts:75-79 | The payload replaces the held wrapper wholesale. `isLoading` is false, `isSuccess` is true, and the error state is unchanged. |
| DeliverySlice.DeliveryStore.GetRejected | frontend/src/features/delivery/deliverySlice.ts:80-87 | `isError` is true and `isSuccess`/`isLoading` are false. The list is unchanged. The message is the string payload or the serialisation of any other payload. |
| DeliverySlice.HeldGrowsByCreations | frontend/src/features/delivery/deliverySlice.ts:53-88 | In a stream without `reset` or `getDeliveries.fulfilled`, the held list becomes the old list followed by the created deliveries, in arrival order. Pending and rejected actions never touch it. |
| DeliverySlice.LastReplacementDecides | frontend/src/features/delivery/deliverySlice.ts:51-88 | After `getDeliveries.fulfilled`, the list is the fetched list plus what was created since. After `reset`, it is only what was created since. |
| DeliverySlice.ErrorStaysUntilReset | frontend/src/features/delivery/deliverySlice.ts:51-88 | Once `isError` is set, only `reset` clears it. `errorMessage` changes only on `reset` or a rejection, so a stale error survives later pending and fulfilled actions. |
| DeliverySlice.RunKeepsMessageConsistent | frontend/src/features/delivery/deliverySlice.ts:7-88 | No stream of actions leaves an error message while `isError` is false. |
| ResetContrast.ResetsDiffer | frontend/src/features/auth/authSlice.ts:51-56 | Both resets clear the flags and the message. The auth reset keeps the user, while the delivery reset (deliverySlice.ts:51) empties the held list. |
| ResetContrast.SessionSurvivesResetDeliveriesDoNot | frontend/src/features/delivery/deliverySlice.ts:51 | An illustrative trace: a user logged in before a `reset` is still held after it, while a delivery created before a `reset` is gone. |
| RequiredAuth.Split | backend/src/middlewares/requiredAuth.ts:13 | `split(' ')` yields at least one piece and no piece contains a space. There is exactly one piece iff the header has no space, and that piece is then the whole header. |
| RequiredAuth.JoinSplit | backend/src/middlewares/requiredAuth.ts:13 | Joining the pieces of `split(' ')` with single spaces gives the header back. |
| RequiredAuth.TokenIsFinalWord | backend/src/middlewares/requiredAuth.ts:13 | `split(' ').reverse()[0]` is the longest space-free tail of the header. It ends the header, contains no space, and is either the whole header or preceded by a space. |
| RequiredAuth.TokenFollowsLastSpace | backend/src/middlewares/requiredAuth.ts:13 | For a header `<anything> <token>` with a space-free token, exactly that token is extracted. |
| RequiredAuth.BearerHeader | backend/src/middlewares/requiredAuth.ts:10-13 | `Bearer <token>` passes the guard and yields `<token>`; for `Bearer abc` the token is `abc`. |
| RequiredAuth.GuardIsBarePrefix | backend/src/middlewares/requiredAuth.ts:10-13 | Any header that begins with `Bearer` passes, with no space required. A header without a space is its own token, scheme marker included. |
| RequiredAuth.Decide | backend/src/middlewares/requiredAuth.ts:7-28 | A 401 "Authorization token required" happens exactly when the header is missing or does not begin with `Bearer`. Every other outcome lies past the guard, and every reply is a 401. Proceeding needs a verified token. A stamped id is the id of the user that the token's subject looks up to. |
| RequiredAuth.GuardFailureIgnoresOracles | backend/src/middlewares/requiredAuth.ts:10-11 | A failed guard answers the same 401 whatever the token authority and the user store would say. Neither is consulted. |
| RequiredAuth.PastGuardOutcomes | backend/src/middlewares/requiredAuth.ts:13-26 | Past the guard, the outcomes are these: a failed verification escapes the handler instead of giving a 401, a found user proceeds with its id, a thrown `Error` gives 401 "Request is not authorized", and any other thrown value is swallowed. |
| RequiredAuth.DeletedUserProceeds | backend/src/middlewares/requiredAuth.ts:18-20 | A verified token whose user lookup returns null proceeds with `user_id` undefined. |
| RequiredAuth.Stamp | backend/src/middlewares/requiredAuth.ts:19 | After stamping, `user_id` is the looked-up id. Every other key of the body keeps its value, and no key is added besides `user_id`. |
| RequiredAuth.ClientUserIdOverwritten | backend/src/middlewares/requiredAuth.ts:19 | Two bodies that differ only in a client-sent `user_id` are stamped identically. |
| RequiredAuth.Exchange.constructor | backend/src/middlewares/requiredAuth.ts:7-8 | A fresh exchange carries the request's header and body, with no replies and no `next` call. |
| RequiredAuth.Handle | backend/src/middlewares/requiredAuth.ts:7-28 | The handler writes one 401 reply on rejection. When it proceeds, it stamps the body and calls `next` exactly once without writing a reply. On a failed verification its promise rejects, and on a swallowed non-`Error` throw it does nothing. |

## Left out

- The model does not capture Redux Toolkit machinery: `createAsyncThunk` scheduling, Immer drafts, action type strings and dispatch ordering. Actions are applied one at a time, in a given order.
- The services behind the thunks (`authService`, `deliveryService`) are not part of this model. Their outcomes are inputs: `ServiceOutcome` values, or a function from the session token to one.
- `logout` has no `catch` and its `rejected` action has no case reducer. Only `logout.fulfilled` is modelled.
- The localStorage reads at module load are not modelled. The persisted user is a parameter of the auth store's constructor, and the delivery slice's unused `user` constant is left out.
- The payload of `getDeliveries.fulfilled` is assumed to be the `{ deliveries: [...] }` wrapper (`DeliveryList`), because the delivery service that produces it is not part of this model. The field's declared type (`Delivery[]`) suggests a bare array. If the payload were a bare array, the next `createDelivery.fulfilled` would throw when it spreads `state.deliveries.deliveries`, and the model cannot express that.
- `JSON.stringify` is left uninterpreted, as the parameter `stringify`. In particular the model does not say that serialising the arrow function gives `undefined`.
- The text of the `TypeError` thrown when no user is logged in is engine-specific. It is the parameter `noSessionError`.
- `jwt.verify`, the process secret, token expiry and `User.findById(...).select('-password')` are oracles. The model does not decode tokens.
- Request bodies are string-valued maps; other JSON values are not modelled.
- The handler's `console.error` logging and the `res.status().json()` plumbing are left out; only the (status, error) pair is kept.
- The model does not cover an exception thrown by `next()` itself inside the `try`.
- `frontend/src/pages/Dashboard.tsx` is not part of this model. It holds React rendering, network geocoding and form state.
- `frontend/src/components/MapTile.tsx` is not part of this model. It holds map rendering only.
- `Rejection.MessageOfThrown`: a JavaScript value can be an `Error` or a string primitive but never both. So the order of the first two `catch` tests cannot be observed, and the model's thrown-value constructors are disjoint rather than ordered.
