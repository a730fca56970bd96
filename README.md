# Authentication session of a mobile client, in Dafny

This project models the client-side authentication core of a React Native app. It has three parts:

- **the `useAuth` hook** (`UseAuth`). It holds the cached current user under the query key `['auth', 'user']`, whether that user query is in error, whether it has been marked stale, and the persisted bearer token. It has one handler per operation: login, register, verifyEmail, resendOtp, forgotPassword, resetPassword and logout. It also runs one fetch step for the user query and derives `isAuthenticated`.
- **error normalisation** (`ApiErrors.GetApiError`). It turns any thrown value into a `{message, status}` record.
- **the service functions** (`AuthService`). These unwrap the answers of the authentication endpoints. The main one is `register`'s envelope check.

The hook is imperative. The class `UseAuth.AuthSession` has the four fields `user`, `stale`, `isError` and `token`. Each handler is a method that updates them step by step, in the source's order: token store first, then the cached user, then the stale mark. Each method is proved against a pure step function on a `Session` snapshot (`AfterLogin`, `AfterLogout`, `AfterFetch`, ...). The properties of those functions are stated in their contracts. Sequences of events are covered by the `Step`/`Run` lemmas, and `AuthSession.Apply` runs the handler for one event with exactly `Step`'s effect: only a stored login or a successful fetch signs the user in, only login and logout touch the token, and the handlerless mutations change nothing.

Whatever the outside world answers is a parameter. That covers what an HTTP call resolved with or threw, what the user fetch returned, and whether a token-store write failed.

The query cache follows its library's semantics:
- Writing data by hand (`setQueryData`) counts as a successful resolution. It replaces the data and clears the error and the stale mark.
- `invalidateQueries` only sets the stale mark.
- A failed fetch keeps the previous data and sets the error flag. The user query has retry disabled, so one failed attempt settles the fetch.

A failed token-store write leaves the slot as it was. It throws, which stops the handler before the cache is touched.

## Notes on the code
- logout waits for `removeToken` before it touches the cache (hooks/use-auth.ts:63-64). If the removal throws, the error propagates and the cache is left as it was (`AfterLogout`).
- A failed user fetch keeps the previously cached user. `isAuthenticated` turns false through the error flag (hooks/use-auth.ts:71), not through clearing the user (`AfterFetch`).
- The hook reads `response.data.token` from the login result (hooks/use-auth.ts:32-34), but `AuthResponse` (types/auth.ts:19-22) has no `data` field. The login body is therefore read as an `ApiResponse<AuthResponse>` envelope, as the hook treats it. The hook stores the token and the user whenever `data` is present. It does not look at the envelope's `success` flag.
- The hook calls `authService.getUser`, `forgotPassword` and `resetPassword` (hooks/use-auth.ts:24,55,59), but services/auth-service.ts defines none of them. It only has `getMe`. All three are modelled as remote calls whose result is a parameter.
- The store order inside login and logout keeps one invariant: a signed-in session always has a token stored, provided the user fetch only succeeds while a token is stored (`RunKeepsTokenBacked`).

## Model
| member | source | states |
|---|---|---|
| ApiErrors.GetApiError | lib/api-error.ts:8-20 | transport error: message is the first non-empty of body error, own message and "Something went wrong"; status is the response status, or 500 when absent or 0. Plain Error: its own message with 500. Anything else: "An unexpected error occurred" with 500 |
| ApiErrors.FirstNonEmpty | lib/api-error.ts:11 | reference meaning of a chain of JavaScript or-fallbacks: the result is "" exactly when every candidate is empty; otherwise it is the candidate at some index with only empty candidates before it |
| ApiErrors.FirstOfThree | lib/api-error.ts:11 | the nested or-fallbacks over three strings agree with the first-non-empty reference |
| ApiErrors.TransportMessagePrecedence | lib/api-error.ts:11 | a non-empty body error wins; otherwise a non-empty error message; otherwise the fixed fallback |
| ApiErrors.StatusNeverZero | lib/api-error.ts:10-19 | the status is never 0; every non-transport branch gives exactly 500 |
| ApiErrors.MessageNonEmpty | lib/api-error.ts:11-19 | the message is empty exactly when a plain Error with an empty message was thrown |
| ApiErrors.TransportBranchFirst | lib/api-error.ts:9-17 | an axios error is handled by the transport branch before the Error branch: any non-zero response status survives, where the Error branch would give 500 |
| AuthService.Login | services/auth-service.ts:12-15 | login settles as the HTTP call did; on success it hands back the body unchanged |
| AuthService.Register | services/auth-service.ts:17-23 | transport errors propagate. `success = false` throws an Error carrying the envelope's error, or "Registration failed" when that is missing or empty. `success = true` returns the envelope unchanged. A returned envelope always has `success` |
| AuthService.Acknowledge | services/auth-service.ts:25-31 | verifyEmail and resendOtp succeed exactly when the call did and propagate its error; the body is discarded |
| AuthService.GetMe | services/auth-service.ts:33-36 | getMe settles as the HTTP call did and hands back the body as the user |
| AuthService.BodyPassThrough | services/auth-service.ts:12-15 | login's and getMe's results do not depend on the response status, only on the body |
| AuthService.RejectedRegistrationMessage | services/auth-service.ts:19-20 | a rejected registration envelope always throws a plain Error with a non-empty message |
| UseAuth.IsAuthenticated | hooks/use-auth.ts:71 | authenticated exactly when a user is cached and the user query is not in error |
| UseAuth.Mounted | hooks/use-auth.ts:18-27 | on mount nothing is loaded, the query is neither in error nor stale, and the session is not authenticated; the token is whatever the store held |
| UseAuth.AfterLogin | hooks/use-auth.ts:31-35 | a login result with data and a successful token write stores `data.token`, caches `data.user` and authenticates. Any other result, or a failed token write, changes nothing |
| UseAuth.LoginSettled | hooks/use-auth.ts:29-37 | the login mutation succeeds exactly when the call did and the token write did not fail; a failed call settles with its own error, a failed token write with the store's error |
| UseAuth.AfterVerifyEmail | hooks/use-auth.ts:45-47 | a successful verifyEmail only marks the user query stale; user, error flag and token are unchanged |
| UseAuth.AfterLogout | hooks/use-auth.ts:62-66 | a completed logout leaves no token, a null user, a stale query and an unauthenticated session; a failed token removal changes nothing |
| UseAuth.AfterFetch | hooks/use-auth.ts:22-27 | with retry disabled, one fetch settles the query. Success caches the user, clears the stale mark and authenticates. Failure keeps the old user but sets the error, so the session is no longer authenticated. The token is never touched |
| UseAuth.AuthSession.constructor | hooks/use-auth.ts:15-27 | the hook's state on mount is `Mounted` |
| UseAuth.AuthSession.SetQueryData | hooks/use-auth.ts:34 | a cache write replaces the user and clears the error flag and the stale mark |
| UseAuth.AuthSession.InvalidateQueries | hooks/use-auth.ts:46 | invalidation only sets the stale mark |
| UseAuth.AuthSession.SetToken | hooks/use-auth.ts:33 | the token slot holds the new token unless the store failed; the failure is handed back |
| UseAuth.AuthSession.RemoveToken | hooks/use-auth.ts:63 | the token slot is emptied unless the store failed; the failure is handed back |
| UseAuth.AuthSession.ResolveFetch | hooks/use-auth.ts:22-27 | the new state is `AfterFetch` of the old one |
| UseAuth.AuthSession.Login | hooks/use-auth.ts:29-37 | the new state is `AfterLogin` of the old one and the service's login result; the mutation settles as `LoginSettled` |
| UseAuth.AuthSession.Register | hooks/use-auth.ts:39-41 | the register mutation settles as the service's register; the session is untouched and a success carries `success = true` |
| UseAuth.AuthSession.VerifyEmail | hooks/use-auth.ts:43-48 | settles as the call did; the new state is `AfterVerifyEmail` |
| UseAuth.AuthSession.ResendOtp | hooks/use-auth.ts:50-52 | succeeds exactly when the call did, otherwise fails with its error; the session is untouched |
| UseAuth.AuthSession.ForgotPassword | hooks/use-auth.ts:54-56 | settles with the remote result; the session is untouched |
| UseAuth.AuthSession.ResetPassword | hooks/use-auth.ts:58-60 | settles with the remote result; the session is untouched, so a reset does not sign the user in |
| UseAuth.AuthSession.Logout | hooks/use-auth.ts:62-66 | removes the token, then caches null, then invalidates; the new state is `AfterLogout`, and a removal failure is handed back |
| UseAuth.AuthSession.Apply | hooks/use-auth.ts:29-66 | running the handler an event stands for changes the state exactly as `Step`, so the trace lemmas describe the class |
| UseAuth.MountedTokenBacked | hooks/use-auth.ts:18-27 | on mount a signed-in session has a token (it is not signed in) |
| UseAuth.StepKeepsTokenBacked | hooks/use-auth.ts:31-35 | each handler keeps "signed in implies a token is stored", because login writes the token before caching the user and logout removes it only before caching null |
| UseAuth.RunKeepsTokenBacked | hooks/use-auth.ts:29-71 | over any sequence of events in which a successful fetch only happens with a token stored, a signed-in session always has a token |
| UseAuth.OnlyLoginOrFetchAuthenticates | hooks/use-auth.ts:29-71 | over any sequence of events, an unauthenticated session stays unauthenticated unless a login is stored or a user fetch succeeds |
| UseAuth.TokenOnlyByLoginOrLogout | hooks/use-auth.ts:31-66 | over any sequence without login or logout, the token slot is unchanged |
| UseAuth.HandlerlessMutationsChangeNothing | hooks/use-auth.ts:39-60 | any number of register, resendOtp, forgotPassword and resetPassword calls leave the session exactly as it was, whether they succeed or fail |
| UseAuth.LogoutIsSticky | hooks/use-auth.ts:62-71 | after a completed logout the session stays unauthenticated until a login is stored or a fetch succeeds |
| UseAuth.VerifyThenRefetch | hooks/use-auth.ts:43-48 | after a successful verifyEmail the query is stale with user and token kept; the next successful fetch caches the fresh user and authenticates |
| UseAuth.LoginThenLogout | hooks/use-auth.ts:31-66 | a stored login followed by a completed logout leaves no token, a null user and an unauthenticated session |

## Left out
- lib/auth.ts chooses between `localStorage` and `expo-secure-store` by platform. That is storage I/O over libraries outside the model. Only the token slot it maintains is modelled, and whether a write fails is a parameter.
- The HTTP calls and endpoint paths (`api.post`, `api.get`): what a call resolved with or threw is a parameter. lib/api.ts is not part of this model.
- The request DTOs (`LoginRequest`, `RegisterRequest`, ...) are not modelled. They only flow to the network, and `ForgotPasswordRequest` and `ResetPasswordRequest` are not declared in types/auth.ts.
- `axios.isAxiosError` and the shape of an axios error are replaced by the `Thrown` datatype. A non-string `error` in a response body is not modelled.
- The query library's internals are left out: refetch scheduling (a refetch after invalidation is a separate `ResolveFetch` step), request deduplication, observer subscriptions and the timing of `isLoading`. `isLoading` itself is not modelled.
- A mutation handle's pending/idle status is not modelled. Each handler method returns only the result its mutation settles with.
- Async interleaving of the awaited handlers is concurrency. Each handler is modelled as one atomic sequence of steps.
