# Wordly client core in Dafny

A model of the three pieces of the Wordly flashcard client that carry state
and rules, and proofs of what they promise:

- **The deck store** (`src/store/deckStore.js`, a Pinia store): the list of
  decks, the deck being studied, the study cursor (`currentCardIndex`,
  `showAnswer`), the recorded answers and the answer counters
  (`studyProgress`), with the getters `currentCard` and `isLastCard` and the
  thirteen actions.
- **The auth store** (`src/store/authStore.js`): the session (`user`,
  `accessToken`, `isAuthChecked`) and the single-flight refresh slot
  (`isRefreshing`, `refreshPromise`), with the getter `isAuthenticated` and
  the actions `login`, `refreshToken`, `checkAuth`, `logout` and `fetchUser`.
- **The HTTP client** (`src/api/axios.js`): the request interceptor that
  attaches `Authorization: Bearer <token>` (section 2.1 of RFC 6750), and the
  response interceptor that answers a 401 (section 15.5.2 of RFC 9110) by
  refreshing once and replaying the request once.

Each store appears twice:

- **A value model** (`deck_spec.dfy`, `auth_spec.dfy`). The state is a
  datatype, and each action is a function from the old state (and the
  service's reply) to the new state and to what the action returns or
  throws. The properties are proved about these functions.
- **A class** (`deck_store.dfy`, `auth_store.dfy`). Its fields are the
  store's fields, and its methods assign them in place as the actions do.
  Each method is proved to leave exactly the state that the value model's
  function gives. Each method also keeps the class invariant
  (`correct + incorrect == total` for decks; `isRefreshing` exactly when
  `refreshPromise` is set, for auth).

`http_client.dfy` follows the same split. `Authorize`, `OnRejected` and
`Deliver` describe one request as a value. `AttachToken`, `HandleRejection`
and `Send` change a `RequestConfig` object and the auth store, and are proved
to agree with those functions.

Service calls (`deckService`, `authService`) and the transport are
parameters. Each one carries the reply the service gives (a `Result`: the
resolved value or the thrown error). Each asynchronous action runs
atomically, with one exception: `refreshToken` is split into
`BeginRefresh`/`RefreshToken`, which decides and fills the slot, and
`CompleteRefresh`/`SettleRefresh`, the promise handlers that run when the
refresh call settles. With this split, single flight can be stated over any
number of callers. The refresh promise a caller waits on is identified by
the number of the refresh call (`refreshCalls`). This counter is not a field
of the store; it exists only to state single flight.

In these places the code does something a reader might not expect, and the
model follows it:

- A failing **replay** does not log out. `return api(originalRequest)` sits
  inside the `try` without `await`, so the replay's rejection bypasses the
  `catch` and reaches the caller unchanged, and the refreshed session stays
  (`HttpClient.ReplayFailureKeepsSession`). Only a failing refresh logs out.
- `showAnswer` is cleared only when the cursor actually moves.
- `setCurrentDeck` does not reset the cursor.
- `logout` empties the refresh slot while the refresh it held may still be
  running. After a new login, a second refresh can therefore start before
  the first has settled (`AuthSpec.LogoutReopensTheSlot`).

## Model

| member | source | states |
|---|---|---|
| DeckSpec.Initial | src/store/deckStore.js:14-27 | no decks and no current card (so `isLastCard` holds), counters zero and balanced, not loading, no error |
| DeckSpec.CardsOrEmpty | src/store/deckStore.js:77 | a deck's `Cards` when it has them, the empty array otherwise |
| DeckSpec.Failed | src/store/deckStore.js:98-103 | the `catch`/`finally` of a failed action: `error` holds the thrown message, `loading` is false, nothing else changes |
| DeckSpec.IsLastCard | src/store/deckStore.js:35-38 | true without `Cards`; with `Cards`, true exactly when there is a current card and it is the last one |
| DeckSpec.CurrentCard | src/store/deckStore.js:30-33 | there is a current card exactly when a deck with `Cards` is loaded and the index is inside it, and then it is `Cards[currentCardIndex]` |
| DeckSpec.NextCard | src/store/deckStore.js:166-172 | the index moves exactly when there are `Cards` and it is below the last position; a move is +1 and clears `showAnswer`; otherwise nothing changes, `showAnswer` included; nothing but index and `showAnswer` ever changes; an in-bounds cursor stays in bounds |
| DeckSpec.PreviousCard | src/store/deckStore.js:174-180 | the index moves exactly when there are `Cards` and it is above 0; a move is -1 and clears `showAnswer`; otherwise nothing changes; an in-bounds cursor stays in bounds |
| DeckSpec.ToggleAnswer | src/store/deckStore.js:182-184 | `showAnswer` flips and nothing else changes |
| DeckSpec.ResetStudySession | src/store/deckStore.js:186-195 | index 0, `showAnswer` false, no recorded answers, all counters 0; decks, current deck, `loading` and `error` kept; with a non-empty deck the cursor is in bounds |
| DeckSpec.SetCurrentDeck | src/store/deckStore.js:197-199 | `currentDeck` becomes the given deck and nothing else changes, the cursor included |
| DeckSpec.ClearError | src/store/deckStore.js:201-203 | `error` is cleared and nothing else changes |
| DeckSpec.Tally | src/store/deckStore.js:150-155 | exactly one of `correct`/`incorrect` grows by one, as the verdict says, and `total` grows by one |
| DeckSpec.SubmitAnswer | src/store/deckStore.js:134-164 | no current card: nothing changes and the action resolves to nothing; service failure: only `loading`/`error` change and the error is rethrown; success: the answer is recorded under the current card's id, the counters are tallied, the verdict is returned; deck, decks, cursor and `showAnswer` never change and `correct + incorrect == total` is kept |
| DeckSpec.FetchDecks | src/store/deckStore.js:47-56 | success replaces `decks`; failure sets only `error` and is not rethrown; `loading` ends false |
| DeckSpec.CreateDeck | src/store/deckStore.js:58-70 | success appends the new deck after the old ones, which are kept in order, and returns it; failure changes only `loading`/`error` and rethrows |
| DeckSpec.FindIndex | src/store/deckStore.js:93 | the result is the position of the first deck with the id, or -1 exactly when no deck has it |
| DeckSpec.ReplaceFirst | src/store/deckStore.js:93-96 | same length; the first deck with the id is replaced and every other entry is kept; with no match the list is unchanged |
| DeckSpec.UpdateDeck | src/store/deckStore.js:89-104 | success replaces the first deck with the id (as ReplaceFirst) and returns the updated deck; failure changes only `loading`/`error` and rethrows |
| DeckSpec.RemoveId | src/store/deckStore.js:110 | a deck is kept exactly when it was there and its id differs; the list never grows |
| DeckSpec.DeleteDeck | src/store/deckStore.js:106-117 | success filters the id out of `decks`; failure changes only `loading`/`error` and rethrows |
| DeckSpec.AddCard | src/store/deckStore.js:72-87 | when the current deck has the id, its `Cards` (created if absent) get the new card at the end; otherwise the current deck is untouched; only `currentDeck`/`loading` change; failure changes only `loading`/`error` and rethrows; an in-bounds cursor stays in bounds |
| DeckSpec.FetchDeck | src/store/deckStore.js:119-132 | success makes the fetched deck current and starts the study session over, with the cursor in bounds on a non-empty deck; failure changes only `loading`/`error` and rethrows |
| DeckSpec.FetchDeckResets | src/store/deckStore.js:122-124 | a successful `fetchDeck` is `resetStudySession` on the store with the fetched deck current, followed by the end of `loading` |
| DeckSpec.LastCardIffNextCardStays | src/store/deckStore.js:35-38 | when there are no `Cards` or the cursor is in bounds, `isLastCard` holds exactly when `nextCard` changes nothing |
| DeckSpec.ToggleAnswerTwice | src/store/deckStore.js:182-184 | toggling twice restores the state |
| DeckSpec.ResetIsIdempotent | src/store/deckStore.js:186-195 | resetting twice is resetting once |
| DeckSpec.SetCurrentDeckKeepsCursor | src/store/deckStore.js:197-199 | the index is kept, so the cursor is inside the new deck exactly when the old index fits its `Cards` |
| DeckSpec.SubmitAllKeepsCursor | src/store/deckStore.js:134-164 | any run of answers leaves decks, current deck and index as they were |
| DeckSpec.SubmitAllTally | src/store/deckStore.js:145-155 | over any run of answers on a current card, `correct`/`incorrect` grow by the number of verdicts of each kind, `total` by their sum, and `correct + incorrect == total` is kept |
| DeckSpec.SubmitAllWithoutCard | src/store/deckStore.js:135 | with no current card any run of answers changes nothing |
| DeckSpec.RemoveIdAppend | src/store/deckStore.js:110 | filtering distributes over concatenation, so the kept decks stay in order |
| DeckSpec.RemoveIdKeepsUnmatched | src/store/deckStore.js:110 | with no deck carrying the id, deleting leaves the list as it is |
| DeckSpec.RemoveIdIdempotent | src/store/deckStore.js:110 | deleting the same id twice is deleting it once |
| DeckStore.Store.constructor | src/store/deckStore.js:14-27 | the initial state, counters balanced |
| DeckStore.Store.CurrentCard | src/store/deckStore.js:30-33 | computed from the fields, it equals DeckSpec.CurrentCard of the store's state |
| DeckStore.Store.IsLastCard | src/store/deckStore.js:35-38 | computed from the fields, it equals DeckSpec.IsLastCard of the store's state |
| DeckStore.Store.FetchDecks | src/store/deckStore.js:47-56 | the fields end as DeckSpec.FetchDecks says; counters stay balanced |
| DeckStore.Store.CreateDeck | src/store/deckStore.js:58-70 | fields and result as DeckSpec.CreateDeck (push onto `decks`); counters stay balanced |
| DeckStore.Store.AddCard | src/store/deckStore.js:72-87 | fields and result as DeckSpec.AddCard; counters stay balanced |
| DeckStore.Store.UpdateDeck | src/store/deckStore.js:89-104 | fields and result as DeckSpec.UpdateDeck (assignment at the found index); counters stay balanced |
| DeckStore.Store.DeleteDeck | src/store/deckStore.js:106-117 | fields and result as DeckSpec.DeleteDeck; counters stay balanced |
| DeckStore.Store.FetchDeck | src/store/deckStore.js:119-132 | fields and result as DeckSpec.FetchDeck (through the ResetStudySession method); counters stay balanced |
| DeckStore.Store.SubmitAnswer | src/store/deckStore.js:134-164 | fields and result as DeckSpec.SubmitAnswer (counters incremented in place); counters stay balanced |
| DeckStore.Store.NextCard | src/store/deckStore.js:166-172 | fields as DeckSpec.NextCard |
| DeckStore.Store.PreviousCard | src/store/deckStore.js:174-180 | fields as DeckSpec.PreviousCard |
| DeckStore.Store.ToggleAnswer | src/store/deckStore.js:182-184 | only `showAnswer` flips |
| DeckStore.Store.ResetStudySession | src/store/deckStore.js:186-195 | fields as DeckSpec.ResetStudySession |
| DeckStore.Store.SetCurrentDeck | src/store/deckStore.js:197-199 | only `currentDeck` changes |
| DeckStore.Store.ClearError | src/store/deckStore.js:201-203 | only `error` is cleared |
| AuthSpec.Initial | src/store/authStore.js:5-11 | no session, refreshing not refused, no refresh pending, no refresh call made |
| AuthSpec.IsAuthenticated | src/store/authStore.js:97 | false without a token and for the empty token, true for any non-empty token (JavaScript truthiness) |
| AuthSpec.Logout | src/store/authStore.js:64-76 | user and token absent, `isAuthChecked` set, slot empty, whatever the prior state: not authenticated, and further refreshes are refused |
| AuthSpec.Login | src/store/authStore.js:12-23 | success sets token and user from the response and `isAuthChecked`, and a non-empty token authenticates; failure sets only `isAuthChecked` and rethrows; the refresh slot is untouched |
| AuthSpec.BeginRefresh | src/store/authStore.js:24-34 | rejected with "User is not authenticated" exactly when the session was determined and is not authenticated, with no state change; otherwise the pending promise is returned exactly when one exists, with no state change; otherwise exactly one new refresh call starts and fills the slot; slot coherence is kept |
| AuthSpec.CompleteRefresh | src/store/authStore.js:35-49 | every waiter gets the refresh's own result; success sets token, user and `isAuthChecked`; failure leaves exactly the post-logout state; the slot ends empty either way |
| AuthSpec.CheckAuth | src/store/authStore.js:51-58 | does nothing exactly when the session was determined and is not authenticated; otherwise waits on the pending refresh or starts one, with the same state as `refreshToken` |
| AuthSpec.CheckAuthResult | src/store/authStore.js:51-63 | `checkAuth` rejects exactly when it waited on a refresh it did not start and that refresh failed; the failure of its own refresh is swallowed |
| AuthSpec.FetchUser | src/store/authStore.js:77-94 | only `user` changes; unauthenticated: user cleared and no call; success stores the user; failure clears it and rethrows |
| AuthSpec.Callers | src/store/authStore.js:24-34 | n callers of `refreshToken` in a row get n answers, make at most one refresh call, change nothing when refreshing is refused or already running, and keep the slot coherent |
| AuthSpec.RunKeepsSlotCoherent | src/store/authStore.js:30-49 | after any sequence of actions `isRefreshing` holds exactly when `refreshPromise` is set |
| AuthSpec.JoinersShareThePending | src/store/authStore.js:30-32 | callers arriving while a refresh is pending all get that promise and change nothing |
| AuthSpec.SingleFlight | src/store/authStore.js:24-50 | any number of callers from an idle, not refused store make exactly one refresh call and all wait on that refresh |
| AuthSpec.RefusedCallersChangeNothing | src/store/authStore.js:26-28 | when refreshing is refused every caller is rejected and nothing changes |
| AuthSpec.LogoutForgetsPriorState | src/store/authStore.js:64-76 | logout ends in the same state from any prior state, so it is idempotent |
| AuthSpec.FetchUserSkipsCallWhenUnauthenticated | src/store/authStore.js:78-83 | without a session the endpoint's reply is never consulted |
| AuthSpec.LogoutReopensTheSlot | src/store/authStore.js:70-75 | logout and login during a pending refresh let a second refresh call start |
| AuthStore.Store.constructor | src/store/authStore.js:5-11 | the initial state, slot coherent |
| AuthStore.Store.IsAuthenticated | src/store/authStore.js:97 | computed from `accessToken`, it equals AuthSpec.IsAuthenticated of the store's state |
| AuthStore.Store.Login | src/store/authStore.js:12-23 | fields and outcome as AuthSpec.Login; slot coherent |
| AuthStore.Store.RefreshToken | src/store/authStore.js:24-34 | fields and answer as AuthSpec.BeginRefresh; slot coherent |
| AuthStore.Store.SettleRefresh | src/store/authStore.js:35-49 | fields and result as AuthSpec.CompleteRefresh (failure through the Logout method); slot coherent |
| AuthStore.Store.CheckAuth | src/store/authStore.js:51-63 | fields and answer as AuthSpec.CheckAuth (through the RefreshToken method); slot coherent |
| AuthStore.Store.Logout | src/store/authStore.js:64-76 | fields as AuthSpec.Logout from any state; slot coherent |
| AuthStore.Store.FetchUser | src/store/authStore.js:77-94 | fields and outcome as AuthSpec.FetchUser; slot coherent |
| HttpClient.BearerHeader | src/api/axios.js:12 | the header value parses back to the token |
| HttpClient.Authorize | src/api/axios.js:9-15 | with a truthy token the request carries `Authorization` holding exactly that Bearer token; otherwise the request is unchanged; other headers and the retry mark are never touched |
| HttpClient.ShouldRetry | src/api/axios.js:23 | holds only for a 401, never on a marked request or without a session, and always for a 401 on an unmarked request with a session |
| HttpClient.OnRejected | src/api/axios.js:19-36 | a rejection that is not a 401, or is on a marked request, or comes while unauthenticated is passed through with no refresh and no state change; otherwise the request is marked and replayed exactly when the refresh succeeds; the replay is sent at most once; after a successful refresh the store is in the refreshed state and an answered replay's response is the caller's result; at most one refresh call is made |
| HttpClient.Deliver | src/api/axios.js:17-36 | a request is sent once or twice, twice exactly when its rejection qualifies for the retry and the refresh succeeds; a successful response, to the first send or to the replay, reaches the caller unchanged; after a successful refresh the store is in the refreshed state; at most one refresh call is made |
| HttpClient.RefreshFailureEndsSession | src/api/axios.js:29-32 | a failed refresh rejects the caller with the refresh error, not the 401, and leaves the post-logout state |
| HttpClient.ReplayFailureKeepsSession | src/api/axios.js:26-28 | after a successful refresh a failing replay reaches the caller unchanged and the refreshed session stays |
| HttpClient.ReplayCarriesRefreshedToken | src/api/axios.js:26-28 | the replay is marked and carries the token obtained by the awaited refresh |
| HttpClient.OtherHeadersUntouched | src/api/axios.js:11-13 | headers other than `Authorization` reach the server as the caller set them, also on the replay |
| HttpClient.DeliverKeepsSlotCoherent | src/api/axios.js:19-36 | the interceptors keep the refresh slot coherent |
| HttpClient.RefreshCallWaitsOnItself | src/services/authService.js:18-25 | a 401 on the refresh call itself qualifies for the retry and its handler joins the refresh that is waiting on that very call |
| HttpClient.GuardedRefreshCallSettles | src/api/axios.js:23-24 | a refresh call sent already marked has its 401 passed through unchanged; the refresh then fails with whatever error `refreshAccessToken` throws, and the session ends |
| HttpClient.AttachToken | src/api/axios.js:9-15 | the configuration ends as HttpClient.Authorize says |
| HttpClient.HandleRejection | src/api/axios.js:19-36 | configuration, store, result and number of replays as HttpClient.OnRejected; the replay's rejection goes through the same handler, which passes it on |
| HttpClient.Send | src/api/axios.js:9-36 | configuration, store, result and number of sends as HttpClient.Deliver |

## Findings

| source | as written | input that shows it | evidently intended | confidence | as-written member | corrected member |
|---|---|---|---|---|---|---|
| src/services/authService.js:18-25 | the refresh request goes through the client whose 401 handler calls `refreshToken` | an authenticated store whose refresh endpoint answers 401: the handler of that 401 gets the pending refresh, which waits on the same request, so neither settles and `isRefreshing` stays set | the refresh call's 401 rejects the refresh, which logs out | medium, not executed | HttpClient.RefreshCallWaitsOnItself | HttpClient.GuardedRefreshCallSettles |

Everywhere else the model treats the refresh reply as a `Result` that always
arrives. That is the corrected behaviour: a 401 on the refresh call ends the
refresh as a failure.

## Left out

- Service modules (`deckService`, `authService`, `userService`) and the transport: each call is a parameter holding its reply. Their logging and rethrowing are not modelled, nor is the extra retry inside `fetchUserData`.
- Interleavings of asynchronous actions: each action runs atomically, apart from the begin/settle split of `refreshToken`. The timing of `loading` across awaits is not modelled.
- The un-awaited `this.logout()` in the refresh failure handler: the model clears the session as soon as the refresh fails. In the code, that `finally` runs only after `logoutUser` settles, so the refresh's waiters receive the rejection while the token is still set.
- HttpClient.OnRejected: a request that joins a pending refresh sees that refresh settle within its own handler. Concurrent requests that each start a refresh after the previous one settled are not distinguished from requests that share one.
- Aliasing: decks are values, so `currentDeck` never shares an object with an entry of `decks`, and `addCard` does not show up in `decks`.
- The `progress` getter (floating-point percentage).
- The router, `main.js` and `errorHandler.js`. An error is its message.
- Console logging.
- AuthSpec.Logout: the server's answer to the logout call is not an input, because the `finally` block clears the session whatever it is.
- The store imports `fetchDecks`, `fetchDeck`, `submitAnswer` and `getCardAnswer`, which `deckService.js` does not export. The model treats them as services that reply.
- Responses are assumed to carry an `accessToken` string. A missing token, which would give the header `Bearer undefined`, is not modelled.
- HttpClient.Deliver: only `headers` and `_retry` of the request configuration are modelled; the rest of the request (method, URL, body) is left out.
