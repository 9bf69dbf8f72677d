# Retreat client core, modelled in Dafny

This project models the four small state machines of a React front end for
browsing and booking wellness retreats:

- the **session slice** (`userSlice.ts`): `{user, loggedIn}` mirrored into two
  `localStorage` keys, `"user"` and `"token"`, with the reducers `setUser` and
  `logout` and the initial state read back from storage when the module loads;
- the **paginated search** (`RetreatSectionDemo.tsx`): a search term, a page
  cursor, the page of retreats shown, a loading flag, a 400 ms debounce timer
  and the GET requests it issues;
- the **expandable-card overlay** (`ExpandableCard.tsx`): a card list fetched
  once, and an `active` value that is `null`, `false` or a card, with the body
  scroll lock that follows it;
- the **login handler** (`login-form.tsx`): the request body, how the reply is
  read, the storage write, the `setUser` dispatch and the toast shown.

Files: `wrappers.dfy` (Option, map lookup, JavaScript truthiness of strings),
`userjson.dfy` (the user record and its stored text), `text.dfy` (decimal page
numbers, `join`/`split`), `listing.dfy` (the retreat record), `session.dfy`,
`search.dfy`, `overlay.dfy`, `login.dfy`.

Modelling choices:

- Browser storage is a class with a `map<string, string>`; the reducers and the
  login handler change it in place. `JSON.stringify`/`JSON.parse` of the user are a
  concrete encoder/decoder for the one record shape. It quotes each value and
  escapes only `"` and `\`. The decoder inverts the encoder both ways.
- Truthiness follows the code: a stored `"user"` or `"token"` holding the empty
  string counts as absent. So after `setUser(p)` with an empty `p.token`, a reload
  restores `p` but not `loggedIn` (`Session.Session.SetUser` states this as an
  "if and only if").
- The debounce timer is a single pending slot. A change of term or page sets it to
  the new query, and `FireTimer` fetches what it holds. React re-runs the effect only
  when a value actually changes, so typing the same term or clicking the active page
  does not reset the timer. The invariant `Valid()` proves the slot always holds the
  current query.
- Network replies are method inputs. A reply may resolve any outstanding request,
  in any order. The abort function that `fetchRetreats` returns is never called, so
  nothing is cancelled: `StaleResponseWins` shows an older response overwriting the
  results of a newer search. The code does not cancel superseded fetches, and the
  model follows the code.
- While `loading` holds the component renders only skeleton cards, so the search
  box, the pagination controls and the "Book Now" buttons are not on screen. Their
  handlers require `!loading`, and "Book Now" also requires a listed retreat. The
  scenarios let a response settle before the visitor types.
- The page cursor stays at 1 or above, and `Valid()` proves it. It is not bounded
  by `totalPages`: a new search can shrink `totalPages` and leave `currentPage`
  where it was.
- Effects are outputs or logs: requested URLs, a count of `console.error` reports,
  the alert text, the toast, the redirect target.

## Model

| member | source | states |
|---|---|---|
| `UserJson.Serialize` | src/features/userSlice.ts:31 | the stored user text is never empty, so it is always truthy when read back |
| `UserJson.ParseSerialize` | src/features/userSlice.ts:18-31 | parsing the text `setUser` stores gives back the same user |
| `UserJson.Parse` | src/features/userSlice.ts:19 | accepts only text that opens with the `username` member and ends with `}`; everything else is where `JSON.parse` would throw for this record |
| `UserJson.SerializeParse` | src/features/userSlice.ts:18-20 | any text the parser accepts is the stored form of the user it yields |
| `UserJson.SerializeInjective` | src/features/userSlice.ts:31 | different users are stored as different texts |
| `Session.InitialState` | src/features/userSlice.ts:17-22 | loading fails exactly when a non-empty stored user does not parse; otherwise `loggedIn` holds iff `"token"` is present and non-empty, and `user` is the parsed stored user iff `"user"` is present and non-empty |
| `Session.StoreAfterSetUser` | src/features/userSlice.ts:31-34 | storage after `setUser` holds its old keys plus `"user"` and `"token"`, with the serialised user under `"user"` and the user's token under `"token"` |
| `Session.StoreAfterLogout` | src/features/userSlice.ts:39-40 | storage after `logout` holds exactly its old keys other than `"user"` and `"token"` |
| `Session.ReducersKeepOtherKeys` | src/features/userSlice.ts:29-41 | `setUser` and `logout` leave every storage key other than `"user"` and `"token"` unchanged |
| `Session.LogoutIdempotent` | src/features/userSlice.ts:36-41 | logging out twice leaves the same storage as logging out once |
| `Session.RestoreAfterSetUser` | src/features/userSlice.ts:17-35 | a reload after `setUser(p)` restores `user == p`, with `loggedIn` iff the token is non-empty |
| `Session.RestoreAfterLogout` | src/features/userSlice.ts:17-41 | a reload after `logout` gives no user and not logged in |
| `Session.LocalStorage.SetItem` | src/features/userSlice.ts:31 | the key is bound to the value and every other key is untouched |
| `Session.LocalStorage.RemoveItem` | src/features/userSlice.ts:39-40 | the key is gone and every other key is untouched |
| `Session.Session.constructor` | src/features/userSlice.ts:17-22 | the slice starts in the state derived from storage, which is then persisted |
| `Session.Session.SetUser` | src/features/userSlice.ts:29-35 | `user == p` and `loggedIn`; storage holds the serialised user under `"user"` and `p.token` under `"token"`, nothing else changes; the state survives a reload iff the token is non-empty |
| `Session.Session.Logout` | src/features/userSlice.ts:36-41 | no user, not logged in, both keys removed, nothing else changes, and the state survives a reload |
| `Text.NatToString` | src/components/example/RetreatSectionDemo.tsx:55-56 | a page number prints as a non-empty run of digits without a leading zero |
| `Text.DigitsValueOfNatToString` | src/components/example/RetreatSectionDemo.tsx:55-56 | reading the printed page number back gives the number |
| `RetreatSearch.RetreatsUrl` | src/components/example/RetreatSectionDemo.tsx:54-56 | the search endpoint is used iff the term is non-empty, the listing endpoint otherwise, and the address always ends in `&limit=5` |
| `RetreatSearch.DecodeRetreatsUrlOf` | src/components/example/RetreatSectionDemo.tsx:54-56 | the term (inserted verbatim) and the page can be read back from the address |
| `RetreatSearch.RetreatsUrlInjective` | src/components/example/RetreatSectionDemo.tsx:54-56 | two different queries never request the same address |
| `RetreatSearch.PageLinks` | src/components/example/RetreatSectionDemo.tsx:181-191 | `totalPages` links (none when it is not positive), numbered 1..`totalPages`, link `i+1` active iff it is the current page |
| `RetreatSearch.ActiveLinkUnique` | src/components/example/RetreatSectionDemo.tsx:181-191 | at most one link is active, and one is iff the current page lies in 1..`totalPages` |
| `RetreatSearch.PreviousPage` | src/components/example/RetreatSectionDemo.tsx:177 | "Previous" yields a target page iff the current page is above 1, and the target is the page before |
| `RetreatSearch.NextPage` | src/components/example/RetreatSectionDemo.tsx:200 | "Next" yields a target page iff the current page is below `totalPages`, and the target is the page after |
| `RetreatSearch.PageMoves` | src/components/example/RetreatSectionDemo.tsx:175-200 | "Previous" moves only from above page 1 and "Next" only below `totalPages`; neither leaves that range, and each undoes the other |
| `RetreatSearch.SearchController.constructor` | src/components/example/RetreatSectionDemo.tsx:45-85 | on mount: no retreats, loading, page 1 of 1, empty term; one request for the listing page 1 and a timer set for the same query |
| `RetreatSearch.SearchController.Fetch` | src/components/example/RetreatSectionDemo.tsx:51-62 | one request for the address of the query is added and left outstanding; nothing shown changes |
| `RetreatSearch.SearchController.FetchSucceeded` | src/components/example/RetreatSectionDemo.tsx:63-70 | the response's retreats and page count replace what is shown, loading ends, the request is no longer outstanding |
| `RetreatSearch.SearchController.FetchFailed` | src/components/example/RetreatSectionDemo.tsx:65-70 | retreats and page count are kept, loading ends, and the failure is logged iff it is not an abort |
| `RetreatSearch.SearchController.FireTimer` | src/components/example/RetreatSectionDemo.tsx:75-78 | the timer fetches the current term and page and is cleared |
| `RetreatSearch.SearchController.HandleChange` | src/components/example/RetreatSectionDemo.tsx:75-89 | only the term changes, the page is not reset; a different term replaces the timer with one for the new query |
| `RetreatSearch.SearchController.OnSubmit` | src/components/example/RetreatSectionDemo.tsx:91-94 | requests the current query at once and leaves a pending timer in place |
| `RetreatSearch.SearchController.HandlePageChange` | src/components/example/RetreatSectionDemo.tsx:96-98 | only the page changes; a different page replaces the timer with one for the new query |
| `RetreatSearch.SearchController.HandlePrevious` | src/components/example/RetreatSectionDemo.tsx:173-179 | moves to the page before only when the current page is above 1; otherwise nothing changes |
| `RetreatSearch.SearchController.HandleNext` | src/components/example/RetreatSectionDemo.tsx:196-202 | moves to the page after only when the current page is below `totalPages`; otherwise nothing changes |
| `RetreatSearch.SearchController.HandlePageLink` | src/components/example/RetreatSectionDemo.tsx:181-190 | the link at position `i` moves to page `i+1` |
| `RetreatSearch.SearchController.HandleBook` | src/components/example/RetreatSectionDemo.tsx:109-113 | the login alert is produced iff the visitor is not logged in |
| `RetreatSearch.TypingBurstSettlesOnce` | src/components/example/RetreatSectionDemo.tsx:75-81 | keystrokes ahead of the timer, then a quiet period, issue exactly one request, for the last value typed |
| `RetreatSearch.MountThenSearchYoga` | src/components/example/RetreatSectionDemo.tsx:51-89 | mounting, the listing response arriving, and then typing "yoga" before the mount's timer fires produces exactly the listing request for page 1 and one search request for "yoga", page 1 |
| `RetreatSearch.StaleResponseWins` | src/components/example/RetreatSectionDemo.tsx:51-81 | once the first response has settled and "yoga" is searched, the still-outstanding listing request, answered last, overwrites the search results |
| `CardOverlay.ShowsOverlay` | src/components/example/ExpandableCard.tsx:53-87 | the overlay is shown iff `active` is a card: both `null` and `false` mean closed |
| `CardOverlay.BodyOverflow` | src/components/example/ExpandableCard.tsx:53-57 | the body overflow is `"hidden"` iff a card is active and `"auto"` otherwise |
| `CardOverlay.TagLine` | src/components/example/ExpandableCard.tsx:178 | no tags give `""`, one tag gives the tag itself |
| `CardOverlay.TagLineLossless` | src/components/example/ExpandableCard.tsx:178 | the tag line splits back into the tags, in order, when there is at least one tag and none contains `", "` |
| `CardOverlay.ExpandableCard.constructor` | src/components/example/ExpandableCard.tsx:24-26 | no cards, loading, nothing active, scrolling not locked |
| `CardOverlay.ExpandableCard.SetActive` | src/components/example/ExpandableCard.tsx:46-61 | after each change of `active`, the overflow lock matches it |
| `CardOverlay.ExpandableCard.Select` | src/components/example/ExpandableCard.tsx:187-191 | clicking a listed card opens it and locks scrolling |
| `CardOverlay.ExpandableCard.KeyDown` | src/components/example/ExpandableCard.tsx:47-51 | Escape sets `active` to `false` and unlocks scrolling; other keys change nothing |
| `CardOverlay.ExpandableCard.OutsideClick` | src/components/example/ExpandableCard.tsx:63 | sets `active` to `null` and unlocks scrolling |
| `CardOverlay.ExpandableCard.CloseButton` | src/components/example/ExpandableCard.tsx:105 | sets `active` to `null` and unlocks scrolling |
| `CardOverlay.ExpandableCard.FetchSucceeded` | src/components/example/ExpandableCard.tsx:30-44 | the cards become the response data and loading ends |
| `CardOverlay.ExpandableCard.FetchFailed` | src/components/example/ExpandableCard.tsx:36-40 | the cards are unchanged and loading ends |
| `CardOverlay.OpenThenEscape` | src/components/example/ExpandableCard.tsx:47-57 | opening a card then pressing Escape hides the overlay and unlocks scrolling |
| `Login.RequestBody` | src/components/example/login-form.tsx:31-36 | the posted body has exactly the keys `username` and `password`, holding the form's values |
| `Login.FailureToast` | src/components/example/login-form.tsx:67-72 | a destructive "Login Error" toast whose description is `Error:` immediately followed by the message |
| `Login.LoginOutcome` | src/components/example/login-form.tsx:45-66 | the login succeeds iff the request resolves with status 200, and then with the reply's user |
| `Login.FailureMessages` | src/components/example/login-form.tsx:45-66 | login succeeds iff the request resolves with status 200; another status shows `error` if truthy, else `Login Failed`; a rejected request shows the response's `message` if truthy, else the error's own message |
| `Login.LoginStorage` | src/components/example/login-form.tsx:51-59 | the handler's own token write followed by `setUser` leaves the same storage as `setUser` alone |
| `Login.LoginSurvivesReload` | src/components/example/login-form.tsx:48-59 | after a successful login a reload restores the user, logged in iff the token is non-empty |
| `Login.HandleSubmit` | src/components/example/login-form.tsx:23-73 | posts the form body; on success shows the success toast, logs the user in, stores the user and token, and redirects to `/`; on failure shows the error toast and changes neither the session nor storage |

## Left out

- Rendering: JSX, Tailwind classes, framer-motion animation and layout ids, `CloseIcon`, `BottomGradient`, `LabelInputContainer`, and the `SkeletonCard` markup. That the skeleton hides the controls is modelled, as the handlers' `!loading` precondition.
- `BackgroundBeamsDemo.tsx`, `Home.tsx`, `App.tsx`, `main.tsx`, `navItems.tsx`: static markup, routing and theming, with no logic.
- HTTP itself: requests are recorded as addresses or bodies, and replies are method inputs. Headers and `withCredentials` are not modelled.
- Request cancellation: the code never calls the abort function, so the model has no cancellation, and an abort can only arrive as the `isAbort` input of `FetchFailed`.
- The 400 ms delay: the timer is a pending slot that fires when `FireTimer` is called. Wall-clock time is not modelled.
- React StrictMode, which runs effects twice in development builds.
- `toLocaleDateString`: it depends on the locale and the time zone.
- `alert`, toast rendering and `window.location.replace`: they are method results, not effects. `console.log` and the `console.error` calls in the login and overlay views are not recorded.
- `useOutsideClick`: that hook is not part of this model. `ExpandableCard.OutsideClick` is the callback it runs, not its test of where the click landed.
- Booking: the shown code has no booking request, booked set or booking notification. `handleBook` only alerts.
- UserJson.Serialize: escapes only `"` and `\`. `JSON.stringify` also escapes control characters and lone surrogates; for values holding those, the stored text differs from the browser's.
- UserJson.Parse: recognises only the text its encoder writes. Any other JSON text, for example `null`, other key orders or escapes such as `\n`, is treated as making `JSON.parse` throw.
- Session.Session.constructor: requires that loading succeeds. The failing load is modelled by `InitialState` returning `None`.
- Login.HandleSubmit: the success body is modelled as exactly the user record. It does not model extra fields that `setUser` would also serialise, values that are not strings, errors thrown by `setItem`, `toast` or `dispatch`, or a rejected reply whose `data` is null.
- RetreatSearch.SearchController.FetchSucceeded: the response is assumed to carry `retreats` and `totalPages`. A body without them, which would store `undefined`, is not modelled.
- CardOverlay.ExpandableCard.FetchSucceeded: the response is taken to be a list of retreats. `fetch` does not reject on an error status, so `setCards` would store whatever JSON the server sent; that case is not modelled.
- RetreatSearch.SearchController.HandlePageChange: requires a page of at least 1. Every caller in the component passes such a page.
