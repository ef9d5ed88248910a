# tickets-go-admin: a Dafny model of the dashboard's logic

This project models the logic of the ticketing back-office dashboard. That is the code that decides what state the screens hold, what they send, and who may see which page. Rendering, network transport and the UI widgets are outside it.

- `js.dfy` (`Js`): the few JavaScript semantics the code leans on. It covers nullish values, string truthiness, `a || b`, settled promises (`Outcome`) and `Array.prototype.slice`, including negative indices.
- `paging.dfy` (`Paging`): the client-side pagination both list screens share. The whole list is fetched once. Page `p` is the slice `[(p-1)*10, p*10)`, each row keyed by the document's `_id`.
- `auth_slice.dfy` (`AuthSlice`): the `auth` Redux slice `{token, isLogin}` with `setToken`, `clearToken` and `resetStore`. It holds the slice reducer as a function and the Immer draft the case reducers assign into as a class.
- `root_reducer.dfy` (`RootReducer`): `combineReducers` over `auth` and the two API slices, wrapped so that the action type `RESET_STORE` throws the previous state away. The API slices' reducers are parameters.
- `middleware.dfy` (`Middleware`): the route gate and its path matcher, taken as registered with Next.js (see "## Left out"). Without a `token` cookie the gate redirects to `/home`; otherwise the request continues. The matcher is `/((?!_next/static|_next/image|favicon.ico).*)`.
- `layout.dfy` (`AdminLayout`): the admin shell (`Shell`). It covers the static two-level menu `items2`, the breadcrumb derived from a menu click (including the in-place reversal of `keyPath`), and the selection and open submenus persisted in `localStorage`. It also covers the identity read from cookies, logout, the logo click, the rendered breadcrumb and the user menu.
- `tags.dfy` (`TagsPage`): the tags screen (`TagsScreen`). It covers pagination, the create/edit modal, the delete confirmation and the calls each handler issues.
- `events.dfy` (`EventsPage`): the events screen (`EventsScreen`).
  - The create/edit modal's two ordered lists, sessions and seat price tiers, with their add, duplicate, delete and edit handlers.
  - Hydration of the draft from a fetched event.
  - Assembly of the request body.
  - The create path, which uploads pending images before creating; the edit path, which sends one update; and the delete confirmation.

Handlers that change component state are methods of a class whose fields are the component's `useState` variables. Each method's `modifies` clause names exactly the state the handler sets, field by field (and the `keyPath` array that a menu click reverses). A handler that talks to the server returns the calls it issues, in order, as a list of `TagCall` or `EventCall` values. How an awaited call settles is an input of the handler.

## Model

| member | source | states |
|---|---|---|
| Js.Or | src/pages/events/index.tsx:310-311 | JavaScript's logical or on two string-or-nullish values: the left operand when truthy, else the right one; the result is truthy iff either operand is |
| Js.Slice | src/pages/events/index.tsx:130-136 | `slice(start, end)` never grows the list; for `0 <= start <= end` it is the window clamped to the list; a start at or past the end gives `[]` |
| Paging.KeyRows | src/pages/tags/index.tsx:36 | one row per document, same order, row `i` holds document `i` keyed by its `_id` |
| Paging.Page | src/pages/tags/index.tsx:32-38 | never more rows than documents, and every row is keyed by its own document's `_id` |
| Paging.PageContents | src/pages/tags/index.tsx:32-38 | page `p >= 1` holds at most 10 rows, its exact length, and row `i` is document `(p-1)*size + i` keyed by its `_id` |
| Paging.EveryDocOnItsPage | src/pages/events/index.tsx:130-136 | the document at position `j` is on page `j / size + 1` at row `j % size`, so pages partition the list |
| AuthSlice.Reduce | src/store/slices/authSlice.tsx:13-27 | `setToken` gives `{payload, true}`, `clearToken` gives `{'', false}`, `resetStore` the initial state, and any other type the previous state (or the initial one when absent); so `isLogin` holds iff the action logs in, or a foreign action meets a logged-in state |
| AuthSlice.SetTokenLogsIn | src/store/slices/authSlice.tsx:17-20 | `setToken(t)` yields `{token: t, isLogin: true}` from any state, the initial one included |
| AuthSlice.EmptyTokenStillLogsIn | src/store/slices/authSlice.tsx:17-20 | `isLogin` does not depend on the token: `setToken('')` logs in with the initial token value |
| AuthSlice.ClearTokenLogsOut | src/store/slices/authSlice.tsx:21-24 | `clearToken` yields `{token: '', isLogin: false}` from any state, and applying it twice equals applying it once |
| AuthSlice.ResetStoreIsInitial | src/store/slices/authSlice.tsx:25 | `resetStore` yields `initialState` from any state |
| AuthSlice.ClearTokenMatchesReset | src/store/slices/authSlice.tsx:8-25 | `clearToken` and `resetStore` produce the same state from every state |
| AuthSlice.ForeignActionKeepsState | src/store/slices/authSlice.tsx:13-27 | an action of any other type leaves a present state unchanged |
| AuthSlice.AuthDraft.constructor | src/store/slices/authSlice.tsx:8-11 | the draft starts out holding the given state |
| AuthSlice.AuthDraft.SetToken | src/store/slices/authSlice.tsx:17-20 | assigning into the draft produces exactly the slice reducer's result for `setToken(payload)` |
| AuthSlice.AuthDraft.ClearToken | src/store/slices/authSlice.tsx:21-24 | assigning into the draft produces exactly the slice reducer's result for `clearToken()` |
| RootReducer.AppReducer | src/store/rootReducer.ts:6-10 | each slice reducer gets only its own part of the previous state (nothing when the state is absent) and the action |
| RootReducer.Root | src/store/rootReducer.ts:12-18 | on `RESET_STORE` the result is `auth` at its initial state and each API slice started from nothing; any other action goes to `appReducer` with the state as given |
| RootReducer.ResetForgetsPriorState | src/store/rootReducer.ts:12-18 | on `RESET_STORE` the result is `appReducer(undefined, action)`, the same for every prior state |
| RootReducer.OtherActionsDelegate | src/store/rootReducer.ts:12-18 | any other action type reaches `appReducer` with the state untouched |
| RootReducer.ResetRestoresInitialAuth | src/store/rootReducer.ts:6-18 | after `RESET_STORE` the `auth` part is the slice's initial state |
| RootReducer.ResetIdempotent | src/store/rootReducer.ts:12-18 | applying `RESET_STORE` to its own result gives the same result |
| RootReducer.SliceResetIsNotTheSentinel | src/store/rootReducer.ts:13 | the slice's `resetStore()` (type `auth/resetStore`) is not intercepted: the API slices keep their previous state and only `auth` is reset |
| Middleware.Gate | src/middleware/middleware.ts:4-11 | the response is a redirect iff the `token` cookie is absent, and the redirect goes to `/home` on the request's origin |
| Middleware.GateDecision | src/middleware/middleware.ts:4-11 | redirect to `<origin>/home` iff there is no `token` cookie; continue iff there is one |
| Middleware.EmptyTokenPasses | src/middleware/middleware.ts:5-6 | a `token` cookie with an empty value still passes, since the cookie object is truthy |
| Middleware.GateIgnoresPath | src/middleware/middleware.ts:4-11 | two requests with the same origin and the same token presence get the same response, whatever their paths and other cookies |
| Middleware.Matches | src/middleware/middleware.ts:14 | a matched path starts with `/`, holds no line terminator and starts with neither `/_next/static` nor `/_next/image` |
| Middleware.AssetsNotGated | src/middleware/middleware.ts:14 | no path under `/_next/static`, `/_next/image` or `/favicon.ico` is matched |
| Middleware.FaviconDotIsWildcard | src/middleware/middleware.ts:14 | the unescaped dot in `favicon.ico` matches any non-line-terminator, so `/faviconXico…` is not matched either |
| Middleware.OtherPathsGated | src/middleware/middleware.ts:14 | every single-line path starting with `/` whose remainder starts with none of the three alternatives is matched |
| Middleware.PlainRouteGated | src/middleware/middleware.ts:14 | a single-line path whose first character after `/` is neither `_` nor `f` is matched |
| Middleware.EventsPageGated | src/middleware/middleware.ts:14 | `/events` is matched |
| Middleware.NestedAssetPathGated | src/middleware/middleware.ts:14 | the look-ahead inspects only the path's start: `/events/_next/static` is matched |
| Middleware.HomeRedirectsToItself | src/middleware/middleware.ts:4-14 | `/home` and `/login` are matched too, so a request for `/home` without a token is redirected to `/home` again |
| Middleware.OtherFaviconGated | src/middleware/middleware.ts:14 | `/favicon.png` is matched |
| AdminLayout.FindItem | src/components/Layout/index.tsx:99-101 | the node found is in the menu and matches the key by its own key or a child's; none is found iff no node matches |
| AdminLayout.FindItemIsFirstMatch | src/components/Layout/index.tsx:99-101 | the node found is the first matching one: when node `i` matches and no earlier node does, node `i` is found |
| AdminLayout.FindChild | src/components/Layout/index.tsx:103 | the child found is in the list and has the key; none is found iff no child has it |
| AdminLayout.FindChildIsFirstMatch | src/components/Layout/index.tsx:103 | the child found is the first one with the key |
| AdminLayout.CrumbFor | src/components/Layout/index.tsx:99-108 | a key no node matches gives `{ title: '' }`; an undefined title only arises for a node with children whose own key is the key and none of whose children has it |
| AdminLayout.Crumbs | src/components/Layout/index.tsx:98-109 | one breadcrumb entry per key, in order, entry `i` derived from key `i` alone |
| AdminLayout.ChildKeyYieldsLabel | src/components/Layout/index.tsx:102-105 | in a menu without repeated keys, a child's key yields exactly that child's label |
| AdminLayout.ParentKeyYieldsUndefined | src/components/Layout/index.tsx:99-105 | in a menu without repeated keys, the key of a top-level node with children yields an undefined title |
| AdminLayout.UnknownKeyYieldsEmpty | src/components/Layout/index.tsx:108 | a key found nowhere in the menu yields `{ title: '' }` |
| AdminLayout.StaticMenuUnique | src/components/Layout/index.tsx:25-47 | the static menu `items2` has no repeated key |
| AdminLayout.Reversed | src/components/Layout/index.tsx:98 | the reversal has the list's length |
| AdminLayout.ReversedAt | src/components/Layout/index.tsx:98 | element `i` of the reversal is the list's element `n-1-i` |
| AdminLayout.ReverseInPlace | src/components/Layout/index.tsx:98 | `keyPath.reverse()` leaves the array as the reversal of its old contents |
| AdminLayout.ClickBreadcrumbShape | src/components/Layout/index.tsx:98-109 | a click's breadcrumb has one entry per `keyPath` element, root first: entry `i` comes from `keyPath[n-1-i]` |
| AdminLayout.EventsClickBreadcrumb | src/components/Layout/index.tsx:93-112 | clicking 活動總覽 (`keyPath = ['1', 'sub1']`) gives an undefined title, then the `/events` link |
| AdminLayout.Shell.constructor | src/components/Layout/index.tsx:56-59 | the first render: no name, no selection, no open submenus, no breadcrumb; storage and cookies as given |
| AdminLayout.Shell.Cookie | src/components/Layout/index.tsx:62-63 | a cookie reads as present iff it is set, with its value |
| AdminLayout.Shell.Mount | src/components/Layout/index.tsx:61-79 | with a truthy token the name is the `username` cookie or `''`, else null; stored selection and open keys are restored when present; the breadcrumb is not restored |
| AdminLayout.Shell.MenuClick | src/components/Layout/index.tsx:93-112 | exactly `key` is selected and stored; `keyPath` is reversed in place; the breadcrumb is derived from the reversed path; everything else is unchanged |
| AdminLayout.Shell.OpenChange | src/components/Layout/index.tsx:114-117 | the open submenus become the reported keys and are stored; everything else is unchanged |
| AdminLayout.Shell.Logout | src/components/Layout/index.tsx:81-91 | the navigation state, both storage entries and both cookies are cleared; the slice's `resetStore()` is dispatched and the route is `/login` |
| AdminLayout.Shell.LogoClick | src/components/Layout/index.tsx:119-126 | the same navigation reset as logout, but the cookies and identity stay; the route is `/home` |
| AdminLayout.Shell.RenderedBreadcrumb | src/components/Layout/index.tsx:176-179 | the rendered trail is 首頁 followed by the stored entries in order |
| AdminLayout.Shell.UserMenuItems | src/components/Layout/index.tsx:128-148 | exactly one entry: the logout entry iff the name is truthy, otherwise the `/login` link |
| AdminLayout.TokenWithoutNameShowsLogin | src/components/Layout/index.tsx:65-66 | a token cookie without a username cookie shows the login link, since the name becomes `''` |
| AdminLayout.LogoutThenNavigate | src/components/Layout/index.tsx:81-91 | after logout, the middleware runs exactly on the paths its matcher selects, and on each of them it redirects to `/home` |
| AdminLayout.ReloadRestoresSelectionOnly | src/components/Layout/index.tsx:71-79 | a fresh mount after a click and an open change restores the selection and open keys but not the breadcrumb |
| TagsPage.TagsScreen.constructor | src/pages/tags/index.tsx:23-30 | the first render: both modals closed, not editing, no current tag, page 1, no rows |
| TagsPage.TagsScreen.RefreshPage | src/pages/tags/index.tsx:32-38 | once the list has loaded, the shown rows become the current page of it; before that they stay |
| TagsPage.TagsScreen.TableChange | src/pages/tags/index.tsx:95-97 | the current page becomes the reported page |
| TagsPage.TagsScreen.ShowModal | src/pages/tags/index.tsx:40-48 | the current tag is the argument or null, edit mode iff a tag was given, the modal is open; nothing else changes |
| TagsPage.TagsScreen.ShowDeleteModal | src/pages/tags/index.tsx:50-53 | the tag becomes current and the delete confirmation opens; nothing else changes |
| TagsPage.TagsScreen.HandleOk | src/pages/tags/index.tsx:55-71 | a rejected validation issues nothing and leaves the modal; a resolved one (carrying a non-empty `tagName`, line 158) updates `currentTag.key` when editing a current tag or creates otherwise, then refetches, and the modal closes |
| TagsPage.TagsScreen.HandleDeleteOk | src/pages/tags/index.tsx:73-85 | without a current tag nothing happens; otherwise delete its key, close the confirmation, refetch |
| TagsPage.TagsScreen.HandleCancel | src/pages/tags/index.tsx:87-89 | the edit modal closes and nothing else changes |
| TagsPage.TagsScreen.HandleDeleteCancel | src/pages/tags/index.tsx:91-93 | the delete confirmation closes and nothing else changes |
| TagsPage.EditThenSave | src/pages/tags/index.tsx:40-71 | opening a tag row for editing and saving sends an update for that row's `key`, then a refetch; for rows built by `Paging.Page` the key is the tag's `_id` |
| EventsPage.EditSession | src/pages/events/index.tsx:506-521 | the edited field (both times for a time range) takes the new value; every other field, the key included, is unchanged |
| EventsPage.EditSeat | src/pages/events/index.tsx:602-609 | the edited field takes the new value; every other field, the id included, is unchanged |
| EventsPage.Without | src/pages/events/index.tsx:537-540 | exactly the element at an in-range index is removed with the others in order; an out-of-range index removes nothing |
| EventsPage.WithoutShifts | src/pages/events/index.tsx:622-625 | after deleting row `index`, one row fewer; rows before it are unchanged, rows after it move up by one |
| EventsPage.HydratedSessions | src/pages/events/index.tsx:219-227 | one session per fetched session, in order, keyed by `sessionId`, the date formatted, times and place copied |
| EventsPage.HydratedSeats | src/pages/events/index.tsx:229-238 | the first session's prices become tiers with `id` their position and quantity 0; no sessions gives no tiers |
| EventsPage.SessionsPayload | src/pages/events/index.tsx:289-299 | one entry per session, in order: date and times converted to timestamps, the place copied, the row key dropped |
| EventsPage.Prices | src/pages/events/index.tsx:301-304 | one `{area, price}` per tier, in order |
| EventsPage.BuildPayload | src/pages/events/index.tsx:289-319 | name, intro, content, organizer, payments and tags are the form's; images are the form's value when truthy, else the current URL; released at `now`; the sale window from the form; the session and price lists are exactly `SessionsPayload` and `Prices` of the draft |
| EventsPage.FormImagesWin | src/pages/events/index.tsx:306-311 | when the form's rules hold (both image fields required, lines 715 and 733), the body's images are the form's values and the current URLs are never used |
| EventsPage.QuantityNotSent | src/pages/events/index.tsx:301-304 | drafts that differ only in seat quantities produce the same price list |
| EventsPage.SessionKeysNotSent | src/pages/events/index.tsx:289-299 | drafts that differ only in session row keys produce the same session list |
| EventsPage.HydratedPricesRoundTrip | src/pages/events/index.tsx:229-238 | rehydrating a fetched event and submitting the tiers unchanged sends back the first session's prices exactly |
| EventsPage.PendingFile | src/pages/events/index.tsx:327-329 | a slot has a file to upload iff its list is non-empty and the first entry has a local file, which is that file |
| EventsPage.StoredImageEntry | src/pages/events/index.tsx:195-217 | the entry for a stored image is done, shows the stored URL, and holds no local file, so the create path would not upload it |
| EventsPage.CreateCalls | src/pages/events/index.tsx:325-353 | the create path issues between one and four calls; the first is an upload iff some slot has a pending file, and the create itself iff neither has |
| EventsPage.CreateCallsOrder | src/pages/events/index.tsx:325-353 | on create, every upload precedes the write and the intro upload leads when there is one |
| EventsPage.CreateCallsSendsCreate | src/pages/events/index.tsx:330-346 | the create is sent iff no upload was rejected, and it carries the uploaded URLs over an otherwise unchanged body |
| EventsPage.CreateCallsRefetches | src/pages/events/index.tsx:344-353 | the calls end in a refetch iff no upload was rejected and the create resolved |
| EventsPage.BothUploadsResolve | src/pages/events/index.tsx:325-356 | with both slots pending and every call resolving: intro upload, banner upload, the create with both URLs, the refetch |
| EventsPage.SubmitCreate | src/pages/events/index.tsx:325-353 | the awaited create steps issue exactly the create path's calls, and the modal may close iff no upload was rejected and the create resolved |
| EventsPage.EventsScreen.constructor | src/pages/events/index.tsx:107-128 | the first render: both modals closed, not editing, no current event, page 1, empty file lists and URLs, no sessions, places or tiers |
| EventsPage.EventsScreen.LoadPresets | src/pages/events/index.tsx:138-154 | the mount effects set the three places and the six preset tiers |
| EventsPage.EventsScreen.RefreshPage | src/pages/events/index.tsx:130-136 | once the list has loaded, the shown rows become the current page of it; before that they stay |
| EventsPage.EventsScreen.TableChange | src/pages/events/index.tsx:389-391 | the current page becomes the reported page |
| EventsPage.EventsScreen.ShowModal | src/pages/events/index.tsx:244-271 | image state is cleared and the modal opens. Edit mode records the event and its id and keeps the lists. Create mode clears the sessions and restores the six preset tiers |
| EventsPage.EventsScreen.ShowDeleteModal | src/pages/events/index.tsx:273-276 | the event becomes current and the delete confirmation opens |
| EventsPage.EventsScreen.HydrateFromDetails | src/pages/events/index.tsx:173-242 | a truthy stored image becomes a single done entry and the current URL, and a falsy one leaves that slot. The lists become the rehydrated sessions and tiers |
| EventsPage.EventsScreen.IntroImageChange | src/pages/events/index.tsx:393-401 | the list is kept; a done first entry sets the URL to its `url` or its local file's blob URL; anything else clears it |
| EventsPage.EventsScreen.BannerImageChange | src/pages/events/index.tsx:418-428 | the list is kept; a done file sets the URL to its response `url`; otherwise the URL stays |
| EventsPage.EventsScreen.RemoveIntroImage | src/pages/events/index.tsx:723 | removing empties the intro list and leaves the URL; the click listener and the widget's follow-up `onChange` with the empty list (`IntroImageChange([])`) are what clear it |
| EventsPage.EventsScreen.RemoveBannerImage | src/pages/events/index.tsx:740 | removing empties the banner list |
| EventsPage.EventsScreen.IconButtonClicked | src/pages/events/index.tsx:156-171 | a click inside an icon-only button clears both image URLs and nothing else |
| EventsPage.EventsScreen.AddSession | src/pages/events/index.tsx:523-528 | one blank session at 台北小巨蛋 with the given key is appended; the others are unchanged |
| EventsPage.EventsScreen.DuplicateSession | src/pages/events/index.tsx:530-535 | a copy of row `index` with a new key is appended at the end, not next to the original |
| EventsPage.EventsScreen.DeleteSession | src/pages/events/index.tsx:537-540 | the list loses exactly row `index` |
| EventsPage.EventsScreen.SessionChange | src/pages/events/index.tsx:506-521 | only row `index` changes, to its edited copy |
| EventsPage.EventsScreen.AddSeat | src/pages/events/index.tsx:611-613 | one empty tier with the given id is appended |
| EventsPage.EventsScreen.DuplicateSeat | src/pages/events/index.tsx:615-620 | a copy of tier `index` with a new id is appended at the end |
| EventsPage.EventsScreen.DeleteSeat | src/pages/events/index.tsx:622-625 | the list loses exactly tier `index` |
| EventsPage.EventsScreen.SeatChange | src/pages/events/index.tsx:602-609 | only tier `index` changes, to its edited copy |
| EventsPage.EventsScreen.HandleOk | src/pages/events/index.tsx:278-363 | see below the table |
| EventsPage.EventsScreen.HandleDeleteOk | src/pages/events/index.tsx:365-379 | without a current event nothing happens; otherwise delete `[key]`, close the confirmation, refetch |
| EventsPage.EventsScreen.HandleCancel | src/pages/events/index.tsx:381-383 | the edit modal closes and nothing else changes |
| EventsPage.EventsScreen.HandleDeleteCancel | src/pages/events/index.tsx:385-387 | the delete confirmation closes and nothing else changes |
| EventsPage.PickBothImages | src/pages/events/index.tsx:244-271 | after opening the create modal and picking a file in each slot, both slots hold a pending file, no sessions and the preset tiers |
| EventsPage.CreateWithTwoImages | src/pages/events/index.tsx:244-356 | creating with a picked file in each slot gives intro upload, banner upload, the create with both URLs, the preset prices and no sessions, then the refetch |
| EventsPage.OpenFetchedEvent | src/pages/events/index.tsx:173-271 | opening an event for editing and loading its details leaves edit mode on that event with the rehydrated tiers |
| EventsPage.EditSendsFormImages | src/pages/events/index.tsx:173-323 | editing a fetched event uploads nothing even when every upload would fail; the update carries the form's image values and the first session's prices, then the refetch |

`EventsPage.EventsScreen.HandleOk` states the following:

- Every upload precedes every write.
- It requires what a resolved validation guarantees: every field with a `required` rule is filled (`SatisfiesRules`, lines 706-763).
- A rejected validation issues nothing.
- Editing a current event sends one update of the built body, and a refetch iff the update resolved.
- Otherwise exactly the create path's calls are issued.
- The modal closes only when a write was issued and resolved.

## Left out

- Rendering, icons, column definitions, toasts (`message.success`/`error`), console output and the loading spinner: they only display state.
- The form widget: what `form.validateFields()` settles with is an input. A resolved value is required to satisfy the form's `required` rules (`SatisfiesRules` for events, a non-empty `tagName` for tags); the rules themselves are the widget's business. How the form's image fields get their value (the upload widgets sit inside those fields' `Form.Item`s) and `form.resetFields` and `form.setFieldsValue` are not modelled, because the form's own store is not part of the component state.
- Concurrency: each handler runs to completion. Nothing interleaves at its awaits (events/index.tsx:281, 323, 332, 344 and 352; tags/index.tsx:57-62), so another click or effect during a pending call is not modelled.
- The network: each RTK Query call is an `EventCall` or `TagCall` in the returned list. How it settles is an input. Calls awaited without `.unwrap()` (the tag mutations and `deleteEvent`) resolve even when the request fails, so they have no failure input. Refetching and cache invalidation are not modelled.
- The clock and dayjs: `Date.now()` keys and ids are parameters (`freshKey`, `freshId`), so the model makes no claim that they are unique. `dayjs().valueOf()` is the parameter `now`. Date and time conversions are the function parameters `dayMillis`, `timeMillis` and `formatDay`.
- `URL.createObjectURL` is the `objectUrl` parameter, and the image previews (`onPreview`, `handlePreview`) are left out.
- The fetch of event details is driven by `currentEventId`. `HydrateFromDetails` models the effect once the data are loaded without error; the query itself is not modelled.
- `localStorage` values are held already parsed. `JSON.parse` of a malformed stored value would throw in the source; the model cannot represent one.
- EventsPage.EventsScreen.DuplicateSession and its seat, session-edit and seat-edit counterparts require an index inside the list. Out of range, the source would write `undefined` fields or leave a hole in the JavaScript array, which a sequence cannot hold. Only the widgets' own row indexes reach these handlers. Delete accepts any index, as the source does.
- Seat prices are integers and cell values keep their types. The input widgets' string or float values are not modelled.
- Middleware.Gate: the gate lives at `src/middleware/middleware.ts`. Next.js loads middleware only from `middleware.ts` at the project root or from `src/middleware.ts`, and no file in this model re-exports it there. Every statement here about gated requests assumes the gate is registered in one of those places.
- Middleware.EmptyTokenPasses: assumes Next.js 13 or later, where `req.cookies.get` returns a cookie object. In Next.js 12.2 it returns the value string, so an empty `token` would be falsy and be redirected.
- Middleware.Matches: the matcher is the pattern read as a JavaScript regular expression anchored at both ends. Next.js's own compilation of matcher strings (path-to-regexp, the locale and `_next/data` handling) is not modelled.
- The login page, `_app`, `store.ts` and the API definition files are not part of this model. `store.ts` mounts the `auth` slice and `authApi` directly rather than the root reducer, so `RESET_STORE` is modelled for the root reducer only.
- The page imports `useUpdateEventMutation` (src/pages/events/index.tsx:6) and calls it in the component body on every render (line 104), but `src/store/eventApi.ts` defines no update endpoint (lines 17-52 declare only getAllEvents, getEventById, createEvent and deleteEvents) and exports no such hook (line 58). As written the page does not type-check, and a bundle built anyway would fail on its first render, before any handler of the page could run. The model assumes an update hook the repository does not define, and treats the update as an external call whose outcome is an input.

## Behaviour that follows the code

- The breadcrumb entry for a top-level menu key with children is an undefined title, not that node's label: the node is found, but `children.find` has no child with that key.
- The user menu's logout entry needs a non-empty name. A token cookie without a username cookie gives `''`, which shows the login link.
- The gate checks only that a `token` cookie exists, while the shell needs a non-empty token before it reads the name. An empty `token` cookie passes the gate but shows the login link.
- Duplicating a session or a tier appends the copy at the end of the list, not after the original.
- The matcher selects `/home` and `/login` as well. Once the gate is registered, a request for `/home` without a `token` cookie is redirected to `/home` again, and the login page is gated too.
- Both image fields are required, so a resolved validation always carries truthy images. The `|| introImageUrl` and `|| bannerImageUrl` fallbacks in the request body never take effect, and what the body carries before the uploads is the form's own image values.
