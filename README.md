# Event-manager client state layer, in Dafny

This project models the state layer of the event-manager web client: the six
Redux Toolkit slices under `client/src/slices/` (auth, events, groups, RSVPs,
comments, users) and the six-field root state that `client/src/store.js`
builds from them.

Each slice is a small state machine over a record of fields: `loading`,
`error`, a primary list, and for some slices `searchResults`, a
`currentGroup`/`currentEvent`/`profile`, `invitations`,
`inviteStatus`/`inviteError`, or `user`/`isAuthenticated`. Every asynchronous
operation (thunk) contributes three actions (pending, fulfilled, rejected).
The groups, events and users slices have two plain local reducers
(`resetXState`, `resetSearchResults`); the auth slice has `resetAuthState`
and `setUser`, the RSVP slice `resetRsvpState`, and the comments slice none.

## How the model is laid out

- `common.dfy` (module `Common`): records with an `id` and opaque attributes,
  the outcome of one HTTP request (`Http`: `Ok(body)` or `Err(message?)`),
  the `||` fallback of error messages, `Array.prototype.filter`, `findIndex`
  by id, the update-by-id of events, and `Fold` (dispatching a sequence of
  actions) with two general lemmas about it.
- One module per slice file (`GroupSlice`, `EventSlice`, `UserSlice`,
  `AuthSlice`, `RsvpSlice`, `CommentSlice`), each with:
  - a state datatype (the slice's value in the state tree) and `Initial()`;
  - an `Operation` datatype naming the thunks, with the fixed fallback
    message of each (`FailureMessage`);
  - an `Action` datatype: `Pending(op)`, one fulfilled constructor per
    operation carrying exactly what the reducer reads, `Rejected(op,
    payload)`, and the local reducers;
  - `Reduce` (the reducer as a function, the specification) and `Run` (a
    sequence of dispatches);
  - `Failed(op, message)`: the action a thunk's catch block settles with;
  - a class `XStore` whose fields are the slice's draft state, with one
    method per reducer case assigning those fields in place, and `Dispatch`,
    proved to agree with `Reduce`;
  - lemmas about `Reduce` and `Run`.
- `store.dfy` (module `Store`): the root state keyed `auth`, `events`,
  `groups`, `rsvps`, `comments`, `users`, and the combined reducer.

Overlapping requests are modelled as an arbitrary sequence of actions on one
state. "Last settled wins" and "one shared `loading` flag" are then
properties of `Run`: every settled action sets `loading` to false, whatever
else is still pending.

Several properties one would expect of the client do not hold exactly as
stated, and the model follows the code:
- "`error` is null while `loading` is true" holds in five slices
  (`NoErrorWhileLoading`), but not in the groups slice. There, the pending
  phase of an invitation sets `loading` without clearing `error`
  (`GroupSlice.InvitePendingKeepsStaleError`).
- "`isAuthenticated` iff `user` is non-null" is kept by every auth action
  except two. A fulfilled registration clears `isAuthenticated` but keeps
  `user`, and `setUser(null)` authenticates with no user
  (`AuthSlice.ConsistencyBreakers`).
- Delete-event removes by the id the thunk was called with. The thunk builds
  the `{id}` payload from its argument, not from the server's answer.
- A failed comment fetch does not set `error`. The thunk has no catch and
  never calls `rejectWithValue`, so the rejected payload is undefined and the
  reducer copies it as is.
- A failed send, accept or deny of an invitation sets `inviteStatus` and
  `inviteError`, not `error`.

In every slice, each thunk and its reducer fall back on the same string, so
one `FailureMessage` per operation serves both.

## Model

| member | source | states |
|---|---|---|
| `Common.OrDefault` | client/src/slices/groupSlice.js:166 | `payload \|\| fallback`: the message when it is present and non-empty, the fallback when it is absent or empty; non-empty whenever the fallback is |
| `Common.RejectWithValue` | client/src/slices/groupSlice.js:13 | what a thunk's catch block passes to `rejectWithValue`: always a non-empty string, the server's message when there is one, otherwise the fixed fallback |
| `Common.ReducerFallbackAfterThunk` | client/src/slices/eventSlice.js:110-113 | the reducer's fallback applied after the thunk's changes nothing, so `error` ends up as the server's message or else the fallback |
| `Common.Filter` | client/src/slices/groupSlice.js:218 | `filter` returns no more elements than it was given, each of them kept by the condition, and contains every kept element |
| `Common.FilterAppend` | client/src/slices/groupSlice.js:218 | filtering distributes over concatenation: order is preserved |
| `Common.FilterCount` | client/src/slices/groupSlice.js:218 | each kept element occurs as often as in the input, each dropped one never |
| `Common.FilterKeepsAll` | client/src/slices/groupSlice.js:218 | when every element is kept, the filter returns the list unchanged |
| `Common.FilterIdempotent` | client/src/slices/groupSlice.js:218 | filtering twice by one condition equals filtering once |
| `Common.WithoutId` | client/src/slices/eventSlice.js:176 | `filter(x => x.id !== id)`: the result holds exactly the entries whose id differs, and is no longer than the input |
| `Common.WithoutAbsentId` | client/src/slices/eventSlice.js:176 | deleting an id no entry carries leaves the list unchanged |
| `Common.WithoutIdExactly` | client/src/slices/groupSlice.js:218 | delete-by-id distributes over concatenation (order kept) and keeps each other entry with its multiplicity |
| `Common.IndexOfId` | client/src/slices/eventSlice.js:160 | `findIndex` by id: -1 exactly when no entry has the id; otherwise an index holding the id with no earlier one holding it |
| `Common.FindIndexById` | client/src/slices/eventSlice.js:160 | the scan from the front returns the first index with the id, or -1 when there is none |
| `Common.IndexOfIdByIds` | client/src/slices/eventSlice.js:160 | the index `findIndex` reports depends only on the ids in the list |
| `Common.ReplaceFirstById` | client/src/slices/eventSlice.js:158-164 | update: same length; the first entry with the payload's id becomes the payload; every other entry is unchanged; no match leaves the list unchanged |
| `Common.ReplaceFirstKeepsIds` | client/src/slices/eventSlice.js:158-164 | an update never changes the ids in the list or their positions |
| `Common.ReplaceFirstIdempotent` | client/src/slices/eventSlice.js:158-164 | repeating an update changes nothing more |
| `Common.FoldPreserves` | client/src/store.js:9-18 | a property kept by every allowed action holds after any sequence of allowed dispatches |
| `GroupSlice.Operation.FailureMessage` | client/src/slices/groupSlice.js:160-285 | every fallback message of the group slice is a fixed, non-empty string |
| `GroupSlice.Reduce` | client/src/slices/groupSlice.js:153-286 | pending sets `loading`; every settle clears it; only fetch/create/delete write `groups`; only search and reset write `searchResults`; only fetch-by-id writes `currentGroup`; only fetch-invitations writes `invitations`; the invite flow never touches `error`; only the invite flow and `resetGroupState` touch `inviteStatus`/`inviteError` |
| `GroupSlice.Failed` | client/src/slices/groupSlice.js:11-14 | a failed request settles with a rejected action for its operation carrying a non-empty message: the server's when it is present and non-empty, otherwise the operation's fallback |
| `GroupSlice.FailureSetsOnlyItsError` | client/src/slices/groupSlice.js:164-167 | a main-flow failure sets only `loading=false` and `error`; an invite failure sets only `loading=false`, `inviteStatus='failed'` and `inviteError`; the message is the server's or else the operation's fallback |
| `GroupSlice.DeleteRemovesArgumentId` | client/src/slices/groupSlice.js:216-219 | delete keeps exactly the groups whose id differs from `meta.arg`, each other group with its multiplicity, whatever the response body; with no matching id the list is unchanged |
| `GroupSlice.LastSearchSettledWins` | client/src/slices/groupSlice.js:174-177 | after a fulfilled search, `searchResults` is its payload until another search is fulfilled or the results are reset, whatever else is dispatched |
| `GroupSlice.InviteFlowKeepsInvitations` | client/src/slices/groupSlice.js:256-285 | send, accept and deny never change `invitations` (nor its length) |
| `GroupSlice.NoErrorWhileLoadingOutsideInvites` | client/src/slices/groupSlice.js:156-159 | from the initial state, `loading` implies `error == null` after any actions other than an invite's pending phase |
| `GroupSlice.InvitePendingKeepsStaleError` | client/src/slices/groupSlice.js:226-230 | a send-invite pending after a failed fetch leaves `loading` true with the old error still set |
| `GroupSlice.ResetSearchResultsIdempotent` | client/src/slices/groupSlice.js:149-151 | resetting the search results twice equals resetting once; resetting empty results changes nothing |
| `GroupSlice.GroupStore.constructor` | client/src/slices/groupSlice.js:132-141 | empty `groups`, `searchResults` and `invitations`; null `currentGroup`, `error`, `inviteStatus` and `inviteError`; `loading` false |
| `GroupSlice.GroupStore.ResetGroupState` | client/src/slices/groupSlice.js:143-148 | clears `loading`, `error`, `inviteStatus` and `inviteError` only |
| `GroupSlice.GroupStore.ResetSearchResults` | client/src/slices/groupSlice.js:149-151 | empties `searchResults` only |
| `GroupSlice.GroupStore.Pending` | client/src/slices/groupSlice.js:156-159 | main flow: `loading=true`, `error=null`, nothing else; invite flow: clears `inviteStatus` and `inviteError` and sets `loading`, leaving `error` |
| `GroupSlice.GroupStore.FetchGroupsFulfilled` | client/src/slices/groupSlice.js:160-163 | replaces `groups` wholesale and clears `loading`; `searchResults` untouched |
| `GroupSlice.GroupStore.SearchGroupsFulfilled` | client/src/slices/groupSlice.js:174-177 | replaces `searchResults` and clears `loading`; `groups` untouched |
| `GroupSlice.GroupStore.FetchGroupByIdFulfilled` | client/src/slices/groupSlice.js:188-191 | sets `currentGroup` and clears `loading`, nothing else |
| `GroupSlice.GroupStore.CreateGroupFulfilled` | client/src/slices/groupSlice.js:202-205 | `groups` becomes old `groups` plus the payload at the end: one longer, order kept, no dedup |
| `GroupSlice.GroupStore.DeleteGroupFulfilled` | client/src/slices/groupSlice.js:216-219 | `groups` keeps exactly the entries whose id differs from the dispatch argument; the response body plays no part |
| `GroupSlice.GroupStore.FetchGroupInvitationsFulfilled` | client/src/slices/groupSlice.js:246-249 | replaces `invitations` and clears `loading`, nothing else |
| `GroupSlice.GroupStore.InviteFulfilled` | client/src/slices/groupSlice.js:231-234 | `inviteStatus='success'`, `loading=false`; `invitations` is not pruned |
| `GroupSlice.GroupStore.Rejected` | client/src/slices/groupSlice.js:235-239 | main flow: `loading=false`, `error = payload \|\| fallback`; invite flow: `inviteStatus='failed'`, `inviteError = payload \|\| fallback`, `loading=false`; lists and `currentGroup` untouched |
| `GroupSlice.GroupStore.Dispatch` | client/src/slices/groupSlice.js:153-286 | running the matching case changes the state exactly as `Reduce` says |
| `EventSlice.Operation.FailureMessage` | client/src/slices/eventSlice.js:100-182 | every fallback message of the event slice is a fixed, non-empty string |
| `EventSlice.Reduce` | client/src/slices/eventSlice.js:100-182 | pending sets `loading` and clears `error`; every settle clears `loading`; only fetch/create/update/delete write `events`; only search and reset write `searchResults`; only fetch-by-id writes `currentEvent`; only pending, rejected and the reset write `error` |
| `EventSlice.Failed` | client/src/slices/eventSlice.js:11-14 | a failed request settles with a rejected action for its operation carrying a non-empty message: the server's when it is present and non-empty, otherwise the operation's fallback |
| `EventSlice.DeleteEventSettled` | client/src/slices/eventSlice.js:70-80 | the deleteEvent thunk fulfils with `{id}` built from its argument exactly when the request succeeded, and otherwise rejects with the message or 'Failed to delete event' |
| `EventSlice.FailureSetsOnlyError` | client/src/slices/eventSlice.js:110-113 | a failure changes only `loading` and `error`, which becomes the server's message or else the operation's fallback |
| `EventSlice.UpdateReplacesFirstMatch` | client/src/slices/eventSlice.js:158-164 | an update keeps the list's length and ids, leaves it unchanged when no id matches, and a repeated update changes nothing more |
| `EventSlice.DeleteRemovesArgumentId` | client/src/slices/eventSlice.js:174-177 | a successful delete removes exactly the events with the argument's id, keeps every other event with its multiplicity, and changes nothing when no id matches |
| `EventSlice.LastSearchSettledWins` | client/src/slices/eventSlice.js:119-122 | after a fulfilled search, `searchResults` is its payload until another search is fulfilled or the results are reset |
| `EventSlice.NoErrorWhileLoading` | client/src/slices/eventSlice.js:102-105 | `loading` implies `error == null` after any sequence of actions from a state where it held |
| `EventSlice.ResetSearchResultsIdempotent` | client/src/slices/eventSlice.js:96-98 | resetting the search results twice equals resetting once; resetting empty results changes nothing |
| `EventSlice.EventStore.constructor` | client/src/slices/eventSlice.js:84-90 | empty `events` and `searchResults`, null `currentEvent` and `error`, `loading` false |
| `EventSlice.EventStore.ResetEventState` | client/src/slices/eventSlice.js:92-95 | clears `loading` and `error` only |
| `EventSlice.EventStore.ResetSearchResults` | client/src/slices/eventSlice.js:96-98 | empties `searchResults` only |
| `EventSlice.EventStore.Pending` | client/src/slices/eventSlice.js:102-105 | `loading=true`, `error=null`, nothing else |
| `EventSlice.EventStore.FetchEventsFulfilled` | client/src/slices/eventSlice.js:106-109 | replaces `events` only (and clears `loading`) |
| `EventSlice.EventStore.SearchEventsFulfilled` | client/src/slices/eventSlice.js:119-122 | replaces `searchResults` only (and clears `loading`) |
| `EventSlice.EventStore.FetchEventByIdFulfilled` | client/src/slices/eventSlice.js:132-135 | sets `currentEvent` only (and clears `loading`) |
| `EventSlice.EventStore.CreateEventFulfilled` | client/src/slices/eventSlice.js:145-148 | appends the payload at the end of `events` |
| `EventSlice.EventStore.UpdateEventFulfilled` | client/src/slices/eventSlice.js:158-164 | `findIndex` then in-place overwrite: `events` becomes `ReplaceFirstById(old events, payload)`, same length |
| `EventSlice.EventStore.DeleteEventFulfilled` | client/src/slices/eventSlice.js:174-177 | `events` keeps exactly the entries whose id differs from `payload.id` |
| `EventSlice.EventStore.Rejected` | client/src/slices/eventSlice.js:165-168 | `loading=false`, `error = payload \|\| fallback`; lists untouched |
| `EventSlice.EventStore.Dispatch` | client/src/slices/eventSlice.js:100-182 | running the matching case changes the state exactly as `Reduce` says |
| `UserSlice.Operation.FailureMessage` | client/src/slices/userSlice.js:82-112 | 'Failed to fetch users', 'Failed to search users', 'Failed to fetch user profile': fixed and non-empty |
| `UserSlice.Reduce` | client/src/slices/userSlice.js:72-113 | pending sets `loading` and clears `error`; every settle clears `loading`; only fetch writes `users`; only search and reset write `searchResults`; only fetch-profile and `resetUserState` write `profile` |
| `UserSlice.Failed` | client/src/slices/userSlice.js:12-15 | a failed request settles with a rejected action for its operation carrying a non-empty message: the server's when it is present and non-empty, otherwise the operation's fallback |
| `UserSlice.SelectFilteredUsers` | client/src/slices/userSlice.js:45-51 | the selector returns exactly the users whose `active` is truthy, no more of them than the list holds |
| `UserSlice.SelectFilteredUsersExactly` | client/src/slices/userSlice.js:48-51 | the selector keeps list order and each active user's multiplicity, and drops every inactive user |
| `UserSlice.SelectFilteredUsersStable` | client/src/slices/userSlice.js:48-51 | the selector returns the list itself when all users are active, and is idempotent |
| `UserSlice.SelectorFollowsUsersOnly` | client/src/slices/userSlice.js:45-51 | no action other than a fulfilled fetch of users changes what the selector returns |
| `UserSlice.FailureSetsOnlyError` | client/src/slices/userSlice.js:82-85 | a failure changes only `loading` and `error`, which becomes the server's message or else the fallback |
| `UserSlice.LastSearchSettledWins` | client/src/slices/userSlice.js:91-94 | after a fulfilled search, `searchResults` is its payload until another search is fulfilled or the results are reset |
| `UserSlice.NoErrorWhileLoading` | client/src/slices/userSlice.js:74-77 | `loading` implies `error == null` after any sequence of actions from a state where it held |
| `UserSlice.ResetSearchResultsIdempotent` | client/src/slices/userSlice.js:68-70 | resetting the search results twice equals resetting once; resetting empty results changes nothing |
| `UserSlice.UserStore.constructor` | client/src/slices/userSlice.js:55-61 | empty `users` and `searchResults`, null `profile` and `error`, `loading` false |
| `UserSlice.UserStore.ResetUserState` | client/src/slices/userSlice.js:63-67 | clears `loading`, `error` and `profile`; `users` and `searchResults` stay |
| `UserSlice.UserStore.ResetSearchResults` | client/src/slices/userSlice.js:68-70 | empties `searchResults` only |
| `UserSlice.UserStore.Pending` | client/src/slices/userSlice.js:74-77 | `loading=true`, `error=null`, nothing else |
| `UserSlice.UserStore.FetchUsersFulfilled` | client/src/slices/userSlice.js:78-81 | replaces `users` only (and clears `loading`) |
| `UserSlice.UserStore.SearchUsersFulfilled` | client/src/slices/userSlice.js:91-94 | replaces `searchResults` only (and clears `loading`) |
| `UserSlice.UserStore.FetchUserProfileByIdFulfilled` | client/src/slices/userSlice.js:105-108 | sets `profile` only (and clears `loading`) |
| `UserSlice.UserStore.Rejected` | client/src/slices/userSlice.js:109-112 | `loading=false`, `error = payload \|\| fallback`; lists and profile untouched |
| `UserSlice.UserStore.Dispatch` | client/src/slices/userSlice.js:72-113 | running the matching case changes the state exactly as `Reduce` says |
| `AuthSlice.Operation.FailureMessage` | client/src/slices/authSlice.js:69-98 | 'Failed to register', 'Failed to login', 'Failed to logout': fixed and non-empty |
| `AuthSlice.Reduce` | client/src/slices/authSlice.js:59-99 | pending sets `loading` and clears `error`; every settle clears `loading`; only `setUser`, login and logout write `user`; only those and a fulfilled registration write `isAuthenticated`; rejections leave the identity alone |
| `AuthSlice.Failed` | client/src/slices/authSlice.js:8-11 | a failed request settles with a rejected action for its operation carrying a non-empty message: the server's when it is present and non-empty, otherwise the operation's fallback |
| `AuthSlice.LoginSettled` | client/src/slices/authSlice.js:14-27 | the login thunk fulfils exactly when the request succeeded with a `user`, with payload `{id: user.id}`; a body without `user` rejects with 'Failed to login'; an HTTP failure rejects with the message or the fallback |
| `AuthSlice.LoginThenLogout` | client/src/slices/authSlice.js:77-94 | login fulfilling sets `isAuthenticated=true` and `user={id}`; a logout after it gives `isAuthenticated=false`, `user=null` |
| `AuthSlice.FailureSetsOnlyError` | client/src/slices/authSlice.js:82-85 | a failed register, login or logout changes only `loading` and `error`, which is the message or the fixed fallback |
| `AuthSlice.RegisterFailureMessage` | client/src/slices/authSlice.js:69-72 | a rejected registration shows the server's message verbatim, or 'Failed to register' without one |
| `AuthSlice.ConsistencyPreserved` | client/src/slices/authSlice.js:54-98 | `isAuthenticated` iff `user` is non-null survives any sequence of actions without a fulfilled registration or `setUser(null)` |
| `AuthSlice.ConsistencyBreakers` | client/src/slices/authSlice.js:65-68 | a registration fulfilled after a login leaves `user` set with `isAuthenticated` false; `setUser(null)` authenticates with no user |
| `AuthSlice.NoErrorWhileLoading` | client/src/slices/authSlice.js:61-64 | `loading` implies `error == null` after any sequence of actions from a state where it held |
| `AuthSlice.AuthStore.constructor` | client/src/slices/authSlice.js:42-47 | `user` null, `isAuthenticated` false, `loading` false, `error` null |
| `AuthSlice.AuthStore.ResetAuthState` | client/src/slices/authSlice.js:49-52 | clears `loading` and `error` only |
| `AuthSlice.AuthStore.SetUser` | client/src/slices/authSlice.js:54-57 | `isAuthenticated=true`, `user` = the payload, nothing else |
| `AuthSlice.AuthStore.Pending` | client/src/slices/authSlice.js:61-64 | `loading=true`, `error=null`, nothing else |
| `AuthSlice.AuthStore.RegisterUserFulfilled` | client/src/slices/authSlice.js:65-68 | `isAuthenticated=false`, `loading=false`; `user` is kept |
| `AuthSlice.AuthStore.LoginFulfilled` | client/src/slices/authSlice.js:77-81 | `isAuthenticated=true`, `user={id}`, `loading=false` |
| `AuthSlice.AuthStore.LogoutFulfilled` | client/src/slices/authSlice.js:90-94 | `isAuthenticated=false`, `user=null`, `loading=false` |
| `AuthSlice.AuthStore.Rejected` | client/src/slices/authSlice.js:69-72 | `loading=false`, `error = payload \|\| fallback`; `user` and `isAuthenticated` unchanged |
| `AuthSlice.AuthStore.Dispatch` | client/src/slices/authSlice.js:59-99 | running the matching case changes the state exactly as `Reduce` says |
| `RsvpSlice.Operation.FailureMessage` | client/src/slices/rsvpSlice.js:51-66 | 'Failed to fetch RSVPs', 'Failed to submit RSVP': fixed and non-empty |
| `RsvpSlice.Reduce` | client/src/slices/rsvpSlice.js:41-67 | pending sets `loading` and clears `error`; every settle clears `loading`; only the two fulfilled phases write `rsvps`, and create extends it by one keeping the old prefix |
| `RsvpSlice.Failed` | client/src/slices/rsvpSlice.js:11-13 | a failed request settles with a rejected action for its operation carrying a non-empty message: the server's when it is present and non-empty, otherwise the operation's fallback |
| `RsvpSlice.FailureSetsOnlyError` | client/src/slices/rsvpSlice.js:51-54 | a failure leaves `rsvps` alone and sets `error` to the message or the fallback |
| `RsvpSlice.CreatesAppendInSettleOrder` | client/src/slices/rsvpSlice.js:59-62 | a run of fulfilled creates appends the created RSVPs at the end in settle order, without dedup |
| `RsvpSlice.NoErrorWhileLoading` | client/src/slices/rsvpSlice.js:43-46 | `loading` implies `error == null` after any sequence of actions from a state where it held |
| `RsvpSlice.RsvpStore.constructor` | client/src/slices/rsvpSlice.js:30-34 | empty `rsvps`, `loading` false, `error` null |
| `RsvpSlice.RsvpStore.ResetRsvpState` | client/src/slices/rsvpSlice.js:36-39 | clears `loading` and `error` only |
| `RsvpSlice.RsvpStore.Pending` | client/src/slices/rsvpSlice.js:43-46 | `loading=true`, `error=null`, nothing else |
| `RsvpSlice.RsvpStore.FetchRSVPsFulfilled` | client/src/slices/rsvpSlice.js:47-50 | replaces `rsvps` wholesale |
| `RsvpSlice.RsvpStore.CreateRSVPFulfilled` | client/src/slices/rsvpSlice.js:59-62 | appends the payload at the end of `rsvps` |
| `RsvpSlice.RsvpStore.Rejected` | client/src/slices/rsvpSlice.js:63-66 | `loading=false`, `error = payload \|\| fallback`; `rsvps` unchanged |
| `RsvpSlice.RsvpStore.Dispatch` | client/src/slices/rsvpSlice.js:41-67 | running the matching case changes the state exactly as `Reduce` says |
| `CommentSlice.Reduce` | client/src/slices/commentSlice.js:16-31 | only the three fetch phases exist; `loading` is true exactly after pending; only fulfilled writes `comments`; rejected copies its payload into `error` with no fallback |
| `CommentSlice.FetchCommentsSettled` | client/src/slices/commentSlice.js:4-7 | the thunk fulfils with the body exactly when the request succeeded; a failure rejects with no payload |
| `CommentSlice.FailedFetchLeavesNoError` | client/src/slices/commentSlice.js:27-30 | a failed fetch leaves `loading` false and `error` null, whatever the server said |
| `CommentSlice.NoErrorWhileLoading` | client/src/slices/commentSlice.js:19-22 | `loading` implies `error == null` after any sequence of actions from a state where it held |
| `CommentSlice.ErrorStaysNull` | client/src/slices/commentSlice.js:4-30 | from the initial state, actions settled through the thunk never leave a non-null `error` |
| `CommentSlice.CommentStore.constructor` | client/src/slices/commentSlice.js:11-15 | empty `comments`, `loading` false, `error` null |
| `CommentSlice.CommentStore.FetchCommentsPending` | client/src/slices/commentSlice.js:19-22 | `loading=true`, `error=null` |
| `CommentSlice.CommentStore.FetchCommentsFulfilled` | client/src/slices/commentSlice.js:23-26 | `loading=false`, `comments` replaced wholesale |
| `CommentSlice.CommentStore.FetchCommentsRejected` | client/src/slices/commentSlice.js:27-30 | `loading=false`, `error` = the payload as is; `comments` unchanged |
| `CommentSlice.CommentStore.Dispatch` | client/src/slices/commentSlice.js:17-31 | running the matching case changes the state exactly as `Reduce` says |
| `Store.Dispatch` | client/src/store.js:9-18 | the slice an action is addressed to becomes its own reducer's result on its old value (`auth` through the auth reducer, and so on for each key); every other slice stays as it was |
| `Store.ResetAllSearchResults` | client/src/components/Home.js:14-16 | the three reset dispatches of the home page (and, in the same order, of Search.js:19-21) empty the three search result lists and change nothing else |

## Left out

- Network I/O: the axios calls, URLs, `withCredentials` and `console.error`
  are not modelled. A thunk's request is an input, `Http`: `Ok(body)` or
  `Err(message?)`.
- Redux Toolkit and Immer machinery (`createSlice`, `createAsyncThunk`,
  action-type strings, `configureStore`, subscriptions) are library code.
  Action types are the `Action` datatypes. The store is a record of the six
  slice states.
- Concurrency: no interleaving is modelled. Overlapping requests are an
  arbitrary sequence of actions applied to one state.
- `createSelector` memoisation is not modelled. With it, two calls on the
  same state return the same array object; without it, `filter` would build
  a fresh one each time. Only that reference identity (what `useSelector`
  compares) differs, and values here have no identity, so
  `SelectFilteredUsers` is a plain function of the state.
- JavaScript loose typing is not modelled. Ids are integers compared by
  equality. A fulfilled payload always has the shape the reducer expects (a
  list for fetches, a record for single items). `null` and `undefined` are
  both `None`. A non-string error message is not modelled.
- Numbers inside record attributes are integers, so the truthiness of
  fractions and `NaN` is not modelled.
- `AuthSlice.LoginSettled`: a login body whose `user` has no `id` field
  would fulfil with `{id: undefined}`. Records here always carry an id. A
  body with no `data` at all behaves like one with no `user`.
- The payloads of a fulfilled registration and logout, and the bodies of
  invitation responses, are not modelled because the reducers ignore them.
  A delete-group response body is carried (`response`) only to show that it
  plays no part.
- React components and routing are left out. The three resets that
  Home.js:14-16 and Search.js:19-21 dispatch are stated in
  `Store.ResetAllSearchResults`. The three searches of Search.js:15-17 are
  independent dispatches to three slices, covered by `Store.Dispatch`'s
  frame and each slice's `LastSearchSettledWins`.
- The Flask server, database models and seeding are a separate service.
  They are not part of this model.
