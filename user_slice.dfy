/** The users slice: the user list, the search results, the profile being
    viewed, the `loading`/`error` pair, and the active-users selector. */
module UserSlice {
  import opened Common

  datatype UserState = UserState(
    users: seq<Record>,
    searchResults: seq<Record>,
    profile: Option<Record>,
    loading: bool,
    error: Option<string>)

  /** The asynchronous operations (thunks) of the slice. */
  datatype Operation = FetchUsers | SearchUsers | FetchUserProfileById
  {
    /** The fixed message both the thunk and the reducer fall back on. */
    function FailureMessage(): (m: string)
      ensures m != ""
    {
      match this
      case FetchUsers => "Failed to fetch users"
      case SearchUsers => "Failed to search users"
      case FetchUserProfileById => "Failed to fetch user profile"
    }
  }

  /** Every action the slice reacts to. */
  datatype Action =
    | ResetUserState
    | ResetSearchResults
    | Pending(op: Operation)
    | FetchUsersFulfilled(users: seq<Record>)
    | SearchUsersFulfilled(results: seq<Record>)
    | FetchUserProfileByIdFulfilled(profile: Record)
    | Rejected(op: Operation, reason: Option<string>)
  {
    /** The fulfilled and rejected phases: the ones that settle a request. */
    predicate Settles() {
      !(ResetUserState? || ResetSearchResults? || Pending?)
    }

    predicate WritesSearchResults() {
      SearchUsersFulfilled? || ResetSearchResults?
    }
  }

  function Initial(): UserState {
    UserState([], [], None, false, None)
  }

  /** The slice reducer: the state after one action. */
  function Reduce(s: UserState, a: Action): (r: UserState)
    ensures a.Pending? ==> r.loading && r.error == None
    ensures a.Settles() ==> !r.loading
    ensures r.users != s.users ==> a.FetchUsersFulfilled?
    ensures r.searchResults != s.searchResults ==> a.WritesSearchResults()
    ensures r.profile != s.profile ==> a.FetchUserProfileByIdFulfilled? || a.ResetUserState?
    ensures r.error != s.error ==> a.ResetUserState? || a.Pending? || a.Rejected?
  {
    match a
    case ResetUserState =>
      s.(loading := false, error := None, profile := None)
    case ResetSearchResults =>
      s.(searchResults := [])
    case Pending(_) =>
      s.(loading := true, error := None)
    case FetchUsersFulfilled(users) =>
      s.(loading := false, users := users)
    case SearchUsersFulfilled(results) =>
      s.(loading := false, searchResults := results)
    case FetchUserProfileByIdFulfilled(profile) =>
      s.(loading := false, profile := Some(profile))
    case Rejected(op, reason) =>
      s.(loading := false, error := Some(OrDefault(reason, op.FailureMessage())))
  }

  /** The state after dispatching `actions` in order. */
  function Run(s: UserState, actions: seq<Action>): UserState {
    Fold(s, actions, Reduce)
  }

  /** What a thunk settles with when its request fails. */
  function Failed(op: Operation, message: Option<string>): (a: Action)
    ensures a.Rejected? && a.op == op && a.reason.Some? && a.reason.value != ""
    ensures message.Some? && message.value != "" ==> a.reason == message
    ensures message == None || message == Some("") ==> a.reason == Some(op.FailureMessage())
  {
    Rejected(op, RejectWithValue(message, op.FailureMessage()))
  }

  /** `user.active` read as a condition. */
  predicate IsActive(u: Record) {
    AttributeTruthy(u, "active")
  }

  /** `selectFilteredUsers`: the users whose `active` is truthy, in list
      order. */
  function SelectFilteredUsers(s: UserState): (active: seq<Record>)
    ensures |active| <= |s.users|
    ensures forall u :: u in active <==> u in s.users && IsActive(u)
  {
    Filter(s.users, IsActive)
  }

  // -----------------------------------------------------------------------
  // Properties of the reducer and the selector
  // -----------------------------------------------------------------------

  /** A failed request changes only `loading` and `error`, which becomes the
      server's message or else the operation's fallback. */
  lemma FailureSetsOnlyError(s: UserState, op: Operation, message: Option<string>)
    ensures Reduce(s, Failed(op, message)) ==
      s.(loading := false, error := Some(OrDefault(message, op.FailureMessage())))
  {
    ReducerFallbackAfterThunk(message, op.FailureMessage());
  }

  /** The selector keeps each active user exactly as often as the list holds
      it, drops every inactive one, and keeps list order around any split of
      the list. */
  lemma SelectFilteredUsersExactly(s: UserState, left: seq<Record>, right: seq<Record>, u: Record)
    requires s.users == left + right
    ensures SelectFilteredUsers(s) ==
      SelectFilteredUsers(s.(users := left)) + SelectFilteredUsers(s.(users := right))
    ensures multiset(SelectFilteredUsers(s))[u] == if IsActive(u) then multiset(s.users)[u] else 0
  {
    FilterAppend(left, right, IsActive);
    FilterCount(s.users, IsActive, u);
  }

  /** The selector returns the whole list when every user is active, and
      selecting from its own output changes nothing. */
  lemma SelectFilteredUsersStable(s: UserState)
    ensures (forall k :: 0 <= k < |s.users| ==> IsActive(s.users[k])) ==> SelectFilteredUsers(s) == s.users
    ensures SelectFilteredUsers(s.(users := SelectFilteredUsers(s))) == SelectFilteredUsers(s)
  {
    FilterIdempotent(s.users, IsActive);
    if forall k :: 0 <= k < |s.users| ==> IsActive(s.users[k]) {
      FilterKeepsAll(s.users, IsActive);
    }
  }

  /** Only a fulfilled fetch of the user list changes what the selector
      returns. */
  lemma {:induction false} SelectorFollowsUsersOnly(s: UserState, actions: seq<Action>)
    requires forall k :: 0 <= k < |actions| ==> !actions[k].FetchUsersFulfilled?
    ensures SelectFilteredUsers(Run(s, actions)) == SelectFilteredUsers(s)
  {
    FoldPreserves(s, actions, Reduce, (a: Action) => !a.FetchUsersFulfilled?,
                  (t: UserState) => t.users == s.users);
  }

  /** Last settled wins: once a search has been fulfilled, the search
      results are its payload until another search is fulfilled or the
      results are reset. */
  lemma {:induction false} LastSearchSettledWins(s: UserState, before: seq<Action>,
                                                 results: seq<Record>, after: seq<Action>)
    requires forall k :: 0 <= k < |after| ==> !after[k].WritesSearchResults()
    ensures Run(s, before + [SearchUsersFulfilled(results)] + after).searchResults == results
  {
    var mid := Run(s, before + [SearchUsersFulfilled(results)]);
    FoldAppend(s, before + [SearchUsersFulfilled(results)], after, Reduce);
    FoldAppend(s, before, [SearchUsersFulfilled(results)], Reduce);
    FoldPreserves(mid, after, Reduce, (a: Action) => !a.WritesSearchResults(),
                  (t: UserState) => t.searchResults == results);
  }

  /** `error` is null whenever `loading` is true, after any sequence of
      actions from a state where that held. */
  lemma {:induction false} NoErrorWhileLoading(s: UserState, actions: seq<Action>)
    requires s.loading ==> s.error == None
    ensures Run(s, actions).loading ==> Run(s, actions).error == None
  {
    FoldPreserves(s, actions, Reduce, (a: Action) => true,
                  (t: UserState) => t.loading ==> t.error == None);
  }

  /** Resetting the search results twice is resetting them once, and
      resetting empty results changes nothing. */
  lemma ResetSearchResultsIdempotent(s: UserState)
    ensures Reduce(Reduce(s, ResetSearchResults), ResetSearchResults) == Reduce(s, ResetSearchResults)
    ensures s.searchResults == [] ==> Reduce(s, ResetSearchResults) == s
  {
  }

  // -----------------------------------------------------------------------
  // The slice as a mutable object
  // -----------------------------------------------------------------------

  /** The slice's draft state; every case of the reducer assigns its fields
      in place. */
  class UserStore {
    var users: seq<Record>
    var searchResults: seq<Record>
    var profile: Option<Record>
    var loading: bool
    var error: Option<string>

    function Snapshot(): UserState
      reads this
    {
      UserState(users, searchResults, profile, loading, error)
    }

    constructor ()
      ensures Snapshot() == Initial()
      ensures users == [] && searchResults == [] && profile == None && !loading && error == None
    {
      users := [];
      searchResults := [];
      profile := None;
      loading := false;
      error := None;
    }

    /** Clears the status pair and the profile; the lists stay. */
    method ResetUserState()
      modifies this
      ensures users == old(users) && searchResults == old(searchResults)
      ensures Snapshot() == old(Snapshot()).(loading := false, error := None, profile := None)
    {
      loading := false;
      error := None;
      profile := None;
    }

    method ResetSearchResults()
      modifies this
      ensures Snapshot() == old(Snapshot()).(searchResults := [])
    {
      searchResults := [];
    }

    /** The pending phase of every operation. */
    method Pending(op: Operation)
      modifies this
      ensures Snapshot() == old(Snapshot()).(loading := true, error := None)
    {
      loading := true;
      error := None;
    }

    method FetchUsersFulfilled(payload: seq<Record>)
      modifies this
      ensures Snapshot() == old(Snapshot()).(loading := false, users := payload)
    {
      loading := false;
      users := payload;
    }

    method SearchUsersFulfilled(payload: seq<Record>)
      modifies this
      ensures Snapshot() == old(Snapshot()).(loading := false, searchResults := payload)
    {
      loading := false;
      searchResults := payload;
    }

    method FetchUserProfileByIdFulfilled(payload: Record)
      modifies this
      ensures Snapshot() == old(Snapshot()).(loading := false, profile := Some(payload))
    {
      loading := false;
      profile := Some(payload);
    }

    /** The rejected phase: `action.payload || fallback` goes to `error`. */
    method Rejected(op: Operation, payload: Option<string>)
      modifies this
      ensures Snapshot() == old(Snapshot()).(loading := false, error := Some(OrDefault(payload, op.FailureMessage())))
    {
      loading := false;
      error := Some(OrDefault(payload, op.FailureMessage()));
    }

    /** Runs the case of the reducer that matches the action. */
    method Dispatch(a: Action)
      modifies this
      ensures Snapshot() == Reduce(old(Snapshot()), a)
    {
      match a
      case ResetUserState => ResetUserState();
      case ResetSearchResults => ResetSearchResults();
      case Pending(op) => Pending(op);
      case FetchUsersFulfilled(payload) => FetchUsersFulfilled(payload);
      case SearchUsersFulfilled(payload) => SearchUsersFulfilled(payload);
      case FetchUserProfileByIdFulfilled(payload) => FetchUserProfileByIdFulfilled(payload);
      case Rejected(op, payload) => Rejected(op, payload);
    }
  }
}
