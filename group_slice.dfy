/** The groups slice: the group list, the search results, the group being
    viewed, the user's pending invitations, and two status flows: the main
    `loading`/`error` pair and the invitation `inviteStatus`/`inviteError`
    pair (which shares `loading` with the main flow). */
module GroupSlice {
  import opened Common

  /** The non-null values of `inviteStatus`: 'success' and 'failed'. */
  datatype InviteStatus = InviteSucceeded | InviteFailed

  datatype GroupState = GroupState(
    groups: seq<Record>,
    searchResults: seq<Record>,
    currentGroup: Option<Record>,
    invitations: seq<Record>,
    loading: bool,
    error: Option<string>,
    inviteStatus: Option<InviteStatus>,
    inviteError: Option<string>)

  /** The asynchronous operations (thunks) of the slice. */
  datatype Operation =
    | FetchGroups | SearchGroups | FetchGroupById | CreateGroup | DeleteGroup
    | FetchGroupInvitations | SendGroupInvite | AcceptGroupInvite | DenyGroupInvite
  {
    /** Send, accept and deny report through inviteStatus/inviteError. */
    predicate IsInviteFlow() {
      this == SendGroupInvite || this == AcceptGroupInvite || this == DenyGroupInvite
    }

    /** The fixed message both the thunk and the reducer fall back on. */
    function FailureMessage(): (m: string)
      ensures m != ""
    {
      match this
      case FetchGroups => "Failed to fetch groups"
      case SearchGroups => "Failed to search groups"
      case FetchGroupById => "Failed to fetch group"
      case CreateGroup => "Failed to create group"
      case DeleteGroup => "Failed to delete group"
      case FetchGroupInvitations => "Failed to fetch invitations"
      case SendGroupInvite => "Failed to send invitation"
      case AcceptGroupInvite => "Failed to accept invitation"
      case DenyGroupInvite => "Failed to deny invitation"
    }
  }

  /** Every action the slice reacts to: its two local reducers, the pending
      and rejected phase of each operation, and each fulfilled phase with
      the part of the action the reducer reads. */
  datatype Action =
    | ResetGroupState
    | ResetSearchResults
    | Pending(op: Operation)
    | FetchGroupsFulfilled(groups: seq<Record>)
    | SearchGroupsFulfilled(results: seq<Record>)
    | FetchGroupByIdFulfilled(group: Record)
    | CreateGroupFulfilled(created: Record)
    | DeleteGroupFulfilled(arg: Id, response: Value)  // arg is `action.meta.arg`
    | FetchGroupInvitationsFulfilled(invitations: seq<Record>)
    | SendGroupInviteFulfilled
    | AcceptGroupInviteFulfilled
    | DenyGroupInviteFulfilled
    | Rejected(op: Operation, reason: Option<string>)
  {
    /** The fulfilled and rejected phases: the ones that settle a request. */
    predicate Settles() {
      !(ResetGroupState? || ResetSearchResults? || Pending?)
    }

    /** The actions of the invitation flow (send, accept, deny). */
    predicate IsInviteStep() {
      || (Pending? && op.IsInviteFlow())
      || (Rejected? && op.IsInviteFlow())
      || SendGroupInviteFulfilled? || AcceptGroupInviteFulfilled? || DenyGroupInviteFulfilled?
    }

    predicate WritesSearchResults() {
      SearchGroupsFulfilled? || ResetSearchResults?
    }
  }

  function Initial(): GroupState {
    GroupState([], [], None, [], false, None, None, None)
  }

  /** The slice reducer: the state after one action. */
  function Reduce(s: GroupState, a: Action): (r: GroupState)
    ensures a.Pending? ==> r.loading
    ensures a.Settles() ==> !r.loading
    ensures r.groups != s.groups ==>
      a.FetchGroupsFulfilled? || a.CreateGroupFulfilled? || a.DeleteGroupFulfilled?
    ensures r.searchResults != s.searchResults ==> a.WritesSearchResults()
    ensures r.currentGroup != s.currentGroup ==> a.FetchGroupByIdFulfilled?
    ensures r.invitations != s.invitations ==> a.FetchGroupInvitationsFulfilled?
    ensures a.IsInviteStep() ==> r.error == s.error
    ensures (r.inviteStatus, r.inviteError) != (s.inviteStatus, s.inviteError) ==>
      a.ResetGroupState? || a.IsInviteStep()
  {
    match a
    case ResetGroupState =>
      s.(loading := false, error := None, inviteStatus := None, inviteError := None)
    case ResetSearchResults =>
      s.(searchResults := [])
    case Pending(op) =>
      if op.IsInviteFlow() then s.(inviteStatus := None, inviteError := None, loading := true)
      else s.(loading := true, error := None)
    case FetchGroupsFulfilled(groups) =>
      s.(loading := false, groups := groups)
    case SearchGroupsFulfilled(results) =>
      s.(loading := false, searchResults := results)
    case FetchGroupByIdFulfilled(group) =>
      s.(loading := false, currentGroup := Some(group))
    case CreateGroupFulfilled(created) =>
      s.(loading := false, groups := s.groups + [created])
    case DeleteGroupFulfilled(arg, _) =>
      s.(loading := false, groups := WithoutId(s.groups, arg))
    case FetchGroupInvitationsFulfilled(invitations) =>
      s.(loading := false, invitations := invitations)
    case SendGroupInviteFulfilled =>
      s.(inviteStatus := Some(InviteSucceeded), loading := false)
    case AcceptGroupInviteFulfilled =>
      s.(inviteStatus := Some(InviteSucceeded), loading := false)
    case DenyGroupInviteFulfilled =>
      s.(inviteStatus := Some(InviteSucceeded), loading := false)
    case Rejected(op, reason) =>
      if op.IsInviteFlow() then
        s.(inviteStatus := Some(InviteFailed), inviteError := Some(OrDefault(reason, op.FailureMessage())), loading := false)
      else
        s.(loading := false, error := Some(OrDefault(reason, op.FailureMessage())))
  }

  /** The state after dispatching `actions` in order. */
  function Run(s: GroupState, actions: seq<Action>): GroupState {
    Fold(s, actions, Reduce)
  }

  /** What a thunk settles with when its request fails: the rejected phase
      carrying the server's message or the operation's fallback. */
  function Failed(op: Operation, message: Option<string>): (a: Action)
    ensures a.Rejected? && a.op == op && a.reason.Some? && a.reason.value != ""
    ensures message.Some? && message.value != "" ==> a.reason == message
    ensures message == None || message == Some("") ==> a.reason == Some(op.FailureMessage())
  {
    Rejected(op, RejectWithValue(message, op.FailureMessage()))
  }

  // -----------------------------------------------------------------------
  // Properties of the reducer
  // -----------------------------------------------------------------------

  /** A failed request sets only the status pair of its own flow: `error`
      for the main flow, `inviteStatus = 'failed'` and `inviteError` for the
      invitation flow, to the server's message or else the fallback. */
  lemma FailureSetsOnlyItsError(s: GroupState, op: Operation, message: Option<string>)
    ensures !op.IsInviteFlow() ==>
      Reduce(s, Failed(op, message)) ==
      s.(loading := false, error := Some(OrDefault(message, op.FailureMessage())))
    ensures op.IsInviteFlow() ==>
      Reduce(s, Failed(op, message)) ==
      s.(loading := false, inviteStatus := Some(InviteFailed),
         inviteError := Some(OrDefault(message, op.FailureMessage())))
  {
    ReducerFallbackAfterThunk(message, op.FailureMessage());
  }

  /** Deleting a group removes exactly the groups whose id is the dispatch
      argument, whatever the response body was, keeping every other group
      as often as it occurred; when no group has that id the list is
      unchanged. */
  lemma DeleteRemovesArgumentId(s: GroupState, arg: Id, response: Value, g: Record)
    ensures var r := Reduce(s, DeleteGroupFulfilled(arg, response));
      && (g in r.groups <==> g in s.groups && g.id != arg)
      && multiset(r.groups)[g] == (if g.id == arg then 0 else multiset(s.groups)[g])
      && ((forall k :: 0 <= k < |s.groups| ==> s.groups[k].id != arg) ==> r.groups == s.groups)
  {
    WithoutIdExactly(s.groups, [], arg, g);
    if forall k :: 0 <= k < |s.groups| ==> s.groups[k].id != arg {
      WithoutAbsentId(s.groups, arg);
    }
  }

  /** Last settled wins: once a search has been fulfilled, the search
      results are its payload until another search is fulfilled or the
      results are reset, whatever else is dispatched meanwhile (including
      the pending phase of a later search). */
  lemma {:induction false} LastSearchSettledWins(s: GroupState, before: seq<Action>,
                                                 results: seq<Record>, after: seq<Action>)
    requires forall k :: 0 <= k < |after| ==> !after[k].WritesSearchResults()
    ensures Run(s, before + [SearchGroupsFulfilled(results)] + after).searchResults == results
  {
    var mid := Run(s, before + [SearchGroupsFulfilled(results)]);
    FoldAppend(s, before + [SearchGroupsFulfilled(results)], after, Reduce);
    FoldAppend(s, before, [SearchGroupsFulfilled(results)], Reduce);
    FoldPreserves(mid, after, Reduce, (a: Action) => !a.WritesSearchResults(),
                  (t: GroupState) => t.searchResults == results);
  }

  /** Sending, accepting or denying invitations never edits the invitation
      list: an accepted or denied invitation stays until the next fetch. */
  lemma {:induction false} InviteFlowKeepsInvitations(s: GroupState, steps: seq<Action>)
    requires forall k :: 0 <= k < |steps| ==> steps[k].IsInviteStep()
    ensures Run(s, steps).invitations == s.invitations
    ensures |Run(s, steps).invitations| == |s.invitations|
  {
    FoldPreserves(s, steps, Reduce, (a: Action) => a.IsInviteStep(),
                  (t: GroupState) => t.invitations == s.invitations);
  }

  /** `loading ==> error == null` holds from the initial state across every
      action except the pending phase of an invitation, which raises
      `loading` without clearing `error`. */
  lemma {:induction false} NoErrorWhileLoadingOutsideInvites(actions: seq<Action>)
    requires forall k :: 0 <= k < |actions| ==> !(actions[k].Pending? && actions[k].op.IsInviteFlow())
    ensures Run(Initial(), actions).loading ==> Run(Initial(), actions).error == None
  {
    FoldPreserves(Initial(), actions, Reduce,
                  (a: Action) => !(a.Pending? && a.op.IsInviteFlow()),
                  (t: GroupState) => t.loading ==> t.error == None);
  }

  /** An invitation sent after a failed fetch leaves the slice loading with
      the old error still set. */
  lemma InvitePendingKeepsStaleError()
    ensures var r := Run(Initial(), [Pending(FetchGroups), Failed(FetchGroups, None), Pending(SendGroupInvite)]);
      r.loading && r.error == Some("Failed to fetch groups")
  {
  }

  /** Resetting the search results twice is resetting them once, and
      resetting empty results changes nothing. */
  lemma ResetSearchResultsIdempotent(s: GroupState)
    ensures Reduce(Reduce(s, ResetSearchResults), ResetSearchResults) == Reduce(s, ResetSearchResults)
    ensures s.searchResults == [] ==> Reduce(s, ResetSearchResults) == s
  {
  }

  // -----------------------------------------------------------------------
  // The slice as a mutable object
  // -----------------------------------------------------------------------

  /** The slice's draft state; every case of the reducer assigns its fields
      in place. */
  class GroupStore {
    var groups: seq<Record>
    var searchResults: seq<Record>
    var currentGroup: Option<Record>
    var invitations: seq<Record>
    var loading: bool
    var error: Option<string>
    var inviteStatus: Option<InviteStatus>
    var inviteError: Option<string>

    function Snapshot(): GroupState
      reads this
    {
      GroupState(groups, searchResults, currentGroup, invitations, loading, error, inviteStatus, inviteError)
    }

    constructor ()
      ensures Snapshot() == Initial()
      ensures groups == [] && searchResults == [] && currentGroup == None && invitations == []
      ensures !loading && error == None && inviteStatus == None && inviteError == None
    {
      groups := [];
      searchResults := [];
      currentGroup := None;
      invitations := [];
      loading := false;
      error := None;
      inviteStatus := None;
      inviteError := None;
    }

    method ResetGroupState()
      modifies this
      ensures Snapshot() == old(Snapshot()).(loading := false, error := None, inviteStatus := None, inviteError := None)
    {
      loading := false;
      error := None;
      inviteStatus := None;
      inviteError := None;
    }

    method ResetSearchResults()
      modifies this
      ensures Snapshot() == old(Snapshot()).(searchResults := [])
    {
      searchResults := [];
    }

    /** The pending phase: the main flow raises `loading` and clears
        `error`; the invitation flow clears its own pair and raises
        `loading`, leaving `error` as it was. */
    method Pending(op: Operation)
      modifies this
      ensures !op.IsInviteFlow() ==> Snapshot() == old(Snapshot()).(loading := true, error := None)
      ensures op.IsInviteFlow() ==>
        Snapshot() == old(Snapshot()).(inviteStatus := None, inviteError := None, loading := true)
    {
      if op.IsInviteFlow() {
        inviteStatus := None;
        inviteError := None;
        loading := true;
      } else {
        loading := true;
        error := None;
      }
    }

    method FetchGroupsFulfilled(payload: seq<Record>)
      modifies this
      ensures Snapshot() == old(Snapshot()).(loading := false, groups := payload)
    {
      loading := false;
      groups := payload;
    }

    method SearchGroupsFulfilled(payload: seq<Record>)
      modifies this
      ensures Snapshot() == old(Snapshot()).(loading := false, searchResults := payload)
    {
      loading := false;
      searchResults := payload;
    }

    method FetchGroupByIdFulfilled(payload: Record)
      modifies this
      ensures Snapshot() == old(Snapshot()).(loading := false, currentGroup := Some(payload))
    {
      loading := false;
      currentGroup := Some(payload);
    }

    /** `state.groups.push(action.payload)`: appended at the end, no check
        for a duplicate id. */
    method CreateGroupFulfilled(payload: Record)
      modifies this
      ensures groups == old(groups) + [payload] && |groups| == |old(groups)| + 1
      ensures Snapshot() == old(Snapshot()).(loading := false, groups := old(groups) + [payload])
    {
      loading := false;
      groups := groups + [payload];
    }

    /** Removes by the id the thunk was dispatched with; the response body
        plays no part. */
    method DeleteGroupFulfilled(arg: Id, response: Value)
      modifies this
      ensures forall g :: g in groups <==> g in old(groups) && g.id != arg
      ensures Snapshot() == old(Snapshot()).(loading := false, groups := WithoutId(old(groups), arg))
    {
      loading := false;
      groups := WithoutId(groups, arg);
    }

    method FetchGroupInvitationsFulfilled(payload: seq<Record>)
      modifies this
      ensures Snapshot() == old(Snapshot()).(loading := false, invitations := payload)
    {
      loading := false;
      invitations := payload;
    }

    /** The fulfilled phase of send, accept and deny: the invitation list is
        not pruned. */
    method InviteFulfilled()
      modifies this
      ensures invitations == old(invitations)
      ensures Snapshot() == old(Snapshot()).(inviteStatus := Some(InviteSucceeded), loading := false)
    {
      inviteStatus := Some(InviteSucceeded);
      loading := false;
    }

    /** The rejected phase: `payload || fallback` goes to `error` for the
        main flow and to `inviteError` (with 'failed') for the invitation
        flow. */
    method Rejected(op: Operation, payload: Option<string>)
      modifies this
      ensures !op.IsInviteFlow() ==>
        Snapshot() == old(Snapshot()).(loading := false, error := Some(OrDefault(payload, op.FailureMessage())))
      ensures op.IsInviteFlow() ==>
        Snapshot() == old(Snapshot()).(inviteStatus := Some(InviteFailed),
                                       inviteError := Some(OrDefault(payload, op.FailureMessage())),
                                       loading := false)
    {
      if op.IsInviteFlow() {
        inviteStatus := Some(InviteFailed);
        inviteError := Some(OrDefault(payload, op.FailureMessage()));
        loading := false;
      } else {
        loading := false;
        error := Some(OrDefault(payload, op.FailureMessage()));
      }
    }

    /** Runs the case of the reducer that matches the action. */
    method Dispatch(a: Action)
      modifies this
      ensures Snapshot() == Reduce(old(Snapshot()), a)
    {
      match a
      case ResetGroupState => ResetGroupState();
      case ResetSearchResults => ResetSearchResults();
      case Pending(op) => Pending(op);
      case FetchGroupsFulfilled(payload) => FetchGroupsFulfilled(payload);
      case SearchGroupsFulfilled(payload) => SearchGroupsFulfilled(payload);
      case FetchGroupByIdFulfilled(payload) => FetchGroupByIdFulfilled(payload);
      case CreateGroupFulfilled(payload) => CreateGroupFulfilled(payload);
      case DeleteGroupFulfilled(arg, response) => DeleteGroupFulfilled(arg, response);
      case FetchGroupInvitationsFulfilled(payload) => FetchGroupInvitationsFulfilled(payload);
      case SendGroupInviteFulfilled => InviteFulfilled();
      case AcceptGroupInviteFulfilled => InviteFulfilled();
      case DenyGroupInviteFulfilled => InviteFulfilled();
      case Rejected(op, payload) => Rejected(op, payload);
    }
  }
}
