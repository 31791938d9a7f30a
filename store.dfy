/** The root store: the six slice states under their fixed keys, and a
    dispatch that hands each action to the one slice it belongs to. */
module Store {
  import opened Common
  import AuthSlice
  import EventSlice
  import GroupSlice
  import RsvpSlice
  import CommentSlice
  import UserSlice

  datatype RootState = RootState(
    auth: AuthSlice.AuthState,
    events: EventSlice.EventState,
    groups: GroupSlice.GroupState,
    rsvps: RsvpSlice.RsvpState,
    comments: CommentSlice.CommentState,
    users: UserSlice.UserState)

  /** An action, tagged with the slice whose action types it uses. */
  datatype RootAction =
    | ToAuth(auth: AuthSlice.Action)
    | ToEvents(events: EventSlice.Action)
    | ToGroups(groups: GroupSlice.Action)
    | ToRsvps(rsvps: RsvpSlice.Action)
    | ToComments(comments: CommentSlice.Action)
    | ToUsers(users: UserSlice.Action)

  function Initial(): RootState {
    RootState(AuthSlice.Initial(), EventSlice.Initial(), GroupSlice.Initial(),
              RsvpSlice.Initial(), CommentSlice.Initial(), UserSlice.Initial())
  }

  /** The combined reducer: the addressed slice becomes its own reducer's
      result and every other slice stays as it was. */
  function Dispatch(s: RootState, a: RootAction): (r: RootState)
    ensures !a.ToAuth? ==> r.auth == s.auth
    ensures !a.ToEvents? ==> r.events == s.events
    ensures !a.ToGroups? ==> r.groups == s.groups
    ensures !a.ToRsvps? ==> r.rsvps == s.rsvps
    ensures !a.ToComments? ==> r.comments == s.comments
    ensures !a.ToUsers? ==> r.users == s.users
    ensures a.ToAuth? ==> r.auth == AuthSlice.Reduce(s.auth, a.auth)
    ensures a.ToEvents? ==> r.events == EventSlice.Reduce(s.events, a.events)
    ensures a.ToGroups? ==> r.groups == GroupSlice.Reduce(s.groups, a.groups)
    ensures a.ToRsvps? ==> r.rsvps == RsvpSlice.Reduce(s.rsvps, a.rsvps)
    ensures a.ToComments? ==> r.comments == CommentSlice.Reduce(s.comments, a.comments)
    ensures a.ToUsers? ==> r.users == UserSlice.Reduce(s.users, a.users)
  {
    match a
    case ToAuth(x) => s.(auth := AuthSlice.Reduce(s.auth, x))
    case ToEvents(x) => s.(events := EventSlice.Reduce(s.events, x))
    case ToGroups(x) => s.(groups := GroupSlice.Reduce(s.groups, x))
    case ToRsvps(x) => s.(rsvps := RsvpSlice.Reduce(s.rsvps, x))
    case ToComments(x) => s.(comments := CommentSlice.Reduce(s.comments, x))
    case ToUsers(x) => s.(users := UserSlice.Reduce(s.users, x))
  }

  /** Clearing all three search results, as the home page does on mount
      and the search page does on a blank query, is three independent
      dispatches: it empties each slice's results and changes nothing
      else. */
  lemma ResetAllSearchResults(s: RootState)
    ensures var r := Dispatch(Dispatch(Dispatch(s, ToUsers(UserSlice.ResetSearchResults)),
                                       ToEvents(EventSlice.ResetSearchResults)),
                              ToGroups(GroupSlice.ResetSearchResults));
      r == s.(users := s.users.(searchResults := []),
              events := s.events.(searchResults := []),
              groups := s.groups.(searchResults := []))
  {
  }
}
