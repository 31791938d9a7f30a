/** The comments slice: the comment list and the `loading`/`error` pair of
    its one fetch. It has no local reducers. */
module CommentSlice {
  import opened Common

  datatype CommentState = CommentState(
    comments: seq<Record>,
    loading: bool,
    error: Option<string>)

  /** The three phases of `fetchComments`, the only actions the slice reacts
      to. */
  datatype Action =
    | FetchCommentsPending
    | FetchCommentsFulfilled(comments: seq<Record>)
    | FetchCommentsRejected(reason: Option<string>)

  function Initial(): CommentState {
    CommentState([], false, None)
  }

  /** The slice reducer: the state after one action. The rejected phase
      copies its payload into `error` with no fallback. */
  function Reduce(s: CommentState, a: Action): (r: CommentState)
    ensures a.FetchCommentsPending? <==> r.loading
    ensures r.comments != s.comments ==> a.FetchCommentsFulfilled?
    ensures a.FetchCommentsFulfilled? ==> r.comments == a.comments && r.error == s.error
    ensures a.FetchCommentsRejected? ==> r.error == a.reason && r.comments == s.comments
  {
    match a
    case FetchCommentsPending =>
      s.(loading := true, error := None)
    case FetchCommentsFulfilled(comments) =>
      s.(loading := false, comments := comments)
    case FetchCommentsRejected(reason) =>
      s.(loading := false, error := reason)
  }

  /** The state after dispatching `actions` in order. */
  function Run(s: CommentState, actions: seq<Action>): CommentState {
    Fold(s, actions, Reduce)
  }

  /** The fetchComments thunk has no catch and never calls
      `rejectWithValue`: a failed request settles with no payload, whatever
      the server said. */
  function FetchCommentsSettled(response: Http<seq<Record>>): (a: Action)
    ensures response.Ok? <==> a.FetchCommentsFulfilled?
    ensures response.Ok? ==> a.comments == response.data
    ensures response.Err? ==> a == FetchCommentsRejected(None)
  {
    match response
    case Ok(comments) => FetchCommentsFulfilled(comments)
    case Err(_) => FetchCommentsRejected(None)
  }

  // -----------------------------------------------------------------------
  // Properties of the reducer
  // -----------------------------------------------------------------------

  /** A failed fetch leaves the slice neither loading nor reporting an
      error: the failure is invisible in the state, whatever came before. */
  lemma FailedFetchLeavesNoError(s: CommentState, message: Option<string>)
    ensures Reduce(s, FetchCommentsSettled(Err(message))) == s.(loading := false, error := None)
  {
  }

  /** `error` is null whenever `loading` is true, after any sequence of
      actions from a state where that held. */
  lemma {:induction false} NoErrorWhileLoading(s: CommentState, actions: seq<Action>)
    requires s.loading ==> s.error == None
    ensures Run(s, actions).loading ==> Run(s, actions).error == None
  {
    FoldPreserves(s, actions, Reduce, (a: Action) => true,
                  (t: CommentState) => t.loading ==> t.error == None);
  }

  /** Actions settled through the thunk never leave an error behind: from
      the initial state `error` stays null. */
  lemma {:induction false} ErrorStaysNull(responses: seq<Http<seq<Record>>>, pendings: seq<bool>)
    requires |pendings| == |responses|
    ensures var actions := seq(|responses|, k requires 0 <= k < |responses| =>
                                 if pendings[k] then FetchCommentsPending else FetchCommentsSettled(responses[k]));
      Run(Initial(), actions).error == None
  {
    var actions := seq(|responses|, k requires 0 <= k < |responses| =>
                         if pendings[k] then FetchCommentsPending else FetchCommentsSettled(responses[k]));
    FoldPreserves(Initial(), actions, Reduce, (a: Action) => !(a.FetchCommentsRejected? && a.reason.Some?),
                  (t: CommentState) => t.error == None);
  }

  // -----------------------------------------------------------------------
  // The slice as a mutable object
  // -----------------------------------------------------------------------

  /** The slice's draft state; each of the three cases assigns its fields in
      place. */
  class CommentStore {
    var comments: seq<Record>
    var loading: bool
    var error: Option<string>

    function Snapshot(): CommentState
      reads this
    {
      CommentState(comments, loading, error)
    }

    constructor ()
      ensures Snapshot() == Initial()
      ensures comments == [] && !loading && error == None
    {
      comments := [];
      loading := false;
      error := None;
    }

    method FetchCommentsPending()
      modifies this
      ensures Snapshot() == old(Snapshot()).(loading := true, error := None)
    {
      loading := true;
      error := None;
    }

    method FetchCommentsFulfilled(payload: seq<Record>)
      modifies this
      ensures Snapshot() == old(Snapshot()).(loading := false, comments := payload)
    {
      loading := false;
      comments := payload;
    }

    /** `state.error = action.payload`, absent when the thunk threw. */
    method FetchCommentsRejected(payload: Option<string>)
      modifies this
      ensures comments == old(comments)
      ensures Snapshot() == old(Snapshot()).(loading := false, error := payload)
    {
      loading := false;
      error := payload;
    }

    /** Runs the case of the reducer that matches the action. */
    method Dispatch(a: Action)
      modifies this
      ensures Snapshot() == Reduce(old(Snapshot()), a)
    {
      match a
      case FetchCommentsPending => FetchCommentsPending();
      case FetchCommentsFulfilled(payload) => FetchCommentsFulfilled(payload);
      case FetchCommentsRejected(payload) => FetchCommentsRejected(payload);
    }
  }
}
