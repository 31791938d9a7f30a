/** The RSVP slice: the RSVPs of the event in view and the
    `loading`/`error` pair. */
module RsvpSlice {
  import opened Common

  datatype RsvpState = RsvpState(
    rsvps: seq<Record>,
    loading: bool,
    error: Option<string>)

  /** The asynchronous operations (thunks) of the slice. */
  datatype Operation = FetchRSVPs | CreateRSVP
  {
    /** The fixed message both the thunk and the reducer fall back on. */
    function FailureMessage(): (m: string)
      ensures m != ""
    {
      match this
      case FetchRSVPs => "Failed to fetch RSVPs"
      case CreateRSVP => "Failed to submit RSVP"
    }
  }

  /** Every action the slice reacts to. */
  datatype Action =
    | ResetRsvpState
    | Pending(op: Operation)
    | FetchRSVPsFulfilled(rsvps: seq<Record>)
    | CreateRSVPFulfilled(created: Record)
    | Rejected(op: Operation, reason: Option<string>)
  {
    /** The fulfilled and rejected phases: the ones that settle a request. */
    predicate Settles() {
      FetchRSVPsFulfilled? || CreateRSVPFulfilled? || Rejected?
    }
  }

  function Initial(): RsvpState {
    RsvpState([], false, None)
  }

  /** The slice reducer: the state after one action. */
  function Reduce(s: RsvpState, a: Action): (r: RsvpState)
    ensures a.Pending? ==> r.loading && r.error == None
    ensures a.Settles() ==> !r.loading
    ensures r.rsvps != s.rsvps ==> a.FetchRSVPsFulfilled? || a.CreateRSVPFulfilled?
    ensures a.CreateRSVPFulfilled? ==> |r.rsvps| == |s.rsvps| + 1 && r.rsvps[..|s.rsvps|] == s.rsvps
    ensures r.error != s.error ==> a.ResetRsvpState? || a.Pending? || a.Rejected?
  {
    match a
    case ResetRsvpState =>
      s.(loading := false, error := None)
    case Pending(_) =>
      s.(loading := true, error := None)
    case FetchRSVPsFulfilled(rsvps) =>
      s.(loading := false, rsvps := rsvps)
    case CreateRSVPFulfilled(created) =>
      s.(loading := false, rsvps := s.rsvps + [created])
    case Rejected(op, reason) =>
      s.(loading := false, error := Some(OrDefault(reason, op.FailureMessage())))
  }

  /** The state after dispatching `actions` in order. */
  function Run(s: RsvpState, actions: seq<Action>): RsvpState {
    Fold(s, actions, Reduce)
  }

  /** What a thunk settles with when its request fails. */
  function Failed(op: Operation, message: Option<string>): (a: Action)
    ensures a.Rejected? && a.op == op && a.reason.Some? && a.reason.value != ""
    ensures message.Some? && message.value != "" ==> a.reason == message
    ensures message == None || message == Some("") ==> a.reason == Some(op.FailureMessage())
  {
    Rejected(op, RejectWithValue(message, op.FailureMessage()))
  }

  // -----------------------------------------------------------------------
  // Properties of the reducer
  // -----------------------------------------------------------------------

  /** A failed request leaves the RSVPs alone and sets `error` to the
      server's message or else the fallback. */
  lemma FailureSetsOnlyError(s: RsvpState, op: Operation, message: Option<string>)
    ensures Reduce(s, Failed(op, message)) ==
      s.(loading := false, error := Some(OrDefault(message, op.FailureMessage())))
  {
    ReducerFallbackAfterThunk(message, op.FailureMessage());
  }

  /** Created RSVPs pile up at the end in the order their requests settled,
      with no check for duplicates, as long as no fetch replaces the list. */
  lemma {:induction false} CreatesAppendInSettleOrder(s: RsvpState, created: seq<Record>)
    ensures Run(s, seq(|created|, k requires 0 <= k < |created| => CreateRSVPFulfilled(created[k]))).rsvps
            == s.rsvps + created
    decreases |created|
  {
    var steps := seq(|created|, k requires 0 <= k < |created| => CreateRSVPFulfilled(created[k]));
    if created == [] {
      assert steps == [];
    } else {
      var rest := seq(|created| - 1, k requires 0 <= k < |created| - 1 => CreateRSVPFulfilled(created[1..][k]));
      assert steps[1..] == rest;
      var next := Reduce(s, steps[0]);
      CreatesAppendInSettleOrder(next, created[1..]);
      assert next.rsvps + created[1..] == s.rsvps + created;
    }
  }

  /** `error` is null whenever `loading` is true, after any sequence of
      actions from a state where that held. */
  lemma {:induction false} NoErrorWhileLoading(s: RsvpState, actions: seq<Action>)
    requires s.loading ==> s.error == None
    ensures Run(s, actions).loading ==> Run(s, actions).error == None
  {
    FoldPreserves(s, actions, Reduce, (a: Action) => true,
                  (t: RsvpState) => t.loading ==> t.error == None);
  }

  // -----------------------------------------------------------------------
  // The slice as a mutable object
  // -----------------------------------------------------------------------

  /** The slice's draft state; every case of the reducer assigns its fields
      in place. */
  class RsvpStore {
    var rsvps: seq<Record>
    var loading: bool
    var error: Option<string>

    function Snapshot(): RsvpState
      reads this
    {
      RsvpState(rsvps, loading, error)
    }

    constructor ()
      ensures Snapshot() == Initial()
      ensures rsvps == [] && !loading && error == None
    {
      rsvps := [];
      loading := false;
      error := None;
    }

    method ResetRsvpState()
      modifies this
      ensures Snapshot() == old(Snapshot()).(loading := false, error := None)
    {
      loading := false;
      error := None;
    }

    /** The pending phase of both operations. */
    method Pending(op: Operation)
      modifies this
      ensures Snapshot() == old(Snapshot()).(loading := true, error := None)
    {
      loading := true;
      error := None;
    }

    method FetchRSVPsFulfilled(payload: seq<Record>)
      modifies this
      ensures Snapshot() == old(Snapshot()).(loading := false, rsvps := payload)
    {
      loading := false;
      rsvps := payload;
    }

    /** `state.rsvps.push(action.payload)`. */
    method CreateRSVPFulfilled(payload: Record)
      modifies this
      ensures rsvps == old(rsvps) + [payload]
      ensures Snapshot() == old(Snapshot()).(loading := false, rsvps := old(rsvps) + [payload])
    {
      loading := false;
      rsvps := rsvps + [payload];
    }

    /** The rejected phase: `action.payload || fallback` goes to `error`. */
    method Rejected(op: Operation, payload: Option<string>)
      modifies this
      ensures rsvps == old(rsvps)
      ensures Snapshot() == old(Snapshot()).(loading := false, error := Some(OrDefault(payload, op.FailureMessage())))
    {
      loading := false;
      error := Some(OrDefault(payload, op.FailureMessage()));
    }

    /** Runs the case of the reducer that matches the action. */
    method Dispatch(a: Action)
      modifies this
      ensures Snapshot() == Reduce(old(Snapshot()), a)
    {
      match a
      case ResetRsvpState => ResetRsvpState();
      case Pending(op) => Pending(op);
      case FetchRSVPsFulfilled(payload) => FetchRSVPsFulfilled(payload);
      case CreateRSVPFulfilled(payload) => CreateRSVPFulfilled(payload);
      case Rejected(op, payload) => Rejected(op, payload);
    }
  }
}
