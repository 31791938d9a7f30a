/** The events slice: the event list, the search results, the event being
    viewed, and the `loading`/`error` pair. */
module EventSlice {
  import opened Common

  datatype EventState = EventState(
    events: seq<Record>,
    searchResults: seq<Record>,
    currentEvent: Option<Record>,
    loading: bool,
    error: Option<string>)

  /** The asynchronous operations (thunks) of the slice. */
  datatype Operation =
    | FetchEvents | SearchEvents | FetchEventById | CreateEvent | UpdateEvent | DeleteEvent
  {
    /** The fixed message both the thunk and the reducer fall back on. */
    function FailureMessage(): (m: string)
      ensures m != ""
    {
      match this
      case FetchEvents => "Failed to fetch events"
      case SearchEvents => "Failed to search events"
      case FetchEventById => "Failed to fetch event"
      case CreateEvent => "Failed to create event"
      case UpdateEvent => "Failed to update event"
      case DeleteEvent => "Failed to delete event"
    }
  }

  /** Every action the slice reacts to. */
  datatype Action =
    | ResetEventState
    | ResetSearchResults
    | Pending(op: Operation)
    | FetchEventsFulfilled(events: seq<Record>)
    | SearchEventsFulfilled(results: seq<Record>)
    | FetchEventByIdFulfilled(event: Record)
    | CreateEventFulfilled(created: Record)
    | UpdateEventFulfilled(updated: Record)
    | DeleteEventFulfilled(id: Id)  // the payload `{id}`
    | Rejected(op: Operation, reason: Option<string>)
  {
    /** The fulfilled and rejected phases: the ones that settle a request. */
    predicate Settles() {
      !(ResetEventState? || ResetSearchResults? || Pending?)
    }

    predicate WritesSearchResults() {
      SearchEventsFulfilled? || ResetSearchResults?
    }
  }

  function Initial(): EventState {
    EventState([], [], None, false, None)
  }

  /** The slice reducer: the state after one action. */
  function Reduce(s: EventState, a: Action): (r: EventState)
    ensures a.Pending? ==> r.loading && r.error == None
    ensures a.Settles() ==> !r.loading
    ensures r.events != s.events ==>
      a.FetchEventsFulfilled? || a.CreateEventFulfilled? || a.UpdateEventFulfilled? || a.DeleteEventFulfilled?
    ensures r.searchResults != s.searchResults ==> a.WritesSearchResults()
    ensures r.currentEvent != s.currentEvent ==> a.FetchEventByIdFulfilled?
    ensures r.error != s.error ==> a.ResetEventState? || a.Pending? || a.Rejected?
  {
    match a
    case ResetEventState =>
      s.(loading := false, error := None)
    case ResetSearchResults =>
      s.(searchResults := [])
    case Pending(_) =>
      s.(loading := true, error := None)
    case FetchEventsFulfilled(events) =>
      s.(loading := false, events := events)
    case SearchEventsFulfilled(results) =>
      s.(loading := false, searchResults := results)
    case FetchEventByIdFulfilled(event) =>
      s.(loading := false, currentEvent := Some(event))
    case CreateEventFulfilled(created) =>
      s.(loading := false, events := s.events + [created])
    case UpdateEventFulfilled(updated) =>
      s.(loading := false, events := ReplaceFirstById(s.events, updated))
    case DeleteEventFulfilled(id) =>
      s.(loading := false, events := WithoutId(s.events, id))
    case Rejected(op, reason) =>
      s.(loading := false, error := Some(OrDefault(reason, op.FailureMessage())))
  }

  /** The state after dispatching `actions` in order. */
  function Run(s: EventState, actions: seq<Action>): EventState {
    Fold(s, actions, Reduce)
  }

  /** What a thunk settles with when its request fails. */
  function Failed(op: Operation, message: Option<string>): (a: Action)
    ensures a.Rejected? && a.op == op && a.reason.Some? && a.reason.value != ""
    ensures message.Some? && message.value != "" ==> a.reason == message
    ensures message == None || message == Some("") ==> a.reason == Some(op.FailureMessage())
  {
    Rejected(op, RejectWithValue(message, op.FailureMessage()))
  }

  /** The deleteEvent thunk: on success it settles with `{id}` built from its
      own argument, not from the response body. */
  function DeleteEventSettled(id: Id, response: Http<Value>): (a: Action)
    ensures response.Ok? <==> a.DeleteEventFulfilled?
    ensures a.DeleteEventFulfilled? ==> a.id == id
    ensures response.Err? ==> a == Failed(DeleteEvent, response.message)
  {
    match response
    case Ok(_) => DeleteEventFulfilled(id)
    case Err(message) => Failed(DeleteEvent, message)
  }

  // -----------------------------------------------------------------------
  // Properties of the reducer
  // -----------------------------------------------------------------------

  /** A failed request changes only `loading` and `error`, which becomes the
      server's message or else the operation's fallback. */
  lemma FailureSetsOnlyError(s: EventState, op: Operation, message: Option<string>)
    ensures Reduce(s, Failed(op, message)) ==
      s.(loading := false, error := Some(OrDefault(message, op.FailureMessage())))
  {
    ReducerFallbackAfterThunk(message, op.FailureMessage());
  }

  /** An update overwrites the first event whose id is the payload's id and
      no other; the list keeps its length and its ids, is unchanged when no
      id matches, and a repeated update changes nothing more. */
  lemma UpdateReplacesFirstMatch(s: EventState, updated: Record)
    ensures var r := Reduce(s, UpdateEventFulfilled(updated));
      && |r.events| == |s.events|
      && Ids(r.events) == Ids(s.events)
      && ((forall k :: 0 <= k < |s.events| ==> s.events[k].id != updated.id) ==> r.events == s.events)
      && Reduce(r, UpdateEventFulfilled(updated)).events == r.events
  {
    ReplaceFirstKeepsIds(s.events, updated);
    ReplaceFirstIdempotent(s.events, updated);
  }

  /** A successful delete removes exactly the events carrying the id the
      thunk was called with, whatever the server answered, keeping every
      other event as often as it occurred; when no event has that id the
      list is unchanged. */
  lemma DeleteRemovesArgumentId(s: EventState, id: Id, body: Value, e: Record)
    ensures var r := Reduce(s, DeleteEventSettled(id, Ok(body)));
      && (e in r.events <==> e in s.events && e.id != id)
      && multiset(r.events)[e] == (if e.id == id then 0 else multiset(s.events)[e])
      && ((forall k :: 0 <= k < |s.events| ==> s.events[k].id != id) ==> r.events == s.events)
  {
    WithoutIdExactly(s.events, [], id, e);
    if forall k :: 0 <= k < |s.events| ==> s.events[k].id != id {
      WithoutAbsentId(s.events, id);
    }
  }

  /** Last settled wins: once a search has been fulfilled, the search
      results are its payload until another search is fulfilled or the
      results are reset, whatever else is dispatched meanwhile. */
  lemma {:induction false} LastSearchSettledWins(s: EventState, before: seq<Action>,
                                                 results: seq<Record>, after: seq<Action>)
    requires forall k :: 0 <= k < |after| ==> !after[k].WritesSearchResults()
    ensures Run(s, before + [SearchEventsFulfilled(results)] + after).searchResults == results
  {
    var mid := Run(s, before + [SearchEventsFulfilled(results)]);
    FoldAppend(s, before + [SearchEventsFulfilled(results)], after, Reduce);
    FoldAppend(s, before, [SearchEventsFulfilled(results)], Reduce);
    FoldPreserves(mid, after, Reduce, (a: Action) => !a.WritesSearchResults(),
                  (t: EventState) => t.searchResults == results);
  }

  /** `error` is null whenever `loading` is true, after any sequence of
      actions from a state where that held. */
  lemma {:induction false} NoErrorWhileLoading(s: EventState, actions: seq<Action>)
    requires s.loading ==> s.error == None
    ensures Run(s, actions).loading ==> Run(s, actions).error == None
  {
    FoldPreserves(s, actions, Reduce, (a: Action) => true,
                  (t: EventState) => t.loading ==> t.error == None);
  }

  /** Resetting the search results twice is resetting them once, and
      resetting empty results changes nothing. */
  lemma ResetSearchResultsIdempotent(s: EventState)
    ensures Reduce(Reduce(s, ResetSearchResults), ResetSearchResults) == Reduce(s, ResetSearchResults)
    ensures s.searchResults == [] ==> Reduce(s, ResetSearchResults) == s
  {
  }

  // -----------------------------------------------------------------------
  // The slice as a mutable object
  // -----------------------------------------------------------------------

  /** The slice's draft state; every case of the reducer assigns its fields
      in place. */
  class EventStore {
    var events: seq<Record>
    var searchResults: seq<Record>
    var currentEvent: Option<Record>
    var loading: bool
    var error: Option<string>

    function Snapshot(): EventState
      reads this
    {
      EventState(events, searchResults, currentEvent, loading, error)
    }

    constructor ()
      ensures Snapshot() == Initial()
      ensures events == [] && searchResults == [] && currentEvent == None && !loading && error == None
    {
      events := [];
      searchResults := [];
      currentEvent := None;
      loading := false;
      error := None;
    }

    method ResetEventState()
      modifies this
      ensures Snapshot() == old(Snapshot()).(loading := false, error := None)
    {
      loading := false;
      error := None;
    }

    method ResetSearchResults()
      modifies this
      ensures Snapshot() == old(Snapshot()).(searchResults := [])
    {
      searchResults := [];
    }

    /** The pending phase of every operation. */
    method Pending(op: Operation)
      modifies this
      ensures Snapshot() == old(Snapshot()).(loading := true, error := None)
    {
      loading := true;
      error := None;
    }

    method FetchEventsFulfilled(payload: seq<Record>)
      modifies this
      ensures Snapshot() == old(Snapshot()).(loading := false, events := payload)
    {
      loading := false;
      events := payload;
    }

    method SearchEventsFulfilled(payload: seq<Record>)
      modifies this
      ensures Snapshot() == old(Snapshot()).(loading := false, searchResults := payload)
    {
      loading := false;
      searchResults := payload;
    }

    method FetchEventByIdFulfilled(payload: Record)
      modifies this
      ensures Snapshot() == old(Snapshot()).(loading := false, currentEvent := Some(payload))
    {
      loading := false;
      currentEvent := Some(payload);
    }

    /** `state.events.push(action.payload)`. */
    method CreateEventFulfilled(payload: Record)
      modifies this
      ensures events == old(events) + [payload] && |events| == |old(events)| + 1
      ensures Snapshot() == old(Snapshot()).(loading := false, events := old(events) + [payload])
    {
      loading := false;
      events := events + [payload];
    }

    /** `findIndex` by the payload's id, then overwrite that entry in place
        when one was found. */
    method UpdateEventFulfilled(payload: Record)
      modifies this
      ensures |events| == |old(events)|
      ensures Snapshot() == old(Snapshot()).(loading := false, events := ReplaceFirstById(old(events), payload))
    {
      loading := false;
      var index := FindIndexById(events, payload.id);
      if index != -1 {
        events := events[index := payload];
      }
    }

    /** Removes every event whose id is `payload.id`. */
    method DeleteEventFulfilled(id: Id)
      modifies this
      ensures forall e :: e in events <==> e in old(events) && e.id != id
      ensures Snapshot() == old(Snapshot()).(loading := false, events := WithoutId(old(events), id))
    {
      loading := false;
      events := WithoutId(events, id);
    }

    /** The rejected phase: `action.payload || fallback` goes to `error`. */
    method Rejected(op: Operation, payload: Option<string>)
      modifies this
      ensures Snapshot() == old(Snapshot()).(loading := false, error := Some(OrDefault(payload, op.FailureMessage())))
    {
      loading := false;
      error := Some(OrDefault(payload, op.FailureMessage()));
    }

    /** Runs the case of the reducer that matches the action. */
    method Dispatch(a: Action)
      modifies this
      ensures Snapshot() == Reduce(old(Snapshot()), a)
    {
      match a
      case ResetEventState => ResetEventState();
      case ResetSearchResults => ResetSearchResults();
      case Pending(op) => Pending(op);
      case FetchEventsFulfilled(payload) => FetchEventsFulfilled(payload);
      case SearchEventsFulfilled(payload) => SearchEventsFulfilled(payload);
      case FetchEventByIdFulfilled(payload) => FetchEventByIdFulfilled(payload);
      case CreateEventFulfilled(payload) => CreateEventFulfilled(payload);
      case UpdateEventFulfilled(payload) => UpdateEventFulfilled(payload);
      case DeleteEventFulfilled(id) => DeleteEventFulfilled(id);
      case Rejected(op, payload) => Rejected(op, payload);
    }
  }
}
