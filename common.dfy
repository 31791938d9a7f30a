/** Values shared by all six slices: the records the API returns, the outcome
    of one HTTP request, the message fallback of the thunks, and the list
    operations the reducers apply to id-keyed lists. */
module Common {

  datatype Option<+T> = None | Some(value: T)

  /** Identifiers are assigned by the server; the client only compares them. */
  type Id = int

  /** The JSON values a record attribute can hold. Numbers are integers here;
      Composite stands for any array or object. */
  datatype Value = Null | Bool(b: bool) | Num(n: int) | Str(s: string) | Composite

  /** JavaScript truthiness of a JSON value. */
  predicate Truthy(v: Value) {
    match v
    case Null => false
    case Bool(b) => b
    case Num(n) => n != 0
    case Str(s) => s != ""
    case Composite => true
  }

  /** A record fetched from the API. The reducers merge it into state as a
      whole and interpret nothing but its id. */
  datatype Record = Record(id: Id, attributes: map<string, Value>)

  /** `record[name]` read as a condition: a missing attribute is undefined,
      which is falsy. */
  predicate AttributeTruthy(r: Record, name: string) {
    name in r.attributes && Truthy(r.attributes[name])
  }

  /** The outcome of one HTTP request made by a thunk: the response body on
      success, otherwise `error.response?.data?.message`, which is absent when
      no response, no body or no message came back. */
  datatype Http<T> = Ok(data: T) | Err(message: Option<string>)

  // ---------------------------------------------------------------------
  // Error messages
  // ---------------------------------------------------------------------

  /** `v || fallback` for a value that is a string or absent: both the absent
      value and the empty string are falsy, so both give the fallback. */
  function OrDefault(v: Option<string>, fallback: string): (s: string)
    ensures v.Some? && v.value != "" ==> s == v.value
    ensures v == None || v == Some("") ==> s == fallback
    ensures fallback != "" ==> s != ""
  {
    if v.Some? && v.value != "" then v.value else fallback
  }

  /** What a thunk's catch block hands to `rejectWithValue`: the server's
      message, or the operation's fixed fallback when it is absent or empty. */
  function RejectWithValue(message: Option<string>, fallback: string): (payload: Option<string>)
    requires fallback != ""
    ensures payload.Some? && payload.value != ""
    ensures message.Some? && message.value != "" ==> payload == message
    ensures message == None || message == Some("") ==> payload == Some(fallback)
  {
    Some(OrDefault(message, fallback))
  }

  /** The reducer's `action.payload || fallback` after the thunk's
      `message || fallback` changes nothing: the error the state ends up with
      is the server's message, or the fallback when there was none. */
  lemma ReducerFallbackAfterThunk(message: Option<string>, fallback: string)
    requires fallback != ""
    ensures OrDefault(RejectWithValue(message, fallback), fallback) == OrDefault(message, fallback)
  {
    var p := RejectWithValue(message, fallback);
    assert p.value != "";
  }

  // ---------------------------------------------------------------------
  // Array.prototype.filter
  // ---------------------------------------------------------------------

  /** `xs.filter(keep)`: the elements satisfying keep, in their order. */
  function Filter<T>(xs: seq<T>, keep: T -> bool): (r: seq<T>)
    ensures |r| <= |xs|
    ensures forall k :: 0 <= k < |r| ==> r[k] in xs && keep(r[k])
    ensures forall k :: 0 <= k < |xs| && keep(xs[k]) ==> xs[k] in r
  {
    if xs == [] then []
    else (if keep(xs[0]) then [xs[0]] else []) + Filter(xs[1..], keep)
  }

  /** Filtering distributes over concatenation: the kept elements keep their
      relative order and nothing is reordered across the split. */
  lemma {:induction false} FilterAppend<T>(a: seq<T>, b: seq<T>, keep: T -> bool)
    ensures Filter(a + b, keep) == Filter(a, keep) + Filter(b, keep)
  {
    if a == [] {
      assert a + b == b;
    } else {
      assert (a + b)[0] == a[0];
      assert (a + b)[1..] == a[1..] + b;
      FilterAppend(a[1..], b, keep);
    }
  }

  /** Each kept element occurs in the result exactly as often as in the
      input; a dropped one does not occur at all. */
  lemma {:induction false} FilterCount<T>(xs: seq<T>, keep: T -> bool, x: T)
    ensures multiset(Filter(xs, keep))[x] == if keep(x) then multiset(xs)[x] else 0
  {
    if xs != [] {
      FilterCount(xs[1..], keep, x);
      assert xs == [xs[0]] + xs[1..];
      assert multiset(xs) == multiset([xs[0]]) + multiset(xs[1..]);
    }
  }

  /** When every element is kept, the filter returns the list unchanged. */
  lemma {:induction false} FilterKeepsAll<T>(xs: seq<T>, keep: T -> bool)
    requires forall x :: x in xs ==> keep(x)
    ensures Filter(xs, keep) == xs
  {
    if xs != [] {
      assert forall x :: x in xs[1..] ==> x in xs;
      FilterKeepsAll(xs[1..], keep);
    }
  }

  /** Filtering twice by the same condition is filtering once. */
  lemma FilterIdempotent<T>(xs: seq<T>, keep: T -> bool)
    ensures Filter(Filter(xs, keep), keep) == Filter(xs, keep)
  {
    FilterKeepsAll(Filter(xs, keep), keep);
  }

  // ---------------------------------------------------------------------
  // Id-keyed list updates
  // ---------------------------------------------------------------------

  /** `xs.filter(x => x.id !== id)`: the delete of groups and events. */
  function WithoutId(xs: seq<Record>, id: Id): (r: seq<Record>)
    ensures |r| <= |xs|
    ensures forall x :: x in r <==> x in xs && x.id != id
  {
    Filter(xs, (x: Record) => x.id != id)
  }

  /** Deleting an id nobody has leaves the list as it was. */
  lemma WithoutAbsentId(xs: seq<Record>, id: Id)
    requires forall k :: 0 <= k < |xs| ==> xs[k].id != id
    ensures WithoutId(xs, id) == xs
  {
    FilterKeepsAll(xs, (x: Record) => x.id != id);
  }

  /** Deleting removes every entry carrying the id and keeps every other
      entry as many times as it occurred, in order around any split. */
  lemma WithoutIdExactly(xs: seq<Record>, ys: seq<Record>, id: Id, x: Record)
    ensures WithoutId(xs + ys, id) == WithoutId(xs, id) + WithoutId(ys, id)
    ensures multiset(WithoutId(xs, id))[x] == if x.id == id then 0 else multiset(xs)[x]
  {
    FilterAppend(xs, ys, (x: Record) => x.id != id);
    FilterCount(xs, (x: Record) => x.id != id, x);
  }

  /** `xs.findIndex(x => x.id === id)` as a value: the first position whose
      entry has the id, or -1 when there is none. */
  function IndexOfId(xs: seq<Record>, id: Id): (i: int)
    ensures -1 <= i < |xs|
    ensures i == -1 <==> forall k :: 0 <= k < |xs| ==> xs[k].id != id
    ensures 0 <= i ==> xs[i].id == id && forall k :: 0 <= k < i ==> xs[k].id != id
  {
    if xs == [] then -1
    else if xs[0].id == id then 0
    else
      var j := IndexOfId(xs[1..], id);
      if j == -1 then -1 else j + 1
  }

  /** `xs.findIndex(x => x.id === id)`, scanning from the front. */
  method FindIndexById(xs: seq<Record>, id: Id) returns (index: int)
    ensures -1 <= index < |xs|
    ensures index == -1 <==> forall k :: 0 <= k < |xs| ==> xs[k].id != id
    ensures 0 <= index ==> xs[index].id == id && forall k :: 0 <= k < index ==> xs[k].id != id
    ensures index == IndexOfId(xs, id)
  {
    var k := 0;
    while k < |xs|
      invariant 0 <= k <= |xs|
      invariant forall j :: 0 <= j < k ==> xs[j].id != id
    {
      if xs[k].id == id {
        return k;
      }
      k := k + 1;
    }
    return -1;
  }

  /** The ids of a list, in order. */
  function Ids(xs: seq<Record>): (ids: seq<Id>)
    ensures |ids| == |xs| && forall k :: 0 <= k < |xs| ==> ids[k] == xs[k].id
  {
    seq(|xs|, k requires 0 <= k < |xs| => xs[k].id)
  }

  /** The position findIndex reports depends on the ids alone. */
  lemma {:induction false} IndexOfIdByIds(xs: seq<Record>, ys: seq<Record>, id: Id)
    requires Ids(xs) == Ids(ys)
    ensures IndexOfId(xs, id) == IndexOfId(ys, id)
  {
    assert |xs| == |ys|;
    assert forall k :: 0 <= k < |xs| ==> xs[k].id == Ids(xs)[k] == Ids(ys)[k] == ys[k].id;
  }

  /** The update of events: find the first entry whose id is `x.id` and
      overwrite it with `x`; when no entry has that id, nothing changes. */
  function ReplaceFirstById(xs: seq<Record>, x: Record): (r: seq<Record>)
    ensures |r| == |xs|
    ensures IndexOfId(xs, x.id) == -1 ==> r == xs
    ensures IndexOfId(xs, x.id) != -1 ==> r[IndexOfId(xs, x.id)] == x
    ensures forall k :: 0 <= k < |xs| && k != IndexOfId(xs, x.id) ==> r[k] == xs[k]
  {
    var i := IndexOfId(xs, x.id);
    if i == -1 then xs else xs[i := x]
  }

  /** An update never changes which ids the list holds, nor where. */
  lemma ReplaceFirstKeepsIds(xs: seq<Record>, x: Record)
    ensures Ids(ReplaceFirstById(xs, x)) == Ids(xs)
  {
  }

  /** Applying the same update twice is applying it once: the second round
      finds the entry the first one wrote. */
  lemma ReplaceFirstIdempotent(xs: seq<Record>, x: Record)
    ensures ReplaceFirstById(ReplaceFirstById(xs, x), x) == ReplaceFirstById(xs, x)
  {
    var ys := ReplaceFirstById(xs, x);
    ReplaceFirstKeepsIds(xs, x);
    IndexOfIdByIds(xs, ys, x.id);
  }

  // ---------------------------------------------------------------------
  // Sequences of dispatches
  // ---------------------------------------------------------------------

  /** The state reached by dispatching `actions` in order, one reducer step
      each, starting from `s`. */
  function Fold<S, A>(s: S, actions: seq<A>, step: (S, A) -> S): S
    decreases |actions|
  {
    if actions == [] then s else Fold(step(s, actions[0]), actions[1..], step)
  }

  /** Dispatching `a` then `b` is dispatching `a + b`. */
  lemma {:induction false} FoldAppend<S, A>(s: S, a: seq<A>, b: seq<A>, step: (S, A) -> S)
    ensures Fold(s, a + b, step) == Fold(Fold(s, a, step), b, step)
    decreases |a|
  {
    if a == [] {
      assert a + b == b;
    } else {
      assert (a + b)[0] == a[0];
      assert (a + b)[1..] == a[1..] + b;
      FoldAppend(step(s, a[0]), a[1..], b, step);
    }
  }

  /** A property every allowed action preserves holds after any sequence of
      allowed actions. */
  lemma {:induction false} FoldPreserves<S, A>(s: S, actions: seq<A>, step: (S, A) -> S,
                                             allowed: A -> bool, inv: S -> bool)
    requires inv(s)
    requires forall k :: 0 <= k < |actions| ==> allowed(actions[k])
    requires forall t, a :: inv(t) && allowed(a) ==> inv(step(t, a))
    ensures inv(Fold(s, actions, step))
    decreases |actions|
  {
    if actions != [] {
      assert allowed(actions[0]);
      FoldPreserves(step(s, actions[0]), actions[1..], step, allowed, inv);
    }
  }
}
