/**
 * What `process_updates` does with one batch: for each update in order, raise
 * the offset past a truthy `update_id`, classify the update by its first key
 * other than `update_id`, and await the handler registered for that type (or
 * the wildcard one). Nothing here catches an exception: the first one ends the
 * batch, after the offset changes already made.
 */
module Dispatch {
  import opened Wrappers
  import opened Values
  import opened Errors
  import opened Registry

  const UpdateIdKey: string := "update_id"

  /** One awaited call `handler(update[update_type], update_type)`. */
  datatype Invocation = Invocation(handler: Handler, payload: Value, updateType: string)

  function Max(a: int, b: int): int {
    if a >= b then a else b
  }

  /** `for x in v`: what Python's iteration yields (the characters of a string, the keys of a dict). */
  function Elements(v: Value): Result<seq<Value>, Error> {
    match v
    case List(items) => Success(items)
    case Str(s) => Success(seq(|s|, k requires 0 <= k < |s| => Str([s[k]])))
    case Object(fields) => Success(seq(|fields|, k requires 0 <= k < |fields| => Str(fields[k].0)))
    case _ => Failure(TypeError)
  }

  // ---------------------------------------------------------------------------
  // classifying one update

  /** Position of the first key that is not `update_id`, or `|fields|` when every key is. */
  function TypeIndex(fields: seq<(string, Value)>): (j: nat)
    ensures j <= |fields|
    ensures forall k :: 0 <= k < j ==> fields[k].0 == UpdateIdKey
    ensures j < |fields| ==> fields[j].0 != UpdateIdKey
  {
    if fields == [] then 0
    else if fields[0].0 != UpdateIdKey then 0
    else 1 + TypeIndex(fields[1..])
  }

  /** The update's type: its first key other than `update_id`, or None. */
  function UpdateType(fields: seq<(string, Value)>): Option<string> {
    var j := TypeIndex(fields);
    if j < |fields| then Some(fields[j].0) else None
  }

  /** The inner `for key in update` loop of `process_updates`. */
  method ClassifyUpdate(fields: seq<(string, Value)>) returns (updateType: Option<string>)
    ensures updateType.None? <==> forall k :: 0 <= k < |fields| ==> fields[k].0 == UpdateIdKey
    ensures updateType.Some? ==> exists j :: (0 <= j < |fields| && fields[j].0 == updateType.value
      && updateType.value != UpdateIdKey && forall k :: 0 <= k < j ==> fields[k].0 == UpdateIdKey)
    ensures updateType == UpdateType(fields)
  {
    updateType := None;
    var i := 0;
    while i < |fields|
      invariant 0 <= i <= |fields|
      invariant forall k :: 0 <= k < i ==> fields[k].0 == UpdateIdKey
    {
      if fields[i].0 != UpdateIdKey {
        updateType := Some(fields[i].0);
        break;
      }
      i := i + 1;
    }
  }

  /** `update[update_type]` reads the entry at the type's position: earlier keys are all `update_id`. */
  lemma PayloadLookup(fields: seq<(string, Value)>)
    requires UpdateType(fields).Some?
    ensures Get(fields, UpdateType(fields).value) == Some(fields[TypeIndex(fields)].1)
  {
    var t := UpdateType(fields).value;
    assert FindKey(fields, t) == TypeIndex(fields);
  }

  // ---------------------------------------------------------------------------
  // one update

  /** `update_id + 1`; a Python bool adds like 0 or 1, anything else that is not a number raises. */
  function AddOne(v: Value): Result<int, Error> {
    match v
    case Int(i) => Success(i + 1)
    case Bool(b) => Success(if b then 2 else 1)
    case _ => Failure(TypeError)
  }

  /** The bound update `u` puts under the offset: `update_id + 1` when the id is truthy and a number. */
  function Candidate(u: Value): Option<int> {
    if u.Object? then
      var id := GetOr(u.fields, UpdateIdKey, Null);
      if Truthy(id) && AddOne(id).Success? then Some(AddOne(id).value) else None
    else None
  }

  datatype StepResult = StepResult(offset: int, call: Option<Invocation>, error: Option<Error>)

  /** One iteration of the `process_updates` loop body. */
  function Step(handlers: map<string, Handler>, offset: int, update: Value, raises: Invocation -> bool): StepResult {
    if !update.Object? then StepResult(offset, None, Some(AttributeError))
    else
      var fields := update.fields;
      var id := GetOr(fields, UpdateIdKey, Null);
      if Truthy(id) && AddOne(id).Failure? then StepResult(offset, None, Some(AddOne(id).error))
      else
        var next := if Truthy(id) then Max(offset, AddOne(id).value) else offset;
        var t := UpdateType(fields);
        match Resolve(handlers, t)
        case None => StepResult(next, None, None)
        case Some(h) =>
          if t.None? then StepResult(next, None, Some(KeyError))
          else
            var call := Invocation(h, fields[TypeIndex(fields)].1, t.value);
            StepResult(next, Some(call), if raises(call) then Some(HandlerError) else None)
  }

  /** The offset after one update: raised to its candidate, or left alone when it has none. */
  lemma StepOffset(handlers: map<string, Handler>, offset: int, update: Value, raises: Invocation -> bool)
    ensures Step(handlers, offset, update, raises).offset
         == if Candidate(update).Some? then Max(offset, Candidate(update).value) else offset
  {
  }

  /** An update whose `update_id` is missing, None or 0 leaves the offset untouched. */
  lemma FalsyIdKeepsOffset(handlers: map<string, Handler>, offset: int, fields: seq<(string, Value)>, raises: Invocation -> bool)
    requires Get(fields, UpdateIdKey) in {None, Some(Null), Some(Int(0)), Some(Bool(false))}
    ensures Step(handlers, offset, Object(fields), raises).offset == offset
  {
  }

  // ---------------------------------------------------------------------------
  // a batch

  /**
   * The effect of `process_updates` on a batch: the final offset, the handler calls made in order,
   * the exception that ended the batch (if any), and how many updates were looked at.
   */
  datatype Outcome = Outcome(offset: int, calls: seq<Invocation>, error: Option<Error>, seen: nat)

  function CallsOf(call: Option<Invocation>): seq<Invocation> {
    match call
    case Some(c) => [c]
    case None => []
  }

  function Run(handlers: map<string, Handler>, offset: int, updates: seq<Value>, raises: Invocation -> bool): (r: Outcome)
    ensures r.seen <= |updates|
    ensures r.error.None? ==> r.seen == |updates|
    decreases |updates|, 1
  {
    if updates == [] then Outcome(offset, [], None, 0)
    else RunLast(handlers, offset, updates, raises)
  }

  /** The outcome once the last update has had its turn: unchanged if an earlier one raised. */
  function RunLast(handlers: map<string, Handler>, offset: int, updates: seq<Value>, raises: Invocation -> bool): (r: Outcome)
    requires updates != []
    ensures r.seen <= |updates|
    ensures r.error.None? ==> r.seen == |updates|
    decreases |updates|, 0
  {
    var prev := Run(handlers, offset, updates[..|updates| - 1], raises);
    if prev.error.Some? then prev
    else
      var s := Step(handlers, prev.offset, updates[|updates| - 1], raises);
      Outcome(s.offset, prev.calls + CallsOf(s.call), s.error, prev.seen + 1)
  }

  /** `process_updates(updates)`, including the iteration of whatever value it is given. */
  function ProcessBatch(handlers: map<string, Handler>, offset: int, updates: Value, raises: Invocation -> bool): Outcome {
    match Elements(updates)
    case Failure(e) => Outcome(offset, [], Some(e), 0)
    case Success(batch) => Run(handlers, offset, batch, raises)
  }

  /**
   * After a batch the offset is the maximum of its old value and `update_id + 1` over the updates
   * looked at: it is at least each of them, never below the old value, and equal to one of them.
   */
  lemma {:induction false} RunOffsetIsMaximum(handlers: map<string, Handler>, offset: int, updates: seq<Value>, raises: Invocation -> bool)
    ensures var r := Run(handlers, offset, updates, raises);
      && r.offset >= offset
      && (forall j :: 0 <= j < r.seen && Candidate(updates[j]).Some? ==> r.offset >= Candidate(updates[j]).value)
      && (r.offset == offset || exists j :: 0 <= j < r.seen && Candidate(updates[j]) == Some(r.offset))
  {
    if updates != [] {
      var init := updates[..|updates| - 1];
      RunOffsetIsMaximum(handlers, offset, init, raises);
      var prev := Run(handlers, offset, init, raises);
      assert forall j :: 0 <= j < |init| ==> init[j] == updates[j];
      if prev.error.None? {
        StepOffset(handlers, prev.offset, updates[|updates| - 1], raises);
      }
    }
  }

  /** The position in the batch of the update behind each handler call, in the order of the calls. */
  function CallOrigins(handlers: map<string, Handler>, offset: int, updates: seq<Value>, raises: Invocation -> bool): seq<nat>
    decreases |updates|
  {
    if updates == [] then []
    else
      var init := updates[..|updates| - 1];
      var prev := Run(handlers, offset, init, raises);
      if prev.error.Some? then CallOrigins(handlers, offset, init, raises)
      else
        var s := Step(handlers, prev.offset, updates[|updates| - 1], raises);
        CallOrigins(handlers, offset, init, raises) + (if s.call.Some? then [|updates| - 1] else [])
  }

  /**
   * Handler calls follow the batch: the `k`-th call comes from an update that was looked at, with
   * that update's type and payload and the handler resolved for the type, and the updates behind
   * successive calls are strictly later in the batch, so no update is handled twice.
   */
  lemma {:induction false} RunCallsInOrder(handlers: map<string, Handler>, offset: int, updates: seq<Value>, raises: Invocation -> bool)
    ensures var r := Run(handlers, offset, updates, raises);
      var o := CallOrigins(handlers, offset, updates, raises);
      && |o| == |r.calls|
      && (forall a, b :: 0 <= a < b < |o| ==> o[a] < o[b])
      && forall k :: 0 <= k < |o| ==>
           && o[k] < r.seen && updates[o[k]].Object?
           && UpdateType(updates[o[k]].fields) == Some(r.calls[k].updateType)
           && Get(updates[o[k]].fields, r.calls[k].updateType) == Some(r.calls[k].payload)
           && Resolve(handlers, Some(r.calls[k].updateType)) == Some(r.calls[k].handler)
  {
    if updates != [] {
      var init := updates[..|updates| - 1];
      RunCallsInOrder(handlers, offset, init, raises);
      var prev := Run(handlers, offset, init, raises);
      assert forall j :: 0 <= j < |init| ==> init[j] == updates[j];
      if prev.error.None? {
        var u := updates[|updates| - 1];
        var s := Step(handlers, prev.offset, u, raises);
        if s.call.Some? {
          assert u.Object?;
          PayloadLookup(u.fields);
        }
      }
    }
  }

  /**
   * The other direction: an update that was looked at, has a type, has a handler for it (or a
   * wildcard) and whose `update_id` did not raise, is handled, so some call comes from it.
   */
  lemma {:induction false} RunCallsComplete(handlers: map<string, Handler>, offset: int, updates: seq<Value>, j: nat, raises: Invocation -> bool)
    requires j < Run(handlers, offset, updates, raises).seen
    requires updates[j].Object? && UpdateType(updates[j].fields).Some?
    requires Resolve(handlers, UpdateType(updates[j].fields)).Some?
    requires AddOne(GetOr(updates[j].fields, UpdateIdKey, Null)).Success? || !Truthy(GetOr(updates[j].fields, UpdateIdKey, Null))
    ensures j in CallOrigins(handlers, offset, updates, raises)
    decreases |updates|
  {
    var init := updates[..|updates| - 1];
    var prev := Run(handlers, offset, init, raises);
    if j < |init| {
      assert init[j] == updates[j];
      RunCallsComplete(handlers, offset, init, j, raises);
    }
  }

  /** Processing `a + b` is processing `a`, then (unless `a` raised) `b` from the offset `a` reached. */
  lemma {:induction false} RunAppend(handlers: map<string, Handler>, offset: int, a: seq<Value>, b: seq<Value>, raises: Invocation -> bool)
    ensures var ra := Run(handlers, offset, a, raises);
      var rb := Run(handlers, ra.offset, b, raises);
      Run(handlers, offset, a + b, raises)
        == if ra.error.Some? then ra else Outcome(rb.offset, ra.calls + rb.calls, rb.error, ra.seen + rb.seen)
    decreases |b|
  {
    if b == [] {
      assert a + b == a;
    } else {
      InitOfAppend(a, b);
      RunAppend(handlers, offset, a, b[..|b| - 1], raises);
    }
  }

  /** Dropping the last element of `a + b`, for a non-empty `b`, drops the last element of `b`. */
  lemma InitOfAppend(a: seq<Value>, b: seq<Value>)
    requires b != []
    ensures (a + b)[..|a + b| - 1] == a + b[..|b| - 1]
    ensures (a + b)[|a + b| - 1] == b[|b| - 1]
  {
    assert (a + b)[..|a + b| - 1] == a + b[..|b| - 1];
  }

  /** Once a prefix of a batch raised, the rest of the batch is never looked at. */
  lemma {:induction false} RunPrefixError(handlers: map<string, Handler>, offset: int, updates: seq<Value>, i: nat, raises: Invocation -> bool)
    requires i <= |updates|
    ensures Run(handlers, offset, updates[..i], raises).error.Some? ==>
      Run(handlers, offset, updates, raises) == Run(handlers, offset, updates[..i], raises)
    decreases |updates|
  {
    if i < |updates| {
      var init := updates[..|updates| - 1];
      assert init[..i] == updates[..i];
      RunPrefixError(handlers, offset, init, i, raises);
    } else {
      assert updates[..i] == updates;
    }
  }

  // ---------------------------------------------------------------------------
  // single updates

  /** A message update goes once to the "message" handler, with its payload and type. */
  lemma DispatchToTypeHandler(handlers: map<string, Handler>, offset: int, id: int, payload: Value, raises: Invocation -> bool)
    requires "message" in handlers && id > 0
    ensures var call := Invocation(handlers["message"], payload, "message");
      Run(handlers, offset, [Object([("update_id", Int(id)), ("message", payload)])], raises)
        == Outcome(Max(offset, id + 1), [call], if raises(call) then Some(HandlerError) else None, 1)
  {
    var fields := [("update_id", Int(id)), ("message", payload)];
    assert TypeIndex(fields) == 1;
    assert [Object(fields)][..0] == [];
    assert Run(handlers, offset, [], raises) == Outcome(offset, [], None, 0);
  }

  /** A callback query with no handler of its own goes to the wildcard handler. */
  lemma DispatchToWildcard(handlers: map<string, Handler>, offset: int, id: int, payload: Value, raises: Invocation -> bool)
    requires "callback_query" !in handlers && Wildcard in handlers && id > 0
    ensures var call := Invocation(handlers[Wildcard], payload, "callback_query");
      Run(handlers, offset, [Object([("update_id", Int(id)), ("callback_query", payload)])], raises)
        == Outcome(Max(offset, id + 1), [call], if raises(call) then Some(HandlerError) else None, 1)
  {
    var fields := [("update_id", Int(id)), ("callback_query", payload)];
    assert TypeIndex(fields) == 1;
    assert [Object(fields)][..0] == [];
    assert Run(handlers, offset, [], raises) == Outcome(offset, [], None, 0);
  }

  /** With neither a matching nor a wildcard handler the update is dropped, after the offset moves. */
  lemma DispatchToNobody(handlers: map<string, Handler>, offset: int, id: int, kind: string, payload: Value, raises: Invocation -> bool)
    requires kind != UpdateIdKey && kind !in handlers && Wildcard !in handlers && id > 0
    ensures Run(handlers, offset, [Object([("update_id", Int(id)), (kind, payload)])], raises)
         == Outcome(Max(offset, id + 1), [], None, 1)
  {
    var fields := [("update_id", Int(id)), (kind, payload)];
    assert TypeIndex(fields) == 1;
    assert [Object(fields)][..0] == [];
    assert Run(handlers, offset, [], raises) == Outcome(offset, [], None, 0);
  }

  /** An update with no type key and a wildcard handler fails on `update[None]`, after the offset moves. */
  lemma TypelessUpdateRaises(handlers: map<string, Handler>, offset: int, id: int, raises: Invocation -> bool)
    requires Wildcard in handlers && id > 0
    ensures Run(handlers, offset, [Object([("update_id", Int(id))])], raises)
         == Outcome(Max(offset, id + 1), [], Some(KeyError), 1)
  {
    var fields := [("update_id", Int(id))];
    assert TypeIndex(fields) == 1;
    assert [Object(fields)][..0] == [];
    assert Run(handlers, offset, [], raises) == Outcome(offset, [], None, 0);
  }
}
