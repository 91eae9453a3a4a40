/**
 * The long-polling side of the bot as values: the `getUpdates` parameters,
 * what one cycle of the `start_polling` loop does, and the effect of a run of
 * cycles. The network is replaced by a script of cycles, each giving the reply
 * to that cycle's `getUpdates` POST and whether `stop_polling` was called
 * during the cycle.
 */
module Polling {
  import opened Wrappers
  import opened Values
  import opened Errors
  import opened Form
  import opened Registry
  import opened Dispatch

  /** The default `timeout` of `get_updates`, in seconds. */
  const DefaultTimeout: int := 30

  datatype Cycle = Cycle(reply: Reply, stopRequested: bool)

  /** Why the loop ended: `stop_polling` cleared the flag, or the long poll was cancelled. */
  datatype Exit = Stopped | CancelledExit

  /** What the loop reads from the bot: the `getUpdates` URL, the handlers and the `allowed_updates` filter. */
  datatype Context = Context(url: string, handlers: map<string, Handler>, allowed: Option<seq<string>>)

  function Strings(keys: seq<string>): seq<Value> {
    seq(|keys|, k requires 0 <= k < |keys| => Str(keys[k]))
  }

  /** The `params` dictionary that `get_updates` sends. */
  function UpdateParams(offset: int, timeout: int, allowed: Option<seq<string>>): seq<(string, Value)> {
    [ ("offset", Int(offset)),
      ("timeout", Int(timeout)),
      ("allowed_updates", if allowed.Some? then List(Strings(allowed.value)) else Null) ]
  }

  /**
   * The `getUpdates` form: the offset and timeout are passed through as their decimal text, and
   * `allowed_updates` is sent as a JSON list, or left out of the request when it is None.
   */
  lemma UpdateParamsFields(offset: int, timeout: int, allowed: Option<seq<string>>)
    ensures EncodeData(UpdateParams(offset, timeout, allowed))
         == [Field("offset", Text(Decimal(offset)), None), Field("timeout", Text(Decimal(timeout)), None)]
            + (if allowed.Some? then [Field("allowed_updates", JsonText(List(Strings(allowed.value))), None)] else [])
  {
    var params := UpdateParams(offset, timeout, allowed);
    EncodeDataAppend(params[..2], params[2..]);
    EncodeDataAppend(params[..1], params[1..2]);
    assert params[..2] == params[..1] + params[1..2];
    assert params == params[..2] + params[2..];
    assert params[..1][..0] == [] && params[1..2][..0] == [] && params[2..][..0] == [];
  }

  /** What `get_updates` returns or raises for a reply: the envelope's `result`, defaulting to `[]`. */
  function UpdatesFrom(reply: Reply): Result<Value, Error> {
    match Respond(reply)
    case Failure(e) => Failure(e)
    case Success(envelope) => Success(ResultOrEmpty(envelope))
  }

  /** An error envelope surfaces as the API error it describes; a success envelope yields its `result`. */
  lemma UpdatesFromEnvelope(description: string, result: Value)
    ensures UpdatesFrom(Received(Object([("ok", Bool(false)), ("description", Str(description))])))
         == Failure(ApiError(Str(description)))
    ensures UpdatesFrom(Received(Object([("ok", Bool(true)), ("result", result)]))) == Success(result)
    ensures UpdatesFrom(Received(Object([("ok", Bool(true))]))) == Success(List([]))
  {
    EnvelopeExamples(description, result);
  }

  datatype CycleResult = CycleResult(offset: int, calls: seq<Invocation>, request: Request, exit: Option<Exit>)

  function StopIf(cycle: Cycle): Option<Exit> {
    if cycle.stopRequested then Some(Stopped) else None
  }

  /**
   * One pass of the `while self._running` body: poll, process a truthy batch, and on any other
   * exception wait and go round again. Only a cancelled poll breaks out of the loop at once.
   */
  function RunCycle(ctx: Context, offset: int, cycle: Cycle, raises: Invocation -> bool): CycleResult {
    var request := Request(ctx.url, EncodeData(UpdateParams(offset, DefaultTimeout, ctx.allowed)));
    if cycle.reply.Cancellation? then CycleResult(offset, [], request, Some(CancelledExit))
    else
      match UpdatesFrom(cycle.reply)
      case Failure(_) => CycleResult(offset, [], request, StopIf(cycle))
      case Success(updates) =>
        if Truthy(updates) then
          var r := ProcessBatch(ctx.handlers, offset, updates, raises);
          CycleResult(r.offset, r.calls, request, StopIf(cycle))
        else CycleResult(offset, [], request, StopIf(cycle))
  }

  /**
   * The effect of the loop over a script: state reached, calls and requests made, cycles run,
   * whether `stop_polling` cleared the flag during one of them, and the exit.
   */
  datatype PollOutcome = PollOutcome(offset: int, calls: seq<Invocation>, requests: seq<Request>, cycles: nat,
                                     flagCleared: bool, exit: Option<Exit>)

  /** The outcome after one more cycle, run from the outcome `prev` of the cycles before it. */
  function Next(ctx: Context, prev: PollOutcome, cycle: Cycle, raises: Invocation -> bool): PollOutcome {
    var c := RunCycle(ctx, prev.offset, cycle, raises);
    PollOutcome(c.offset, prev.calls + c.calls, prev.requests + [c.request], prev.cycles + 1,
                prev.flagCleared || cycle.stopRequested, c.exit)
  }

  /** The outcome of the loop over the first `n` cycles of the script. */
  function PollUpTo(ctx: Context, offset: int, script: seq<Cycle>, n: nat, raises: Invocation -> bool): (p: PollOutcome)
    requires n <= |script|
    ensures p.cycles <= n
    decreases n, 0
  {
    if n == 0 then PollOutcome(offset, [], [], 0, false, None)
    else AfterCycle(ctx, offset, script, n - 1, raises)
  }

  /** The outcome once cycle `j` has had its turn: unchanged if the loop had already ended. */
  function AfterCycle(ctx: Context, offset: int, script: seq<Cycle>, j: nat, raises: Invocation -> bool): (p: PollOutcome)
    requires j < |script|
    ensures p.cycles <= j + 1
    decreases j, 1
  {
    var prev := PollUpTo(ctx, offset, script, j, raises);
    if prev.exit.Some? then prev else Next(ctx, prev, script[j], raises)
  }

  /** The outcome of the loop over the whole script. */
  function Poll(ctx: Context, offset: int, script: seq<Cycle>, raises: Invocation -> bool): (p: PollOutcome)
    ensures p.cycles <= |script|
  {
    PollUpTo(ctx, offset, script, |script|, raises)
  }

  /** Once the loop has ended within the first `i` cycles, the later cycles are never run. */
  lemma {:induction false} PollPrefixExit(ctx: Context, offset: int, script: seq<Cycle>, i: nat, n: nat, raises: Invocation -> bool)
    requires i <= n <= |script|
    ensures PollUpTo(ctx, offset, script, i, raises).exit.Some? ==>
      PollUpTo(ctx, offset, script, n, raises) == PollUpTo(ctx, offset, script, i, raises)
    decreases n
  {
    if i < n {
      PollPrefixExit(ctx, offset, script, i, n - 1, raises);
    }
  }

  predicate Ends(cycle: Cycle) {
    cycle.reply.Cancellation? || cycle.stopRequested
  }

  /** Position of the first cycle that cancels or stops the loop, or `|script|` when none does. */
  function StopIndex(script: seq<Cycle>): (k: nat)
    ensures k <= |script|
    ensures forall j :: 0 <= j < k ==> !Ends(script[j])
    ensures k < |script| ==> Ends(script[k])
  {
    if script == [] then 0
    else if Ends(script[0]) then 0
    else 1 + StopIndex(script[1..])
  }

  /**
   * The loop ends only by a stop request or a cancelled poll: failed polls, error envelopes and
   * raising handlers are all retried. Over the first `n` cycles it runs up to and including the
   * first ending cycle, sends one `getUpdates` request per cycle, and reports which of the two
   * ended it; the flag is cleared exactly when that cycle requested a stop, even if its poll was
   * cancelled.
   */
  lemma {:induction false} PollUpToUntilStop(ctx: Context, offset: int, script: seq<Cycle>, n: nat, raises: Invocation -> bool)
    requires n <= |script|
    ensures var p := PollUpTo(ctx, offset, script, n, raises);
      var k := StopIndex(script);
      && |p.requests| == p.cycles
      && (forall r :: r in p.requests ==> r.url == ctx.url)
      && (k < n ==>
            && p.cycles == k + 1
            && p.exit == Some(if script[k].reply.Cancellation? then CancelledExit else Stopped)
            && p.flagCleared == script[k].stopRequested)
      && (k >= n ==> p.cycles == n && p.exit == None && !p.flagCleared)
  {
    if n > 0 {
      PollUpToUntilStop(ctx, offset, script, n - 1, raises);
    }
  }

  /** The loop over the whole script ends exactly at its first stopping or cancelled cycle. */
  lemma PollRunsUntilStop(ctx: Context, offset: int, script: seq<Cycle>, raises: Invocation -> bool)
    ensures var p := Poll(ctx, offset, script, raises);
      var k := StopIndex(script);
      && |p.requests| == p.cycles
      && (forall r :: r in p.requests ==> r.url == ctx.url)
      && (k < |script| ==>
            && p.cycles == k + 1
            && p.exit == Some(if script[k].reply.Cancellation? then CancelledExit else Stopped)
            && p.flagCleared == script[k].stopRequested)
      && (k == |script| ==> p.cycles == |script| && p.exit == None && !p.flagCleared)
  {
    PollUpToUntilStop(ctx, offset, script, |script|, raises);
  }

  /** Across cycles the offset never decreases: it is no lower after `n` cycles than after any `i <= n`. */
  lemma {:induction false} PollOffsetMonotone(ctx: Context, offset: int, script: seq<Cycle>, i: nat, n: nat, raises: Invocation -> bool)
    requires i <= n <= |script|
    ensures offset <= PollUpTo(ctx, offset, script, i, raises).offset <= PollUpTo(ctx, offset, script, n, raises).offset
    decreases n
  {
    if n > 0 {
      PollOffsetMonotone(ctx, offset, script, if i < n then i else n - 1, n - 1, raises);
      var prev := PollUpTo(ctx, offset, script, n - 1, raises);
      if prev.exit.None? {
        var cycle := script[n - 1];
        if !cycle.reply.Cancellation? && UpdatesFrom(cycle.reply).Success? {
          var updates := UpdatesFrom(cycle.reply).value;
          if Truthy(updates) && Elements(updates).Success? {
            RunOffsetIsMaximum(ctx.handlers, prev.offset, Elements(updates).value, raises);
          }
        }
      }
    }
  }

  /** While polling, every handler call goes to the handler registered for its type, else the wildcard. */
  lemma {:induction false} PollCallsResolve(ctx: Context, offset: int, script: seq<Cycle>, n: nat, raises: Invocation -> bool)
    requires n <= |script|
    ensures forall c :: c in PollUpTo(ctx, offset, script, n, raises).calls ==>
      Resolve(ctx.handlers, Some(c.updateType)) == Some(c.handler)
  {
    if n > 0 {
      PollCallsResolve(ctx, offset, script, n - 1, raises);
      var prev := PollUpTo(ctx, offset, script, n - 1, raises);
      if prev.exit.None? {
        var cycle := script[n - 1];
        if !cycle.reply.Cancellation? && UpdatesFrom(cycle.reply).Success? {
          var updates := UpdatesFrom(cycle.reply).value;
          if Truthy(updates) && Elements(updates).Success? {
            RunCallsInOrder(ctx.handlers, prev.offset, Elements(updates).value, raises);
          }
        }
      }
    }
  }
}
