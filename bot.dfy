/**
 * `TelegramBot`: the object whose methods update its handler registry, offset,
 * session and running flag in place.
 *
 * The HTTP session is reduced to whether one is open. The network is a
 * parameter: each method that posts receives the `Reply` its POST gets. Three
 * ghost logs record what the bot did to the outside world: the handler calls
 * it awaited, the requests it posted, and the opening and closing of upload
 * files around each POST.
 */
module Bot {
  import opened Wrappers
  import opened Values
  import opened Errors
  import opened Form
  import opened FileLifetime
  import opened Registry
  import opened Dispatch
  import opened Polling

  const ApiBase: string := "https://api.telegram.org/bot"

  predicate Distinct(keys: seq<string>) {
    forall i, j :: 0 <= i < j < |keys| ==> keys[i] != keys[j]
  }

  /** The file events of `n` polling cycles: each posts `getUpdates` with no file to open. */
  function PollEvents(n: nat): (r: seq<Event>)
    ensures |r| == n && forall k :: 0 <= k < n ==> r[k] == Posted
  {
    seq(n, _ => Posted)
  }

  /** One more cycle appends its POST to the event log. */
  lemma PollEventsNext(events0: seq<Event>, n: nat)
    ensures (events0 + PollEvents(n)) + [Posted] == events0 + PollEvents(n + 1)
  {
  }

  class TelegramBot {
    const token: string
    const apiUrl: string
    /** The keys of `self.handlers` in insertion order. */
    var handlerKeys: seq<string>
    var handlers: map<string, Handler>
    var offset: int
    /** Whether `self.session` holds an open client session. */
    var session: bool
    var running: bool

    ghost var invocations: seq<Invocation>
    ghost var posted: seq<Request>
    ghost var events: seq<Event>

    ghost predicate Valid()
      reads this`handlerKeys, this`handlers
    {
      && apiUrl == ApiBase + token
      && Distinct(handlerKeys)
      && (forall k :: k in handlerKeys <==> k in handlers)
    }

    constructor (token: string)
      ensures Valid()
      ensures this.token == token && apiUrl == ApiBase + token
      ensures handlerKeys == [] && handlers == map[] && offset == 0
      ensures !session && !running
      ensures invocations == [] && posted == [] && events == []
    {
      this.token := token;
      apiUrl := ApiBase + token;
      handlerKeys, handlers := [], map[];
      offset := 0;
      session, running := false, false;
      invocations, posted, events := [], [], [];
    }

    /**
     * `handler(update_type)(func)`: store `func` under `update_type or '*'`, replacing any
     * handler already there, and give `func` back.
     */
    method RegisterHandler(updateType: Option<string>, func: Handler) returns (registered: Handler)
      requires Valid()
      modifies this`handlerKeys, this`handlers
      ensures Valid()
      ensures registered == func
      ensures handlers == old(handlers)[KeyFor(updateType) := func]
      ensures handlerKeys == if KeyFor(updateType) in old(handlers) then old(handlerKeys) else old(handlerKeys) + [KeyFor(updateType)]
    {
      var key := KeyFor(updateType);
      if key !in handlers {
        handlerKeys := handlerKeys + [key];
      }
      handlers := handlers[key := func];
      registered := func;
    }

    /**
     * `list(self.handlers.keys()) if '*' not in self.handlers else None`: every registered type, each
     * once and in registration order, or no filter at all once a wildcard handler exists.
     */
    function AllowedUpdates(): (allowed: Option<seq<string>>)
      reads this`handlerKeys, this`handlers
      requires Valid()
      ensures allowed.None? <==> Wildcard in handlers
      ensures allowed.Some? ==> Distinct(allowed.value) && forall k :: k in allowed.value <==> k in handlers
    {
      if Wildcard in handlers then None else Some(handlerKeys)
    }

    /** What `start_polling` works with: the `getUpdates` URL, the handlers and the filter. */
    ghost function PollContext(): Context
      reads this`handlerKeys, this`handlers
      requires Valid()
    {
      Context(apiUrl + "/getUpdates", handlers, AllowedUpdates())
    }

    /**
     * `await self(method, data, files)`: open a session if there is none, build the form (data
     * fields, then file fields), POST it, and unwrap the reply. A local file that cannot be opened
     * raises before anything is posted. Each local file is opened and closed again while its field
     * is added, so the POST comes after every close (see `FileLifetime`).
     */
    method Call(name: string, data: seq<(string, Value)>, files: seq<(string, FileSource)>, readable: set<string>, reply: Reply)
      returns (r: Result<Value, Error>)
      requires Valid()
      modifies this`session, this`posted, this`events
      ensures session
      ensures events == old(events) + AsWrittenTrace(files, readable)
      ensures match EncodeFiles(files, readable)
        case Failure(e) => r == Failure(e) && posted == old(posted)
        case Success(fileFields) =>
          && posted == old(posted) + [Request(apiUrl + "/" + name, EncodeData(data) + fileFields)]
          && r == Respond(reply)
    {
      if !session {
        session := true;
      }
      var url := apiUrl + "/" + name;
      var dataFields := BuildDataFields(data);
      var fileFields := BuildFileFields(files, readable);
      events := events + AsWrittenTrace(files, readable);
      if fileFields.Failure? {
        return Failure(fileFields.error);
      }
      posted := posted + [Request(url, dataFields + fileFields.value)];
      r := Respond(reply);
    }

    /**
     * `await self.get_updates(timeout)`: post the current offset, the timeout and the filter, and
     * return the envelope's `result` (or `[]`).
     */
    method GetUpdates(timeout: int, reply: Reply) returns (r: Result<Value, Error>)
      requires Valid()
      modifies this`session, this`posted, this`events
      ensures session
      ensures posted == old(posted)
        + [Request(apiUrl + "/getUpdates", EncodeData(UpdateParams(offset, timeout, AllowedUpdates())))]
      ensures events == old(events) + [Posted]
      ensures r == UpdatesFrom(reply)
    {
      var params := UpdateParams(offset, timeout, AllowedUpdates());
      assert apiUrl + "/" + "getUpdates" == apiUrl + "/getUpdates";
      var envelope := Call("getUpdates", params, [], {}, reply);
      assert AsWrittenTrace([], {}) == [Posted];
      assert EncodeFiles([], {}) == Success([]);
      assert EncodeData(params) + [] == EncodeData(params);
      match envelope {
        case Failure(e) =>
          r := Failure(e);
        case Success(body) =>
          r := Success(ResultOrEmpty(body));
      }
    }

    /**
     * `await self.process_updates(updates)`: walk the batch in order, raising the offset and
     * awaiting handlers; the first exception ends the walk and is returned.
     */
    method ProcessUpdates(updates: Value, raises: Invocation -> bool) returns (error: Option<Error>)
      requires Valid()
      modifies this`offset, this`invocations
      ensures var r := ProcessBatch(handlers, old(offset), updates, raises);
        offset == r.offset && invocations == old(invocations) + r.calls && error == r.error
    {
      var batch: seq<Value>;
      match Elements(updates) {
        case Failure(e) =>
          return Some(e);
        case Success(items) =>
          batch := items;
      }
      ghost var offset0, calls0 := offset, invocations;
      error := None;
      var i := 0;
      while i < |batch|
        invariant 0 <= i <= |batch|
        invariant Processed(offset0, batch, i, raises, calls0)
        invariant error == None
      {
        error := ProcessNext(updates, batch, i, raises, offset0, calls0);
        if error.Some? {
          return;
        }
        i := i + 1;
      }
      assert batch[..i] == batch;
    }

    /** The state the `process_updates` loop reaches after the first `i` updates, none of which raised. */
    ghost predicate Processed(offset0: int, batch: seq<Value>, i: nat, raises: Invocation -> bool, calls0: seq<Invocation>)
      reads this`handlers, this`offset, this`invocations
    {
      && i <= |batch|
      && var r := Run(handlers, offset0, batch[..i], raises);
      && r.error == None && offset == r.offset && invocations == calls0 + r.calls
    }

    /** One pass of the `process_updates` loop, from the state reached after the first `i` updates. */
    method ProcessNext(ghost updates: Value, batch: seq<Value>, i: nat, raises: Invocation -> bool, ghost offset0: int, ghost calls0: seq<Invocation>)
      returns (error: Option<Error>)
      requires Valid() && Elements(updates) == Success(batch) && i < |batch|
      requires Processed(offset0, batch, i, raises, calls0)
      modifies this`offset, this`invocations
      ensures error.None? ==> Processed(offset0, batch, i + 1, raises, calls0)
      ensures error.Some? ==> var r := ProcessBatch(handlers, offset0, updates, raises);
        offset == r.offset && invocations == calls0 + r.calls && error == r.error
    {
      assert batch[..i + 1][..i] == batch[..i];
      error := ProcessOne(batch[i], raises);
      ghost var after := Run(handlers, offset0, batch[..i + 1], raises);
      assert after == RunLast(handlers, offset0, batch[..i + 1], raises);
      if error.Some? {
        RunPrefixError(handlers, offset0, batch, i + 1, raises);
        assert ProcessBatch(handlers, offset0, updates, raises) == Run(handlers, offset0, batch, raises);
      }
    }

    /** The loop body of `process_updates` for one update. */
    method ProcessOne(update: Value, raises: Invocation -> bool) returns (error: Option<Error>)
      requires Valid()
      modifies this`offset, this`invocations
      ensures var s := Step(handlers, old(offset), update, raises);
        offset == s.offset && invocations == old(invocations) + CallsOf(s.call) && error == s.error
    {
      if !update.Object? {
        return Some(AttributeError);
      }
      var fields := update.fields;
      var updateId := GetOr(fields, UpdateIdKey, Null);
      if Truthy(updateId) {
        match AddOne(updateId) {
          case Failure(e) =>
            return Some(e);
          case Success(next) =>
            offset := Max(offset, next);
        }
      }
      var updateType := ClassifyUpdate(fields);
      var handler := Resolve(handlers, updateType);
      error := None;
      if handler.Some? {
        if updateType.None? {
          return Some(KeyError);
        }
        PayloadLookup(fields);
        var payload := Get(fields, updateType.value).value;
        var call := Invocation(handler.value, payload, updateType.value);
        invocations := invocations + [call];
        if raises(call) {
          error := Some(HandlerError);
        }
      }
    }

    /** `stop_polling`: clear the flag the loop tests; nothing else changes, so a second call is harmless. */
    method StopPolling()
      modifies this`running
      ensures !running
    {
      running := false;
    }

    /**
     * One pass of the `while self._running` body: poll; process a truthy batch; swallow any other
     * exception (the five-second wait is not modelled); a stop request made meanwhile clears the
     * flag, also when the poll was cancelled.
     * Reports whether the poll was cancelled, which breaks out of the loop.
     */
    method PollOnce(cycle: Cycle, raises: Invocation -> bool) returns (cancelled: bool)
      requires Valid()
      modifies this`session, this`posted, this`events, this`offset, this`invocations, this`running
      ensures var c := RunCycle(old(PollContext()), old(offset), cycle, raises);
        && offset == c.offset
        && invocations == old(invocations) + c.calls
        && posted == old(posted) + [c.request]
        && events == old(events) + [Posted]
        && cancelled == (c.exit == Some(CancelledExit))
        && running == (old(running) && !cycle.stopRequested)
    {
      UpdateParamsFields(offset, DefaultTimeout, AllowedUpdates());
      var updates := GetUpdates(DefaultTimeout, cycle.reply);
      if cycle.reply.Cancellation? {
        if cycle.stopRequested {
          StopPolling();
        }
        return true;
      }
      cancelled := false;
      if updates.Success? && Truthy(updates.value) {
        var error := ProcessUpdates(updates.value, raises);
      }
      if cycle.stopRequested {
        StopPolling();
      }
    }

    /**
     * The bot's state after the cycles summarised by `p`, from the given starting logs: the flag is
     * cleared exactly when `stop_polling` was called during one of those cycles.
     */
    ghost predicate Tracks(p: PollOutcome, calls0: seq<Invocation>, posted0: seq<Request>, events0: seq<Event>)
      reads this`offset, this`invocations, this`posted, this`events, this`running
    {
      && offset == p.offset
      && invocations == calls0 + p.calls
      && posted == posted0 + p.requests
      && events == events0 + PollEvents(p.cycles)
      && running == !p.flagCleared
    }

    /**
     * The loop, still running, has reached the state after the first `i` cycles of `script`, from
     * the offset and logs it started with.
     */
    ghost predicate Reached(ctx: Context, offset0: int, script: seq<Cycle>, i: nat, raises: Invocation -> bool,
                            calls0: seq<Invocation>, posted0: seq<Request>, events0: seq<Event>)
      reads this`offset, this`invocations, this`posted, this`events, this`running
    {
      && i <= |script|
      && var p := PollUpTo(ctx, offset0, script, i, raises);
      && Tracks(p, calls0, posted0, events0)
      && (p.exit.Some? ==> p.exit == Some(Stopped) && p.flagCleared)
    }

    /** One pass of the loop body, from the state reached after the first `i` cycles. */
    method PollStep(script: seq<Cycle>, i: nat, raises: Invocation -> bool, ghost ctx: Context, ghost offset0: int,
                    ghost calls0: seq<Invocation>, ghost posted0: seq<Request>, ghost events0: seq<Event>)
      returns (cancelled: bool)
      requires Valid() && ctx == PollContext() && i < |script| && running
      requires Reached(ctx, offset0, script, i, raises, calls0, posted0, events0)
      modifies this`session, this`posted, this`events, this`offset, this`invocations, this`running
      ensures !cancelled ==> Reached(ctx, offset0, script, i + 1, raises, calls0, posted0, events0)
      ensures cancelled || !running ==> var p := Poll(ctx, offset0, script, raises);
        Tracks(p, calls0, posted0, events0) && p.exit == Some(if cancelled then CancelledExit else Stopped)
    {
      PollEventsNext(events0, PollUpTo(ctx, offset0, script, i, raises).cycles);
      cancelled := PollOnce(script[i], raises);
      PollPrefixExit(ctx, offset0, script, i + 1, |script|, raises);
    }

    /**
     * The `while self._running` loop: runs cycles until the flag is cleared, a poll is cancelled
     * or the script is exhausted.
     */
    method PollLoop(script: seq<Cycle>, raises: Invocation -> bool, ghost ctx: Context, ghost offset0: int,
                    ghost calls0: seq<Invocation>, ghost posted0: seq<Request>, ghost events0: seq<Event>)
      returns (exit: Option<Exit>)
      requires Valid() && ctx == PollContext() && running
      requires Reached(ctx, offset0, script, 0, raises, calls0, posted0, events0)
      modifies this`session, this`posted, this`events, this`offset, this`invocations, this`running
      ensures var p := Poll(ctx, offset0, script, raises);
        Tracks(p, calls0, posted0, events0) && exit == p.exit
    {
      var i := 0;
      while running && i < |script|
        invariant 0 <= i <= |script| && running
        invariant Reached(ctx, offset0, script, i, raises, calls0, posted0, events0)
      {
        var cancelled := PollStep(script, i, raises, ctx, offset0, calls0, posted0, events0);
        if cancelled {
          return Some(CancelledExit);
        } else if !running {
          return Some(Stopped);
        }
        i := i + 1;
      }
      exit := None;
    }

    /**
     * `await self.start_polling()`: open a session, set the flag and run cycles while it is set,
     * retrying after every failed cycle; a cancelled poll breaks out at once. The flag ends up
     * cleared exactly when `stop_polling` was called during a cycle that ran.
     * On every exit the session is closed and cleared.
     */
    method StartPolling(script: seq<Cycle>, raises: Invocation -> bool) returns (exit: Option<Exit>)
      requires Valid()
      modifies this`session, this`posted, this`events, this`offset, this`invocations, this`running
      ensures Valid()
      ensures handlers == old(handlers) && handlerKeys == old(handlerKeys)
      ensures !session
      ensures var p := Poll(old(PollContext()), old(offset), script, raises);
        && offset == p.offset
        && invocations == old(invocations) + p.calls
        && posted == old(posted) + p.requests
        && events == old(events) + PollEvents(p.cycles)
        && exit == p.exit
        && running == !p.flagCleared
    {
      if !session {
        session := true;
      }
      running := true;
      exit := PollLoop(script, raises, PollContext(), offset, invocations, posted, events);
      session := false;
    }
  }

}
