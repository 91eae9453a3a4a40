/**
 * The handler registry's pure parts: which key the `handler` decorator writes,
 * and which handler `process_updates` picks for an update type
 * (`self.handlers.get(update_type, self.handlers.get('*'))`).
 */
module Registry {
  import opened Wrappers

  /** A registered coroutine function, known by its identity. */
  datatype Handler = Handler(name: string)

  const Wildcard: string := "*"

  /** `update_type or '*'`: a missing or empty update type registers the catch-all handler. */
  function KeyFor(updateType: Option<string>): (key: string)
    ensures key == Wildcard <==> updateType == None || updateType == Some("") || updateType == Some(Wildcard)
    ensures key != Wildcard ==> updateType == Some(key)
  {
    match updateType
    case Some(t) => if t != "" then t else Wildcard
    case None => Wildcard
  }

  /** The handler `process_updates` calls for an update of type `updateType`, if any. */
  function Resolve(handlers: map<string, Handler>, updateType: Option<string>): (h: Option<Handler>)
    ensures h.None? <==> (updateType.None? || updateType.value !in handlers) && Wildcard !in handlers
    ensures h.Some? ==> h.value in handlers.Values
    ensures updateType.Some? && updateType.value in handlers ==> h == Some(handlers[updateType.value])
    ensures (updateType.None? || updateType.value !in handlers) && Wildcard in handlers ==> h == Some(handlers[Wildcard])
  {
    if updateType.Some? && updateType.value in handlers then Some(handlers[updateType.value])
    else if Wildcard in handlers then Some(handlers[Wildcard])
    else None
  }

  /**
   * After registering `f` under `key`, updates of that type go to `f` (the replaced handler is
   * never picked for them again), and every other type resolves as before unless it was falling
   * back to a newly registered wildcard.
   */
  lemma RegisterThenResolve(handlers: map<string, Handler>, key: string, f: Handler, updateType: Option<string>)
    ensures updateType == Some(key) ==> Resolve(handlers[key := f], updateType) == Some(f)
    ensures key != Wildcard && updateType != Some(key) ==>
      Resolve(handlers[key := f], updateType) == Resolve(handlers, updateType)
    ensures key == Wildcard && updateType != Some(key) && updateType.Some? && updateType.value in handlers ==>
      Resolve(handlers[key := f], updateType) == Some(handlers[updateType.value])
    ensures key == Wildcard && (updateType.None? || updateType.value !in handlers) ==>
      Resolve(handlers[key := f], updateType) == Some(f)
  {
  }
}
