# TeleFlow `TelegramBot`, modelled in Dafny

TeleFlow is a small asynchronous client for the Telegram Bot API. Its one
class, `TelegramBot`, keeps a registry of update handlers, the long-polling
`offset`, an HTTP session and a `_running` flag. This project models that class
and proves what its methods do:

- `__init__` builds the API URL from the token and starts with no handlers,
  offset 0, no session and the flag cleared.
- `handler(update_type)` stores a coroutine under the type, or under `'*'`
  when the type is missing or empty.
- `__call__` turns the `data` dictionary and the `files` dictionary into
  form fields, posts them, and unwraps the JSON envelope. A falsy
  `ok` raises `TelegramAPIError`, modelled as `Errors.ApiError`.
- `get_updates` sends `offset`, `timeout` and the `allowed_updates` filter,
  then returns the envelope's `result`, which defaults to `[]`.
- `process_updates` walks a batch. For each update it raises the offset past a
  truthy `update_id`, classifies the update by its first key other than
  `update_id`, and awaits the handler for that type, falling back to the
  wildcard handler.
- `start_polling` and `stop_polling` drive the `while self._running` loop and
  close the session on exit.

Layout, one module per file:

| file | module | contents |
|---|---|---|
| `wrappers.dfy` | `Wrappers` | `Option` and `Result` |
| `values.dfy` | `Values` | JSON values; Python truthiness; `dict.get`; `str()`/`int()` on integers |
| `errors.dfy` | `Errors` | the exceptions that can escape the core |
| `form.dfy` | `Form` | form fields; upload filenames; the reply envelope |
| `registry.dfy` | `Registry` | the handler key; handler lookup |
| `dispatch.dfy` | `Dispatch` | one update, and one batch, as `process_updates` treats them |
| `polling.dfy` | `Polling` | the `getUpdates` parameters; one polling cycle; a run of cycles |
| `filelife.dfy` | `FileLifetime` | when upload files are open relative to the POST |
| `bot.dfy` | `Bot` | `class TelegramBot`, whose methods update its fields in place |

Python dicts are ordered lists of key/value pairs. This gives meaning to "the
first key in iteration order", and `dict.get` returns the first entry with the
key. The class keeps the handler keys in insertion order (`handlerKeys`) next
to the `handlers` map, because `list(self.handlers.keys())` is sent as the
filter. The methods keep three ghost logs:

- `invocations`: the handler calls awaited;
- `posted`: the requests posted;
- `events`: the opening and closing of upload files around each POST.

Outside inputs are parameters:

- The network is a `Reply` per POST: a decoded body, a transport failure, or a
  cancellation.
- The file system is the set of `readable` paths.
- Whether a handler raises is a predicate `raises` on the call.
- The polling loop runs over a finite script of `Cycle`s. Each cycle gives the
  reply to that cycle's `getUpdates` POST and whether `stop_polling` was called
  meanwhile.

`process_updates` has no `try` around the handler call, so the first exception
a handler raises ends the whole batch. `start_polling` catches it, waits, and
polls again with the offset already advanced. `Dispatch.Run`,
`Bot.TelegramBot.ProcessUpdates` and `Polling.RunCycle` all model this.

## Model

| member | source | states |
|---|---|---|
| Values.Get | TeleFlow/__init__.py:103 | `d.get(key)` is absent exactly when no entry has the key; otherwise it is the value of an entry with that key |
| Values.GetOr | TeleFlow/__init__.py:96 | defines `d.get(key, default)` on a decoded dict: the value of the entry with the key, or `default` when there is none; it is how `result.get("result", [])`, `update.get("update_id")` and `result.get("description", ...)` (lines 63 and 103) read the envelope and the update |
| Values.FindKey | TeleFlow/__init__.py:103 | the position `dict.get` reads is the first entry with the key: no earlier entry has it |
| Values.Truthy | TeleFlow/__init__.py:104 | defines Python truthiness, which the checks `if not result.get('ok')` (line 62), `if update_id`, `if handler` (line 115) and `if updates` (line 130) apply: None, False, 0 and empty strings, lists and dicts are false |
| Values.Decimal | TeleFlow/__init__.py:47 | defines `str()` of an integer: its decimal digits, after a minus sign when it is negative; `DecimalRoundTrip` proves `int()` reads it back |
| Values.DecimalRoundTrip | TeleFlow/__init__.py:47 | `int(str(i)) == i` for every integer, so an integer field's text denotes that integer |
| Form.ScalarText | TeleFlow/__init__.py:47 | defines `str(value)` for a data value that is neither None nor a dict or list: `True` or `False` for a bool, the decimal text for an int, the string itself for a string |
| Form.EncodeValue | TeleFlow/__init__.py:43-47 | a data value is dropped iff it is None; it is JSON-encoded iff it is a dict or list, carrying that value; an int becomes decimal text that parses back to it; a string is sent as itself |
| Form.EncodeData | TeleFlow/__init__.py:41-47 | defines the fields the `data` loop adds: one per non-None entry, in the dictionary's order, so never more fields than entries; its properties are the three lemmas below |
| Form.EncodeDataAppend | TeleFlow/__init__.py:41-47 | encoding a dictionary encodes its entries one after the other, in input order |
| Form.EncodeDataSound | TeleFlow/__init__.py:41-47 | every data field comes from an entry with that name and is its encoding, with no filename |
| Form.EncodeDataComplete | TeleFlow/__init__.py:41-47 | every non-None entry is sent under its own name with its encoding |
| Form.BuildDataFields | TeleFlow/__init__.py:41-47 | the `data` loop produces exactly the encoded entries, in order |
| Form.LastSegment | TeleFlow/__init__.py:54 | `path.split('/')[-1]` contains no '/', is a suffix of the path, and is preceded by a '/' when shorter than the path |
| Form.LastSegmentAfterSlash | TeleFlow/__init__.py:54 | a prefix that is empty or ends in '/' does not change the filename of what follows |
| Form.LastSegmentOfJoin | TeleFlow/__init__.py:54 | the filename of `dir + "/" + name` is `name`, and a path without '/' is its own filename |
| Form.EncodeFile | TeleFlow/__init__.py:50-58 | defines one `files` entry's field: a tuple gives its bytes and filename; a readable path gives the file and its last segment as the filename; an unreadable path raises; any other object is passed as it is, with no filename |
| Form.EncodeFiles | TeleFlow/__init__.py:49-58 | defines the `files` loop: the fields of the entries in order, or the error of the first entry that raises; its properties are the four lemmas below |
| Form.EncodeFilesPrefixFailure | TeleFlow/__init__.py:49-58 | once a file of the loop fails to open, the whole call fails with that error |
| Form.EncodeFilesSucceeds | TeleFlow/__init__.py:49-58 | the `files` loop succeeds iff every local path can be opened |
| Form.EncodeFilesAt | TeleFlow/__init__.py:49-58 | on success there is one field per entry, in order, each the encoding of its entry (tuple: bytes and given filename; path: the file and its last segment; other: the object itself) |
| Form.EncodeFilesFailure | TeleFlow/__init__.py:53-56 | a failure names the first local path that cannot be opened, and every earlier entry opened |
| Form.BuildFileField | TeleFlow/__init__.py:50-58 | the body of the `files` loop for one entry raises iff the entry is a local path that cannot be opened, and then names that path; otherwise the field carries the entry's key, and a tuple keeps its own filename, a path becomes the file with its last segment as filename, and any other object is sent as it is with no filename |
| Form.BuildFileFields | TeleFlow/__init__.py:49-58 | the `files` loop returns the encoded fields, or the error of the first unopenable path |
| Form.Unwrap | TeleFlow/__init__.py:62-64 | the envelope is returned iff it is a dict whose `ok` is truthy; otherwise `TelegramAPIError` carries `description`, or 'Unknown error' when there is none; a non-dict body fails on `.get` |
| Form.ResultOrEmpty | TeleFlow/__init__.py:96 | `result.get("result", [])` is the stored `result` when present and `[]` otherwise |
| Form.Respond | TeleFlow/__init__.py:60-64 | defines what `self(...)` returns or raises once the request is posted: the unwrapped envelope, a transport error, or the cancellation |
| Form.EnvelopeExamples | TeleFlow/__init__.py:62-64 | an error envelope raises with its exact description, or 'Unknown error'; a success envelope is returned whole and yields its `result` |
| Registry.KeyFor | TeleFlow/__init__.py:75 | `update_type or '*'` is the wildcard iff the type is None, empty or '*', and otherwise is the type itself |
| Registry.Resolve | TeleFlow/__init__.py:114-115 | the handler registered for the update's type is picked; failing that, the wildcard's; no handler is picked iff neither is registered, and a picked handler is a registered one |
| Registry.RegisterThenResolve | TeleFlow/__init__.py:75 | after registering under a key, that type resolves to the new function; other types resolve as before, except that unregistered types fall back to a newly registered wildcard |
| Dispatch.TypeIndex | TeleFlow/__init__.py:107-111 | the type key is the first entry whose key is not `update_id`; every entry before it is `update_id` |
| Dispatch.UpdateType | TeleFlow/__init__.py:107-111 | defines `update_type`: the key at `TypeIndex`, or None when every key is `update_id` |
| Dispatch.ClassifyUpdate | TeleFlow/__init__.py:107-111 | the inner loop returns None iff every key is `update_id`, and otherwise the first key that is not |
| Dispatch.PayloadLookup | TeleFlow/__init__.py:116 | `update[update_type]` reads the entry at the type's position |
| Dispatch.AddOne | TeleFlow/__init__.py:105 | defines `update_id + 1`: an int adds one, a bool adds as 0 or 1, and anything else raises TypeError |
| Dispatch.Step | TeleFlow/__init__.py:103-116 | defines one pass of the loop: `.get` on a non-dict raises AttributeError; a truthy id that cannot be incremented raises TypeError; otherwise the offset becomes `max(offset, update_id + 1)` for a truthy id; the type's handler, else the wildcard, is awaited with `update[type]` and may raise; with no handler nothing is called; with a handler but no type, `update[None]` raises KeyError |
| Dispatch.StepOffset | TeleFlow/__init__.py:103-105 | after one update the offset is `max(offset, update_id + 1)` when the id is truthy, and unchanged otherwise |
| Dispatch.Candidate | TeleFlow/__init__.py:103-105 | defines the bound an update raises the offset to: `update_id + 1` for a dict whose id is truthy and can be incremented, and none otherwise; `StepOffset` and `RunOffsetIsMaximum` are stated over it |
| Dispatch.FalsyIdKeepsOffset | TeleFlow/__init__.py:103-105 | an update with `update_id` missing, None, 0 or False leaves the offset untouched |
| Dispatch.Elements | TeleFlow/__init__.py:102 | defines what `for update in updates` iterates: a list's items, a string's characters, a dict's keys; any other value raises TypeError |
| Dispatch.ProcessBatch | TeleFlow/__init__.py:98-116 | defines `process_updates` on any value: a value that cannot be iterated raises before anything changes; otherwise the batch is run |
| Dispatch.Run | TeleFlow/__init__.py:102-116 | a batch without an exception looks at every update; in any case, no more updates than the batch holds |
| Dispatch.RunOffsetIsMaximum | TeleFlow/__init__.py:102-105 | after a batch the offset is the maximum of its old value and `update_id + 1` over the updates looked at: never lower than the old value, at least every candidate, and equal to the old value or to one of them |
| Dispatch.RunCallsInOrder | TeleFlow/__init__.py:113-116 | each handler call comes from an update of the batch, with that update's type and payload and the handler registered for the type (else the wildcard); successive calls come from strictly later updates, so each update is handled at most once, in batch order |
| Dispatch.CallOrigins | TeleFlow/__init__.py:113-116 | defines the batch position of the update behind each handler call, in call order |
| Dispatch.RunCallsComplete | TeleFlow/__init__.py:103-116 | the converse: every update looked at that is a dict with a type, has a handler for that type or a wildcard, and whose `update_id` did not raise, is the origin of a call |
| Dispatch.RunAppend | TeleFlow/__init__.py:102-116 | processing `a + b` processes `a`, then, unless `a` raised, `b` from the offset `a` reached |
| Dispatch.RunPrefixError | TeleFlow/__init__.py:102-116 | once an update raises, the rest of the batch is never looked at |
| Dispatch.DispatchToTypeHandler | TeleFlow/__init__.py:114-116 | a message update calls the "message" handler once, with its payload and type, and advances the offset |
| Dispatch.DispatchToWildcard | TeleFlow/__init__.py:114-116 | a type with no handler of its own goes to the wildcard handler |
| Dispatch.DispatchToNobody | TeleFlow/__init__.py:114-115 | with neither a type handler nor a wildcard, nothing is called, but the offset still moves |
| Dispatch.TypelessUpdateRaises | TeleFlow/__init__.py:107-116 | an update with no type key and a wildcard handler fails on `update[None]`, after the offset moves |
| Polling.UpdateParams | TeleFlow/__init__.py:89-93 | defines the `params` dict of `get_updates`: the offset, the timeout, and the filter, which is None once a wildcard handler is registered |
| Polling.UpdateParamsFields | TeleFlow/__init__.py:89-95 | `getUpdates` sends the offset and timeout as their decimal text and `allowed_updates` as a JSON list; a None filter is left out of the form |
| Polling.UpdatesFrom | TeleFlow/__init__.py:95-96 | defines what `get_updates` returns or raises for a reply: the error of `self(...)`, else the envelope's `result` or `[]` |
| Polling.UpdatesFromEnvelope | TeleFlow/__init__.py:95-96 | `get_updates` raises the API error of an error envelope, returns the `result` of a success envelope, and returns `[]` when the result is missing |
| Polling.RunCycle | TeleFlow/__init__.py:127-136 | defines one pass of the loop body: one `getUpdates` request with the current offset, the default timeout of 30 and the filter; a cancelled poll exits; a failed poll or an error envelope changes nothing; a truthy batch is processed and its exception swallowed; a stop request ends the loop after the cycle |
| Polling.PollUpTo | TeleFlow/__init__.py:125-136 | defines the loop after the first `n` cycles of the script, each run from the outcome of those before it until one ends the loop; it counts no more cycles than `n`; `PollUpToUntilStop`, `PollOffsetMonotone` and `PollCallsResolve` are stated over it |
| Polling.Poll | TeleFlow/__init__.py:125-136 | defines the loop over the whole script: the cycles run one after another until one ends the loop; it runs no more cycles than the script holds |
| Polling.PollPrefixExit | TeleFlow/__init__.py:127-133 | once the loop has ended, later cycles change nothing |
| Polling.PollUpToUntilStop | TeleFlow/__init__.py:125-136 | over any number of cycles, the loop runs up to and including the first cycle with a stop request or a cancelled poll; failed polls, error envelopes and raising handlers are retried; each cycle posts one `getUpdates` request; the exit says which of the two ended the loop; the flag is cleared exactly when the last cycle run requested a stop, including a cancelled one |
| Polling.PollRunsUntilStop | TeleFlow/__init__.py:118-140 | over the whole script, the loop ends exactly at its first stopping or cancelled cycle, or runs every cycle when there is none |
| Polling.PollOffsetMonotone | TeleFlow/__init__.py:102-105 | across polling cycles the offset never decreases: after `n` cycles it is no lower than after any `i <= n`, nor than where it started |
| Polling.PollCallsResolve | TeleFlow/__init__.py:114-116 | every handler call made while polling goes to the handler registered for its type, else the wildcard |
| Bot.TelegramBot.constructor | TeleFlow/__init__.py:9-21 | the URL is the API base followed by the token; there are no handlers, the offset is 0, there is no session and the flag is cleared |
| Bot.TelegramBot.RegisterHandler | TeleFlow/__init__.py:66-77 | the map gains or replaces exactly the entry `update_type or '*'`, every other entry is unchanged, the key order records first registration, and the decorator returns the function it was given |
| Bot.TelegramBot.AllowedUpdates | TeleFlow/__init__.py:92 | the filter is None iff a wildcard is registered; otherwise it lists every registered key, each once |
| Bot.TelegramBot.Call | TeleFlow/__init__.py:23-64 | a session exists afterwards; when every file opens, exactly one request with the data fields then the file fields is posted to `{api_url}/{method}`, and the result is the unwrapped reply; otherwise nothing is posted and the open error is raised; the file events are the code's order, where each file is opened and closed before the POST |
| Bot.TelegramBot.GetUpdates | TeleFlow/__init__.py:79-96 | posts one `getUpdates` request with the current offset, the timeout and the filter, and returns what the reply yields |
| Bot.TelegramBot.ProcessUpdates | TeleFlow/__init__.py:98-116 | the new offset, the handler calls awaited and the exception raised are those of `Dispatch.ProcessBatch` on the batch |
| Bot.TelegramBot.ProcessNext | TeleFlow/__init__.py:102-116 | one pass of the batch loop keeps the state equal to the batch's outcome so far, and on an exception it is the outcome of the whole batch |
| Bot.TelegramBot.ProcessOne | TeleFlow/__init__.py:103-116 | one update changes the offset and the call log exactly as `Dispatch.Step` says, and returns its exception |
| Bot.TelegramBot.StopPolling | TeleFlow/__init__.py:142-144 | clears the flag and touches nothing else, so a second call is harmless |
| Bot.TelegramBot.PollOnce | TeleFlow/__init__.py:127-136 | one pass of the loop body: one `getUpdates` POST, the batch's effect on offset and calls, the cancellation reported, and the flag cleared by a stop request made during the cycle, whether or not the poll was cancelled |
| Bot.TelegramBot.PollStep | TeleFlow/__init__.py:127-136 | one pass of the loop body keeps offset, logs and flag equal to those of the run so far, the flag being cleared exactly when a cycle run requested a stop; a cancellation or stop leaves the state of the whole run |
| Bot.TelegramBot.PollLoop | TeleFlow/__init__.py:127-136 | the `while self._running` loop leaves offset, call log and request log as `Polling.Poll` says, records one POST event per cycle run, clears the flag exactly when a cycle run requested a stop (also a cancelled one), and reports its exit |
| Bot.TelegramBot.StartPolling | TeleFlow/__init__.py:118-140 | the handlers are untouched, the session is closed on every exit, offset, calls, requests and exit are those of `Polling.Poll` over the script, and the event log gains one POST per cycle run; the flag is cleared exactly when `stop_polling` was called during a cycle that ran, so it stays set after a cancelled poll without a stop request |
| FileLifetime.AsWrittenTrace | TeleFlow/__init__.py:53-60 | defines the order of file events as the code has it: each readable local path is opened and closed again in turn, the POST comes after the last close, and a path that cannot be opened ends the trace with no POST |
| FileLifetime.AsWrittenBalanced | TeleFlow/__init__.py:53-56 | as written, each `with open(...)` block opens and closes its file before the next entry |
| FileLifetime.AsWrittenClosesBeforePost | TeleFlow/__init__.py:53-60 | as written, when every file opens, no upload file is open when the POST reads the form |
| FileLifetime.AsWrittenUploadIsClosed | TeleFlow/__init__.py:53-60 | on a concrete upload, the form holds the opened file, yet its handle is closed before the POST |
| FileLifetime.ScopedOpenAtPost | TeleFlow/__init__.py:49-60 | corrected: when every file opens, all of them are open at the POST, which happens once, and they are closed afterwards |
| FileLifetime.ScopedReleasesAll | TeleFlow/__init__.py:49-60 | corrected: whether or not every file opened, no handle is left open at the end |

## Left out

- The HTTP client (`aiohttp.ClientSession`, `post`, `response.json()`) is outside the model. The session is a flag, and each POST's outcome is a `Reply` parameter.
- The text of `json.dumps` is not written out; `Form.JsonText(v)` stands for the JSON text of `v`. `str()` is written out for booleans, integers and strings.
- Floats are not modelled.
- Values.Get: reads the first entry with the key. A JSON object with a repeated key decodes in Python to its last value, so the model is faithful only for objects whose keys are distinct, as every dict the bot receives from the API is.
- The bytes of uploaded files are not modelled. A local path becomes a field that refers to the file, and other objects passed as files are opaque handles.
- `asyncio.sleep(5)` after a failed cycle, and the `print` of the error, are left out. The model keeps only the retry.
- `run()` is left out. It consists of the event loop, `KeyboardInterrupt` and console output.
- A `CancelledError` raised inside a handler, rather than during the poll, is not modelled. Such an exception also breaks out of the loop.
- Bot.TelegramBot.StartPolling: a handler is assumed to act on the bot only by raising or by calling `stop_polling`. Requests a handler posts itself (a `sendMessage`, say) are not in `posted`. A handler that registers another handler while the bot polls is not modelled either; in the code that would change the dispatch map and the `allowed_updates` filter of later cycles, while `PollCallsResolve` and `StartPolling` take the registry as fixed for the whole run.
- Bot.TelegramBot.StartPolling: the loop runs over a finite script of cycles. Running out of script ends the run with no exit and the flag still set, which stands for "still polling".
- Bot.TelegramBot.Call: the request is recorded as its URL and form fields. Headers and the body encoding (url-encoded for data alone, multipart once a field carries a file or a filename) are not modelled.
- URL validation, JSON request bodies and attribute-style access to replies are not part of the code, so they are not modelled.
- `setup.py` is packaging metadata and is not part of this model.

## Findings

| source | as written | input that shows it | evidently intended | confidence | as-written member | corrected member |
|---|---|---|---|---|---|---|
| TeleFlow/__init__.py:53-60 | each upload file is opened in a `with` block that wraps only `form_data.add_field`, so the file is closed before `session.post` streams the form | `files={"document": "dir/photo.jpg"}` for a readable file: the trace is open, close, POST | keep every opened file open until the POST completes, then close all of them, also when a later file fails to open | medium; not executed | FileLifetime.AsWrittenUploadIsClosed | FileLifetime.ScopedOpenAtPost |
