/**
 * The request side of `TelegramBot.__call__`: how the `data` and `files`
 * dictionaries become form fields, how an upload's filename is
 * derived from its path, and how the JSON envelope of the reply is unwrapped.
 *
 * `json.dumps` is left symbolic (`JsonText(v)` stands for the JSON text of
 * `v`); `str()` is written out for the scalars that reach it.
 */
module Form {
  import opened Wrappers
  import opened Values
  import opened Errors

  /** What a form field carries. */
  datatype Payload =
    | Text(text: string)
    | JsonText(value: Value)
    | Bytes(content: seq<bv8>)
    | FileAt(path: string)
    | Opaque(handle: nat)

  datatype Field = Field(name: string, payload: Payload, filename: Option<string>)

  /** A value of the `files` dictionary. */
  datatype FileSource =
    /** A `(content, filename)` tuple. */
    | Inline(content: seq<bv8>, filename: string)
    /** A string: the path of a local file to open and upload. */
    | LocalPath(path: string)
    /** Any other object, handed to the form as it is. */
    | Other(handle: nat)

  /** One POST to `{api_url}/{method}`. */
  datatype Request = Request(url: string, fields: seq<Field>)

  /** What the HTTP client produced for a POST: a decoded JSON body, or an exception. */
  datatype Reply = Received(body: Value) | TransportFailure | Cancellation

  // ---------------------------------------------------------------------------
  // data fields

  /** The scalar text `str(v)` for the values that are neither None nor a dict/list. */
  function ScalarText(v: Value): string
    requires v.Bool? || v.Int? || v.Str?
  {
    match v
    case Bool(b) => if b then "True" else "False"
    case Int(i) => Decimal(i)
    case Str(s) => s
  }

  /** The payload for one `data` value: None is dropped, dicts and lists go as JSON, the rest through `str`. */
  function EncodeValue(v: Value): (p: Option<Payload>)
    ensures p.None? <==> v == Null
    ensures p.Some? ==> (p.value.JsonText? <==> v.List? || v.Object?)
    ensures p.Some? && p.value.JsonText? ==> p.value.value == v
    ensures v.Int? ==> p.Some? && p.value.Text? && ParseDecimal(p.value.text) == Some(v.i)
    ensures v.Str? ==> p == Some(Text(v.s))
  {
    match v
    case Null => None
    case List(_) => Some(JsonText(v))
    case Object(_) => Some(JsonText(v))
    case Int(i) =>
      DecimalRoundTrip(i);
      Some(Text(ScalarText(v)))
    case Bool(_) => Some(Text(ScalarText(v)))
    case Str(_) => Some(Text(ScalarText(v)))
  }

  function EncodeEntry(entry: (string, Value)): seq<Field> {
    match EncodeValue(entry.1)
    case None => []
    case Some(p) => [Field(entry.0, p, None)]
  }

  /** The fields the `data` loop adds, in the dictionary's order. */
  function EncodeData(data: seq<(string, Value)>): (fields: seq<Field>)
    ensures |fields| <= |data|
  {
    if data == [] then []
    else EncodeData(data[..|data| - 1]) + EncodeEntry(data[|data| - 1])
  }

  /** Encoding a dictionary is encoding its entries one after the other. */
  lemma {:induction false} EncodeDataAppend(a: seq<(string, Value)>, b: seq<(string, Value)>)
    ensures EncodeData(a + b) == EncodeData(a) + EncodeData(b)
    decreases |b|
  {
    if b != [] {
      var last := b[|b| - 1];
      assert (a + b)[..|a + b| - 1] == a + b[..|b| - 1];
      EncodeDataAppend(a, b[..|b| - 1]);
    } else {
      assert a + b == a;
    }
  }

  /** Every field the `data` loop produces comes from a non-None entry with that name and is its encoding. */
  lemma {:induction false} EncodeDataSound(data: seq<(string, Value)>, f: Field)
    requires f in EncodeData(data)
    ensures f.filename == None
    ensures exists j :: 0 <= j < |data| && data[j].0 == f.name && EncodeValue(data[j].1) == Some(f.payload)
  {
    var init := data[..|data| - 1];
    if f in EncodeData(init) {
      EncodeDataSound(init, f);
      var j :| 0 <= j < |init| && init[j].0 == f.name && EncodeValue(init[j].1) == Some(f.payload);
      assert data[j] == init[j];
    } else {
      assert data[|data| - 1].0 == f.name;
    }
  }

  /** A non-None entry is sent, under its own name. */
  lemma {:induction false} EncodeDataComplete(data: seq<(string, Value)>, j: nat)
    requires j < |data| && data[j].1 != Null
    ensures Field(data[j].0, EncodeValue(data[j].1).value, None) in EncodeData(data)
  {
    if j < |data| - 1 {
      EncodeDataComplete(data[..|data| - 1], j);
    }
  }

  /** The `data` loop of `__call__`. */
  method BuildDataFields(data: seq<(string, Value)>) returns (fields: seq<Field>)
    ensures fields == EncodeData(data)
  {
    fields := [];
    var i := 0;
    while i < |data|
      invariant 0 <= i <= |data|
      invariant fields == EncodeData(data[..i])
    {
      var (key, value) := data[i];
      if value != Null {
        var payload := if value.List? || value.Object? then JsonText(value) else Text(ScalarText(value));
        fields := fields + [Field(key, payload, None)];
      }
      assert data[..i + 1][..i] == data[..i];
      i := i + 1;
    }
    assert data[..i] == data;
  }

  // ---------------------------------------------------------------------------
  // file fields

  /** `path.split('/')[-1]`: the part of the path after its last '/'. */
  function LastSegment(path: string): (name: string)
    ensures '/' !in name
    ensures |name| <= |path| && path[|path| - |name|..] == name
    ensures |name| < |path| ==> path[|path| - |name| - 1] == '/'
  {
    if path == [] then []
    else if path[|path| - 1] == '/' then []
    else LastSegment(path[..|path| - 1]) + [path[|path| - 1]]
  }

  /** Whatever ends in '/' (or is empty) contributes nothing to the filename of what follows it. */
  lemma {:induction false} LastSegmentAfterSlash(dir: string, name: string)
    requires dir == [] || dir[|dir| - 1] == '/'
    requires '/' !in name
    ensures LastSegment(dir + name) == name
    decreases |name|
  {
    var path := dir + name;
    if name == [] {
      assert path == dir;
    } else {
      assert path[..|path| - 1] == dir + name[..|name| - 1];
      assert path[|path| - 1] == name[|name| - 1];
      LastSegmentAfterSlash(dir, name[..|name| - 1]);
    }
  }

  /** The filename of `dir + "/" + name` is `name`, and a path with no '/' is its own filename. */
  lemma LastSegmentOfJoin(dir: string, name: string)
    requires '/' !in name
    ensures LastSegment(dir + "/" + name) == name
    ensures LastSegment(name) == name
  {
    LastSegmentAfterSlash(dir + "/", name);
    assert dir + "/" + name == (dir + "/") + name;
    LastSegmentAfterSlash([], name);
    assert [] + name == name;
  }

  /** The field for one entry of `files`; opening a missing local file fails. */
  function EncodeFile(entry: (string, FileSource), readable: set<string>): Result<Field, Error> {
    var (key, source) := entry;
    match source
    case Inline(content, filename) => Success(Field(key, Bytes(content), Some(filename)))
    case LocalPath(path) =>
      if path in readable then Success(Field(key, FileAt(path), Some(LastSegment(path))))
      else Failure(FileNotFound(path))
    case Other(handle) => Success(Field(key, Opaque(handle), None))
  }

  /** The fields the `files` loop adds, or the error of the first file that cannot be opened. */
  function EncodeFiles(files: seq<(string, FileSource)>, readable: set<string>): Result<seq<Field>, Error> {
    if files == [] then Success([])
    else
      match EncodeFiles(files[..|files| - 1], readable)
      case Failure(e) => Failure(e)
      case Success(fields) =>
        match EncodeFile(files[|files| - 1], readable)
        case Failure(e) => Failure(e)
        case Success(f) => Success(fields + [f])
  }

  predicate Unreadable(source: FileSource, readable: set<string>) {
    source.LocalPath? && source.path !in readable
  }

  /** Once a prefix of `files` fails, the whole loop fails with that error. */
  lemma {:induction false} EncodeFilesPrefixFailure(files: seq<(string, FileSource)>, i: nat, readable: set<string>)
    requires i <= |files| && EncodeFiles(files[..i], readable).Failure?
    ensures EncodeFiles(files, readable) == EncodeFiles(files[..i], readable)
    decreases |files|
  {
    if i < |files| {
      var init := files[..|files| - 1];
      assert init[..i] == files[..i];
      EncodeFilesPrefixFailure(init, i, readable);
    } else {
      assert files[..i] == files;
    }
  }

  /** The `files` loop succeeds exactly when every local path can be opened. */
  lemma {:induction false} EncodeFilesSucceeds(files: seq<(string, FileSource)>, readable: set<string>)
    ensures EncodeFiles(files, readable).Success? <==> forall j :: 0 <= j < |files| ==> !Unreadable(files[j].1, readable)
  {
    if files != [] {
      var init := files[..|files| - 1];
      EncodeFilesSucceeds(init, readable);
      assert forall j :: 0 <= j < |init| ==> init[j] == files[j];
    }
  }

  /**
   * On success there is one field per entry, in order: field `j` is the encoding of entry `j`
   * (so it has the entry's name, and a local path carries its last segment as the filename).
   */
  lemma {:induction false} EncodeFilesAt(files: seq<(string, FileSource)>, readable: set<string>, j: nat)
    requires EncodeFiles(files, readable).Success? && j < |files|
    ensures |EncodeFiles(files, readable).value| == |files|
    ensures EncodeFile(files[j], readable) == Success(EncodeFiles(files, readable).value[j])
    decreases |files|
  {
    var init := files[..|files| - 1];
    if j < |init| {
      EncodeFilesAt(init, readable, j);
      assert init[j] == files[j];
    } else if init != [] {
      EncodeFilesAt(init, readable, 0);
    }
  }

  /** A failure names the first local path that cannot be opened. */
  lemma {:induction false} EncodeFilesFailure(files: seq<(string, FileSource)>, readable: set<string>)
    requires EncodeFiles(files, readable).Failure?
    ensures exists j :: (0 <= j < |files| && Unreadable(files[j].1, readable)
      && EncodeFiles(files, readable).error == FileNotFound(files[j].1.path)
      && forall k :: 0 <= k < j ==> !Unreadable(files[k].1, readable))
  {
    var init := files[..|files| - 1];
    assert forall j :: 0 <= j < |init| ==> init[j] == files[j];
    if EncodeFiles(init, readable).Failure? {
      EncodeFilesFailure(init, readable);
    } else {
      EncodeFilesSucceeds(init, readable);
    }
  }

  /** One more entry of the `files` loop: its field is appended, or its error ends the loop. */
  lemma EncodeFilesNext(files: seq<(string, FileSource)>, i: nat, readable: set<string>)
    requires i < |files|
    ensures EncodeFiles(files[..i + 1], readable) ==
      match EncodeFiles(files[..i], readable)
      case Failure(e) => Failure(e)
      case Success(fields) =>
        match EncodeFile(files[i], readable)
        case Failure(e) => Failure(e)
        case Success(f) => Success(fields + [f])
  {
    assert files[..i + 1][..i] == files[..i];
  }

  /**
   * The body of the `files` loop for one entry: only a local path that cannot be opened raises;
   * otherwise the field is added under the entry's own key, a tuple with its own filename, a path
   * as the file with its last segment as filename, any other object as it is with none.
   */
  method BuildFileField(key: string, source: FileSource, readable: set<string>) returns (r: Result<Field, Error>)
    ensures r.Failure? <==> source.LocalPath? && source.path !in readable
    ensures r.Failure? ==> r.error == FileNotFound(source.path)
    ensures r.Success? ==> r.value.name == key
    ensures r.Success? && source.Inline? ==> r.value.payload == Bytes(source.content) && r.value.filename == Some(source.filename)
    ensures r.Success? && source.LocalPath? ==> r.value.payload == FileAt(source.path) && r.value.filename == Some(LastSegment(source.path))
    ensures r.Success? && source.Other? ==> r.value.payload == Opaque(source.handle) && r.value.filename == None
  {
    match source {
      case Inline(content, filename) =>
        r := Success(Field(key, Bytes(content), Some(filename)));
      case LocalPath(path) =>
        if path !in readable {
          return Failure(FileNotFound(path));
        }
        r := Success(Field(key, FileAt(path), Some(LastSegment(path))));
      case Other(handle) =>
        r := Success(Field(key, Opaque(handle), None));
    }
  }

  /** The `files` loop of `__call__`. */
  method BuildFileFields(files: seq<(string, FileSource)>, readable: set<string>) returns (r: Result<seq<Field>, Error>)
    ensures r == EncodeFiles(files, readable)
  {
    var fields: seq<Field> := [];
    var i := 0;
    while i < |files|
      invariant 0 <= i <= |files|
      invariant EncodeFiles(files[..i], readable) == Success(fields)
    {
      EncodeFilesNext(files, i, readable);
      var field := BuildFileField(files[i].0, files[i].1, readable);
      assert field == EncodeFile(files[i], readable);
      if field.Failure? {
        EncodeFilesPrefixFailure(files, i + 1, readable);
        return Failure(field.error);
      }
      fields := fields + [field.value];
      i := i + 1;
    }
    assert files[..i] == files;
    r := Success(fields);
  }

  // ---------------------------------------------------------------------------
  // the reply envelope

  const UnknownError := Str("Unknown error")

  /** `if not result.get('ok'): raise TelegramAPIError(result.get('description', 'Unknown error'))`, else the envelope. */
  function Unwrap(body: Value): (r: Result<Value, Error>)
    ensures r.Success? <==> body.Object? && Truthy(GetOr(body.fields, "ok", Null))
    ensures r.Success? ==> r.value == body
    ensures !body.Object? ==> r == Failure(AttributeError)
    ensures body.Object? && r.Failure? ==>
      r.error == ApiError(if Get(body.fields, "description").Some? then Get(body.fields, "description").value else UnknownError)
  {
    match body
    case Object(fields) =>
      if Truthy(GetOr(fields, "ok", Null)) then Success(body)
      else Failure(ApiError(GetOr(fields, "description", UnknownError)))
    case _ => Failure(AttributeError)
  }

  /** `result.get("result", [])` as `get_updates` reads it off an unwrapped envelope. */
  function ResultOrEmpty(envelope: Value): (updates: Value)
    requires envelope.Object?
    ensures Get(envelope.fields, "result").None? ==> updates == List([])
    ensures Get(envelope.fields, "result").Some? ==> ("result", updates) in envelope.fields
  {
    GetOr(envelope.fields, "result", List([]))
  }

  /** What `self(...)` returns or raises once the request has been posted. */
  function Respond(reply: Reply): Result<Value, Error> {
    match reply
    case Received(body) => Unwrap(body)
    case TransportFailure => Failure(TransportError)
    case Cancellation => Failure(Cancelled)
  }

  /** An error envelope surfaces its exact description; a success envelope yields its result. */
  lemma EnvelopeExamples(description: string, result: Value)
    ensures Unwrap(Object([("ok", Bool(false)), ("description", Str(description))]))
         == Failure(ApiError(Str(description)))
    ensures Unwrap(Object([("ok", Bool(false))])) == Failure(ApiError(UnknownError))
    ensures var envelope := Object([("ok", Bool(true)), ("result", result)]);
      Unwrap(envelope) == Success(envelope) && ResultOrEmpty(envelope) == result
  {
    var failed := [("ok", Bool(false)), ("description", Str(description))];
    assert FindKey(failed, "description") == 1;
    var succeeded := [("ok", Bool(true)), ("result", result)];
    assert FindKey(succeeded, "result") == 1;
  }
}
