/**
 * When the files uploaded by `__call__` are open, relative to the POST that
 * reads them.
 *
 * As written, each local path is opened in a `with` block that only wraps
 * `form_data.add_field(...)`, so the file is closed again before
 * `session.post(url, data=form_data)` streams the form. The corrected order
 * keeps every opened file open until the POST has completed and closes all of
 * them on every exit path, including a failed `open` of a later file.
 */
module FileLifetime {
  import opened Wrappers
  import opened Form

  datatype Event = Opened(path: string) | Closed(path: string) | Posted

  /** The file handles still open after replaying `trace`. */
  function OpenHandles(trace: seq<Event>): multiset<string> {
    if trace == [] then multiset{}
    else
      var before := OpenHandles(trace[..|trace| - 1]);
      match trace[|trace| - 1]
      case Opened(p) => before + multiset{p}
      case Closed(p) => before - multiset{p}
      case Posted => before
  }

  lemma {:induction false} OpenHandlesAppend(a: seq<Event>, b: seq<Event>)
    requires forall k :: 0 <= k < |b| ==> b[k].Posted?
    ensures OpenHandles(a + b) == OpenHandles(a)
    decreases |b|
  {
    if b == [] {
      assert a + b == a;
    } else {
      assert (a + b)[..|a + b| - 1] == a + b[..|b| - 1];
      OpenHandlesAppend(a, b[..|b| - 1]);
    }
  }

  /** The local paths among the `files` entries, in order, up to the first one that cannot be opened. */
  function OpenablePaths(files: seq<(string, FileSource)>, readable: set<string>): seq<string> {
    if files == [] then []
    else
      var head := files[0].1;
      if head.LocalPath? then
        if head.path in readable then [head.path] + OpenablePaths(files[1..], readable) else []
      else OpenablePaths(files[1..], readable)
  }

  /** The `files` loop as written: open, add the field, close; then the POST if nothing failed. */
  function AsWrittenTrace(files: seq<(string, FileSource)>, readable: set<string>): seq<Event> {
    if files == [] then [Posted]
    else
      var head := files[0].1;
      if head.LocalPath? then
        if head.path in readable then [Opened(head.path), Closed(head.path)] + AsWrittenTrace(files[1..], readable)
        else []
      else AsWrittenTrace(files[1..], readable)
  }

  function OpenAll(paths: seq<string>): seq<Event> {
    if paths == [] then [] else [Opened(paths[0])] + OpenAll(paths[1..])
  }

  function CloseAll(paths: seq<string>): seq<Event> {
    if paths == [] then [] else [Closed(paths[0])] + CloseAll(paths[1..])
  }

  /** The corrected order: open the files, POST only if all of them opened, then close every opened file. */
  function ScopedTrace(files: seq<(string, FileSource)>, readable: set<string>): seq<Event> {
    var paths := OpenablePaths(files, readable);
    var posted := if EncodeFiles(files, readable).Success? then [Posted] else [];
    OpenAll(paths) + posted + CloseAll(paths)
  }

  lemma {:induction false} OpenAllHandles(before: seq<Event>, paths: seq<string>)
    ensures OpenHandles(before + OpenAll(paths)) == OpenHandles(before) + multiset(paths)
    decreases |paths|
  {
    if paths != [] {
      var init := paths[..|paths| - 1];
      var last := paths[|paths| - 1];
      OpenAllSnoc(init, last);
      assert paths == init + [last];
      assert before + OpenAll(paths) == (before + OpenAll(init)) + [Opened(last)];
      OpenAllHandles(before, init);
    } else {
      assert before + OpenAll(paths) == before;
    }
  }

  lemma {:induction false} OpenAllSnoc(paths: seq<string>, p: string)
    ensures OpenAll(paths + [p]) == OpenAll(paths) + [Opened(p)]
  {
    if paths != [] {
      assert (paths + [p])[1..] == paths[1..] + [p];
      OpenAllSnoc(paths[1..], p);
    }
  }

  lemma {:induction false} CloseAllHandles(before: seq<Event>, paths: seq<string>)
    requires multiset(paths) <= OpenHandles(before)
    ensures OpenHandles(before + CloseAll(paths)) == OpenHandles(before) - multiset(paths)
    decreases |paths|
  {
    if paths != [] {
      var first, rest := paths[0], paths[1..];
      var next := before + [Closed(first)];
      assert OpenHandles(next) == OpenHandles(before) - multiset{first} by {
        assert next[..|before|] == before;
      }
      assert multiset(paths) == multiset{first} + multiset(rest) by {
        assert paths == [first] + rest;
      }
      RemoveInTurn(OpenHandles(before), first, multiset(rest));
      CloseAllHandles(next, rest);
      CloseFirst(before, paths);
    } else {
      assert before + CloseAll(paths) == before;
    }
  }

  /** Closing a list of paths is closing the first, then the rest. */
  lemma CloseFirst(before: seq<Event>, paths: seq<string>)
    requires paths != []
    ensures before + CloseAll(paths) == (before + [Closed(paths[0])]) + CloseAll(paths[1..])
  {
  }

  /** Taking `p` out first and then `rest` is taking both out at once. */
  lemma RemoveInTurn(open: multiset<string>, p: string, rest: multiset<string>)
    requires multiset{p} + rest <= open
    ensures rest <= open - multiset{p}
    ensures (open - multiset{p}) - rest == open - (multiset{p} + rest)
  {
    forall x ensures rest[x] <= (open - multiset{p})[x] && ((open - multiset{p}) - rest)[x] == (open - (multiset{p} + rest))[x] {
      assert (multiset{p} + rest)[x] <= open[x];
    }
  }

  /**
   * As written, when every file opens, the request is posted with no file handle left open:
   * the trace ends with the POST and everything before it balances out.
   */
  lemma {:induction false} AsWrittenClosesBeforePost(files: seq<(string, FileSource)>, readable: set<string>)
    requires EncodeFiles(files, readable).Success?
    ensures var trace := AsWrittenTrace(files, readable);
      trace != [] && trace[|trace| - 1] == Posted && OpenHandles(trace[..|trace| - 1]) == multiset{}
  {
    EncodeFilesSucceeds(files, readable);
    AsWrittenBalanced(files, readable, []);
    var trace := AsWrittenTrace(files, readable);
    assert [] + trace[..|trace| - 1] == trace[..|trace| - 1];
  }

  lemma {:induction false} AsWrittenBalanced(files: seq<(string, FileSource)>, readable: set<string>, before: seq<Event>)
    requires forall j :: 0 <= j < |files| ==> !Unreadable(files[j].1, readable)
    ensures var trace := AsWrittenTrace(files, readable);
      trace != [] && trace[|trace| - 1] == Posted
      && OpenHandles(before + trace[..|trace| - 1]) == OpenHandles(before)
  {
    var trace := AsWrittenTrace(files, readable);
    if files == [] {
      assert before + trace[..|trace| - 1] == before;
    } else {
      var rest := AsWrittenTrace(files[1..], readable);
      assert forall j :: 0 <= j < |files[1..]| ==> files[1..][j] == files[j + 1];
      var head := files[0].1;
      if head.LocalPath? {
        var p := head.path;
        var pair := [Opened(p), Closed(p)];
        AsWrittenBalanced(files[1..], readable, before + pair);
        assert trace[..|trace| - 1] == pair + rest[..|rest| - 1];
        assert before + trace[..|trace| - 1] == (before + pair) + rest[..|rest| - 1];
        assert (before + pair)[..|before + pair| - 1] == before + [Opened(p)];
        assert (before + [Opened(p)])[..|before|] == before;
      } else {
        AsWrittenBalanced(files[1..], readable, before);
      }
    }
  }

  /**
   * The discrepancy on a concrete call: uploading `files={"document": dir + "/" + name}` for a file
   * that exists puts the opened file into the form, yet no handle of it is open when the POST
   * reads the form.
   */
  lemma AsWrittenUploadIsClosed(dir: string, name: string)
    requires '/' !in name
    ensures var path := dir + "/" + name;
      var files := [("document", LocalPath(path))];
      var trace := AsWrittenTrace(files, {path});
      && EncodeFiles(files, {path}) == Success([Field("document", FileAt(path), Some(name))])
      && trace == [Opened(path), Closed(path), Posted]
      && OpenHandles(trace[..2]) == multiset{}
  {
    var path := dir + "/" + name;
    var files := [("document", LocalPath(path))];
    var field := Field("document", FileAt(path), Some(name));
    assert EncodeFiles(files, {path}) == Success([field]) by {
      LastSegmentOfJoin(dir, name);
      assert files[..0] == [];
      assert EncodeFiles(files[..0], {path}) == Success([]);
      assert EncodeFile(files[|files| - 1], {path}) == Success(field);
      assert [] + [field] == [field];
    }
    var pair := [Opened(path), Closed(path)];
    assert AsWrittenTrace(files, {path}) == pair + [Posted] by {
      assert files[1..] == [];
    }
    assert OpenHandles(pair) == multiset{} by {
      assert pair[..1] == [Opened(path)] && pair[..1][..0] == [];
      assert OpenHandles([Opened(path)]) == multiset{path};
    }
    assert (pair + [Posted])[..2] == pair;
  }

  /** Corrected: when every file opens, each one is open at the POST, and the POST happens once. */
  lemma {:induction false} ScopedOpenAtPost(files: seq<(string, FileSource)>, readable: set<string>)
    requires EncodeFiles(files, readable).Success?
    ensures var paths := OpenablePaths(files, readable);
      var trace := ScopedTrace(files, readable);
      && trace == OpenAll(paths) + [Posted] + CloseAll(paths)
      && OpenHandles(OpenAll(paths)) == multiset(paths)
  {
    var paths := OpenablePaths(files, readable);
    OpenAllHandles([], paths);
    assert [] + OpenAll(paths) == OpenAll(paths);
  }

  /** Corrected: whether or not every file opened, no handle is left open at the end. */
  lemma {:induction false} ScopedReleasesAll(files: seq<(string, FileSource)>, readable: set<string>)
    ensures OpenHandles(ScopedTrace(files, readable)) == multiset{}
  {
    var paths := OpenablePaths(files, readable);
    var posted := if EncodeFiles(files, readable).Success? then [Posted] else [];
    OpenAllHandles([], paths);
    assert [] + OpenAll(paths) == OpenAll(paths);
    OpenHandlesAppend(OpenAll(paths), posted);
    CloseAllHandles(OpenAll(paths) + posted, paths);
  }
}
