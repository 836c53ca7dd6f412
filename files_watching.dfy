/** `src/utils/files-watching.js`: every change under the watched folder runs the sync
    callback once and reports its result on a spinner line. The file watcher library
    itself is not modelled: `Watcher.OnEvent` is called once per event it emits. */
module FilesWatching {
  import opened Wrappers
  import opened Text

  /** What a sync callback resolves with: `{ success: true, ... }`, or `success: false`
      with `errors` already formatted to text. */
  datatype CallbackResult = Succeeded | Failed(errors: string)

  /** What one event leaves on the terminal and in the program. */
  datatype Line =
    | Spin(message: string)                 // spinner started
    | Callback(filePath: string)            // the callback ran for this path
    | Stop(text: string, code: nat)         // spinner stopped

  /** `Updated: ${filePath.split("/").pop()}` */
  function EventMessage(filePath: string): (r: string)
    ensures StartsWith(r, "Updated: ") && '/' !in r[9..]
  {
    "Updated: " + LastSegment(filePath)
  }

  /** The message names the changed file, not the folder it is in. */
  lemma EventMessageNamesFile(dir: string, name: string)
    requires '/' !in name
    ensures EventMessage(dir + "/" + name) == "Updated: " + name
  {
    LastSegmentOfChild(dir, name);
  }

  /** The spinner's closing line: the message and "synced!" with the default code 0 on success,
      the formatted errors with code 1 on failure. */
  function StopLine(message: string, result: CallbackResult): (r: Line)
    ensures r.Stop? && (r.code == 0 <==> result.Succeeded?)
    ensures result.Succeeded? ==> StartsWith(r.text, message) && r.text[|message|..] == " - synced!"
    ensures result.Failed? ==> r == Stop(result.errors, 1)
  {
    match result
    case Succeeded => Stop(message + " - synced!", 0)
    case Failed(errors) => Stop(errors, 1)
  }

  /** The lines of one event. A callback that throws leaves its promise rejected and the
      spinner running: no closing line. The rejection is unhandled; this model follows a
      runtime that only reports it, where Node.js 15 and later end the process there. */
  function EventLines(filePath: string, result: Result<CallbackResult>): seq<Line> {
    var message := EventMessage(filePath);
    [Spin(message), Callback(filePath)] +
    match result
    case Ok(res) => [StopLine(message, res)]
    case Err(_) => []
  }

  /** The lines of a sequence of events, in order. */
  function Transcript(events: seq<(string, Result<CallbackResult>)>): seq<Line>
    decreases |events|
  {
    if events == [] then [] else Transcript(events[..|events| - 1]) + EventLines(events[|events| - 1].0, events[|events| - 1].1)
  }

  /** The paths the callback ran for, in order. */
  function CallbackPaths(lines: seq<Line>): seq<string>
    decreases |lines|
  {
    if lines == [] then []
    else CallbackPaths(lines[..|lines| - 1]) + if lines[|lines| - 1].Callback? then [lines[|lines| - 1].filePath] else []
  }

  lemma {:induction false} CallbackPathsAppend(a: seq<Line>, b: seq<Line>)
    ensures CallbackPaths(a + b) == CallbackPaths(a) + CallbackPaths(b)
    decreases |b|
  {
    if b == [] {
      assert a + b == a;
    } else {
      CallbackPathsAppend(a, b[..|b| - 1]);
      assert (a + b)[..|a + b| - 1] == a + b[..|b| - 1];
    }
  }

  /** Every event runs the callback exactly once, for its own path, in event order, whether
      earlier callbacks failed, threw or succeeded: an API failure never stops the watch, and
      neither does a throw on a runtime that does not exit on an unhandled rejection. */
  lemma {:induction false} OneCallbackPerEvent(events: seq<(string, Result<CallbackResult>)>)
    ensures |CallbackPaths(Transcript(events))| == |events|
    ensures forall i :: 0 <= i < |events| ==> CallbackPaths(Transcript(events))[i] == events[i].0
    decreases |events|
  {
    if events != [] {
      var last := events[|events| - 1];
      var prefix := Transcript(events[..|events| - 1]);
      OneCallbackPerEvent(events[..|events| - 1]);
      CallbackPathsAppend(prefix, EventLines(last.0, last.1));
      EventCallsBackOnce(last.0, last.1);
      assert CallbackPaths(Transcript(events)) == CallbackPaths(prefix) + [last.0];
    }
  }

  /** One event runs the callback once, for its own path. */
  lemma EventCallsBackOnce(filePath: string, result: Result<CallbackResult>)
    ensures CallbackPaths(EventLines(filePath, result)) == [filePath]
  {
    var message := EventMessage(filePath);
    var head := [Spin(message), Callback(filePath)];
    var tail := match result case Ok(res) => [StopLine(message, res)] case Err(_) => [];
    assert EventLines(filePath, result) == head + tail;
    CallbackPathsAppend(head, tail);
    assert CallbackPaths(tail) == [] by {
      if tail != [] {
        assert tail[..0] == [];
      }
    }
    assert CallbackPaths(head) == [filePath] by {
      assert head[..1] == [Spin(message)];
      assert [Spin(message)][..0] == [];
    }
  }

  /** `watchFiles(path, callback)`: a running watch on one folder. */
  class Watcher {
    const path: string
    /** Everything the watch has shown and run so far. */
    var lines: seq<Line>

    /** `ignoreInitial: true`: the files already there when the watch starts raise no event. */
    constructor (path: string)
      ensures this.path == path && lines == []
    {
      this.path := path;
      lines := [];
    }

    /** One event for `filePath`, whose callback resolved (or threw) with `result`. */
    method OnEvent(filePath: string, result: Result<CallbackResult>)
      modifies this
      ensures lines == old(lines) + EventLines(filePath, result)
    {
      var message := EventMessage(filePath);
      var shown := [Spin(message), Callback(filePath)];
      if result.Ok? {
        shown := shown + [StopLine(message, result.value)];
      }
      lines := lines + shown;
    }
  }
}
