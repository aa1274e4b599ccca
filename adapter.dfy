/** The adapter object: its guards, its discovery buffer, its process
    handle, the resources it disposes of, and the log of what it emits.
    Process output and process completion arrive as method calls. */
module Adapter {
  import opened Results
  import opened Text
  import opened Invocation
  import opened Events
  import opened Protocol
  import opened Routing

  /** The three event emitters the adapter registers for disposal. */
  datatype Resource = TestsEmitter | TestStatesEmitter | RetireEmitter

  class FangLuaTestingAdapter {
    /** The workspace folder's URI path. */
    const workspacePath: string
    /** `JSON.parse`. */
    const parse: Parser

    var disposables: seq<Resource>
    /** The resources disposed of so far, in order. */
    ghost var released: seq<Resource>
    /** `runningTestProcess`: the most recently spawned process, if not yet released. */
    var process: Option<Process>
    var suiteData: string
    var isLoading: bool
    var isRunning: bool
    /** Everything fired on the emitters, every error notification, and every spawn and kill, in order. */
    ghost var trace: seq<Event>

    /** The log keeps the event protocol and leaves open exactly the sessions
        the guards say are open; a held process belongs to an open session. */
    ghost predicate Valid()
      reads this
    {
      && Replay(trace) == Some(Session(isLoading, isRunning))
      && (process.Some? ==>
            (SpawnedFor(process.value, Discover) && isLoading) || (SpawnedFor(process.value, Execute) && isRunning))
    }

    /** The guard of the session of mode `m`. */
    predicate Active(m: Mode)
      reads this
    {
      if m == Discover then isLoading else isRunning
    }

    constructor (workspacePath: string, parse: Parser)
      ensures Valid()
      ensures this.workspacePath == workspacePath && this.parse == parse
      ensures disposables == [TestsEmitter, TestStatesEmitter, RetireEmitter] && released == []
      ensures process == None && suiteData == "" && !isLoading && !isRunning && trace == []
    {
      this.workspacePath := workspacePath;
      this.parse := parse;
      disposables := [TestsEmitter, TestStatesEmitter, RetireEmitter];
      released := [];
      process := None;
      suiteData := "";
      isLoading := false;
      isRunning := false;
      trace := [];
    }

    /** What `load` does: nothing while a load is open; otherwise it opens
        one, empties the buffer and either spawns the runner in "suite" mode
        or, without the entry file, finishes at once with "Fang not initialized!". */
    twostate predicate LoadTransition(executable: string, entryExists: bool)
      reads this
    {
      && isRunning == old(isRunning) && disposables == old(disposables) && released == old(released)
      && (old(isLoading) ==>
            isLoading && trace == old(trace) && suiteData == old(suiteData) && process == old(process))
      && (!old(isLoading) && entryExists ==>
            var p := RunnerProcess(executable, workspacePath, Discover, []);
            isLoading && suiteData == "" && process == Some(p) && trace == old(trace) + [LoadStarted, Spawn(p)])
      && (!old(isLoading) && !entryExists ==>
            && !isLoading && suiteData == "" && process == old(process)
            && trace == old(trace) + [LoadStarted, LoadFinished(LoadFailed(NotInitialized)), Retire(Tests(RootScope))])
    }

    /** `spawn_fang`: the fail-fast check on the entry file, then the spawn
        with the handle stored. The caller has opened the session of mode
        `m`, so no process of that mode is held. */
    method SpawnFang(m: Mode, tests: seq<string>, executable: string, entryExists: bool)
      requires Valid() && Active(m)
      requires process.Some? ==> !SpawnedFor(process.value, m)
      modifies this`trace, this`isLoading, this`isRunning, this`process
      ensures Valid()
      ensures m == Discover ==> isRunning == old(isRunning)
      ensures m == Execute ==> isLoading == old(isLoading)
      ensures entryExists ==>
                var p := RunnerProcess(executable, workspacePath, m, tests);
                Active(m) && process == Some(p) && trace == old(trace) + [Spawn(p)]
      ensures !entryExists ==>
                !Active(m) && process == old(process)
                && trace == old(trace) + CompletionEvents(m, NotInitialized, suiteData, parse)
    {
      var path := AdjustPath(workspacePath);
      if !entryExists {
        Complete(m, NotInitialized);
        return;
      }
      var p := Process(executable, RunnerArgs(Call(path, m, tests)), path);
      ReplayAppend(Some(Idle), trace, [Spawn(p)]);
      process := Some(p);
      trace := trace + [Spawn(p)];
    }

    /** The completion callback handed to `spawn_fang` by the session of
        mode `m`; the session's own process handle is already released. */
    method Complete(m: Mode, err: string)
      requires Valid() && Active(m)
      requires process.Some? ==> !SpawnedFor(process.value, m)
      modifies this`trace, this`isLoading, this`isRunning
      ensures Valid() && !Active(m)
      ensures m == Discover ==> isRunning == old(isRunning)
      ensures m == Execute ==> isLoading == old(isLoading)
      ensures trace == old(trace) + CompletionEvents(m, err, suiteData, parse)
    {
      if m == Discover {
        OnDiscoverFinish(err);
      } else {
        OnRunFinish(err);
      }
    }

    /** `load`: see LoadTransition. */
    method Load(executable: string, entryExists: bool)
      requires Valid()
      modifies this`trace, this`isLoading, this`isRunning, this`suiteData, this`process
      ensures Valid()
      ensures LoadTransition(executable, entryExists)
    {
      if isLoading {
        return;
      }
      assert Replay(trace + [LoadStarted]) == Some(Session(true, isRunning)) by {
        ReplayAppend(Some(Idle), trace, [LoadStarted]);
      }
      assert process.Some? ==> !SpawnedFor(process.value, Discover);
      ghost var before := trace;
      isLoading := true;
      trace := trace + [LoadStarted];
      suiteData := "";
      SpawnFang(Discover, [], executable, entryExists);
      if entryExists {
        assert trace == before + [LoadStarted, Spawn(RunnerProcess(executable, workspacePath, Discover, []))];
      } else {
        assert trace == before + [LoadStarted, LoadFinished(LoadFailed(NotInitialized)), Retire(Tests(RootScope))] by {
          NotInitializedCompletion(Discover, suiteData, parse);
        }
      }
    }

    /** The discovery stdout callback: the line is appended trimmed to the
        buffer, and nothing is emitted. */
    method OnDiscoverLine(line: string)
      requires Valid() && isLoading
      modifies this`suiteData
      ensures Valid()
      ensures suiteData == old(suiteData) + Trim(line)
    {
      suiteData := suiteData + Trim(line);
    }

    /** The discovery completion callback: one outcome from the decision
        tree, then the root scope retired, then the load guard released. */
    method OnDiscoverFinish(err: string)
      requires Valid() && isLoading
      requires process.Some? ==> !SpawnedFor(process.value, Discover)
      modifies this`trace, this`isLoading
      ensures Valid() && !isLoading
      ensures trace == old(trace) + DiscoveryOutcome(err, suiteData, parse) + [Retire(Tests(RootScope))]
    {
      var completion := DiscoveryOutcome(err, suiteData, parse) + [Retire(Tests(RootScope))];
      ReplayAppend(Some(Idle), trace, completion);
      CompletionCloses(Session(true, isRunning), Discover, err, suiteData, parse);
      trace := trace + completion;
      isLoading := false;
    }

    /** `run`: nothing while a run is open; otherwise it opens one, emits
        `started` with the given tests and spawns the runner in "run" mode,
        or finishes at once without the entry file. */
    method Run(tests: seq<string>, executable: string, entryExists: bool)
      requires Valid()
      modifies this`trace, this`isLoading, this`isRunning, this`process
      ensures Valid() && isLoading == old(isLoading)
      ensures old(isRunning) ==> isRunning && trace == old(trace) && process == old(process)
      ensures !old(isRunning) && entryExists ==>
                var p := RunnerProcess(executable, workspacePath, Execute, tests);
                isRunning && process == Some(p) && trace == old(trace) + [RunStarted(tests), Spawn(p)]
      ensures !old(isRunning) && !entryExists ==>
                !isRunning && process == old(process) && trace == old(trace) + [RunStarted(tests), RunFinished]
    {
      if isRunning {
        return;
      }
      assert Replay(trace + [RunStarted(tests)]) == Some(Session(isLoading, true)) by {
        ReplayAppend(Some(Idle), trace, [RunStarted(tests)]);
      }
      assert process.Some? ==> !SpawnedFor(process.value, Execute);
      ghost var before := trace;
      isRunning := true;
      trace := trace + [RunStarted(tests)];
      SpawnFang(Execute, tests, executable, entryExists);
      if entryExists {
        assert trace == before + [RunStarted(tests), Spawn(RunnerProcess(executable, workspacePath, Execute, tests))];
      } else {
        assert trace == before + [RunStarted(tests), RunFinished] by {
          NotInitializedCompletion(Execute, suiteData, parse);
        }
      }
    }

    /** The loop of the run stdout callback: fires the value of each piece in
        order and stops at the first piece that does not parse, whose index
        it returns. */
    method FireParsedPieces(pieces: seq<string>) returns (k: nat)
      requires Valid() && isRunning
      modifies this`trace
      ensures Valid()
      ensures k == FirstParseFailure(pieces, parse)
      ensures trace == old(trace) + Forwarded(pieces[..k], parse)
    {
      k := 0;
      while k < |pieces| && parse(pieces[k]).Ok?
        invariant 0 <= k <= |pieces|
        invariant forall j :: 0 <= j < k ==> parse(pieces[j]).Ok?
        invariant trace == old(trace) + Forwarded(pieces[..k], parse)
        invariant Replay(trace) == Some(Session(isLoading, isRunning))
      {
        var event := RunEvent(parse(pieces[k]).value);
        assert Replay(trace + [event]) == Some(Session(isLoading, isRunning)) by {
          ReplayAppend(Some(Idle), trace, [event]);
        }
        assert Forwarded(pieces[..k + 1], parse) == Forwarded(pieces[..k], parse) + [event] by {
          assert pieces[..k + 1] == pieces[..k] + [pieces[k]];
          ForwardedSnoc(pieces[..k], pieces[k], parse);
        }
        trace := trace + [event];
        k := k + 1;
      }
      FirstParseFailureUnique(pieces, parse, k);
    }

    /** The run stdout callback: the line's pieces are parsed in order and
        each value is forwarded, until the first piece that does not parse,
        which raises one notification and ends the line. */
    method OnRunLine(line: string)
      requires Valid() && isRunning
      modifies this`trace
      ensures Valid()
      ensures trace == old(trace) + RunLineEvents(Split(line), parse)
    {
      var pieces := Split(line);
      var k := FireParsedPieces(pieces);
      if k < |pieces| {
        var notice := Notify(ErrorText(RunParseFailure + parse(pieces[k]).error));
        AppendNeutral(trace, Session(isLoading, isRunning), notice);
        trace := trace + [notice];
      }
      RunLineEventsAsForwarded(pieces, parse);
    }

    /** The run completion callback: `finished` whatever the error text,
        and the run guard released. */
    method OnRunFinish(err: string)
      requires Valid() && isRunning
      requires process.Some? ==> !SpawnedFor(process.value, Execute)
      modifies this`trace, this`isRunning
      ensures Valid() && !isRunning
      ensures trace == old(trace) + [RunFinished]
    {
      ReplayAppend(Some(Idle), trace, [RunFinished]);
      trace := trace + [RunFinished];
      isRunning := false;
    }

    /** The process's `exit` handler: the handle is released, non-empty
        stderr is notified, and the session completes with stderr as its
        error text. */
    method ProcessExits(m: Mode, stderr: string)
      requires Valid() && Active(m)
      modifies this`trace, this`isLoading, this`isRunning, this`process
      ensures Valid() && !Active(m) && process == None
      ensures m == Discover ==> isRunning == old(isRunning)
      ensures m == Execute ==> isLoading == old(isLoading)
      ensures trace == old(trace) + (if stderr != "" then [Notify(ErrorText(stderr))] else [])
                       + CompletionEvents(m, stderr, suiteData, parse)
    {
      process := None;
      if stderr != "" {
        AppendNeutral(trace, Session(isLoading, isRunning), Notify(ErrorText(stderr)));
        trace := trace + [Notify(ErrorText(stderr))];
      }
      Complete(m, stderr);
    }

    /** The process's `error` handler: the handle is released, the failure
        is notified, and the session completes with the same text. */
    method SpawnFails(m: Mode, error: string)
      requires Valid() && Active(m)
      modifies this`trace, this`isLoading, this`isRunning, this`process
      ensures Valid() && !Active(m) && process == None
      ensures m == Discover ==> isRunning == old(isRunning)
      ensures m == Execute ==> isLoading == old(isLoading)
      ensures trace == old(trace) + [Notify(ErrorText(SpawnFailure + error))]
                       + CompletionEvents(m, SpawnFailure + error, suiteData, parse)
    {
      process := None;
      var message := SpawnFailure + error;
      AppendNeutral(trace, Session(isLoading, isRunning), Notify(ErrorText(message)));
      trace := trace + [Notify(ErrorText(message))];
      Complete(m, message);
    }

    /** `cancel`: kills the held process and releases the handle; with no
        handle it does nothing. The guards stay as they are until the
        process's exit is observed. */
    method Cancel()
      requires Valid()
      modifies this`process, this`trace
      ensures Valid() && process == None
      ensures old(process).None? ==> trace == old(trace)
      ensures old(process).Some? ==> trace == old(trace) + [Kill(old(process).value)]
    {
      if process.Some? {
        AppendNeutral(trace, Session(isLoading, isRunning), Kill(process.value));
        trace := trace + [Kill(process.value)];
        process := None;
      }
    }

    /** `dispose`: cancels, then disposes of every registered resource in
        order and forgets them. */
    method Dispose()
      requires Valid()
      modifies this
      ensures Valid() && process == None
      ensures old(process).None? ==> trace == old(trace)
      ensures old(process).Some? ==> trace == old(trace) + [Kill(old(process).value)]
      ensures disposables == [] && released == old(released) + old(disposables)
      ensures isLoading == old(isLoading) && isRunning == old(isRunning) && suiteData == old(suiteData)
    {
      Cancel();
      var i := 0;
      while i < |disposables|
        invariant 0 <= i <= |disposables|
        invariant released == old(released) + disposables[..i]
        modifies this`released
      {
        released := released + [disposables[i]];
        i := i + 1;
      }
      disposables := [];
    }

    /** The configuration-change subscription. */
    method OnConfigurationChanged(affects: string -> bool, executable: string, entryExists: bool)
      requires Valid()
      modifies this`trace, this`isLoading, this`isRunning, this`suiteData, this`process
      ensures Valid()
      ensures RouteConfigChange(affects) == Reload ==> LoadTransition(executable, entryExists)
      ensures RouteConfigChange(affects) != Reload ==>
                && trace == old(trace) && isLoading == old(isLoading) && isRunning == old(isRunning)
                && suiteData == old(suiteData) && process == old(process)
    {
      if RouteConfigChange(affects) == Reload {
        Load(executable, entryExists);
      }
    }

    /** The document-save subscription. */
    method OnDocumentSaved(uri: string, executable: string, entryExists: bool)
      requires Valid()
      modifies this`trace, this`isLoading, this`isRunning, this`suiteData, this`process
      ensures Valid()
      ensures RouteSave(uri) == Reload ==> LoadTransition(executable, entryExists)
      ensures RouteSave(uri) == RetireAll ==>
                && trace == old(trace) + [Retire(AllTests)]
                && isLoading == old(isLoading) && isRunning == old(isRunning)
                && process == old(process) && suiteData == old(suiteData)
    {
      match RouteSave(uri) {
        case Reload =>
          Load(executable, entryExists);
        case RetireAll =>
          AppendNeutral(trace, Session(isLoading, isRunning), Retire(AllTests));
          trace := trace + [Retire(AllTests)];
        case Ignore =>
      }
    }
  }

  /** The two guards are independent and the handle is shared: with a
      discovery and a run both open, the handle is the run's process, and
      the discovery process's exit releases it, so a later `cancel` cannot
      reach the process still running the tests. */
  method RunHandleLostAfterDiscoveryExit(parse: Parser) returns (adapter: FangLuaTestingAdapter)
    ensures adapter.Valid() && adapter.isRunning && adapter.process == None
    // the run's process was spawned, and the final `cancel` logged no kill of it
    ensures Spawn(RunnerProcess("lua", "/workspace", Execute, ["a"])) in adapter.trace
    ensures Kill(RunnerProcess("lua", "/workspace", Execute, ["a"])) !in adapter.trace
  {
    var run := RunnerProcess("lua", "/workspace", Execute, ["a"]);
    adapter := new FangLuaTestingAdapter("/workspace", parse);
    adapter.Load("lua", true);
    adapter.Run(["a"], "lua", true);
    assert adapter.process == Some(run);
    ghost var started := adapter.trace;
    assert started == [LoadStarted, Spawn(RunnerProcess("lua", "/workspace", Discover, [])), RunStarted(["a"]), Spawn(run)];
    adapter.ProcessExits(Discover, "");
    ghost var closing := CompletionEvents(Discover, "", adapter.suiteData, parse);
    assert adapter.trace == started + closing;
    adapter.Cancel();
    assert Kill(run) !in closing;
  }
}
