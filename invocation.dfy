/** The pure part of `spawn_fang`: the workspace path the runner is given,
    the entry file it must find, and the argument vector in its fixed order. */
module Invocation {
  import opened Results
  import opened Text

  /** Discovery runs the runner in "suite" mode, a test run in "run" mode. */
  datatype Mode = Discover | Execute

  function ModeToken(m: Mode): string
  {
    match m
    case Discover => "suite"
    case Execute => "run"
  }

  function ModeOfToken(token: string): (m: Option<Mode>)
    ensures m.Some? ==> ModeToken(m.value) == token
  {
    if token == "suite" then Some(Discover)
    else if token == "run" then Some(Execute)
    else None
  }

  const EntryFile := "/fang/fang-runner.lua"
  const HostFlag := "--vscode"

  /** The workspace path after the adapter's adjustment (Unicode
      normalisation is not modelled): a path that does not start with "/"
      loses its first character; any other path is kept. */
  function AdjustPath(p: string): (r: string)
    ensures |p| - 1 <= |r| <= |p| && r == p[|p| - |r|..]
    ensures r == p <==> StartsWith(p, "/") || p == ""
  {
    if StartsWith(p, "/") then p
    else if p == "" then ""
    else p[1..]
  }

  /** The runner's entry file beneath the workspace; its presence is what
      decides whether a process is spawned at all. */
  function EntryPath(path: string): string
  {
    path + EntryFile
  }

  /** One invocation of the runner. */
  datatype Call = Call(path: string, mode: Mode, tests: seq<string>)

  /** The argument vector: entry file, mode token, workspace path, the
      test ids in the caller's order, and the host flag last. */
  function RunnerArgs(c: Call): (args: seq<string>)
    ensures |args| == |c.tests| + 4
    ensures args[0] == EntryPath(c.path) && args[1] == ModeToken(c.mode) && args[2] == c.path
    ensures args[3..|args| - 1] == c.tests
    ensures args[|args| - 1] == HostFlag
  {
    [EntryPath(c.path), ModeToken(c.mode), c.path] + c.tests + [HostFlag]
  }

  /** Reads an argument vector back into the invocation it was built from. */
  function DecodeArgs(args: seq<string>): Option<Call>
  {
    if |args| >= 4 && args[|args| - 1] == HostFlag && args[0] == EntryPath(args[2]) then
      match ModeOfToken(args[1])
      case Some(m) => Some(Call(args[2], m, args[3..|args| - 1]))
      case None => None
    else None
  }

  /** Every argument vector the adapter builds decodes to its invocation. */
  lemma ArgsRoundTrip(c: Call)
    ensures DecodeArgs(RunnerArgs(c)) == Some(c)
  {
    var args := RunnerArgs(c);
    match c.mode {
      case Discover => assert ModeOfToken(args[1]) == Some(Discover);
      case Execute => assert ModeOfToken(args[1]) == Some(Execute);
    }
  }

  /** Conversely, whatever decodes is exactly the vector built from the
      decoded invocation: the order of the vector is fixed. */
  lemma DecodedArgsAreBuilt(args: seq<string>)
    ensures DecodeArgs(args).Some? ==> RunnerArgs(DecodeArgs(args).value) == args
  {
    if DecodeArgs(args).Some? {
      var c := DecodeArgs(args).value;
      var built := RunnerArgs(c);
      assert |built| == |args|;
      forall i | 0 <= i < |args| ensures built[i] == args[i] {
        if 3 <= i < |args| - 1 {
          assert built[i] == built[3..|built| - 1][i - 3];
          assert args[i] == args[3..|args| - 1][i - 3];
        }
      }
    }
  }

  /** The child process handle the adapter keeps: what was spawned, with
      which arguments, in which working directory. */
  datatype Process = Process(executable: string, args: seq<string>, cwd: string)

  /** The process was spawned for a session of mode `m`. */
  predicate SpawnedFor(p: Process, m: Mode)
  {
    |p.args| >= 2 && p.args[1] == ModeToken(m)
  }

  /** The process the adapter spawns for mode `m`, run from the adjusted
      workspace path. */
  function RunnerProcess(executable: string, workspacePath: string, m: Mode, tests: seq<string>): (p: Process)
    ensures SpawnedFor(p, m) && !SpawnedFor(p, if m == Discover then Execute else Discover)
    ensures DecodeArgs(p.args) == Some(Call(p.cwd, m, tests))
    ensures p.cwd == AdjustPath(workspacePath) && p.executable == executable
  {
    var path := AdjustPath(workspacePath);
    ArgsRoundTrip(Call(path, m, tests));
    Process(executable, RunnerArgs(Call(path, m, tests)), path)
  }
}
