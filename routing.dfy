/** The constructor's trigger routing: which host notifications start a
    discovery, and which only retire the results shown so far. */
module Routing {
  import opened Text

  datatype Action = Reload | RetireAll | Ignore

  /** The setting key as the adapter spells it. */
  const ExecutableSetting := "fangluatesting.luaexecutatble"
  const TestFileSuffix := "_test.lua"

  /** A configuration change reloads exactly when it affects the runner
      executable setting (`affects` is the host's `affectsConfiguration`);
      it never retires anything. */
  function RouteConfigChange(affects: string -> bool): (a: Action)
    ensures a == Reload <==> affects(ExecutableSetting)
    ensures a != RetireAll
  {
    if affects(ExecutableSetting) then Reload else Ignore
  }

  /** A saved document reloads when its URI names a test file; every other
      save retires all results. A save is never ignored. */
  function RouteSave(uri: string): (a: Action)
    ensures a == Reload <==> EndsWith(uri, TestFileSuffix)
    ensures a == RetireAll <==> !EndsWith(uri, TestFileSuffix)
  {
    if EndsWith(uri, TestFileSuffix) then Reload else RetireAll
  }

  /** Saving any file whose name ends in "_test.lua", wherever it lies,
      reloads; the directory plays no part. */
  lemma SavedTestFileReloads(dir: string, stem: string)
    ensures RouteSave(dir + stem + TestFileSuffix) == Reload
  {
    var uri := dir + stem + TestFileSuffix;
    assert uri[|uri| - |TestFileSuffix|..] == TestFileSuffix;
  }
}
