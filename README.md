# Fang Lua test adapter: the supervision and event-bridging core

This project models `FangLuaTestingAdapter`, a VS Code test adapter. The adapter runs the Fang Lua test runner as a child process. It turns the runner's output into test-explorer events. The model covers the adapter's state machine:

- the `is_loading` and `is_running` guards;
- the discovery buffer `suiteData`;
- the process handle `runningTestProcess`;
- the registered disposables;
- a log (`trace`) of everything the adapter emits.

Process output and process completion arrive as method calls. Those calls are `OnDiscoverLine`, `OnRunLine`, `ProcessExits` and `SpawnFails`.

The modules follow the structure of the source:

- `Text` (text.dfy): the JavaScript string operations the adapter relies on. `trim` uses the ECMAScript white-space set. `split(/\r?\n/)` is modelled exactly: `"\r\r\n"` splits to `["\r", ""]`.
- `Invocation` (invocation.dfy): the pure part of `spawn_fang`. This covers the path adjustment, the entry file, the argument vector and its decoding, and the process handle.
- `Events` (events.dfy): the log entries and the two decoders. `DiscoveryOutcome` is the discovery decision tree. `RunLineEvents` gives the events of one run-output line.
- `Protocol` (protocol.dfy): the event protocol as a replay of the log. The load `started` and `finished` that the adapter fires itself alternate, and so do its own run `started` and `finished`. Forwarded runner records occur only inside a run. A process is only spawned for an open session.
- `Routing` (routing.dfy): the constructor's trigger routing.
- `Adapter` (adapter.dfy): the class. Its invariant `Valid()` says three things. The log keeps the protocol. The log leaves open exactly the sessions the guards say are open. A held process belongs to an open session.

`JSON.parse` is the constructor parameter `parse`, left uninterpreted. It returns a value or the text of the exception it throws. The existence of the runner's entry file and the configured executable are inputs to `Load` and `Run`.

Behaviour of the code that the model keeps as written:

- One might expect at most one runner process at a time. The code allows a load and a run together: they are guarded independently, and both use the one `runningTestProcess` field. The later spawn overwrites the handle. The exit of either process clears it, and after that `cancel` cannot reach the process still running. `RunHandleLostAfterDiscoveryExit` proves this sequence.
- `'children' in suite` throws a TypeError when the parsed value is null or a primitive. That case takes the same branch as a parse failure: a notification, then "Failed to parse test suit information.". An array has no `children` key, so it gives "No tests found".
- One delivered run line is split on `\r?\n`. The pieces are forwarded until the first one that fails to parse. That piece raises one notification, and the rest of the line is dropped. Lines that `readline` delivers hold no "\n", so each one is a single piece (`SplitSingleLine`).
- A test run without the entry file emits `started` and then a plain `finished`. The "Fang not initialized!" text reaches the run's completion callback, which ignores it, so the run reports no error.
- The trigger subscriptions are not added to `disposables`, so `dispose` does not unsubscribe them. The model's trigger methods stay callable after `Dispose`.

## Model

| member | source | states |
|---|---|---|
| Text.Trim | src/adapter.ts:112 | the result is the slice of the line between a white-space prefix and a white-space suffix, and it neither starts nor ends with white space |
| Text.TrimIdempotent | src/adapter.ts:112 | trimming an already trimmed line changes nothing |
| Text.Split | src/adapter.ts:146 | a line always splits into at least one piece, and no piece contains "\n" |
| Text.JoinSplit | src/adapter.ts:146 | joining the pieces with "\n" gives back the line with each "\r\n" turned into "\n", so splitting loses nothing else |
| Text.SplitSingleLine | src/adapter.ts:72-75 | a line without "\n", as readline delivers it, splits into itself alone |
| Invocation.AdjustPath | src/adapter.ts:57-60 | the adjusted path is a suffix of the workspace path at most one character shorter, and it equals that path exactly when the path starts with "/" or is empty |
| Invocation.RunnerArgs | src/adapter.ts:67 | the vector is the entry file, the mode token, the path, the tests in order, and "--vscode" last |
| Invocation.ArgsRoundTrip | src/adapter.ts:67 | every vector the adapter builds decodes back to its path, mode and tests |
| Invocation.DecodedArgsAreBuilt | src/adapter.ts:67 | any vector that decodes is exactly the vector built from what it decodes to, so the order of the vector is fixed |
| Invocation.RunnerProcess | src/adapter.ts:57-70 | the spawned process runs in the adjusted workspace path, is tagged with its session's mode and not the other one, and its arguments decode to that path, mode and tests |
| Events.DiscoveryOutcome | src/adapter.ts:114-129 | a completion emits exactly one `finished`, last, after at most one notification. Non-empty error text is reported as it is. An empty buffer gives "No tests found". The suite is delivered if and only if the buffer parses to a value with `children`. The notification is raised if and only if parsing or the `children` test throws. A value without `children` gives "No tests found" |
| Events.FirstParseFailure | src/adapter.ts:145-150 | all pieces before the returned index parse, and the piece at it does not, unless it is the end |
| Events.FirstParseFailureUnique | src/adapter.ts:145-150 | the first failing piece is the only index with that property |
| Events.RunLineEvents | src/adapter.ts:144-151 | a line emits the values of the pieces before the first failing piece, in order, then one notification for that piece if there is one, and nothing for later pieces |
| Events.RunLineNotifiesOnce | src/adapter.ts:145-151 | a line raises at most one notification, only as its last event, and every other event forwards a parsed value |
| Events.Forwarded | src/adapter.ts:146-148 | forwarding pieces that all parse emits one event per piece |
| Events.RunLineEventsAsForwarded | src/adapter.ts:145-151 | a line's events are the forwarded prefix up to the first failure, then that failure's notification |
| Events.ChildrenField | src/adapter.ts:119 | the `children` test throws exactly when the parsed value is neither an object nor an array, and it holds exactly for an object with a `children` key |
| Events.ErrorText | src/adapter.ts:49-51 | an error notification is the fixed adapter prefix followed by the message, unchanged |
| Events.CompletionEvents | src/adapter.ts:113-155 | a run's completion emits `finished` alone whatever its error text; a discovery's completion emits one `finished` after at most one notification, then retires the root scope |
| Events.NotInitializedCompletion | src/adapter.ts:62-65 | without the entry file, a discovery ends with "Fang not initialized!" and the root retired, and a run ends with `finished` only |
| Protocol.ReplayAppend | src/adapter.ts:102-155 | replaying a log in two parts is replaying it whole, so each operation's events can be checked on their own |
| Protocol.NeutralKeeps | src/adapter.ts:49-51 | a stretch of notifications, retirements and kills opens and closes no session |
| Protocol.AppendNeutral | src/adapter.ts:49-51 | appending a notification, a retirement or a kill to a protocol-keeping log leaves the open sessions as they were |
| Protocol.CompletionCloses | src/adapter.ts:113-133 | a completion of either kind closes its own session and leaves the other session as it was |
| Protocol.ReplayBalanced | src/adapter.ts:102-155 | over any protocol-keeping stretch of the log, loads started and finished balance up to the open session, and so do runs |
| Protocol.TraceBalanced | src/adapter.ts:102-155 | in the adapter's whole log, every `started` the adapter fires has its own `finished` except the one whose guard is still set; forwarded runner records are not counted |
| Routing.RouteConfigChange | src/adapter.ts:34-38 | a configuration change reloads if and only if it affects `fangluatesting.luaexecutatble`, and it never retires |
| Routing.RouteSave | src/adapter.ts:40-46 | a save reloads if and only if the URI ends with "_test.lua", and retires everything otherwise |
| Routing.SavedTestFileReloads | src/adapter.ts:41 | saving any "<stem>_test.lua" file reloads, in whatever directory it is |
| Adapter.FangLuaTestingAdapter.constructor | src/adapter.ts:11-32 | the three emitters are registered for disposal, and there is no process, no open session, an empty buffer and an empty log |
| Adapter.FangLuaTestingAdapter.SpawnFang | src/adapter.ts:53-70 | without the entry file the session completes with "Fang not initialized!" and no process is stored. Otherwise the runner process is stored as the handle and logged, and the session stays open |
| Adapter.FangLuaTestingAdapter.Complete | src/adapter.ts:113-155 | the completion callback of either session emits that session's completion events and releases only that session's guard |
| Adapter.FangLuaTestingAdapter.Load | src/adapter.ts:102-111 | while loading, nothing changes: no event, no spawn, the buffer is untouched. Otherwise it emits `started`, empties the buffer and spawns in "suite" mode, or finishes at once without the entry file |
| Adapter.FangLuaTestingAdapter.OnDiscoverLine | src/adapter.ts:111-112 | the trimmed line is appended to the buffer and nothing is emitted |
| Adapter.FangLuaTestingAdapter.OnDiscoverFinish | src/adapter.ts:113-133 | the decision tree's outcome, then `retire` of the root, then the load guard released |
| Adapter.FangLuaTestingAdapter.Run | src/adapter.ts:137-144 | while running, nothing changes. Otherwise it emits `started` with the tests before anything else of the run and spawns in "run" mode, or emits `finished` at once without the entry file |
| Adapter.FangLuaTestingAdapter.FireParsedPieces | src/adapter.ts:146-148 | fires each piece's value in order and stops at the first piece that fails, whose index it returns |
| Adapter.FangLuaTestingAdapter.OnRunLine | src/adapter.ts:144-151 | the log grows by exactly the line's events, and the protocol is kept |
| Adapter.FangLuaTestingAdapter.OnRunFinish | src/adapter.ts:152-155 | `finished` is emitted last, whatever the error text, and the run guard is released |
| Adapter.FangLuaTestingAdapter.ProcessExits | src/adapter.ts:89-96 | the handle is released, non-empty stderr is notified, and the session completes with stderr unchanged as its error text, "" when clean |
| Adapter.FangLuaTestingAdapter.SpawnFails | src/adapter.ts:82-87 | the handle is released, the spawn failure is notified, and the session completes with the same text |
| Adapter.FangLuaTestingAdapter.Cancel | src/adapter.ts:164-170 | with no handle it does nothing. Otherwise it kills the held process and releases the handle. The guards never change, and a second cancel is a no-op |
| Adapter.FangLuaTestingAdapter.Dispose | src/adapter.ts:172-178 | cancels, disposes of every registered resource in order, and empties the list |
| Adapter.FangLuaTestingAdapter.OnConfigurationChanged | src/adapter.ts:34-38 | a change to the executable setting behaves as `load`; any other change leaves the adapter as it was |
| Adapter.FangLuaTestingAdapter.OnDocumentSaved | src/adapter.ts:40-46 | saving a test file behaves as `load`; any other save emits only `retire` of all tests |
| Adapter.RunHandleLostAfterDiscoveryExit | src/adapter.ts:70 | with a load and a run both open, the discovery process's exit releases the run process's handle, and the run stays open with no handle to cancel: the run process was spawned, and the `cancel` that follows logs no kill of it |

## Left out

- Spawning the process, `readline` line splitting and stderr accumulation in chunks (src/adapter.ts:69-80) are operating-system and stream I/O. Each line, each completion and each spawn failure is a method call, and stderr arrives whole.
- The `vscode` host (src/adapter.ts:13-15, 49-51, 55): each `fire` and each `showErrorMessage` is an entry in the log. The configured executable is a parameter. Delivery to listeners is not modelled, including the silence of an emitter after it is disposed.
- The `Log` and `console.log` diagnostics (src/adapter.ts:29, 106, 141, 167) are left out because they have no effect on the adapter's state or its events.
- `JSON.parse` (src/adapter.ts:118, 147) is a parameter, and the content of the suite and of run events is never inspected. `JSON.stringify` only feeds the log.
- `existsSync` (src/adapter.ts:62) is a boolean input. `String.prototype.normalize` (src/adapter.ts:57) is treated as the identity.
- Promise settlement (src/adapter.ts:53-54, 86, 95) is not modelled, including the promise that never settles on the fail-fast path.
- The model assumes one completion per session. A line or a completion is only delivered while its session is open. Whether Node fires both `error` and `exit` for one process is outside the model. The code itself does not guarantee this assumption in two places:
  - The completion listens on `exit` (src/adapter.ts:89), and stdio may still be open when `exit` fires. So a discovery can parse a truncated buffer, and run records can arrive after `finished`.
  - `spawn` can throw synchronously, for instance when the executable setting read at src/adapter.ts:55 is unset. Then no handle is stored and no completion comes, so the guard stays set.
- Forwarded runner records (src/adapter.ts:147) go out unchanged on the emitter that carries the adapter's own run `started` and `finished`. A record may itself have type `finished`, so the host can see a second `finished` inside one run. The alternation and the balance in `Protocol.TraceBalanced` hold for the events the adapter fires itself, and the protocol treats forwarded records as opaque.
- The process `kill` signal and its result (src/adapter.ts:166) are logged as `Kill`. The time between the kill and the exit callback is a sequence of separate calls. Nothing is concurrent.
- The `tests`, `testStates` and `retire` getters (src/adapter.ts:21-23) only expose the emitters to the host.
- Events.Forwarded: its contract states only the number of events. Their values are stated by RunLineEvents, which is specified index by index.
