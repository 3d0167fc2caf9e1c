# Profiler of the AI bundle: data collector and agent tracing, in Dafny

This project models the two pieces of the AI bundle's profiler that hold logic:

- `DataCollector` (module `Collector`). It keeps an append-only log of agent
  calls. Its late-collect step gathers into one snapshot:
  - the calls recorded by every traced platform, platform by platform;
  - the calls recorded by every traced toolbox, toolbox by toolbox;
  - the default toolbox's tools;
  - the agent-call log as it stands at that moment.

  For each platform call, the deferred result is awaited. The reported result
  is the platform's cached content for the awaited result object when that
  cache entry is set (present and not null, as PHP's `isset` tests it). Only
  otherwise is it the content read from that result object. When an await or a
  content read throws, the error propagates out of the late-collect step and
  the previous snapshot stays in place. Getters fall back to empty lists, and
  `reset` clears the snapshot and the log.
- `TraceableAgent` (module `Tracing`). This decorator forwards `call` to the
  agent it wraps with the same message bag and options (an empty options array
  by default). It hands back that agent's outcome unchanged, whether a returned
  result or a thrown error. It logs exactly one record with the collector on
  either path, after whatever the wrapped agent's own run logged there. It
  forwards `reset` only to an agent that implements one.

Module `Values` holds the PHP values the two pass around:
- `Value`: null, string, object by identity, or keyed array;
- `Data`: VarDumper's snapshot type, left abstract;
- `Option`, and `Fallible`: a value or a thrown object.

Module `Sequences` holds the two shapes of the late-collect loops:
- `Flatten`: lists appended list after list, with where each element lands;
- `Gather`: a run of steps that may throw, which stops at the first throw.

How the source's features are represented:
- An exception becomes a `Fallible`: `Ok(value)` or `Thrown(error)`.
- PHP's empty `$data` array becomes `data == None`.
- The four getters (`GetPlatformCalls`, `GetTools`, `GetToolCalls`,
  `GetAgentCalls`) are functions of the collector's state.
- The collaborators the collector reads are classes holding only their
  observable state: `TraceablePlatform` (`calls`, `resultCache`),
  `TraceableToolbox` (`calls`) and `Toolbox` (`tools`). Their behaviour is not
  part of this model.
- `cloneVar` is a function field given to the collector, with any behaviour.
- The result objects' `await` and `getContent` are a `Results` value given to
  `LateCollect`. Either may throw.
- The wrapped agent is `Tracing.Agent`. It has a state and a function giving
  the outcome, the next state and the records logged by a call. It optionally
  has a reset function: `None` means it does not implement `ResetInterface`.
  Its undecorated `Call` is the reference against which the decorator's
  transparency is stated.

`reset` does not clear the platforms' result caches: it clears only `data` and
`collectedCalls` (src/ai-bundle/src/Profiler/DataCollector.php:154-158), and
the caches belong to the traced platforms.

## Model

| member | source | states |
|---|---|---|
| `Collector.DataCollector.constructor` | src/ai-bundle/src/Profiler/DataCollector.php:43-56 | The collector keeps the given platforms, default toolbox and toolboxes. It starts with an empty call log and no snapshot, so before any late collect every getter returns an empty list. |
| `Collector.DataCollector.Collect` | src/ai-bundle/src/Profiler/DataCollector.php:58-60 | `collect` changes no state. |
| `Collector.DataCollector.LateCollect` | src/ai-bundle/src/Profiler/DataCollector.php:62-99 | It fails exactly when the platform snapshot fails, with the same error, and then the previous snapshot is kept: `data` is assigned only after both loops. On success, the snapshot's tools are the default toolbox's tools, its platform calls are `PlatformCalls` of what the platforms expose now, its tool calls are `ToolCalls` of what the toolboxes expose now, and its agent calls are the call log as it is now. The call log is unchanged either way. |
| `Collector.DataCollector.SnapshotPlatforms` | src/ai-bundle/src/Profiler/DataCollector.php:64-82 | The nested loops over the platforms and their calls build exactly `PlatformCalls` of what the platforms expose: every snapshot on success, and on the first await or content read that throws, that error. Nothing changes. |
| `Collector.DataCollector.SnapshotToolboxes` | src/ai-bundle/src/Profiler/DataCollector.php:84-91 | The nested loops over the toolboxes and their calls build exactly `ToolCalls` of what the toolboxes expose. Nothing changes. |
| `Collector.PlatformCallsCount` | src/ai-bundle/src/Profiler/DataCollector.php:64-82 | When it succeeds, `platform_calls` has one entry per recorded platform call: its length is the sum of the platforms' call counts. |
| `Collector.PlatformCallAt` | src/ai-bundle/src/Profiler/DataCollector.php:64-82 | When it succeeds, call k of platform p sits at the offset equal to the number of calls of the platforms before p, plus k. Its await returned, its model, input and options are snapshotted, and its result is the snapshot of the platform's cached content for the awaited result object when that cache entry is set (present and not null). Only otherwise is it the snapshot of that object's own content, whose read then returned. |
| `Collector.PlatformCallsFail` | src/ai-bundle/src/Profiler/DataCollector.php:67-73 | The platform snapshot fails exactly when some call's await, or its content read on a cache miss, throws. It then fails with the error of the first such call in platform order and call order, and every call before it went through. |
| `Collector.CacheHitsReadNoContent` | src/ai-bundle/src/Profiler/DataCollector.php:68-73 | When every await returns and every awaited result has a set entry in its platform's cache, `platform_calls` is the same whatever the result objects' contents are, including whether reading them would throw: a cached result is never read again. |
| `Collector.ToolCallsCount` | src/ai-bundle/src/Profiler/DataCollector.php:84-91 | `tool_calls` has one entry per recorded tool call across all toolboxes. |
| `Collector.ToolCallAt` | src/ai-bundle/src/Profiler/DataCollector.php:84-91 | Call k of toolbox t sits right after the calls of the toolboxes before t. Its `call` and `result` are snapshotted and its other keys are kept unchanged. |
| `Sequences.FlattenAt` | src/ai-bundle/src/Profiler/DataCollector.php:84-91 | In lists appended list after list, element k of list i sits after all the elements of lists 0 to i-1. |
| `Sequences.FlattenIndex` | src/ai-bundle/src/Profiler/DataCollector.php:84-91 | Conversely, every position of the appended lists holds element k of some list i, at exactly that offset. |
| `Sequences.GatherOk` | src/ai-bundle/src/Profiler/DataCollector.php:64-82 | A run of steps that may throw succeeds exactly when every step returns, and then it yields the steps' values in order. |
| `Sequences.GatherThrown` | src/ai-bundle/src/Profiler/DataCollector.php:64-82 | A run that fails fails with the error of a step that threw, and every step before that one returned. |
| `Sequences.FirstFailureWins` | src/ai-bundle/src/Profiler/DataCollector.php:64-82 | A step that throws after every earlier step returned ends the whole run with its error, whatever the later steps would do. |
| `Collector.DataCollector.CollectAgentCall` | src/ai-bundle/src/Profiler/DataCollector.php:101-110 | Exactly one entry is appended at the end of the call log. It holds the given method name and duration and snapshots of the input, result and error. Earlier entries and the snapshot are unchanged, so `GetAgentCalls` does not change until the next late collect. |
| `Collector.DataCollector.GetPlatformCalls` | src/ai-bundle/src/Profiler/DataCollector.php:125-128 | The platform calls of the last snapshot, or an empty list when there is none (before any late collect and after a reset). |
| `Collector.DataCollector.GetTools` | src/ai-bundle/src/Profiler/DataCollector.php:133-136 | The tools of the last snapshot, or an empty list when there is none. |
| `Collector.DataCollector.GetToolCalls` | src/ai-bundle/src/Profiler/DataCollector.php:141-144 | The tool calls of the last snapshot, or an empty list when there is none. |
| `Collector.DataCollector.GetAgentCalls` | src/ai-bundle/src/Profiler/DataCollector.php:149-152 | The agent calls of the last snapshot, or an empty list when there is none. Calls logged since the last late collect are not reported. |
| `Collector.DataCollector.Reset` | src/ai-bundle/src/Profiler/DataCollector.php:154-158 | The snapshot and the call log are empty afterwards, and every getter returns an empty list. |
| `Tracing.TraceableAgent.constructor` | src/ai-bundle/src/Profiler/TraceableAgent.php:21-25 | The decorator holds the wrapped agent and the shared collector. |
| `Tracing.TraceableAgent.Call` | src/ai-bundle/src/Profiler/TraceableAgent.php:27-47 | The options default to an empty array. The outcome and the wrapped agent's new state are exactly what the undecorated call gives for the same message bag and options: a returned result is passed back and a thrown error is rethrown unchanged. The collector's log becomes the old log, then whatever the wrapped agent's run logged (nested traced agents), then exactly one record with method `call`. On success that record holds the result and a null error; on failure a null result and the error. Its input is the message bag and its duration is the elapsed clock time. The collector's snapshot is unchanged. |
| `Tracing.TraceableAgent.Reset` | src/ai-bundle/src/Profiler/TraceableAgent.php:49-54 | The wrapped agent is reset exactly when it implements a reset; otherwise nothing changes. The collector is untouched. |
| `Tracing.TraceableAgent.GetName` | src/ai-bundle/src/Profiler/TraceableAgent.php:56-59 | The name is always `TraceableAgent`. |

## Left out

- Timing: the clock readings are parameters of `TraceableAgent.Call`, and durations are exact reals. `microtime` and float rounding are not modelled.
- `cloneVar` and VarDumper's `Data` are uninterpreted. Snapshotting is a function, so two snapshots of the same value are equal: the identity of `Data` objects is not modelled.
- `await` and `getContent` are functions of the result object's identity: each either returns or throws, the same way every time. That a result can be consumed only once is not modelled; only the cache's precedence and the propagation of a throw are.
- `cloneVar`, the toolboxes and the default toolbox's `getTools` are taken not to throw; only `await` and `getContent` may.
- The behaviour of `TraceablePlatform`, `TraceableToolbox`, the default toolbox and the agent loop is not part of this model. Their observable state is given.
- `getTemplate` and the `Request`/`Response` parameters of `collect` are framework wiring. The parameters are opaque values.
- The conversion of iterables with `iterator_to_array` in the constructor is left out: platforms and toolboxes are given as sequences.
- The wrapped agent is deterministic given its state, messages and options. Its internals are not modelled, beyond the records its run appends to the shared collector's log; concurrency and locking around the collector are not modelled either, and the source has none.
