/** The profiler's data collector: it logs agent calls as they happen and, once
    the request is over, gathers the calls recorded by the traced platforms and
    toolboxes into one snapshot that the profiler panel reads. */
module Collector {
  import opened Values
  import opened Sequences

  /** One call recorded by a traced platform: the model, the input and the
      options it was invoked with, and the deferred result object it returned. */
  datatype PlatformCall = PlatformCall(model: Value, input: Value, options: Value, result: Handle)

  /** A platform call as the profiler shows it, every field snapshotted. */
  datatype PlatformCallData = PlatformCallData(model: Data, input: Data, options: Data, result: Data)

  /** One call recorded by a traced toolbox: the tool call, what the tool
      returned, and whatever other keys the toolbox stored beside them. */
  datatype ToolCall = ToolCall(call: Value, result: Value, extra: map<string, Value>)

  /** A tool call as the profiler shows it: `call` and `result` snapshotted,
      the other keys as they were. */
  datatype ToolCallData = ToolCallData(call: Data, result: Data, extra: map<string, Value>)

  /** One agent call logged by the tracing decorator. */
  datatype AgentCall = AgentCall(methodName: string, duration: real, input: Data, result: Data, error: Data)

  /** The snapshot taken by `lateCollect`. */
  datatype Collected = Collected(
    tools: seq<Value>,
    platformCalls: seq<PlatformCallData>,
    toolCalls: seq<ToolCallData>,
    agentCalls: seq<AgentCall>)

  /** What a traced platform exposes to the collector at one moment: its
      recorded calls and its result cache, keyed by result-object identity. */
  datatype PlatformState = PlatformState(calls: seq<PlatformCall>, resultCache: map<Handle, Value>)

  /** The behaviour of the result objects, taken as given: awaiting a deferred
      result yields a result object, and reading a result object's content
      yields a value; either may throw instead (a failure of the provider
      surfaces there). */
  datatype Results = Results(await: Handle -> Fallible<Handle>, content: Handle -> Fallible<Value>)

  /** The observable state of a traced platform (its public `calls` and
      `resultCache`); the platform's own behaviour is not part of this model. */
  class TraceablePlatform {
    var calls: seq<PlatformCall>
    var resultCache: map<Handle, Value>
  }

  /** The observable state of a traced toolbox (its public `calls`). */
  class TraceableToolbox {
    var calls: seq<ToolCall>
  }

  /** The default toolbox, reduced to the tools it currently lists. */
  class Toolbox {
    var tools: seq<Value>
  }

  // ---------------------------------------------------------------------------
  // What lateCollect computes

  /** PHP's `isset($cache[$key])`: the key is present and its value is not null. */
  predicate IsSet(cache: map<Handle, Value>, key: Handle)
  {
    key in cache && cache[key] != Null
  }

  /** The content reported for a platform call: the deferred result is awaited;
      the platform's cached content for the awaited result object is taken when
      it is set, and only otherwise is the object's own content read. */
  function ReportedContent(call: PlatformCall, cache: map<Handle, Value>, results: Results): Fallible<Value>
  {
    match results.await(call.result)
    case Thrown(e) => Thrown(e)
    case Ok(awaited) =>
      if IsSet(cache, awaited) then Ok(cache[awaited]) else results.content(awaited)
  }

  function SnapshotPlatformCall(call: PlatformCall, cache: map<Handle, Value>, results: Results, cloneVar: Value -> Data): Fallible<PlatformCallData>
  {
    match ReportedContent(call, cache, results)
    case Thrown(e) => Thrown(e)
    case Ok(content) =>
      Ok(PlatformCallData(cloneVar(call.model), cloneVar(call.input), cloneVar(call.options), cloneVar(content)))
  }

  /** The snapshot attempts for one platform's calls, in order. */
  function PlatformSnapshots(p: PlatformState, results: Results, cloneVar: Value -> Data): seq<Fallible<PlatformCallData>>
  {
    seq(|p.calls|, k requires 0 <= k < |p.calls| => SnapshotPlatformCall(p.calls[k], p.resultCache, results, cloneVar))
  }

  function PerPlatform(ps: seq<PlatformState>, results: Results, cloneVar: Value -> Data): seq<seq<Fallible<PlatformCallData>>>
  {
    seq(|ps|, i requires 0 <= i < |ps| => PlatformSnapshots(ps[i], results, cloneVar))
  }

  /** `platform_calls`: the snapshots of every platform's calls, platform by
      platform, or the error of the first await or content read that threw. */
  function PlatformCalls(ps: seq<PlatformState>, results: Results, cloneVar: Value -> Data): Fallible<seq<PlatformCallData>>
  {
    Gather(Flatten(PerPlatform(ps, results, cloneVar)))
  }

  /** The number of calls the platforms recorded. */
  function PlatformCallCount(ps: seq<PlatformState>): nat
  {
    if ps == [] then 0 else PlatformCallCount(ps[..|ps| - 1]) + |ps[|ps| - 1].calls|
  }

  function SnapshotToolCall(call: ToolCall, cloneVar: Value -> Data): ToolCallData
  {
    ToolCallData(cloneVar(call.call), cloneVar(call.result), call.extra)
  }

  function ToolboxSnapshots(calls: seq<ToolCall>, cloneVar: Value -> Data): seq<ToolCallData>
  {
    seq(|calls|, k requires 0 <= k < |calls| => SnapshotToolCall(calls[k], cloneVar))
  }

  function PerToolbox(tbs: seq<seq<ToolCall>>, cloneVar: Value -> Data): seq<seq<ToolCallData>>
  {
    seq(|tbs|, i requires 0 <= i < |tbs| => ToolboxSnapshots(tbs[i], cloneVar))
  }

  /** `tool_calls`: the snapshots of every toolbox's calls, toolbox by toolbox. */
  function ToolCalls(tbs: seq<seq<ToolCall>>, cloneVar: Value -> Data): seq<ToolCallData>
  {
    Flatten(PerToolbox(tbs, cloneVar))
  }

  // ---------------------------------------------------------------------------
  // Properties of the snapshot

  lemma {:induction false} PlatformCountIsTotalLength(ps: seq<PlatformState>, results: Results, cloneVar: Value -> Data)
    ensures PlatformCallCount(ps) == TotalLength(PerPlatform(ps, results, cloneVar))
  {
    if ps != [] {
      var n := |ps| - 1;
      PlatformCountIsTotalLength(ps[..n], results, cloneVar);
      assert PerPlatform(ps, results, cloneVar)[..n] == PerPlatform(ps[..n], results, cloneVar);
    }
  }

  /** Call `k` of platform `p` is attempted at the position right after the
      calls of the platforms before `p`. */
  lemma PlatformAttemptAt(ps: seq<PlatformState>, p: nat, k: nat, results: Results, cloneVar: Value -> Data)
    requires p < |ps| && k < |ps[p].calls|
    ensures PlatformCallCount(ps[..p]) + k < |Flatten(PerPlatform(ps, results, cloneVar))|
    ensures Flatten(PerPlatform(ps, results, cloneVar))[PlatformCallCount(ps[..p]) + k]
              == SnapshotPlatformCall(ps[p].calls[k], ps[p].resultCache, results, cloneVar)
  {
    var xss := PerPlatform(ps, results, cloneVar);
    FlattenAt(xss, p, k);
    assert xss[..p] == PerPlatform(ps[..p], results, cloneVar);
    PlatformCountIsTotalLength(ps[..p], results, cloneVar);
  }

  /** When it succeeds, `platform_calls` holds exactly one entry per recorded
      platform call. */
  lemma PlatformCallsCount(ps: seq<PlatformState>, results: Results, cloneVar: Value -> Data)
    ensures PlatformCalls(ps, results, cloneVar).Ok? ==> |PlatformCalls(ps, results, cloneVar).value| == PlatformCallCount(ps)
  {
    GatherOk(Flatten(PerPlatform(ps, results, cloneVar)));
    FlattenLength(PerPlatform(ps, results, cloneVar));
    PlatformCountIsTotalLength(ps, results, cloneVar);
  }

  /** When it succeeds, call `k` of platform `p` is reported right after the
      calls of the platforms before `p`. Its result is the snapshot of the
      platform's cached content for the awaited result object when that entry
      is set (present and not null), and of that object's own content only
      otherwise. */
  lemma PlatformCallAt(ps: seq<PlatformState>, p: nat, k: nat, results: Results, cloneVar: Value -> Data)
    requires p < |ps| && k < |ps[p].calls|
    ensures
      var r := PlatformCalls(ps, results, cloneVar);
      var call, cache := ps[p].calls[k], ps[p].resultCache;
      var at := PlatformCallCount(ps[..p]) + k;
      r.Ok? ==>
        && at < |r.value|
        && results.await(call.result).Ok?
        && var awaited := results.await(call.result).value;
           (!IsSet(cache, awaited) ==> results.content(awaited).Ok?)
           && r.value[at]
              == PlatformCallData(cloneVar(call.model), cloneVar(call.input), cloneVar(call.options),
                                  cloneVar(if IsSet(cache, awaited) then cache[awaited] else results.content(awaited).value))
  {
    var attempts := Flatten(PerPlatform(ps, results, cloneVar));
    PlatformAttemptAt(ps, p, k, results, cloneVar);
    GatherOk(attempts);
  }

  /** `lateCollect` fails exactly when awaiting some platform call's result, or
      reading its content on a cache miss, throws. It then fails with the error
      of the first such call, in platform order and call order: every call
      before it went through. */
  lemma PlatformCallsFail(ps: seq<PlatformState>, results: Results, cloneVar: Value -> Data)
    ensures PlatformCalls(ps, results, cloneVar).Thrown? <==>
      exists p, k :: 0 <= p < |ps| && 0 <= k < |ps[p].calls| && ReportedContent(ps[p].calls[k], ps[p].resultCache, results).Thrown?
    ensures PlatformCalls(ps, results, cloneVar).Thrown? ==>
      exists p, k :: 0 <= p < |ps| && 0 <= k < |ps[p].calls|
        && ReportedContent(ps[p].calls[k], ps[p].resultCache, results) == Thrown(PlatformCalls(ps, results, cloneVar).error)
        && (forall q, m :: 0 <= q < |ps| && 0 <= m < |ps[q].calls| && (q < p || (q == p && m < k))
              ==> ReportedContent(ps[q].calls[m], ps[q].resultCache, results).Ok?)
  {
    var xss := PerPlatform(ps, results, cloneVar);
    var attempts := Flatten(xss);
    GatherOk(attempts);
    PlatformCountIsTotalLength(ps, results, cloneVar);
    if PlatformCalls(ps, results, cloneVar).Thrown? {
      GatherThrown(attempts);
      var n :| 0 <= n < |attempts| && attempts[n] == Thrown(Gather(attempts).error) && forall j :: 0 <= j < n ==> attempts[j].Ok?;
      FlattenIndex(xss, n);
      var p, k :| 0 <= p < |xss| && 0 <= k < |xss[p]| && n == TotalLength(xss[..p]) + k && attempts[n] == xss[p][k];
      forall q, m | 0 <= q < |ps| && 0 <= m < |ps[q].calls| && (q < p || (q == p && m < k))
        ensures ReportedContent(ps[q].calls[m], ps[q].resultCache, results).Ok?
      {
        FlattenAt(xss, q, m);
        if q < p {
          OffsetBefore(xss, q, m, p);
        }
      }
    } else {
      forall p, k | 0 <= p < |ps| && 0 <= k < |ps[p].calls|
        ensures ReportedContent(ps[p].calls[k], ps[p].resultCache, results).Ok?
      {
        FlattenAt(xss, p, k);
      }
    }
  }

  /** When every awaited result has a set entry in its platform's cache, the
      snapshot does not depend on the result objects' contents at all: no
      content is read a second time. */
  lemma CacheHitsReadNoContent(ps: seq<PlatformState>, await: Handle -> Fallible<Handle>,
                               content1: Handle -> Fallible<Value>, content2: Handle -> Fallible<Value>, cloneVar: Value -> Data)
    requires forall i, k :: 0 <= i < |ps| && 0 <= k < |ps[i].calls| ==>
      await(ps[i].calls[k].result).Ok? && IsSet(ps[i].resultCache, await(ps[i].calls[k].result).value)
    ensures PlatformCalls(ps, Results(await, content1), cloneVar) == PlatformCalls(ps, Results(await, content2), cloneVar)
  {
    var r1, r2 := Results(await, content1), Results(await, content2);
    forall i | 0 <= i < |ps|
      ensures PlatformSnapshots(ps[i], r1, cloneVar) == PlatformSnapshots(ps[i], r2, cloneVar)
    {
      assert forall k :: 0 <= k < |ps[i].calls| ==>
        ReportedContent(ps[i].calls[k], ps[i].resultCache, r1) == ReportedContent(ps[i].calls[k], ps[i].resultCache, r2);
    }
    assert PerPlatform(ps, r1, cloneVar) == PerPlatform(ps, r2, cloneVar);
  }

  /** `tool_calls` holds exactly one entry per recorded tool call. */
  lemma ToolCallsCount(tbs: seq<seq<ToolCall>>, cloneVar: Value -> Data)
    ensures |ToolCalls(tbs, cloneVar)| == TotalLength(tbs)
  {
    FlattenLength(PerToolbox(tbs, cloneVar));
    TotalLengthPointwise(PerToolbox(tbs, cloneVar), tbs);
  }

  /** Call `k` of toolbox `t` is reported right after the calls of the
      toolboxes before `t`, with `call` and `result` snapshotted and every
      other key kept. */
  lemma ToolCallAt(tbs: seq<seq<ToolCall>>, t: nat, k: nat, cloneVar: Value -> Data)
    requires t < |tbs| && k < |tbs[t]|
    ensures TotalLength(tbs[..t]) + k < |ToolCalls(tbs, cloneVar)|
    ensures ToolCalls(tbs, cloneVar)[TotalLength(tbs[..t]) + k]
              == ToolCallData(cloneVar(tbs[t][k].call), cloneVar(tbs[t][k].result), tbs[t][k].extra)
  {
    var xss := PerToolbox(tbs, cloneVar);
    FlattenAt(xss, t, k);
    assert xss[..t] == PerToolbox(tbs[..t], cloneVar);
    TotalLengthPointwise(xss[..t], tbs[..t]);
  }

  /** Taking one more platform appends that platform's attempts. */
  lemma PerPlatformStep(ps: seq<PlatformState>, i: nat, results: Results, cloneVar: Value -> Data)
    requires i < |ps|
    ensures Flatten(PerPlatform(ps[..i + 1], results, cloneVar))
         == Flatten(PerPlatform(ps[..i], results, cloneVar)) + PlatformSnapshots(ps[i], results, cloneVar)
  {
    assert PerPlatform(ps[..i + 1], results, cloneVar)
        == PerPlatform(ps[..i], results, cloneVar) + [PlatformSnapshots(ps[i], results, cloneVar)];
    FlattenSnoc(PerPlatform(ps[..i], results, cloneVar), PlatformSnapshots(ps[i], results, cloneVar));
  }

  /** Taking one more toolbox appends that toolbox's snapshots. */
  lemma PerToolboxStep(tbs: seq<seq<ToolCall>>, i: nat, cloneVar: Value -> Data)
    requires i < |tbs|
    ensures Flatten(PerToolbox(tbs[..i + 1], cloneVar)) == Flatten(PerToolbox(tbs[..i], cloneVar)) + ToolboxSnapshots(tbs[i], cloneVar)
  {
    assert PerToolbox(tbs[..i + 1], cloneVar) == PerToolbox(tbs[..i], cloneVar) + [ToolboxSnapshots(tbs[i], cloneVar)];
    FlattenSnoc(PerToolbox(tbs[..i], cloneVar), ToolboxSnapshots(tbs[i], cloneVar));
  }

  // ---------------------------------------------------------------------------
  // The collector

  class DataCollector {
    const platforms: seq<TraceablePlatform>
    const defaultToolbox: Toolbox
    const toolboxes: seq<TraceableToolbox>
    /** VarDumper's `cloneVar`, taken as given. */
    const cloneVar: Value -> Data

    /** The agent calls logged so far. */
    var collectedCalls: seq<AgentCall>
    /** The snapshot of the last `lateCollect`; None stands for PHP's empty
        `$data` array (before any `lateCollect` and after `reset`). */
    var data: Option<Collected>

    constructor (platforms: seq<TraceablePlatform>, defaultToolbox: Toolbox, toolboxes: seq<TraceableToolbox>, cloneVar: Value -> Data)
      ensures this.platforms == platforms && this.defaultToolbox == defaultToolbox
      ensures this.toolboxes == toolboxes && this.cloneVar == cloneVar
      ensures collectedCalls == [] && data == None
      ensures GetPlatformCalls() == [] && GetTools() == [] && GetToolCalls() == [] && GetAgentCalls() == []
    {
      this.platforms := platforms;
      this.defaultToolbox := defaultToolbox;
      this.toolboxes := toolboxes;
      this.cloneVar := cloneVar;
      collectedCalls := [];
      data := None;
    }

    /** What the traced platforms currently expose. */
    function PlatformStates(): seq<PlatformState>
      reads platforms
    {
      seq(|platforms|, i requires 0 <= i < |platforms| reads platforms => PlatformState(platforms[i].calls, platforms[i].resultCache))
    }

    /** The calls the traced toolboxes currently expose, toolbox by toolbox. */
    function ToolboxCalls(): seq<seq<ToolCall>>
      reads toolboxes
    {
      seq(|toolboxes|, i requires 0 <= i < |toolboxes| reads toolboxes => toolboxes[i].calls)
    }

    /** The collector's `collect` hook does nothing. */
    method Collect(request: Value, response: Value, exception: Value)
      ensures unchanged(this)
    {
    }

    /** The platform half of `lateCollect`: every platform's calls in turn,
        each result awaited and its content taken from the platform's cache
        when set there; the first await or content read that throws ends it. */
    method SnapshotPlatforms(results: Results) returns (r: Fallible<seq<PlatformCallData>>)
      ensures r == PlatformCalls(PlatformStates(), results, cloneVar)
    {
      ghost var xss := PerPlatform(PlatformStates(), results, cloneVar);
      var platformCalls: seq<PlatformCallData> := [];
      var i := 0;
      while i < |platforms|
        invariant 0 <= i <= |platforms|
        invariant Gather(Flatten(xss[..i])) == Ok(platformCalls)
      {
        var platform := platforms[i];
        var calls := platform.calls;
        var j := 0;
        NextList(xss, i);
        assert xss[i] == PlatformSnapshots(PlatformState(calls, platform.resultCache), results, cloneVar);
        while j < |calls|
          invariant 0 <= j <= |calls|
          invariant xss[i] == PlatformSnapshots(PlatformState(calls, platform.resultCache), results, cloneVar)
          invariant Gather(Flatten(xss[..i]) + xss[i][..j]) == Ok(platformCalls)
        {
          var call := calls[j];
          var content: Value;
          var awaited := results.await(call.result);
          if awaited.Thrown? {
            FirstFailureWins(xss, i, j, platformCalls);
            return Thrown(awaited.error);
          }
          if IsSet(platform.resultCache, awaited.value) {
            content := platform.resultCache[awaited.value];
          } else {
            var read := results.content(awaited.value);
            if read.Thrown? {
              FirstFailureWins(xss, i, j, platformCalls);
              return Thrown(read.error);
            }
            content := read.value;
          }
          var entry := PlatformCallData(cloneVar(call.model), cloneVar(call.input), cloneVar(call.options), cloneVar(content));
          assert xss[i][j] == Ok(entry);
          GatherNext(xss, i, j, platformCalls);
          platformCalls := platformCalls + [entry];
          j := j + 1;
        }
        NextList(xss, i);
        i := i + 1;
      }
      assert xss[..i] == xss;
      r := Ok(platformCalls);
    }

    /** The toolbox half of `lateCollect`: every toolbox's calls in turn. */
    method SnapshotToolboxes() returns (toolCalls: seq<ToolCallData>)
      ensures toolCalls == ToolCalls(ToolboxCalls(), cloneVar)
    {
      ghost var tbs := ToolboxCalls();
      toolCalls := [];
      var i := 0;
      while i < |toolboxes|
        invariant 0 <= i <= |toolboxes|
        invariant toolCalls == Flatten(PerToolbox(tbs[..i], cloneVar))
      {
        ghost var before := toolCalls;
        var calls := toolboxes[i].calls;
        var j := 0;
        while j < |calls|
          invariant 0 <= j <= |calls|
          invariant toolCalls == before + ToolboxSnapshots(calls[..j], cloneVar)
        {
          var call := calls[j];
          toolCalls := toolCalls + [ToolCallData(cloneVar(call.call), cloneVar(call.result), call.extra)];
          j := j + 1;
        }
        assert calls[..j] == calls;
        PerToolboxStep(tbs, i, cloneVar);
        i := i + 1;
      }
      assert tbs[..i] == tbs;
    }

    /** On success the snapshot is replaced; when awaiting a result or reading
        its content throws, the error propagates and the previous snapshot is
        kept. */
    method LateCollect(results: Results) returns (outcome: Fallible<()>)
      modifies this`data
      ensures collectedCalls == old(collectedCalls)
      ensures outcome.Thrown? <==> PlatformCalls(PlatformStates(), results, cloneVar).Thrown?
      ensures outcome.Thrown? ==> outcome.error == PlatformCalls(PlatformStates(), results, cloneVar).error && data == old(data)
      ensures outcome.Ok? ==>
        && data == Some(Collected(defaultToolbox.tools,
                                  PlatformCalls(PlatformStates(), results, cloneVar).value,
                                  ToolCalls(ToolboxCalls(), cloneVar),
                                  collectedCalls))
        && GetAgentCalls() == collectedCalls
        && GetTools() == defaultToolbox.tools
    {
      var platformCalls := SnapshotPlatforms(results);
      if platformCalls.Thrown? {
        return Thrown(platformCalls.error);
      }
      var toolCalls := SnapshotToolboxes();
      data := Some(Collected(defaultToolbox.tools, platformCalls.value, toolCalls, collectedCalls));
      outcome := Ok(());
    }

    method CollectAgentCall(methodName: string, duration: real, input: Value, result: Value, error: Value)
      modifies this`collectedCalls
      ensures collectedCalls == old(collectedCalls) + [AgentCall(methodName, duration, cloneVar(input), cloneVar(result), cloneVar(error))]
      ensures data == old(data)
    {
      collectedCalls := collectedCalls + [AgentCall(methodName, duration, cloneVar(input), cloneVar(result), cloneVar(error))];
    }

    function GetPlatformCalls(): (r: seq<PlatformCallData>)
      reads this
      ensures data.None? ==> r == []
      ensures data.Some? ==> r == data.value.platformCalls
    {
      if data.Some? then data.value.platformCalls else []
    }

    function GetTools(): (r: seq<Value>)
      reads this
      ensures data.None? ==> r == []
      ensures data.Some? ==> r == data.value.tools
    {
      if data.Some? then data.value.tools else []
    }

    function GetToolCalls(): (r: seq<ToolCallData>)
      reads this
      ensures data.None? ==> r == []
      ensures data.Some? ==> r == data.value.toolCalls
    {
      if data.Some? then data.value.toolCalls else []
    }

    function GetAgentCalls(): (r: seq<AgentCall>)
      reads this
      ensures data.None? ==> r == []
      ensures data.Some? ==> r == data.value.agentCalls
    {
      if data.Some? then data.value.agentCalls else []
    }

    method Reset()
      modifies this`data, this`collectedCalls
      ensures data == None && collectedCalls == []
      ensures GetPlatformCalls() == [] && GetTools() == [] && GetToolCalls() == [] && GetAgentCalls() == []
    {
      data := None;
      collectedCalls := [];
    }
  }
}
