/** renderFile's render loop: poll the stream state, stop on STOPPED or
    ERROR, render one block, fail on a render error or a short block, write the
    full block, repeat. The engine is a script of replies, one Poll per
    iteration. */
module RenderLoop {
  import opened Eas

  /** The engine's replies during one iteration: EAS_State's result and state,
      then EAS_Render's result and frame count (unused when the iteration
      ends before rendering). */
  datatype Poll = Poll(stateResult: int, state: EngineState, render: RenderReply)

  /** States that end playback. */
  predicate Finished(s: EngineState) {
    s == Stopped || s == Error
  }

  /** Whether this iteration leaves the loop, by one of its four breaks. */
  predicate Exits(p: Poll, mix: int) {
    || !Succeeded(p.stateResult)
    || Finished(p.state)
    || !Succeeded(p.render.result)
    || p.render.count != mix
  }

  /** The break that leaves `ok` untouched: the state query worked and
      reported STOPPED or ERROR. */
  predicate CleanExit(p: Poll) {
    Succeeded(p.stateResult) && Finished(p.state)
  }

  /** The script ends the loop at some point: some poll exits. */
  predicate Ends(polls: seq<Poll>, mix: int) {
    0 < |polls| && (Exits(polls[0], mix) || Ends(polls[1..], mix))
  }

  /** The loop succeeds: the first iteration that leaves it does so cleanly. */
  predicate LoopSucceeds(polls: seq<Poll>, mix: int) {
    if |polls| == 0 then false
    else if Exits(polls[0], mix) then CleanExit(polls[0])
    else LoopSucceeds(polls[1..], mix)
  }

  /** The calls of `n` iterations that each wrote a block. */
  function FullIterations(n: nat, c: LibConfig): seq<Call> {
    if n == 0 then []
    else [QueryState, RenderFrames(c.mixBufferSize), WriteSamples(BlockSamples(c))] + FullIterations(n - 1, c)
  }

  /** The calls of the iteration that leaves the loop. */
  function LastIteration(p: Poll, c: LibConfig): seq<Call> {
    if !Succeeded(p.stateResult) || Finished(p.state) then [QueryState]
    else [QueryState, RenderFrames(c.mixBufferSize)]
  }

  /** Calls the loop may issue. */
  predicate LoopCall(call: Call) {
    call.QueryState? || call.RenderFrames? || call.WriteSamples?
  }

  /** The outcome of the loop: whether `ok` is still EXIT_SUCCESS, how many
      blocks were written, and the calls issued. */
  datatype LoopRun = LoopRun(ok: bool, iterations: nat, calls: seq<Call>)

  function Loop(polls: seq<Poll>, c: LibConfig): (r: LoopRun)
    requires Ends(polls, c.mixBufferSize)
    ensures r.iterations < |polls| && Exits(polls[r.iterations], c.mixBufferSize)
    ensures forall j :: 0 <= j < r.iterations ==> !Exits(polls[j], c.mixBufferSize)
    ensures r.ok <==> CleanExit(polls[r.iterations])
    ensures r.calls == FullIterations(r.iterations, c) + LastIteration(polls[r.iterations], c)
    decreases |polls|
  {
    var p := polls[0];
    if Exits(p, c.mixBufferSize) then
      LoopRun(CleanExit(p), 0, LastIteration(p, c))
    else
      var rest := Loop(polls[1..], c);
      assert forall j :: 1 <= j <= rest.iterations ==> polls[j] == polls[1..][j - 1];
      LoopRun(rest.ok, rest.iterations + 1,
              [QueryState, RenderFrames(c.mixBufferSize), WriteSamples(BlockSamples(c))] + rest.calls)
  }

  /** Each written block is a whole block: `n` full iterations write `n`
      times, each time mixBufferSize * numChannels samples. */
  lemma {:induction false} FullIterationsWrite(n: nat, c: LibConfig)
    ensures CountWrites(FullIterations(n, c)) == n
    ensures forall k :: 0 <= k < |FullIterations(n, c)| ==> LoopCall(FullIterations(n, c)[k])
    ensures forall k :: 0 <= k < |FullIterations(n, c)| && FullIterations(n, c)[k].WriteSamples? ==>
              FullIterations(n, c)[k].samples == BlockSamples(c)
  {
    if n > 0 {
      FullIterationsWrite(n - 1, c);
      var head := [QueryState, RenderFrames(c.mixBufferSize), WriteSamples(BlockSamples(c))];
      CountWritesAppend(head, FullIterations(n - 1, c));
      CountWritesAppend([QueryState, RenderFrames(c.mixBufferSize)], [WriteSamples(BlockSamples(c))]);
      CountWritesAppend([QueryState], [RenderFrames(c.mixBufferSize)]);
      CountWritesSingle(QueryState);
      CountWritesSingle(RenderFrames(c.mixBufferSize));
      CountWritesSingle(WriteSamples(BlockSamples(c)));
      assert head == [QueryState, RenderFrames(c.mixBufferSize)] + [WriteSamples(BlockSamples(c))];
      assert [QueryState, RenderFrames(c.mixBufferSize)] == [QueryState] + [RenderFrames(c.mixBufferSize)];
    }
  }

  /** The iteration that leaves the loop writes nothing. */
  lemma LastIterationWritesNothing(p: Poll, c: LibConfig)
    ensures CountWrites(LastIteration(p, c)) == 0
    ensures forall k :: 0 <= k < |LastIteration(p, c)| ==> LoopCall(LastIteration(p, c)[k]) && !LastIteration(p, c)[k].WriteSamples?
  {
    CountWritesSingle(QueryState);
    CountWritesSingle(RenderFrames(c.mixBufferSize));
    CountWritesAppend([QueryState], [RenderFrames(c.mixBufferSize)]);
    assert [QueryState, RenderFrames(c.mixBufferSize)] == [QueryState] + [RenderFrames(c.mixBufferSize)];
  }

  /** What `n` written blocks followed by the exiting iteration issue: `n`
      writes, each of a whole block, only loop calls, and no write last. */
  lemma IterationsWrite(n: nat, p: Poll, c: LibConfig)
    ensures var calls := FullIterations(n, c) + LastIteration(p, c);
            && CountWrites(calls) == n
            && (forall k :: 0 <= k < |calls| ==> LoopCall(calls[k]))
            && (forall k :: 0 <= k < |calls| && calls[k].WriteSamples? ==> calls[k].samples == BlockSamples(c))
            && !calls[|calls| - 1].WriteSamples?
  {
    var full := FullIterations(n, c);
    var last := LastIteration(p, c);
    var calls := full + last;
    FullIterationsWrite(n, c);
    LastIterationWritesNothing(p, c);
    CountWritesAppend(full, last);
    forall k | 0 <= k < |calls|
      ensures LoopCall(calls[k])
      ensures calls[k].WriteSamples? ==> calls[k].samples == BlockSamples(c)
    {
      if k < |full| {
        assert calls[k] == full[k];
      } else {
        assert calls[k] == last[k - |full|];
      }
    }
    assert calls[|calls| - 1] == last[|last| - 1];
  }

  /** The loop's writes: exactly one per iteration that rendered a full block,
      each of mixBufferSize * numChannels samples, and none in the iteration
      that leaves the loop, whatever the reason. */
  lemma LoopWrites(polls: seq<Poll>, c: LibConfig)
    requires Ends(polls, c.mixBufferSize)
    ensures var r := Loop(polls, c);
            && CountWrites(r.calls) == r.iterations
            && (forall k :: 0 <= k < |r.calls| ==> LoopCall(r.calls[k]))
            && (forall k :: 0 <= k < |r.calls| && r.calls[k].WriteSamples? ==> r.calls[k].samples == BlockSamples(c))
            && !r.calls[|r.calls| - 1].WriteSamples?
  {
    var r := Loop(polls, c);
    IterationsWrite(r.iterations, polls[r.iterations], c);
  }

  /** The loop succeeds exactly when its first exit is a clean one. */
  lemma {:induction false} LoopOkIffFirstExitClean(polls: seq<Poll>, c: LibConfig)
    requires Ends(polls, c.mixBufferSize)
    ensures Loop(polls, c).ok <==> LoopSucceeds(polls, c.mixBufferSize)
    decreases |polls|
  {
    if !Exits(polls[0], c.mixBufferSize) {
      LoopOkIffFirstExitClean(polls[1..], c);
    }
  }
}
