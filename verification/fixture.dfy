/** The test fixture (SonivoxTest): SetUp's checks and buffer sizing, TearDown,
    the seekToLocation and renderAudio helpers, and the DecodeTest loop that
    renders four blocks per write. The engine and the operating system reply
    from a script. A failed ASSERT ends the function it is in; the model
    reports it as a failed step or a failed test. */
module Fixture {
  import opened Eas
  import RenderFile
  import RenderLoop

  /** Blocks DecodeTest renders into one buffer before each write. */
  const NumBuffersToCombine: int := 4

  /** How far past the play time the seek test asks to go. */
  const SeekBeyondPlayTimeOffsetMs: int := 10

  /** A test's parameters: the play time, channel count and sample rate the
      input file is expected to have. */
  datatype Params = Params(playTimeMs: nat, channels: int, sampleRate: int)

  /** The replies SetUp receives, in order. Handle flags say whether the call
      left a non-null handle behind. */
  datatype SetUpScript = SetUpScript(
    fd: int, statOk: bool,
    initResult: int, dataHandle: bool,
    openResult: int, streamHandle: bool,
    prepareResult: int,
    metaResult: int, playTimeMs: int,
    location: LocationReply,
    config: Option<LibConfig>)

  /** SetUp's ASSERTs, one step per call with the checks on its reply. */
  function SetUpSteps(sc: SetUpScript, p: Params): (steps: seq<Step>)
    ensures |steps| == 8
  {
    [ Step(OpenFd, 0 <= sc.fd),
      Step(StatFile, sc.statOk),
      Step(Init, Succeeded(sc.initResult) && sc.dataHandle),
      Step(OpenStream, Succeeded(sc.openResult) && sc.streamHandle),
      Step(PrepareStream, Succeeded(sc.prepareResult)),
      Step(ParseMetaData, Succeeded(sc.metaResult) && sc.playTimeMs == p.playTimeMs),
      Step(GetLocation, Succeeded(sc.location.result) && sc.location.ms == 0),
      Step(QueryConfig, sc.config.Some? && sc.config.value.mixBufferSize > 0 && sc.config.value.numChannels > 0) ]
  }

  /** Every step of SetUp succeeds exactly when every check passes. */
  lemma SetUpStepsOk(sc: SetUpScript, p: Params)
    ensures (forall i :: 0 <= i < |SetUpSteps(sc, p)| ==> SetUpSteps(sc, p)[i].ok) <==> SetUpPasses(sc, p)
  {
    var steps := SetUpSteps(sc, p);
    if forall i :: 0 <= i < |steps| ==> steps[i].ok {
      assert steps[0].ok && steps[1].ok && steps[2].ok && steps[3].ok;
      assert steps[4].ok && steps[5].ok && steps[6].ok && steps[7].ok;
    }
  }

  /** The fixture after SetUp: whether every check passed, which engine
      handles are held, the configuration and mPCMBufferSize. */
  datatype Fixture = Fixture(ready: bool, dataHeld: bool, streamHeld: bool, config: Option<LibConfig>, pcmBufferSize: int)

  /** Bytes of the four-block buffer for a configuration. */
  function PcmBufferBytes(c: LibConfig): int {
    PcmBytes * c.mixBufferSize * c.numChannels * NumBuffersToCombine
  }

  /** Every check SetUp makes passes. */
  predicate SetUpPasses(sc: SetUpScript, p: Params) {
    && 0 <= sc.fd && sc.statOk
    && Succeeded(sc.initResult) && sc.dataHandle
    && Succeeded(sc.openResult) && sc.streamHandle
    && Succeeded(sc.prepareResult)
    && Succeeded(sc.metaResult) && sc.playTimeMs == p.playTimeMs
    && Succeeded(sc.location.result) && sc.location.ms == 0
    && sc.config.Some? && sc.config.value.mixBufferSize > 0 && sc.config.value.numChannels > 0
  }

  /** SetUp: the fixture is ready exactly when every check passes; EAS_Init
      is reached exactly when open and stat succeed, EAS_OpenFile exactly when
      EAS_Init also succeeded with a handle; a ready fixture's buffer holds
      four blocks' worth of bytes. */
  function SetUp(sc: SetUpScript, p: Params): (f: Fixture)
    ensures f.ready <==> SetUpPasses(sc, p)
    ensures f.dataHeld <==> 0 <= sc.fd && sc.statOk && sc.dataHandle
    ensures f.streamHeld <==> 0 <= sc.fd && sc.statOk && Succeeded(sc.initResult) && sc.dataHandle && sc.streamHandle
    ensures f.streamHeld ==> f.dataHeld
    ensures f.ready ==> f.config == sc.config && f.pcmBufferSize == PcmBufferBytes(sc.config.value)
    ensures f.ready ==> f.pcmBufferSize >= PcmBytes * NumBuffersToCombine
  {
    var steps := SetUpSteps(sc, p);
    var r := RunSteps(steps);
    OkBeforeNext(steps, 0);
    OkBeforeNext(steps, 1);
    OkBeforeNext(steps, 2);
    SetUpStepsOk(sc, p);
    if r.ok then
      assert steps[7].ok;
      var c := sc.config.value;
      assert c.mixBufferSize * c.numChannels >= 1 by {
        assert c.mixBufferSize * c.numChannels >= c.mixBufferSize * 1;
      }
      Fixture(true, sc.dataHandle, sc.streamHandle, sc.config, PcmBufferBytes(c))
    else
      Fixture(false, 2 < r.count && sc.dataHandle, 3 < r.count && sc.streamHandle, None, 0)
  }

  /** What TearDown issues, and whether its ASSERTs pass. */
  datatype TearDownRun = TearDownRun(calls: seq<Call>, passed: bool)

  /** TearDown: close the stream when both handles are held, then shut down
      when the data handle is held; a failed close ends TearDown before the
      shutdown. */
  function TearDown(dataHeld: bool, streamHeld: bool, closeResult: int, shutdownResult: int): (r: TearDownRun)
    ensures CloseStream in r.calls <==> dataHeld && streamHeld
    ensures Shutdown in r.calls <==> dataHeld && (streamHeld ==> Succeeded(closeResult))
    ensures r.passed <==> !dataHeld || ((!streamHeld || Succeeded(closeResult)) && Succeeded(shutdownResult))
    ensures forall k :: 0 <= k < |r.calls| ==> r.calls[k] == CloseStream || r.calls[k] == Shutdown
    ensures |r.calls| == 2 ==> r.calls == [CloseStream, Shutdown]
  {
    if !dataHeld then TearDownRun([], true)
    else if streamHeld && !Succeeded(closeResult) then TearDownRun([CloseStream], false)
    else TearDownRun((if streamHeld then [CloseStream] else []) + [Shutdown], Succeeded(shutdownResult))
  }

  /** The fixture's teardown and the CLI's cleanup label issue the same calls
      unless closing the stream fails: then the CLI still shuts the engine
      down and the fixture does not. */
  lemma TearDownVersusCleanup(dataHeld: bool, streamHeld: bool, closeResult: int, shutdownResult: int)
    requires streamHeld ==> dataHeld
    ensures !(streamHeld && !Succeeded(closeResult)) ==>
              TearDown(dataHeld, streamHeld, closeResult, shutdownResult).calls
              == RenderFile.Cleanup(streamHeld, dataHeld, closeResult, shutdownResult).calls
    ensures streamHeld && !Succeeded(closeResult) ==>
              && Shutdown in RenderFile.Cleanup(streamHeld, dataHeld, closeResult, shutdownResult).calls
              && Shutdown !in TearDown(dataHeld, streamHeld, closeResult, shutdownResult).calls
  {
  }

  /** SetUp followed by TearDown with successful replies releases exactly the
      handles SetUp acquired, whatever check failed. */
  lemma SetUpThenTearDown(sc: SetUpScript, p: Params, closeResult: int, shutdownResult: int)
    requires Succeeded(closeResult)
    ensures var f := SetUp(sc, p);
            var t := TearDown(f.dataHeld, f.streamHeld, closeResult, shutdownResult);
            && (CloseStream in t.calls <==> 0 <= sc.fd && sc.statOk && Succeeded(sc.initResult) && sc.dataHandle && sc.streamHandle)
            && (Shutdown in t.calls <==> 0 <= sc.fd && sc.statOk && sc.dataHandle)
            && (t.passed <==> !f.dataHeld || Succeeded(shutdownResult))
  {
  }

  /** seekToLocation: true exactly when EAS_Locate and EAS_GetLocation succeed
      and the position reported is the one asked for. */
  function SeekToLocation(locateResult: int, location: LocationReply, expectedMs: int): (ok: bool)
    ensures ok ==> location.ms == expectedMs
    ensures !Succeeded(locateResult) || !Succeeded(location.result) ==> !ok
    ensures Succeeded(locateResult) && Succeeded(location.result) && location.ms == expectedMs ==> ok
  {
    if !Succeeded(locateResult) then false
    else if !Succeeded(location.result) then false
    else location.ms == expectedMs
  }

  /** renderAudio: true exactly when EAS_Render succeeds with a full block. */
  function RenderAudio(reply: RenderReply, c: LibConfig): (ok: bool)
    ensures ok ==> reply.count == c.mixBufferSize
    ensures !Succeeded(reply.result) ==> !ok
    ensures Succeeded(reply.result) && reply.count == c.mixBufferSize ==> ok
  {
    if !Succeeded(reply.result) then false
    else reply.count == c.mixBufferSize
  }

  /** renderAudio accepts a block exactly when the CLI's render loop would
      write it, once the state query has let the loop reach EAS_Render. */
  lemma RenderAudioAgreesWithLoop(poll: RenderLoop.Poll, c: LibConfig)
    requires Succeeded(poll.stateResult) && !RenderLoop.Finished(poll.state)
    ensures RenderAudio(poll.render, c) <==> !RenderLoop.Exits(poll, c.mixBufferSize)
  {
  }

  /** Frames reported by a sequence of renders. */
  function SumCounts(renders: seq<RenderReply>): int {
    if |renders| == 0 then 0
    else SumCounts(renders[..|renders| - 1]) + renders[|renders| - 1].count
  }

  /** Every render of a batch succeeded. */
  predicate RendersOk(renders: seq<RenderReply>) {
    forall i :: 0 <= i < |renders| ==> Succeeded(renders[i].result)
  }

  /** numBytesOutput after a batch: every frame reported, in bytes. */
  function BatchBytes(renders: seq<RenderReply>, c: LibConfig): int {
    SumCounts(renders) * c.numChannels * PcmBytes
  }

  /** DecodeTest's inner loop: four renders into the buffer, each after the
      samples of the ones before. Returns whether every render succeeded, the
      samples the pointer advanced by, and numBytesOutput. */
  method RenderBatch(renders: seq<RenderReply>, c: LibConfig) returns (ok: bool, samples: int, bytes: int)
    requires |renders| == NumBuffersToCombine
    ensures ok <==> RendersOk(renders)
    ensures ok ==> samples == SumCounts(renders) * c.numChannels
    ensures ok ==> bytes == BatchBytes(renders, c)
  {
    samples, bytes := 0, 0;
    var i := 0;
    while i < NumBuffersToCombine
      invariant 0 <= i <= NumBuffersToCombine
      invariant RendersOk(renders[..i])
      invariant samples == SumCounts(renders[..i]) * c.numChannels
      invariant bytes == SumCounts(renders[..i]) * c.numChannels * PcmBytes
    {
      if !Succeeded(renders[i].result) {
        assert !RendersOk(renders);
        return false, samples, bytes;
      }
      var count := renders[i].count;
      assert renders[..i + 1][..i] == renders[..i];
      ghost var before := SumCounts(renders[..i]);
      assert SumCounts(renders[..i + 1]) == before + count;
      assert (before + count) * c.numChannels == before * c.numChannels + count * c.numChannels;
      samples := samples + count * c.numChannels;
      bytes := bytes + count * c.numChannels * PcmBytes;
      i := i + 1;
    }
    assert renders[..i] == renders;
    return true, samples, bytes;
  }

  /** Four full blocks fill mPCMBufferSize bytes exactly. */
  lemma FullBatchFillsBuffer(renders: seq<RenderReply>, c: LibConfig)
    requires |renders| == NumBuffersToCombine
    requires forall i :: 0 <= i < |renders| ==> renders[i].count == c.mixBufferSize
    ensures BatchBytes(renders, c) == PcmBufferBytes(c)
  {
    SumCountsFull(renders, c.mixBufferSize);
  }

  /** Blocks no larger than mixBufferSize advance the sample pointer by at
      most four blocks' worth of samples: half of the mPCMBufferSize samples
      allocated, since that size is a byte count. */
  lemma BatchFitsBuffer(renders: seq<RenderReply>, c: LibConfig)
    requires |renders| == NumBuffersToCombine
    requires c.mixBufferSize > 0 && c.numChannels > 0
    requires forall i :: 0 <= i < |renders| ==> 0 <= renders[i].count <= c.mixBufferSize
    ensures 0 <= SumCounts(renders) * c.numChannels <= NumBuffersToCombine * BlockSamples(c)
    ensures NumBuffersToCombine * BlockSamples(c) * PcmBytes == PcmBufferBytes(c)
  {
    SumCountsAtMost(renders, c.mixBufferSize);
    var s := SumCounts(renders);
    assert (4 * c.mixBufferSize - s) * c.numChannels >= 0;
  }

  /** Renders that each report `mix` frames report |renders| * mix in all. */
  lemma {:induction false} SumCountsFull(renders: seq<RenderReply>, mix: int)
    requires forall i :: 0 <= i < |renders| ==> renders[i].count == mix
    ensures SumCounts(renders) == |renders| * mix
    decreases |renders|
  {
    if |renders| > 0 {
      var init := renders[..|renders| - 1];
      SumCountsFull(init, mix);
      assert (|renders| - 1) * mix + mix == |renders| * mix;
    }
  }

  /** Renders that each report at most `mix` frames report at most
      |renders| * mix in all. */
  lemma {:induction false} SumCountsAtMost(renders: seq<RenderReply>, mix: int)
    requires forall i :: 0 <= i < |renders| ==> 0 <= renders[i].count <= mix
    ensures 0 <= SumCounts(renders) <= |renders| * mix
    decreases |renders|
  {
    if |renders| > 0 {
      var init := renders[..|renders| - 1];
      SumCountsAtMost(init, mix);
      assert (|renders| - 1) * mix + mix == |renders| * mix;
    }
  }

  /** The replies to one DecodeTest iteration: EAS_State, EAS_GetLocation, the
      four EAS_Render calls, and the byte count fwrite reports. */
  datatype DecodePoll = DecodePoll(stateResult: int, state: EngineState, location: LocationReply,
                                   renders: seq<RenderReply>, written: int)

  /** A poll carries one reply per render of a batch. */
  predicate WellFormed(q: DecodePoll) {
    |q.renders| == NumBuffersToCombine
  }

  /** Whether this iteration leaves DecodeTest's loop, by a break or by a
      failed ASSERT. */
  predicate DecodeExits(q: DecodePoll, playTimeMs: int, c: LibConfig) {
    || !Succeeded(q.stateResult)
    || q.state == Error
    || q.state == Stopped
    || !Succeeded(q.location.result)
    || q.location.ms >= playTimeMs
    || !RendersOk(q.renders)
    || q.written != BatchBytes(q.renders, c)
  }

  /** The two breaks: playback stopped, or the location reached the play
      time. An ERROR state fails the test. */
  predicate DecodeCleanExit(q: DecodePoll, playTimeMs: int) {
    && Succeeded(q.stateResult)
    && q.state != Error
    && (q.state == Stopped || (Succeeded(q.location.result) && q.location.ms >= playTimeMs))
  }

  /** The script ends the loop at some point. */
  predicate DecodeEnds(polls: seq<DecodePoll>, playTimeMs: int, c: LibConfig) {
    0 < |polls| && (DecodeExits(polls[0], playTimeMs, c) || DecodeEnds(polls[1..], playTimeMs, c))
  }

  /** The replies DecodeTest receives before its loop. */
  datatype DecodeScript = DecodeScript(presetResult: int, bypassResult: int, outputOpened: bool, polls: seq<DecodePoll>)

  /** The checks before the loop: the configuration matches the parameters,
      the chamber preset and bypass-off settings are accepted, and the output
      file opens. */
  predicate PreamblePasses(c: LibConfig, p: Params, ds: DecodeScript) {
    && c.numChannels == p.channels
    && c.sampleRate == p.sampleRate
    && Succeeded(ds.presetResult)
    && Succeeded(ds.bypassResult)
    && ds.outputOpened
  }

  /** DecodeTest on a ready fixture. Returns whether the test passes, the
      number of iterations that wrote, and the bytes each of them wrote.
      Iterations write until the first one that leaves the loop; the test
      passes exactly when that one is a break rather than a failed ASSERT. */
  method DecodeTest(f: Fixture, p: Params, ds: DecodeScript) returns (passed: bool, iterations: nat, writes: seq<int>)
    requires f.ready && f.config.Some?
    requires forall i :: 0 <= i < |ds.polls| ==> WellFormed(ds.polls[i])
    requires DecodeEnds(ds.polls, p.playTimeMs, f.config.value)
    ensures !PreamblePasses(f.config.value, p, ds) ==> !passed && iterations == 0 && writes == []
    ensures PreamblePasses(f.config.value, p, ds) ==>
              && iterations < |ds.polls|
              && DecodeExits(ds.polls[iterations], p.playTimeMs, f.config.value)
              && (forall j :: 0 <= j < iterations ==> !DecodeExits(ds.polls[j], p.playTimeMs, f.config.value))
              && (passed <==> DecodeCleanExit(ds.polls[iterations], p.playTimeMs))
    ensures |writes| == iterations
    ensures forall j :: 0 <= j < iterations ==>
              j < |ds.polls| && writes[j] == BatchBytes(ds.polls[j].renders, f.config.value)
  {
    var c := f.config.value;
    if !PreamblePasses(c, p, ds) {
      return false, 0, [];
    }
    var polls := ds.polls;
    writes := [];
    var i := 0;
    while i < |polls|
      invariant 0 <= i <= |polls|
      invariant DecodeEnds(polls[i..], p.playTimeMs, c)
      invariant forall j :: 0 <= j < i ==> !DecodeExits(polls[j], p.playTimeMs, c)
      invariant |writes| == i
      invariant forall j :: 0 <= j < i ==> writes[j] == BatchBytes(polls[j].renders, c)
      decreases |polls| - i
    {
      var q := polls[i];
      if !Succeeded(q.stateResult) || q.state == Error {
        return false, i, writes;
      }
      if q.state == Stopped {
        return true, i, writes;
      }
      if !Succeeded(q.location.result) {
        return false, i, writes;
      }
      if q.location.ms >= p.playTimeMs {
        return true, i, writes;
      }
      var ok, samples, bytes := RenderBatch(q.renders, c);
      if !ok || q.written != bytes {
        return false, i, writes;
      }
      assert polls[i..][1..] == polls[i + 1..];
      writes := writes + [bytes];
      i := i + 1;
    }
    assert false;
  }

  /** The CLI and the test disagree on an ERROR state: the CLI's loop leaves
      with its status untouched, while DecodeTest fails. */
  lemma ErrorStateDisagreement(render: RenderReply, location: LocationReply, renders: seq<RenderReply>, written: int, playTimeMs: int)
    ensures RenderLoop.CleanExit(RenderLoop.Poll(EasSuccess, Error, render))
    ensures !DecodeCleanExit(DecodePoll(EasSuccess, Error, location, renders, written), playTimeMs)
  {
  }
}
