/** The CLI renderer (sonivoxrender): renderFile's setup, reverb
    configuration, render loop and cleanup for one file, and main's walk over
    the files named on the command line. The operating system and the engine
    reply from a script; the model produces the exit status and the log of
    calls issued. */
module RenderFile {
  import opened Eas
  import opened Options
  import opened Reverb
  import opened RenderLoop

  const ExitSuccess: int := 0
  const ExitFailure: int := 1

  /** The engine's replies to one renderFile, in the order they are asked
      for. A handle flag says whether the call left a non-null handle behind,
      which the engine may do even when the call fails. */
  datatype EngineScript = EngineScript(
    initResult: int, dataHandle: bool,
    reverb: ReverbReplies,
    openResult: int, streamHandle: bool,
    prepareResult: int,
    config: Option<LibConfig>,
    polls: seq<Poll>,
    closeResult: int, shutdownResult: int)

  /** The operating system's replies for one file (the descriptor open(2)
      returns, whether stat(2) succeeds) and the engine's. */
  datatype FileScript = FileScript(fd: int, statOk: bool, engine: EngineScript)

  /** A script whose render loop, if it is reached, ends. */
  predicate Scripted(e: EngineScript) {
    e.config.Some? ==> Ends(e.polls, e.config.value.mixBufferSize)
  }

  /** Whether renderFile still reports success, and the calls it issued. */
  datatype Session = Session(ok: bool, calls: seq<Call>)

  /** What the cleanup label issues, and whether it marks the run failed. */
  datatype Teardown = Teardown(calls: seq<Call>, failed: bool)

  /** The cleanup label: close the stream if there is a stream handle, then
      shut the engine down if there is a data handle. A failure marks the run
      failed but does not skip the next step. */
  function Cleanup(streamHeld: bool, dataHeld: bool, closeResult: int, shutdownResult: int): (r: Teardown)
    ensures CloseStream in r.calls <==> streamHeld
    ensures Shutdown in r.calls <==> dataHeld
    ensures forall k :: 0 <= k < |r.calls| ==> r.calls[k] == CloseStream || r.calls[k] == Shutdown
    ensures streamHeld && dataHeld ==> r.calls == [CloseStream, Shutdown]
    ensures r.failed <==> (streamHeld && !Succeeded(closeResult)) || (dataHeld && !Succeeded(shutdownResult))
  {
    var close := if streamHeld then [CloseStream] else [];
    var shutdown := if dataHeld then [Shutdown] else [];
    Teardown(close + shutdown,
             (streamHeld && !Succeeded(closeResult)) || (dataHeld && !Succeeded(shutdownResult)))
  }

  /** Calls of the setup ladder. */
  predicate SetupCall(call: Call) {
    call.Init? || call.SetReverb? || call.OpenStream? || call.PrepareStream? || call.QueryConfig?
  }

  /** Calls issued before cleanup. */
  predicate BodyCall(call: Call) {
    SetupCall(call) || LoopCall(call)
  }

  /** Calls to the engine, as opposed to the operating system. */
  predicate EngineCall(call: Call) {
    !call.OpenFd? && !call.StatFile? && !call.CloseFd?
  }

  /** A run reaching the cleanup label with the calls `body` issued. */
  function Finish(body: seq<Call>, ok: bool, streamHeld: bool, e: EngineScript): (r: Session)
    requires forall k :: 0 <= k < |body| ==> BodyCall(body[k])
    ensures r.calls == body + Cleanup(streamHeld, e.dataHandle, e.closeResult, e.shutdownResult).calls
    ensures CloseStream in r.calls <==> streamHeld
    ensures Shutdown in r.calls <==> e.dataHandle
    ensures r.ok <==> ok && !Cleanup(streamHeld, e.dataHandle, e.closeResult, e.shutdownResult).failed
    ensures forall k :: 0 <= k < |r.calls| ==> EngineCall(r.calls[k])
  {
    var t := Cleanup(streamHeld, e.dataHandle, e.closeResult, e.shutdownResult);
    assert !BodyCall(CloseStream) && !BodyCall(Shutdown);
    var calls := body + t.calls;
    assert forall k :: 0 <= k < |calls| ==> EngineCall(calls[k]) by {
      forall k | 0 <= k < |calls| ensures EngineCall(calls[k]) {
        if k < |body| {
          assert calls[k] == body[k] && BodyCall(body[k]);
        } else {
          assert calls[k] == t.calls[k - |body|];
          assert t.calls[k - |body|] == CloseStream || t.calls[k - |body|] == Shutdown;
        }
      }
    }
    Session(ok && !t.failed, calls)
  }

  /** The engine got past initialisation and the reverb settings, so
      EAS_OpenFile is called. */
  predicate OpensStream(e: EngineScript, s: Settings) {
    Succeeded(e.initResult) && e.dataHandle && ReverbSucceeds(e.reverb, s.reverbType)
  }

  /** There is a stream handle at the cleanup label. */
  predicate StreamHeld(e: EngineScript, s: Settings) {
    OpensStream(e, s) && e.streamHandle
  }

  /** Every engine step succeeds: setup, a loop whose first exit is STOPPED or
      ERROR, and both teardown calls. */
  predicate EngineSucceeds(e: EngineScript, s: Settings) {
    && OpensStream(e, s)
    && Succeeded(e.openResult) && e.streamHandle
    && Succeeded(e.prepareResult)
    && e.config.Some?
    && LoopSucceeds(e.polls, e.config.value.mixBufferSize)
    && Succeeded(e.closeResult)
    && Succeeded(e.shutdownResult)
  }

  /** renderFile's setup ladder from EAS_Init to EAS_Config; each step's
      failure jumps to cleanup. */
  function SetupSteps(e: EngineScript, s: Settings): (steps: seq<Step>)
    ensures var n := |ReverbPlan(s.reverbType, s.reverbWet)|;
            && |steps| == n + 4
            && steps[0] == Step(Init, Succeeded(e.initResult) && e.dataHandle)
            && steps[1 .. n + 1] == ReverbSteps(ReverbPlan(s.reverbType, s.reverbWet), e.reverb)
            && steps[n + 1] == Step(OpenStream, Succeeded(e.openResult) && e.streamHandle)
            && steps[n + 2] == Step(PrepareStream, Succeeded(e.prepareResult))
            && steps[n + 3] == Step(QueryConfig, e.config.Some?)
  {
    [Step(Init, Succeeded(e.initResult) && e.dataHandle)]
    + ReverbSteps(ReverbPlan(s.reverbType, s.reverbWet), e.reverb)
    + [ Step(OpenStream, Succeeded(e.openResult) && e.streamHandle),
        Step(PrepareStream, Succeeded(e.prepareResult)),
        Step(QueryConfig, e.config.Some?) ]
  }

  /** The setup calls issued before the ladder stops. */
  function SetupCalls(e: EngineScript, s: Settings): seq<Call> {
    CallsOf(SetupSteps(e, s)[..RunSteps(SetupSteps(e, s)).count])
  }

  /** Every step of the ladder is a setup call, and only its step after the
      reverb settings opens the stream. */
  lemma SetupStepCalls(e: EngineScript, s: Settings)
    ensures var steps := SetupSteps(e, s);
            var n := |ReverbPlan(s.reverbType, s.reverbWet)|;
            forall k :: 0 <= k < |steps| ==> SetupCall(steps[k].call) && (steps[k].call == OpenStream <==> k == n + 1)
  {
    var steps := SetupSteps(e, s);
    var n := |ReverbPlan(s.reverbType, s.reverbWet)|;
    forall k | 1 <= k < n + 1
      ensures steps[k].call.SetReverb?
    {
      assert steps[k] == steps[1 .. n + 1][k - 1];
    }
  }

  /** The calls the ladder issues are the calls of its first steps. */
  lemma SetupCallsAreSteps(e: EngineScript, s: Settings)
    ensures |SetupCalls(e, s)| == RunSteps(SetupSteps(e, s)).count
    ensures forall k :: 0 <= k < |SetupCalls(e, s)| ==> SetupCalls(e, s)[k] == SetupSteps(e, s)[k].call
  {
  }

  /** EAS_Init is always called first, and every setup call is a call that
      precedes the render loop. */
  lemma SetupShape(e: EngineScript, s: Settings)
    ensures 0 < |SetupCalls(e, s)| && SetupCalls(e, s)[0] == Init
    ensures forall k :: 0 <= k < |SetupCalls(e, s)| ==> SetupCall(SetupCalls(e, s)[k])
  {
    SetupStepCalls(e, s);
    SetupCallsAreSteps(e, s);
    assert OkBefore(SetupSteps(e, s), 0);
  }

  /** The reverb steps of the ladder all succeed exactly when the reverb
      replies do. */
  lemma SetupReverbOk(e: EngineScript, s: Settings)
    ensures var n := |ReverbPlan(s.reverbType, s.reverbWet)|;
            OkBefore(SetupSteps(e, s), n + 1) <==> OpensStream(e, s)
  {
    var steps := SetupSteps(e, s);
    var plan := ReverbPlan(s.reverbType, s.reverbWet);
    var rs := ReverbSteps(plan, e.reverb);
    var n := |plan|;
    ConfigureReverb(s.reverbType, s.reverbWet, e.reverb);
    assert forall k :: 0 <= k < n ==> steps[k + 1] == rs[k] by {
      forall k | 0 <= k < n ensures steps[k + 1] == rs[k] {
        assert steps[1 .. n + 1][k] == steps[k + 1];
      }
    }
  }

  /** EAS_OpenFile is called exactly when initialisation and every reverb
      setting succeeded. */
  lemma SetupOpens(e: EngineScript, s: Settings)
    ensures OpenStream in SetupCalls(e, s) <==> OpensStream(e, s)
  {
    var steps := SetupSteps(e, s);
    var n := |ReverbPlan(s.reverbType, s.reverbWet)|;
    var r := RunSteps(steps);
    var calls := SetupCalls(e, s);
    SetupReverbOk(e, s);
    SetupStepCalls(e, s);
    SetupCallsAreSteps(e, s);
    if OpenStream in calls {
      var k :| 0 <= k < |calls| && calls[k] == OpenStream;
      assert k == n + 1;
    }
    if OkBefore(steps, n + 1) {
      assert calls[n + 1] == OpenStream;
    }
  }

  /** The ladder completes exactly when, in addition, the stream opens with
      a handle, prepares, and the configuration is available. */
  lemma SetupCompletes(e: EngineScript, s: Settings)
    ensures RunSteps(SetupSteps(e, s)).ok <==>
              OpensStream(e, s) && Succeeded(e.openResult) && e.streamHandle && Succeeded(e.prepareResult) && e.config.Some?
  {
    var steps := SetupSteps(e, s);
    var n := |ReverbPlan(s.reverbType, s.reverbWet)|;
    SetupReverbOk(e, s);
    if OpensStream(e, s) && Succeeded(e.openResult) && e.streamHandle && Succeeded(e.prepareResult) && e.config.Some? {
      forall k | 0 <= k < |steps|
        ensures steps[k].ok
      {
        if k < n + 1 {
          assert OkBefore(steps, n + 1);
        }
      }
    }
  }

  /** Setup calls followed by render-loop calls are all calls that precede
      cleanup. */
  lemma BodyThenLoop(setup: seq<Call>, loop: seq<Call>)
    requires forall k :: 0 <= k < |setup| ==> SetupCall(setup[k])
    requires forall k :: 0 <= k < |loop| ==> LoopCall(loop[k])
    ensures forall k :: 0 <= k < |setup + loop| ==> BodyCall((setup + loop)[k])
    ensures OpenStream in setup + loop <==> OpenStream in setup
  {
  }

  /** `tail` is the last part of `calls`. */
  predicate EndsWith(calls: seq<Call>, tail: seq<Call>) {
    |tail| <= |calls| && calls[|calls| - |tail| ..] == tail
  }

  /** A log that ends with `tail` still does after a prefix and one more
      call are added around it, with that call now last. */
  lemma EndsWithExtend(prefix: seq<Call>, calls: seq<Call>, tail: seq<Call>, last: Call)
    requires EndsWith(calls, tail)
    ensures EndsWith(prefix + calls + [last], tail + [last])
  {
    var all := prefix + calls + [last];
    assert all[|all| - |tail| - 1 ..] == calls[|calls| - |tail| ..] + [last];
  }

  /** renderFile from EAS_Init to the end of the cleanup label: it succeeds
      exactly when every engine step does. */
  function Engine(e: EngineScript, s: Settings): (r: Session)
    requires Scripted(e)
    ensures 0 < |r.calls| && r.calls[0] == Init
    ensures r.ok <==> EngineSucceeds(e, s)
  {
    var setup := SetupCalls(e, s);
    SetupShape(e, s);
    SetupOpens(e, s);
    SetupCompletes(e, s);
    if !RunSteps(SetupSteps(e, s)).ok then
      Finish(setup, false, OpenStream in setup && e.streamHandle, e)
    else
      var run := Loop(e.polls, e.config.value);
      LoopWrites(e.polls, e.config.value);
      LoopOkIffFirstExitClean(e.polls, e.config.value);
      BodyThenLoop(setup, run.calls);
      Finish(setup + run.calls, run.ok, true, e)
  }

  /** What renderFile's engine part issues: EAS_OpenFile exactly when
      initialisation and the reverb settings succeed, EAS_CloseFile exactly
      when that left a stream handle, EAS_Shutdown exactly when EAS_Init left
      a data handle, no call to the operating system, and the cleanup label's
      calls last. */
  lemma EngineCalls(e: EngineScript, s: Settings)
    requires Scripted(e)
    ensures OpenStream in Engine(e, s).calls <==> OpensStream(e, s)
    ensures CloseStream in Engine(e, s).calls <==> StreamHeld(e, s)
    ensures Shutdown in Engine(e, s).calls <==> e.dataHandle
    ensures forall k :: 0 <= k < |Engine(e, s).calls| ==> EngineCall(Engine(e, s).calls[k])
    ensures EndsWith(Engine(e, s).calls, Cleanup(StreamHeld(e, s), e.dataHandle, e.closeResult, e.shutdownResult).calls)
  {
    var setup := SetupCalls(e, s);
    var tail := Cleanup(StreamHeld(e, s), e.dataHandle, e.closeResult, e.shutdownResult).calls;
    SetupShape(e, s);
    SetupOpens(e, s);
    SetupCompletes(e, s);
    var body := setup;
    if RunSteps(SetupSteps(e, s)).ok {
      var run := Loop(e.polls, e.config.value);
      LoopWrites(e.polls, e.config.value);
      BodyThenLoop(setup, run.calls);
      body := setup + run.calls;
    }
    assert Engine(e, s).calls == body + tail;
    assert (body + tail)[|body + tail| - |tail| ..] == tail;
  }

  /** renderFile succeeds: the file opens, stat works, and every engine step
      succeeds. */
  predicate FileSucceeds(f: FileScript, s: Settings) {
    0 <= f.fd && f.statOk && EngineSucceeds(f.engine, s)
  }

  /** Every resource acquired is released: the descriptor is closed iff
      open(2) returned one, the engine is shut down iff EAS_Init was called and
      left a data handle, and the stream is closed iff EAS_OpenFile was called
      and left a stream handle. */
  predicate Releases(f: FileScript, calls: seq<Call>) {
    && (CloseFd in calls <==> 0 <= f.fd)
    && (Shutdown in calls <==> Init in calls && f.engine.dataHandle)
    && (CloseStream in calls <==> OpenStream in calls && f.engine.streamHandle)
  }

  /** renderFile as written: a failed open returns before any engine call; a
      failed stat returns without reaching cleanup; cleanup closes the
      descriptor only when it is greater than 0. */
  function RenderFile(f: FileScript, s: Settings): (r: Session)
    requires Scripted(f.engine)
    ensures r.ok <==> FileSucceeds(f, s)
    ensures f.fd < 0 ==> r.calls == [OpenFd]
    ensures 0 <= f.fd && !f.statOk ==> r.calls == [OpenFd, StatFile]
  {
    if f.fd < 0 then Session(false, [OpenFd])
    else if !f.statOk then Session(false, [OpenFd, StatFile])
    else
      var run := Engine(f.engine, s);
      Session(run.ok, [OpenFd, StatFile] + run.calls + (if f.fd > 0 then [CloseFd] else []))
  }

  /** What a file's log holds when the engine's part sits between open/stat
      and an optional close(2). */
  lemma WrappedCalls(f: FileScript, engine: seq<Call>, close: seq<Call>)
    requires close == [] || close == [CloseFd]
    requires Init in engine && CloseFd !in engine
    requires Shutdown in engine <==> f.engine.dataHandle
    requires CloseStream in engine <==> OpenStream in engine && f.engine.streamHandle
    ensures var all := [OpenFd, StatFile] + engine + close;
            && Init in all
            && (CloseFd in all <==> close == [CloseFd])
            && (Shutdown in all <==> f.engine.dataHandle)
            && (CloseStream in all <==> OpenStream in all && f.engine.streamHandle)
  {
    InFileLog(engine, close, Init);
    InFileLog(engine, close, CloseFd);
    InFileLog(engine, close, Shutdown);
    InFileLog(engine, close, OpenStream);
    InFileLog(engine, close, CloseStream);
  }

  /** The engine part of renderFile, once reached, issues EAS_Init, so the
      shutdown and stream-close conditions can be read off the log. */
  lemma EngineWrapped(f: FileScript, s: Settings, close: seq<Call>)
    requires Scripted(f.engine)
    requires close == [] || close == [CloseFd]
    ensures var all := [OpenFd, StatFile] + Engine(f.engine, s).calls + close;
            && Init in all
            && (CloseFd in all <==> close == [CloseFd])
            && (Shutdown in all <==> f.engine.dataHandle)
            && (CloseStream in all <==> OpenStream in all && f.engine.streamHandle)
  {
    var run := Engine(f.engine, s);
    EngineCalls(f.engine, s);
    assert run.calls[0] == Init;
    WrappedCalls(f, run.calls, close);
  }

  /** The calls of renderFile as written: the engine is initialised exactly
      when open and stat succeed, the descriptor is closed exactly when it is
      greater than 0 and stat succeeded, and the engine's handles are
      released exactly when they were acquired. */
  lemma AsWrittenCalls(f: FileScript, s: Settings)
    requires Scripted(f.engine)
    ensures var calls := RenderFile(f, s).calls;
            && (Init in calls <==> 0 <= f.fd && f.statOk)
            && (CloseFd in calls <==> 0 < f.fd && f.statOk)
            && (Shutdown in calls <==> Init in calls && f.engine.dataHandle)
            && (CloseStream in calls <==> OpenStream in calls && f.engine.streamHandle)
  {
    if 0 <= f.fd && f.statOk {
      EngineWrapped(f, s, if f.fd > 0 then [CloseFd] else []);
    }
  }

  /** A descriptor opened but not closed: stat fails after open succeeds. */
  lemma StatFailureLeaksDescriptor(e: EngineScript, s: Settings)
    requires Scripted(e)
    ensures !Releases(FileScript(3, false, e), RenderFile(FileScript(3, false, e), s).calls)
  {
  }

  /** A descriptor opened but not closed: open returns descriptor 0 (standard
      input was closed), which the `mFd > 0` test skips. */
  lemma DescriptorZeroLeaks(e: EngineScript, s: Settings)
    requires Scripted(e)
    ensures !Releases(FileScript(0, true, e), RenderFile(FileScript(0, true, e), s).calls)
  {
    AsWrittenCalls(FileScript(0, true, e), s);
  }

  /** renderFile as written closes a descriptor greater than 0 last, after
      the cleanup label's calls. */
  lemma AsWrittenClosesLast(f: FileScript, s: Settings)
    requires Scripted(f.engine)
    requires 0 < f.fd && f.statOk
    ensures EndsWith(RenderFile(f, s).calls,
                     Cleanup(StreamHeld(f.engine, s), f.engine.dataHandle,
                             f.engine.closeResult, f.engine.shutdownResult).calls + [CloseFd])
  {
    var run := Engine(f.engine, s);
    EngineCalls(f.engine, s);
    EndsWithExtend([OpenFd, StatFile], run.calls,
                   Cleanup(StreamHeld(f.engine, s), f.engine.dataHandle, f.engine.closeResult, f.engine.shutdownResult).calls,
                   CloseFd);
  }

  /** renderFile with the descriptor released on every path after a
      successful open: the stat failure closes it, and cleanup tests
      `fd >= 0`. The exit status is that of the code as written. */
  function RenderFileReleasing(f: FileScript, s: Settings): (r: Session)
    requires Scripted(f.engine)
    ensures r.ok <==> FileSucceeds(f, s)
    ensures f.fd < 0 ==> r.calls == [OpenFd]
    ensures 0 <= f.fd ==> 0 < |r.calls| && r.calls[|r.calls| - 1] == CloseFd
  {
    if f.fd < 0 then Session(false, [OpenFd])
    else if !f.statOk then Session(false, [OpenFd, StatFile, CloseFd])
    else
      var run := Engine(f.engine, s);
      Session(run.ok, [OpenFd, StatFile] + run.calls + [CloseFd])
  }

  /** A call is in a file's log exactly when it is one of the descriptor
      calls around the engine's part or one of the engine's calls. */
  lemma InFileLog(engine: seq<Call>, close: seq<Call>, call: Call)
    requires close == [] || close == [CloseFd]
    ensures call in [OpenFd, StatFile] + engine + close <==>
              call == OpenFd || call == StatFile || call in close || call in engine
  {
    var all := [OpenFd, StatFile] + engine + close;
    if call in engine {
      var k :| 0 <= k < |engine| && engine[k] == call;
      assert all[k + 2] == call;
    }
    if call in close {
      assert all[|all| - 1] == call;
    }
  }

  /** The corrected renderFile releases every resource it acquired, on every
      path. */
  lemma ReleasingReleases(f: FileScript, s: Settings)
    requires Scripted(f.engine)
    ensures Releases(f, RenderFileReleasing(f, s).calls)
    ensures Init in RenderFileReleasing(f, s).calls <==> 0 <= f.fd && f.statOk
  {
    if 0 <= f.fd && f.statOk {
      EngineWrapped(f, s, [CloseFd]);
    }
  }

  /** The corrected renderFile closes the descriptor last, after the cleanup
      label's calls. */
  lemma ReleasingClosesLast(f: FileScript, s: Settings)
    requires Scripted(f.engine)
    requires 0 <= f.fd && f.statOk
    ensures EndsWith(RenderFileReleasing(f, s).calls,
                     Cleanup(StreamHeld(f.engine, s), f.engine.dataHandle,
                             f.engine.closeResult, f.engine.shutdownResult).calls + [CloseFd])
  {
    var run := Engine(f.engine, s);
    EngineCalls(f.engine, s);
    EndsWithExtend([OpenFd, StatFile], run.calls,
                   Cleanup(StreamHeld(f.engine, s), f.engine.dataHandle, f.engine.closeResult, f.engine.shutdownResult).calls,
                   CloseFd);
  }

  /** Which renderFile main calls: the code as written, or the corrected one
      that releases the descriptor on every path. */
  datatype Variant = AsWritten | Corrected

  /** Whether a variant closes the descriptor: as written, only one greater
      than 0 that also passed stat; corrected, every one open(2) returned. */
  predicate ClosesFd(v: Variant, f: FileScript) {
    if v == AsWritten then 0 < f.fd && f.statOk else 0 <= f.fd
  }

  /** What a file's log holds under a variant: the engine is initialised
      exactly when open and stat succeed, the descriptor is closed as
      ClosesFd says, and each engine handle is released exactly when it was
      acquired. */
  predicate FileLog(v: Variant, f: FileScript, calls: seq<Call>) {
    && (Init in calls <==> 0 <= f.fd && f.statOk)
    && (CloseFd in calls <==> ClosesFd(v, f))
    && (Shutdown in calls <==> Init in calls && f.engine.dataHandle)
    && (CloseStream in calls <==> OpenStream in calls && f.engine.streamHandle)
  }

  /** Under the corrected variant a file's log releases everything it
      acquired; under the code as written it does so exactly when the
      descriptor is closed anyway, which fails for a failed stat and for
      descriptor 0. */
  lemma FileLogReleases(v: Variant, f: FileScript, calls: seq<Call>)
    requires FileLog(v, f, calls)
    ensures v == Corrected ==> Releases(f, calls)
    ensures v == AsWritten ==> (Releases(f, calls) <==> f.fd < 0 || (0 < f.fd && f.statOk))
  {
  }

  /** renderFile as main sees it: its exit status, and the calls it issued. */
  method RenderOne(v: Variant, f: FileScript, s: Settings) returns (status: int, calls: seq<Call>)
    requires Scripted(f.engine)
    ensures status == ExitSuccess || status == ExitFailure
    ensures status == ExitSuccess <==> FileSucceeds(f, s)
    ensures 0 < |calls| && calls[0] == OpenFd
    ensures FileLog(v, f, calls)
  {
    var run;
    if v == AsWritten {
      run := RenderFile(f, s);
      AsWrittenCalls(f, s);
    } else {
      run := RenderFileReleasing(f, s);
      ReleasingReleases(f, s);
    }
    status := if run.ok then ExitSuccess else ExitFailure;
    calls := run.calls;
  }

  /** main's loop over the files, in argument order, until the first one
      that fails. Returns the exit status and the calls of each file
      attempted: no file after a failing one is opened. */
  method RenderFiles(v: Variant, files: seq<FileScript>, s: Settings) returns (code: int, log: seq<seq<Call>>)
    requires forall i :: 0 <= i < |files| ==> Scripted(files[i].engine)
    ensures code == ExitSuccess || code == ExitFailure
    ensures |log| <= |files|
    ensures forall j :: 0 <= j < |log| ==> FileLog(v, files[j], log[j])
    ensures forall j :: 0 <= j < |log| - 1 ==> FileSucceeds(files[j], s)
    ensures code == ExitSuccess <==> forall j :: 0 <= j < |files| ==> FileSucceeds(files[j], s)
    ensures code == ExitSuccess ==> |log| == |files|
    ensures code == ExitFailure ==> 0 < |log| && !FileSucceeds(files[|log| - 1], s)
  {
    log := [];
    while |log| < |files|
      invariant |log| <= |files|
      invariant forall j :: 0 <= j < |log| ==> FileSucceeds(files[j], s)
      invariant forall j :: 0 <= j < |log| ==> FileLog(v, files[j], log[j])
    {
      var status, calls := RenderOne(v, files[|log|], s);
      log := log + [calls];
      if status != ExitSuccess {
        return ExitFailure, log;
      }
    }
    return ExitSuccess, log;
  }

  /** main: the options first, then the files. A rejected option ends the
      program before any file is opened; with no files the status is
      EXIT_SUCCESS. `AsWritten` is the program as it stands. */
  method RunCli(v: Variant, opts: seq<Opt>, files: seq<FileScript>) returns (code: int, log: seq<seq<Call>>)
    requires forall i :: 0 <= i < |files| ==> Scripted(files[i].engine)
    ensures code == ExitSuccess || code == ExitFailure
    ensures |log| <= |files|
    ensures ParseOptions(opts).None? ==> code == ExitFailure && log == []
    ensures ParseOptions(opts).Some? ==>
              (code == ExitSuccess <==> forall j :: 0 <= j < |files| ==> FileSucceeds(files[j], ParseOptions(opts).value))
    ensures ParseOptions(opts).Some? && code == ExitFailure ==>
              0 < |log| && !FileSucceeds(files[|log| - 1], ParseOptions(opts).value)
    ensures forall j :: 0 <= j < |log| ==> FileLog(v, files[j], log[j])
  {
    var parsed := ParseOptions(opts);
    if parsed.None? {
      return ExitFailure, [];
    }
    code, log := RenderFiles(v, files, parsed.value);
  }
}
