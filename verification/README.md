# Sonivox drivers in Dafny

This project models the two programs that drive the Sonivox EAS MIDI engine:

- the command-line renderer `sonivoxrender`, which turns MIDI files into raw PCM on standard output;
- the `SonivoxTest` fixture and its tests.

The model covers the read and size callbacks the engine pulls file bytes through, and `main`'s option validation. It also covers renderFile: the setup ladder, reverb configuration, render loop and cleanup label. On the test side it covers the fixture's SetUp and TearDown, the `seekToLocation` and `renderAudio` helpers, DecodeTest's four-block aggregation loop, and the seek and pause/resume tests.

The engine is an oracle. For the drivers, every engine and operating-system call takes its reply from a script. The CLI's runs yield their exit status plus the log of calls they issued (`Eas.Call`), so its ordering and release properties are stated over the log. The fixture's SetUp yields the flags and handles TearDown consults, TearDown yields its calls, and each test yields its verdict. The seek and pause/resume tests run against `Transport`, an engine model whose behaviour is an assumption taken from the tests' own assertions.

Modules:

- `Eas`: result codes, states, configuration, the call log, and the generic setup ladder (`RunSteps`), which models a chain of calls where each failure jumps to cleanup.
- `Source`: the read-callback clamp and the readable region.
- `Options`: `main`'s option loop.
- `Reverb`: the `-r`/`-w` mapping.
- `RenderLoop`: renderFile's loop.
- `RenderFile`: renderFile and main's file loop.
- `Fixture`: SonivoxTest's fixture and DecodeTest.
- `Transport`: the assumed engine behind SeekTest and DecodePauseResumeTest.

Points where the model follows the code rather than what its messages or comments suggest:

- In renderFile, an ERROR state ends the render loop without marking the run failed, so the program exits with success. `Fixture.ErrorStateDisagreement` states that DecodeTest treats the same reply as a failure.
- SetUp sizes `mPCMBuffer` as `new EAS_PCM[mPCMBufferSize]`, but `mPCMBufferSize` counts bytes. The buffer therefore holds twice the samples one batch needs. `Fixture.BatchFitsBuffer` states that a batch uses at most four blocks of samples, which is half of the allocation.
- `sizeFunction` and `getSize` return the 64-bit `mLength` as a 32-bit `int`. A file from 2 GiB up to 4 GiB therefore reports a negative size (`Source.LargeFileSizeIsNegative`). From 4 GiB on the size wraps again, so a 4 GiB file reports 0.
- In DecodeTest, the `ASSERT_NE(state, EAS_STATE_STOPPED)` taken when the location reaches the play time cannot fail, because a STOPPED state has already left the loop. The model records that branch as a clean exit.

## Model

| member | source | states |
|---|---|---|
| Eas.RunSteps | example/sonivoxrender.c:86-149 | A ladder of calls in which each failure jumps to cleanup. The calls issued are exactly the prefix up to and including the first failure. The ladder succeeds exactly when every step succeeds, and step `i` is reached exactly when all steps before it succeeded. |
| Source.ClampRequest | example/sonivoxrender.c:38-46 | The read callback's clamp. The effective offset is `min(offset, length)` and the count is `min(size, length - offset')`. The request never reaches past the region, and a request at or past the end reads nothing. |
| Source.ClampRequestAsWritten | example/sonivoxrender.c:42-44 | The same clamp with the 32-bit `int` sum. It agrees with the exact clamp whenever `offset + size` fits in 32 bits. |
| Source.ClampWrapCounterexample | example/sonivoxrender.c:42-44 | With the wrapped sum, a request of 0x7FFF_FFFF bytes at offset 50 of a 100-byte file passes the guard unclamped. The exact clamp limits it to 50 bytes. |
| Source.OpenInput | example/sonivoxrender.c:73-84 | Both drivers set base 0 and length to the stat'd size, so the readable region is the whole file. The size callback reports its length when that is below 2^31. |
| Source.GetSize | example/sonivoxrender.c:48-51 | sizeFunction and getSize return the length truncated to 32-bit `int`: exact below 2^31, and the length minus 2^32 from 2^31 to 2^32. |
| Source.LargeFileSizeIsNegative | test/SonivoxTest.cpp:188-190 | A file of at least 2^31 bytes (and below 2^32) reports a negative size. |
| Source.ReadFd | example/sonivoxrender.c:45 | read(2) returns -1 exactly when the scripted reply is an error. Otherwise it returns the number of bytes delivered, at most the requested count, taken from the file at the current position. It delivers the whole request when the reply grants it and the bytes lie inside the file. |
| Source.ReadAt | test/SonivoxTest.cpp:178-186 | readAt and readFunction pass read's -1 through, and otherwise return the count of bytes delivered. That is at most `min(size, length - offset')`, exactly that when read grants the clamped count it is asked for, and nothing at or past the end. The bytes are the region's at the clamped offset. |
| Source.ReadPastEndReturnsRest | test/SonivoxTest.cpp:178-186 | A request running past the end, with read granting the clamped count, returns exactly `length - offset` bytes: the rest of the region. |
| Source.ShortReadIsPrefix | test/SonivoxTest.cpp:178-186 | Whatever read grants, the bytes delivered are a prefix of those a complete read would deliver. |
| Source.ReadWholeFile | test/SonivoxTest.cpp:178-190 | For a file below 2^31 bytes, reading getSize() bytes from offset 0 with read granting them returns the whole file. |
| Source.ReadAtConcat | test/SonivoxTest.cpp:178-186 | When read grants each request, two consecutive reads return the same bytes as one read of the combined size, so the engine sees the same data however it splits its requests. |
| Options.Apply | example/sonivoxrender.c:221-250 | The option loop fails exactly when some option is `-h`, unknown, or out of range. Otherwise the last `-r` and the last `-w` win. The proof relates the forward fold to the independent backward definitions `LastReverbType` and `LastReverbWet`. |
| Options.LastSkipsFirst | example/sonivoxrender.c:221-250 | Folding in the first option and taking the last of the rest equals taking the last of all the options. |
| Options.LastInRange | example/sonivoxrender.c:232-245 | After a loop in which every option was accepted, the settings are in range or still at their defaults. |
| Options.ParseOptions | example/sonivoxrender.c:32-33 | From the initial `reverb_type = -1` and `reverb_wet = 0`, a successful option loop leaves `-r` in -1..4 and `-w` in 0..32765, each equal to the last value given. |
| Reverb.ReverbPlan | example/sonivoxrender.c:99-122 | Wet is always set first. The preset `reverb_type - 1` is set exactly when `-r` is 1..4. Bypass comes last and is EAS_FALSE exactly when a preset was set. |
| Reverb.ConfigureReverb | example/sonivoxrender.c:99-122 | The reverb block succeeds exactly when wet, the preset (if any) and bypass are accepted. Wet is issued first. The preset reaches the engine exactly when `-r` is 1..4 and wet was accepted. |
| RenderLoop.Loop | example/sonivoxrender.c:159-189 | The loop leaves at the first iteration whose state query fails, whose state is STOPPED or ERROR, whose render fails, or whose block is short. It keeps success exactly when that exit is STOPPED or ERROR. Every earlier iteration issues a state query, a render and a write. |
| RenderLoop.FullIterationsWrite | example/sonivoxrender.c:181-187 | `n` full iterations issue exactly `n` writes, and each write is of `mixBufferSize * numChannels` samples. |
| RenderLoop.LastIterationWritesNothing | example/sonivoxrender.c:163-185 | The iteration that leaves the loop writes nothing. |
| RenderLoop.IterationsWrite | example/sonivoxrender.c:159-189 | Full iterations followed by the exiting one issue only loop calls and exactly one write per full iteration, each of a whole block, and the log never ends in a write. |
| RenderLoop.LoopWrites | example/sonivoxrender.c:151-188 | The loop writes exactly once per iteration that rendered a full block, each time `mixBufferSize * numChannels` samples, and never in the iteration that leaves. |
| RenderLoop.LoopOkIffFirstExitClean | example/sonivoxrender.c:159-189 | The loop keeps success exactly when its first exit is a clean one, as stated by the recursive predicate `LoopSucceeds`, which reads only the sequence of polls and not the loop's log. |
| RenderFile.Cleanup | example/sonivoxrender.c:191-206 | The stream is closed exactly when there is a stream handle, and the engine is shut down exactly when there is a data handle, in that order. The run is marked failed exactly when a call that was made failed. A failed close does not skip the shutdown. |
| RenderFile.Finish | example/sonivoxrender.c:191-211 | A run reaching the cleanup label issues its body and then the cleanup calls. It closes and shuts down exactly as the handles dictate, stays successful only if cleanup does not fail, and issues engine calls only. |
| RenderFile.SetupStepCalls | example/sonivoxrender.c:86-149 | Every step of the ladder is a setup call, and EAS_OpenFile is the step right after the reverb block. |
| RenderFile.SetupCallsAreSteps | example/sonivoxrender.c:86-149 | The calls issued are the calls of the steps reached. |
| RenderFile.SetupShape | example/sonivoxrender.c:86-97 | EAS_Init is always the first engine call, and every call before the loop is a setup call. |
| RenderFile.SetupReverbOk | example/sonivoxrender.c:86-122 | Init and the reverb steps all succeed exactly when EAS_Init succeeded with a handle and every reverb setting issued was accepted. |
| RenderFile.SetupOpens | example/sonivoxrender.c:124-129 | EAS_OpenFile is called exactly when initialisation and the reverb block succeeded. |
| RenderFile.SetupCompletes | example/sonivoxrender.c:124-149 | The ladder completes exactly when every check up to EAS_Config passes. |
| RenderFile.Engine | example/sonivoxrender.c:86-206 | renderFile from EAS_Init on starts with EAS_Init and succeeds exactly when every setup step, the loop's first exit and both teardown calls succeed. |
| RenderFile.EngineCalls | example/sonivoxrender.c:124-206 | The engine part calls EAS_OpenFile exactly when setup reaches it. It closes the stream exactly when a stream handle was obtained, shuts down exactly when a data handle was obtained, and ends with the cleanup calls. |
| RenderFile.RenderFile | example/sonivoxrender.c:53-212 | renderFile as written succeeds exactly when open, stat and every engine step succeed. A failed open issues nothing else, and a failed stat returns before the engine is touched. |
| RenderFile.AsWrittenCalls | example/sonivoxrender.c:66-211 | As written, EAS_Init is called exactly when open and stat succeed. The descriptor is closed exactly when it is greater than 0 and stat succeeded. Each engine handle is released exactly when it was acquired. |
| RenderFile.AsWrittenClosesLast | example/sonivoxrender.c:191-210 | renderFile as written, for a descriptor greater than 0 that passed stat, ends with the cleanup label's calls (close the stream, then shut down) followed by close(mFd). |
| RenderFile.StatFailureLeaksDescriptor | example/sonivoxrender.c:73-78 | Descriptor 3 opened and a failed stat: the descriptor is never closed. |
| RenderFile.DescriptorZeroLeaks | example/sonivoxrender.c:208-210 | Descriptor 0 opened and stat succeeded: the descriptor is never closed. |
| RenderFile.RenderFileReleasing | example/sonivoxrender.c:53-212 | The corrected renderFile succeeds under the same conditions as the original and closes every descriptor open returned, as its last call. |
| RenderFile.ReleasingReleases | example/sonivoxrender.c:66-211 | The corrected renderFile releases every resource it acquired on every path: the descriptor, the data handle and the stream handle. |
| RenderFile.ReleasingClosesLast | example/sonivoxrender.c:191-211 | The corrected renderFile ends with the cleanup label's calls followed by the descriptor's close. |
| RenderFile.RenderOne | example/sonivoxrender.c:53-212 | One file's exit status is EXIT_SUCCESS exactly when the file succeeds, and the log starts with open. With `AsWritten` (renderFile as it stands) EAS_Init is issued exactly when open and stat succeed, the descriptor is closed exactly when it is greater than 0 and stat succeeded, and each engine handle is released exactly when acquired. With `Corrected` every descriptor open returned is closed. |
| RenderFile.FileLogReleases | example/sonivoxrender.c:66-211 | With `Corrected` every file releases what it acquired. With `AsWritten` it does so exactly when open failed, or the descriptor is greater than 0 and stat succeeded. |
| RenderFile.RenderFiles | example/sonivoxrender.c:252-259 | Files are rendered in argument order until the first failure. The result is EXIT_SUCCESS exactly when every file succeeds, and with no files it is EXIT_SUCCESS. Otherwise the last file attempted is the one that failed. Every file attempted has the per-file log facts of `RenderOne` for the chosen variant. |
| RenderFile.RunCli | example/sonivoxrender.c:214-259 | A rejected option exits with EXIT_FAILURE before any file is touched. Otherwise the exit status is success exactly when every file succeeds with the parsed settings. `RunCli(AsWritten, ..)` is main as it stands, and its files' logs have the as-written descriptor facts. |
| Fixture.SetUp | test/SonivoxTest.cpp:68-132 | The fixture is ready exactly when every check passes. The data handle is held exactly when EAS_Init was reached and left one. The stream handle is held exactly when EAS_OpenFile was reached and left one. A ready fixture's buffer is `sizeof(EAS_PCM) * mixBufferSize * numChannels * 4`. |
| Fixture.TearDown | test/SonivoxTest.cpp:134-145 | The stream is closed only when both handles are held. Shutdown happens when the data handle is held, unless a failed close has already ended TearDown. |
| Fixture.TearDownVersusCleanup | test/SonivoxTest.cpp:134-145 | TearDown issues the same calls as the CLI's cleanup label, except when the close fails: then the CLI still shuts down and the fixture does not. |
| Fixture.SetUpThenTearDown | test/SonivoxTest.cpp:68-145 | After any SetUp, and given a successful close, TearDown closes the stream exactly when EAS_OpenFile left a handle and shuts down exactly when EAS_Init left one. |
| Fixture.SeekToLocation | test/SonivoxTest.cpp:192-204 | seekToLocation is true exactly when Locate and GetLocation both succeed and the reported position equals the request. |
| Fixture.RenderAudio | test/SonivoxTest.cpp:206-221 | renderAudio is true exactly when the render succeeds with a full block of mixBufferSize frames. |
| Fixture.RenderAudioAgreesWithLoop | test/SonivoxTest.cpp:206-221 | renderAudio accepts a render exactly when the CLI's loop would write the block and carry on. |
| Fixture.RenderBatch | test/SonivoxTest.cpp:274-280 | The four renders of one iteration succeed exactly when each does. The sample pointer then advances by the frames reported times the channel count, and numBytesOutput is the same in bytes. |
| Fixture.FullBatchFillsBuffer | test/SonivoxTest.cpp:274-280 | Four full blocks produce exactly `mPCMBufferSize` bytes. |
| Fixture.BatchFitsBuffer | test/SonivoxTest.cpp:122-125 | Blocks no larger than mixBufferSize advance the sample pointer by at most four blocks of samples. Four blocks of samples take exactly `mPCMBufferSize` bytes, so a batch stays within the `mPCMBufferSize` samples allocated. |
| Fixture.SumCountsFull | test/SonivoxTest.cpp:274-280 | Renders that each report `mix` frames report `|renders| * mix` in total. |
| Fixture.SumCountsAtMost | test/SonivoxTest.cpp:274-280 | Renders that each report at most `mix` frames report at most `|renders| * mix` in total. |
| Fixture.DecodeTest | test/SonivoxTest.cpp:223-286 | The checks before the loop must pass. Then iterations write until the first one that breaks or fails, each writing the sum of its four blocks' bytes. The test passes exactly when that exit is STOPPED, or a location reaching the play time, and not ERROR or a failed call. |
| Fixture.ErrorStateDisagreement | test/SonivoxTest.cpp:253-256 | An ERROR state is a clean exit for the CLI's loop but a failure for DecodeTest. |
| Transport.Locate | test/SonivoxTest.cpp:288-301 | The assumed engine accepts a seek exactly for positions from 0 to the stream's end and moves there. A refused seek changes nothing. |
| Transport.Pause | test/SonivoxTest.cpp:312-317 | The assumed EAS_Pause is accepted while ready or playing and does not move the position. |
| Transport.Resume | test/SonivoxTest.cpp:332-333 | The assumed EAS_Resume is accepted while pausing or paused, switches to PLAY, and does not move the position. |
| Transport.Render | test/SonivoxTest.cpp:309-347 | The assumed render succeeds with a full block in the playable states, moves the position only while playing, never beyond the end, and stops exactly at the end. |
| Transport.CallsKeepValid | test/SonivoxTest.cpp:288-348 | Every transport call keeps the position within the stream. |
| Transport.LocateThenGetLocation | test/SonivoxTest.cpp:192-204 | A successful seek is read back by EAS_GetLocation. |
| Transport.PausedRendersKeepStream | test/SonivoxTest.cpp:315-330 | Once paused, any number of renders leaves the stream, position included, unchanged. |
| Transport.SeekOnInside | test/SonivoxTest.cpp:192-204 | On the assumed engine, seekToLocation succeeds exactly for targets inside the stream and leaves the stream there. |
| Transport.SeekTestPasses | test/SonivoxTest.cpp:288-301 | `SeekTest` models the test body. On the assumed engine, it passes exactly when the stream is at least the play time long and less than the play time plus 10 ms. |
| Transport.PauseResumeTestPasses | test/SonivoxTest.cpp:303-348 | `PauseResumeTest` models the test body. On the assumed engine, starting from a prepared stream of the expected length, it passes exactly when one block played from the middle does not reach the end. |

## Left out

- The Sonivox engine (synthesis, MIDI parsing, reverb DSP). Its code is not part of this model. The drivers see it through scripted replies. `Transport` states an assumed seek, pause and resume behaviour.
- The system calls and stdio: open, stat, lseek, read, fwrite, fflush, fopen and fclose. Their outcomes are script entries: read delivers a scripted number of bytes, at most the requested count, and PCM contents are not modelled.
- `alloca` and `new` failing: both buffers are assumed allocated. `atoi`'s parsing: option values are taken as already-parsed integers.
- The gtest plumbing: the test environment header, parameter table, logging macros, and the fixture's destructor (which closes the descriptor when it is at least 0, and frees the buffers).
- Source.ReadAt: takes non-negative, unbounded offset and size rather than 32-bit `int`s. A negative offset or size from the engine is not modelled. The 32-bit sum is modelled separately in `ClampRequestAsWritten`.
- Source.ReadFd: read's reply is a scripted count (negative for an error), so errno, interrupted reads and lseek failing are not modelled. The exact-count facts of `ReadAt`, `ReadWholeFile` and `ReadAtConcat` hold only when read grants the request.
- RenderFile.RenderOne: states the per-file log through the EAS_Init, close and release conditions, not by equality with the log of `RenderFile` or `RenderFileReleasing`.
- Fixture.DecodeTest: the EAS_I32 and uint32_t conversions are not modelled. The location, the play time and the byte counts are compared as mathematical integers.
- Fixture.SetUp: the `playTimeMs` comparison between EAS_I32 and uint32_t is taken as an integer comparison.
- Transport.SeekTestPasses: its iff assumes the play time plus 10 fits in EAS_I32. Beyond that, the targets wrap, as `SeekTest` computes.
- Scripts must end the render loop (`Ends`, `DecodeEnds`). An engine that never stops is not representable.

## Findings

| source | as written | input that shows it | evidently intended | confidence | as-written member | corrected member |
|---|---|---|---|---|---|---|
| example/sonivoxrender.c:42-44 | `offset + size > mLength` is evaluated in 32-bit `int`, so a large size wraps the sum negative and skips the clamp | offset 50, size 0x7FFF_FFFF, file length 100: read is asked for 0x7FFF_FFFF bytes | the count is clamped to `mLength - offset` | not executed | Source.ClampRequestAsWritten, Source.ClampWrapCounterexample | Source.ClampRequest |
| example/sonivoxrender.c:73-78 | a failed stat returns without closing the descriptor open returned | open returns 3, stat fails | the descriptor is closed on every path after a successful open | not executed | RenderFile.RenderFile, RenderFile.StatFailureLeaksDescriptor | RenderFile.RenderFileReleasing, RenderFile.ReleasingReleases, RenderFile.FileLogReleases |
| example/sonivoxrender.c:208-210 | cleanup closes the descriptor only when `mFd > 0`, although 0 is a valid descriptor | open returns 0 (standard input closed beforehand), stat succeeds | close whenever `mFd >= 0`, as the test fixture's destructor does | not executed | RenderFile.DescriptorZeroLeaks, RenderFile.AsWrittenCalls | RenderFile.RenderFileReleasing, RenderFile.ReleasingReleases, RenderFile.FileLogReleases |
