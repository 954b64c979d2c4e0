/** Vocabulary shared by both drivers: the result codes, playback states,
    reverb parameters and library configuration of the Sonivox EAS engine as
    the drivers see them, and the log of calls a driver issues.

    The engine itself is not modelled. Its headers (eas.h, eas_reverb.h) are
    not part of this model either; the numeric values below are the ones the
    drivers rely on: EAS_SUCCESS is 0, EAS_FALSE/EAS_TRUE are 0/1, the reverb
    presets LARGE_HALL, HALL, CHAMBER, ROOM are the consecutive values 0..3,
    and one EAS_PCM sample is a 16-bit integer. */
module Eas {

  datatype Option<+T> = None | Some(value: T)

  /** EAS_RESULT: zero is success, every other value is an error code. */
  const EasSuccess: int := 0
  const EasFailure: int := -1

  predicate Succeeded(result: int) {
    result == EasSuccess
  }

  /** EAS_BOOL values, as passed to EAS_SetParameter. */
  const EasFalse: int := 0
  const EasTrue: int := 1

  /** The reverb presets, in the order of the engine's enumeration. */
  const ReverbLargeHall: int := 0
  const ReverbHall: int := 1
  const ReverbChamber: int := 2
  const ReverbRoom: int := 3

  /** sizeof(EAS_PCM) in bytes. */
  const PcmBytes: int := 2

  /** The reverb module's parameters the drivers set. */
  datatype ReverbParam = Bypass | Preset | Wet

  /** EAS_STATE. */
  datatype EngineState = Ready | Play | Stopping | Pausing | Stopped | Paused | Open | Error | Empty

  /** The fields of S_EAS_LIB_CONFIG that the drivers read. */
  datatype LibConfig = LibConfig(mixBufferSize: int, numChannels: int, sampleRate: int)

  /** Interleaved samples in one rendered block of mixBufferSize frames. */
  function BlockSamples(c: LibConfig): int {
    c.mixBufferSize * c.numChannels
  }

  /** One reply of EAS_Render: its result code and the frame count it reports. */
  datatype RenderReply = RenderReply(result: int, count: int)

  /** One reply of EAS_GetLocation: its result code and the position in
      milliseconds. */
  datatype LocationReply = LocationReply(result: int, ms: int)

  /** A call a driver issues to the operating system or to the engine, in the
      order issued. Results are not part of the log; they come from the
      scripted replies. */
  datatype Call =
    | OpenFd | StatFile | CloseFd
    | Init | SetReverb(param: ReverbParam, value: int)
    | OpenStream | PrepareStream | ParseMetaData | GetLocation | QueryConfig
    | QueryState | RenderFrames(frames: int) | WriteSamples(samples: int)
    | CloseStream | Shutdown

  /** One setup call and whether it succeeded (result and, where checked,
      a non-null handle). */
  datatype Step = Step(call: Call, ok: bool)

  /** How many steps were issued, and whether all of them succeeded. */
  datatype Issued = Issued(count: nat, ok: bool)

  /** A chain of setup calls in which every failure jumps to the cleanup
      label: the steps are issued in order, up to and including the first one
      that fails. */
  function RunSteps(steps: seq<Step>): (r: Issued)
    ensures r.count <= |steps|
    ensures r.ok <==> forall i :: 0 <= i < |steps| ==> steps[i].ok
    ensures r.ok ==> r.count == |steps|
    ensures !r.ok ==> 0 < r.count && !steps[r.count - 1].ok
    ensures forall i :: 0 <= i < |steps| ==> (i < r.count <==> OkBefore(steps, i))
    decreases |steps|
  {
    if |steps| == 0 then Issued(0, true)
    else if !steps[0].ok then Issued(1, false)
    else
      var rest := RunSteps(steps[1..]);
      assert forall i :: 1 <= i < |steps| ==> steps[1..][i - 1] == steps[i];
      assert forall i :: 1 <= i < |steps| ==> (OkBefore(steps, i) <==> OkBefore(steps[1..], i - 1));
      Issued(rest.count + 1, rest.ok)
  }

  /** Every step before step `i` succeeded. */
  predicate OkBefore(steps: seq<Step>, i: int) {
    forall j :: 0 <= j < i && j < |steps| ==> steps[j].ok
  }

  /** Step `i + 1` is reached exactly when step `i` was reached and
      succeeded. */
  lemma OkBeforeNext(steps: seq<Step>, i: nat)
    requires i < |steps|
    ensures OkBefore(steps, i + 1) <==> OkBefore(steps, i) && steps[i].ok
  {
  }

  /** The calls of a sequence of steps. */
  function CallsOf(steps: seq<Step>): (calls: seq<Call>)
    ensures |calls| == |steps|
    ensures forall i :: 0 <= i < |steps| ==> calls[i] == steps[i].call
  {
    seq(|steps|, i requires 0 <= i < |steps| => steps[i].call)
  }

  /** Number of writes in a call log. */
  function CountWrites(calls: seq<Call>): nat {
    if |calls| == 0 then 0
    else CountWrites(calls[..|calls| - 1]) + (if calls[|calls| - 1].WriteSamples? then 1 else 0)
  }

  lemma CountWritesSingle(call: Call)
    ensures CountWrites([call]) == if call.WriteSamples? then 1 else 0
  {
    assert [call][..0] == [];
  }

  lemma {:induction false} CountWritesAppend(a: seq<Call>, b: seq<Call>)
    ensures CountWrites(a + b) == CountWrites(a) + CountWrites(b)
    decreases |b|
  {
    if |b| == 0 {
      assert a + b == a;
    } else {
      assert (a + b)[..|a + b| - 1] == a + b[..|b| - 1];
      CountWritesAppend(a, b[..|b| - 1]);
    }
  }
}
