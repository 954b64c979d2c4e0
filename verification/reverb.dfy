/** The CLI's reverb configuration: how the `-r` value becomes a preset and a
    bypass flag, and the order in which the three parameters reach the
    engine. */
module Reverb {
  import opened Eas

  /** The preset each `-r` value names in the usage text: 1 large hall,
      2 hall, 3 chamber, 4 room. Every other value (0, and -1 when `-r` is
      absent) names none. */
  function PresetFor(reverbType: int): Option<int> {
    if reverbType == 1 then Some(ReverbLargeHall)
    else if reverbType == 2 then Some(ReverbHall)
    else if reverbType == 3 then Some(ReverbChamber)
    else if reverbType == 4 then Some(ReverbRoom)
    else None
  }

  /** One EAS_SetParameter call on the reverb module. */
  datatype Setting = Setting(param: ReverbParam, value: int)

  /** The settings renderFile issues, in order: wet; the preset `reverbType - 1`
      only when it lies in LARGE_HALL..ROOM; then bypass, off exactly when a
      preset was chosen. */
  function ReverbPlan(reverbType: int, wet: int): (plan: seq<Setting>)
    ensures |plan| == (if PresetFor(reverbType).Some? then 3 else 2)
    ensures plan[0] == Setting(Wet, wet)
    ensures plan[|plan| - 1]
            == Setting(Bypass, if PresetFor(reverbType).Some? then EasFalse else EasTrue)
    ensures PresetFor(reverbType).Some? ==> plan[1] == Setting(Preset, PresetFor(reverbType).value)
    ensures forall i :: 0 <= i < |plan| ==>
              (plan[i].param == Preset <==> i == 1 && PresetFor(reverbType).Some?)
  {
    var preset := reverbType - 1;
    if ReverbLargeHall <= preset <= ReverbRoom then
      [Setting(Wet, wet), Setting(Preset, preset), Setting(Bypass, EasFalse)]
    else
      [Setting(Wet, wet), Setting(Bypass, EasTrue)]
  }

  /** The engine's replies to the three reverb settings. */
  datatype ReverbReplies = ReverbReplies(wet: int, preset: int, bypass: int) {
    function Reply(p: ReverbParam): int {
      match p
      case Wet => wet
      case Preset => preset
      case Bypass => bypass
    }
  }

  /** The reverb block as setup steps: each setting succeeds when its
      EAS_SetParameter returns EAS_SUCCESS. */
  function ReverbSteps(plan: seq<Setting>, replies: ReverbReplies): (steps: seq<Step>)
    ensures |steps| == |plan|
    ensures forall i :: 0 <= i < |plan| ==>
              steps[i] == Step(SetReverb(plan[i].param, plan[i].value), Succeeded(replies.Reply(plan[i].param)))
  {
    seq(|plan|, i requires 0 <= i < |plan| =>
      Step(SetReverb(plan[i].param, plan[i].value), Succeeded(replies.Reply(plan[i].param))))
  }

  /** Whether every setting renderFile issues for `reverbType` succeeds, stated
      against the replies directly. */
  predicate ReverbSucceeds(replies: ReverbReplies, reverbType: int) {
    && Succeeded(replies.wet)
    && (PresetFor(reverbType).Some? ==> Succeeded(replies.preset))
    && Succeeded(replies.bypass)
  }

  /** renderFile's reverb block: the wet level always goes first, the preset
      reaches the engine exactly when `-r` is 1..4 and the wet level was
      accepted, and the block fails exactly when one of its settings fails. */
  lemma ConfigureReverb(reverbType: int, wet: int, replies: ReverbReplies)
    ensures var steps := ReverbSteps(ReverbPlan(reverbType, wet), replies);
            var r := RunSteps(steps);
            && (r.ok <==> ReverbSucceeds(replies, reverbType))
            && 0 < r.count && steps[0].call == SetReverb(Wet, wet)
            && (SetReverb(Preset, reverbType - 1) in CallsOf(steps[..r.count]) <==> PresetFor(reverbType).Some? && Succeeded(replies.wet))
  {
    var plan := ReverbPlan(reverbType, wet);
    var steps := ReverbSteps(plan, replies);
    var r := RunSteps(steps);
    var issued := CallsOf(steps[..r.count]);
    if SetReverb(Preset, reverbType - 1) in issued {
      var k :| 0 <= k < |issued| && issued[k] == SetReverb(Preset, reverbType - 1);
      assert plan[k].param == Preset;
    }
    if PresetFor(reverbType).Some? && Succeeded(replies.wet) {
      assert steps[0].ok;
      assert issued[1] == SetReverb(Preset, reverbType - 1);
    }
  }
}
