/** The seek and pause/resume tests, run against an engine whose transport
    behaves the way those tests expect. The engine's code is not part of this
    model; the behaviour below is the one the tests' assertions and comments
    describe, stated as an assumption:
    - EAS_Locate accepts a position from 0 to the play time and moves there;
    - EAS_GetLocation reports the position;
    - the first render after EAS_Prepare starts playback without moving;
    - while playing, each render moves one block forward, and playback stops
      at the end;
    - EAS_Pause takes effect at the next render, after which rendering
      repeats without moving; EAS_Resume returns to playing. */
module Transport {
  import opened Eas
  import Source
  import Fixture

  /** An open stream: its state, position and length in milliseconds, and
      how far one rendered block moves the position. */
  datatype Stream = Stream(state: EngineState, positionMs: int, durationMs: int, blockMs: int)

  predicate Valid(s: Stream) {
    0 <= s.positionMs <= s.durationMs && 0 < s.blockMs
  }

  /** A result code and the stream after the call. */
  datatype Outcome = Outcome(result: int, stream: Stream)

  /** A render's reply and the stream after it. */
  datatype Rendered = Rendered(reply: RenderReply, stream: Stream)

  /** EAS_Locate: succeeds exactly for positions inside the stream, and moves
      there; otherwise the stream is unchanged. */
  function Locate(s: Stream, ms: int): (o: Outcome)
    ensures Succeeded(o.result) <==> 0 <= ms <= s.durationMs
    ensures Succeeded(o.result) ==> o.stream == s.(positionMs := ms)
    ensures !Succeeded(o.result) ==> o.stream == s
  {
    if 0 <= ms <= s.durationMs then Outcome(EasSuccess, s.(positionMs := ms))
    else Outcome(EasFailure, s)
  }

  /** EAS_GetLocation: reports the position. */
  function GetLocation(s: Stream): LocationReply {
    LocationReply(EasSuccess, s.positionMs)
  }

  /** EAS_Pause: accepted while ready or playing. */
  function Pause(s: Stream): (o: Outcome)
    ensures Succeeded(o.result) <==> s.state == Ready || s.state == Play
    ensures o.stream.positionMs == s.positionMs
  {
    if s.state == Ready || s.state == Play then Outcome(EasSuccess, s.(state := Pausing))
    else Outcome(EasFailure, s)
  }

  /** EAS_Resume: accepted while pausing or paused. */
  function Resume(s: Stream): (o: Outcome)
    ensures Succeeded(o.result) <==> s.state == Pausing || s.state == Paused
    ensures o.stream.positionMs == s.positionMs
    ensures Succeeded(o.result) ==> o.stream.state == Play
  {
    if s.state == Pausing || s.state == Paused then Outcome(EasSuccess, s.(state := Play))
    else Outcome(EasFailure, s)
  }

  /** EAS_Render of one block of `c.mixBufferSize` frames. */
  function Render(s: Stream, c: LibConfig): (r: Rendered)
    ensures Succeeded(r.reply.result) <==> s.state in {Ready, Play, Pausing, Paused}
    ensures Succeeded(r.reply.result) ==> r.reply.count == c.mixBufferSize
    ensures s.state != Play ==> r.stream.positionMs == s.positionMs
    ensures Valid(s) && s.state == Play ==>
              && s.positionMs <= r.stream.positionMs <= s.durationMs
              && (s.positionMs < s.durationMs ==> s.positionMs < r.stream.positionMs)
              && (r.stream.state == Stopped <==> r.stream.positionMs == s.durationMs)
  {
    match s.state
    case Ready => Rendered(RenderReply(EasSuccess, c.mixBufferSize), s.(state := Play))
    case Play =>
      var pos := Source.Min(s.positionMs + s.blockMs, s.durationMs);
      Rendered(RenderReply(EasSuccess, c.mixBufferSize),
               s.(positionMs := pos, state := if pos == s.durationMs then Stopped else Play))
    case Pausing => Rendered(RenderReply(EasSuccess, c.mixBufferSize), s.(state := Paused))
    case Paused => Rendered(RenderReply(EasSuccess, c.mixBufferSize), s)
    case _ => Rendered(RenderReply(EasFailure, 0), s)
  }

  /** `n` renders in a row. */
  function RenderTimes(s: Stream, c: LibConfig, n: nat): Stream
    decreases n
  {
    if n == 0 then s else RenderTimes(Render(s, c).stream, c, n - 1)
  }

  /** Every transport call keeps a valid stream valid. */
  lemma CallsKeepValid(s: Stream, c: LibConfig, ms: int)
    requires Valid(s)
    ensures Valid(Locate(s, ms).stream)
    ensures Valid(Pause(s).stream) && Valid(Resume(s).stream)
    ensures Valid(Render(s, c).stream)
  {
  }

  /** A successful seek is read back by EAS_GetLocation. */
  lemma LocateThenGetLocation(s: Stream, ms: int)
    requires Succeeded(Locate(s, ms).result)
    ensures GetLocation(Locate(s, ms).stream) == LocationReply(EasSuccess, ms)
  {
  }

  /** Once paused, any number of renders leaves the stream as it is. */
  lemma {:induction false} PausedRendersKeepStream(s: Stream, c: LibConfig, n: nat)
    requires s.state == Paused
    ensures RenderTimes(s, c, n) == s
    decreases n
  {
    if n > 0 {
      PausedRendersKeepStream(Render(s, c).stream, c, n - 1);
    }
  }

  /** seekToLocation on the stream: its verdict and the stream after it. */
  function SeekOn(s: Stream, ms: int): (bool, Stream) {
    var o := Locate(s, ms);
    (Fixture.SeekToLocation(o.result, GetLocation(o.stream), ms), o.stream)
  }

  /** On this engine seekToLocation succeeds exactly for targets inside the
      stream, and leaves the stream at the target. */
  lemma SeekOnInside(s: Stream, ms: int)
    ensures SeekOn(s, ms).0 <==> 0 <= ms <= s.durationMs
    ensures SeekOn(s, ms).0 ==> SeekOn(s, ms).1 == s.(positionMs := ms)
  {
  }

  /** SeekTest: seeks to 0, half the play time and the play time must
      succeed, and a seek 10 ms past the play time must fail. The play time is
      unsigned and the targets are EAS_I32. */
  function SeekTest(s: Stream, playTimeMs: nat): bool {
    var (ok0, s0) := SeekOn(s, 0);
    if !ok0 then false
    else
      var (ok1, s1) := SeekOn(s0, playTimeMs / 2);
      if !ok1 then false
      else
        var (ok2, s2) := SeekOn(s1, Source.Wrap32(playTimeMs));
        if !ok2 then false
        else
          var (ok3, _) := SeekOn(s2, Source.Wrap32(playTimeMs + Fixture.SeekBeyondPlayTimeOffsetMs));
          !ok3
  }

  /** On this engine SeekTest passes exactly when the stream is at least the
      expected play time long and shorter than 10 ms past it. */
  lemma SeekTestPasses(s: Stream, playTimeMs: nat)
    requires Valid(s)
    requires playTimeMs + Fixture.SeekBeyondPlayTimeOffsetMs < 0x8000_0000
    ensures SeekTest(s, playTimeMs) <==>
              playTimeMs <= s.durationMs < playTimeMs + Fixture.SeekBeyondPlayTimeOffsetMs
  {
    assert Source.Wrap32(playTimeMs) == playTimeMs;
    assert Source.Wrap32(playTimeMs + Fixture.SeekBeyondPlayTimeOffsetMs) == playTimeMs + Fixture.SeekBeyondPlayTimeOffsetMs;
  }

  /** DecodePauseResumeTest: seek to the middle, render, pause, render (which
      must not move), check the position and the PAUSED state, resume, render,
      and check that the position moved on and the state is PLAY. */
  function PauseResumeTest(s: Stream, playTimeMs: nat, c: LibConfig): bool {
    var seek := playTimeMs / 2;
    var l := Locate(s, seek);
    if !Succeeded(l.result) then false
    else
      var r1 := Render(l.stream, c);
      if !Fixture.RenderAudio(r1.reply, c) then false
      else
        var pz := Pause(r1.stream);
        if !Succeeded(pz.result) then false
        else
          var r2 := Render(pz.stream, c);
          if !Fixture.RenderAudio(r2.reply, c) then false
          else if GetLocation(r2.stream) != LocationReply(EasSuccess, seek) then false
          else if r2.stream.state != Paused then false
          else
            var rs := Resume(r2.stream);
            if !Succeeded(rs.result) then false
            else
              var r3 := Render(rs.stream, c);
              if !Fixture.RenderAudio(r3.reply, c) then false
              else
                var loc := GetLocation(r3.stream);
                Succeeded(loc.result) && loc.ms > seek && r3.stream.state == Play
  }

  /** On this engine, starting from a prepared stream of the expected play
      time, DecodePauseResumeTest passes exactly when one block played from
      the middle does not reach the end (where playback would stop). */
  lemma PauseResumeTestPasses(s: Stream, playTimeMs: nat, c: LibConfig)
    requires Valid(s) && s.state == Ready && s.durationMs == playTimeMs
    ensures PauseResumeTest(s, playTimeMs, c) <==> playTimeMs / 2 + s.blockMs < playTimeMs
  {
  }
}
