/** The CLI's option loop (`getopt(argc, argv, "hr:w:")` in main): every
    option is validated as it is read, and the first unacceptable one ends the
    program with EXIT_FAILURE before any file is rendered. Option values are
    taken as already-parsed integers. */
module Options {
  import opened Eas

  /** One option as getopt returns it. A missing argument or an unknown letter
      is `Unknown` (opterr is 0, so getopt reports both as '?'). */
  datatype Opt = Help | ReverbOpt(value: int) | WetOpt(value: int) | Unknown(flag: char)

  /** The process-wide reverb_type and reverb_wet. */
  datatype Settings = Settings(reverbType: int, reverbWet: int)

  /** Their initial values: no `-r` given, wet 0. */
  const Defaults := Settings(-1, 0)

  const MaxReverbType: int := 4
  const MaxReverbWet: int := 32765

  /** Whether main's switch lets this option through. */
  predicate Accepted(o: Opt) {
    match o
    case Help => false
    case ReverbOpt(v) => 0 <= v <= MaxReverbType
    case WetOpt(v) => 0 <= v <= MaxReverbWet
    case Unknown(_) => false
  }

  /** Settings a successful option loop can leave behind. */
  predicate InRange(s: Settings) {
    && (s.reverbType == -1 || 0 <= s.reverbType <= MaxReverbType)
    && 0 <= s.reverbWet <= MaxReverbWet
  }

  /** The value of the last `-r` in `opts`, or `dflt` when there is none:
      the settings read backwards, independently of the option loop. */
  function LastReverbType(opts: seq<Opt>, dflt: int): int {
    if |opts| == 0 then dflt
    else if opts[|opts| - 1].ReverbOpt? then opts[|opts| - 1].value
    else LastReverbType(opts[..|opts| - 1], dflt)
  }

  /** The value of the last `-w` in `opts`, or `dflt` when there is none. */
  function LastReverbWet(opts: seq<Opt>, dflt: int): int {
    if |opts| == 0 then dflt
    else if opts[|opts| - 1].WetOpt? then opts[|opts| - 1].value
    else LastReverbWet(opts[..|opts| - 1], dflt)
  }

  /** The option loop from `s` onwards: None is the early `return EXIT_FAILURE`,
      otherwise the last `-r` and the last `-w` win. */
  function Apply(s: Settings, opts: seq<Opt>): (r: Option<Settings>)
    ensures r.None? <==> exists i :: 0 <= i < |opts| && !Accepted(opts[i])
    ensures r.Some? ==> r.value == Settings(LastReverbType(opts, s.reverbType), LastReverbWet(opts, s.reverbWet))
    decreases |opts|
  {
    if |opts| == 0 then Some(s)
    else if !Accepted(opts[0]) then None
    else
      var next := match opts[0]
        case ReverbOpt(v) => Settings(v, s.reverbWet)
        case WetOpt(v) => Settings(s.reverbType, v)
        case _ => s;
      var r := Apply(next, opts[1..]);
      assert forall i :: 1 <= i < |opts| ==> opts[1..][i - 1] == opts[i];
      LastSkipsFirst(opts, s.reverbType, s.reverbWet);
      r
  }

  /** Reading forwards and reading backwards agree: folding in the first option
      and then taking the last of the rest is taking the last of all. */
  lemma {:induction false} LastSkipsFirst(opts: seq<Opt>, t: int, w: int)
    requires 0 < |opts|
    ensures LastReverbType(opts[1..], if opts[0].ReverbOpt? then opts[0].value else t) == LastReverbType(opts, t)
    ensures LastReverbWet(opts[1..], if opts[0].WetOpt? then opts[0].value else w) == LastReverbWet(opts, w)
    decreases |opts|
  {
    if |opts| > 1 {
      var init := opts[..|opts| - 1];
      assert init[1..] == opts[1..][..|opts[1..]| - 1];
      assert init[0] == opts[0];
      LastSkipsFirst(init, t, w);
    }
  }

  /** Every value the settings can take after a successful loop is one main
      accepted, or the default. */
  lemma {:induction false} LastInRange(opts: seq<Opt>, s: Settings)
    requires InRange(s)
    requires forall i :: 0 <= i < |opts| ==> Accepted(opts[i])
    ensures InRange(Settings(LastReverbType(opts, s.reverbType), LastReverbWet(opts, s.reverbWet)))
    decreases |opts|
  {
    if |opts| > 0 {
      LastInRange(opts[..|opts| - 1], s);
    }
  }

  /** main's option loop from the initial settings. */
  function ParseOptions(opts: seq<Opt>): (r: Option<Settings>)
    ensures r.None? <==> exists i :: 0 <= i < |opts| && !Accepted(opts[i])
    ensures r.Some? ==> InRange(r.value)
    ensures r.Some? ==> r.value.reverbType == LastReverbType(opts, -1)
    ensures r.Some? ==> r.value.reverbWet == LastReverbWet(opts, 0)
  {
    var r := Apply(Defaults, opts);
    if r.Some? then
      LastInRange(opts, Defaults);
      r
    else r
  }
}
