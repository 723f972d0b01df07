/** The rule table of the generator, as pure functions: the notes that each
    sixteenth-note step of each bar adds to the drum and bass tracks, the pad
    chord of each even bar, and the outcome of a whole run, including the
    exceptions that abort it. */
module Rules {
  import opened Runtime
  import opened Scales
  import opened Harmony
  import opened Fractal

  /** A `pretty_midi.Note`; times are exact seconds. */
  datatype Note = Note(velocity: int, pitch: int, start: real, end: real)

  /** The fields of `SierpinskiConfig` that generation reads. */
  datatype Config = Config(mode: int, bpm: real, bars: int, isMetal: bool)

  /** The notes of the three instruments, in the order they are appended. */
  datatype Tracks = Tracks(drum: seq<Note>, bass: seq<Note>, pad: seq<Note>)

  const Empty := Tracks([], [], [])

  function Append(t: Tracks, u: Tracks): Tracks
  {
    Tracks(t.drum + u.drum, t.bass + u.bass, t.pad + u.pad)
  }

  /** Start of a bar: four quarter notes of 60 / bpm seconds per bar. */
  function BarStart(bpm: real, bar: nat): real
    requires bpm != 0.0
  {
    bar as real * (60.0 / bpm * 4.0)
  }

  /** Start of a sixteenth-note step. */
  function StepTime(bpm: real, bar: nat, step: nat): real
    requires bpm != 0.0
  {
    BarStart(bpm, bar) + step as real * (60.0 / bpm / 4.0)
  }

  // When each instrument plays.

  predicate KickFires(isMetal: bool, bar: nat, step: nat)
  {
    step % 4 == 0 || (isMetal && IsSierpinskiHit(step, bar % 4))
  }

  predicate SnareFires(bar: nat, step: nat)
  {
    step == 6 || step == 14 || (step % 4 == 2 && IsSierpinskiHit(step, bar % 8))
  }

  predicate HatFires(bar: nat, step: nat)
  {
    IsSierpinskiHit(step, bar % 7)
  }

  predicate RunFires(bar: nat, step: nat)
  {
    IsSierpinskiHit(step, bar % 5)
  }

  // What each instrument plays.

  function KickNote(cfg: Config, bar: nat, step: nat): Note
    requires cfg.bpm != 0.0
  {
    var t := StepTime(cfg.bpm, bar, step);
    Note(if cfg.isMetal then 115 else 108, 36, t, t + 0.12)
  }

  function SnareNote(cfg: Config, bar: nat, step: nat): Note
    requires cfg.bpm != 0.0
  {
    var t := StepTime(cfg.bpm, bar, step);
    Note(if cfg.isMetal then 105 else 98, 38, t, t + 0.15)
  }

  /** Closed hi-hat, or ride cymbal in the metal preset. */
  function HatNote(cfg: Config, bar: nat, step: nat): Note
    requires cfg.bpm != 0.0
  {
    var t := StepTime(cfg.bpm, bar, step);
    Note(if cfg.isMetal then 85 else if step % 4 == 0 then 78 else 48,
         if cfg.isMetal then 51 else 42, t, t + 0.06)
  }

  /** The bass note on the bar's chord root, at the start of the bar. */
  function RootNote(cfg: Config, bar: nat, root: int): Note
    requires cfg.bpm != 0.0
  {
    var t := StepTime(cfg.bpm, bar, 0);
    Note(if cfg.isMetal then 118 else 112, root, t, t + (if cfg.isMetal then 0.25 else 0.95))
  }

  /** The minor-pentatonic run above the root base, whatever the chord. */
  function Pentatonic(isMetal: bool): (p: seq<int>)
    ensures |p| == 5
  {
    PentatonicShape();
    seq(|PentatonicBase|, i requires 0 <= i < |PentatonicBase| => RootBase(isMetal) + PentatonicBase[i])
  }

  /** The run climbs strictly within the octave above the root base: E G A B
      D from E2 in the metal preset, A C D E G from A2 otherwise. */
  lemma PentatonicPitches(isMetal: bool)
    ensures forall i :: 0 <= i < 5 ==> RootBase(isMetal) <= Pentatonic(isMetal)[i] <= RootBase(isMetal) + 10
    ensures forall i :: 0 < i < 5 ==> Pentatonic(isMetal)[i - 1] < Pentatonic(isMetal)[i]
    ensures Pentatonic(true) == [40, 43, 45, 47, 50]
    ensures Pentatonic(false) == [45, 48, 50, 52, 55]
  {
    PentatonicShape();
    forall m: bool, i | 0 <= i < 5
      ensures Pentatonic(m)[i] == RootBase(m) + [0, 3, 5, 7, 10][i]
    {
    }
  }

  function RunNote(cfg: Config, bar: nat, step: nat): Note
    requires cfg.bpm != 0.0
  {
    var t := StepTime(cfg.bpm, bar, step);
    Note(if cfg.isMetal then 112 else if step % 8 == 0 then 105 else 88,
         Pentatonic(cfg.isMetal)[step % 5], t, t + (if cfg.isMetal then 0.18 else 0.28))
  }

  /** A chord tone one octave up, held for eight quarter notes from the bar start. */
  function PadNote(cfg: Config, bar: nat, tone: int): Note
    requires cfg.bpm != 0.0
  {
    var t := BarStart(cfg.bpm, bar);
    Note(if cfg.isMetal then 58 else 52, tone + 12, t, t + 60.0 / cfg.bpm * 8.0)
  }

  // The notes of one step, one bar, one run.

  /** Kick, snare, then hat, each if it fires. */
  function StepDrums(cfg: Config, bar: nat, step: nat): seq<Note>
    requires cfg.bpm != 0.0
  {
    (if KickFires(cfg.isMetal, bar, step) then [KickNote(cfg, bar, step)] else []) +
    (if SnareFires(bar, step) then [SnareNote(cfg, bar, step)] else []) +
    (if HatFires(bar, step) then [HatNote(cfg, bar, step)] else [])
  }

  /** The root note on step 0, then the run note if it fires. */
  function StepBass(cfg: Config, bar: nat, step: nat, root: int): seq<Note>
    requires cfg.bpm != 0.0
  {
    (if step == 0 then [RootNote(cfg, bar, root)] else []) +
    (if RunFires(bar, step) then [RunNote(cfg, bar, step)] else [])
  }

  /** The drum notes of steps `step` .. 15 of a bar. */
  function DrumsFrom(cfg: Config, bar: nat, step: nat): seq<Note>
    requires cfg.bpm != 0.0
    decreases 16 - step
  {
    if step >= 16 then [] else StepDrums(cfg, bar, step) + DrumsFrom(cfg, bar, step + 1)
  }

  /** The bass notes of steps `step` .. 15 of a bar. */
  function BassFrom(cfg: Config, bar: nat, root: int, step: nat): seq<Note>
    requires cfg.bpm != 0.0
    decreases 16 - step
  {
    if step >= 16 then [] else StepBass(cfg, bar, step, root) + BassFrom(cfg, bar, root, step + 1)
  }

  /** The pad chord, on even bars only. */
  function PadNotes(cfg: Config, bar: nat, tones: seq<int>): seq<Note>
    requires cfg.bpm != 0.0
  {
    if bar % 2 == 0 then seq(|tones|, i requires 0 <= i < |tones| => PadNote(cfg, bar, tones[i])) else []
  }

  /** The notes of a bar whose chord is `c`: sixteen sixteenth-note steps
      of drums and bass, and the pad chord. */
  function BarTracks(cfg: Config, bar: nat, c: Chord): Tracks
    requires cfg.bpm != 0.0
  {
    Tracks(DrumsFrom(cfg, bar, 0), BassFrom(cfg, bar, c.root, 0), PadNotes(cfg, bar, c.tones))
  }

  /** One bar whose chord lookup gave `chord`: computing the bar start
      divides by the tempo, then the chord's exception, if any, propagates. */
  function BarOf(cfg: Config, bar: nat, chord: Result<Chord>): Result<Tracks>
  {
    if cfg.bpm == 0.0 then Err(ZeroDivisionError)
    else
      match chord
      case Err(e) => Err(e)
      case Ok(c) => Ok(BarTracks(cfg, bar, c))
  }

  /** One bar of the generator, with the chord of `get_chord`. */
  function BarResult(cfg: Config, bar: nat): Result<Tracks>
  {
    BarOf(cfg, bar, GetChord(bar, cfg.mode, cfg.isMetal))
  }

  /** Each bar's outcome, as a function of the bar index. */
  function Bars(cfg: Config): nat -> Result<Tracks>
  {
    (b: nat) => BarResult(cfg, b)
  }

  /** Bars 0 .. n - 1 played in order; the first bar that raises aborts the
      run with its exception. */
  function Run(bars: nat -> Result<Tracks>, n: nat): Result<Tracks>
  {
    if n == 0 then Ok(Empty)
    else
      match Run(bars, n - 1)
      case Err(e) => Err(e)
      case Ok(t) =>
        match bars(n - 1)
        case Err(e) => Err(e)
        case Ok(u) => Ok(Append(t, u))
  }

  /** Bars 0 .. bars - 1 (`range(config.bars)`, empty when bars <= 0). */
  function BarCount(cfg: Config): nat
  {
    if cfg.bars > 0 then cfg.bars else 0
  }

  /** The outcome of a whole run. */
  function Generate(cfg: Config): Result<Tracks>
  {
    Run(Bars(cfg), BarCount(cfg))
  }

  /** Once a bar has raised, no later bar changes the outcome. */
  lemma {:induction false} FirstErrorStands(bars: nat -> Result<Tracks>, n: nat, m: nat)
    requires n <= m && Run(bars, n).Err?
    ensures Run(bars, m) == Run(bars, n)
    decreases m
  {
    if m > n {
      FirstErrorStands(bars, n, m - 1);
    }
  }
}
