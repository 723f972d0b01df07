/** `generate_midi`: the nested loop over bars and sixteenth-note steps that
    appends notes to the drum, bass and pad instruments. */
module Generator {
  import opened Runtime
  import opened Harmony
  import opened Fractal
  import opened Scales
  import opened Rules

  /** Builds the three tracks bar by bar and step by step; the outcome is the
      one the rule table prescribes, the exception included. */
  method GenerateMidi(cfg: Config) returns (r: Result<Tracks>)
    ensures r == Generate(cfg)
  {
    var drum: seq<Note>, bass: seq<Note>, pad: seq<Note> := [], [], [];
    var pentatonic := Pentatonic(cfg.isMetal);
    var bar: nat := 0;
    while bar < cfg.bars
      invariant bar <= BarCount(cfg)
      invariant Run(Bars(cfg), bar) == Ok(Tracks(drum, bass, pad))
    {
      if cfg.bpm == 0.0 {
        ZeroTempoStops(cfg, bar, Tracks(drum, bass, pad));
        return Err(ZeroDivisionError);
      }
      var chord := GetChord(bar, cfg.mode, cfg.isMetal);
      if chord.Err? {
        MissingChordStops(cfg, bar, Tracks(drum, bass, pad), chord.error);
        return Err(chord.error);
      }
      var root, chordTones := chord.value.root, chord.value.tones;
      ghost var before := Tracks(drum, bass, pad);

      pad := PlayPad(cfg, bar, chordTones, pad);
      drum, bass := PlaySteps(cfg, bar, root, pentatonic, drum, bass);
      NextBar(cfg, bar, before, chord.value);
      bar := bar + 1;
    }
    AllBarsDone(cfg, bar);
    r := Ok(Tracks(drum, bass, pad));
  }

  /** On even bars, the chord tones one octave up, held for two bars'
      worth of quarter notes from the bar start. */
  method PlayPad(cfg: Config, bar: nat, chordTones: seq<int>, padIn: seq<Note>) returns (pad: seq<Note>)
    requires cfg.bpm != 0.0
    ensures pad == padIn + PadNotes(cfg, bar, chordTones)
  {
    pad := padIn;
    var startTime := BarStart(cfg.bpm, bar);
    if bar % 2 == 0 {
      for i := 0 to |chordTones|
        invariant pad == padIn + PadNotes(cfg, bar, chordTones)[..i]
      {
        var n := Note(if cfg.isMetal then 58 else 52, chordTones[i] + 12,
                      startTime, startTime + 60.0 / cfg.bpm * 8.0);
        pad := pad + [n];
      }
    }
  }

  /** The sixteen steps of one bar: drum hits and bass notes appended in
      step order to the instruments' note lists. */
  method PlaySteps(cfg: Config, bar: nat, root: int, pentatonic: seq<int>, drumIn: seq<Note>, bassIn: seq<Note>)
    returns (drum: seq<Note>, bass: seq<Note>)
    requires cfg.bpm != 0.0 && pentatonic == Pentatonic(cfg.isMetal)
    ensures drum == drumIn + DrumsFrom(cfg, bar, 0)
    ensures bass == bassIn + BassFrom(cfg, bar, root, 0)
  {
    drum, bass := drumIn, bassIn;
    for step: nat := 0 to 16
      invariant drum + DrumsFrom(cfg, bar, step) == drumIn + DrumsFrom(cfg, bar, 0)
      invariant bass + BassFrom(cfg, bar, root, step) == bassIn + BassFrom(cfg, bar, root, 0)
    {
      var t := StepTime(cfg.bpm, bar, step);
      ghost var drum0, bass0 := drum, bass;
      drum := PlayDrums(cfg, bar, step, t, drum);
      bass := PlayBass(cfg, bar, step, t, root, pentatonic, bass);
      StepsRemaining(cfg, bar, step, root, drum0, drum, bass0, bass);
    }
  }

  /** The drum hits of one step: kick, snare, then hi-hat or ride. */
  method PlayDrums(cfg: Config, bar: nat, step: nat, t: real, drumIn: seq<Note>) returns (drum: seq<Note>)
    requires cfg.bpm != 0.0 && t == StepTime(cfg.bpm, bar, step)
    ensures drum == drumIn + StepDrums(cfg, bar, step)
  {
    drum := drumIn;

    // Kick, doubled by the fractal in the metal preset.
    if step % 4 == 0 || (cfg.isMetal && IsSierpinskiHit(step, bar % 4)) {
      var vel := if cfg.isMetal then 115 else 108;
      drum := drum + [Note(vel, 36, t, t + 0.12)];
    }
    ghost var drum1 := drum;

    // Snare.
    if step == 6 || step == 14 || (step % 4 == 2 && IsSierpinskiHit(step, bar % 8)) {
      drum := drum + [Note(if cfg.isMetal then 105 else 98, 38, t, t + 0.15)];
    }
    ghost var drum2 := drum;

    // Hi-hat, or ride in the metal preset.
    if IsSierpinskiHit(step, bar % 7) {
      var vel := if cfg.isMetal then 85 else if step % 4 == 0 then 78 else 48;
      drum := drum + [Note(vel, if !cfg.isMetal then 42 else 51, t, t + 0.06)];
    }
    StepDrumsInOrder(cfg, bar, step, drumIn, drum1, drum2, drum);
  }

  /** The bass notes of one step: the chord root at the bar start, then the
      pentatonic run. */
  method PlayBass(cfg: Config, bar: nat, step: nat, t: real, root: int, pentatonic: seq<int>, bassIn: seq<Note>)
    returns (bass: seq<Note>)
    requires cfg.bpm != 0.0 && t == StepTime(cfg.bpm, bar, step) && pentatonic == Pentatonic(cfg.isMetal)
    ensures bass == bassIn + StepBass(cfg, bar, step, root)
  {
    bass := bassIn;
    if step == 0 {
      bass := bass + [Note(if cfg.isMetal then 118 else 112, root, t, t + (if cfg.isMetal then 0.25 else 0.95))];
    }
    ghost var bass1 := bass;
    if IsSierpinskiHit(step, bar % 5) {
      var pitch := pentatonic[step % |pentatonic|];
      var dur := if cfg.isMetal then 0.18 else 0.28;
      var vel := if cfg.isMetal then 112 else if step % 8 == 0 then 105 else 88;
      bass := bass + [Note(vel, pitch, t, t + dur)];
    }
    StepBassInOrder(cfg, bar, step, root, bassIn, bass1, bass);
  }

  /** The three drum appends of one step make up that step's drum notes. */
  lemma StepDrumsInOrder(cfg: Config, bar: nat, step: nat, d0: seq<Note>, d1: seq<Note>, d2: seq<Note>, d3: seq<Note>)
    requires cfg.bpm != 0.0
    requires d1 == d0 + (if KickFires(cfg.isMetal, bar, step) then [KickNote(cfg, bar, step)] else [])
    requires d2 == d1 + (if SnareFires(bar, step) then [SnareNote(cfg, bar, step)] else [])
    requires d3 == d2 + (if HatFires(bar, step) then [HatNote(cfg, bar, step)] else [])
    ensures d3 == d0 + StepDrums(cfg, bar, step)
  {
  }

  /** The two bass appends of one step make up that step's bass notes. */
  lemma StepBassInOrder(cfg: Config, bar: nat, step: nat, root: int, b0: seq<Note>, b1: seq<Note>, b2: seq<Note>)
    requires cfg.bpm != 0.0
    requires b1 == b0 + (if step == 0 then [RootNote(cfg, bar, root)] else [])
    requires b2 == b1 + (if RunFires(bar, step) then [RunNote(cfg, bar, step)] else [])
    ensures b2 == b0 + StepBass(cfg, bar, step, root)
  {
  }

  /** Leaving the loop means every bar has been played. */
  lemma AllBarsDone(cfg: Config, bar: nat)
    requires bar <= BarCount(cfg) && !(bar < cfg.bars)
    ensures Run(Bars(cfg), bar) == Generate(cfg)
  {
    assert bar == BarCount(cfg);
  }

  /** Playing step `step` moves its notes from the steps still to come to
      the notes already appended. */
  lemma StepsRemaining(cfg: Config, bar: nat, step: nat, root: int,
                       d0: seq<Note>, d1: seq<Note>, b0: seq<Note>, b1: seq<Note>)
    requires cfg.bpm != 0.0 && step < 16
    requires d1 == d0 + StepDrums(cfg, bar, step) && b1 == b0 + StepBass(cfg, bar, step, root)
    ensures d1 + DrumsFrom(cfg, bar, step + 1) == d0 + DrumsFrom(cfg, bar, step)
    ensures b1 + BassFrom(cfg, bar, root, step + 1) == b0 + BassFrom(cfg, bar, root, step)
  {
    ConcatAssoc(d0, StepDrums(cfg, bar, step), DrumsFrom(cfg, bar, step + 1));
    ConcatAssoc(b0, StepBass(cfg, bar, step, root), BassFrom(cfg, bar, root, step + 1));
  }

  lemma ConcatAssoc<T>(a: seq<T>, b: seq<T>, c: seq<T>)
    ensures (a + b) + c == a + (b + c)
  {
  }

  /** A zero tempo raises ZeroDivisionError on the first bar. */
  lemma ZeroTempoStops(cfg: Config, bar: nat, t: Tracks)
    requires bar < BarCount(cfg) && Run(Bars(cfg), bar) == Ok(t)
    requires cfg.bpm == 0.0
    ensures Generate(cfg) == Err(ZeroDivisionError)
  {
    FirstErrorStands(Bars(cfg), bar + 1, BarCount(cfg));
  }

  /** A bar whose chord lookup raises ends the run with that exception. */
  lemma MissingChordStops(cfg: Config, bar: nat, t: Tracks, e: Error)
    requires bar < BarCount(cfg) && Run(Bars(cfg), bar) == Ok(t)
    requires cfg.bpm != 0.0 && GetChord(bar, cfg.mode, cfg.isMetal) == Err(e)
    ensures Generate(cfg) == Err(e)
  {
    assert Bars(cfg)(bar) == Err(e);
    assert Run(Bars(cfg), bar + 1) == Err(e);
    FirstErrorStands(Bars(cfg), bar + 1, BarCount(cfg));
  }

  /** A bar whose chord exists extends the run by its tracks. */
  lemma NextBar(cfg: Config, bar: nat, t: Tracks, c: Chord)
    requires cfg.bpm != 0.0 && Run(Bars(cfg), bar) == Ok(t)
    requires GetChord(bar, cfg.mode, cfg.isMetal) == Ok(c)
    ensures Run(Bars(cfg), bar + 1) == Ok(Tracks(t.drum + DrumsFrom(cfg, bar, 0),
                                                 t.bass + BassFrom(cfg, bar, c.root, 0),
                                                 t.pad + PadNotes(cfg, bar, c.tones)))
  {
  }
}
