/** Which notes a successful run holds and when they sound: the notes that
    start on a step of the sixteenth-note grid are exactly the notes the
    rules prescribe for that step, and every note is valid MIDI. */
module Notes {
  import opened Runtime
  import opened Scales
  import opened Harmony
  import opened Fractal
  import opened Rules
  import opened Outcome
  import opened Rhythm

  // Timing.

  /** Step `step` of bar `bar` starts 16 bar + step sixteenth notes, of
      60 / (4 bpm) seconds each, into the piece. */
  lemma StepTimeGrid(bpm: real, bar: nat, step: nat)
    requires bpm != 0.0
    ensures StepTime(bpm, bar, step) == (16 * bar + step) as real * (60.0 / bpm / 4.0)
  {
    var q := 60.0 / bpm / 4.0;
    assert 60.0 / bpm * 4.0 == 16.0 * q;
    assert BarStart(bpm, bar) == (16 * bar) as real * q;
  }

  /** For a non-zero tempo, two steps of the grid start at the same time
      only when they are the same step of the same bar. */
  lemma StepTimeInjective(bpm: real, bar: nat, step: nat, bar': nat, step': nat)
    requires bpm != 0.0 && step < 16 && step' < 16
    ensures StepTime(bpm, bar, step) == StepTime(bpm, bar', step') <==> bar == bar' && step == step'
  {
    StepTimeGrid(bpm, bar, step);
    StepTimeGrid(bpm, bar', step');
    var q := 60.0 / bpm / 4.0;
    var i, j := 16 * bar + step, 16 * bar' + step';
    if StepTime(bpm, bar, step) == StepTime(bpm, bar', step') {
      assert q != 0.0;
      assert (i - j) as real * q == 0.0;
      assert i == j;
      assert bar == i / 16 && step == i % 16;
    }
  }

  // Where the notes of a run come from.

  /** The drum notes of steps `step` .. 15 of a bar are those of its steps. */
  lemma {:induction false} DrumsFromNotes(cfg: Config, bar: nat, step: nat, x: Note)
    requires cfg.bpm != 0.0
    ensures x in DrumsFrom(cfg, bar, step) <==> exists s :: step <= s < 16 && x in StepDrums(cfg, bar, s)
    decreases 16 - step
  {
    if step < 16 {
      DrumsFromNotes(cfg, bar, step + 1, x);
    }
  }

  /** The bass notes of steps `step` .. 15 of a bar are those of its steps. */
  lemma {:induction false} BassFromNotes(cfg: Config, bar: nat, root: int, step: nat, x: Note)
    requires cfg.bpm != 0.0
    ensures x in BassFrom(cfg, bar, root, step) <==> exists s :: step <= s < 16 && x in StepBass(cfg, bar, s, root)
    decreases 16 - step
  {
    if step < 16 {
      BassFromNotes(cfg, bar, root, step + 1, x);
    }
  }

  /** The notes of a successful run are those of its bars. */
  lemma {:induction false} RunNotes(bars: nat -> Result<Tracks>, n: nat, t: Tracks, x: Note)
    requires Run(bars, n) == Ok(t)
    ensures forall b :: 0 <= b < n ==> bars(b).Ok?
    ensures x in t.drum <==> exists b :: 0 <= b < n && bars(b).Ok? && x in bars(b).value.drum
    ensures x in t.bass <==> exists b :: 0 <= b < n && bars(b).Ok? && x in bars(b).value.bass
    ensures x in t.pad <==> exists b :: 0 <= b < n && bars(b).Ok? && x in bars(b).value.pad
  {
    RunOutcome(bars, n);
    if n > 0 {
      var t', u := Run(bars, n - 1).value, bars(n - 1).value;
      RunNotes(bars, n - 1, t', x);
      assert t == Append(t', u);
      assert x in t.drum <==> x in t'.drum || x in u.drum;
      assert x in t.bass <==> x in t'.bass || x in u.bass;
      assert x in t.pad <==> x in t'.pad || x in u.pad;
    }
  }

  /** A bar that plays has a chord, and holds the drum and bass notes of its
      sixteen steps and the pad notes of that chord. */
  lemma BarNotes(cfg: Config, bar: nat)
    requires Bars(cfg)(bar).Ok?
    ensures cfg.bpm != 0.0 && GetChord(bar, cfg.mode, cfg.isMetal).Ok?
    ensures var c := GetChord(bar, cfg.mode, cfg.isMetal).value;
      Bars(cfg)(bar).value == Tracks(DrumsFrom(cfg, bar, 0), BassFrom(cfg, bar, c.root, 0), PadNotes(cfg, bar, c.tones))
  {
  }

  /** The drum notes of a step all start at the step's time: a kick (pitch
      36), a snare (38) and a hi-hat (42) or ride (51), each when its rule fires. */
  lemma StepDrumsContents(cfg: Config, bar: nat, step: nat, x: Note)
    requires cfg.bpm != 0.0
    ensures x in StepDrums(cfg, bar, step) <==>
      (x == KickNote(cfg, bar, step) && KickFires(cfg.isMetal, bar, step)) ||
      (x == SnareNote(cfg, bar, step) && SnareFires(bar, step)) ||
      (x == HatNote(cfg, bar, step) && HatFires(bar, step))
    ensures x in StepDrums(cfg, bar, step) ==> x.start == StepTime(cfg.bpm, bar, step)
  {
  }

  /** The bass notes of a step all start at the step's time: the root note on
      step 0 and the run note when its rule fires. */
  lemma StepBassContents(cfg: Config, bar: nat, step: nat, root: int, x: Note)
    requires cfg.bpm != 0.0
    ensures x in StepBass(cfg, bar, step, root) <==>
      (x == RootNote(cfg, bar, root) && step == 0) ||
      (x == RunNote(cfg, bar, step) && RunFires(bar, step))
    ensures x in StepBass(cfg, bar, step, root) ==> x.start == StepTime(cfg.bpm, bar, step)
  {
  }

  /** The pad notes of a bar start at the bar's start, one per chord tone, on
      even bars only. */
  lemma PadNotesContents(cfg: Config, bar: nat, tones: seq<int>, x: Note)
    requires cfg.bpm != 0.0
    ensures x in PadNotes(cfg, bar, tones) <==>
      bar % 2 == 0 && exists i :: 0 <= i < |tones| && x == PadNote(cfg, bar, tones[i])
    ensures x in PadNotes(cfg, bar, tones) ==> x.start == BarStart(cfg.bpm, bar)
    ensures |PadNotes(cfg, bar, tones)| == if bar % 2 == 0 then |tones| else 0
    ensures bar % 2 == 0 ==> forall i :: 0 <= i < |tones| ==> PadNotes(cfg, bar, tones)[i] == PadNote(cfg, bar, tones[i])
  {
    if x in PadNotes(cfg, bar, tones) {
      var i :| 0 <= i < |PadNotes(cfg, bar, tones)| && PadNotes(cfg, bar, tones)[i] == x;
      assert x == PadNote(cfg, bar, tones[i]);
    }
    if bar % 2 == 0 && exists i :: 0 <= i < |tones| && x == PadNote(cfg, bar, tones[i]) {
      var i :| 0 <= i < |tones| && x == PadNote(cfg, bar, tones[i]);
      assert PadNotes(cfg, bar, tones)[i] == x;
    }
  }

  // The notes of each step of a successful run.

  /** Every drum note of a successful run was played by some step of some bar. */
  lemma DrumOrigin(cfg: Config, t: Tracks, x: Note)
    requires Generate(cfg) == Ok(t) && x in t.drum
    ensures cfg.bpm != 0.0
    ensures exists b, s :: 0 <= b < BarCount(cfg) && 0 <= s < 16 && x in StepDrums(cfg, b, s)
  {
    var n := BarCount(cfg);
    RunNotes(Bars(cfg), n, t, x);
    var b :| 0 <= b < n && Bars(cfg)(b).Ok? && x in Bars(cfg)(b).value.drum;
    BarNotes(cfg, b);
    DrumsFromNotes(cfg, b, 0, x);
  }

  /** Every drum note the rules give a step of a bar in range is in the run. */
  lemma StepDrumsInRun(cfg: Config, t: Tracks, bar: nat, step: nat, x: Note)
    requires Generate(cfg) == Ok(t) && bar < cfg.bars && step < 16
    ensures cfg.bpm != 0.0
    ensures x in StepDrums(cfg, bar, step) ==> x in t.drum
  {
    GenerateOutcome(cfg);
    var n := BarCount(cfg);
    RunNotes(Bars(cfg), n, t, x);
    if x in StepDrums(cfg, bar, step) {
      BarNotes(cfg, bar);
      DrumsFromNotes(cfg, bar, 0, x);
      assert x in Bars(cfg)(bar).value.drum;
    }
  }

  /** In a successful run, the drum notes that start at step `step` of bar
      `bar` are exactly the drum notes the rules give that step. */
  lemma DrumsAtStep(cfg: Config, t: Tracks, bar: nat, step: nat, x: Note)
    requires Generate(cfg) == Ok(t) && bar < cfg.bars && step < 16
    ensures cfg.bpm != 0.0
    ensures x in t.drum && x.start == StepTime(cfg.bpm, bar, step) <==> x in StepDrums(cfg, bar, step)
  {
    StepDrumsInRun(cfg, t, bar, step, x);
    StepDrumsContents(cfg, bar, step, x);
    if x in t.drum && x.start == StepTime(cfg.bpm, bar, step) {
      DrumOrigin(cfg, t, x);
      var b, s :| 0 <= b < BarCount(cfg) && 0 <= s < 16 && x in StepDrums(cfg, b, s);
      StepDrumsContents(cfg, b, s, x);
      StepTimeInjective(cfg.bpm, bar, step, b, s);
    }
  }

  /** In a successful run, step `step` of bar `bar` holds its kick, its snare
      and its hat exactly when their rules fire. */
  lemma DrumsPlayed(cfg: Config, t: Tracks, bar: nat, step: nat)
    requires Generate(cfg) == Ok(t) && bar < cfg.bars && step < 16
    ensures cfg.bpm != 0.0
    ensures KickNote(cfg, bar, step) in t.drum <==> KickFires(cfg.isMetal, bar, step)
    ensures SnareNote(cfg, bar, step) in t.drum <==> SnareFires(bar, step)
    ensures HatNote(cfg, bar, step) in t.drum <==> HatFires(bar, step)
  {
    GenerateOutcome(cfg);
    DrumsAtStep(cfg, t, bar, step, KickNote(cfg, bar, step));
    StepDrumsContents(cfg, bar, step, KickNote(cfg, bar, step));
    DrumsAtStep(cfg, t, bar, step, SnareNote(cfg, bar, step));
    StepDrumsContents(cfg, bar, step, SnareNote(cfg, bar, step));
    DrumsAtStep(cfg, t, bar, step, HatNote(cfg, bar, step));
    StepDrumsContents(cfg, bar, step, HatNote(cfg, bar, step));
  }

  /** Every bass note of a successful run was played by some step of some
      bar, on that bar's chord root or the pentatonic run. */
  lemma BassOrigin(cfg: Config, t: Tracks, x: Note)
    requires Generate(cfg) == Ok(t) && x in t.bass
    ensures cfg.bpm != 0.0
    ensures exists b, s :: 0 <= b < BarCount(cfg) && 0 <= s < 16 && GetChord(b, cfg.mode, cfg.isMetal).Ok? &&
                           x in StepBass(cfg, b, s, GetChord(b, cfg.mode, cfg.isMetal).value.root)
  {
    var n := BarCount(cfg);
    RunNotes(Bars(cfg), n, t, x);
    var b :| 0 <= b < n && Bars(cfg)(b).Ok? && x in Bars(cfg)(b).value.bass;
    BarNotes(cfg, b);
    BassFromNotes(cfg, b, GetChord(b, cfg.mode, cfg.isMetal).value.root, 0, x);
  }

  /** Every bass note the rules give a step of a bar in range is in the run. */
  lemma StepBassInRun(cfg: Config, t: Tracks, bar: nat, step: nat, x: Note)
    requires Generate(cfg) == Ok(t) && bar < cfg.bars && step < 16
    ensures cfg.bpm != 0.0 && GetChord(bar, cfg.mode, cfg.isMetal).Ok?
    ensures x in StepBass(cfg, bar, step, GetChord(bar, cfg.mode, cfg.isMetal).value.root) ==> x in t.bass
  {
    GenerateOutcome(cfg);
    var n := BarCount(cfg);
    RunNotes(Bars(cfg), n, t, x);
    BarNotes(cfg, bar);
    var root := GetChord(bar, cfg.mode, cfg.isMetal).value.root;
    if x in StepBass(cfg, bar, step, root) {
      BassFromNotes(cfg, bar, root, 0, x);
      assert x in Bars(cfg)(bar).value.bass;
    }
  }

  /** In a successful run, the bass notes that start at step `step` of bar
      `bar` are exactly the bass notes the rules give that step. */
  lemma BassAtStep(cfg: Config, t: Tracks, bar: nat, step: nat, x: Note)
    requires Generate(cfg) == Ok(t) && bar < cfg.bars && step < 16
    ensures cfg.bpm != 0.0 && GetChord(bar, cfg.mode, cfg.isMetal).Ok?
    ensures x in t.bass && x.start == StepTime(cfg.bpm, bar, step) <==>
              x in StepBass(cfg, bar, step, GetChord(bar, cfg.mode, cfg.isMetal).value.root)
  {
    StepBassInRun(cfg, t, bar, step, x);
    StepBassContents(cfg, bar, step, GetChord(bar, cfg.mode, cfg.isMetal).value.root, x);
    if x in t.bass && x.start == StepTime(cfg.bpm, bar, step) {
      BassOrigin(cfg, t, x);
      var b, s :| 0 <= b < BarCount(cfg) && 0 <= s < 16 && GetChord(b, cfg.mode, cfg.isMetal).Ok? &&
                  x in StepBass(cfg, b, s, GetChord(b, cfg.mode, cfg.isMetal).value.root);
      StepBassContents(cfg, b, s, GetChord(b, cfg.mode, cfg.isMetal).value.root, x);
      StepTimeInjective(cfg.bpm, bar, step, b, s);
    }
  }

  /** In a successful run, every bar opens with exactly two bass notes at
      once, the chord root and the first note of the pentatonic run (the run
      is not held back on step 0), and step `step` holds a run note exactly
      when the run's rule fires. */
  lemma BassPlayed(cfg: Config, t: Tracks, bar: nat, step: nat, x: Note)
    requires Generate(cfg) == Ok(t) && bar < cfg.bars && step < 16
    ensures cfg.bpm != 0.0 && GetChord(bar, cfg.mode, cfg.isMetal).Ok?
    ensures RunNote(cfg, bar, step) in t.bass <==> RunFires(bar, step)
    ensures var root := GetChord(bar, cfg.mode, cfg.isMetal).value.root;
      RootNote(cfg, bar, root) != RunNote(cfg, bar, 0) &&
      (x in t.bass && x.start == BarStart(cfg.bpm, bar) <==> x == RootNote(cfg, bar, root) || x == RunNote(cfg, bar, 0))
  {
    GenerateOutcome(cfg);
    BassAtStep(cfg, t, bar, 0, x);
    var root := GetChord(bar, cfg.mode, cfg.isMetal).value.root;
    HitAtStepZero(bar % 5);
    StepBassContents(cfg, bar, 0, root, x);
    BassAtStep(cfg, t, bar, step, RunNote(cfg, bar, step));
    StepBassContents(cfg, bar, step, root, RunNote(cfg, bar, step));
  }

  /** In a successful run, the pad notes that start at the start of bar `bar`
      are exactly the pad notes of its chord, and a chord tone sounds one
      octave up on every even bar and on no odd one. */
  lemma PadPlayed(cfg: Config, t: Tracks, bar: nat, x: Note, tone: int)
    requires Generate(cfg) == Ok(t) && bar < cfg.bars
    ensures cfg.bpm != 0.0 && GetChord(bar, cfg.mode, cfg.isMetal).Ok?
    ensures var tones := GetChord(bar, cfg.mode, cfg.isMetal).value.tones;
      (x in t.pad && x.start == BarStart(cfg.bpm, bar) <==> x in PadNotes(cfg, bar, tones)) &&
      (PadNote(cfg, bar, tone) in t.pad <==> bar % 2 == 0 && tone in tones)
  {
    PadAtBar(cfg, t, bar, x);
    PadAtBar(cfg, t, bar, PadNote(cfg, bar, tone));
    var tones := GetChord(bar, cfg.mode, cfg.isMetal).value.tones;
    PadNotesContents(cfg, bar, tones, PadNote(cfg, bar, tone));
    if tone in tones {
      var i :| 0 <= i < |tones| && tones[i] == tone;
      assert PadNote(cfg, bar, tone) == PadNote(cfg, bar, tones[i]);
    }
  }

  /** Every pad note of a successful run belongs to the chord of some bar. */
  lemma PadOrigin(cfg: Config, t: Tracks, x: Note)
    requires Generate(cfg) == Ok(t) && x in t.pad
    ensures cfg.bpm != 0.0
    ensures exists b :: 0 <= b < BarCount(cfg) && GetChord(b, cfg.mode, cfg.isMetal).Ok? &&
                        x in PadNotes(cfg, b, GetChord(b, cfg.mode, cfg.isMetal).value.tones)
  {
    var n := BarCount(cfg);
    RunNotes(Bars(cfg), n, t, x);
    var b :| 0 <= b < n && Bars(cfg)(b).Ok? && x in Bars(cfg)(b).value.pad;
    BarNotes(cfg, b);
  }

  /** In a successful run, the pad notes that start at the start of bar
      `bar` are exactly the pad notes of its chord. */
  lemma PadAtBar(cfg: Config, t: Tracks, bar: nat, x: Note)
    requires Generate(cfg) == Ok(t) && bar < cfg.bars
    ensures cfg.bpm != 0.0 && GetChord(bar, cfg.mode, cfg.isMetal).Ok?
    ensures x in t.pad && x.start == BarStart(cfg.bpm, bar) <==>
              x in PadNotes(cfg, bar, GetChord(bar, cfg.mode, cfg.isMetal).value.tones)
  {
    GenerateOutcome(cfg);
    var n := BarCount(cfg);
    RunNotes(Bars(cfg), n, t, x);
    BarNotes(cfg, bar);
    var tones := GetChord(bar, cfg.mode, cfg.isMetal).value.tones;
    PadNotesContents(cfg, bar, tones, x);
    if x in PadNotes(cfg, bar, tones) {
      assert x in Bars(cfg)(bar).value.pad;
    }
    if x in t.pad && x.start == BarStart(cfg.bpm, bar) {
      PadOrigin(cfg, t, x);
      var b :| 0 <= b < BarCount(cfg) && GetChord(b, cfg.mode, cfg.isMetal).Ok? &&
               x in PadNotes(cfg, b, GetChord(b, cfg.mode, cfg.isMetal).value.tones);
      PadNotesContents(cfg, b, GetChord(b, cfg.mode, cfg.isMetal).value.tones, x);
      StepTimeInjective(cfg.bpm, bar, 0, b, 0);
    }
  }

  // Every note is valid MIDI.

  /** Pitch and velocity are MIDI data bytes, and the note sounds for a
      positive time from a non-negative start. */
  predicate ValidNote(x: Note)
  {
    0 <= x.pitch <= 127 && 0 <= x.velocity <= 127 && 0.0 <= x.start < x.end
  }

  /** With a positive tempo every step starts at or after time 0. */
  lemma StepTimeNonNegative(bpm: real, bar: nat, step: nat)
    requires bpm > 0.0
    ensures StepTime(bpm, bar, step) >= 0.0
  {
    StepTimeGrid(bpm, bar, step);
    assert 60.0 / bpm / 4.0 > 0.0;
  }

  /** With a positive tempo every drum note of a successful run is valid
      MIDI, between the kick (36) and the ride (51). */
  lemma DrumNotesValid(cfg: Config, t: Tracks, x: Note)
    requires Generate(cfg) == Ok(t) && cfg.bpm > 0.0 && x in t.drum
    ensures ValidNote(x) && 36 <= x.pitch <= 51
  {
    DrumOrigin(cfg, t, x);
    var b, s :| 0 <= b < BarCount(cfg) && 0 <= s < 16 && x in StepDrums(cfg, b, s);
    StepDrumsContents(cfg, b, s, x);
    StepTimeNonNegative(cfg.bpm, b, s);
  }

  /** With a positive tempo every bass note of a successful run is valid
      MIDI, within ten semitones above the root base. */
  lemma BassNotesValid(cfg: Config, t: Tracks, x: Note)
    requires Generate(cfg) == Ok(t) && cfg.bpm > 0.0 && x in t.bass
    ensures ValidNote(x) && RootBase(cfg.isMetal) <= x.pitch <= RootBase(cfg.isMetal) + 10
  {
    BassOrigin(cfg, t, x);
    var b, s :| 0 <= b < BarCount(cfg) && 0 <= s < 16 && GetChord(b, cfg.mode, cfg.isMetal).Ok? &&
                x in StepBass(cfg, b, s, GetChord(b, cfg.mode, cfg.isMetal).value.root);
    var c := GetChord(b, cfg.mode, cfg.isMetal).value;
    StepBassContents(cfg, b, s, c.root, x);
    if x == RunNote(cfg, b, s) {
      RunNoteValid(cfg, b, s);
    } else {
      ChordShape(b, cfg.mode, cfg.isMetal, 7);
      RootNoteValid(cfg, b, c.root);
    }
  }

  lemma RunNoteValid(cfg: Config, bar: nat, step: nat)
    requires cfg.bpm > 0.0
    ensures var x := RunNote(cfg, bar, step);
      ValidNote(x) && RootBase(cfg.isMetal) <= x.pitch <= RootBase(cfg.isMetal) + 10
  {
    StepTimeNonNegative(cfg.bpm, bar, step);
    PentatonicShape();
    assert Pentatonic(cfg.isMetal)[step % 5] == RootBase(cfg.isMetal) + PentatonicBase[step % 5];
  }

  lemma RootNoteValid(cfg: Config, bar: nat, root: int)
    requires cfg.bpm > 0.0 && RootBase(cfg.isMetal) <= root <= RootBase(cfg.isMetal) + 10
    ensures ValidNote(RootNote(cfg, bar, root))
  {
    StepTimeNonNegative(cfg.bpm, bar, 0);
  }

  /** With a positive tempo every pad note of a successful run is valid
      MIDI, one octave above a chord tone, and lasts two bars. */
  lemma PadNotesValid(cfg: Config, t: Tracks, x: Note)
    requires Generate(cfg) == Ok(t) && cfg.bpm > 0.0 && x in t.pad
    ensures ValidNote(x) && RootBase(cfg.isMetal) + 12 <= x.pitch <= RootBase(cfg.isMetal) + 22
    ensures x.end - x.start == 2.0 * (60.0 / cfg.bpm * 4.0)
  {
    PadOrigin(cfg, t, x);
    var b :| 0 <= b < BarCount(cfg) && GetChord(b, cfg.mode, cfg.isMetal).Ok? &&
             x in PadNotes(cfg, b, GetChord(b, cfg.mode, cfg.isMetal).value.tones);
    var tones := GetChord(b, cfg.mode, cfg.isMetal).value.tones;
    PadNotesContents(cfg, b, tones, x);
    var i :| 0 <= i < |tones| && x == PadNote(cfg, b, tones[i]);
    ChordShape(b, cfg.mode, cfg.isMetal, 7);
    PadNoteValid(cfg, b, tones[i]);
  }

  lemma PadNoteValid(cfg: Config, bar: nat, tone: int)
    requires cfg.bpm > 0.0 && RootBase(cfg.isMetal) <= tone <= RootBase(cfg.isMetal) + 10
    ensures ValidNote(PadNote(cfg, bar, tone))
    ensures PadNote(cfg, bar, tone).end - PadNote(cfg, bar, tone).start == 2.0 * (60.0 / cfg.bpm * 4.0)
  {
    StepTimeNonNegative(cfg.bpm, bar, 0);
    var u := 60.0 / cfg.bpm;
    assert u > 0.0;
    assert u * 8.0 == 2.0 * (u * 4.0);
  }

  // A worked example: the standard preset at 120 bpm.

  /** In a successful run of the standard preset, every bar has its kick on
      steps 0, 4, 8 and 12 and on no other step. */
  lemma FourOnTheFloor(cfg: Config, t: Tracks, bar: nat, step: nat)
    requires Generate(cfg) == Ok(t) && !cfg.isMetal && bar < cfg.bars && step < 16
    ensures cfg.bpm != 0.0
    ensures KickNote(cfg, bar, step) in t.drum <==> step % 4 == 0
  {
    GenerateOutcome(cfg);
    DrumsAtStep(cfg, t, bar, step, KickNote(cfg, bar, step));
    StepDrumsContents(cfg, bar, step, KickNote(cfg, bar, step));
  }

  lemma KickAt120(cfg: Config, s: nat)
    requires cfg.bpm == 120.0 && !cfg.isMetal
    ensures KickNote(cfg, 0, s) == Note(108, 36, s as real * 0.125, s as real * 0.125 + 0.12)
  {
    SixteenthAt120(s);
  }

  lemma RootAt120(cfg: Config)
    requires cfg.bpm == 120.0 && !cfg.isMetal
    ensures RootNote(cfg, 0, 45) == Note(112, 45, 0.0, 0.95)
  {
    SixteenthAt120(0);
  }

  /** At 120 bpm the steps of bar 0 are 0.125 s apart. */
  lemma SixteenthAt120(s: nat)
    ensures StepTime(120.0, 0, s) == s as real * 0.125
  {
    assert 60.0 / 120.0 / 4.0 == 0.125;
    assert BarStart(120.0, 0) == 0.0;
  }
}
