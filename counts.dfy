/** How often each note occurs in a successful run: a note that starts on a
    step of the grid occurs exactly as often as the rules give it to that
    step, so every bar has exactly one root note, each drum sounds at most
    once per step, and the pad sounds each chord tone once per even bar. */
module Counts {
  import opened Runtime
  import opened Harmony
  import opened Rules
  import opened Outcome
  import opened Notes

  /** The drum (0), bass (1) or pad (2) notes of some tracks. */
  function Track(t: Tracks, k: nat): seq<Note>
  {
    if k == 0 then t.drum else if k == 1 then t.bass else t.pad
  }

  // From bars to the run.

  /** A note that no bar but `bar` holds occurs in a successful run as
      often as in that bar. */
  lemma {:induction false} RunCount(bars: nat -> Result<Tracks>, n: nat, t: Tracks, k: nat, bar: nat, x: Note)
    requires Run(bars, n) == Ok(t) && bar < n
    requires forall b :: 0 <= b < n && b != bar && bars(b).Ok? ==> x !in Track(bars(b).value, k)
    ensures bars(bar).Ok?
    ensures multiset(Track(t, k))[x] == multiset(Track(bars(bar).value, k))[x]
  {
    RunOutcome(bars, n);
    var t', u := Run(bars, n - 1).value, bars(n - 1).value;
    assert t == Append(t', u);
    assert Track(t, k) == Track(t', k) + Track(u, k);
    if n - 1 == bar {
      RunNotes(bars, n - 1, t', x);
      assert x !in Track(t', k);
    } else {
      RunCount(bars, n - 1, t', k, bar, x);
      assert x !in Track(u, k);
    }
  }

  // From steps to the bar.

  /** A note that starts at step `step` occurs in the drum notes of steps
      `from` .. 15 as often as in that step's notes, or not at all when the
      step comes before `from`. */
  lemma {:induction false} DrumsFromCount(cfg: Config, bar: nat, from: nat, step: nat, x: Note)
    requires cfg.bpm != 0.0 && step < 16 && x.start == StepTime(cfg.bpm, bar, step)
    ensures multiset(DrumsFrom(cfg, bar, from))[x] ==
              if from <= step then multiset(StepDrums(cfg, bar, step))[x] else 0
    decreases 16 - from
  {
    if from < 16 {
      DrumsFromCount(cfg, bar, from + 1, step, x);
      if from != step {
        StepDrumsContents(cfg, bar, from, x);
        if x in StepDrums(cfg, bar, from) {
          StepTimeInjective(cfg.bpm, bar, from, bar, step);
        }
      }
    }
  }

  /** The same for the bass notes of steps `from` .. 15. */
  lemma {:induction false} BassFromCount(cfg: Config, bar: nat, root: int, from: nat, step: nat, x: Note)
    requires cfg.bpm != 0.0 && step < 16 && x.start == StepTime(cfg.bpm, bar, step)
    ensures multiset(BassFrom(cfg, bar, root, from))[x] ==
              if from <= step then multiset(StepBass(cfg, bar, step, root))[x] else 0
    decreases 16 - from
  {
    if from < 16 {
      BassFromCount(cfg, bar, root, from + 1, step, x);
      if from != step {
        StepBassContents(cfg, bar, from, root, x);
        if x in StepBass(cfg, bar, from, root) {
          StepTimeInjective(cfg.bpm, bar, from, bar, step);
        }
      }
    }
  }

  // No other bar holds a note of this step.

  lemma DrumsElsewhere(cfg: Config, bar: nat, step: nat, b: nat, x: Note)
    requires Bars(cfg)(b).Ok? && b != bar && step < 16
    ensures cfg.bpm != 0.0
    ensures x.start == StepTime(cfg.bpm, bar, step) ==> x !in Track(Bars(cfg)(b).value, 0)
  {
    BarNotes(cfg, b);
    DrumsFromNotes(cfg, b, 0, x);
    if x in DrumsFrom(cfg, b, 0) {
      var s :| 0 <= s < 16 && x in StepDrums(cfg, b, s);
      StepDrumsContents(cfg, b, s, x);
      StepTimeInjective(cfg.bpm, b, s, bar, step);
    }
  }

  lemma BassElsewhere(cfg: Config, bar: nat, step: nat, b: nat, x: Note)
    requires Bars(cfg)(b).Ok? && b != bar && step < 16
    ensures cfg.bpm != 0.0
    ensures x.start == StepTime(cfg.bpm, bar, step) ==> x !in Track(Bars(cfg)(b).value, 1)
  {
    BarNotes(cfg, b);
    var root := GetChord(b, cfg.mode, cfg.isMetal).value.root;
    BassFromNotes(cfg, b, root, 0, x);
    if x in BassFrom(cfg, b, root, 0) {
      var s :| 0 <= s < 16 && x in StepBass(cfg, b, s, root);
      StepBassContents(cfg, b, s, root, x);
      StepTimeInjective(cfg.bpm, b, s, bar, step);
    }
  }

  lemma PadElsewhere(cfg: Config, bar: nat, b: nat, x: Note)
    requires Bars(cfg)(b).Ok? && b != bar
    ensures cfg.bpm != 0.0
    ensures x.start == BarStart(cfg.bpm, bar) ==> x !in Track(Bars(cfg)(b).value, 2)
  {
    BarNotes(cfg, b);
    var tones := GetChord(b, cfg.mode, cfg.isMetal).value.tones;
    PadNotesContents(cfg, b, tones, x);
    StepTimeInjective(cfg.bpm, b, 0, bar, 0);
  }

  // The run, step by step, with multiplicity.

  /** In a successful run, a drum note that starts at step `step` of bar
      `bar` occurs exactly as often as the rules give it to that step. */
  lemma DrumCount(cfg: Config, t: Tracks, bar: nat, step: nat, x: Note)
    requires Generate(cfg) == Ok(t) && bar < cfg.bars && step < 16
    ensures cfg.bpm != 0.0
    ensures x.start == StepTime(cfg.bpm, bar, step) ==>
              multiset(t.drum)[x] == multiset(StepDrums(cfg, bar, step))[x]
  {
    GenerateOutcome(cfg);
    if x.start == StepTime(cfg.bpm, bar, step) {
      var n := BarCount(cfg);
      forall b | 0 <= b < n && b != bar && Bars(cfg)(b).Ok?
        ensures x !in Track(Bars(cfg)(b).value, 0)
      {
        DrumsElsewhere(cfg, bar, step, b, x);
      }
      RunCount(Bars(cfg), n, t, 0, bar, x);
      BarNotes(cfg, bar);
      DrumsFromCount(cfg, bar, 0, step, x);
    }
  }

  /** In a successful run, a bass note that starts at step `step` of bar
      `bar` occurs exactly as often as the rules give it to that step. */
  lemma BassCount(cfg: Config, t: Tracks, bar: nat, step: nat, root: int, x: Note)
    requires Generate(cfg) == Ok(t) && bar < cfg.bars && step < 16
    requires GetChord(bar, cfg.mode, cfg.isMetal).Ok? && root == GetChord(bar, cfg.mode, cfg.isMetal).value.root
    ensures cfg.bpm != 0.0
    ensures x.start == StepTime(cfg.bpm, bar, step) ==>
              multiset(t.bass)[x] == multiset(StepBass(cfg, bar, step, root))[x]
  {
    GenerateOutcome(cfg);
    if x.start == StepTime(cfg.bpm, bar, step) {
      OtherBarsNoBass(cfg, bar, step, x);
      RunCount(Bars(cfg), BarCount(cfg), t, 1, bar, x);
      BarNotes(cfg, bar);
      BassFromCount(cfg, bar, root, 0, step, x);
    }
  }

  lemma OtherBarsNoBass(cfg: Config, bar: nat, step: nat, x: Note)
    requires cfg.bpm != 0.0 && step < 16 && x.start == StepTime(cfg.bpm, bar, step)
    ensures forall b :: 0 <= b < BarCount(cfg) && b != bar && Bars(cfg)(b).Ok? ==> x !in Track(Bars(cfg)(b).value, 1)
  {
    forall b | 0 <= b < BarCount(cfg) && b != bar && Bars(cfg)(b).Ok?
      ensures x !in Track(Bars(cfg)(b).value, 1)
    {
      BassElsewhere(cfg, bar, step, b, x);
    }
  }

  /** In a successful run, a pad note that starts at the start of bar `bar`
      occurs exactly as often as in that bar's pad chord. */
  lemma PadCount(cfg: Config, t: Tracks, bar: nat, tones: seq<int>, x: Note)
    requires Generate(cfg) == Ok(t) && bar < cfg.bars
    requires GetChord(bar, cfg.mode, cfg.isMetal).Ok? && tones == GetChord(bar, cfg.mode, cfg.isMetal).value.tones
    ensures cfg.bpm != 0.0
    ensures x.start == BarStart(cfg.bpm, bar) ==>
              multiset(t.pad)[x] == multiset(PadNotes(cfg, bar, tones))[x]
  {
    GenerateOutcome(cfg);
    if x.start == BarStart(cfg.bpm, bar) {
      OtherBarsNoPad(cfg, bar, x);
      RunCount(Bars(cfg), BarCount(cfg), t, 2, bar, x);
      BarNotes(cfg, bar);
    }
  }

  lemma OtherBarsNoPad(cfg: Config, bar: nat, x: Note)
    requires cfg.bpm != 0.0 && x.start == BarStart(cfg.bpm, bar)
    ensures forall b :: 0 <= b < BarCount(cfg) && b != bar && Bars(cfg)(b).Ok? ==> x !in Track(Bars(cfg)(b).value, 2)
  {
    forall b | 0 <= b < BarCount(cfg) && b != bar && Bars(cfg)(b).Ok?
      ensures x !in Track(Bars(cfg)(b).value, 2)
    {
      PadElsewhere(cfg, bar, b, x);
    }
  }

  // What that means for each instrument.

  /** Each step of a bar in a successful run holds its kick, its snare and
      its hat exactly once when their rules fire, and never otherwise. */
  lemma DrumsCounted(cfg: Config, t: Tracks, bar: nat, step: nat)
    requires Generate(cfg) == Ok(t) && bar < cfg.bars && step < 16
    ensures cfg.bpm != 0.0
    ensures multiset(t.drum)[KickNote(cfg, bar, step)] == if KickFires(cfg.isMetal, bar, step) then 1 else 0
    ensures multiset(t.drum)[SnareNote(cfg, bar, step)] == if SnareFires(bar, step) then 1 else 0
    ensures multiset(t.drum)[HatNote(cfg, bar, step)] == if HatFires(bar, step) then 1 else 0
  {
    KickCounted(cfg, t, bar, step);
    SnareCounted(cfg, t, bar, step);
    HatCounted(cfg, t, bar, step);
  }

  lemma KickCounted(cfg: Config, t: Tracks, bar: nat, step: nat)
    requires Generate(cfg) == Ok(t) && bar < cfg.bars && step < 16
    ensures cfg.bpm != 0.0
    ensures multiset(t.drum)[KickNote(cfg, bar, step)] == if KickFires(cfg.isMetal, bar, step) then 1 else 0
  {
    DrumCount(cfg, t, bar, step, KickNote(cfg, bar, step));
  }

  lemma SnareCounted(cfg: Config, t: Tracks, bar: nat, step: nat)
    requires Generate(cfg) == Ok(t) && bar < cfg.bars && step < 16
    ensures cfg.bpm != 0.0
    ensures multiset(t.drum)[SnareNote(cfg, bar, step)] == if SnareFires(bar, step) then 1 else 0
  {
    DrumCount(cfg, t, bar, step, SnareNote(cfg, bar, step));
  }

  lemma HatCounted(cfg: Config, t: Tracks, bar: nat, step: nat)
    requires Generate(cfg) == Ok(t) && bar < cfg.bars && step < 16
    ensures cfg.bpm != 0.0
    ensures multiset(t.drum)[HatNote(cfg, bar, step)] == if HatFires(bar, step) then 1 else 0
  {
    DrumCount(cfg, t, bar, step, HatNote(cfg, bar, step));
  }

  /** Every bar of a successful run has exactly one bass note on its chord
      root, and each step holds its run note once when the run's rule
      fires, and never otherwise. */
  lemma BassCounted(cfg: Config, t: Tracks, bar: nat, step: nat, root: int)
    requires Generate(cfg) == Ok(t) && bar < cfg.bars && step < 16
    requires GetChord(bar, cfg.mode, cfg.isMetal).Ok? && root == GetChord(bar, cfg.mode, cfg.isMetal).value.root
    ensures cfg.bpm != 0.0
    ensures multiset(t.bass)[RootNote(cfg, bar, root)] == 1
    ensures multiset(t.bass)[RunNote(cfg, bar, step)] == if RunFires(bar, step) then 1 else 0
  {
    RootOnce(cfg, t, bar, root);
    RunCounted(cfg, t, bar, step, root);
  }

  lemma RootOnce(cfg: Config, t: Tracks, bar: nat, root: int)
    requires Generate(cfg) == Ok(t) && bar < cfg.bars
    requires GetChord(bar, cfg.mode, cfg.isMetal).Ok? && root == GetChord(bar, cfg.mode, cfg.isMetal).value.root
    ensures cfg.bpm != 0.0
    ensures multiset(t.bass)[RootNote(cfg, bar, root)] == 1
  {
    BassCount(cfg, t, bar, 0, root, RootNote(cfg, bar, root));
    StepBassCounts(cfg, bar, 0, root);
  }

  lemma RunCounted(cfg: Config, t: Tracks, bar: nat, step: nat, root: int)
    requires Generate(cfg) == Ok(t) && bar < cfg.bars && step < 16
    requires GetChord(bar, cfg.mode, cfg.isMetal).Ok? && root == GetChord(bar, cfg.mode, cfg.isMetal).value.root
    ensures cfg.bpm != 0.0
    ensures multiset(t.bass)[RunNote(cfg, bar, step)] == if RunFires(bar, step) then 1 else 0
  {
    BassCount(cfg, t, bar, step, root, RunNote(cfg, bar, step));
    StepBassCounts(cfg, bar, step, root);
  }

  /** The root and the run note of a step differ in velocity, so each is
      counted on its own. */
  lemma StepBassCounts(cfg: Config, bar: nat, step: nat, root: int)
    requires cfg.bpm != 0.0
    ensures multiset(StepBass(cfg, bar, step, root))[RootNote(cfg, bar, root)] == if step == 0 then 1 else 0
    ensures multiset(StepBass(cfg, bar, step, root))[RunNote(cfg, bar, step)] == if RunFires(bar, step) then 1 else 0
  {
    if step == 0 {
      assert RootNote(cfg, bar, root).velocity != RunNote(cfg, bar, step).velocity;
    }
  }

  /** Each chord tone of an even bar of a successful run sounds one octave
      up as often as it occurs in the chord; odd bars add no pad notes. */
  lemma PadCounted(cfg: Config, t: Tracks, bar: nat, tones: seq<int>, tone: int)
    requires Generate(cfg) == Ok(t) && bar < cfg.bars
    requires GetChord(bar, cfg.mode, cfg.isMetal).Ok? && tones == GetChord(bar, cfg.mode, cfg.isMetal).value.tones
    ensures cfg.bpm != 0.0
    ensures multiset(t.pad)[PadNote(cfg, bar, tone)] == if bar % 2 == 0 then multiset(tones)[tone] else 0
  {
    PadCount(cfg, t, bar, tones, PadNote(cfg, bar, tone));
    PadNotesCount(cfg, bar, tones, tone);
  }

  /** The pad chord holds the note of a tone as often as the chord holds
      the tone. */
  lemma {:induction false} PadNotesCount(cfg: Config, bar: nat, tones: seq<int>, tone: int)
    requires cfg.bpm != 0.0
    ensures multiset(PadNotes(cfg, bar, tones))[PadNote(cfg, bar, tone)] ==
              if bar % 2 == 0 then multiset(tones)[tone] else 0
    decreases |tones|
  {
    if bar % 2 == 0 && |tones| > 0 {
      var init := tones[..|tones| - 1];
      PadNotesCount(cfg, bar, init, tone);
      assert PadNotes(cfg, bar, tones) == PadNotes(cfg, bar, init) + [PadNote(cfg, bar, tones[|tones| - 1])];
      assert tones == init + [tones[|tones| - 1]];
    }
  }

  // The worked example, with exact counts.

  /** One bar of the standard preset in Aeolian at 120 bpm: exactly four
      kicks (108, 0.12 s), at 0, 0.5, 1.0 and 1.5 s, and no other pitch-36
      note; exactly one root note, A2 (45, velocity 112) from 0 to 0.95 s,
      and no other bass note at velocity 112. */
  lemma StandardFirstBar(t: Tracks)
    requires Generate(Config(0, 120.0, 1, false)) == Ok(t)
    ensures forall s :: 0 <= s < 16 ==>
      multiset(t.drum)[Note(108, 36, s as real * 0.125, s as real * 0.125 + 0.12)] == if s % 4 == 0 then 1 else 0
    ensures forall x :: x in t.drum && x.pitch == 36 ==>
      exists s :: 0 <= s < 16 && s % 4 == 0 && x == Note(108, 36, s as real * 0.125, s as real * 0.125 + 0.12)
    ensures multiset(t.bass)[Note(112, 45, 0.0, 0.95)] == 1
    ensures forall x :: x in t.bass && x.velocity == 112 ==> x == Note(112, 45, 0.0, 0.95)
  {
    var cfg := Config(0, 120.0, 1, false);
    forall s | 0 <= s < 16
      ensures multiset(t.drum)[Note(108, 36, s as real * 0.125, s as real * 0.125 + 0.12)] == if s % 4 == 0 then 1 else 0
    {
      StandardKickCount(cfg, t, s);
    }
    forall x | x in t.drum && x.pitch == 36
      ensures exists s :: 0 <= s < 16 && s % 4 == 0 && x == Note(108, 36, s as real * 0.125, s as real * 0.125 + 0.12)
    {
      OnlyKicks(cfg, t, x);
    }
    StandardTonics();
    StandardRootCount(cfg, t);
    forall x | x in t.bass && x.velocity == 112
      ensures x == Note(112, 45, 0.0, 0.95)
    {
      OnlyRoot(cfg, t, x);
    }
  }

  lemma StandardKickCount(cfg: Config, t: Tracks, s: nat)
    requires Generate(cfg) == Ok(t) && cfg.bpm == 120.0 && cfg.bars > 0 && !cfg.isMetal && s < 16
    ensures multiset(t.drum)[Note(108, 36, s as real * 0.125, s as real * 0.125 + 0.12)] == if s % 4 == 0 then 1 else 0
  {
    KickCounted(cfg, t, 0, s);
    KickAt120(cfg, s);
  }

  /** With one bar of the standard preset at 120 bpm, a pitch-36 drum note
      is the kick of a step 0, 4, 8 or 12. */
  lemma OnlyKicks(cfg: Config, t: Tracks, x: Note)
    requires Generate(cfg) == Ok(t) && cfg.bpm == 120.0 && cfg.bars == 1 && !cfg.isMetal
    requires x in t.drum && x.pitch == 36
    ensures exists s :: 0 <= s < 16 && s % 4 == 0 && x == Note(108, 36, s as real * 0.125, s as real * 0.125 + 0.12)
  {
    DrumsOfOnlyBar(cfg, t, x);
    var s :| 0 <= s < 16 && x in StepDrums(cfg, 0, s);
    StepDrumsContents(cfg, 0, s, x);
    assert x == KickNote(cfg, 0, s) && s % 4 == 0;
    KickAt120(cfg, s);
  }

  lemma StandardRootCount(cfg: Config, t: Tracks)
    requires Generate(cfg) == Ok(t) && cfg.bpm == 120.0 && cfg.bars > 0 && !cfg.isMetal
    requires GetChord(0, cfg.mode, cfg.isMetal) == Ok(Chord(45, [45, 48, 52, 55]))
    ensures multiset(t.bass)[Note(112, 45, 0.0, 0.95)] == 1
  {
    BassCounted(cfg, t, 0, 0, 45);
    RootAt120(cfg);
  }

  /** With one bar of the standard preset in Aeolian at 120 bpm, the only
      bass note at velocity 112 is the root note: run notes have velocity
      105 or 88. */
  lemma OnlyRoot(cfg: Config, t: Tracks, x: Note)
    requires Generate(cfg) == Ok(t) && cfg.bpm == 120.0 && cfg.bars == 1 && !cfg.isMetal
    requires GetChord(0, cfg.mode, cfg.isMetal) == Ok(Chord(45, [45, 48, 52, 55]))
    requires x in t.bass && x.velocity == 112
    ensures x == Note(112, 45, 0.0, 0.95)
  {
    BassOfOnlyBar(cfg, t, 45, x);
    var s :| 0 <= s < 16 && x in StepBass(cfg, 0, s, 45);
    StepBassContents(cfg, 0, s, 45, x);
    assert x == RootNote(cfg, 0, 45);
    RootAt120(cfg);
  }

  /** The drum notes of a one-bar run are those of the steps of bar 0. */
  lemma DrumsOfOnlyBar(cfg: Config, t: Tracks, x: Note)
    requires Generate(cfg) == Ok(t) && cfg.bars == 1
    requires x in t.drum
    ensures cfg.bpm != 0.0
    ensures exists s :: 0 <= s < 16 && x in StepDrums(cfg, 0, s)
  {
    GenerateOutcome(cfg);
    RunNotes(Bars(cfg), 1, t, x);
    assert x in Bars(cfg)(0).value.drum;
    BarNotes(cfg, 0);
    DrumsFromNotes(cfg, 0, 0, x);
  }

  /** The bass notes of a one-bar run are those of the steps of bar 0. */
  lemma BassOfOnlyBar(cfg: Config, t: Tracks, root: int, x: Note)
    requires Generate(cfg) == Ok(t) && cfg.bars == 1
    requires GetChord(0, cfg.mode, cfg.isMetal).Ok? && root == GetChord(0, cfg.mode, cfg.isMetal).value.root
    requires x in t.bass
    ensures cfg.bpm != 0.0
    ensures exists s :: 0 <= s < 16 && x in StepBass(cfg, 0, s, root)
  {
    GenerateOutcome(cfg);
    RunNotes(Bars(cfg), 1, t, x);
    assert x in Bars(cfg)(0).value.bass;
    BarNotes(cfg, 0);
    BassFromNotes(cfg, 0, root, 0, x);
  }
}
