/** When a run of the generator raises, and with which exception; and the
    run with the corrected chord function, which only raises for a zero
    tempo or a mode that selects no table. */
module Outcome {
  import opened Runtime
  import opened Harmony
  import opened Rules

  /** A bar plays exactly when the tempo is non-zero and its chord exists;
      a zero tempo raises ZeroDivisionError before the chord is looked up. */
  lemma BarOutcome(cfg: Config, bar: nat)
    ensures Bars(cfg)(bar).Ok? <==>
              cfg.bpm != 0.0 && -4 <= cfg.mode < 4 && (bar % 4 != 3 || cfg.mode == 3)
    ensures Bars(cfg)(bar).Err? ==>
              Bars(cfg)(bar).error == if cfg.bpm == 0.0 then ZeroDivisionError else IndexError
  {
  }

  /** Bars played in order succeed exactly when each bar does; a run that
      raises carries the exception of its first bar that raises. */
  lemma {:induction false} RunOutcome(bars: nat -> Result<Tracks>, n: nat)
    ensures Run(bars, n).Ok? <==> forall b :: 0 <= b < n ==> bars(b).Ok?
    ensures Run(bars, n).Err? ==>
              exists b :: 0 <= b < n && bars(b) == Err(Run(bars, n).error) &&
                          forall b' :: 0 <= b' < b ==> bars(b').Ok?
  {
    if n > 0 {
      RunOutcome(bars, n - 1);
      if Run(bars, n - 1).Ok? && bars(n - 1).Err? {
        assert bars(n - 1) == Err(Run(bars, n).error);
      }
    }
  }

  /** A run with at least one bar succeeds exactly when the tempo is
      non-zero, `MODE_OFFSETS[mode]` exists, and no bar reaches the dominant
      phase unless the mode is Mixolydian; a zero tempo raises
      ZeroDivisionError and every other failure is an IndexError. */
  lemma GenerateOutcome(cfg: Config)
    ensures Generate(cfg).Ok? <==>
              cfg.bars <= 0 || (cfg.bpm != 0.0 && -4 <= cfg.mode < 4 && (cfg.mode == 3 || cfg.bars <= 3))
    ensures cfg.bars > 0 && cfg.bpm == 0.0 ==> Generate(cfg) == Err(ZeroDivisionError)
    ensures cfg.bpm != 0.0 && Generate(cfg).Err? ==> Generate(cfg) == Err(IndexError)
  {
    var n := BarCount(cfg);
    RunOutcome(Bars(cfg), n);
    if cfg.bars <= 0 {
    } else if cfg.bpm == 0.0 || !(-4 <= cfg.mode < 4) {
      BarOutcome(cfg, 0);
      RaisedError(cfg);
    } else if cfg.mode != 3 && cfg.bars > 3 {
      BarOutcome(cfg, 3);
      RaisedError(cfg);
    } else {
      forall b | 0 <= b < n
        ensures Bars(cfg)(b).Ok?
      {
        BarOutcome(cfg, b);
      }
    }
  }

  /** The exception a run raises: ZeroDivisionError for a zero tempo,
      IndexError otherwise. */
  lemma RaisedError(cfg: Config)
    requires Generate(cfg).Err?
    ensures Generate(cfg).error == if cfg.bpm == 0.0 then ZeroDivisionError else IndexError
  {
    var n := BarCount(cfg);
    RunOutcome(Bars(cfg), n);
    var b :| 0 <= b < n && Bars(cfg)(b) == Err(Generate(cfg).error);
    BarOutcome(cfg, b);
  }

  /** The metal preset (Phrygian, 96 bpm, 128 bars) raises IndexError: its
      fourth bar asks for degree 7 of a seven-degree table. */
  lemma ArgentPresetFails()
    ensures Generate(Config(2, 96.0, 128, true)) == Err(IndexError)
  {
    GenerateOutcome(Config(2, 96.0, 128, true));
  }

  /** Each bar's outcome with the chord function corrected. */
  function CorrectedBars(cfg: Config): nat -> Result<Tracks>
  {
    (b: nat) => BarOf(cfg, b, GetChordCorrected(b, cfg.mode, cfg.isMetal))
  }

  /** Runs whose bars agree agree. */
  lemma {:induction false} RunsAgree(bars: nat -> Result<Tracks>, bars': nat -> Result<Tracks>, n: nat)
    requires forall b :: 0 <= b < n ==> bars(b) == bars'(b)
    ensures Run(bars, n) == Run(bars', n)
  {
    if n > 0 {
      RunsAgree(bars, bars', n - 1);
    }
  }

  /** With the corrected chord a bar plays exactly when the tempo is
      non-zero and the mode selects a table, and a bar that plays with the
      written chord plays the same notes with the corrected one. */
  lemma CorrectedBarOutcome(cfg: Config, bar: nat)
    ensures CorrectedBars(cfg)(bar).Ok? <==> cfg.bpm != 0.0 && -4 <= cfg.mode < 4
    ensures Bars(cfg)(bar).Ok? ==> CorrectedBars(cfg)(bar) == Bars(cfg)(bar)
  {
    CorrectedChord(bar, cfg.mode, cfg.isMetal);
  }

  /** With the corrected chord a run raises only for a zero tempo or a mode
      outside -4..3, and it plays the same notes as the written generator
      wherever that one succeeds. */
  lemma CorrectedRun(cfg: Config)
    ensures Run(CorrectedBars(cfg), BarCount(cfg)).Ok? <==>
              cfg.bars <= 0 || (cfg.bpm != 0.0 && -4 <= cfg.mode < 4)
    ensures Generate(cfg).Ok? ==> Run(CorrectedBars(cfg), BarCount(cfg)) == Generate(cfg)
  {
    var n := BarCount(cfg);
    RunOutcome(CorrectedBars(cfg), n);
    if cfg.bars <= 0 {
    } else if !(cfg.bpm != 0.0 && -4 <= cfg.mode < 4) {
      CorrectedBarOutcome(cfg, 0);
    } else {
      forall b | 0 <= b < n
        ensures CorrectedBars(cfg)(b).Ok?
      {
        CorrectedBarOutcome(cfg, b);
      }
    }
    if Generate(cfg).Ok? {
      CorrectedAgrees(cfg);
    }
  }

  /** Wherever the written generator succeeds, the corrected one produces
      the same tracks. */
  lemma CorrectedAgrees(cfg: Config)
    requires Generate(cfg).Ok?
    ensures Run(CorrectedBars(cfg), BarCount(cfg)) == Generate(cfg)
  {
    var n := BarCount(cfg);
    RunOutcome(Bars(cfg), n);
    forall b | 0 <= b < n
      ensures CorrectedBars(cfg)(b) == Bars(cfg)(b)
    {
      CorrectedBarOutcome(cfg, b);
    }
    RunsAgree(CorrectedBars(cfg), Bars(cfg), n);
  }

  /** With the corrected chord the metal preset plays all its 128 bars. */
  lemma ArgentPresetCorrected()
    ensures Run(CorrectedBars(Config(2, 96.0, 128, true)), 128).Ok?
  {
    CorrectedRun(Config(2, 96.0, 128, true));
  }
}
