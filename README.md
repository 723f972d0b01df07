# DeMoD Sierpinski Beater — the generation engine in Dafny

The DeMoD Sierpinski Beater writes a three-instrument MIDI arrangement:
drums, bass and a harmonic pad. A fractal hit test decides where the drums
and the bass run play. That test is the parity of a row of Pascal's
triangle (the Sierpinski triangle), or'ed with three bit patterns of the
step. A four-bar chord cycle (tonic, tonic, mediant, dominant) in one of
four modes gives the bass root and the pad chord. There are two presets.
The standard preset is rooted on A2. The "Argent Metal" preset is rooted
on E2 and has a double-kick feel, a ride cymbal and palm-muted bass.

This project models the engine of `demod_sierpinski_beater.py`:

- the pitch tables `MODE_OFFSETS` and `PENTATONIC_BASE`;
- `get_chord`;
- `is_sierpinski_hit`;
- the bar/step loop of `generate_midi`.

It proves what these produce. The modules are:

- `Runtime`: the Python behaviour the code relies on. This is list
  indexing with negative indices and `IndexError`, and the exceptions a
  run can raise (`IndexError`, `ZeroDivisionError`).
- `Scales`: the mode and pentatonic tables.
- `Harmony`: `get_chord` as written, and a corrected variant (see
  Findings).
- `Fractal`: `is_sierpinski_hit`, with exact binomials, `&` and `>>`.
  It includes a proof of Lucas' theorem modulo 2, which gives the hit
  table of the sixteen steps for every variation.
- `Rules`: the rule table as pure functions. For each step it gives the
  notes the step adds to each instrument, and it gives the pad chord of
  each even bar. The outcome of a run is `Generate`, including the first
  exception that aborts it.
- `Generator`: the nested loop of `generate_midi` as an imperative method
  that appends to the three note lists. It is proved to produce exactly
  `Generate(cfg)`.
- `Outcome`: which configurations raise, and which exception they raise.
  It also covers the run with the corrected chord function.
- `Rhythm`: the closed-form rhythm of each instrument.
- `Notes`: what a successful run contains. The notes that start on a step
  are exactly the notes the rules give that step, with their
  multiplicity. With a positive tempo every note is valid MIDI.
- `Counts`: how often each note occurs in a successful run. Every bar
  has exactly one root note, each drum sounds at most once per step, and
  the pad sounds each chord tone once per even bar. It ends with a worked
  example: one standard bar at 120 bpm.

## Model

| member | source | states |
|---|---|---|
| Runtime.Index | demod_sierpinski_beater.py:75 | Python list indexing: succeeds exactly for -len <= i < len, counting from the end for a negative index, and raises IndexError otherwise |
| Scales.ModeTablesShape | demod_sierpinski_beater.py:35-40 | the four modes have seven strictly ascending degrees from the root. Each has a fifth on degree 4 and a minor seventh on degree 6. Only Mixolydian has a major third |
| Scales.OffsetsInOctave | demod_sierpinski_beater.py:35-40 | every degree of every mode is 0 to 10 semitones above the root |
| Scales.PentatonicShape | demod_sierpinski_beater.py:42 | the run has five ascending offsets, 0 to 10, each of them a degree of Aeolian and of Dorian |
| Harmony.RootBase | demod_sierpinski_beater.py:76 | the root base is E2 (40) in the metal preset and A2 (45) otherwise |
| Harmony.ModeTable | demod_sierpinski_beater.py:75 | `MODE_OFFSETS[mode]` exists exactly for mode in -4..3 (a negative mode counts from the end) and is a seven-degree table; any other mode raises IndexError |
| Harmony.ScaleTones | demod_sierpinski_beater.py:80 | the tone comprehension succeeds exactly when every degree indexes the table. Tone i is then the root base plus the offset of degree i. Otherwise it raises IndexError |
| Harmony.PhaseDegrees | demod_sierpinski_beater.py:77-88 | each phase has a root degree and four chord degrees, starting on the root degree. All of them are in range unless the phase is the dominant outside Mixolydian with an out-of-range fallback |
| Harmony.ChordWith | demod_sierpinski_beater.py:74-89 | the chord exists exactly when the mode selects a table and the dominant's third degree is in range; otherwise IndexError |
| Harmony.GetChord | demod_sierpinski_beater.py:74-89 | `get_chord` as written succeeds exactly for a mode in -4..3 and a bar that is not in the dominant phase, unless the mode is Mixolydian; the failure is IndexError |
| Harmony.GetChordCorrected | demod_sierpinski_beater.py:86-89 | with degree 0 in place of degree 7, the chord exists for every bar once the mode selects a table |
| Harmony.ChordDegrees | demod_sierpinski_beater.py:74-89 | an existing chord has four tones. Its root and tone i are the root base plus the selected mode's offsets at the phase's degrees |
| Harmony.TonicChord | demod_sierpinski_beater.py:78-81 | bars 0 and 1 of the cycle: root on degree 0, tones on degrees 0, 2, 4, 6 (5 in Phrygian) |
| Harmony.MediantChord | demod_sierpinski_beater.py:82-85 | bar 2 of the cycle: root on degree 2, tones on degrees 2, 4, 6, 0 (1 in Mixolydian) |
| Harmony.DominantChord | demod_sierpinski_beater.py:86-89 | bar 3 of the cycle: root on degree 4 and tones on degrees 4, 6, 1, 3 in Mixolydian; IndexError in every other mode |
| Harmony.ChordShape | demod_sierpinski_beater.py:74-89 | any existing chord has four tones and starts on its root. The root and every tone are degrees of the selected mode, 0 to 10 semitones above the root base |
| Harmony.StandardTonics | demod_sierpinski_beater.py:76-81 | the standard tonic chords of the four modes, pitch by pitch |
| Harmony.StandardMediants | demod_sierpinski_beater.py:82-85 | the standard mediant chords of the four modes, pitch by pitch |
| Harmony.StandardDominants | demod_sierpinski_beater.py:86-89 | the standard dominant chord is E, G, B, D in Mixolydian; the other three modes raise IndexError |
| Harmony.MetalTransposesDown | demod_sierpinski_beater.py:76 | the metal chord of every bar is the standard chord five semitones lower, and it fails exactly when the standard one does |
| Harmony.ChordPeriodic | demod_sierpinski_beater.py:77 | the chord depends on the bar only through bar % 4 |
| Harmony.CorrectedChord | demod_sierpinski_beater.py:86-89 | the corrected chord equals the written one wherever the written one exists. Its dominant chord outside Mixolydian is on degrees 4, 6, 0, 3 |
| Harmony.CorrectedMetalRoots | demod_sierpinski_beater.py:192-196 | with the corrected chord, the metal preset (Phrygian) has the roots 40, 40, 43, 47 over the cycle |
| Fractal.Binomial | demod_sierpinski_beater.py:92 | `math.comb(n, k)` by Pascal's rule: C(n, 0) = 1, C(0, k) = 0 for k > 0, C(n, k) = C(n-1, k-1) + C(n-1, k) |
| Fractal.BitAnd | demod_sierpinski_beater.py:93 | `a & b` is at most each operand |
| Fractal.ShiftRight | demod_sierpinski_beater.py:93 | `a >> k` is at most a, and strictly less when a > 0 and k > 0 |
| Fractal.BinomialPastRow | demod_sierpinski_beater.py:92 | C(n, k) = 0 for k > n, as `math.comb` gives |
| Fractal.EvenRowParity | demod_sierpinski_beater.py:92 | C(2m, 2j) has the parity of C(m, j), and C(2m, 2j+1) is even |
| Fractal.OddRowParity | demod_sierpinski_beater.py:92 | C(2m+1, k) has the parity of C(m, k / 2) |
| Fractal.LucasParity | demod_sierpinski_beater.py:92 | Lucas' theorem mod 2: C(n, k) is odd exactly when every bit of k is a bit of n (k & n == k) |
| Fractal.PascalHit | demod_sierpinski_beater.py:92 | the Pascal test: C(12 + variation, step) is odd |
| Fractal.BitwiseHit | demod_sierpinski_beater.py:93 | the bit test: step & (step >> j) is 0 for some j in 1..3 |
| Fractal.IsSierpinskiHit | demod_sierpinski_beater.py:91-94 | a step is a hit when the Pascal test or the bit test holds |
| Fractal.BitwiseHitTable | demod_sierpinski_beater.py:93 | among steps 0..15, the bit test fails exactly at 11, 13 and 15 |
| Fractal.SierpinskiHitTable | demod_sierpinski_beater.py:91-94 | a step 0..15 is a hit unless it is 11, 13 or 15 and has a bit that 12 + variation lacks |
| Fractal.HitAtStepZero | demod_sierpinski_beater.py:91-94 | step 0 is a hit, by the Pascal test, for every variation |
| Fractal.MissingStepBits | demod_sierpinski_beater.py:92 | for variations 0..7, which of steps 11, 13, 15 have all their bits in 12 + variation |
| Fractal.HitPattern | demod_sierpinski_beater.py:91-94 | for variations 0..7, a step 0..15 is a hit exactly when it is not a gap. The gaps are 11 and 15 except for variation 3, and 13 except for variations 1 and 3 |
| Rules.Pentatonic | demod_sierpinski_beater.py:103 | the run is `PENTATONIC_BASE` shifted to the root base, one pitch per offset, so it has five pitches whatever the chord |
| Rules.PentatonicPitches | demod_sierpinski_beater.py:103 | the run climbs strictly within the ten semitones above the root base; it is E G A B D from E2 (40, 43, 45, 47, 50) in the metal preset and A C D E G from A2 (45, 48, 50, 52, 55) otherwise |
| Rules.BarStart | demod_sierpinski_beater.py:108 | bar b starts at b × (60 / bpm × 4) seconds |
| Rules.StepTime | demod_sierpinski_beater.py:118 | step s of bar b starts s × (60 / bpm / 4) seconds after the bar start |
| Rules.KickFires | demod_sierpinski_beater.py:121 | the kick plays on steps 0 mod 4, and in the metal preset also on the hits of variation bar % 4 |
| Rules.SnareFires | demod_sierpinski_beater.py:126 | the snare plays on steps 6 and 14, and on steps 2 mod 4 that are hits of variation bar % 8 |
| Rules.HatFires | demod_sierpinski_beater.py:130 | the hat or ride plays on the hits of variation bar % 7 |
| Rules.RunFires | demod_sierpinski_beater.py:138 | the bass run plays on the hits of variation bar % 5 |
| Rules.KickNote | demod_sierpinski_beater.py:121-123 | the kick: pitch 36, velocity 115 (metal) or 108, lasting 0.12 s from the step time |
| Rules.SnareNote | demod_sierpinski_beater.py:127 | the snare: pitch 38, velocity 105 (metal) or 98, lasting 0.15 s from the step time |
| Rules.HatNote | demod_sierpinski_beater.py:130-132 | the ride (51, velocity 85) in the metal preset, otherwise the hat (42) at velocity 78 on steps 0 mod 4 and 48 elsewhere, lasting 0.06 s |
| Rules.RootNote | demod_sierpinski_beater.py:135-136 | the root note: the chord root at the bar start, velocity 118 for 0.25 s (metal) or 112 for 0.95 s |
| Rules.RunNote | demod_sierpinski_beater.py:138-142 | the run note: pentatonic pitch step % 5, velocity 112 (metal), or 105 on steps 0 mod 8 and 88 elsewhere, lasting 0.18 s (metal) or 0.28 s |
| Rules.PadNote | demod_sierpinski_beater.py:112-114 | a chord tone an octave up, velocity 58 (metal) or 52, from the bar start for 60 / bpm × 8 seconds |
| Rules.StepDrums | demod_sierpinski_beater.py:120-132 | the drum notes one step appends: kick, snare, hat, in that order, each when its rule fires |
| Rules.StepBass | demod_sierpinski_beater.py:134-142 | the bass notes one step appends: the root on step 0, then the run note when its rule fires |
| Rules.DrumsFrom | demod_sierpinski_beater.py:117-132 | the drum notes of steps s..15 of a bar, in step order |
| Rules.BassFrom | demod_sierpinski_beater.py:117-142 | the bass notes of steps s..15 of a bar, in step order |
| Rules.PadNotes | demod_sierpinski_beater.py:111-115 | the pad notes of a bar: one per chord tone, in chord order, on even bars only |
| Rules.BarTracks | demod_sierpinski_beater.py:111-142 | the notes one bar appends to the three instruments given its chord |
| Rules.BarOf | demod_sierpinski_beater.py:108-142 | a bar raises ZeroDivisionError for a zero tempo, otherwise the exception of its chord lookup, otherwise plays its notes |
| Rules.BarResult | demod_sierpinski_beater.py:108-142 | bar b with the chord `get_chord` gives it |
| Rules.Bars | demod_sierpinski_beater.py:107-142 | the outcome of each bar of a configuration |
| Rules.Run | demod_sierpinski_beater.py:107 | bars 0..n-1 played in order, notes appended bar by bar, stopping at the first bar that raises |
| Rules.BarCount | demod_sierpinski_beater.py:107 | `range(bars)` has bars elements, none for bars <= 0 |
| Rules.Generate | demod_sierpinski_beater.py:103-145 | the outcome of `generate_midi`: the notes of all its bars, or the first exception raised |
| Rules.FirstErrorStands | demod_sierpinski_beater.py:107-109 | once a bar raises, the run's outcome is that exception, whatever the later bars |
| Generator.GenerateMidi | demod_sierpinski_beater.py:103-145 | the loop appends exactly the notes of `Generate` to the three instruments, or raises its exception |
| Generator.PlayPad | demod_sierpinski_beater.py:111-115 | the pad list gains the bar's pad notes, on even bars only |
| Generator.PlaySteps | demod_sierpinski_beater.py:117-142 | the drum and bass lists gain the notes of the sixteen steps in step order |
| Generator.PlayDrums | demod_sierpinski_beater.py:120-132 | the drum list gains the step's kick, snare and hat, in that order, each when its rule fires |
| Generator.PlayBass | demod_sierpinski_beater.py:134-142 | the bass list gains the root note on step 0, then the run note when its rule fires |
| Outcome.BarOutcome | demod_sierpinski_beater.py:108-109 | a bar plays exactly when the tempo is non-zero and its chord exists. A zero tempo raises ZeroDivisionError, and a missing chord raises IndexError |
| Outcome.RunOutcome | demod_sierpinski_beater.py:107 | bars in order succeed exactly when each bar does; a failed run carries the exception of its first failing bar |
| Outcome.GenerateOutcome | demod_sierpinski_beater.py:107-109 | a run succeeds exactly when bars <= 0, or when the tempo is non-zero, the mode is in -4..3, and either the mode is Mixolydian or bars <= 3. The failure is ZeroDivisionError for a zero tempo and IndexError otherwise |
| Outcome.RaisedError | demod_sierpinski_beater.py:107-109 | a failed run raises ZeroDivisionError for a zero tempo and IndexError otherwise |
| Outcome.ArgentPresetFails | demod_sierpinski_beater.py:192-196 | the metal preset (Phrygian, 96 bpm, 128 bars) raises IndexError |
| Outcome.RunsAgree | demod_sierpinski_beater.py:107 | runs whose bars agree have the same outcome |
| Outcome.CorrectedBarOutcome | demod_sierpinski_beater.py:86-89 | with the corrected chord, a bar plays exactly when the tempo is non-zero and the mode selects a table. It plays the same notes as the written bar wherever that one plays |
| Outcome.CorrectedRun | demod_sierpinski_beater.py:86-89 | with the corrected chord, a run succeeds exactly when bars <= 0, or when the tempo is non-zero and the mode selects a table. It equals the written run wherever that one succeeds |
| Outcome.CorrectedAgrees | demod_sierpinski_beater.py:107-109 | wherever the written generator succeeds, the corrected one produces the same tracks |
| Outcome.ArgentPresetCorrected | demod_sierpinski_beater.py:192-196 | with the corrected chord, the metal preset plays all its 128 bars |
| Rhythm.KickPattern | demod_sierpinski_beater.py:121 | standard kick: exactly steps 0, 4, 8, 12. Metal kick: every step but the gaps of variation bar % 4 |
| Rhythm.SnarePattern | demod_sierpinski_beater.py:126 | the snare plays exactly on steps 2, 6, 10, 14 of every bar |
| Rhythm.HatPattern | demod_sierpinski_beater.py:130 | the hat/ride plays on every step but the gaps of variation bar % 7 |
| Rhythm.RunPattern | demod_sierpinski_beater.py:138 | the bass run plays on every step but the gaps of variation bar % 5, step 0 included |
| Notes.StepTimeGrid | demod_sierpinski_beater.py:108-118 | step s of bar b starts 16 b + s sixteenths of 60 / (4 bpm) seconds into the piece |
| Notes.StepTimeInjective | demod_sierpinski_beater.py:108-118 | two grid steps start together only when they are the same step of the same bar |
| Notes.DrumsFromNotes | demod_sierpinski_beater.py:117-132 | the drum notes of a bar from step s on are exactly those of its steps s..15 |
| Notes.BassFromNotes | demod_sierpinski_beater.py:117-142 | the bass notes of a bar from step s on are exactly those of its steps s..15 |
| Notes.RunNotes | demod_sierpinski_beater.py:107 | the notes of a successful run are exactly those of its bars, and every bar succeeded |
| Notes.BarNotes | demod_sierpinski_beater.py:107-142 | a bar that plays has a chord, and it holds its steps' drum and bass notes and that chord's pad notes |
| Notes.StepDrumsContents | demod_sierpinski_beater.py:120-132 | a step's drum notes are its kick, snare and hat, each exactly when its rule fires, and all start at the step's time |
| Notes.StepBassContents | demod_sierpinski_beater.py:134-142 | a step's bass notes are the root note (step 0 only) and the run note when its rule fires, starting at the step's time |
| Notes.PadNotesContents | demod_sierpinski_beater.py:111-115 | a bar's pad notes are, in chord order, one note per chord tone on even bars and none on odd bars, all starting at the bar start |
| Notes.DrumOrigin | demod_sierpinski_beater.py:117-132 | every drum note of a successful run comes from some step of some bar |
| Notes.StepDrumsInRun | demod_sierpinski_beater.py:117-132 | every drum note the rules give a step of a bar in range is in the run |
| Notes.DrumsAtStep | demod_sierpinski_beater.py:117-132 | the drum notes starting at a step are exactly the ones the rules give that step |
| Notes.DrumsPlayed | demod_sierpinski_beater.py:120-132 | a step holds its kick, snare and hat exactly when their rules fire |
| Notes.BassOrigin | demod_sierpinski_beater.py:134-142 | every bass note of a successful run is a root or run note of some step of some bar |
| Notes.StepBassInRun | demod_sierpinski_beater.py:134-142 | every bass note the rules give a step of a bar in range is in the run |
| Notes.BassAtStep | demod_sierpinski_beater.py:134-142 | the bass notes starting at a step are exactly the ones the rules give that step |
| Notes.BassPlayed | demod_sierpinski_beater.py:134-142 | a step holds its run note exactly when the run rule fires. At the bar start the bass holds exactly two distinct notes, the chord root and the first run note (for how often each occurs, see `Counts.BassCounted`) |
| Notes.PadPlayed | demod_sierpinski_beater.py:111-115 | the pad notes at a bar start are exactly its chord's pad notes. A chord tone sounds an octave up exactly on even bars (for how often, see `Counts.PadCounted`) |
| Notes.PadOrigin | demod_sierpinski_beater.py:111-115 | every pad note of a successful run belongs to the chord of some bar |
| Notes.PadAtBar | demod_sierpinski_beater.py:111-115 | the pad notes starting at a bar start are exactly that bar's pad notes |
| Notes.StepTimeNonNegative | demod_sierpinski_beater.py:108-118 | with a positive tempo, no step starts before time 0 |
| Notes.DrumNotesValid | demod_sierpinski_beater.py:120-132 | with a positive tempo, every drum note is valid MIDI with a pitch of 36 to 51 and a positive length |
| Notes.BassNotesValid | demod_sierpinski_beater.py:134-142 | with a positive tempo, every bass note is valid MIDI, 0 to 10 semitones above the root base |
| Notes.RunNoteValid | demod_sierpinski_beater.py:138-142 | a run note is valid MIDI, 0 to 10 semitones above the root base |
| Notes.RootNoteValid | demod_sierpinski_beater.py:135-136 | a root note on a chord root is valid MIDI |
| Notes.PadNotesValid | demod_sierpinski_beater.py:111-115 | with a positive tempo, every pad note is valid MIDI, 12 to 22 semitones above the root base, and lasts two bars |
| Notes.PadNoteValid | demod_sierpinski_beater.py:113-114 | a pad note on a chord tone is valid MIDI and lasts two bars |
| Notes.FourOnTheFloor | demod_sierpinski_beater.py:121-123 | in the standard preset every bar has its kick on steps 0, 4, 8, 12 and on no other step |
| Notes.KickAt120 | demod_sierpinski_beater.py:118-123 | at 120 bpm the standard kick of step s of bar 0 starts at s × 0.125 s and lasts 0.12 s |
| Notes.RootAt120 | demod_sierpinski_beater.py:135-136 | at 120 bpm the standard root note on A2 sounds from 0 to 0.95 s |
| Notes.SixteenthAt120 | demod_sierpinski_beater.py:118 | at 120 bpm the steps of bar 0 are 0.125 s apart |
| Counts.RunCount | demod_sierpinski_beater.py:107 | a note that no other bar holds occurs in a successful run exactly as often as in its own bar |
| Counts.DrumsFromCount | demod_sierpinski_beater.py:117-132 | a note starting at step s occurs in the drum notes of steps from..15 as often as in step s's notes when from <= s, and not at all otherwise |
| Counts.BassFromCount | demod_sierpinski_beater.py:117-142 | the same for the bass notes of steps from..15 |
| Counts.DrumsElsewhere | demod_sierpinski_beater.py:117-132 | a note starting at a step of one bar is not among the drum notes of another bar |
| Counts.BassElsewhere | demod_sierpinski_beater.py:117-142 | a note starting at a step of one bar is not among the bass notes of another bar |
| Counts.PadElsewhere | demod_sierpinski_beater.py:108-115 | a note starting at the start of one bar is not among the pad notes of another bar |
| Counts.DrumCount | demod_sierpinski_beater.py:117-132 | in a successful run, a drum note starting at a step occurs exactly as often as the rules give it to that step |
| Counts.BassCount | demod_sierpinski_beater.py:117-142 | in a successful run, a bass note starting at a step occurs exactly as often as the rules give it to that step |
| Counts.PadCount | demod_sierpinski_beater.py:108-115 | in a successful run, a pad note starting at a bar start occurs exactly as often as in that bar's pad notes |
| Counts.DrumsCounted | demod_sierpinski_beater.py:120-132 | every step of every bar holds its kick, its snare and its hat exactly once when its rule fires and never otherwise |
| Counts.KickCounted | demod_sierpinski_beater.py:121-123 | the kick of a step occurs once when the kick rule fires and never otherwise |
| Counts.SnareCounted | demod_sierpinski_beater.py:126-127 | the snare of a step occurs once when the snare rule fires and never otherwise |
| Counts.HatCounted | demod_sierpinski_beater.py:130-132 | the hat or ride of a step occurs once when its rule fires and never otherwise |
| Counts.BassCounted | demod_sierpinski_beater.py:134-142 | every bar has exactly one bass note on its chord root, and each step holds its run note once when the run rule fires and never otherwise |
| Counts.RootOnce | demod_sierpinski_beater.py:134-136 | every bar of a successful run holds its root note exactly once |
| Counts.RunCounted | demod_sierpinski_beater.py:138-142 | a step holds its run note once when the run rule fires and never otherwise |
| Counts.StepBassCounts | demod_sierpinski_beater.py:134-142 | within a step the root note occurs once on step 0 only, and the run note once when its rule fires: they differ in velocity |
| Counts.PadCounted | demod_sierpinski_beater.py:111-115 | a chord tone sounds an octave up as often as the chord holds it on even bars, and never on odd bars |
| Counts.PadNotesCount | demod_sierpinski_beater.py:111-115 | the pad notes of a bar hold the note of a tone as often as the chord holds that tone on even bars, and never on odd bars |
| Counts.StandardFirstBar | demod_sierpinski_beater.py:117-136 | one bar of the standard preset in Aeolian at 120 bpm has exactly one kick at each of 0, 0.5, 1.0 and 1.5 s and no other pitch-36 note, and exactly one bass note at velocity 112, the root A2 from 0 to 0.95 s |
| Counts.StandardKickCount | demod_sierpinski_beater.py:121-123 | at 120 bpm in the standard preset, the kick at s × 0.125 s occurs once when s is 0 mod 4 and never otherwise |
| Counts.OnlyKicks | demod_sierpinski_beater.py:121-123 | with one standard bar at 120 bpm, every pitch-36 drum note is the kick of step 0, 4, 8 or 12 |
| Counts.StandardRootCount | demod_sierpinski_beater.py:134-136 | with the Aeolian tonic A2 at 120 bpm, the root note from 0 to 0.95 s occurs exactly once |
| Counts.OnlyRoot | demod_sierpinski_beater.py:134-142 | with one standard Aeolian bar at 120 bpm, the only bass note at velocity 112 is the root: run notes have velocity 105 or 88 |
| Counts.DrumsOfOnlyBar | demod_sierpinski_beater.py:117-132 | the drum notes of a one-bar run are those of the steps of bar 0 |
| Counts.BassOfOnlyBar | demod_sierpinski_beater.py:117-142 | the bass notes of a one-bar run are those of the steps of bar 0 |

## Left out

- The interactive menu, the command line, soundfont scanning
  (`find_soundfonts`, `interactive_soundfont_loader`), WAV rendering
  (`render_wav`), console and progress output, and `MODE_NAMES`. These
  are I/O around the engine.
- `pretty_midi` is not part of this model. A run is modelled as three
  note lists. Instrument programs and names, `midi.instruments.extend`
  and writing the file are left out.
- `pretty_midi.PrettyMIDI(initial_tempo=bpm)` (line 98) runs before the
  loop. It is library code that is not part of this model, so any
  exception it raises for a zero tempo is not modelled. With bars <= 0
  and a zero tempo, the model succeeds with empty tracks.
- Times are exact reals. The model does not capture floating-point
  rounding of `60.0 / bpm`.
- The `SierpinskiConfig` defaults and the preset-setting code (lines
  24-31 and 187-198) are configuration, not generation. The metal
  preset's values appear only in `Outcome.ArgentPresetFails`,
  `Outcome.ArgentPresetCorrected` and `Harmony.CorrectedMetalRoots`.
- `Generator.GenerateMidi` keeps only the notes; it does not return a
  `PrettyMIDI` object.
- Points where the code does something one might not expect, modelled
  as written:
  - the snare plays on steps 6 and 14 unconditionally, besides the
    fractal-guarded steps 2 mod 4;
  - the hit test ors the Pascal parity with three bit tests;
  - the bass run also plays on step 0, so at every bar start the run note
    sounds beside the root (`Notes.BassPlayed`);
  - a mode in -4..-1 selects a table through Python's negative indexing;
  - the dominant chord asks for degree 7 (see Findings).

## Findings

| source | as written | input that shows it | evidently intended | confidence | as-written member | corrected member |
|---|---|---|---|---|---|---|
| demod_sierpinski_beater.py:88 | the dominant chord's third tone is degree `1 if mode == 3 else 7` of a seven-degree table | any mode but Mixolydian at bar 3, e.g. the metal preset (mode 2, 96 bpm, 128 bars): `get_chord(3, 2, True)` raises IndexError, so generation aborts | degree 0 (the tonic), so the dominant chord is degrees 4, 6, 0, 3 and every bar has a chord | high (not executed) | Outcome.ArgentPresetFails | Outcome.CorrectedRun |
