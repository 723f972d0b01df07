/** The harmony model: the chord of each bar, following a four-bar cycle
    tonic, tonic, mediant, dominant, built from the degrees of the chosen
    mode above a fixed root (E2 for the metal preset, A2 otherwise). */
module Harmony {
  import opened Runtime
  import opened Scales

  datatype Chord = Chord(root: int, tones: seq<int>)

  function RootBase(isMetal: bool): int
  {
    if isMetal then 40 else 45
  }

  /** `MODE_OFFSETS[mode]`: a mode in -4..-1 selects a table from the end of
      the list, any other mode outside 0..3 raises IndexError. */
  function ModeTable(mode: int): (r: Result<seq<int>>)
    ensures r.Ok? <==> -4 <= mode < 4
    ensures r.Err? ==> r.error == IndexError
    ensures r.Ok? ==> r.value == ModeOffsets[(mode + 4) % 4] && |r.value| == 7
  {
    ModeTablesShape();
    Index(ModeOffsets, mode)
  }

  /** `[root_base + offsets[i] for i in degrees]`: a degree outside the table
      raises IndexError. */
  function ScaleTones(rootBase: int, offsets: seq<int>, degrees: seq<nat>): (r: Result<seq<int>>)
    ensures r.Ok? <==> forall i :: 0 <= i < |degrees| ==> degrees[i] < |offsets|
    ensures r.Err? ==> r.error == IndexError
    ensures r.Ok? ==> |r.value| == |degrees|
    ensures r.Ok? ==> forall i :: 0 <= i < |degrees| ==> r.value[i] - rootBase == offsets[degrees[i]]
  {
    if forall i :: 0 <= i < |degrees| ==> degrees[i] < |offsets| then
      Ok(seq(|degrees|, i requires 0 <= i < |degrees| => rootBase + offsets[degrees[i]]))
    else
      Err(IndexError)
  }

  /** The root degree and the four chord degrees of each phase of the cycle;
      only the dominant chord outside Mixolydian uses the fallback degree. */
  function PhaseDegrees(pos: int, mode: int, fallback: nat): (r: (nat, seq<nat>))
    ensures r.0 < 7 && |r.1| == 4 && r.1[0] == r.0
    ensures (forall i :: 0 <= i < 4 ==> r.1[i] < 7) <==> (pos < 3 || mode == 3 || fallback < 7)
  {
    if pos < 2 then (0, [0, 2, 4, if mode != 2 then 6 else 5])
    else if pos == 2 then (2, [2, 4, 6, if mode == 3 then 1 else 0])
    else
      var degrees: seq<nat> := [4, 6, if mode == 3 then 1 else fallback, 3];
      assert degrees[2] == if mode == 3 then 1 else fallback;
      (4, degrees)
  }

  /** The comprehension over four degrees, element by element. */
  lemma ScaleTonesOfFour(rootBase: int, offsets: seq<int>, a: nat, b: nat, c: nat, d: nat)
    requires a < |offsets| && b < |offsets| && c < |offsets| && d < |offsets|
    ensures ScaleTones(rootBase, offsets, [a, b, c, d]) ==
      Ok([rootBase + offsets[a], rootBase + offsets[b], rootBase + offsets[c], rootBase + offsets[d]])
  {
    var degrees: seq<nat> := [a, b, c, d];
    var r := ScaleTones(rootBase, offsets, degrees);
    assert r.Ok?;
    assert r.value[0] - rootBase == offsets[degrees[0]];
    assert r.value[1] - rootBase == offsets[degrees[1]];
    assert r.value[2] - rootBase == offsets[degrees[2]];
    assert r.value[3] - rootBase == offsets[degrees[3]];
    assert |r.value| == 4;
    assert r.value == [rootBase + offsets[a], rootBase + offsets[b], rootBase + offsets[c], rootBase + offsets[d]];
  }

  /** The chord of a bar, with the degree of the third tone of the dominant
      chord outside Mixolydian as a parameter (`fallback`). */
  function ChordWith(bar: int, mode: int, isMetal: bool, fallback: nat): (r: Result<Chord>)
    ensures r.Ok? <==> -4 <= mode < 4 && (bar % 4 != 3 || mode == 3 || fallback < 7)
    ensures r.Err? ==> r.error == IndexError
  {
    match ModeTable(mode)
    case Err(e) => Err(e)
    case Ok(offsets) =>
      var rootBase := RootBase(isMetal);
      var (rootDegree, degrees) := PhaseDegrees(bar % 4, mode, fallback);
      match ScaleTones(rootBase, offsets, degrees)
      case Err(e) => Err(e)
      case Ok(tones) => Ok(Chord(rootBase + offsets[rootDegree], tones))
  }

  /** `get_chord(bar, mode, is_metal)` as written: the dominant chord asks for
      degree 7 of a seven-degree table unless the mode is Mixolydian, so every
      fourth bar raises IndexError in the other modes. A mode in -4..-1 selects
      a table from the end of the list, but is never equal to 3. */
  function GetChord(bar: int, mode: int, isMetal: bool): (r: Result<Chord>)
    ensures r.Ok? <==> -4 <= mode < 4 && (bar % 4 != 3 || mode == 3)
    ensures r.Err? ==> r.error == IndexError
  {
    ChordWith(bar, mode, isMetal, 7)
  }

  /** The chord function with the dominant chord's third tone on the
      evidently intended degree 0 (the tonic): it never raises for a mode
      that selects a table. */
  function GetChordCorrected(bar: int, mode: int, isMetal: bool): (r: Result<Chord>)
    ensures r.Ok? <==> -4 <= mode < 4
    ensures r.Err? ==> r.error == IndexError
  {
    ChordWith(bar, mode, isMetal, 0)
  }

  /** `pitch` is a degree of mode `m` above the root base. */
  ghost predicate InMode(pitch: int, m: int, isMetal: bool)
    requires 0 <= m < 4
  {
    exists d :: 0 <= d < |ModeOffsets[m]| && pitch == RootBase(isMetal) + ModeOffsets[m][d]
  }

  /** A chord that exists is its phase's degrees looked up in the selected
      mode: the root on the phase's root degree, tone `i` on degree `i`. */
  lemma ChordDegrees(bar: int, mode: int, isMetal: bool, fallback: nat)
    requires ChordWith(bar, mode, isMetal, fallback).Ok?
    ensures -4 <= mode < 4 && |ModeOffsets[(mode + 4) % 4]| == 7
    ensures var c, o, b := ChordWith(bar, mode, isMetal, fallback).value, ModeOffsets[(mode + 4) % 4], RootBase(isMetal);
      var p := PhaseDegrees(bar % 4, mode, fallback);
      |c.tones| == 4 && c.root == b + o[p.0] &&
      forall i :: 0 <= i < 4 ==> p.1[i] < 7 && c.tones[i] == b + o[p.1[i]]
  {
    var o := ModeTable(mode).value;
    var p := PhaseDegrees(bar % 4, mode, fallback);
    var tones := ScaleTones(RootBase(isMetal), o, p.1);
    assert tones.Ok?;
  }

  /** The tonic chord (phases 0 and 1): degrees 0, 2, 4 and 6, with degree 5
      instead of 6 in Phrygian. */
  lemma TonicChord(bar: int, mode: int, isMetal: bool)
    requires -4 <= mode < 4 && bar % 4 < 2
    ensures var o, b := ModeOffsets[(mode + 4) % 4], RootBase(isMetal);
      |o| == 7 &&
      GetChord(bar, mode, isMetal) ==
      Ok(Chord(b + o[0], [b + o[0], b + o[2], b + o[4], b + o[if mode != 2 then 6 else 5]]))
  {
    ChordDegrees(bar, mode, isMetal, 7);
    var o, b := ModeOffsets[(mode + 4) % 4], RootBase(isMetal);
    var c := GetChord(bar, mode, isMetal).value;
    assert PhaseDegrees(bar % 4, mode, 7) == (0, [0, 2, 4, if mode != 2 then 6 else 5]);
    assert c.tones == [b + o[0], b + o[2], b + o[4], b + o[if mode != 2 then 6 else 5]];
  }

  /** The mediant chord (phase 2): degrees 2, 4, 6 and 0, with degree 1
      instead of 0 in Mixolydian. */
  lemma MediantChord(bar: int, mode: int, isMetal: bool)
    requires -4 <= mode < 4 && bar % 4 == 2
    ensures var o, b := ModeOffsets[(mode + 4) % 4], RootBase(isMetal);
      |o| == 7 &&
      GetChord(bar, mode, isMetal) ==
      Ok(Chord(b + o[2], [b + o[2], b + o[4], b + o[6], b + o[if mode == 3 then 1 else 0]]))
  {
    ChordDegrees(bar, mode, isMetal, 7);
    var o, b := ModeOffsets[(mode + 4) % 4], RootBase(isMetal);
    var c := GetChord(bar, mode, isMetal).value;
    assert PhaseDegrees(bar % 4, mode, 7) == (2, [2, 4, 6, if mode == 3 then 1 else 0]);
    assert c.tones == [b + o[2], b + o[4], b + o[6], b + o[if mode == 3 then 1 else 0]];
  }

  /** The dominant chord (phase 3): degrees 4, 6, 1 and 3 in Mixolydian; in
      every other mode the lookup of degree 7 raises IndexError. */
  lemma DominantChord(bar: int, mode: int, isMetal: bool)
    requires -4 <= mode < 4 && bar % 4 == 3
    ensures mode != 3 ==> GetChord(bar, mode, isMetal) == Err(IndexError)
    ensures var o, b := ModeOffsets[(mode + 4) % 4], RootBase(isMetal);
      mode == 3 ==>
        |o| == 7 &&
        GetChord(bar, mode, isMetal) == Ok(Chord(b + o[4], [b + o[4], b + o[6], b + o[1], b + o[3]]))
  {
    if mode == 3 {
      ChordDegrees(bar, mode, isMetal, 7);
      var o, b := ModeOffsets[(mode + 4) % 4], RootBase(isMetal);
      var c := GetChord(bar, mode, isMetal).value;
      assert PhaseDegrees(bar % 4, mode, 7) == (4, [4, 6, 1, 3]);
      assert c.tones == [b + o[4], b + o[6], b + o[1], b + o[3]];
    }
  }

  /** Whatever degree the dominant chord falls back on, a chord that exists
      has four tones, starts on its root, and every tone is a degree of the
      selected mode within ten semitones above the root base. */
  lemma ChordShape(bar: int, mode: int, isMetal: bool, fallback: nat)
    requires ChordWith(bar, mode, isMetal, fallback).Ok?
    ensures -4 <= mode < 4
    ensures var c := ChordWith(bar, mode, isMetal, fallback).value;
      |c.tones| == 4 && c.tones[0] == c.root &&
      InMode(c.root, (mode + 4) % 4, isMetal) &&
      forall i :: 0 <= i < 4 ==>
        InMode(c.tones[i], (mode + 4) % 4, isMetal) &&
        RootBase(isMetal) <= c.tones[i] <= RootBase(isMetal) + 10
  {
    ChordDegrees(bar, mode, isMetal, fallback);
    OffsetsInOctave();
    var c := ChordWith(bar, mode, isMetal, fallback).value;
    var m := (mode + 4) % 4;
    var p := PhaseDegrees(bar % 4, mode, fallback);
    forall i | 0 <= i < 4
      ensures InMode(c.tones[i], m, isMetal)
    {
      assert c.tones[i] == RootBase(isMetal) + ModeOffsets[m][p.1[i]];
    }
    assert InMode(c.root, m, isMetal) by {
      assert c.root == RootBase(isMetal) + ModeOffsets[m][p.0];
    }
  }

  /** The tonic chord of the standard preset for the four modes (phase 1
      repeats phase 0): A minor seventh, A minor with a sixth in Phrygian,
      A dominant seventh in Mixolydian. */
  lemma StandardTonics()
    ensures GetChord(0, 0, false) == Ok(Chord(45, [45, 48, 52, 55]))
    ensures GetChord(0, 1, false) == Ok(Chord(45, [45, 48, 52, 55]))
    ensures GetChord(0, 2, false) == Ok(Chord(45, [45, 48, 52, 53]))
    ensures GetChord(0, 3, false) == Ok(Chord(45, [45, 49, 52, 55]))
  {
    TonicChord(0, 0, false);
    TonicChord(0, 1, false);
    TonicChord(0, 2, false);
    TonicChord(0, 3, false);
  }

  /** The mediant chord of the standard preset for the four modes. */
  lemma StandardMediants()
    ensures GetChord(2, 0, false) == Ok(Chord(48, [48, 52, 55, 45]))
    ensures GetChord(2, 1, false) == Ok(Chord(48, [48, 52, 55, 45]))
    ensures GetChord(2, 2, false) == Ok(Chord(48, [48, 52, 55, 45]))
    ensures GetChord(2, 3, false) == Ok(Chord(49, [49, 52, 55, 47]))
  {
    MediantChord(2, 0, false);
    MediantChord(2, 1, false);
    MediantChord(2, 2, false);
    MediantChord(2, 3, false);
  }

  /** The dominant-phase chord of the standard preset: E, G, B and D (an
      E minor seventh) in Mixolydian, IndexError in the other modes. */
  lemma StandardDominants()
    ensures GetChord(3, 3, false) == Ok(Chord(52, [52, 55, 47, 50]))
    ensures forall m :: 0 <= m < 3 ==> GetChord(3, m, false) == Err(IndexError)
  {
    DominantChord(3, 3, false);
  }

  function Transpose(c: Chord, k: int): Chord
  {
    Chord(c.root + k, seq(|c.tones|, i requires 0 <= i < |c.tones| => c.tones[i] + k))
  }

  /** The metal chord of every bar is the standard chord five semitones
      lower (E instead of A), and fails exactly when the standard one does. */
  lemma MetalTransposesDown(bar: int, mode: int)
    ensures GetChord(bar, mode, true).Ok? == GetChord(bar, mode, false).Ok?
    ensures GetChord(bar, mode, false).Ok? ==>
      GetChord(bar, mode, true).value == Transpose(GetChord(bar, mode, false).value, -5)
  {
    if GetChord(bar, mode, false).Ok? {
      ChordDegrees(bar, mode, true, 7);
      ChordDegrees(bar, mode, false, 7);
      var metal, standard := GetChord(bar, mode, true).value, GetChord(bar, mode, false).value;
      assert metal.tones == Transpose(standard, -5).tones;
    }
  }

  /** The chord depends on the bar only through its phase `bar % 4`. */
  lemma ChordPeriodic(bar: int, bar': int, mode: int, isMetal: bool)
    requires bar % 4 == bar' % 4
    ensures GetChord(bar, mode, isMetal) == GetChord(bar', mode, isMetal)
  {
  }

  /** The corrected chord agrees with the written one wherever the written one
      exists, and its dominant chord takes degrees 4, 6, 0 and 3. */
  lemma CorrectedChord(bar: int, mode: int, isMetal: bool)
    ensures GetChord(bar, mode, isMetal).Ok? ==>
      GetChordCorrected(bar, mode, isMetal) == GetChord(bar, mode, isMetal)
    ensures -4 <= mode < 4 && mode != 3 && bar % 4 == 3 ==>
      var o, b := ModeOffsets[(mode + 4) % 4], RootBase(isMetal);
      |o| == 7 &&
      GetChordCorrected(bar, mode, isMetal) == Ok(Chord(b + o[4], [b + o[4], b + o[6], b + o[0], b + o[3]]))
  {
    if GetChord(bar, mode, isMetal).Ok? {
      assert PhaseDegrees(bar % 4, mode, 0) == PhaseDegrees(bar % 4, mode, 7);
    }
    if -4 <= mode < 4 && mode != 3 && bar % 4 == 3 {
      ChordDegrees(bar, mode, isMetal, 0);
      var o, b := ModeOffsets[(mode + 4) % 4], RootBase(isMetal);
      var c, p := GetChordCorrected(bar, mode, isMetal).value, PhaseDegrees(bar % 4, mode, 0);
      assert p == (4, [4, 6, 0, 3]);
      assert c.tones == [b + o[p.1[0]], b + o[p.1[1]], b + o[p.1[2]], b + o[p.1[3]]];
    }
  }

  /** With the corrected chord, the metal preset (Phrygian, E root) has the
      roots E, E, G, B over the four-bar cycle. */
  lemma CorrectedMetalRoots()
    ensures forall bar :: 0 <= bar < 4 ==> GetChordCorrected(bar, 2, true).Ok?
    ensures seq(4, bar => GetChordCorrected(bar, 2, true).value.root) == [40, 40, 43, 47]
  {
  }
}
