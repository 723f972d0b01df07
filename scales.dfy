/** The fixed pitch tables of the beater: four seven-degree modes and the
    minor-pentatonic run, as semitone offsets from a root. */
module Scales {

  /** Aeolian, Dorian, Phrygian and Mixolydian, in this order. */
  const ModeOffsets: seq<seq<int>> := [
    [0, 2, 3, 5, 7, 8, 10],
    [0, 2, 3, 5, 7, 9, 10],
    [0, 1, 3, 5, 7, 8, 10],
    [0, 2, 4, 5, 7, 9, 10]
  ]

  const PentatonicBase: seq<int> := [0, 3, 5, 7, 10]

  /** Every mode has seven strictly ascending degrees inside one octave,
      starting on the root, with a perfect fifth on degree 4 and a minor
      seventh on degree 6; only Mixolydian has a major third. */
  lemma ModeTablesShape()
    ensures |ModeOffsets| == 4
    ensures forall m :: 0 <= m < 4 ==> |ModeOffsets[m]| == 7
    ensures forall m :: 0 <= m < 4 ==>
      ModeOffsets[m][0] == 0 && ModeOffsets[m][4] == 7 && ModeOffsets[m][6] == 10
    ensures forall m, d :: 0 <= m < 4 && 0 < d < 7 ==> ModeOffsets[m][d - 1] < ModeOffsets[m][d]
    ensures forall m :: 0 <= m < 4 ==> (ModeOffsets[m][2] == 4 <==> m == 3)
  {
  }

  /** Every degree of every mode lies within the octave's first ten semitones. */
  lemma OffsetsInOctave()
    ensures forall m, d :: 0 <= m < |ModeOffsets| && 0 <= d < |ModeOffsets[m]| ==> 0 <= ModeOffsets[m][d] <= 10
  {
  }

  /** The pentatonic run is five ascending offsets inside one octave, each of
      which is also a degree of Aeolian and Dorian. */
  lemma PentatonicShape()
    ensures |PentatonicBase| == 5 && PentatonicBase[0] == 0
    ensures forall i :: 0 < i < 5 ==> PentatonicBase[i - 1] < PentatonicBase[i] <= 10
    ensures forall i :: 0 <= i < 5 ==> PentatonicBase[i] in ModeOffsets[0] && PentatonicBase[i] in ModeOffsets[1]
  {
  }
}
