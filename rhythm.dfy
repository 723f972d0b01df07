/** The rhythm of a bar: on which of the sixteen steps each instrument
    plays, with the fractal test worked out for the variations the
    generator uses. */
module Rhythm {
  import opened Fractal
  import opened Rules

  /** Standard preset: the kick plays four on the floor, on steps 0, 4, 8
      and 12. Metal preset: the fractal of variation bar % 4 doubles it, so
      it plays on every step but the gaps. */
  lemma KickPattern(bar: nat, step: nat)
    requires step < 16
    ensures KickFires(false, bar, step) <==> step % 4 == 0
    ensures KickFires(true, bar, step) <==> !Gap(step, bar % 4)
  {
    HitOrOnBeat(step % 4 == 0, step, bar % 4);
  }

  /** The snare plays on steps 2, 6, 10 and 14 of every bar: the fractal
      test that guards the off-beats holds there for every variation, so
      naming steps 6 and 14 separately adds nothing. */
  lemma SnarePattern(bar: nat, step: nat)
    requires step < 16
    ensures SnareFires(bar, step) <==> step % 4 == 2
  {
    HitAndOffBeat(step % 4 == 2, step, bar % 8);
  }

  /** The hi-hat (ride in the metal preset) plays on every step but the
      gaps of variation bar % 7. */
  lemma HatPattern(bar: nat, step: nat)
    requires step < 16
    ensures HatFires(bar, step) <==> !Gap(step, bar % 7)
  {
    HitPattern(step, bar % 7);
  }

  /** The pentatonic run plays on every step but the gaps of variation
      bar % 5, step 0 included. */
  lemma RunPattern(bar: nat, step: nat)
    requires step < 16
    ensures RunFires(bar, step) <==> !Gap(step, bar % 5)
  {
    HitPattern(step, bar % 5);
  }

  /** A condition that excludes the gaps, or'ed with the fractal test, is
      the fractal test. */
  lemma HitOrOnBeat(onBeat: bool, step: nat, variation: nat)
    requires step < 16 && variation < 8 && (onBeat ==> !Gap(step, variation))
    ensures (onBeat || IsSierpinskiHit(step, variation)) <==> !Gap(step, variation)
  {
    HitPattern(step, variation);
  }

  /** A condition that excludes the gaps, and'ed with the fractal test, is
      that condition. */
  lemma HitAndOffBeat(offBeat: bool, step: nat, variation: nat)
    requires step < 16 && variation < 8 && (offBeat ==> !Gap(step, variation))
    ensures (offBeat && IsSierpinskiHit(step, variation)) <==> offBeat
  {
    HitPattern(step, variation);
  }
}
