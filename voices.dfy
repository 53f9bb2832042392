/**
  The in-memory voice record the editor works on: a display name, the file
  it was last saved to (empty when never saved), and one phoneme per
  phoneme ID, each holding three formants.
*/
module Voices {

  /** The edit loop walks exactly three formants per phoneme (voice_cmds.c:93). */
  const NUM_FORMANTS: nat := 3

  /** One resonance: frequency and bandwidth in Hz, relative amplitude in dB. */
  datatype Formant = Formant(fqc: int, bw: int, dBoffs: int)

  datatype Phoneme = Phoneme(formants: seq<Formant>)

  predicate WellFormed(p: Phoneme) {
    |p.formants| == NUM_FORMANTS
  }

  predicate AllWellFormed(ps: seq<Phoneme>) {
    forall i :: 0 <= i < |ps| ==> WellFormed(ps[i])
  }

  /** The phoneme with formant `i` replaced, every other formant as it was. */
  function SetFormant(p: Phoneme, i: nat, f: Formant): (q: Phoneme)
    requires i < |p.formants|
    ensures |q.formants| == |p.formants| && q.formants[i] == f
    ensures forall j :: 0 <= j < |p.formants| && j != i ==> q.formants[j] == p.formants[j]
  {
    p.(formants := p.formants[i := f])
  }

  /** The voice record as a value: what a command reads and what it leaves behind. */
  datatype VoiceState = VoiceState(name: string, filename: string, phonemes: seq<Phoneme>)

  /**
    What every voice record satisfies: the name fits its buffer of
    `speakerMax` bytes with its terminator, the filename fits `pathMax`
    bytes, and every phoneme has its three formants.
  */
  predicate ValidState(st: VoiceState, speakerMax: nat, pathMax: nat) {
    |st.name| < speakerMax && |st.filename| <= pathMax && AllWellFormed(st.phonemes)
  }

  /**
    The live voice. `phonemes` has NUM_PHONEMES entries; `speakerMax` and
    `pathMax` are the sizes of the name and filename buffers (SPEAKER_MAX and
    PATH_MAX).
  */
  class Voice {
    var name: string
    var filename: string
    const phonemes: array<Phoneme>
    const speakerMax: nat
    const pathMax: nat

    ghost function State(): VoiceState
      reads this, phonemes
    {
      VoiceState(name, filename, phonemes[..])
    }

    ghost predicate Valid()
      reads this, phonemes
    {
      ValidState(State(), speakerMax, pathMax)
    }

    /** A voice as the outer loop loads it. */
    constructor (st: VoiceState, speakerMax: nat, pathMax: nat)
      requires ValidState(st, speakerMax, pathMax)
      ensures Valid() && State() == st && fresh(phonemes)
      ensures this.speakerMax == speakerMax && this.pathMax == pathMax
    {
      name := st.name;
      filename := st.filename;
      phonemes := new Phoneme[|st.phonemes|](i requires 0 <= i < |st.phonemes| => st.phonemes[i]);
      this.speakerMax := speakerMax;
      this.pathMax := pathMax;
    }
  }
}
