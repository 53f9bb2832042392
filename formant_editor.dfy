/**
  The body of the edit command once a phoneme has been chosen: for every
  formant the selector targets, the frequency, bandwidth and dB-offset
  prompts, each result stored in the phoneme as soon as its loop ends.
*/
module FormantEditor {
  import opened CText
  import opened Voices
  import opened Prompts

  /** Selector 0 targets every formant; selector k targets formant index k - 1 only. */
  predicate Targets(sel: int, i: int) {
    sel == 0 || sel == i + 1
  }

  /** What a fully edited formant holds: nonzero frequency and bandwidth, and a nonzero offset after formant #1. */
  predicate FieldsSet(f: Formant, i: nat) {
    f.fqc > 0 && f.bw > 0 && (i > 0 ==> f.dBoffs != 0)
  }

  /** A formant after its prompts, the input left, and whether all three prompts were answered. */
  datatype FormantEdit = FormantEdit(formant: Formant, rest: seq<char>, complete: bool)

  /**
    The three prompt loops for formant index `i`. When the input runs out
    inside a loop, the field that loop was filling holds 0 (the source
    zeroes it before reading) and the later fields keep their old values.
  */
  function EditFormant(f: Formant, i: nat, s: seq<char>): (r: FormantEdit)
    ensures r.complete ==> FieldsSet(r.formant, i) && |r.rest| < |s|
    ensures !r.complete ==> r.rest == []
  {
    match ReadMagnitude(s)
    case EndOfInput => FormantEdit(f.(fqc := 0), [], false)
    case Accepted(q, s1) =>
      match ReadMagnitude(s1)
      case EndOfInput => FormantEdit(f.(fqc := q, bw := 0), [], false)
      case Accepted(b, s2) =>
        match ReadOffset(i == 0, s2)
        case EndOfInput => FormantEdit(Formant(q, b, 0), [], false)
        case Accepted(d, s3) => FormantEdit(Formant(q, b, d), s3, true)
  }

  /** The formants after the edit loop has run for indices 0 .. k-1. */
  datatype Edited = Edited(formants: seq<Formant>, rest: seq<char>, complete: bool)

  /**
    The `for` loop over formant indices 0 .. k-1: each targeted formant is
    edited in turn from the input the previous one left; once the input has
    run out nothing further changes. When every prompt was answered, each
    targeted formant ends with nonzero frequency and bandwidth, and a
    nonzero offset after formant #1.
  */
  function EditUpTo(fs: seq<Formant>, sel: int, k: nat, s: seq<char>): (r: Edited)
    requires k <= |fs|
    ensures |r.formants| == |fs|
    ensures !r.complete ==> r.rest == []
    ensures |r.rest| <= |s|
    ensures r.complete ==> forall j :: 0 <= j < k && Targets(sel, j) ==> FieldsSet(r.formants[j], j)
    decreases k
  {
    if k == 0 then Edited(fs, s, true)
    else
      var prev := EditUpTo(fs, sel, k - 1, s);
      if !prev.complete || !Targets(sel, k - 1) then prev
      else
        var e := EditFormant(prev.formants[k - 1], k - 1, prev.rest);
        Edited(prev.formants[k - 1 := e.formant], e.rest, e.complete)
  }

  /** Formants the selector does not target, and those the loop has not reached, keep their values. */
  lemma {:induction false} EditUpToFrame(fs: seq<Formant>, sel: int, k: nat, s: seq<char>, j: nat)
    requires k <= |fs| && j < |fs|
    requires k <= j || !Targets(sel, j)
    ensures EditUpTo(fs, sel, k, s).formants[j] == fs[j]
    decreases k
  {
    if k > 0 {
      var prev := EditUpTo(fs, sel, k - 1, s);
      EditUpToFrame(fs, sel, k - 1, s, j);
      if prev.complete && Targets(sel, k - 1) {
        var e := EditFormant(prev.formants[k - 1], k - 1, prev.rest);
        assert EditUpTo(fs, sel, k, s).formants == prev.formants[k - 1 := e.formant];
        assert j != k - 1;
      } else {
        assert EditUpTo(fs, sel, k, s) == prev;
      }
    }
  }

  /**
    Editing one formant (selector k in 1..3) prompts for that formant alone,
    starting from the first line of input, and leaves the other two formants
    as they were.
  */
  lemma {:induction false} EditSingleFormant(fs: seq<Formant>, k: nat, s: seq<char>)
    requires |fs| == NUM_FORMANTS && 1 <= k <= NUM_FORMANTS
    ensures var e := EditFormant(fs[k - 1], k - 1, s);
            EditUpTo(fs, k, NUM_FORMANTS, s) == Edited(fs[k - 1 := e.formant], e.rest, e.complete)
  {
    UntargetedPrefix(fs, k, k - 1, s);
    var e := EditFormant(fs[k - 1], k - 1, s);
    var after := Edited(fs[k - 1 := e.formant], e.rest, e.complete);
    assert EditUpTo(fs, k, k, s) == after;
    UntargetedSuffix(fs, k, k, NUM_FORMANTS, s);
  }

  lemma {:induction false} UntargetedPrefix(fs: seq<Formant>, sel: int, k: nat, s: seq<char>)
    requires k <= |fs|
    requires forall j :: 0 <= j < k ==> !Targets(sel, j)
    ensures EditUpTo(fs, sel, k, s) == Edited(fs, s, true)
    decreases k
  {
    if k > 0 {
      UntargetedPrefix(fs, sel, k - 1, s);
    }
  }

  lemma {:induction false} UntargetedSuffix(fs: seq<Formant>, sel: int, k: nat, m: nat, s: seq<char>)
    requires k <= m <= |fs|
    requires forall j :: k <= j < m ==> !Targets(sel, j)
    ensures EditUpTo(fs, sel, m, s) == EditUpTo(fs, sel, k, s)
    decreases m
  {
    if m > k {
      UntargetedSuffix(fs, sel, k, m - 1, s);
    }
  }

  /** `voice->Phoneme[id] = p`: one array slot changes. */
  method StorePhoneme(voice: Voice, id: nat, p: Phoneme)
    requires voice.Valid() && id < voice.phonemes.Length && WellFormed(p)
    modifies voice.phonemes
    ensures voice.Valid()
    ensures forall j :: 0 <= j < voice.phonemes.Length && j != id ==> voice.phonemes[j] == old(voice.phonemes[j])
    ensures voice.phonemes[id] == p
  {
    voice.phonemes[id] := p;
  }

  /**
    In-place form of EditFormant: the three prompt loops for formant `i` of
    phoneme `id`, storing each field as its loop ends.
  */
  method EditFormantFields(voice: Voice, id: nat, i: nat, stdin: seq<char>) returns (complete: bool, rest: seq<char>)
    requires voice.Valid() && id < voice.phonemes.Length && i < NUM_FORMANTS
    modifies voice.phonemes
    ensures voice.Valid()
    ensures forall j :: 0 <= j < voice.phonemes.Length && j != id ==> voice.phonemes[j] == old(voice.phonemes[j])
    ensures var e := EditFormant(old(voice.phonemes[id]).formants[i], i, stdin);
            voice.phonemes[id] == SetFormant(old(voice.phonemes[id]), i, e.formant)
            && complete == e.complete && rest == e.rest
  {
    var p := voice.phonemes[id];
    assert WellFormed(p);
    var f := p.formants[i];
    ghost var e := EditFormant(f, i, stdin);
    var fqc := PromptMagnitude(stdin);
    f := f.(fqc := if fqc.Accepted? then fqc.value else 0);
    StorePhoneme(voice, id, SetFormant(p, i, f));
    if fqc.EndOfInput? {
      assert e == FormantEdit(f, [], false);
      return false, [];
    }
    var bw := PromptMagnitude(fqc.rest);
    f := f.(bw := if bw.Accepted? then bw.value else 0);
    StorePhoneme(voice, id, SetFormant(p, i, f));
    if bw.EndOfInput? {
      assert e == FormantEdit(f, [], false);
      return false, [];
    }
    var dBoffs := PromptOffset(i == 0, bw.rest);
    f := f.(dBoffs := if dBoffs.Accepted? then dBoffs.value else 0);
    StorePhoneme(voice, id, SetFormant(p, i, f));
    if dBoffs.EndOfInput? {
      assert e == FormantEdit(f, [], false);
      return false, [];
    }
    assert e == FormantEdit(f, dBoffs.rest, true);
    return true, dBoffs.rest;
  }
}
