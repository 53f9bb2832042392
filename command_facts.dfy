/**
  What the command handlers do on typed lines: which phoneme a line
  chooses, what a rename or a save leaves behind, and how the edit prompts
  change one phoneme. A typed line is the command word, a space, the
  argument and the newline the console read keeps.
*/
module CommandFacts {
  import opened CText
  import opened Voices
  import opened Prompts
  import opened FormantEditor
  import opened VoiceCmds

  /** An argument as typed: non-empty, one word, not ending in whitespace. */
  predicate Word(w: string) {
    |w| > 0 && ' ' !in w && '\n' !in w && !IsSpace(w[|w| - 1])
  }

  /**
    A handler never looks at its own command word, so the lemmas below take
    it as a parameter: any non-empty word without spaces.
  */
  predicate CommandWord(cmd: string) {
    |cmd| > 0 && ' ' !in cmd
  }

  /** A command word followed by one argument: the argument is its second token, chomped. */
  lemma {:induction false} ArgumentOf(cmd: string, arg: string)
    requires |cmd| > 0 && ' ' !in cmd && Word(arg)
    ensures SecondToken(cmd + " " + arg + "\n").Some?
    ensures Chomp(SecondToken(cmd + " " + arg + "\n").value) == arg
  {
    var tok := arg + "\n";
    assert ' ' !in tok by {
      forall k | 0 <= k < |tok| ensures tok[k] != ' ' {
        if k < |arg| { assert tok[k] == arg[k]; }
      }
    }
    SecondTokenOf(cmd, tok, []);
    assert cmd + " " + tok + [] == cmd + " " + arg + "\n";
    ChompNewline(arg);
  }

  // ---------------------------------------------------------------------------
  // Choosing a phoneme
  // ---------------------------------------------------------------------------

  /** A decimal ID selects that number modulo 256. */
  lemma {:induction false} PhonemeIdOfDecimal(k: nat, resolve: string -> int)
    requires k <= LONG_MAX
    ensures PhonemeId(Decimal(k), resolve) == k % 256
  {
    var d := Decimal(k);
    assert !IsAlpha(d[0]) by { assert IsDigit(d[0]); }
    assert Strtol(d) == k by {
      StrtolDecimal(k, []);
      assert d + [] == d;
    }
  }

  /** A negative decimal ID selects its value modulo 256. */
  lemma {:induction false} PhonemeIdOfNegative(k: nat, resolve: string -> int)
    requires k <= -LONG_MIN
    ensures PhonemeId("-" + Decimal(k), resolve) == (-(k as int)) % 256
  {
    var d := "-" + Decimal(k);
    assert Strtol(d) == -(k as int) by {
      StrtolDecimal(k, []);
      assert d + [] == d;
    }
  }

  /**
    The ID a print or edit line chooses is its argument's: accepted when it
    is below the number of phonemes, rejected with that argument otherwise.
  */
  lemma {:induction false} SelectArgument(cmd: string, arg: string, numPhonemes: nat, resolve: string -> int)
    requires |cmd| > 0 && ' ' !in cmd && Word(arg)
    ensures var id := PhonemeId(arg, resolve);
            SelectPhoneme(cmd + " " + arg + "\n", numPhonemes, resolve)
            == if id < numPhonemes then Selected(id) else InvalidId(arg)
  {
    ArgumentOf(cmd, arg);
  }

  /**
    A print or edit argument that starts with a letter is looked up by name:
    the lookup's result, reduced modulo 256, is the phoneme chosen when it is
    below the number of phonemes.
  */
  lemma {:induction false} SelectByName(cmd: string, name: string, numPhonemes: nat, resolve: string -> int)
    requires CommandWord(cmd) && Word(name) && IsAlpha(name[0])
    ensures var id := resolve(name) % 256;
            SelectPhoneme(cmd + " " + name + "\n", numPhonemes, resolve)
            == if id < numPhonemes then Selected(id) else InvalidId(name)
  {
    SelectArgument(cmd, name, numPhonemes, resolve);
  }

  /** "print w" shows the phoneme w names, or reports w as an invalid ID. */
  lemma {:induction false} PrintArgument(cmd: string, arg: string, st: VoiceState, speakerMax: nat, pathMax: nat,
                                         resolve: string -> int, stdin: seq<char>)
    requires ValidState(st, speakerMax, pathMax) && CommandWord(cmd) && Word(arg)
    ensures var id := PhonemeId(arg, resolve);
            Run(PrintCmd, Some(cmd + " " + arg + "\n"), st, speakerMax, pathMax, resolve, stdin)
            == if id < |st.phonemes| then Outcome(Success, [ShowPhoneme(st.phonemes[id])], st, stdin)
               else Outcome(Fail, [Report(InvalidPhonemeId(arg))], st, stdin)
  {
    SelectArgument(cmd, arg, |st.phonemes|, resolve);
  }

  /** A line without an argument chooses nothing. */
  lemma {:induction false} SelectBare(line: string, numPhonemes: nat, resolve: string -> int)
    requires |line| > 0 && ' ' !in line
    ensures SelectPhoneme(line, numPhonemes, resolve) == NoPhoneme
  {
    BareCommandHasNoArgument(line, []);
    assert line + [] == line;
  }

  /** The ID "257" wraps to phoneme 1. */
  lemma {:induction false} Id257Wraps(resolve: string -> int)
    ensures PhonemeId("257", resolve) == 1
  {
    var d := Decimal(257);
    assert d == "257" by {
      assert Decimal(25) == "25" by { assert Decimal(2) == "2"; }
    }
    PhonemeIdOfDecimal(257, resolve);
  }

  /** The ID "-1" wraps to phoneme 255. */
  lemma {:induction false} IdMinusOneWraps(resolve: string -> int)
    ensures PhonemeId("-1", resolve) == 255
  {
    var d := "-" + Decimal(1);
    assert d == "-1";
    PhonemeIdOfNegative(1, resolve);
  }

  /**
    A blank argument (the command, a space, then the newline) is not
    missing: it chomps to the empty string, which strtol reads as 0.
  */
  lemma {:induction false} SelectBlank(cmd: string, numPhonemes: nat, resolve: string -> int)
    requires CommandWord(cmd)
    ensures SelectPhoneme(cmd + " " + "\n", numPhonemes, resolve)
            == if numPhonemes > 0 then Selected(0) else InvalidId([])
  {
    BlankArgument(cmd);
  }

  /** print and edit without an argument fail before doing anything else. */
  lemma {:induction false} PhonemeCommandWithoutArgument(h: Handler, line: string, st: VoiceState, speakerMax: nat,
                                                         pathMax: nat, resolve: string -> int, stdin: seq<char>)
    requires h == PrintCmd || h == EditCmd
    requires ValidState(st, speakerMax, pathMax) && |line| > 0 && ' ' !in line
    ensures Run(h, Some(line), st, speakerMax, pathMax, resolve, stdin)
            == Outcome(Fail, [Report(NoPhonemeSpecified)], st, stdin)
  {
    SelectBare(line, |st.phonemes|, resolve);
  }

  // ---------------------------------------------------------------------------
  // edit
  // ---------------------------------------------------------------------------

  /**
    edit changes only the chosen phoneme, and in it only the formants the
    selector targets; when every prompt was answered those formants end
    with nonzero frequency and bandwidth (and a nonzero offset after
    formant #1).
  */
  lemma {:induction false} EditChangesOnlyTargets(line: string, st: VoiceState, speakerMax: nat, pathMax: nat,
                                                  resolve: string -> int, stdin: seq<char>, i: nat)
    requires ValidState(st, speakerMax, pathMax)
    requires SelectPhoneme(line, |st.phonemes|, resolve).Selected?
    requires ReadSelector(stdin).Accepted? && i < NUM_FORMANTS
    ensures var id := SelectPhoneme(line, |st.phonemes|, resolve).id;
            var o := Run(EditCmd, Some(line), st, speakerMax, pathMax, resolve, stdin);
            && (forall j :: 0 <= j < |st.phonemes| && j != id ==> o.state.phonemes[j] == st.phonemes[j])
            && (!Targets(ReadSelector(stdin).value, i) ==>
                  o.state.phonemes[id].formants[i] == st.phonemes[id].formants[i])
            && (o.code == Success && Targets(ReadSelector(stdin).value, i) ==>
                  FieldsSet(o.state.phonemes[id].formants[i], i))
  {
    var id := SelectPhoneme(line, |st.phonemes|, resolve).id;
    var fs := st.phonemes[id].formants;
    assert WellFormed(st.phonemes[id]);
    var r := ReadSelector(stdin);
    if !Targets(r.value, i) {
      EditUpToFrame(fs, r.value, NUM_FORMANTS, r.rest, i);
    }
  }

  /**
    Choosing one formant k and answering its three prompts with lines that
    each give a nonzero number stores the frequency and bandwidth as
    absolute values and the offset as typed, and leaves the other formants
    alone.
  */
  lemma {:induction false} EditOneFormantByLines(fs: seq<Formant>, k: nat, fqc: string, bw: string, dB: string,
                                                 rest: seq<char>)
    requires |fs| == NUM_FORMANTS && 1 <= k <= NUM_FORMANTS
    requires '\n' !in fqc && |fqc| < PROMPT_BUF - 1 && Strtol(fqc) != 0
    requires '\n' !in bw && |bw| < PROMPT_BUF - 1 && Strtol(bw) != 0
    requires '\n' !in dB && |dB| < PROMPT_BUF - 1 && Strtol(dB) != 0
    ensures EditUpTo(fs, k, NUM_FORMANTS, fqc + "\n" + bw + "\n" + dB + "\n" + rest)
            == Edited(fs[k - 1 := Formant(Labs(Strtol(fqc)), Labs(Strtol(bw)), Strtol(dB))], rest, true)
  {
    var s3 := dB + "\n" + rest;
    var s2 := bw + "\n" + s3;
    var s := fqc + "\n" + s2;
    assert s == fqc + "\n" + bw + "\n" + dB + "\n" + rest;
    MagnitudeLine(fqc, s2);
    MagnitudeLine(bw, s3);
    OffsetLine(k == 1, dB, rest);
    EditSingleFormant(fs, k, s);
  }

  /**
    Once the phoneme, the formant selector and the formant loop's result are
    known, edit stores that result in the phoneme, shows it, and leaves the
    input the loop left.
  */
  lemma {:induction false} EditCompletes(line: string, st: VoiceState, speakerMax: nat, pathMax: nat,
                                         resolve: string -> int, stdin: seq<char>)
    requires ValidState(st, speakerMax, pathMax)
    ensures var sel := SelectPhoneme(line, |st.phonemes|, resolve);
            var r := ReadSelector(stdin);
            sel.Selected? && r.Accepted? ==>
              var e := EditUpTo(st.phonemes[sel.id].formants, r.value, NUM_FORMANTS, r.rest);
              var p' := st.phonemes[sel.id].(formants := e.formants);
              e.complete ==>
                Run(EditCmd, Some(line), st, speakerMax, pathMax, resolve, stdin)
                == Outcome(Success, [ShowPhoneme(p')], st.(phonemes := st.phonemes[sel.id := p']), e.rest)
  {
  }

  /**
    The whole edit dialogue for one formant: "edit w", then the selector
    line "k" for k in 1..3, then three lines that each give a nonzero number.
    Formant k of phoneme w gets the absolute frequency and bandwidth and the
    offset as typed; the edited phoneme is shown and nothing else changes.
  */
  lemma {:induction false} EditOneFormantCommand(cmd: string, w: string, c: char, fqc: string, bw: string, dB: string,
                                                 rest: seq<char>, st: VoiceState, speakerMax: nat, pathMax: nat,
                                                 resolve: string -> int)
    requires ValidState(st, speakerMax, pathMax) && CommandWord(cmd) && Word(w)
    requires PhonemeId(w, resolve) < |st.phonemes|
    requires '1' <= c <= '3'
    requires '\n' !in fqc && |fqc| < PROMPT_BUF - 1 && Strtol(fqc) != 0
    requires '\n' !in bw && |bw| < PROMPT_BUF - 1 && Strtol(bw) != 0
    requires '\n' !in dB && |dB| < PROMPT_BUF - 1 && Strtol(dB) != 0
    ensures var id := PhonemeId(w, resolve);
            var p := st.phonemes[id];
            var f := Formant(Labs(Strtol(fqc)), Labs(Strtol(bw)), Strtol(dB));
            var p' := p.(formants := p.formants[DigitOf(c) - 1 := f]);
            Run(EditCmd, Some(cmd + " " + w + "\n"), st, speakerMax, pathMax, resolve,
                [c] + "\n" + (fqc + "\n" + bw + "\n" + dB + "\n" + rest))
            == Outcome(Success, [ShowPhoneme(p')], st.(phonemes := st.phonemes[id := p']), rest)
  {
    var id := PhonemeId(w, resolve);
    var line := cmd + " " + w + "\n";
    SelectArgument(cmd, w, |st.phonemes|, resolve);
    var s1 := fqc + "\n" + bw + "\n" + dB + "\n" + rest;
    var stdin := [c] + "\n" + s1;
    SelectorLine([c], s1);
    assert WellFormed(st.phonemes[id]);
    var fs := st.phonemes[id].formants;
    var k := DigitOf(c);
    var f := Formant(Labs(Strtol(fqc)), Labs(Strtol(bw)), Strtol(dB));
    EditOneFormantByLines(fs, k, fqc, bw, dB, rest);
    assert SelectPhoneme(line, |st.phonemes|, resolve) == Selected(id);
    assert ReadSelector(stdin) == Accepted(k, s1);
    assert EditUpTo(fs, k, NUM_FORMANTS, s1) == Edited(fs[k - 1 := f], rest, true);
    EditCompletes(line, st, speakerMax, pathMax, resolve, stdin);
  }

  // ---------------------------------------------------------------------------
  // name
  // ---------------------------------------------------------------------------

  /** "name w" renames the voice to w when w fits the name buffer, and fails leaving it unchanged otherwise. */
  lemma {:induction false} RenameTo(cmd: string, w: string, st: VoiceState, speakerMax: nat, pathMax: nat,
                                    resolve: string -> int, stdin: seq<char>)
    requires ValidState(st, speakerMax, pathMax) && CommandWord(cmd) && Word(w)
    ensures var o := Run(NameCmd, Some(cmd + " " + w + "\n"), st, speakerMax, pathMax, resolve, stdin);
            o == if |w| < speakerMax
                 then Outcome(Success, [Notice(ChangingName(st.name, w))], st.(name := w), stdin)
                 else Outcome(Fail, [Report(NameTooLong)], st, stdin)
  {
    ArgumentOf(cmd, w);
  }

  /** The second token of "cmd \n" is the newline, which chomps to nothing. */
  lemma {:induction false} BlankArgument(cmd: string)
    requires CommandWord(cmd)
    ensures SecondToken(cmd + " " + "\n") == Some("\n") && Chomp("\n") == []
  {
    var arg := "\n";
    SecondTokenOf(cmd, arg, []);
    assert cmd + " " + arg + [] == cmd + " " + "\n";
    assert arg[..0] == [];
  }

  /** Only the word right after the command is taken: "name w more" renames the voice to w. */
  lemma {:induction false} NameTakesSecondWord(cmd: string, w: string, more: string, st: VoiceState,
                                               speakerMax: nat, pathMax: nat, resolve: string -> int,
                                               stdin: seq<char>)
    requires ValidState(st, speakerMax, pathMax) && CommandWord(cmd) && Word(w) && |w| < speakerMax
    ensures Run(NameCmd, Some(cmd + " " + w + (" " + more)), st, speakerMax, pathMax, resolve, stdin).state
            == st.(name := w)
  {
    SecondTokenOf(cmd, w, " " + more);
  }

  /** "name" with a blank argument fails with the missing-name message. */
  lemma {:induction false} NameBlank(cmd: string, st: VoiceState, speakerMax: nat, pathMax: nat,
                                     resolve: string -> int, stdin: seq<char>)
    requires ValidState(st, speakerMax, pathMax) && CommandWord(cmd)
    ensures Run(NameCmd, Some(cmd + " " + "\n"), st, speakerMax, pathMax, resolve, stdin)
            == Outcome(Fail, [Report(NoNameSpecified)], st, stdin)
  {
    BlankArgument(cmd);
  }

  // ---------------------------------------------------------------------------
  // save
  // ---------------------------------------------------------------------------

  /** "save f" remembers f (cut to the filename buffer) and writes the voice there. */
  lemma {:induction false} SaveTo(cmd: string, f: string, st: VoiceState, speakerMax: nat, pathMax: nat,
                                  resolve: string -> int, stdin: seq<char>)
    requires ValidState(st, speakerMax, pathMax) && CommandWord(cmd) && Word(f)
    ensures var g := Truncate(f, pathMax);
            Run(SaveCmd, Some(cmd + " " + f + "\n"), st, speakerMax, pathMax, resolve, stdin)
            == Outcome(Success, [Notice(SavingTo(g)), WriteVoice(g)], st.(filename := g), stdin)
  {
    ArgumentOf(cmd, f);
  }

  /**
    Unlike name, save does not check the chomped argument: a blank one
    replaces the remembered filename with the empty string and writes there.
  */
  lemma {:induction false} SaveBlank(cmd: string, st: VoiceState, speakerMax: nat, pathMax: nat,
                                     resolve: string -> int, stdin: seq<char>)
    requires ValidState(st, speakerMax, pathMax) && CommandWord(cmd)
    ensures Run(SaveCmd, Some(cmd + " " + "\n"), st, speakerMax, pathMax, resolve, stdin)
            == Outcome(Success, [Notice(SavingTo([])), WriteVoice([])], st.(filename := []), stdin)
  {
    BlankArgument(cmd);
  }

  /** A bare "save" writes the remembered file, and fails without writing when there is none. */
  lemma {:induction false} SaveRemembered(line: string, st: VoiceState, speakerMax: nat, pathMax: nat,
                                          resolve: string -> int, stdin: seq<char>)
    requires ValidState(st, speakerMax, pathMax) && CommandWord(line)
    ensures Run(SaveCmd, Some(line), st, speakerMax, pathMax, resolve, stdin)
            == if st.filename != []
               then Outcome(Success, [Notice(SavingTo(st.filename)), WriteVoice(st.filename)], st, stdin)
               else Outcome(Fail, [Report(NoFilenameSpecified)], st, stdin)
  {
    BareCommandHasNoArgument(line, []);
    assert line + [] == line;
  }

  /** "save f" followed by a bare "save" writes f both times. */
  lemma {:induction false} SaveThenSaveAgain(cmd: string, bare: string, f: string, st: VoiceState,
                                             speakerMax: nat, pathMax: nat, resolve: string -> int,
                                             stdin: seq<char>)
    requires ValidState(st, speakerMax, pathMax) && CommandWord(cmd) && CommandWord(bare)
    requires Word(f) && |f| <= pathMax
    ensures var o1 := Run(SaveCmd, Some(cmd + " " + f + "\n"), st, speakerMax, pathMax, resolve, stdin);
            var o2 := Run(SaveCmd, Some(bare), o1.state, speakerMax, pathMax, resolve, stdin);
            o1.code == Success && o2.code == Success
            && WrittenFiles(o1.out) == [f] && WrittenFiles(o2.out) == [f]
  {
    SaveTo(cmd, f, st, speakerMax, pathMax, resolve, stdin);
    SaveRemembered(bare, st.(filename := f), speakerMax, pathMax, resolve, stdin);
    WrittenFilesNoticeThenWrite(SavingTo(f), f);
  }
}
