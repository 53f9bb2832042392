/**
  The voice editor's command handlers: the command table, the six handlers
  and the replies they give. Each handler is specified by a function on the
  voice record as a value (`Run`), and implemented by a method on the live
  `Voice` that is proved to agree with it.

  A handler receives the whole command line as typed, or nothing at all
  (`None`, the NULL input of help mode). It answers with a return code and a
  trace of what it sent out: `error` messages, informational `printf` lines,
  `print_phoneme` calls and `write_voice` calls.
*/
module VoiceCmds {
  import opened CText
  import opened Voices
  import opened Prompts
  import opened FormantEditor

  /**
    What a handler returns: SUCCESS or FAIL; `Terminate` for quit, which
    returns no value; `NoInput` when console input ran out at a prompt.
  */
  datatype Code = Success | Fail | Terminate | NoInput

  datatype Handler = PrintCmd | EditCmd | NameCmd | SaveCmd | HelpCmd | QuitCmd

  /** What a handler sends out, in order. */
  datatype Event =
    | Report(msg: Message)       // error(FAIL, ...)
    | Notice(note: Note)         // an informational printf line
    | ShowPhoneme(p: Phoneme)    // print_phoneme(...)
    | WriteVoice(path: string)   // write_voice(path, voice)

  /** The messages handlers pass to `error`. */
  datatype Message =
    | UsageLine(h: Handler)
    | NoPhonemeSpecified
    | InvalidPhonemeId(idStr: string)
    | NoNameSpecified
    | NameTooLong
    | NoFilenameSpecified

  /** The informational lines handlers print. */
  datatype Note = ChangingName(from: string, to: string) | SavingTo(filename: string) | AutoSaving

  datatype VoiceCmd = VoiceCmd(name: string, callback: Handler)

  /** The command table, in the order help lists it. */
  const VoiceCommands: seq<VoiceCmd> := [
    VoiceCmd("print", PrintCmd),
    VoiceCmd("edit", EditCmd),
    VoiceCmd("name", NameCmd),
    VoiceCmd("save", SaveCmd),
    VoiceCmd("help", HelpCmd),
    VoiceCmd("quit", QuitCmd)
  ]

  const NumVoiceCmds: nat := |VoiceCommands|

  /** The command word a usage line starts with. */
  function UsageWord(h: Handler): string {
    match h
    case PrintCmd => "print"
    case EditCmd => "edit"
    case NameCmd => "name"
    case SaveCmd => "save"
    case HelpCmd => "help"
    case QuitCmd => "quit"
  }

  /** What follows the command word: its argument, if any, and what the command does. */
  function UsageDescription(h: Handler): string {
    match h
    case PrintCmd => "<Name/ID>\t--\tPrint the phoneme specified by <Name/ID>"
    case EditCmd => "<Name/ID>\t--\tEdit the phoneme specified by <Name/ID>"
    case NameCmd => "<new>\t--\tRename the current voice to the value specified by <new>"
    case SaveCmd => "[file]\t--\tSave the current voice to the specified or last used filename"
    case HelpCmd => "\t--\tDisplay this help text"
    case QuitCmd => "\t--\tQuit the voice editor and return to Vocli"
  }

  /** `u` begins with `word` followed by a space or a tab. */
  predicate LedBy(u: string, word: string) {
    |word| < |u| && u[..|word|] == word && (u[|word|] == ' ' || u[|word|] == '\t')
  }

  /**
    The one-line usage text each handler reports in help mode: the command
    word, a space before an argument or a tab before the dashes, then the
    description.
  */
  function Usage(h: Handler): (r: string)
    ensures LedBy(r, UsageWord(h))
  {
    var word := UsageWord(h);
    var sep := if h == HelpCmd || h == QuitCmd then "\t" else " ";
    var u := word + sep + UsageDescription(h);
    assert u[..|word|] == word;
    assert u[|word|] == sep[0];
    u
  }

  /** Each table entry's usage line begins with its command word, followed by a space or a tab. */
  lemma {:induction false} UsageNamesCommand(i: nat)
    requires i < NumVoiceCmds
    ensures LedBy(Usage(VoiceCommands[i].callback), VoiceCommands[i].name)
  {
    var c := VoiceCommands[i];
    assert c.name == UsageWord(c.callback);
  }

  /** The text `error` is given for each message. */
  function MessageText(m: Message): (r: string)
    ensures !m.UsageLine? ==> |r| > 0 && r[|r| - 1] == '\n'
  {
    match m
    case UsageLine(h) => Usage(h)
    case NoPhonemeSpecified => "No phoneme specified\n"
    case InvalidPhonemeId(idStr) => "Invalid phoneme ID '" + idStr + "'\n"
    case NoNameSpecified => "Please specify a name\n"
    case NameTooLong => "The name you have specified is too long\n"
    case NoFilenameSpecified => "Please specify a filename\n"
  }

  /** The text printed for each informational line. */
  function NoteText(n: Note): (r: string)
    ensures |r| > 0 && r[|r| - 1] == '\n'
    ensures n.SavingTo? ==> |n.filename| < |r| && r[|r| - 1 - |n.filename|..|r| - 1] == n.filename
  {
    match n
    case ChangingName(from, to) => "Changing name from '" + from + "' to '" + to + "'\n"
    case SavingTo(filename) =>
      var r := "filename: " + filename + "\n";
      assert r[|r| - 1 - |filename|..|r| - 1] == filename;
      r
    case AutoSaving => "Auto-saving...\n"
  }

  /** The usage lines of a list of commands, one per command, in order. */
  function UsageLines(cmds: seq<VoiceCmd>): (r: seq<Event>)
    ensures |r| == |cmds|
    ensures forall i :: 0 <= i < |cmds| ==> r[i] == Report(UsageLine(cmds[i].callback))
    ensures WrittenFiles(r) == []
  {
    if cmds == [] then [] else [Report(UsageLine(cmds[0].callback))] + UsageLines(cmds[1..])
  }

  /** The files a trace writes, in order. */
  function WrittenFiles(out: seq<Event>): seq<string> {
    if out == [] then []
    else (if out[0].WriteVoice? then [out[0].path] else []) + WrittenFiles(out[1..])
  }

  lemma {:induction false} WrittenFilesOne(a: Event)
    ensures WrittenFiles([a]) == if a.WriteVoice? then [a.path] else []
  {
    assert [a][1..] == [];
  }

  lemma {:induction false} WrittenFilesNoticeThenWrite(n: Note, f: string)
    ensures WrittenFiles([Notice(n), WriteVoice(f)]) == [f]
  {
    assert [Notice(n), WriteVoice(f)][1..] == [WriteVoice(f)];
    WrittenFilesOne(WriteVoice(f));
  }

  // ---------------------------------------------------------------------------
  // Choosing a phoneme (print and edit)
  // ---------------------------------------------------------------------------

  /**
    The ID a phoneme token stands for: a name lookup when it starts with a
    letter, otherwise strtol's value; either way stored in a `uint8_t`.
  */
  function PhonemeId(idStr: string, resolve: string -> int): (id: int)
    ensures 0 <= id < 256
    ensures idStr != [] && IsAlpha(idStr[0]) ==> (resolve(idStr) - id) % 256 == 0
    ensures !(idStr != [] && IsAlpha(idStr[0])) ==> (Strtol(idStr) - id) % 256 == 0
  {
    if idStr != [] && IsAlpha(idStr[0]) then Uint8(resolve(idStr)) else Uint8(Strtol(idStr))
  }

  datatype Selection = Selected(id: nat) | NoPhoneme | InvalidId(idStr: string)

  /**
    The phoneme a print or edit line names: the second token, chomped,
    turned into an ID and checked against the number of phonemes.
  */
  function SelectPhoneme(line: string, numPhonemes: nat, resolve: string -> int): (r: Selection)
    ensures r.Selected? ==> r.id < numPhonemes
    ensures r == NoPhoneme <==> SecondToken(line).None?
  {
    match SecondToken(line)
    case None => NoPhoneme
    case Some(tok) =>
      var idStr := Chomp(tok);
      var id := PhonemeId(idStr, resolve);
      if id >= numPhonemes then InvalidId(idStr) else Selected(id)
  }

  /** The error a failed selection reports. */
  function Rejection(s: Selection): Message
    requires !s.Selected?
  {
    if s.NoPhoneme? then NoPhonemeSpecified else InvalidPhonemeId(s.idStr)
  }

  // ---------------------------------------------------------------------------
  // The handlers on the voice record as a value
  // ---------------------------------------------------------------------------

  /** A handler's return code, its trace, the voice record after it, and the console input left. */
  datatype Outcome = Outcome(code: Code, out: seq<Event>, state: VoiceState, rest: seq<char>)

  /** What a handler that does not read the console answers: code, trace and voice record. */
  datatype Reply = Reply(code: Code, out: seq<Event>, state: VoiceState)

  function PrintReply(line: string, st: VoiceState, resolve: string -> int): (o: Reply)
    ensures o.state == st
    ensures o.code == Success || o.code == Fail
    ensures var sel := SelectPhoneme(line, |st.phonemes|, resolve);
            (o.code == Success <==> sel.Selected?)
            && (sel.Selected? ==> o.out == [ShowPhoneme(st.phonemes[sel.id])])
    ensures WrittenFiles(o.out) == []
  {
    var sel := SelectPhoneme(line, |st.phonemes|, resolve);
    if !sel.Selected? then
      WrittenFilesOne(Report(Rejection(sel)));
      Reply(Fail, [Report(Rejection(sel))], st)
    else
      WrittenFilesOne(ShowPhoneme(st.phonemes[sel.id]));
      Reply(Success, [ShowPhoneme(st.phonemes[sel.id])], st)
  }

  /**
    The edit command: choose the phoneme (failing before any prompt), read
    the formant selector, run the formant loop, then show the phoneme.
  */
  function EditOutcome(line: string, st: VoiceState, resolve: string -> int, stdin: seq<char>): (o: Outcome)
    requires AllWellFormed(st.phonemes)
    ensures |o.state.phonemes| == |st.phonemes| && AllWellFormed(o.state.phonemes)
    ensures o.state.name == st.name && o.state.filename == st.filename
    ensures !SelectPhoneme(line, |st.phonemes|, resolve).Selected? ==> o.state == st && o.rest == stdin
    ensures o.code != Fail ==> |o.rest| < |stdin| || o.rest == []
    ensures o.code == Fail ==> o.state == st && o.rest == stdin
    ensures o.code == Fail <==> !SelectPhoneme(line, |st.phonemes|, resolve).Selected?
    ensures var sel := SelectPhoneme(line, |st.phonemes|, resolve);
            sel.Selected? && o.code == Success ==> o.out == [ShowPhoneme(o.state.phonemes[sel.id])]
    ensures var sel := SelectPhoneme(line, |st.phonemes|, resolve);
            var r := ReadSelector(stdin);
            sel.Selected? && r.Accepted? ==>
              var e := EditUpTo(st.phonemes[sel.id].formants, r.value, NUM_FORMANTS, r.rest);
              && o.state.phonemes == st.phonemes[sel.id := st.phonemes[sel.id].(formants := e.formants)]
              && (o.code == Success <==> e.complete)
              && (e.complete ==> o.rest == e.rest)
    ensures var sel := SelectPhoneme(line, |st.phonemes|, resolve);
            sel.Selected? && ReadSelector(stdin).EndOfInput? ==> o.code == NoInput && o.state == st
    ensures WrittenFiles(o.out) == []
  {
    var sel := SelectPhoneme(line, |st.phonemes|, resolve);
    if !sel.Selected? then
      WrittenFilesOne(Report(Rejection(sel)));
      Outcome(Fail, [Report(Rejection(sel))], st, stdin)
    else
      match ReadSelector(stdin)
      case EndOfInput => Outcome(NoInput, [], st, [])
      case Accepted(fmtId, s1) =>
        var e := EditUpTo(st.phonemes[sel.id].formants, fmtId, NUM_FORMANTS, s1);
        var p := st.phonemes[sel.id].(formants := e.formants);
        var st' := st.(phonemes := st.phonemes[sel.id := p]);
        if e.complete then
          WrittenFilesOne(ShowPhoneme(p));
          Outcome(Success, [ShowPhoneme(p)], st', e.rest)
        else Outcome(NoInput, [], st', [])
  }

  /** The name check: a token must be present and non-empty after chomping, and fit the name buffer. */
  datatype Rename = NoName | TooLong | Renamed(name: string)

  function CheckName(line: string, speakerMax: nat): (r: Rename)
    ensures r.Renamed? ==> 0 < |r.name| < speakerMax && ' ' !in r.name
    ensures r == NoName <==> SecondToken(line).None? || Chomp(SecondToken(line).value) == []
  {
    match SecondToken(line)
    case None => NoName
    case Some(tok) =>
      var name := Chomp(tok);
      if name == [] then NoName
      else if |name| >= speakerMax then TooLong
      else Renamed(name)
  }

  function NameReply(line: string, st: VoiceState, speakerMax: nat): (o: Reply)
    ensures o.state.phonemes == st.phonemes && o.state.filename == st.filename
    ensures o.code == Success || o.code == Fail
    ensures o.code == Fail <==> !CheckName(line, speakerMax).Renamed?
    ensures o.code == Fail ==> o.state == st
    ensures var c := CheckName(line, speakerMax);
            c.Renamed? ==> o.state == st.(name := c.name) && o.out == [Notice(ChangingName(st.name, c.name))]
    ensures o.code == Success ==> 0 < |o.state.name| < speakerMax
    ensures WrittenFiles(o.out) == []
  {
    match CheckName(line, speakerMax)
    case NoName =>
      WrittenFilesOne(Report(NoNameSpecified));
      Reply(Fail, [Report(NoNameSpecified)], st)
    case TooLong =>
      WrittenFilesOne(Report(NameTooLong));
      Reply(Fail, [Report(NameTooLong)], st)
    case Renamed(name) =>
      WrittenFilesOne(Notice(ChangingName(st.name, name)));
      Reply(Success, [Notice(ChangingName(st.name, name))], st.(name := name))
  }

  /** `strncpy(dst, src, n)` into an n-byte buffer: at most n characters are kept. */
  function Truncate(s: string, n: nat): (r: string)
    ensures |r| <= n && r <= s
    ensures |s| <= n ==> r == s
    ensures |s| > n ==> r == s[..n]
  {
    if |s| <= n then s else s[..n]
  }

  /**
    The file save writes to: the chomped argument when one is given,
    otherwise the remembered filename, or none when that is empty.
  */
  function SaveTarget(line: string, remembered: string, pathMax: nat): (r: Option<string>)
    ensures r.Some? ==> |r.value| <= pathMax || r.value == remembered
    ensures r.None? <==> SecondToken(line).None? && remembered == []
    ensures SecondToken(line).None? && remembered != [] ==> r == Some(remembered)
  {
    match SecondToken(line)
    case None => if remembered == [] then None else Some(remembered)
    case Some(tok) => Some(Truncate(Chomp(tok), pathMax))
  }

  function SaveReply(line: string, st: VoiceState, pathMax: nat): (o: Reply)
    requires |st.filename| <= pathMax
    ensures o.state.phonemes == st.phonemes && o.state.name == st.name
    ensures |o.state.filename| <= pathMax
    ensures o.code == Fail ==> o.state == st && WrittenFiles(o.out) == []
    ensures o.code == Success ==> WrittenFiles(o.out) == [o.state.filename]
    ensures o.code == Success || o.code == Fail
  {
    match SaveTarget(line, st.filename, pathMax)
    case None =>
      WrittenFilesOne(Report(NoFilenameSpecified));
      Reply(Fail, [Report(NoFilenameSpecified)], st)
    case Some(f) =>
      WrittenFilesNoticeThenWrite(SavingTo(f), f);
      Reply(Success, [Notice(SavingTo(f)), WriteVoice(f)], st.(filename := f))
  }

  function QuitReply(st: VoiceState): (o: Reply)
    ensures o.code == Terminate && o.state == st
    ensures WrittenFiles(o.out) == if st.filename != [] then [st.filename] else []
  {
    if st.filename != [] then
      WrittenFilesNoticeThenWrite(AutoSaving, st.filename);
      Reply(Terminate, [Notice(AutoSaving), WriteVoice(st.filename)], st)
    else Reply(Terminate, [], st)
  }

  /** The outcome of a handler that leaves the console input as it was. */
  function Answered(r: Reply, stdin: seq<char>): Outcome {
    Outcome(r.code, r.out, r.state, stdin)
  }

  /**
    One handler call. With no input every handler reports its usage line
    and fails; help lists every entry of the table. Only edit reads the
    console or changes phonemes, only name and save change the record's
    strings, only save and quit write files, and a failed call leaves the
    record as it was.
  */
  function Run(h: Handler, input: Option<string>, st: VoiceState, speakerMax: nat, pathMax: nat,
               resolve: string -> int, stdin: seq<char>): (o: Outcome)
    requires ValidState(st, speakerMax, pathMax)
    ensures ValidState(o.state, speakerMax, pathMax) && |o.state.phonemes| == |st.phonemes|
    ensures input.None? ==> o.code == Fail && o.out == [Report(UsageLine(h))]
    ensures o.code == Fail ==> o.state == st && o.rest == stdin && WrittenFiles(o.out) == []
    ensures h != EditCmd ==> o.state.phonemes == st.phonemes && o.rest == stdin
    ensures h != NameCmd ==> o.state.name == st.name
    ensures h != SaveCmd ==> o.state.filename == st.filename
    ensures h != SaveCmd && h != QuitCmd ==> WrittenFiles(o.out) == []
  {
    match input
    case None =>
      WrittenFilesOne(Report(UsageLine(h)));
      Outcome(Fail, [Report(UsageLine(h))], st, stdin)
    case Some(line) =>
      match h
      case PrintCmd => Answered(PrintReply(line, st, resolve), stdin)
      case EditCmd => EditOutcome(line, st, resolve, stdin)
      case NameCmd => Answered(NameReply(line, st, speakerMax), stdin)
      case SaveCmd => Answered(SaveReply(line, st, pathMax), stdin)
      case HelpCmd => Outcome(Success, UsageLines(VoiceCommands), st, stdin)
      case QuitCmd => Answered(QuitReply(st), stdin)
  }

  // ---------------------------------------------------------------------------
  // The handlers on the live voice
  // ---------------------------------------------------------------------------

  /** print: report the chosen phoneme; the voice is only read. */
  method Print(input: Option<string>, voice: Voice?, resolve: string -> int) returns (code: Code, out: seq<Event>)
    requires input.Some? ==> voice != null
    ensures input.None? ==> code == Fail && out == [Report(UsageLine(PrintCmd))]
    ensures input.Some? ==> Reply(code, out, voice.State()) == PrintReply(input.value, voice.State(), resolve)
  {
    if input.None? {
      return Fail, [Report(UsageLine(PrintCmd))];
    }
    var sel := SelectPhoneme(input.value, voice.phonemes.Length, resolve);
    if !sel.Selected? {
      return Fail, [Report(Rejection(sel))];
    }
    return Success, [ShowPhoneme(voice.phonemes[sel.id])];
  }

  /**
    edit: choose the phoneme, read the formant selector, then for each
    formant index run the prompts of every targeted formant, storing each
    field in place.
  */
  method Edit(input: Option<string>, voice: Voice?, resolve: string -> int, stdin: seq<char>)
    returns (code: Code, out: seq<Event>, rest: seq<char>)
    requires input.Some? ==> voice != null
    requires voice != null ==> voice.Valid()
    modifies if voice != null then {voice.phonemes} else {}
    ensures voice != null ==> voice.Valid()
    ensures input.None? ==> code == Fail && out == [Report(UsageLine(EditCmd))] && rest == stdin
    ensures input.None? && voice != null ==> voice.State() == old(voice.State())
    ensures input.Some? ==> var o := EditOutcome(input.value, old(voice.State()), resolve, stdin);
                            code == o.code && out == o.out && rest == o.rest && voice.State() == o.state
  {
    if input.None? {
      return Fail, [Report(UsageLine(EditCmd))], stdin;
    }
    var sel := SelectPhoneme(input.value, voice.phonemes.Length, resolve);
    if !sel.Selected? {
      return Fail, [Report(Rejection(sel))], stdin;
    }
    var id := sel.id;
    var fmt := PromptSelector(stdin);
    if fmt.EndOfInput? {
      return NoInput, [], [];
    }
    var complete;
    complete, rest := EditFormants(voice, id, fmt.value, fmt.rest);
    if !complete {
      return NoInput, [], [];
    }
    return Success, [ShowPhoneme(voice.phonemes[id])], rest;
  }

  /**
    The formant loop of edit: for each formant index, the prompts of the
    formant when the selector targets it, stored in place in phoneme `id`.
  */
  method EditFormants(voice: Voice, id: nat, fmtId: int, stdin: seq<char>) returns (complete: bool, rest: seq<char>)
    requires voice.Valid() && id < voice.phonemes.Length
    modifies voice.phonemes
    ensures voice.Valid()
    ensures var e := EditUpTo(old(voice.phonemes[id]).formants, fmtId, NUM_FORMANTS, stdin);
            voice.phonemes[..] == old(voice.phonemes[..])[id := old(voice.phonemes[id]).(formants := e.formants)]
            && complete == e.complete && rest == e.rest
  {
    ghost var fs := voice.phonemes[id].formants;
    complete, rest := true, stdin;
    for i := 0 to NUM_FORMANTS
      invariant voice.Valid()
      invariant forall j :: 0 <= j < voice.phonemes.Length && j != id ==> voice.phonemes[j] == old(voice.phonemes[j])
      invariant Edited(voice.phonemes[id].formants, rest, complete) == EditUpTo(fs, fmtId, i, stdin)
    {
      ghost var prev := EditUpTo(fs, fmtId, i, stdin);
      if complete && Targets(fmtId, i) {
        ghost var e := EditFormant(prev.formants[i], i, prev.rest);
        complete, rest := EditFormantFields(voice, id, i, rest);
        assert voice.phonemes[id].formants == prev.formants[i := e.formant];
        assert EditUpTo(fs, fmtId, i + 1, stdin) == Edited(prev.formants[i := e.formant], e.rest, e.complete);
      } else {
        assert EditUpTo(fs, fmtId, i + 1, stdin) == prev;
      }
    }
    assert voice.phonemes[..] == old(voice.phonemes[..])[id := old(voice.phonemes[id]).(formants := voice.phonemes[id].formants)];
  }

  /** name: rename the voice to the chomped second word when it fits. */
  method Name(input: Option<string>, voice: Voice?) returns (code: Code, out: seq<Event>)
    requires input.Some? ==> voice != null
    modifies if voice != null then {voice} else {}
    ensures input.None? ==> code == Fail && out == [Report(UsageLine(NameCmd))]
    ensures input.None? && voice != null ==> voice.State() == old(voice.State())
    ensures input.Some? ==> Reply(code, out, voice.State()) == NameReply(input.value, old(voice.State()), voice.speakerMax)
  {
    if input.None? {
      return Fail, [Report(UsageLine(NameCmd))];
    }
    match CheckName(input.value, voice.speakerMax)
    case NoName =>
      return Fail, [Report(NoNameSpecified)];
    case TooLong =>
      return Fail, [Report(NameTooLong)];
    case Renamed(name) =>
      out := [Notice(ChangingName(voice.name, name))];
      voice.name := name;
      return Success, out;
  }

  /** save: pick the file, remember it, and write the voice to it. */
  method Save(input: Option<string>, voice: Voice?) returns (code: Code, out: seq<Event>)
    requires input.Some? ==> voice != null && |voice.filename| <= voice.pathMax
    modifies if voice != null then {voice} else {}
    ensures input.None? ==> code == Fail && out == [Report(UsageLine(SaveCmd))]
    ensures input.None? && voice != null ==> voice.State() == old(voice.State())
    ensures input.Some? ==> Reply(code, out, voice.State()) == SaveReply(input.value, old(voice.State()), voice.pathMax)
  {
    if input.None? {
      return Fail, [Report(UsageLine(SaveCmd))];
    }
    var target := SaveTarget(input.value, voice.filename, voice.pathMax);
    if target.None? {
      return Fail, [Report(NoFilenameSpecified)];
    }
    voice.filename := target.value;
    return Success, [Notice(SavingTo(voice.filename)), WriteVoice(voice.filename)];
  }

  /** help: call every table entry in help mode, in table order. */
  method Help(input: Option<string>, voice: Voice?, resolve: string -> int, stdin: seq<char>)
    returns (code: Code, out: seq<Event>)
    ensures input.None? ==> code == Fail && out == [Report(UsageLine(HelpCmd))]
    ensures input.Some? ==> code == Success && out == UsageLines(VoiceCommands)
    decreases if input.Some? then 1 else 0, 0
  {
    if input.None? {
      return Fail, [Report(UsageLine(HelpCmd))];
    }
    out := [];
    for i := 0 to NumVoiceCmds
      invariant |out| == i
      invariant forall j :: 0 <= j < i ==> out[j] == Report(UsageLine(VoiceCommands[j].callback))
    {
      var c, o, _ := Invoke(VoiceCommands[i].callback, None, null, resolve, stdin);
      out := out + o;
    }
    return Success, out;
  }

  /** quit: auto-save when a filename is remembered; the voice is only read. */
  method Quit(input: Option<string>, voice: Voice?) returns (code: Code, out: seq<Event>)
    requires input.Some? ==> voice != null
    ensures input.None? ==> code == Fail && out == [Report(UsageLine(QuitCmd))]
    ensures input.Some? ==> Reply(code, out, voice.State()) == QuitReply(voice.State())
  {
    if input.None? {
      return Fail, [Report(UsageLine(QuitCmd))];
    }
    out := [];
    if voice.filename != [] {
      out := [Notice(AutoSaving), WriteVoice(voice.filename)];
    }
    return Terminate, out;
  }

  /** A call through the command table's callback. */
  method Invoke(h: Handler, input: Option<string>, voice: Voice?, resolve: string -> int, stdin: seq<char>)
    returns (code: Code, out: seq<Event>, rest: seq<char>)
    requires input.Some? ==> voice != null
    requires voice != null ==> voice.Valid()
    modifies if voice != null then {voice, voice.phonemes} else {}
    ensures voice != null ==> voice.Valid()
    ensures input.None? ==> code == Fail && out == [Report(UsageLine(h))] && rest == stdin
    ensures voice != null ==>
      var o := Run(h, input, old(voice.State()), voice.speakerMax, voice.pathMax, resolve, stdin);
      code == o.code && out == o.out && rest == o.rest && voice.State() == o.state
    decreases if input.Some? then 1 else 0, 1
  {
    rest := stdin;
    match h
    case PrintCmd =>
      code, out := Print(input, voice, resolve);
    case EditCmd =>
      code, out, rest := Edit(input, voice, resolve, stdin);
    case NameCmd =>
      code, out := Name(input, voice);
    case SaveCmd =>
      code, out := Save(input, voice);
    case HelpCmd =>
      code, out := Help(input, voice, resolve, stdin);
    case QuitCmd =>
      code, out := Quit(input, voice);
  }
}
