# Voice editor commands

This project models the command handlers of the Vocli voice editor
(`voice_cmds.c`). The editor works on one voice: a name, a remembered
filename and a fixed table of phonemes. Each phoneme holds three formants,
and each formant has a frequency, a bandwidth and a dB offset. The user types
command lines. Each one is given to the handler of its command word: `print`,
`edit`, `name`, `save`, `help` or `quit`. A handler called with no input (a
NULL line) reports its one-line usage text and fails. `help` lists the whole
table by calling every handler that way.

The command table `VoiceCommands` (voice_cmds.c:13-23) lists the six
handlers in the order help reports them. The model has six modules:

- `CText` holds the C library behaviour the handlers rely on:
  - `strtok` with a `" "` delimiter, as the first and second token of a line;
  - `strtol` in base 10 with a 64-bit `long`, clamped on overflow;
  - `labs`, the `uint8_t` conversion and `isspace`/`isalpha`;
  - `fgets` into a fixed buffer;
  - `strchomp`, modelled as stripping trailing white space.
- `Voices` holds the voice record. `Formant` and `Phoneme` are values. The
  live voice is a class `Voice` with `name` and `filename` fields and a
  `phonemes` array that the edit command updates in place. `VoiceState` is
  the record as a value, and `Voice.State()` reads it off the object.
- `Prompts` holds the three re-prompting read loops of the edit command (the
  formant selector, the frequency/bandwidth loops and the dB-offset loop).
  Each loop is a `method` with a `while` loop, proved equal to a recursive
  function over the console input.
- `FormantEditor` holds the per-formant prompts and the loop over formant
  indices as functions on values (`EditFormant`, `EditUpTo`). It also holds
  `EditFormantFields`, the in-place form of the three prompts of one formant,
  which stores into the phoneme array and is proved to agree with
  `EditFormant`.
- `VoiceCmds` holds the command table and the six handlers:
  - `Run` specifies each handler as a function on the voice record;
  - a method per handler works on the live `Voice`;
  - `EditFormants` is the in-place `for` loop over formant indices, proved
    to leave the formants `EditUpTo` specifies;
  - `Invoke` is the table's callback call, proved equal to `Run`.

  A handler's answer is a return code plus a trace of events. The events
  are the `error` messages, the informational `printf` lines, the
  `print_phoneme` calls and the `write_voice` calls.
- `CommandFacts` holds properties of whole command lines: what `print`,
  `edit`, `name` and `save` do with a given argument, a blank one, or
  none.

Console input is a character stream. Every prompt reads with `fgets` into a
12-byte buffer, that is, up to and including a newline and at most 11
characters. The model's one addition to the code's behaviour: when the
stream runs out at a prompt, the handler stops with the code `NoInput`
instead of spinning on a stale buffer. The phoneme-name lookup
(`get_phoneme_ID`) comes from another file, so it is a function parameter
`resolve` whose result is stored in a `uint8_t`, as the code does. The
header constants `SPEAKER_MAX`, `PATH_MAX` and `NUM_PHONEMES` are the
voice's `speakerMax`, `pathMax` and the length of its phoneme array.

## Model

| member | source | states |
|---|---|---|
| VoiceCmds.Usage | voice_cmds.c:29-30 | each usage line starts with its command word, followed by a space or a tab (the texts of lines 30, 63, 140, 166, 196 and 214) |
| VoiceCmds.UsageNamesCommand | voice_cmds.c:13-20 | the usage line of each table entry starts with that entry's command word |
| VoiceCmds.MessageText | voice_cmds.c:36-37 | every error message other than a usage line ends with a newline (the texts of lines 37, 50, 149, 153 and 176) |
| VoiceCmds.NoteText | voice_cmds.c:155 | every informational line ends with a newline, and the save line ends with the filename (the texts of lines 155, 183 and 219) |
| VoiceCmds.UsageLines | voice_cmds.c:201-204 | calling every table entry in help mode yields one usage report per entry, in table order, and writes no file |
| VoiceCmds.PhonemeId | voice_cmds.c:42-46 | the ID is in 0..255 and congruent modulo 256 to the name lookup's result when the token starts with a letter, and to strtol's value otherwise |
| VoiceCmds.SelectPhoneme | voice_cmds.c:32-50 | the result is "no phoneme" exactly when the line has no second token; a selected ID is always below the number of phonemes |
| VoiceCmds.PrintReply | voice_cmds.c:32-55 | print never changes the voice or writes a file; it succeeds exactly when a phoneme was selected, and then shows exactly that phoneme |
| VoiceCmds.EditOutcome | voice_cmds.c:65-132 | edit fails exactly when no valid phoneme is selected, and then the voice and the input are untouched; otherwise it consumes input, keeps the phoneme count, the name and the filename; once the selector is read, the selected phoneme's formants become exactly those EditUpTo gives for the following input, nothing else changes, and edit succeeds exactly when every prompt was answered, showing the selected phoneme as edited; input ending at the selector prompt changes nothing |
| VoiceCmds.CheckName | voice_cmds.c:144-153 | the name is missing exactly when there is no second token or it chomps to nothing; an accepted name is non-empty, shorter than the name buffer, and has no space |
| VoiceCmds.NameReply | voice_cmds.c:144-158 | name fails exactly when the name check rejects the token, and then nothing changes; when the check accepts it, the voice's name becomes the checked token and the change is announced; phonemes and filename never change |
| VoiceCmds.Truncate | voice_cmds.c:180 | strncpy into the filename buffer keeps the whole string when it fits and exactly its first PATH_MAX characters otherwise |
| VoiceCmds.SaveTarget | voice_cmds.c:169-181 | there is no target exactly when the line has no argument and no filename is remembered; a bare save uses the remembered filename |
| VoiceCmds.SaveReply | voice_cmds.c:169-188 | on failure nothing changes and nothing is written; on success exactly the new remembered filename is written, and it fits the buffer |
| VoiceCmds.QuitReply | voice_cmds.c:216-223 | quit never changes the voice and writes the remembered file exactly when there is one |
| VoiceCmds.Run | voice_cmds.c:26-224 | any handler without input reports its usage line and fails; a failed call leaves the voice and input untouched and writes nothing; only edit reads input or changes phonemes, only name changes the name, only save changes the filename, only save and quit write files |
| VoiceCmds.Print | voice_cmds.c:26-56 | the print handler on the live voice agrees with PrintReply and reports its usage line without input |
| VoiceCmds.Edit | voice_cmds.c:59-133 | the edit handler on the live voice agrees with EditOutcome, updating the phoneme array in place |
| VoiceCmds.EditFormants | voice_cmds.c:93-127 | the in-place formant loop changes only the chosen phoneme, whose formants become those of EditUpTo |
| VoiceCmds.Name | voice_cmds.c:136-159 | the name handler on the live voice agrees with NameReply |
| VoiceCmds.Save | voice_cmds.c:162-189 | the save handler on the live voice agrees with SaveReply |
| VoiceCmds.Help | voice_cmds.c:192-207 | help without input reports its usage line; with input it succeeds after one usage report per table entry, in order |
| VoiceCmds.Quit | voice_cmds.c:210-224 | the quit handler on the live voice agrees with QuitReply |
| VoiceCmds.Invoke | voice_cmds.c:203 | a call through the table on the live voice agrees with Run and keeps the voice well formed |
| Prompts.ReadSelector | voice_cmds.c:84-90 | the selector accepted is always 0..NUM_FORMANTS, and reading it consumes input |
| Prompts.ReadMagnitude | voice_cmds.c:104-117 | frequency and bandwidth are accepted only when nonzero, and a value read from a 12-byte buffer is below 10^11 |
| Prompts.ReadOffset | voice_cmds.c:119-125 | the dB offset of formant #1 is taken as read; for later formants only a nonzero offset is accepted; its magnitude is below 10^11 |
| Prompts.PromptSelector | voice_cmds.c:85-90 | the selector prompt loop returns what ReadSelector specifies |
| Prompts.PromptMagnitude | voice_cmds.c:105-109 | the frequency/bandwidth prompt loop returns what ReadMagnitude specifies |
| Prompts.PromptOffset | voice_cmds.c:120-125 | the dB-offset prompt loop returns what ReadOffset specifies |
| Prompts.StrtolNewline | voice_cmds.c:107-108 | the newline fgets keeps does not change the number strtol reads |
| Prompts.SelectorOf | voice_cmds.c:89-90 | a character ends the selector loop exactly when it is '0'..'3', and then gives that digit |
| Prompts.SelectorLine | voice_cmds.c:85-90 | a typed line answers the selector prompt exactly when it starts with '0'..'3'; otherwise the prompt repeats |
| Prompts.MagnitudeLine | voice_cmds.c:105-109 | a typed line answers the frequency or bandwidth prompt exactly when its number is nonzero, with its absolute value |
| Prompts.OffsetLine | voice_cmds.c:120-125 | a typed line answers the dB-offset prompt of formant #1 whatever it holds; for later formants only when its number is nonzero |
| Prompts.NegativeMagnitudeStoresAbsolute | voice_cmds.c:108 | typing a negative number at a frequency or bandwidth prompt stores its absolute value |
| Prompts.NegativeFrequencyStoresAbsolute | voice_cmds.c:108 | typing "-120" at a frequency or bandwidth prompt stores 120 |
| Prompts.ZeroMagnitudeAskedAgain | voice_cmds.c:105-109 | typing "0" at a frequency or bandwidth prompt repeats the prompt |
| Prompts.ZeroOffsetAsymmetry | voice_cmds.c:120-125 | typing "0" at the dB-offset prompt is accepted for formant #1 and repeats the prompt for the others |
| FormantEditor.EditFormant | voice_cmds.c:103-125 | when all three prompts are answered, the formant has nonzero frequency and bandwidth, and a nonzero offset after formant #1; when input runs out nothing is left to read |
| FormantEditor.EditUpTo | voice_cmds.c:93-127 | the loop keeps the number of formants, never consumes more input than it has, and when complete every targeted formant it passed has its fields set |
| FormantEditor.EditUpToFrame | voice_cmds.c:95 | formants the selector does not target, and those the loop has not reached, keep their values |
| FormantEditor.EditSingleFormant | voice_cmds.c:93-127 | selector k in 1..3 edits formant k alone from the first input line and leaves the other two as they were |
| FormantEditor.StorePhoneme | voice_cmds.c:98 | a store into the phoneme array changes exactly one phoneme slot |
| FormantEditor.EditFormantFields | voice_cmds.c:103-125 | the in-place three-prompt sequence leaves the formant that EditFormant specifies, storing each field as its loop ends |
| CommandFacts.ArgumentOf | voice_cmds.c:32-39 | for a line "cmd arg", the second token exists and chomps to arg |
| CommandFacts.PhonemeIdOfDecimal | voice_cmds.c:46 | a decimal ID k selects k mod 256 |
| CommandFacts.PhonemeIdOfNegative | voice_cmds.c:46 | a negative decimal ID -k selects -k mod 256 |
| CommandFacts.SelectArgument | voice_cmds.c:35-50 | a line "cmd arg" selects the ID of arg when it is below the phoneme count and rejects arg otherwise |
| CommandFacts.SelectByName | voice_cmds.c:43-50 | an argument starting with a letter chooses the name lookup's result modulo 256 when it is below the phoneme count, and is rejected otherwise |
| CommandFacts.PrintArgument | voice_cmds.c:35-53 | "print w" shows exactly the phoneme whose ID w gives, or fails with "Invalid phoneme ID" naming w, changing nothing either way |
| CommandFacts.SelectBare | voice_cmds.c:35-37 | a line with only the command word selects no phoneme |
| CommandFacts.Id257Wraps | voice_cmds.c:46 | ID "257" wraps to phoneme 1 |
| CommandFacts.IdMinusOneWraps | voice_cmds.c:46 | ID "-1" wraps to phoneme 255 |
| CommandFacts.SelectBlank | voice_cmds.c:35-50 | a blank argument is not missing: it reads as ID 0, which is selected when the voice has any phonemes |
| CommandFacts.PhonemeCommandWithoutArgument | voice_cmds.c:36-37 | print or edit with only the command word fails with "No phoneme specified" and changes nothing |
| CommandFacts.EditChangesOnlyTargets | voice_cmds.c:93-127 | edit changes only the chosen phoneme, and in it only the targeted formants, which on success have their fields set |
| CommandFacts.EditOneFormantByLines | voice_cmds.c:103-125 | answering one formant's three prompts stores the absolute frequency and bandwidth and the offset as typed |
| CommandFacts.EditCompletes | voice_cmds.c:93-132 | when a phoneme is chosen, the selector is read and the formant loop answers every prompt, edit stores the loop's formants in that phoneme alone, shows it, succeeds, and leaves the input the loop left |
| CommandFacts.EditOneFormantCommand | voice_cmds.c:65-132 | "edit w" answered with selector k in 1..3 and three nonzero numbers stores the absolute frequency, the absolute bandwidth and the typed offset in formant k of phoneme w, shows that phoneme, and changes nothing else |
| CommandFacts.RenameTo | voice_cmds.c:144-156 | "name w" renames the voice to w when w fits the buffer and fails with "too long" otherwise |
| CommandFacts.NameTakesSecondWord | voice_cmds.c:143-145 | only the word right after the command becomes the name; later words are dropped |
| CommandFacts.NameBlank | voice_cmds.c:148-149 | a blank name argument fails with "Please specify a name" |
| CommandFacts.SaveTo | voice_cmds.c:169-186 | "save f" remembers and writes f, cut to the path buffer |
| CommandFacts.SaveBlank | voice_cmds.c:173-186 | a blank save argument replaces the remembered filename with the empty string and writes there |
| CommandFacts.SaveRemembered | voice_cmds.c:173-186 | a bare save writes the remembered file, or fails with "Please specify a filename" when none is remembered |
| CommandFacts.SaveThenSaveAgain | voice_cmds.c:169-186 | after "save f", a bare save writes f again |
| CText.Strtol | voice_cmds.c:46 | strtol's result always lies in the range of a 64-bit long |
| CText.StrtolDecimal | voice_cmds.c:46 | strtol reads back a decimal numeral, with or without a minus sign, when it fits a long |
| CText.StrtolBound | voice_cmds.c:107-108 | a number read from at most n characters is below 10^n in magnitude and is never LONG_MIN, so labs cannot overflow |
| CText.Uint8 | voice_cmds.c:46 | the uint8_t conversion gives 0..255 and is congruent to its input mod 256 |
| CText.Labs | voice_cmds.c:108 | labs gives a non-negative value equal to its input or its negation |
| CText.SecondToken | voice_cmds.c:32-35 | the argument the second strtok call returns is non-empty and holds no delimiter, and exists only after a first token (the same pair at lines 65-66, 144-145 and 169-170) |
| CText.NextToken | voice_cmds.c:32 | a token strtok returns is non-empty and holds no delimiter |
| CText.SecondTokenOf | voice_cmds.c:32-35 | the second strtok call on "cmd arg..." returns arg |
| CText.BareCommandHasNoArgument | voice_cmds.c:35-36 | the second strtok call on a command word followed only by spaces returns NULL |
| CText.Chomp | voice_cmds.c:39 | strchomp keeps a prefix, stripping exactly the trailing white space |
| CText.Fgets | voice_cmds.c:107 | fgets returns nothing exactly at end of input; otherwise a non-empty chunk shorter than the buffer, and the chunk followed by the rest is the input |
| CText.FgetsLine | voice_cmds.c:107 | a line shorter than the buffer is read whole, newline included |

## Left out

- Prompt text: the `printf` prompts inside the edit loops are not part of the trace. Only their reads are modelled.
- VoiceCmds.Edit, Prompts.PromptSelector, Prompts.PromptMagnitude, Prompts.PromptOffset: when console input runs out, the prompt loops stop and return `EndOfInput`, and `VoiceCmds.Edit` turns that into the code `NoInput`. The C loops keep calling `fgets`, which leaves the buffer as it was, so they spin forever or use stale bytes. The C `for` loop would also go on to the next formant.
- VoiceCmds.Edit: the C reads the formant selector with `fgets(IDstr, 12, stdin)` into the caller's line buffer, starting at the token. Whether those 12 bytes fit depends on that buffer's size, which is not part of this model. The model reads into a separate 12-byte chunk and leaves the line buffer alone.
- VoiceCmds.Edit: the `IDstr != NULL` test guards nothing, because `fgets` returning NULL is not checked. The model reads the new chunk's first character.
- Characters: one Dafny `char` stands for one C byte. `fgets` counts characters toward its 11-byte limit, and the selector reduces a character's code modulo 256. Multi-byte encodings such as UTF-8, where one character is several bytes, are not modelled.
- Prompts.SelectorLine: characters are assumed to be below 256, as a C `char` is. The selector arithmetic is `uint8_t` on that value.
- VoiceCmds.Save: `strncpy` with exactly `PATH_MAX` characters leaves the buffer unterminated. The model keeps the truncated string (`Truncate`) and does not model the missing terminator.
- VoiceCmds.Quit: the C function returns no value, which is undefined behaviour for its caller. The model returns the code `Terminate`. The commented-out `exit` is not modelled.
- The dispatcher that maps a typed command word to a handler is not part of this model. A handler never checks its own command word, so the lemmas take that word as a parameter.
- `get_phoneme_ID`, `print_phoneme`, `write_voice`, `error` and `strchomp` come from files that are not part of this model:
  - The name lookup is a parameter.
  - Printing, writing and errors are trace events, and `MessageText`/`NoteText` give the text of each message.
  - `write_voice`'s result and file format are not modelled.
  - `strchomp` is taken to strip trailing `isspace` characters.
- Field widths: the formant fields are unbounded integers. A value read from a 12-byte buffer has magnitude below 10^11, and the narrower C field types of the formant record are not modelled.
- `long`: it is taken to be 64 bits wide (LP64). Because every number an edit prompt reads has magnitude below 10^11, `labs(LONG_MIN)` cannot occur.
- Strings: they are taken to hold no NUL characters, because C strings end at the first one.
- VoiceCmds.Help: its C loop calls each callback with a NULL voice. The model does the same, and `Invoke` takes a `Voice?` for that reason.
