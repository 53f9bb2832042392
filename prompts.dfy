/**
  The re-prompting read loops of the edit command. Each loop reads with
  `fgets(buf, 12, stdin)` and repeats until the value read is acceptable.
  Console input is a character stream; a loop that meets the end of the
  stream stops with EndOfInput (the C loops would spin on a stale buffer).
*/
module Prompts {
  import opened CText
  import opened Voices

  /** Every prompt in the edit command reads into a 12-byte buffer. */
  const PROMPT_BUF: nat := 12

  /** Bound on any number a prompt can read: at most 11 characters fit the buffer. */
  const PROMPT_LIMIT: nat := 100_000_000_000

  /** The value a prompt loop accepted and the input left unread. */
  datatype Read = Accepted(value: int, rest: seq<char>) | EndOfInput

  /** The formant selector of a chunk: its first character minus '0', as `uint8_t`. */
  function Selector(chunk: string): int
    requires |chunk| > 0
  {
    Uint8(chunk[0] as int - '0' as int)
  }

  /** The formant-selector loop: the first chunk whose selector is at most NUM_FORMANTS. */
  function ReadSelector(s: seq<char>): (r: Read)
    ensures r.Accepted? ==> 0 <= r.value <= NUM_FORMANTS
    ensures r.Accepted? ==> |r.rest| < |s|
    decreases |s|
  {
    match Fgets(s, PROMPT_BUF)
    case None => EndOfInput
    case Some((chunk, rest)) =>
      if Selector(chunk) <= NUM_FORMANTS then Accepted(Selector(chunk), rest)
      else ReadSelector(rest)
  }

  /** The frequency and bandwidth loops: the first chunk whose `labs(strtol(...))` is nonzero. */
  function ReadMagnitude(s: seq<char>): (r: Read)
    ensures r.Accepted? ==> 0 < r.value < PROMPT_LIMIT
    ensures r.Accepted? ==> |r.rest| < |s|
    decreases |s|
  {
    match Fgets(s, PROMPT_BUF)
    case None => EndOfInput
    case Some((chunk, rest)) =>
      StrtolBound(chunk, 11);
      Pow10At11();
      if Labs(Strtol(chunk)) != 0 then Accepted(Labs(Strtol(chunk)), rest)
      else ReadMagnitude(rest)
  }

  /**
    The dB-offset loop. With `once` (formant #1) the first value read is
    taken, zero included; otherwise the loop repeats until the value is
    nonzero.
  */
  function ReadOffset(once: bool, s: seq<char>): (r: Read)
    ensures r.Accepted? ==> -(PROMPT_LIMIT as int) < r.value < PROMPT_LIMIT
    ensures r.Accepted? && !once ==> r.value != 0
    ensures r.Accepted? ==> |r.rest| < |s|
    decreases |s|
  {
    match Fgets(s, PROMPT_BUF)
    case None => EndOfInput
    case Some((chunk, rest)) =>
      StrtolBound(chunk, 11);
      Pow10At11();
      if once || Strtol(chunk) != 0 then Accepted(Strtol(chunk), rest)
      else ReadOffset(once, rest)
  }

  method PromptSelector(stdin: seq<char>) returns (r: Read)
    ensures r == ReadSelector(stdin)
  {
    var input := stdin;
    while true
      invariant ReadSelector(input) == ReadSelector(stdin)
      decreases |input|
    {
      var line := Fgets(input, PROMPT_BUF);
      if line.None? {
        return EndOfInput;
      }
      var fmtID := Selector(line.value.0);
      input := line.value.1;
      if fmtID <= NUM_FORMANTS {
        return Accepted(fmtID, input);
      }
    }
  }

  method PromptMagnitude(stdin: seq<char>) returns (r: Read)
    ensures r == ReadMagnitude(stdin)
  {
    var input := stdin;
    while true
      invariant ReadMagnitude(input) == ReadMagnitude(stdin)
      decreases |input|
    {
      var line := Fgets(input, PROMPT_BUF);
      if line.None? {
        return EndOfInput;
      }
      var v := Labs(Strtol(line.value.0));
      input := line.value.1;
      if v != 0 {
        return Accepted(v, input);
      }
    }
  }

  method PromptOffset(once: bool, stdin: seq<char>) returns (r: Read)
    ensures r == ReadOffset(once, stdin)
  {
    var input := stdin;
    while true
      invariant ReadOffset(once, input) == ReadOffset(once, stdin)
      decreases |input|
    {
      var line := Fgets(input, PROMPT_BUF);
      if line.None? {
        return EndOfInput;
      }
      var v := Strtol(line.value.0);
      input := line.value.1;
      if once || v != 0 {
        return Accepted(v, input);
      }
    }
  }

  // ---------------------------------------------------------------------------
  // The loops seen one typed line at a time
  // ---------------------------------------------------------------------------

  lemma {:induction false} SkipSpaceNewline(t: string)
    ensures SkipSpace(t + "\n") == if SkipSpace(t) == [] then [] else SkipSpace(t) + "\n"
    decreases |t|
  {
    if t == [] {
      assert SkipSpace("\n") == SkipSpace([]);
    } else if IsSpace(t[0]) {
      assert (t + "\n")[1..] == t[1..] + "\n";
      SkipSpaceNewline(t[1..]);
    } else {
      assert SkipSpace(t) == t;
    }
  }

  lemma {:induction false} MagnitudeNewline(t: string)
    ensures Magnitude(t + "\n") == Magnitude(t)
  {
    var n := DigitCount(t);
    var ds := t[..n];
    assert t == ds + t[n..];
    assert t + "\n" == ds + (t[n..] + "\n");
    DigitCountOf(ds, t[n..] + "\n");
    DigitCountOf(ds, t[n..]);
    assert (t + "\n")[..n] == ds;
  }

  lemma {:induction false} SignedValueNewline(t: string)
    requires t != []
    ensures SignedValue(t + "\n") == SignedValue(t)
  {
    assert (t + "\n")[0] == t[0];
    if t[0] == '-' || t[0] == '+' {
      assert (t + "\n")[1..] == t[1..] + "\n";
      MagnitudeNewline(t[1..]);
    } else {
      MagnitudeNewline(t);
    }
  }

  /** The newline fgets keeps does not change the value strtol reads. */
  lemma {:induction false} StrtolNewline(line: string)
    ensures Strtol(line + "\n") == Strtol(line)
  {
    SkipSpaceNewline(line);
    var t := SkipSpace(line);
    if t != [] {
      SignedValueNewline(t);
    }
  }

  /** The selector of a character: accepted exactly for '0'..'3', and then it is that digit. */
  lemma {:induction false} SelectorOf(c: char)
    requires c as int < 256
    ensures Uint8(c as int - '0' as int) <= NUM_FORMANTS <==> '0' <= c <= '3'
    ensures '0' <= c <= '3' ==> Uint8(c as int - '0' as int) == DigitOf(c)
  {
    var v := c as int - '0' as int;
    if v < 0 {
      assert v % 256 == v + 256;
    } else {
      assert v % 256 == v;
    }
  }

  /**
    A typed line (shorter than the buffer) answers the selector prompt when
    its first character is '0'..'3', with that digit; any other line,
    the empty one included, is asked again.
  */
  lemma {:induction false} SelectorLine(line: string, rest: seq<char>)
    requires '\n' !in line && |line| < PROMPT_BUF - 1
    requires line != [] ==> line[0] as int < 256
    ensures ReadSelector(line + "\n" + rest) ==
      if line != [] && '0' <= line[0] <= '3' then Accepted(DigitOf(line[0]), rest)
      else ReadSelector(rest)
  {
    FgetsLine(line, rest, PROMPT_BUF);
    var c := (line + "\n")[0];
    assert c == if line == [] then '\n' else line[0];
    SelectorOf(c);
  }

  /**
    A typed line answers the frequency or bandwidth prompt when the number
    on it is nonzero, with its absolute value; otherwise the prompt repeats.
  */
  lemma {:induction false} MagnitudeLine(line: string, rest: seq<char>)
    requires '\n' !in line && |line| < PROMPT_BUF - 1
    ensures ReadMagnitude(line + "\n" + rest) ==
      if Strtol(line) != 0 then Accepted(Labs(Strtol(line)), rest) else ReadMagnitude(rest)
  {
    FgetsLine(line, rest, PROMPT_BUF);
    StrtolNewline(line);
  }

  /**
    A typed line answers the dB-offset prompt of formant #1 whatever it
    holds; for the later formants only a nonzero number answers it.
  */
  lemma {:induction false} OffsetLine(once: bool, line: string, rest: seq<char>)
    requires '\n' !in line && |line| < PROMPT_BUF - 1
    ensures ReadOffset(once, line + "\n" + rest) ==
      if once || Strtol(line) != 0 then Accepted(Strtol(line), rest) else ReadOffset(once, rest)
  {
    FgetsLine(line, rest, PROMPT_BUF);
    StrtolNewline(line);
  }

  lemma {:induction false} StrtolZero()
    ensures Strtol("0") == 0
  {
    var d := Decimal(0);
    assert d == "0";
    StrtolDecimal(0, []);
    assert d + [] == d;
  }

  /** Entering a negative number at a frequency or bandwidth prompt stores its absolute value. */
  lemma {:induction false} NegativeMagnitudeStoresAbsolute(n: nat, rest: seq<char>)
    requires 0 < n && |Decimal(n)| < PROMPT_BUF - 2
    ensures ReadMagnitude("-" + Decimal(n) + "\n" + rest) == Accepted(n, rest)
  {
    var d := Decimal(n);
    var line := "-" + d;
    assert '\n' !in line by {
      forall k | 0 <= k < |line| ensures line[k] != '\n' {
        if k > 0 { assert line[k] == d[k - 1]; }
      }
    }
    assert n <= -LONG_MIN by {
      DecimalValue(n);
      DigitsValueBound(d);
      Pow10Monotone(|d|, 18);
      Pow10At18();
    }
    assert Strtol(line) == -(n as int) by {
      StrtolDecimal(n, []);
      assert line + [] == line;
    }
    MagnitudeLine(line, rest);
    assert line + "\n" + rest == "-" + Decimal(n) + "\n" + rest;
  }

  lemma {:induction false} MinusDecimal120()
    ensures "-" + Decimal(120) + "\n" == "-120\n"
  {
    assert Decimal(120) == "120" by {
      assert Decimal(12) == "12" by { assert Decimal(1) == "1"; }
    }
  }

  /** Entering "-120" at a frequency or bandwidth prompt stores 120. */
  lemma {:induction false} NegativeFrequencyStoresAbsolute(rest: seq<char>)
    ensures ReadMagnitude("-120\n" + rest) == Accepted(120, rest)
  {
    var typed := "-" + Decimal(120) + "\n";
    assert |Decimal(120)| == 3 by { MinusDecimal120(); }
    NegativeMagnitudeStoresAbsolute(120, rest);
    assert typed + rest == "-" + Decimal(120) + "\n" + rest;
    MinusDecimal120();
  }

  /** Entering "0" at a frequency or bandwidth prompt only repeats the prompt. */
  lemma {:induction false} ZeroMagnitudeAskedAgain(rest: seq<char>)
    ensures ReadMagnitude("0\n" + rest) == ReadMagnitude(rest)
  {
    var line := "0";
    assert Strtol(line) == 0 by { StrtolZero(); }
    MagnitudeLine(line, rest);
    assert line + "\n" + rest == "0\n" + rest;
  }

  /** A zero dB offset is taken at once for formant #1 and asked again for the others. */
  lemma {:induction false} ZeroOffsetAsymmetry(rest: seq<char>)
    ensures ReadOffset(true, "0\n" + rest) == Accepted(0, rest)
    ensures ReadOffset(false, "0\n" + rest) == ReadOffset(false, rest)
  {
    var line := "0";
    assert Strtol(line) == 0 by { StrtolZero(); }
    assert line + "\n" + rest == "0\n" + rest;
    OffsetLine(true, line, rest);
    OffsetLine(false, line, rest);
  }
}
