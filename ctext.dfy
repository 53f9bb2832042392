/**
  The C library and utility behaviour the voice commands rely on, stated on
  Dafny strings: `strtok` with the delimiter " ", `strtol` in base 10, `labs`,
  the conversion to `uint8_t`, `isalpha`, `isspace`, `fgets` on a character
  stream, and the `strchomp` utility that strips trailing whitespace.
  A C string is modelled as the sequence of its characters without the
  terminating NUL.
*/
module CText {

  datatype Option<T> = None | Some(value: T)

  /** Range of `long` on an LP64 platform; `strtol` clamps to it. */
  const LONG_MAX: int := 0x7FFF_FFFF_FFFF_FFFF
  const LONG_MIN: int := -0x8000_0000_0000_0000

  /** `isspace` in the C locale. */
  predicate IsSpace(c: char) {
    c == ' ' || c == '\t' || c == '\n' || c == '\U{B}' || c == '\U{C}' || c == '\r'
  }

  /** `isalpha` in the C locale. */
  predicate IsAlpha(c: char) {
    ('a' <= c <= 'z') || ('A' <= c <= 'Z')
  }

  predicate IsDigit(c: char) {
    '0' <= c <= '9'
  }

  predicate AllDigits(s: string) {
    forall k :: 0 <= k < |s| ==> IsDigit(s[k])
  }

  function DigitOf(c: char): nat
    requires IsDigit(c)
  {
    c as int - '0' as int
  }

  function DigitChar(d: nat): (c: char)
    requires d < 10
    ensures IsDigit(c) && DigitOf(c) == d
  {
    ('0' as int + d) as char
  }

  function Pow10(n: nat): (p: nat)
    ensures p >= 1
  {
    if n == 0 then 1 else 10 * Pow10(n - 1)
  }

  /** Conversion of an integer to `uint8_t`: reduction modulo 256. */
  function Uint8(v: int): (b: int)
    ensures 0 <= b < 256
    ensures (v - b) % 256 == 0
  {
    v % 256
  }

  /** `labs`; the callers only ever pass values far from LONG_MIN (see StrtolBound). */
  function Labs(v: int): (a: int)
    ensures a >= 0 && (a == v || a == -v)
  {
    if v < 0 then -v else v
  }

  // ---------------------------------------------------------------------------
  // strtok(line, " ") followed by strtok(NULL, " ")
  // ---------------------------------------------------------------------------

  /** What strtok skips before a token: the leading run of delimiter characters. */
  function SkipDelims(s: string): (r: string)
    ensures |r| <= |s|
    ensures r == [] || r[0] != ' '
  {
    if |s| > 0 && s[0] == ' ' then SkipDelims(s[1..]) else s
  }

  /** Length of the token at the start of `s`: the characters before the next delimiter. */
  function TokenLength(s: string): (n: nat)
    ensures n <= |s|
    ensures forall k :: 0 <= k < n ==> s[k] != ' '
    ensures n == |s| || s[n] == ' '
  {
    if |s| == 0 || s[0] == ' ' then 0 else 1 + TokenLength(s[1..])
  }

  /**
    One call of strtok with the delimiter " ": the next token and the text
    after the delimiter that ended it, or None when only delimiters remain.
  */
  function NextToken(s: string): (r: Option<(string, string)>)
    ensures r.Some? ==> |r.value.0| > 0 && ' ' !in r.value.0
  {
    var t := SkipDelims(s);
    if t == [] then None
    else
      var n := TokenLength(t);
      Some((t[..n], if n < |t| then t[n + 1..] else []))
  }

  /** The token the second strtok call returns: the argument after the command word. */
  function SecondToken(line: string): (r: Option<string>)
    ensures r.Some? ==> |r.value| > 0 && ' ' !in r.value
    ensures r.Some? ==> NextToken(line).Some?
  {
    match NextToken(line)
    case None => None
    case Some((_, rest)) =>
      match NextToken(rest)
      case None => None
      case Some((tok, _)) => Some(tok)
  }

  lemma {:induction false} TokenLengthOf(tok: string, tail: string)
    requires ' ' !in tok
    requires tail == [] || tail[0] == ' '
    ensures TokenLength(tok + tail) == |tok|
    decreases |tok|
  {
    if tok != [] {
      assert (tok + tail)[1..] == tok[1..] + tail;
      TokenLengthOf(tok[1..], tail);
    }
  }

  lemma {:induction false} NextTokenOf(tok: string, tail: string)
    requires |tok| > 0 && ' ' !in tok
    requires tail == [] || tail[0] == ' '
    ensures NextToken(tok + tail) == Some((tok, if tail == [] then [] else tail[1..]))
  {
    TokenLengthOf(tok, tail);
    var s := tok + tail;
    assert SkipDelims(s) == s;
    assert s[..|tok|] == tok;
    if tail != [] {
      assert s[|tok| + 1..] == tail[1..];
    }
  }

  /**
    For a line "cmd arg..." whose words are separated by single spaces, the
    argument strtok hands to the handler is exactly the second word, and
    whatever follows the next space is ignored.
  */
  lemma {:induction false} SecondTokenOf(cmd: string, arg: string, tail: string)
    requires |cmd| > 0 && ' ' !in cmd
    requires |arg| > 0 && ' ' !in arg
    requires tail == [] || tail[0] == ' '
    ensures SecondToken(cmd + " " + arg + tail) == Some(arg)
  {
    var after := " " + arg + tail;
    assert cmd + " " + arg + tail == cmd + after;
    NextTokenOf(cmd, after);
    assert after[1..] == arg + tail;
    NextTokenOf(arg, tail);
    SecondTokenFrom(cmd + after, cmd, arg + tail, arg, if tail == [] then [] else tail[1..]);
  }

  lemma {:induction false} SecondTokenFrom(line: string, first: string, rest: string, second: string, rest2: string)
    requires NextToken(line) == Some((first, rest))
    requires NextToken(rest) == Some((second, rest2))
    ensures SecondToken(line) == Some(second)
  {
  }

  lemma {:induction false} OnlyDelims(spaces: string)
    requires forall k :: 0 <= k < |spaces| ==> spaces[k] == ' '
    ensures NextToken(spaces) == None
    decreases |spaces|
  {
    if spaces != [] {
      OnlyDelims(spaces[1..]);
    }
  }

  /** A line holding only the command word (and perhaps trailing spaces) has no argument. */
  lemma {:induction false} BareCommandHasNoArgument(cmd: string, spaces: string)
    requires |cmd| > 0 && ' ' !in cmd
    requires forall k :: 0 <= k < |spaces| ==> spaces[k] == ' '
    ensures SecondToken(cmd + spaces) == None
  {
    if spaces == [] {
      NextTokenOf(cmd, []);
      assert cmd + spaces == cmd;
    } else {
      NextTokenOf(cmd, spaces);
      OnlyDelims(spaces[1..]);
    }
  }

  // ---------------------------------------------------------------------------
  // strchomp
  // ---------------------------------------------------------------------------

  /** `strchomp`: the string with its trailing whitespace removed. */
  function Chomp(s: string): (r: string)
    ensures r <= s
    ensures r == [] || !IsSpace(r[|r| - 1])
    ensures forall k :: |r| <= k < |s| ==> IsSpace(s[k])
  {
    if |s| > 0 && IsSpace(s[|s| - 1]) then Chomp(s[..|s| - 1]) else s
  }

  /** The newline a typed line ends with is what strchomp drops from its last token. */
  lemma {:induction false} ChompNewline(tok: string)
    requires tok == [] || !IsSpace(tok[|tok| - 1])
    ensures Chomp(tok + "\n") == tok
  {
    var s := tok + "\n";
    assert s[..|s| - 1] == tok;
  }

  // ---------------------------------------------------------------------------
  // strtol(s, NULL, 10)
  // ---------------------------------------------------------------------------

  /** The leading whitespace strtol skips. */
  function SkipSpace(s: string): (r: string)
    ensures |r| <= |s|
    ensures r == [] || !IsSpace(r[0])
  {
    if |s| > 0 && IsSpace(s[0]) then SkipSpace(s[1..]) else s
  }

  /** Length of the run of decimal digits at the start of `s`. */
  function DigitCount(s: string): (n: nat)
    ensures n <= |s|
    ensures AllDigits(s[..n])
    ensures n < |s| ==> !IsDigit(s[n])
  {
    if |s| > 0 && IsDigit(s[0]) then
      assert s[..1 + DigitCount(s[1..])] == [s[0]] + s[1..][..DigitCount(s[1..])];
      1 + DigitCount(s[1..])
    else 0
  }

  /** Value of a digit string, accumulated most significant digit first as strtol does. */
  function DigitsValue(ds: string): nat
    requires AllDigits(ds)
  {
    if ds == [] then 0
    else
      assert AllDigits(ds[..|ds| - 1]);
      10 * DigitsValue(ds[..|ds| - 1]) + DigitOf(ds[|ds| - 1])
  }

  /** Value of the digit run that starts `s`; 0 when there is none. */
  function Magnitude(s: string): nat
  {
    DigitsValue(s[..DigitCount(s)])
  }

  function Clamp(v: int): (r: int)
    ensures LONG_MIN <= r <= LONG_MAX
    ensures LONG_MIN <= v <= LONG_MAX ==> r == v
  {
    if v > LONG_MAX then LONG_MAX else if v < LONG_MIN then LONG_MIN else v
  }

  /**
    `strtol(s, NULL, 10)`: leading whitespace, an optional sign and the digits
    that follow; 0 when no digit follows; clamped to the range of `long`.
  */
  function Strtol(s: string): (r: int)
    ensures LONG_MIN <= r <= LONG_MAX
  {
    SignedValue(SkipSpace(s))
  }

  /** What strtol makes of the text after the leading whitespace: a sign and a digit run. */
  function SignedValue(t: string): (r: int)
    ensures LONG_MIN <= r <= LONG_MAX
  {
    if |t| > 0 && t[0] == '-' then Clamp(-(Magnitude(t[1..]) as int))
    else if |t| > 0 && t[0] == '+' then Clamp(Magnitude(t[1..]))
    else Clamp(Magnitude(t))
  }

  /** Decimal notation of a natural number, without sign or leading zeros. */
  function Decimal(n: nat): (s: string)
    ensures |s| > 0 && AllDigits(s)
    ensures !IsSpace(s[0]) && s[0] != '-' && s[0] != '+'
  {
    if n < 10 then [DigitChar(n)] else Decimal(n / 10) + [DigitChar(n % 10)]
  }

  lemma {:induction false} DecimalValue(n: nat)
    ensures DigitsValue(Decimal(n)) == n
    decreases n
  {
    var s := Decimal(n);
    if n >= 10 {
      assert s[..|s| - 1] == Decimal(n / 10);
      DecimalValue(n / 10);
    }
  }

  lemma {:induction false} DigitCountOf(ds: string, tail: string)
    requires AllDigits(ds)
    requires tail == [] || !IsDigit(tail[0])
    ensures DigitCount(ds + tail) == |ds|
    decreases |ds|
  {
    if ds != [] {
      assert (ds + tail)[1..] == ds[1..] + tail;
      DigitCountOf(ds[1..], tail);
    }
  }

  lemma {:induction false} MagnitudeOf(n: nat, tail: string)
    requires tail == [] || !IsDigit(tail[0])
    ensures Magnitude(Decimal(n) + tail) == n
  {
    DigitCountOf(Decimal(n), tail);
    assert (Decimal(n) + tail)[..|Decimal(n)|] == Decimal(n);
    DecimalValue(n);
  }

  /**
    strtol reads back the decimal notation of every value of `long`, positive
    or negative, whatever non-digit text follows it.
  */
  lemma {:induction false} StrtolDecimal(n: nat, tail: string)
    requires tail == [] || !IsDigit(tail[0])
    ensures n <= LONG_MAX ==> Strtol(Decimal(n) + tail) == n
    ensures n <= -LONG_MIN ==> Strtol("-" + Decimal(n) + tail) == -(n as int)
  {
    var s := Decimal(n) + tail;
    MagnitudeOf(n, tail);
    assert s[0] == Decimal(n)[0];
    assert SkipSpace(s) == s;
    assert SignedValue(s) == Clamp(n);
    var m := "-" + Decimal(n) + tail;
    assert m[1..] == s;
    assert SkipSpace(m) == m;
    assert SignedValue(m) == Clamp(-(n as int));
  }

  lemma {:induction false} DigitsValueBound(ds: string)
    requires AllDigits(ds)
    ensures DigitsValue(ds) < Pow10(|ds|)
    decreases |ds|
  {
    if ds != [] {
      assert AllDigits(ds[..|ds| - 1]);
      DigitsValueBound(ds[..|ds| - 1]);
    }
  }

  /**
    Whatever the text, strtol of at most `n` characters has magnitude below
    10^n; in particular its absolute value is representable and `labs` of it
    is exact.
  */
  lemma {:induction false} StrtolBound(s: string, n: nat)
    requires |s| <= n && n <= 18
    ensures -(Pow10(n) as int) < Strtol(s) < Pow10(n)
    ensures Strtol(s) != LONG_MIN
  {
    var t := SkipSpace(s);
    if |t| > 0 && (t[0] == '-' || t[0] == '+') {
      MagnitudeBound(t[1..], n);
    } else {
      MagnitudeBound(t, n);
    }
    Pow10Monotone(n, 18);
    Pow10At18();
  }

  lemma {:induction false} MagnitudeBound(u: string, n: nat)
    requires |u| <= n
    ensures Magnitude(u) < Pow10(n)
  {
    var ds := u[..DigitCount(u)];
    DigitsValueBound(ds);
    Pow10Monotone(|ds|, n);
  }

  lemma {:induction false} Pow10Monotone(a: nat, b: nat)
    requires a <= b
    ensures Pow10(a) <= Pow10(b)
    decreases b
  {
    if a < b { Pow10Monotone(a, b - 1); }
  }

  lemma {:induction false} Pow10At18()
    ensures Pow10(18) == 1_000_000_000_000_000_000
  {
    assert Pow10(1) == 10;
    assert Pow10(3) == 1000;
    assert Pow10(6) == 1000_000;
    assert Pow10(9) == 1000_000_000;
    assert Pow10(12) == 1000_000_000_000;
    assert Pow10(15) == 1000_000_000_000_000;
  }

  lemma {:induction false} Pow10At11()
    ensures Pow10(11) == 100_000_000_000
  {
    assert Pow10(1) == 10;
    assert Pow10(3) == 1000;
    assert Pow10(6) == 1000_000;
    assert Pow10(9) == 1000_000_000;
  }

  // ---------------------------------------------------------------------------
  // fgets(buf, size, stdin) on a character stream
  // ---------------------------------------------------------------------------

  /** Length fgets reads from a non-empty stream: through the first newline, at most `limit` characters. */
  function ChunkLength(s: seq<char>, limit: nat): (n: nat)
    requires |s| >= 1 && limit >= 1
    ensures 1 <= n <= limit && n <= |s|
    ensures forall k :: 0 <= k < n - 1 ==> s[k] != '\n'
    ensures n == |s| || n == limit || s[n - 1] == '\n'
  {
    if |s| == 1 || limit == 1 || s[0] == '\n' then 1 else 1 + ChunkLength(s[1..], limit - 1)
  }

  /**
    `fgets(buf, size, stdin)`: the characters read and the unread stream, or
    None at end of input.
  */
  function Fgets(s: seq<char>, size: nat): (r: Option<(string, seq<char>)>)
    requires size >= 2
    ensures r.None? <==> s == []
    ensures r.Some? ==> 1 <= |r.value.0| < size && r.value.0 + r.value.1 == s
  {
    if s == [] then None
    else
      var n := ChunkLength(s, size - 1);
      assert s[..n] + s[n..] == s;
      Some((s[..n], s[n..]))
  }

  lemma {:induction false} ChunkLengthLine(line: string, rest: seq<char>, limit: nat)
    requires '\n' !in line && |line| < limit
    ensures ChunkLength(line + "\n" + rest, limit) == |line| + 1
    decreases |line|
  {
    if line != [] {
      assert (line + "\n" + rest)[1..] == line[1..] + "\n" + rest;
      ChunkLengthLine(line[1..], rest, limit - 1);
    }
  }

  /** A line that fits the buffer together with its newline is read by one fgets, newline included. */
  lemma {:induction false} FgetsLine(line: string, rest: seq<char>, size: nat)
    requires size >= 2 && '\n' !in line && |line| + 1 < size
    ensures Fgets(line + "\n" + rest, size) == Some((line + "\n", rest))
  {
    ChunkLengthLine(line, rest, size - 1);
    var s := line + "\n" + rest;
    assert s[..|line| + 1] == line + "\n";
    assert s[|line| + 1..] == rest;
  }
}
