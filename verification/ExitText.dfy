/** A VM's exit code as text: the shim's one message, and its exit file. */
module ExitText {
  import opened Collections
  import opened Text
  import opened Decimals

  const MAX_INT := 0x7FFF_FFFF_FFFF_FFFF

  predicate IsInt(n: int) {
    -MAX_INT - 1 <= n <= MAX_INT
  }

  /** `strconv.Itoa`. */
  function Itoa(n: int): string {
    if n < 0 then "-" + Decimal(-n) else Decimal(n)
  }

  function Unsigned(s: string, sign: int): Option<int> {
    if s != "" && AllDigits(s) && IsInt(sign * Value(s)) then Some(sign * Value(s)) else None
  }

  /** `strconv.Atoi`. */
  function Atoi(s: string): Option<int> {
    if s != "" && s[0] == '-' then Unsigned(s[1..], -1)
    else if s != "" && s[0] == '+' then Unsigned(s[1..], 1)
    else Unsigned(s, 1)
  }

  lemma AtoiReadsBack(n: int)
    requires IsInt(n)
    ensures Atoi(Itoa(n)) == Some(n)
  {
    if n < 0 {
      DecimalValue(-n);
      assert Itoa(n)[1..] == Decimal(-n);
    } else {
      DecimalValue(n);
      assert IsDigit(Decimal(n)[0]);
    }
  }

  const EXITED := "exited"

  function ExitedLine(code: int): string {
    EXITED + " " + Itoa(code) + "\n"
  }

  function CutPrefix(s: string, prefix: string): Option<string> {
    if prefix <= s then Some(s[|prefix|..]) else None
  }

  function ParseExitedLine(line: string): Option<int> {
    match CutPrefix(TrimSpace(line), EXITED)
    case None => None
    case Some(rest) => Atoi(TrimSpace(rest))
  }

  /** What the exit file holds, and how it is read. */
  function ExitContents(code: int): string {
    Itoa(code)
  }

  function ReadExit(contents: string): Option<int> {
    Atoi(TrimSpace(contents))
  }

  /** What a shim sends and what it leaves in its file. */
  lemma ExitLooksLike()
    ensures ExitedLine(137) == "exited 137\n" && ExitedLine(0) == "exited 0\n" && ExitedLine(-1) == "exited -1\n"
    ensures ExitContents(137) == "137" && ExitContents(-1) == "-1"
  {
    PrintsDecimals();
    assert Decimal(1) == "1";
  }

  // ---- Reading back ----

  /** Neither end is white space. */
  predicate Trimmed(s: string) {
    s == "" || (!IsSpace(s[0]) && !IsSpace(s[|s| - 1]))
  }

  lemma TrimsToItself(s: string)
    requires Trimmed(s)
    ensures TrimSpace(s) == s
  {
  }

  lemma TrimsOneAfter(s: string, c: char)
    requires Trimmed(s) && s != "" && IsSpace(c)
    ensures TrimSpace(s + [c]) == s
  {
    var t := s + [c];
    assert t[..|t| - 1] == s;
    assert TrimLeft(t) == t;
    assert TrimRight(t) == TrimRight(s) == s;
  }

  lemma TrimsOneBefore(s: string, c: char)
    requires Trimmed(s) && IsSpace(c)
    ensures TrimSpace([c] + s) == s
  {
    assert ([c] + s)[1..] == s;
    assert TrimLeft([c] + s) == TrimLeft(s) == s;
  }

  lemma ItoaIsTrimmed(n: int)
    ensures Itoa(n) != "" && Trimmed(Itoa(n)) && forall i :: 0 <= i < |Itoa(n)| ==> Itoa(n)[i] != '\n'
  {
  }

  /** The message and the file both give the code back. */
  lemma ExitReadsBack(code: int)
    requires IsInt(code)
    ensures ParseExitedLine(ExitedLine(code)) == Some(code)
    ensures ReadExit(ExitContents(code)) == Some(code)
  {
    var digits := Itoa(code);
    ItoaIsTrimmed(code);
    AtoiReadsBack(code);
    TrimsToItself(digits);
    var text := EXITED + " " + digits;
    assert text[|text| - 1] == digits[|digits| - 1];
    TrimsOneAfter(text, '\n');
    assert text[|EXITED|..] == [' '] + digits;
    TrimsOneBefore(digits, ' ');
  }

  predicate HasLine(received: string) {
    '\n' in received
  }

  /** The message is complete exactly when its line end is there. */
  lemma LineIsWhole(code: int, received: string)
    requires received <= ExitedLine(code)
    ensures HasLine(received) <==> received == ExitedLine(code)
  {
    ItoaIsTrimmed(code);
    var line := ExitedLine(code);
    assert line[|line| - 1] == '\n';
    if |received| < |line| {
      forall i | 0 <= i < |received| ensures received[i] != '\n' {
        assert received[i] == line[i];
        if i >= 7 {
          assert line[i] == Itoa(code)[i - 7];
        }
      }
    }
  }
}
