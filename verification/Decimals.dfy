/** Unsigned integers in decimal, and texts split at white space. */
module Decimals {
  import opened Collections
  import Text

  predicate IsDigit(c: char) {
    '0' <= c <= '9'
  }

  predicate AllDigits(s: string) {
    forall i :: 0 <= i < |s| ==> IsDigit(s[i])
  }

  function Value(s: string): nat
    requires AllDigits(s)
  {
    if s == "" then 0 else 10 * Value(s[..|s| - 1]) + (s[|s| - 1] - '0') as nat
  }

  /** `strconv.ParseUint` in base 10, for the integers below `limit`. */
  function ParseUint(s: string, limit: nat): Option<nat> {
    if s != "" && AllDigits(s) && Value(s) < limit then Some(Value(s)) else None
  }

  function Decimal(n: nat): (s: string)
    ensures s != "" && AllDigits(s)
  {
    if n < 10 then ['0' + n as char] else Decimal(n / 10) + ['0' + (n % 10) as char]
  }

  lemma {:induction false} DecimalValue(n: nat)
    ensures Value(Decimal(n)) == n
  {
    if n >= 10 {
      DecimalValue(n / 10);
      var s := Decimal(n);
      assert s[..|s| - 1] == Decimal(n / 10);
    } else {
      assert Decimal(n)[..0] == "";
    }
  }

  /** What was printed is read back exactly when it is below the limit. */
  lemma ParsesBack(n: nat, limit: nat)
    ensures ParseUint(Decimal(n), limit) == if n < limit then Some(n) else None
  {
    DecimalValue(n);
  }

  /** In base ten, the most significant digit first, without leading zeros. */
  lemma PrintsDecimals()
    ensures Decimal(0) == "0" && Decimal(9) == "9" && Decimal(10) == "10" && Decimal(137) == "137"
    ensures Decimal(16777215) == "16777215"
  {
    assert Decimal(13) == "13";
    assert Decimal(167) == "167";
    assert Decimal(16777) == "16777";
    assert Decimal(1677721) == "1677721";
  }

  // ---- Fields ----

  predicate IsWord(s: string) {
    s != "" && forall i :: 0 <= i < |s| ==> !Text.IsSpace(s[i])
  }

  /** How many characters come before the first white space. */
  function WordLength(s: string): (n: nat)
    ensures n <= |s|
    ensures s != "" && !Text.IsSpace(s[0]) ==> n > 0
  {
    if s == "" || Text.IsSpace(s[0]) then 0 else 1 + WordLength(s[1..])
  }

  /** `strings.Fields`. */
  function Fields(s: string): seq<string>
    decreases |s|
  {
    if s == "" then []
    else if Text.IsSpace(s[0]) then Fields(s[1..])
    else [s[..WordLength(s)]] + Fields(s[WordLength(s)..])
  }

  lemma {:induction false} WordEnds(word: string, rest: string)
    requires forall i :: 0 <= i < |word| ==> !Text.IsSpace(word[i])
    requires rest == "" || Text.IsSpace(rest[0])
    ensures WordLength(word + rest) == |word|
    decreases |word|
  {
    if word == "" {
      assert word + rest == rest;
    } else {
      WordEnds(word[1..], rest);
      assert (word + rest)[1..] == word[1..] + rest;
    }
  }

  lemma TwoWords(a: string, b: string)
    requires IsWord(a) && IsWord(b)
    ensures Fields(a + " " + b) == [a, b]
  {
    OneWord(b);
    var s, rest := a + " " + b, " " + b;
    WordEnds(a, rest);
    assert s == a + rest && s[0] == a[0];
    assert s[..|a|] == a && s[|a|..] == rest;
    assert rest[1..] == b;
    assert Fields(rest) == Fields(b);
  }

  lemma OneWord(b: string)
    requires IsWord(b)
    ensures Fields(b) == [b]
  {
    WordEnds(b, "");
    assert b + "" == b;
    assert b[..|b|] == b && b[|b|..] == "";
  }
}
