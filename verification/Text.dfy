/** The few string operations the program leans on, over ASCII letters and blanks. */
module Text {

  function Lower(c: char): char {
    if 'A' <= c <= 'Z' then (c as int + 32) as char else c
  }

  function ToLower(s: string): string {
    seq(|s|, i requires 0 <= i < |s| => Lower(s[i]))
  }

  predicate HasPrefix(s: string, p: string) {
    p <= s
  }

  predicate Contains(s: string, p: string) {
    exists i :: 0 <= i <= |s| - |p| && p <= s[i..]
  }

  /** Capital letters are lowered, by code point, and nothing else is. */
  lemma LowerMeaning(c: char)
    ensures Lower(c) as int == if 65 <= c as int <= 90 then c as int + 32 else c as int
  {
  }

  lemma ContainsMeaning(s: string, p: string)
    ensures Contains(s, p) <==> exists before: string, after: string :: s == before + p + after
  {
    if Contains(s, p) {
      var i :| 0 <= i <= |s| - |p| && p <= s[i..];
      assert s == s[..i] + p + s[i + |p|..];
    }
    if before: string, after: string :| s == before + p + after {
      assert p <= s[|before|..];
    }
  }

  predicate IsBlank(c: char) {
    c == ' ' || c == '\t'
  }

  /** Characters removed by trimming: blanks, line ends, vertical tab and form feed. */
  predicate IsSpace(c: char) {
    IsBlank(c) || c == '\n' || c == '\r' || c == '\U{000B}' || c == '\U{000C}'
  }

  function TrimLeft(s: string): string {
    if s != "" && IsSpace(s[0]) then TrimLeft(s[1..]) else s
  }

  function TrimRight(s: string): string {
    if s != "" && IsSpace(s[|s| - 1]) then TrimRight(s[..|s| - 1]) else s
  }

  function TrimSpace(s: string): string {
    TrimRight(TrimLeft(s))
  }

  /** A string that trimming leaves alone. */
  predicate Trimmed(s: string) {
    s == "" || (!IsSpace(s[0]) && !IsSpace(s[|s| - 1]))
  }

  lemma TrimKeepsTrimmed(s: string)
    requires Trimmed(s)
    ensures TrimSpace(s) == s
  {
  }

  /** A number in decimal digits. */
  function Decimal(n: nat): string {
    (if n < 10 then "" else Decimal(n / 10)) + ['0' + (n % 10) as char]
  }

  lemma {:induction false} DecimalInjective(m: nat, n: nat)
    requires Decimal(m) == Decimal(n)
    ensures m == n
  {
    var a, b := Decimal(m), Decimal(n);
    assert a[|a| - 1] == b[|b| - 1];
    assert m % 10 == n % 10;
    assert a[..|a| - 1] == (if m < 10 then "" else Decimal(m / 10));
    assert b[..|b| - 1] == (if n < 10 then "" else Decimal(n / 10));
    if m >= 10 && n >= 10 {
      DecimalInjective(m / 10, n / 10);
    }
  }

  function Join(parts: seq<string>): string {
    if parts == [] then "" else Join(parts[..|parts| - 1]) + parts[|parts| - 1]
  }

  lemma {:induction false} JoinConcat(a: seq<string>, b: seq<string>)
    ensures Join(a + b) == Join(a) + Join(b)
  {
    if b == [] {
      assert a + b == a;
    } else {
      JoinConcat(a, b[..|b| - 1]);
      assert (a + b)[..|a + b| - 1] == a + b[..|b| - 1];
    }
  }
}
