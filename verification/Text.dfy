/** ASCII text helpers with the meaning of the Go string functions the code uses. */
module Text {
  import opened Common

  function UpperChar(c: char): char {
    if 'a' <= c <= 'z' then (c as int - 'a' as int + 'A' as int) as char else c
  }

  function LowerChar(c: char): char {
    if 'A' <= c <= 'Z' then (c as int - 'A' as int + 'a' as int) as char else c
  }

  function ToUpper(s: string): (r: string)
    ensures |r| == |s|
    ensures forall i :: 0 <= i < |s| ==>
      if 'a' <= s[i] <= 'z' then r[i] as int == s[i] as int - 32 else r[i] == s[i]
  {
    seq(|s|, i requires 0 <= i < |s| => UpperChar(s[i]))
  }

  function ToLower(s: string): (r: string)
    ensures |r| == |s|
    ensures forall i :: 0 <= i < |s| ==>
      if 'A' <= s[i] <= 'Z' then r[i] as int == s[i] as int + 32 else r[i] == s[i]
  {
    seq(|s|, i requires 0 <= i < |s| => LowerChar(s[i]))
  }

  /** Space, tab, line feed, vertical tab, form feed and carriage return. */
  predicate IsSpace(c: char) {
    c == ' ' || '\t' <= c <= '\r'
  }

  function TrimLeft(s: string): (r: string)
    ensures |r| <= |s|
  {
    if s != "" && IsSpace(s[0]) then TrimLeft(s[1..]) else s
  }

  function TrimRight(s: string): (r: string)
    ensures |r| <= |s|
  {
    if s != "" && IsSpace(s[|s| - 1]) then TrimRight(s[..|s| - 1]) else s
  }

  function TrimSpace(s: string): string {
    TrimRight(TrimLeft(s))
  }

  /** Tab, line feed, vertical tab, form feed, carriage return or space. */
  predicate White(s: string) {
    forall i :: 0 <= i < |s| ==> s[i] as int == 32 || 9 <= s[i] as int <= 13
  }

  lemma {:induction false} TrimLeftCuts(s: string) returns (a: string)
    ensures s == a + TrimLeft(s) && White(a) && (TrimLeft(s) != "" ==> !White(TrimLeft(s)[..1]))
  {
    if s != "" && IsSpace(s[0]) {
      var b := TrimLeftCuts(s[1..]);
      a := [s[0]] + b;
      assert s == [s[0]] + s[1..];
    } else {
      a := "";
      assert s != "" ==> s[..1][0] == s[0];
    }
  }

  lemma {:induction false} TrimRightCuts(s: string) returns (b: string)
    ensures s == TrimRight(s) + b && White(b) && TrimRight(s) <= s
    ensures TrimRight(s) != "" ==> !White(TrimRight(s)[|TrimRight(s)| - 1..])
  {
    if s != "" && IsSpace(s[|s| - 1]) {
      var a := TrimRightCuts(s[..|s| - 1]);
      b := a + [s[|s| - 1]];
      assert s == s[..|s| - 1] + [s[|s| - 1]];
    } else {
      b := "";
      assert s != "" ==> s[|s| - 1..][0] == s[|s| - 1];
    }
  }

  /** Trimming cuts off white space at both ends, and all of it. */
  lemma {:induction false} TrimSpaceExactly(s: string) returns (a: string, b: string)
    ensures s == a + TrimSpace(s) + b && White(a) && White(b)
    ensures var r := TrimSpace(s); r != "" ==> !White(r[..1]) && !White(r[|r| - 1..])
  {
    a := TrimLeftCuts(s);
    b := TrimRightCuts(TrimLeft(s));
    var r := TrimSpace(s);
    if r != "" {
      assert r[..1] == TrimLeft(s)[..1];
    }
  }

  // ------------------------------------------------------------- numbers

  predicate IsDigit(c: char) {
    '0' <= c <= '9'
  }

  function Digits(n: nat): (r: string)
    ensures |r| > 0 && AllDigits(r)
  {
    if n < 10 then [('0' as int + n) as char] else Digits(n / 10) + [('0' as int + n % 10) as char]
  }

  /** strconv.Itoa. */
  function Itoa(n: int): (r: string)
    ensures |r| > 0
  {
    if n < 0 then "-" + Digits(-n) else Digits(n)
  }

  predicate AllDigits(s: string) {
    forall i :: 0 <= i < |s| ==> IsDigit(s[i])
  }

  function Value(s: string): nat
    requires AllDigits(s)
  {
    if s == "" then 0
    else
      assert IsDigit(s[|s| - 1]);
      Value(s[..|s| - 1]) * 10 + (s[|s| - 1] as int - '0' as int)
  }

  const MIN_INT := -0x8000_0000_0000_0000
  const MAX_INT := 0x7fff_ffff_ffff_ffff

  /** The machine integers of the code. */
  type Int64 = n: int | MIN_INT <= n <= MAX_INT

  /** strconv.Atoi on a 64-bit machine; None is the error. */
  function Atoi(s: string): Option<Int64> {
    var neg := s != "" && s[0] == '-';
    var digits := if s != "" && (s[0] == '-' || s[0] == '+') then s[1..] else s;
    if digits == "" || !AllDigits(digits) then None
    else
      var v: int := Value(digits);
      var n := if neg then -v else v;
      if MIN_INT <= n <= MAX_INT then Some(n) else None
  }

  lemma {:induction false} ValueOfDigits(n: nat)
    ensures Value(Digits(n)) == n
  {
    if n >= 10 {
      ValueOfDigits(n / 10);
      assert Digits(n)[..|Digits(n)| - 1] == Digits(n / 10);
    } else {
      assert Digits(n)[..0] == "";
    }
  }

  lemma AtoiOfDigits(k: nat, negative: bool)
    requires MIN_INT <= (if negative then 0 - k else k) <= MAX_INT
    ensures Atoi(if negative then "-" + Digits(k) else Digits(k)) == Some(if negative then 0 - k else k)
  {
    ValueOfDigits(k);
    if negative {
      assert ("-" + Digits(k))[1..] == Digits(k);
    } else {
      assert IsDigit(Digits(k)[0]);
    }
  }

  /** A number printed and read back is itself. */
  lemma AtoiOfItoa(n: Int64)
    ensures Atoi(Itoa(n)) == Some(n)
  {
    if n < 0 {
      AtoiOfDigits(0 - (n as int), true);
    } else {
      AtoiOfDigits(n, false);
    }
  }
}
