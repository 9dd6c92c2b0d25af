/** JavaScript's string splitting, joining and trimming, and decimal numerals. */
module Text {

  function Split(s: string, c: char): (parts: seq<string>)
    ensures |parts| >= 1
  {
    if s == [] then [[]]
    else
      var rest := Split(s[1..], c);
      if s[0] == c then [[]] + rest else [[s[0]] + rest[0]] + rest[1..]
  }

  function Join(parts: seq<string>, c: char): string {
    if parts == [] then [] else if |parts| == 1 then parts[0] else parts[0] + [c] + Join(parts[1..], c)
  }

  /** White space and line ends. */
  predicate IsBlank(c: char) {
    || '\t' <= c <= '\r' || c == ' ' || c == '\U{A0}' || c == '\U{1680}' || '\U{2000}' <= c <= '\U{200A}'
    || c == '\U{2028}' || c == '\U{2029}' || c == '\U{202F}' || c == '\U{205F}' || c == '\U{3000}' || c == '\U{FEFF}'
  }

  function TrimStart(s: string): string {
    if s != [] && IsBlank(s[0]) then TrimStart(s[1..]) else s
  }

  function TrimEnd(s: string): string {
    if s != [] && IsBlank(s[|s| - 1]) then TrimEnd(s[..|s| - 1]) else s
  }

  function Trim(s: string): string {
    TrimEnd(TrimStart(s))
  }

  predicate Trimmed(s: string) {
    s == [] || (!IsBlank(s[0]) && !IsBlank(s[|s| - 1]))
  }

  predicate IsDigit(c: char) {
    '0' <= c <= '9'
  }

  predicate AllDigits(s: string) {
    forall c :: c in s ==> IsDigit(c)
  }

  function Digit(c: char): nat
    requires IsDigit(c)
  {
    c as int - '0' as int
  }

  function Numeral(s: string): nat
    requires AllDigits(s)
  {
    if s == [] then 0 else
    assert s[|s| - 1] in s;
    10 * Numeral(s[..|s| - 1]) + Digit(s[|s| - 1])
  }

  function DigitChar(d: nat): (c: char)
    requires d < 10
    ensures IsDigit(c) && Digit(c) == d
  {
    ('0' as int + d) as char
  }

  function Decimal(n: nat): string {
    if n < 10 then [DigitChar(n)] else Decimal(n / 10) + [DigitChar(n % 10)]
  }

  /** A key that JavaScript takes for an array index. */
  predicate IsIndex(key: string) {
    key != [] && AllDigits(key) && (key[0] == '0' ==> |key| == 1) && Numeral(key) < 0xFFFF_FFFF
  }

  lemma {:induction false} SplitFirst(a: string, c: char, b: string)
    requires c !in a
    ensures Split(a + [c] + b, c) == [a] + Split(b, c)
  {
    var s := a + [c] + b;
    if a == [] {
      assert s[0] == c && s[1..] == b;
    } else {
      assert s[0] == a[0] && s[1..] == a[1..] + [c] + b;
      assert [a[0]] + a[1..] == a;
      SplitFirst(a[1..], c, b);
    }
  }

  lemma {:induction false} SplitNone(s: string, c: char)
    requires c !in s
    ensures Split(s, c) == [s]
  {
    if s != [] {
      SplitNone(s[1..], c);
      assert [s[0]] + s[1..] == s;
    }
  }

  lemma {:induction false} JoinSplit(s: string, c: char)
    ensures Join(Split(s, c), c) == s
    ensures forall part :: part in Split(s, c) ==> c !in part
  {
    if s != [] {
      JoinSplit(s[1..], c);
    }
  }

  lemma {:induction false} TrimStartIs(s: string)
    ensures TrimStart(s) == [] || !IsBlank(TrimStart(s)[0])
    ensures forall c :: c in TrimStart(s) ==> c in s
  {
    if s != [] && IsBlank(s[0]) {
      TrimStartIs(s[1..]);
    }
  }

  lemma {:induction false} TrimEndIs(s: string)
    ensures TrimEnd(s) <= s
    ensures TrimEnd(s) == [] || !IsBlank(TrimEnd(s)[|TrimEnd(s)| - 1])
  {
    if s != [] && IsBlank(s[|s| - 1]) {
      TrimEndIs(s[..|s| - 1]);
    }
  }

  lemma TrimIs(s: string)
    ensures Trimmed(Trim(s)) && forall c :: c in Trim(s) ==> c in s
    ensures Trimmed(s) ==> Trim(s) == s
  {
    TrimStartIs(s);
    TrimEndIs(TrimStart(s));
  }

  lemma {:induction false} DecimalReads(n: nat)
    ensures AllDigits(Decimal(n)) && Decimal(n) != [] && Numeral(Decimal(n)) == n
  {
    if n >= 10 {
      DecimalReads(n / 10);
      assert Decimal(n)[..|Decimal(n)| - 1] == Decimal(n / 10);
    } else {
      assert Decimal(n)[..0] == [];
    }
  }

  lemma {:induction false} DecimalStarts(n: nat)
    requires n > 0
    ensures Decimal(n) != [] && Decimal(n)[0] != '0'
  {
    if n < 10 {
      assert Digit('0') == 0;
    } else {
      DecimalStarts(n / 10);
    }
  }

  lemma {:induction false} NumeralPrints(s: string)
    requires AllDigits(s) && s != [] && (s[0] == '0' ==> |s| == 1)
    ensures Decimal(Numeral(s)) == s
    ensures s[0] != '0' ==> Numeral(s) > 0
  {
    var front, last := s[..|s| - 1], s[|s| - 1];
    assert last in s && s == front + [last];
    if front != [] {
      assert front[0] == s[0];
      NumeralPrints(front);
      assert Numeral(s) / 10 == Numeral(front) && Numeral(s) % 10 == Digit(last);
    }
  }

  predicate IsDecimal(key: string, n: nat) {
    key == Decimal(n)
  }

  /** Array indices are the numbers below 2^32 - 1, written in decimal. */
  lemma IndexExactlyWhen(key: string)
    ensures IsIndex(key) <==> exists n: nat :: n < 4_294_967_295 && IsDecimal(key, n)
  {
    if IsIndex(key) {
      NumeralPrints(key);
      assert IsDecimal(key, Numeral(key));
    }
    if n: nat :| n < 4_294_967_295 && IsDecimal(key, n) {
      DecimalReads(n);
      if n > 0 {
        DecimalStarts(n);
      }
    }
  }
}
