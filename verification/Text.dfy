/** The string operations the sources rely on: decimal formatting, joining,
    substring search, lower-casing and stripping. */
module Text {

  predicate IsDigit(c: char) {
    '0' <= c <= '9'
  }

  predicate AllDigits(s: string) {
    forall i | 0 <= i < |s| :: IsDigit(s[i])
  }

  predicate Free(s: string, c: char) {
    forall i | 0 <= i < |s| :: s[i] != c
  }

  // ------------------------------------------------------------ numbers

  function DigitChar(d: nat): char
    requires d < 10
  {
    "0123456789"[d]
  }

  /** `%d` of a natural number. */
  function Decimal(n: nat): (s: string)
    ensures |s| > 0 && AllDigits(s)
  {
    if n < 10 then [DigitChar(n)] else Decimal(n / 10) + [DigitChar(n % 10)]
  }

  /** `%d` of an integer. */
  function SignedDecimal(n: int): string {
    if n < 0 then "-" + Decimal(-n) else Decimal(n)
  }

  const TWO_TO_64: nat := 0x1_0000_0000_0000_0000
  const TWO_TO_63: nat := 0x8000_0000_0000_0000

  /** Adding one to an unsigned 64-bit counter. */
  function Increment(n: nat): nat {
    if n + 1 == TWO_TO_64 then 0 else n + 1
  }

  /** Converting an unsigned 64-bit number to a signed one. */
  function ToInt64(n: nat): int {
    if n < TWO_TO_63 then n else n - TWO_TO_64
  }

  function Zeros(k: nat): (s: string)
    ensures |s| == k && AllDigits(s)
  {
    if k == 0 then "" else Zeros(k - 1) + "0"
  }

  /** `%06d` of a natural number. */
  function SixDigits(n: nat): (s: string)
    ensures |s| >= 6 && AllDigits(s)
  {
    var d := Decimal(n);
    if |d| < 6 then Zeros(6 - |d|) + d else d
  }

  function DigitsValue(s: string): nat
    requires AllDigits(s)
  {
    if s == "" then 0
    else
      var last := |s| - 1;
      10 * DigitsValue(s[..last]) + (s[last] as int - '0' as int)
  }

  lemma {:induction false} DecimalRoundTrip(n: nat)
    ensures DigitsValue(Decimal(n)) == n
  {
    if n < 10 {
      assert Decimal(n)[..0] == "";
    } else {
      DecimalRoundTrip(n / 10);
      assert Decimal(n)[..|Decimal(n)| - 1] == Decimal(n / 10);
    }
  }

  lemma {:induction false} ZerosAddNothing(k: nat, s: string)
    requires AllDigits(s)
    ensures AllDigits(Zeros(k) + s) && DigitsValue(Zeros(k) + s) == DigitsValue(s)
    decreases k + |s|
  {
    if s == "" {
      assert Zeros(k) + s == Zeros(k);
      if k > 0 {
        assert Zeros(k)[..k - 1] == Zeros(k - 1);
        ZerosAddNothing(k - 1, "");
        assert Zeros(k - 1) + "" == Zeros(k - 1);
      }
    } else {
      var last := |s| - 1;
      assert (Zeros(k) + s)[..k + last] == Zeros(k) + s[..last];
      ZerosAddNothing(k, s[..last]);
    }
  }

  /** The zero-padded format loses nothing, however wide the number is. */
  lemma SixDigitsRoundTrip(n: nat)
    ensures DigitsValue(SixDigits(n)) == n
  {
    DecimalRoundTrip(n);
    var d := Decimal(n);
    if |d| < 6 {
      ZerosAddNothing(6 - |d|, d);
    }
  }

  lemma DecimalInjective(m: nat, n: nat)
    requires Decimal(m) == Decimal(n)
    ensures m == n
  {
    DecimalRoundTrip(m);
    DecimalRoundTrip(n);
  }

  lemma SignIsVisible(n: int)
    ensures SignedDecimal(n) != "" && (SignedDecimal(n)[0] == '-' <==> n < 0)
    ensures n < 0 ==> SignedDecimal(n)[1..] == Decimal(-n)
  {
    if n >= 0 {
      assert IsDigit(Decimal(n)[0]);
    }
  }

  lemma SignedDecimalInjective(m: int, n: int)
    requires SignedDecimal(m) == SignedDecimal(n)
    ensures m == n
  {
    SignIsVisible(m);
    SignIsVisible(n);
    if n < 0 {
      assert Decimal(-m) == Decimal(-n);
      DecimalInjective(-m, -n);
    } else {
      DecimalInjective(m, n);
    }
  }

  lemma SignedDecimalFree(n: int, c: char)
    requires !IsDigit(c) && c != '-'
    ensures Free(SignedDecimal(n), c)
  {
  }

  /** Two strings that end in a separator-free part split at the same place. */
  lemma LastSeparator(a: string, x: string, b: string, y: string, c: char)
    requires a + [c] + x == b + [c] + y
    requires Free(x, c) && Free(y, c)
    ensures a == b && x == y
  {
    var s := a + [c] + x;
    assert s == b + [c] + y;
    assert s[|a|] == c && s[|b|] == c;
    assert forall i | |a| < i < |s| :: s[i] == x[i - |a| - 1];
    assert forall i | |b| < i < |s| :: s[i] == y[i - |b| - 1];
    assert |a| == |b|;
    assert a == s[..|a|] == b;
    assert x == s[|a| + 1..] == y;
  }

  /** Two strings that start with a separator-free part split at the same place. */
  lemma FirstSeparator(a: string, x: string, b: string, y: string, c: char)
    requires a + [c] + x == b + [c] + y
    requires Free(a, c) && Free(b, c)
    ensures a == b && x == y
  {
    var s := a + [c] + x;
    assert s == b + [c] + y;
    assert s[|a|] == c && s[|b|] == c;
    assert forall i | 0 <= i < |a| :: s[i] == a[i];
    assert forall i | 0 <= i < |b| :: s[i] == b[i];
    assert |a| == |b|;
    assert a == s[..|a|] == b;
    assert x == s[|a| + 1..] == y;
  }

  // ------------------------------------------------------------ searching

  predicate OccursAt(text: string, pattern: string, i: int) {
    0 <= i <= |text| - |pattern| && text[i..i + |pattern|] == pattern
  }

  /** `pattern in text`. */
  predicate Contains(text: string, pattern: string) {
    exists i | 0 <= i <= |text| - |pattern| :: OccursAt(text, pattern, i)
  }

  lemma ContainsInLonger(text: string, more: string, pattern: string)
    requires Contains(text, pattern)
    ensures Contains(text + more, pattern)
  {
    var i :| 0 <= i <= |text| - |pattern| && OccursAt(text, pattern, i);
    assert (text + more)[i..i + |pattern|] == text[i..i + |pattern|];
    assert OccursAt(text + more, pattern, i);
  }

  lemma ContainsBehind(front: string, text: string, pattern: string)
    requires Contains(text, pattern)
    ensures Contains(front + text, pattern)
  {
    var i :| 0 <= i <= |text| - |pattern| && OccursAt(text, pattern, i);
    assert (front + text)[|front| + i..|front| + i + |pattern|] == text[i..i + |pattern|];
    assert OccursAt(front + text, pattern, |front| + i);
  }

  /** `" ".join(parts)`. */
  function JoinWithSpaces(parts: seq<string>): string {
    if parts == [] then ""
    else if |parts| == 1 then parts[0]
    else parts[0] + " " + JoinWithSpaces(parts[1..])
  }

  /** Two joins are joined by one more blank. */
  lemma {:induction false} JoinSplits(a: seq<string>, b: seq<string>)
    requires a != [] && b != []
    ensures JoinWithSpaces(a + b) == JoinWithSpaces(a) + " " + JoinWithSpaces(b)
  {
    assert (a + b)[1..] == a[1..] + b;
    if |a| > 1 {
      JoinSplits(a[1..], b);
      assert a[0] + " " + (JoinWithSpaces(a[1..]) + " " + JoinWithSpaces(b))
          == a[0] + " " + JoinWithSpaces(a[1..]) + " " + JoinWithSpaces(b);
    }
  }

  /** Joining more parts only extends the text on the right. */
  lemma {:induction false} JoinExtends(parts: seq<string>, more: seq<string>)
    ensures exists rest :: JoinWithSpaces(parts + more) == JoinWithSpaces(parts) + rest
  {
    if parts == [] {
      assert JoinWithSpaces(parts + more) == JoinWithSpaces(parts) + JoinWithSpaces(parts + more);
    } else if |parts| == 1 {
      if more == [] {
        assert parts + more == parts;
        assert JoinWithSpaces(parts) == JoinWithSpaces(parts) + "";
      } else {
        assert (parts + more)[1..] == more;
        assert JoinWithSpaces(parts + more) == JoinWithSpaces(parts) + (" " + JoinWithSpaces(more));
      }
    } else {
      assert (parts + more)[1..] == parts[1..] + more;
      JoinExtends(parts[1..], more);
      var rest :| JoinWithSpaces(parts[1..] + more) == JoinWithSpaces(parts[1..]) + rest;
      assert JoinWithSpaces(parts + more) == JoinWithSpaces(parts) + rest;
    }
  }

  // ------------------------------------------------------------ case and blanks

  function LowerChar(c: char): char {
    if 'A' <= c <= 'Z' then c - 'A' + 'a' else c
  }

  function Lower(s: string): string {
    seq(|s|, i requires 0 <= i < |s| => LowerChar(s[i]))
  }

  /** Position by position, only capital letters change, by the fixed distance. */
  lemma LowerAt(s: string, i: nat)
    requires i < |s|
    ensures |Lower(s)| == |s|
    ensures Lower(s)[i] as int == s[i] as int + (if 'A' <= s[i] <= 'Z' then 32 else 0)
  {
  }

  predicate IsBlank(c: char) {
    9 <= c as int <= 13 || 28 <= c as int <= 32 || c as int == 133 || c as int == 160
  }

  /** `s.strip()`. */
  function Strip(s: string): (r: string)
    ensures |r| <= |s|
    ensures r != "" ==> !IsBlank(r[0]) && !IsBlank(r[|r| - 1])
  {
    if s == "" then ""
    else if IsBlank(s[0]) then Strip(s[1..])
    else if IsBlank(s[|s| - 1]) then Strip(s[..|s| - 1])
    else s
  }

  predicate Blank(s: string) {
    forall i | 0 <= i < |s| :: IsBlank(s[i])
  }

  /** Only blanks go, and they go at both ends. */
  lemma {:induction false} StripTakesBlanks(s: string) returns (front: string, back: string)
    ensures s == front + Strip(s) + back && Blank(front) && Blank(back)
  {
    front, back := "", "";
    if s != "" && IsBlank(s[0]) {
      var inner := Strip(s[1..]);
      front, back := StripTakesBlanks(s[1..]);
      assert s == [s[0]] + s[1..] && [s[0]] + (front + inner + back) == [s[0]] + front + inner + back;
      front := [s[0]] + front;
    } else if s != "" && IsBlank(s[|s| - 1]) {
      var (inner, last) := (Strip(s[..|s| - 1]), s[|s| - 1]);
      front, back := StripTakesBlanks(s[..|s| - 1]);
      assert s == s[..|s| - 1] + [last] && front + inner + back + [last] == front + inner + (back + [last]);
      back := back + [last];
    }
  }

  /** Nothing is left exactly when there was nothing but blanks. */
  lemma {:induction false} StrippedAwayExactlyWhenBlank(s: string)
    ensures Strip(s) == "" <==> Blank(s)
  {
    if s != "" && IsBlank(s[0]) {
      StrippedAwayExactlyWhenBlank(s[1..]);
      assert s == [s[0]] + s[1..];
    } else if s != "" && IsBlank(s[|s| - 1]) {
      StrippedAwayExactlyWhenBlank(s[..|s| - 1]);
      assert !IsBlank(s[0]);
    }
  }
}
