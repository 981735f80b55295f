/** Byte order on strings, joining and splitting, and signed decimal numbers. */
module Text {
  import opened Options
  import opened Sequences

  predicate Less(a: string, b: string) {
    if a == "" || b == "" then a == "" && b != ""
    else if a[0] != b[0] then a[0] < b[0]
    else Less(a[1..], b[1..])
  }

  /** The strings are equal up to a smaller character in `a`. */
  predicate DiffersAt(a: string, b: string, n: nat) {
    n < |a| && n < |b| && a[..n] == b[..n] && a[n] < b[n]
  }

  /** A proper prefix comes first; otherwise the first character that differs decides. */
  lemma {:induction false} LessIff(a: string, b: string)
    ensures Less(a, b) <==> a < b || exists n: nat :: DiffersAt(a, b, n)
  {
    if a == "" || b == "" {
    } else if a[0] != b[0] {
      forall n: nat ensures DiffersAt(a, b, n) <==> n == 0 && a[0] < b[0] {
        DiffersFirst(a, b, n);
      }
      assert a[0] < b[0] ==> DiffersAt(a, b, 0);
    } else {
      LessIff(a[1..], b[1..]);
      assert a == [a[0]] + a[1..] && b == [b[0]] + b[1..];
      assert a < b <==> a[1..] < b[1..];
      if n: nat :| DiffersAt(a[1..], b[1..], n) {
        DiffersLater(a, b, n + 1);
      }
      if n: nat :| DiffersAt(a, b, n) {
        DiffersLater(a, b, n);
      }
    }
  }

  lemma DiffersFirst(a: string, b: string, n: nat)
    requires a != "" && b != "" && a[0] != b[0]
    ensures DiffersAt(a, b, n) <==> n == 0 && a[0] < b[0]
  {
    if 0 < n < |a| && n < |b| {
      assert a[..n][0] == a[0] && b[..n][0] == b[0];
    }
  }

  lemma DiffersLater(a: string, b: string, n: nat)
    requires a != "" && b != "" && a[0] == b[0]
    ensures DiffersAt(a, b, n) <==> n > 0 && DiffersAt(a[1..], b[1..], n - 1)
  {
    if n > 0 && n < |a| && n < |b| {
      assert a[..n] == [a[0]] + a[1..][..n - 1] && b[..n] == [b[0]] + b[1..][..n - 1];
      assert a[1..][..n - 1] == a[..n][1..] && b[1..][..n - 1] == b[..n][1..];
    }
  }

  lemma {:induction false} LessAsymmetric(a: string, b: string)
    ensures Less(a, b) ==> !Less(b, a)
  {
    if a != "" && b != "" && a[0] == b[0] {
      LessAsymmetric(a[1..], b[1..]);
    }
  }

  lemma {:induction false} LessTotal(a: string, b: string)
    ensures a == b || Less(a, b) || Less(b, a)
  {
    if a != "" && b != "" && a[0] == b[0] {
      LessTotal(a[1..], b[1..]);
      assert a == [a[0]] + a[1..] && b == [b[0]] + b[1..];
    }
  }

  lemma {:induction false} LessTransitive(a: string, b: string, c: string)
    requires Less(a, b) && Less(b, c)
    ensures Less(a, c)
  {
    if a != "" && a[0] == b[0] == c[0] {
      LessTransitive(a[1..], b[1..], c[1..]);
    }
  }

  lemma LessIsAsymmetric()
    ensures Asymmetric(Less)
  {
    forall a, b ensures Less(a, b) ==> !Less(b, a) {
      LessAsymmetric(a, b);
    }
  }

  function Join(parts: seq<string>, sep: char): string {
    if parts == [] then ""
    else if |parts| == 1 then parts[0]
    else parts[0] + [sep] + Join(parts[1..], sep)
  }

  /** The text before the first `sep`, and the text after it if there is one. */
  function Cut(s: string, sep: char): (r: (string, Option<string>))
    ensures sep !in r.0
    ensures s == r.0 + (if r.1.None? then "" else [sep] + r.1.value)
  {
    if s == "" then ("", None)
    else if s[0] == sep then ("", Some(s[1..]))
    else
      var (before, after) := Cut(s[1..], sep);
      ([s[0]] + before, after)
  }

  function Split(s: string, sep: char): (parts: seq<string>)
    ensures parts != [] && forall i :: 0 <= i < |parts| ==> sep !in parts[i]
    decreases |s|
  {
    var (before, after) := Cut(s, sep);
    if after.None? then [before] else [before] + Split(after.value, sep)
  }

  lemma {:induction false} CutAt(before: string, sep: char, after: string)
    requires sep !in before
    ensures Cut(before + [sep] + after, sep) == (before, Some(after))
  {
    var s := before + [sep] + after;
    if before == "" {
      assert s[1..] == after;
    } else {
      CutAt(before[1..], sep, after);
      assert s[1..] == before[1..] + [sep] + after;
      assert before == [before[0]] + before[1..];
    }
  }

  lemma {:induction false} CutNowhere(s: string, sep: char)
    requires sep !in s
    ensures Cut(s, sep) == (s, None)
  {
    if s != "" {
      CutNowhere(s[1..], sep);
      assert s == [s[0]] + s[1..];
    }
  }

  lemma {:induction false} SplitJoin(parts: seq<string>, sep: char)
    requires parts != [] && forall i :: 0 <= i < |parts| ==> sep !in parts[i]
    ensures Split(Join(parts, sep), sep) == parts
  {
    if |parts| == 1 {
      CutNowhere(parts[0], sep);
    } else {
      CutAt(parts[0], sep, Join(parts[1..], sep));
      SplitJoin(parts[1..], sep);
    }
  }

  // Signed 64-bit decimal numbers.

  const MIN_INT64: int := -0x8000_0000_0000_0000
  const MAX_INT64: int := 0x7fff_ffff_ffff_ffff

  function Digits(n: nat): (s: string)
    ensures s != "" && AllDigits(s)
  {
    if n < 10 then [Digit(n)] else Digits(n / 10) + [Digit(n % 10)]
  }

  function Digit(d: nat): (c: char)
    requires d < 10
    ensures '0' <= c <= '9'
  {
    '0' + d as char
  }

  predicate AllDigits(s: string) {
    forall i :: 0 <= i < |s| ==> '0' <= s[i] <= '9'
  }

  function Value(s: string): nat
    requires AllDigits(s)
  {
    if s == "" then 0 else 10 * Value(s[..|s| - 1]) + (s[|s| - 1] as int - '0' as int)
  }

  function FormatInt(n: int): string {
    if n < 0 then "-" + Digits(-n) else Digits(n)
  }

  /** Base-ten `ParseInt` into 64 bits: an optional sign, then digits, in range. */
  function ParseInt(s: string): (r: Option<int>)
    ensures r.Some? ==> MIN_INT64 <= r.value <= MAX_INT64
  {
    if s == "" then None
    else
      var negative := s[0] == '-';
      var digits := if negative || s[0] == '+' then s[1..] else s;
      if digits == "" || !AllDigits(digits) then None
      else
        var n: int := Value(digits);
        var v := if negative then -n else n;
        if MIN_INT64 <= v <= MAX_INT64 then Some(v) else None
  }

  lemma {:induction false} DigitsValue(n: nat)
    ensures Value(Digits(n)) == n
  {
    if n >= 10 {
      DigitsValue(n / 10);
      var s := Digits(n / 10) + [Digit(n % 10)];
      assert s[..|s| - 1] == Digits(n / 10);
    }
  }

  lemma FormatParses(n: int)
    requires MIN_INT64 <= n <= MAX_INT64
    ensures FormatInt(n) != "" && ParseInt(FormatInt(n)) == Some(n)
  {
    if n < 0 {
      DigitsValue(-n);
      assert ("-" + Digits(-n))[1..] == Digits(-n);
    } else {
      DigitsValue(n);
      var first := Digits(n)[0];
      assert '0' <= first <= '9';
    }
  }

  function Zeros(n: nat): string {
    seq(n, _ => '0')
  }

  lemma OneDigit(c: char)
    requires '0' <= c <= '9'
    ensures Digit(c as int - '0' as int) == c
  {}

  lemma DigitsStep(v: nat, c: char)
    requires '0' <= c <= '9'
    ensures var d := c as int - '0' as int; Digits(10 * v + d) == if v == 0 then [c] else Digits(v) + [c]
  {
    var d := c as int - '0' as int;
    OneDigit(c);
    assert (10 * v + d) / 10 == v && (10 * v + d) % 10 == d;
  }

  /** A string of digits is its number in the usual form after some zeros. */
  lemma {:induction false} DigitsBack(s: string) returns (zeros: nat)
    requires s != "" && AllDigits(s)
    ensures s == Zeros(zeros) + Digits(Value(s))
  {
    var init, last := s[..|s| - 1], s[|s| - 1];
    ValueStep(s);
    DigitsStep(Value(init), last);
    hide Digits, Value, Zeros;
    assert s == init + [last];
    zeros := 0;
    if init == "" {
      NoZeros();
    } else {
      zeros := DigitsBack(init);
      if Value(init) == 0 {
        zeros := zeros + 1;
        ZeroInit(init, zeros);
      } else {
        assert Zeros(zeros) + (Digits(Value(init)) + [last]) == Zeros(zeros) + Digits(Value(init)) + [last];
      }
    }
  }

  lemma NoZeros()
    ensures Zeros(0) == "" && Value("") == 0
  {}

  lemma ValueStep(s: string)
    requires s != "" && AllDigits(s)
    ensures Value(s) == 10 * Value(s[..|s| - 1]) + (s[|s| - 1] as int - '0' as int)
  {}

  lemma ZeroInit(init: string, zeros: nat)
    requires zeros > 0 && init == Zeros(zeros - 1) + Digits(0)
    ensures init == Zeros(zeros)
  {
    assert Digits(0) == "0";
  }

  lemma {:induction false} ZerosFirst(zeros: nat, s: string)
    requires AllDigits(s)
    ensures AllDigits(Zeros(zeros) + s) && Value(Zeros(zeros) + s) == Value(s)
  {
    var t := Zeros(zeros) + s;
    if s != "" {
      assert t[..|t| - 1] == Zeros(zeros) + s[..|s| - 1];
      ZerosFirst(zeros, s[..|s| - 1]);
    } else if zeros > 0 {
      assert t[..|t| - 1] == Zeros(zeros - 1) + "";
      ZerosFirst(zeros - 1, "");
    }
  }

  predicate Spells(s: string, n: int, sign: string, zeros: nat) {
    && sign in {"", "+", "-"} && (n < 0 ==> sign == "-") && (n > 0 ==> sign != "-")
    && s == sign + Zeros(zeros) + Digits(if n < 0 then -n else n)
  }
  lemma ParsedSpells(s: string, n: int) returns (sign: string, zeros: nat)
    requires ParseInt(s) == Some(n)
    ensures Spells(s, n, sign, zeros)
  {
    hide Digits, Value, Zeros, AllDigits;
    var signed := s[0] == '-' || s[0] == '+';
    sign := if signed then [s[0]] else "";
    var digits := if signed then s[1..] else s;
    assert s == sign + digits;
    zeros := DigitsBack(digits);
    assert sign + (Zeros(zeros) + Digits(Value(digits))) == sign + Zeros(zeros) + Digits(Value(digits));
  }

  lemma SpelledParses(s: string, n: int, sign: string, zeros: nat)
    requires MIN_INT64 <= n <= MAX_INT64 && Spells(s, n, sign, zeros)
    ensures ParseInt(s) == Some(n)
  {
    hide Digits, Value, Zeros;
    var m := if n < 0 then -n else n;
    var digits := Zeros(zeros) + Digits(m);
    ZerosFirst(zeros, Digits(m));
    DigitsValue(m);
    assert s == sign + digits;
    assert digits != "" && '0' <= digits[0] <= '9';
    hide AllDigits;
    if sign == "" {
      assert s == digits;
    } else {
      assert s[1..] == digits;
    }
  }

  /** What parses as a number is that number in range, possibly after a sign and zeros, and nothing else. */
  lemma ParseIntIff(s: string, n: int)
    ensures ParseInt(s) == Some(n) <==>
            && MIN_INT64 <= n <= MAX_INT64
            && exists sign, zeros: nat :: Spells(s, n, sign, zeros)
  {
    hide Spells;
    if ParseInt(s) == Some(n) {
      var sign, zeros := ParsedSpells(s, n);
    }
    if sign, zeros: nat :| MIN_INT64 <= n <= MAX_INT64 && Spells(s, n, sign, zeros) {
      SpelledParses(s, n, sign, zeros);
    }
  }
}
