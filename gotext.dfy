/**
 * The Go `strings` and `strconv` functions this code relies on, written out with Go's
 * semantics: `strings.TrimSpace`, `strings.TrimPrefix`, `strings.Split` with a one-character
 * separator, `strings.Join`, `strconv.Atoi` on a 64-bit platform, `strconv.Itoa`, and the
 * byte-wise `<` on strings.
 */
module GoText {
  import opened Wrappers
  import opened Errors

  const MaxInt64: int := 0x7FFF_FFFF_FFFF_FFFF
  const MinInt64: int := -0x8000_0000_0000_0000
  const MaxUint64: int := 0xFFFF_FFFF_FFFF_FFFF

  /** Go's int on the 64-bit platforms the bot runs on. */
  predicate IsInt64(n: int) { MinInt64 <= n <= MaxInt64 }

  // ---------------------------------------------------------------- white space

  /** unicode.IsSpace: the Latin-1 spaces plus the other White_Space code points. */
  predicate IsSpace(c: char) {
    c == '\t' || c == '\n' || c == '\U{000B}' || c == '\U{000C}' || c == '\r' || c == ' '
    || c == '\U{0085}' || c == '\U{00A0}' || c == '\U{1680}'
    || ('\U{2000}' <= c <= '\U{200A}')
    || c == '\U{2028}' || c == '\U{2029}' || c == '\U{202F}' || c == '\U{205F}' || c == '\U{3000}'
  }

  /** A string that `strings.TrimSpace` reduces to "". */
  predicate IsBlank(s: string) {
    forall i :: 0 <= i < |s| ==> IsSpace(s[i])
  }

  function TrimLeftSpace(s: string): (r: string) {
    if |s| > 0 && IsSpace(s[0]) then TrimLeftSpace(s[1..]) else s
  }

  function TrimRightSpace(s: string): (r: string) {
    if |s| > 0 && IsSpace(s[|s| - 1]) then TrimRightSpace(s[..|s| - 1]) else s
  }

  /** TrimLeftSpace drops a blank prefix and stops at the first other character. */
  lemma {:induction false} TrimLeftSpaceSpec(s: string)
    ensures var r := TrimLeftSpace(s);
      && |r| <= |s| && r == s[|s| - |r|..]
      && (r == [] || !IsSpace(r[0]))
      && IsBlank(s[..|s| - |r|])
    decreases |s|
  {
    if |s| > 0 && IsSpace(s[0]) {
      TrimLeftSpaceSpec(s[1..]);
      var r := TrimLeftSpace(s[1..]);
      assert s[..|s| - |r|] == [s[0]] + s[1..][..|s| - 1 - |r|];
    }
  }

  /** TrimRightSpace drops a blank suffix and stops at the last other character. */
  lemma {:induction false} TrimRightSpaceSpec(s: string)
    ensures var r := TrimRightSpace(s);
      && |r| <= |s| && r == s[..|r|]
      && (r == [] || !IsSpace(r[|r| - 1]))
      && IsBlank(s[|r|..])
    decreases |s|
  {
    if |s| > 0 && IsSpace(s[|s| - 1]) {
      TrimRightSpaceSpec(s[..|s| - 1]);
      var r := TrimRightSpace(s[..|s| - 1]);
      assert s[|r|..] == s[..|s| - 1][|r|..] + [s[|s| - 1]];
    }
  }

  /** strings.TrimSpace: drop leading and trailing white space. */
  function TrimSpace(s: string): string {
    TrimRightSpace(TrimLeftSpace(s))
  }

  /** `strings.TrimSpace(s) == ""` exactly when every character of `s` is white space. */
  lemma TrimSpaceEmptyIffBlank(s: string)
    ensures TrimSpace(s) == "" <==> IsBlank(s)
  {
    var l := TrimLeftSpace(s);
    TrimLeftSpaceSpec(s);
    TrimRightSpaceSpec(l);
    if TrimSpace(s) == "" {
      assert IsBlank(l[0..]);
      assert l[0..] == l;
      assert l == [];
      assert s[..|s| - |l|] == s;
    } else {
      var r := TrimSpace(s);
      assert !IsSpace(r[0]);
      assert r[0] == l[0];
      assert l[0] == s[|s| - |l|];
    }
  }

  // ---------------------------------------------------------------- prefixes

  /** strings.TrimPrefix: remove `prefix` once if `s` starts with it. */
  function TrimPrefix(s: string, prefix: string): string {
    if prefix <= s then s[|prefix|..] else s
  }

  /** The prefix is removed once when `s` starts with it; otherwise `s` is unchanged. */
  lemma TrimPrefixSpec(s: string, prefix: string)
    ensures prefix <= s ==> s == prefix + TrimPrefix(s, prefix)
    ensures !(prefix <= s) ==> TrimPrefix(s, prefix) == s
  {
    if prefix <= s {
      assert s == s[..|prefix|] + s[|prefix|..];
    }
  }

  // ---------------------------------------------------------------- split and join

  /** strings.Split(s, string(sep)): the pieces of `s` between occurrences of `sep`. */
  function Split(s: string, sep: char): (parts: seq<string>)
    ensures |parts| >= 1
    decreases |s|
  {
    if |s| == 0 then [""]
    else if s[0] == sep then [""] + Split(s[1..], sep)
    else
      var rest := Split(s[1..], sep);
      [[s[0]] + rest[0]] + rest[1..]
  }

  /** strings.Join(parts, sep). */
  function Join(parts: seq<string>, sep: string): string {
    if |parts| == 0 then ""
    else if |parts| == 1 then parts[0]
    else parts[0] + sep + Join(parts[1..], sep)
  }

  /** Splitting and joining again gives back the string. */
  lemma {:induction false} JoinSplit(s: string, sep: char)
    ensures Join(Split(s, sep), [sep]) == s
    decreases |s|
  {
    if |s| > 0 {
      JoinSplit(s[1..], sep);
      var rest := Split(s[1..], sep);
      if s[0] == sep {
        assert Split(s, sep) == [""] + rest;
        assert s == [sep] + s[1..];
      } else {
        var parts := Split(s, sep);
        assert parts[0] == [s[0]] + rest[0];
        assert parts[1..] == rest[1..];
        if |rest| == 1 {
          assert s == [s[0]] + rest[0];
        } else {
          assert Join(rest, [sep]) == rest[0] + [sep] + Join(rest[1..], [sep]);
          assert s == [s[0]] + s[1..];
        }
      }
    }
  }

  /** No piece of a split holds the separator. */
  lemma {:induction false} SplitPiecesFree(s: string, sep: char)
    ensures forall k :: 0 <= k < |Split(s, sep)| ==> sep !in Split(s, sep)[k]
    decreases |s|
  {
    if |s| > 0 {
      SplitPiecesFree(s[1..], sep);
      var rest := Split(s[1..], sep);
      if s[0] != sep {
        var parts := Split(s, sep);
        assert parts[0] == [s[0]] + rest[0];
        assert forall k :: 1 <= k < |parts| ==> parts[k] == rest[k];
      }
    }
  }

  /** More than one piece exactly when the separator occurs. */
  lemma {:induction false} SplitManyIffContains(s: string, sep: char)
    ensures |Split(s, sep)| > 1 <==> sep in s
    decreases |s|
  {
    if |s| > 0 {
      SplitManyIffContains(s[1..], sep);
      assert s == [s[0]] + s[1..];
      assert sep in s <==> s[0] == sep || sep in s[1..];
    }
  }

  /** The first piece is empty exactly when `s` is empty or starts with the separator. */
  lemma SplitFirstEmpty(s: string, sep: char)
    ensures Split(s, sep)[0] == "" <==> s == "" || s[0] == sep
  {
  }

  // ---------------------------------------------------------------- decimal numbers

  predicate IsDigit(c: char) { '0' <= c <= '9' }

  function DigitValue(c: char): nat
    requires IsDigit(c)
  {
    (c as int) - ('0' as int)
  }

  function DigitChar(d: nat): (c: char)
    requires d < 10
    ensures IsDigit(c) && DigitValue(c) == d
  {
    (('0' as int) + d) as char
  }

  predicate AllDigits(s: string) {
    forall i :: 0 <= i < |s| ==> IsDigit(s[i])
  }

  /** The accumulator of strconv.ParseUint after reading the digits of `s` onto `acc`. */
  function Fold(acc: nat, s: string): nat
    requires AllDigits(s)
    decreases |s|
  {
    if s == [] then acc else Fold(acc * 10 + DigitValue(s[0]), s[1..])
  }

  /**
   * The digit loop of strconv.ParseUint with base 10 and 64 bits: a character that is not a
   * decimal digit is a syntax error, a step past the unsigned 64-bit range is a range error,
   * whichever comes first in the string.
   */
  function ParseUint(s: string, acc: nat): Result<nat, Err>
    decreases |s|
  {
    if s == [] then Success(acc)
    else if !IsDigit(s[0]) then Failure(AtoiSyntax)
    else if acc * 10 + DigitValue(s[0]) > MaxUint64 then Failure(AtoiRange)
    else ParseUint(s[1..], acc * 10 + DigitValue(s[0]))
  }

  /**
   * strconv.Atoi on a 64-bit platform: an optional sign, then at least one decimal digit,
   * with the value inside the int64 range.
   */
  function Atoi(s: string): Result<int, Err> {
    if s == [] then Failure(AtoiSyntax)
    else
      var neg := s[0] == '-';
      var body := if s[0] == '-' || s[0] == '+' then s[1..] else s;
      if body == [] then Failure(AtoiSyntax)
      else match ParseUint(body, 0)
        case Failure(e) => Failure(e)
        case Success(u) =>
          if !neg && u > MaxInt64 then Failure(AtoiRange)
          else if neg && u > -MinInt64 then Failure(AtoiRange)
          else var v: int := u; Success(if neg then -v else v)
  }

  /** Go's `/` on ints, which truncates toward zero (Dafny's `/` is Euclidean). */
  function Quo(a: int, b: int): (q: int)
    requires b > 0
    ensures a >= 0 ==> 0 <= a - q * b < b
    ensures a < 0 ==> -b < a - q * b <= 0
  {
    if a >= 0 then a / b else -((-a) / b)
  }

  /** The decimal digits of `n`, most significant first, without leading zeros. */
  function NatDigits(n: nat): (s: string)
    ensures |s| >= 1
  {
    if n < 10 then [DigitChar(n)] else NatDigits(n / 10) + [DigitChar(n % 10)]
  }

  /** The rendering of a natural number is made of decimal digits only. */
  lemma {:induction false} NatDigitsAreDigits(n: nat)
    ensures AllDigits(NatDigits(n))
  {
    if n >= 10 {
      NatDigitsAreDigits(n / 10);
      var d := NatDigits(n / 10) + [DigitChar(n % 10)];
      assert forall i :: 0 <= i < |d| - 1 ==> d[i] == NatDigits(n / 10)[i];
    }
  }

  /** strconv.Itoa. */
  function Itoa(n: int): (s: string)
    ensures |s| >= 1
    ensures n >= 0 ==> IsDigit(s[0])
    ensures n < 0 ==> s[0] == '-'
  {
    if n >= 0 then
      var d := NatDigits(n);
      NatDigitsAreDigits(n);
      assert IsDigit(d[0]);
      d
    else "-" + NatDigits(-n)
  }

  lemma {:induction false} FoldAppend(acc: nat, a: string, b: string)
    requires AllDigits(a) && AllDigits(b)
    ensures AllDigits(a + b) && Fold(acc, a + b) == Fold(Fold(acc, a), b)
    decreases |a|
  {
    assert AllDigits(a + b);
    if a != [] {
      assert (a + b)[0] == a[0];
      assert (a + b)[1..] == a[1..] + b;
      FoldAppend(acc * 10 + DigitValue(a[0]), a[1..], b);
    } else {
      assert a + b == b;
    }
  }

  lemma {:induction false} FoldNatDigits(n: nat)
    ensures AllDigits(NatDigits(n)) && Fold(0, NatDigits(n)) == n
  {
    NatDigitsAreDigits(n);
    if n >= 10 {
      NatDigitsAreDigits(n / 10);
      FoldNatDigits(n / 10);
      FoldAppend(0, NatDigits(n / 10), [DigitChar(n % 10)]);
    }
  }

  lemma {:induction false} FoldGrows(acc: nat, s: string)
    requires AllDigits(s)
    ensures Fold(acc, s) >= acc
    decreases |s|
  {
    if s != [] { FoldGrows(acc * 10 + DigitValue(s[0]), s[1..]); }
  }

  /**
   * On a digit string read onto an in-range accumulator, ParseUint gives the folded value when
   * it fits in 64 bits and the range error exactly when it does not.
   */
  lemma {:induction false} ParseUintDigits(s: string, acc: nat)
    requires AllDigits(s)
    ensures Fold(acc, s) <= MaxUint64 ==> ParseUint(s, acc) == Success(Fold(acc, s))
    ensures acc <= MaxUint64 && Fold(acc, s) > MaxUint64 ==> ParseUint(s, acc) == Failure(AtoiRange)
    decreases |s|
  {
    if s != [] {
      var next := acc * 10 + DigitValue(s[0]);
      FoldGrows(next, s[1..]);
      ParseUintDigits(s[1..], next);
    }
  }

  /** Atoi undoes Itoa on every Go int: the decimal rendering of an id parses back to it. */
  lemma AtoiItoa(n: int)
    requires IsInt64(n)
    ensures Atoi(Itoa(n)) == Success(n)
  {
    var m: nat := if n >= 0 then n else -n;
    NatDigitsAreDigits(m);
    FoldNatDigits(m);
    ParseUintDigits(NatDigits(m), 0);
    var d := NatDigits(m);
    if n >= 0 {
      assert Itoa(n) == d;
      assert d[0] != '-' && d[0] != '+';
    } else {
      assert Itoa(n) == "-" + d;
      assert ("-" + d)[1..] == d;
    }
  }

  /** A character that is neither a digit nor the leading sign makes Atoi fail. */
  lemma AtoiRejectsNonDigit(s: string, i: nat)
    requires i < |s| && !IsDigit(s[i])
    requires i == 0 ==> s[0] != '-' && s[0] != '+'
    ensures Atoi(s).Failure?
  {
    var body := if s[0] == '-' || s[0] == '+' then s[1..] else s;
    if body != [] {
      var j := if s[0] == '-' || s[0] == '+' then i - 1 else i;
      assert !IsDigit(body[j]);
      ParseUintStops(body, 0, j);
    }
  }

  /**
   * Atoi accepts only an optional sign followed by one or more digits: on success the string
   * is not empty, a sign is not the whole string, and every character after it is a digit.
   */
  lemma AtoiAcceptsDigits(s: string)
    ensures Atoi(s).Success? ==>
      |s| > 0 && ((s[0] == '-' || s[0] == '+') ==> |s| > 1) &&
      forall i :: (if s[0] == '-' || s[0] == '+' then 1 else 0) <= i < |s| ==> IsDigit(s[i])
  {
    if s != [] {
      var body := if s[0] == '-' || s[0] == '+' then s[1..] else s;
      ParseUintAcceptsDigits(body, 0);
      if s[0] == '-' || s[0] == '+' {
        assert forall i :: 1 <= i < |s| ==> s[i] == body[i - 1];
      }
    }
  }

  /** ParseUint succeeds only on a string of digits. */
  lemma {:induction false} ParseUintAcceptsDigits(s: string, acc: nat)
    ensures ParseUint(s, acc).Success? ==> AllDigits(s)
    decreases |s|
  {
    if s != [] && IsDigit(s[0]) && acc * 10 + DigitValue(s[0]) <= MaxUint64 {
      ParseUintAcceptsDigits(s[1..], acc * 10 + DigitValue(s[0]));
      assert forall i :: 1 <= i < |s| ==> s[i] == s[1..][i - 1];
    }
  }

  lemma {:induction false} ParseUintStops(s: string, acc: nat, j: nat)
    requires j < |s| && !IsDigit(s[j])
    ensures ParseUint(s, acc).Failure?
    decreases |s|
  {
    if j > 0 && IsDigit(s[0]) && acc * 10 + DigitValue(s[0]) <= MaxUint64 {
      ParseUintStops(s[1..], acc * 10 + DigitValue(s[0]), j - 1);
    }
  }

  // ---------------------------------------------------------------- ordering

  /**
   * Go's `a < b` on strings: byte-wise on UTF-8, which is the lexicographic order on code
   * points for the scalar values a Dafny string holds.
   */
  predicate StrLess(a: string, b: string)
    decreases |a|
  {
    if |a| == 0 then |b| > 0
    else if |b| == 0 then false
    else if a[0] != b[0] then a[0] < b[0]
    else StrLess(a[1..], b[1..])
  }

  lemma {:induction false} StrLessIrreflexive(a: string)
    ensures !StrLess(a, a)
    decreases |a|
  {
    if |a| > 0 { StrLessIrreflexive(a[1..]); }
  }

  lemma {:induction false} StrLessTransitive(a: string, b: string, c: string)
    requires StrLess(a, b) && StrLess(b, c)
    ensures StrLess(a, c)
    decreases |a|
  {
    if |a| > 0 && |b| > 0 && |c| > 0 && a[0] == b[0] && b[0] == c[0] {
      StrLessTransitive(a[1..], b[1..], c[1..]);
    }
  }

  lemma {:induction false} StrLessTotal(a: string, b: string)
    ensures a == b || StrLess(a, b) || StrLess(b, a)
    decreases |a|
  {
    if |a| > 0 && |b| > 0 && a[0] == b[0] {
      StrLessTotal(a[1..], b[1..]);
      if a[1..] == b[1..] {
        assert a == [a[0]] + a[1..] && b == [b[0]] + b[1..];
      }
    }
  }
  /** "Not less" on strings is total and transitive, so it can order a sort.Slice by `<`. */
  lemma StrNotLessPreorder(a: string, b: string, c: string)
    ensures !StrLess(a, b) || !StrLess(b, a)
    ensures !StrLess(b, a) && !StrLess(c, b) ==> !StrLess(c, a)
  {
    if StrLess(a, b) && StrLess(b, a) {
      StrLessTransitive(a, b, a);
      StrLessIrreflexive(a);
    }
    if !StrLess(b, a) && !StrLess(c, b) && StrLess(c, a) {
      StrLessTotal(a, b);
      if StrLess(a, b) { StrLessTransitive(c, a, b); }
    }
  }

}
