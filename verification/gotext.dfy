/**
 * Models of the pieces of Go's `strings` and `strconv` packages that the
 * service calls. A Go string is a sequence of bytes; here it is a
 * `seq<char>` whose characters stand for those bytes (every one below 256).
 * Case mapping and white space are modelled on ASCII only.
 */
module GoText {
  import opened Wrappers

  type byte = x: int | 0 <= x < 256

  /** Go's `string(b)` conversion: the same bytes, read as a string. */
  function BytesToString(b: seq<byte>): (s: string)
    ensures |s| == |b|
    ensures forall i :: 0 <= i < |b| ==> s[i] as int == b[i]
  {
    seq(|b|, i requires 0 <= i < |b| => (b[i] as int) as char)
  }

  /** `[]byte(s)` for a string whose characters all stand for bytes. */
  function StringToBytes(s: string): (b: seq<byte>)
    requires forall i :: 0 <= i < |s| ==> s[i] as int < 256
    ensures BytesToString(b) == s
  {
    var b: seq<byte> := seq(|s|, i requires 0 <= i < |s| => s[i] as int);
    assert forall i :: 0 <= i < |s| ==> BytesToString(b)[i] == s[i];
    b
  }

  // ---------------------------------------------------------------------
  // strings.Split with a one-character separator, and its inverse
  // ---------------------------------------------------------------------

  /** `strings.Split(s, string(sep))`: the pieces between separators. An
      empty `s` gives one empty piece. */
  function Split(s: string, sep: char): (parts: seq<string>)
    ensures |parts| >= 1
    decreases |s|
  {
    if s == [] then [[]]
    else
      var rest := Split(s[1..], sep);
      if s[0] == sep then [[]] + rest else [[s[0]] + rest[0]] + rest[1..]
  }

  /** `strings.Join(parts, string(sep))`. */
  function Join(parts: seq<string>, sep: char): string
  {
    if |parts| == 0 then []
    else if |parts| == 1 then parts[0]
    else parts[0] + [sep] + Join(parts[1..], sep)
  }

  /** Number of occurrences of `c` in `s`. */
  function Count(s: string, c: char): nat
  {
    if s == [] then 0 else (if s[0] == c then 1 else 0) + Count(s[1..], c)
  }

  lemma {:induction false} CountConcat(a: string, b: string, c: char)
    ensures Count(a + b, c) == Count(a, c) + Count(b, c)
  {
    if a != [] {
      assert (a + b)[1..] == a[1..] + b;
      CountConcat(a[1..], b, c);
    } else {
      assert a + b == b;
    }
  }

  /** Splitting yields one more piece than there are separators. */
  lemma {:induction false} SplitLength(s: string, sep: char)
    ensures |Split(s, sep)| == Count(s, sep) + 1
  {
    if s != [] {
      SplitLength(s[1..], sep);
    }
  }

  /** No piece contains the separator. */
  lemma {:induction false} SplitPiecesFree(s: string, sep: char)
    ensures forall i :: 0 <= i < |Split(s, sep)| ==> sep !in Split(s, sep)[i]
  {
    if s != [] {
      SplitPiecesFree(s[1..], sep);
    }
  }

  /** Joining the pieces with the separator gives back the input. */
  lemma {:induction false} SplitJoin(s: string, sep: char)
    ensures Join(Split(s, sep), sep) == s
  {
    if s != [] {
      var rest := Split(s[1..], sep);
      SplitJoin(s[1..], sep);
      if s[0] == sep {
        assert Split(s, sep) == [[]] + rest;
        assert Join([[]] + rest, sep) == [] + [sep] + Join(rest, sep);
      } else {
        var parts := Split(s, sep);
        assert parts == [[s[0]] + rest[0]] + rest[1..];
        if |rest| == 1 {
          assert Join(parts, sep) == [s[0]] + rest[0];
        } else {
          assert Join(rest, sep) == rest[0] + [sep] + Join(rest[1..], sep);
          assert parts[1..] == rest[1..];
          assert Join(parts, sep) == [s[0]] + rest[0] + [sep] + Join(rest[1..], sep);
        }
      }
    }
  }

  /** A string without the separator is a single piece. */
  lemma {:induction false} SplitNoSep(s: string, sep: char)
    requires sep !in s
    ensures Split(s, sep) == [s]
  {
    if s != [] {
      assert sep !in s[1..] by {
        forall i | 0 <= i < |s[1..]| ensures s[1..][i] != sep {
          assert s[1..][i] == s[i + 1];
        }
      }
      SplitNoSep(s[1..], sep);
      assert s == [s[0]] + s[1..];
    }
  }

  /** Splitting distributes over a separator: the pieces of `a + sep + b`
      are the pieces of `a` followed by the pieces of `b`. */
  lemma {:induction false} SplitConcat(a: string, b: string, sep: char)
    ensures Split(a + [sep] + b, sep) == Split(a, sep) + Split(b, sep)
  {
    var s := a + [sep] + b;
    if a == [] {
      assert s[0] == sep && s[1..] == b;
    } else {
      assert s[0] == a[0];
      assert s[1..] == a[1..] + [sep] + b;
      SplitConcat(a[1..], b, sep);
    }
  }

  /** Splitting a join of separator-free pieces gives the pieces back. */
  lemma {:induction false} JoinSplit(parts: seq<string>, sep: char)
    requires |parts| >= 1
    requires forall i :: 0 <= i < |parts| ==> sep !in parts[i]
    ensures Split(Join(parts, sep), sep) == parts
  {
    if |parts| == 1 {
      SplitNoSep(parts[0], sep);
    } else {
      JoinSplit(parts[1..], sep);
      SplitNoSep(parts[0], sep);
      SplitConcat(parts[0], Join(parts[1..], sep), sep);
      assert [parts[0]] + parts[1..] == parts;
    }
  }

  // ---------------------------------------------------------------------
  // Trimming and case
  // ---------------------------------------------------------------------

  /** `strings.TrimLeft(s, string(c))`: drop every leading `c`. */
  function TrimLeft(s: string, c: char): (r: string)
    ensures |r| <= |s| && r == s[|s| - |r|..]
    ensures r == [] || r[0] != c
    ensures forall i :: 0 <= i < |s| - |r| ==> s[i] == c
    decreases |s|
  {
    if s != [] && s[0] == c then TrimLeft(s[1..], c) else s
  }

  /** The ASCII white space that `strings.TrimSpace` removes. */
  predicate IsAsciiSpace(c: char)
  {
    c == ' ' || c == '\t' || c == '\n' || c == '\U{B}' || c == '\U{C}' || c == '\r'
  }

  /** How many white-space characters `s` starts with. */
  function LeadingSpaces(s: string): (n: nat)
    ensures n <= |s|
    ensures forall i :: 0 <= i < n ==> IsAsciiSpace(s[i])
    ensures n < |s| ==> !IsAsciiSpace(s[n])
  {
    if s != [] && IsAsciiSpace(s[0]) then 1 + LeadingSpaces(s[1..]) else 0
  }

  /** How many white-space characters `s` ends with. */
  function TrailingSpaces(s: string): (n: nat)
    ensures n <= |s|
    ensures forall i :: |s| - n <= i < |s| ==> IsAsciiSpace(s[i])
    ensures n < |s| ==> !IsAsciiSpace(s[|s| - n - 1])
  {
    if s != [] && IsAsciiSpace(s[|s| - 1]) then 1 + TrailingSpaces(s[..|s| - 1]) else 0
  }

  /** `strings.TrimSpace`: drop leading and trailing white space. The
      result is the stretch of `s` that follows its leading white space,
      and everything of `s` outside that stretch is white space; it is
      empty exactly when `s` is all white space, neither starts nor ends
      with white space, and is `s` itself when `s` has none to drop at
      either end. */
  function TrimSpace(s: string): (r: string)
    ensures |r| <= |s|
    ensures LeadingSpaces(s) + |r| <= |s| && r == s[LeadingSpaces(s)..LeadingSpaces(s) + |r|]
    ensures forall i :: LeadingSpaces(s) + |r| <= i < |s| ==> IsAsciiSpace(s[i])
    ensures r == [] || (!IsAsciiSpace(r[0]) && !IsAsciiSpace(r[|r| - 1]))
    ensures r == [] <==> forall i :: 0 <= i < |s| ==> IsAsciiSpace(s[i])
    ensures s == [] || (!IsAsciiSpace(s[0]) && !IsAsciiSpace(s[|s| - 1])) ==> r == s
  {
    var rest := s[LeadingSpaces(s)..];
    rest[..|rest| - TrailingSpaces(rest)]
  }

  function ToLowerAscii(c: char): char
  {
    if 'A' <= c <= 'Z' then (c as int + 32) as char else c
  }

  function ToUpperAscii(c: char): char
  {
    if 'a' <= c <= 'z' then (c as int - 32) as char else c
  }

  /** `strings.ToLower` on ASCII text. */
  function ToLower(s: string): (r: string)
    ensures |r| == |s| && forall i :: 0 <= i < |s| ==> r[i] == ToLowerAscii(s[i])
  {
    seq(|s|, i requires 0 <= i < |s| => ToLowerAscii(s[i]))
  }

  /** The separators of `strings.Title`: every ASCII character other than
      a letter, a digit or `_`. Non-ASCII characters count as letters. */
  predicate IsWordSeparator(c: char)
  {
    c as int < 0x80 && !('0' <= c <= '9' || 'a' <= c <= 'z' || 'A' <= c <= 'Z' || c == '_')
  }

  function TitleFrom(prev: char, s: string): string
    decreases |s|
  {
    if s == [] then []
    else [if IsWordSeparator(prev) then ToUpperAscii(s[0]) else s[0]] + TitleFrom(s[0], s[1..])
  }

  lemma {:induction false} TitleFromAt(prev: char, s: string, i: nat)
    requires i < |s|
    ensures |TitleFrom(prev, s)| == |s|
    ensures TitleFrom(prev, s)[i] ==
      if IsWordSeparator(if i == 0 then prev else s[i - 1]) then ToUpperAscii(s[i]) else s[i]
    decreases |s|
  {
    if i == 0 {
      if |s| > 1 { TitleFromAt(s[0], s[1..], 0); }
    } else {
      TitleFromAt(s[0], s[1..], i - 1);
    }
  }

  /** `strings.Title`: every letter that starts the string or follows a
      separator is upper-cased; nothing else changes. */
  function Title(s: string): (r: string)
    ensures |r| == |s|
    ensures forall i :: 0 <= i < |s| ==>
      r[i] == if i == 0 || IsWordSeparator(s[i - 1]) then ToUpperAscii(s[i]) else s[i]
  {
    var r := TitleFrom(' ', s);
    assert |r| == |s| by {
      if s != [] { TitleFromAt(' ', s, 0); }
    }
    assert forall i :: 0 <= i < |s| ==>
      r[i] == if i == 0 || IsWordSeparator(s[i - 1]) then ToUpperAscii(s[i]) else s[i] by {
      forall i | 0 <= i < |s|
        ensures r[i] == if i == 0 || IsWordSeparator(s[i - 1]) then ToUpperAscii(s[i]) else s[i]
      {
        TitleFromAt(' ', s, i);
      }
    }
    r
  }

  // ---------------------------------------------------------------------
  // Decimal text
  // ---------------------------------------------------------------------

  predicate IsDigit(c: char) { '0' <= c <= '9' }

  function DigitValue(c: char): nat
    requires IsDigit(c)
  {
    c as int - '0' as int
  }

  function DigitChar(d: nat): char
    requires d < 10
  {
    (d + '0' as int) as char
  }

  predicate AllDigits(s: string)
  {
    forall i :: 0 <= i < |s| ==> IsDigit(s[i])
  }

  /** Non-empty and made of digits only. */
  predicate IsDecimal(s: string)
  {
    |s| > 0 && AllDigits(s)
  }

  /** The value of a digit string, read most significant digit first. */
  function DecimalValue(s: string): nat
    requires AllDigits(s)
  {
    if s == [] then 0 else DecimalValue(s[..|s| - 1]) * 10 + DigitValue(s[|s| - 1])
  }

  function Pow10(n: nat): (p: nat)
    ensures p >= 1
  {
    if n == 0 then 1 else 10 * Pow10(n - 1)
  }

  /** The leading digit carries weight 10^(|s|-1). */
  lemma {:induction false} DecimalValueFront(s: string)
    requires IsDecimal(s)
    ensures DecimalValue(s) == DigitValue(s[0]) * Pow10(|s| - 1) + DecimalValue(s[1..])
  {
    var n := |s|;
    if n > 1 {
      var init := s[..n - 1];
      DecimalValueFront(init);
      assert init[1..] == s[1..][..n - 2];
      var d0, last := DigitValue(s[0]), DigitValue(s[n - 1]);
      var p := Pow10(n - 2);
      var mid := DecimalValue(init[1..]);
      assert DecimalValue(init) == d0 * p + mid;
      assert DecimalValue(s) == DecimalValue(init) * 10 + last;
      assert DecimalValue(s[1..]) == mid * 10 + last;
      assert Pow10(n - 1) == 10 * p;
      FrontStep(d0, p, mid, last);
    }
  }

  lemma FrontStep(d0: nat, p: nat, mid: nat, last: nat)
    ensures (d0 * p + mid) * 10 + last == d0 * (10 * p) + (mid * 10 + last)
  {
  }

  /** `strconv.FormatInt(n, 10)` for a non-negative `n`: no sign, no
      leading zero. */
  function DecimalText(n: nat): (s: string)
    ensures IsDecimal(s)
    ensures s[0] == '0' ==> |s| == 1
    decreases n
  {
    if n < 10 then [DigitChar(n)] else DecimalText(n / 10) + [DigitChar(n % 10)]
  }

  /** Text with no leading zero (a lone "0" excepted). */
  predicate IsCanonicalDecimal(s: string)
  {
    IsDecimal(s) && (s[0] == '0' ==> |s| == 1)
  }

  lemma {:induction false} DecimalTextValue(n: nat)
    ensures DecimalValue(DecimalText(n)) == n
    decreases n
  {
    if n >= 10 {
      var s := DecimalText(n);
      DecimalTextValue(n / 10);
      assert s[..|s| - 1] == DecimalText(n / 10);
    }
  }

  lemma {:induction false} CanonicalDecimalPositive(s: string)
    requires IsCanonicalDecimal(s) && |s| > 1
    ensures DecimalValue(s) >= Pow10(|s| - 1)
  {
    DecimalValueFront(s);
    var d0, p := DigitValue(s[0]), Pow10(|s| - 1);
    assert d0 >= 1;
    MulAtLeast(p, d0);
    assert d0 * p == p * d0;
  }

  /** Formatting the value of canonical decimal text gives the text back. */
  lemma {:induction false} DecimalTextOfValue(s: string)
    requires IsCanonicalDecimal(s)
    ensures DecimalText(DecimalValue(s)) == s
  {
    var n := |s|;
    if n > 1 {
      var init := s[..n - 1];
      assert init[0] == s[0];
      CanonicalDecimalPositive(s);
      if n > 2 {
        CanonicalDecimalPositive(init);
      }
      DecimalTextOfValue(init);
      var v := DecimalValue(s);
      assert v == DecimalValue(init) * 10 + DigitValue(s[n - 1]);
      assert v / 10 == DecimalValue(init) && v % 10 == DigitValue(s[n - 1]);
      assert s == init + [s[n - 1]];
    }
  }

  // ---------------------------------------------------------------------
  // strconv.ParseUint / ParseInt in base 10
  // ---------------------------------------------------------------------

  /** The bit sizes the service passes to strconv (0 stands for 64 on a
      64-bit platform). */
  datatype Width = W8 | W16 | W32 | W64

  function MaxUint(w: Width): nat
  {
    match w
    case W8 => 0xff
    case W16 => 0xffff
    case W32 => 0xffff_ffff
    case W64 => 0xffff_ffff_ffff_ffff
  }

  /** 2^(bits-1): one past the largest signed value. */
  function SignedCutoff(w: Width): nat
  {
    match w
    case W8 => 0x80
    case W16 => 0x8000
    case W32 => 0x8000_0000
    case W64 => 0x8000_0000_0000_0000
  }

  function MinInt(w: Width): int { -(SignedCutoff(w) as int) }
  function MaxInt(w: Width): int { SignedCutoff(w) - 1 }

  /** The two causes a `*strconv.NumError` can carry here. */
  datatype NumErrorKind = ErrSyntax | ErrRange

  /** The digit loop of `strconv.ParseUint`: stops at the first non-digit
      (syntax error, value 0) or as soon as the running value would exceed
      `max` (range error, value `max`), whichever comes first. */
  function ScanDigits(s: string, max: nat, acc: nat): (r: (nat, Option<NumErrorKind>))
    requires acc <= max
    ensures r.0 <= max
    ensures r.1 == Some(ErrSyntax) ==> r.0 == 0
    ensures r.1 == Some(ErrRange) ==> r.0 == max
    decreases |s|
  {
    if s == [] then (acc, None)
    else if !IsDigit(s[0]) then (0, Some(ErrSyntax))
    else if acc * 10 + DigitValue(s[0]) > max then (max, Some(ErrRange))
    else ScanDigits(s[1..], max, acc * 10 + DigitValue(s[0]))
  }

  lemma MulAtLeast(a: nat, p: nat)
    requires p >= 1
    ensures a * p >= a
  {
  }

  lemma HornerStep(acc: nat, d: nat, p: nat, tail: nat)
    ensures acc * (10 * p) + (d * p + tail) == (acc * 10 + d) * p + tail
  {
  }

  /** On digit text the scan computes acc·10^|s| + value(s), or reports a
      range error exactly when that exceeds `max`. */
  lemma {:induction false} ScanDigitsValue(s: string, max: nat, acc: nat)
    requires acc <= max && AllDigits(s)
    ensures var v := acc * Pow10(|s|) + DecimalValue(s);
      ScanDigits(s, max, acc) == if v <= max then (v, None) else (max, Some(ErrRange))
    decreases |s|
  {
    if s != [] {
      var n := |s|;
      var d := DigitValue(s[0]);
      var acc' := acc * 10 + d;
      var p := Pow10(n - 1);
      DecimalValueFront(s);
      var tail := DecimalValue(s[1..]);
      assert Pow10(n) == 10 * p;
      HornerStep(acc, d, p, tail);
      if acc' > max {
        MulAtLeast(acc', p);
      } else {
        assert AllDigits(s[1..]);
        ScanDigitsValue(s[1..], max, acc');
      }
    }
  }

  /** Text with a non-digit always ends in an error. */
  lemma {:induction false} ScanDigitsRejects(s: string, max: nat, acc: nat)
    requires acc <= max && !AllDigits(s)
    ensures ScanDigits(s, max, acc).1.Some?
    decreases |s|
  {
    if IsDigit(s[0]) && acc * 10 + DigitValue(s[0]) <= max {
      assert !AllDigits(s[1..]) by {
        var i :| 0 <= i < |s| && !IsDigit(s[i]);
        assert i > 0 && s[1..][i - 1] == s[i];
      }
      ScanDigitsRejects(s[1..], max, acc * 10 + DigitValue(s[0]));
    }
  }

  /** Some all-digit prefix of `s` already exceeds `max`: the scan meets
      the overflow before anything that follows that prefix. */
  predicate DigitPrefixExceeds(s: string, max: nat)
  {
    exists k :: 0 < k <= |s| && AllDigits(s[..k]) && DecimalValue(s[..k]) > max
  }

  /** Moving the first digit of a prefix into the running value. */
  lemma PrefixShift(s: string, acc: nat, k: nat)
    requires 0 < k <= |s| && AllDigits(s[..k])
    ensures IsDigit(s[0]) && AllDigits(s[1..][..k - 1])
    ensures acc * Pow10(k) + DecimalValue(s[..k])
         == (acc * 10 + DigitValue(s[0])) * Pow10(k - 1) + DecimalValue(s[1..][..k - 1])
  {
    var p := s[..k];
    assert p[0] == s[0];
    assert p[1..] == s[1..][..k - 1];
    DecimalValueFront(p);
    assert Pow10(k) == 10 * Pow10(k - 1);
    HornerStep(acc, DigitValue(s[0]), Pow10(k - 1), DecimalValue(p[1..]));
  }

  /** Some all-digit prefix of `s`, read after the running value `acc`,
      exceeds `max`. */
  predicate ExceedsAfter(s: string, max: nat, acc: nat)
  {
    exists k :: 0 < k <= |s| && AllDigits(s[..k]) && acc * Pow10(k) + DecimalValue(s[..k]) > max
  }

  /** A range error from the scan has an overflowing digit prefix behind it. */
  lemma {:induction false} ScanRangeHasPrefix(s: string, max: nat, acc: nat)
    requires acc <= max && ScanDigits(s, max, acc).1 == Some(ErrRange)
    ensures ExceedsAfter(s, max, acc)
    decreases |s|
  {
    var acc' := acc * 10 + DigitValue(s[0]);
    if acc' > max {
      assert AllDigits(s[..1]);
      PrefixShift(s, acc, 1);
    } else {
      ScanRangeHasPrefix(s[1..], max, acc');
      var k' :| 0 < k' <= |s[1..]| && AllDigits(s[1..][..k'])
        && acc' * Pow10(k') + DecimalValue(s[1..][..k']) > max;
      var p := s[..k' + 1];
      assert AllDigits(p) by {
        forall i | 0 <= i < |p| ensures IsDigit(p[i]) {
          if i > 0 { assert p[i] == s[1..][..k'][i - 1]; }
        }
      }
      PrefixShift(s, acc, k' + 1);
    }
  }

  /** An overflowing digit prefix makes the scan end in a range error,
      whatever follows it. */
  lemma {:induction false} PrefixForcesRange(s: string, max: nat, acc: nat)
    requires acc <= max && ExceedsAfter(s, max, acc)
    ensures ScanDigits(s, max, acc).1 == Some(ErrRange)
    decreases |s|
  {
    var k :| 0 < k <= |s| && AllDigits(s[..k]) && acc * Pow10(k) + DecimalValue(s[..k]) > max;
    PrefixShift(s, acc, k);
    var acc' := acc * 10 + DigitValue(s[0]);
    if acc' <= max {
      assert k > 1;
      assert 0 < k - 1 <= |s[1..]|;
      PrefixForcesRange(s[1..], max, acc');
    }
  }

  lemma ScanDigitsFromZero(s: string, max: nat)
    ensures AllDigits(s) ==>
      ScanDigits(s, max, 0) == if DecimalValue(s) <= max then (DecimalValue(s), None) else (max, Some(ErrRange))
    ensures !AllDigits(s) ==> ScanDigits(s, max, 0).1.Some?
    ensures ScanDigits(s, max, 0).1 == Some(ErrRange) <==> DigitPrefixExceeds(s, max)
  {
    if ScanDigits(s, max, 0).1 == Some(ErrRange) {
      ScanRangeHasPrefix(s, max, 0);
    }
    if DigitPrefixExceeds(s, max) {
      PrefixForcesRange(s, max, 0);
    }
    if AllDigits(s) {
      ScanDigitsValue(s, max, 0);
    } else {
      ScanDigitsRejects(s, max, 0);
    }
  }

  /** `strconv.ParseUint(s, 10, bits)`. No sign is accepted. */
  function ParseUint(s: string, w: Width): (r: (nat, Option<NumErrorKind>))
    ensures r.0 <= MaxUint(w)
    ensures r.1 == None <==> IsDecimal(s) && DecimalValue(s) <= MaxUint(w)
    ensures r.1 == None ==> r.0 == DecimalValue(s)
    ensures IsDecimal(s) && DecimalValue(s) > MaxUint(w) ==> r == (MaxUint(w), Some(ErrRange))
    ensures r.1 == Some(ErrSyntax) ==> r.0 == 0
    ensures r.1 == Some(ErrRange) ==> r.0 == MaxUint(w)
    ensures r.1 == Some(ErrRange) <==> DigitPrefixExceeds(s, MaxUint(w))
  {
    if s == [] then (0, Some(ErrSyntax))
    else
      ScanDigitsFromZero(s, MaxUint(w));
      ScanDigits(s, MaxUint(w), 0)
  }

  /** The reference reading of signed decimal text: an optional `+` or `-`
      followed by at least one digit. */
  function SignedDecimal(s: string): Option<int>
  {
    if |s| > 0 && (s[0] == '+' || s[0] == '-') && IsDecimal(s[1..]) then
      Some(if s[0] == '-' then -(DecimalValue(s[1..]) as int) else DecimalValue(s[1..]))
    else if IsDecimal(s) then Some(DecimalValue(s))
    else None
  }

  /** Reading the sign first, then the digits, agrees with SignedDecimal. */
  lemma SignedDecimalSplit(s: string)
    requires s != []
    ensures var digits := if s[0] == '+' || s[0] == '-' then s[1..] else s;
      SignedDecimal(s) ==
        if !IsDecimal(digits) then None
        else if s[0] == '-' then Some(-(DecimalValue(digits) as int))
        else Some(DecimalValue(digits) as int)
  {
    if s[0] == '+' || s[0] == '-' {
      assert !IsDigit(s[0]);
    }
  }

  /** The text `strconv.ParseInt` hands to `ParseUint`: `s` without one
      leading sign. */
  function UnsignedPart(s: string): string
  {
    if |s| > 0 && (s[0] == '+' || s[0] == '-') then s[1..] else s
  }

  /** `strconv.ParseInt(s, 10, bits)`: on overflow the value is clamped to
      the nearest bound of the width and the error is a range error. */
  function ParseInt(s: string, w: Width): (r: (int, Option<NumErrorKind>))
    ensures MinInt(w) <= r.0 <= MaxInt(w)
    ensures r.1 == None <==> SignedDecimal(s).Some? && MinInt(w) <= SignedDecimal(s).value <= MaxInt(w)
    ensures r.1 == None ==> r.0 == SignedDecimal(s).value
    ensures SignedDecimal(s).Some? && SignedDecimal(s).value > MaxInt(w) ==> r == (MaxInt(w), Some(ErrRange))
    ensures SignedDecimal(s).Some? && SignedDecimal(s).value < MinInt(w) ==> r == (MinInt(w), Some(ErrRange))
    ensures r.1 == Some(ErrSyntax) ==> r.0 == 0
    ensures r.1 == Some(ErrRange) ==> r.0 == MinInt(w) || r.0 == MaxInt(w)
    ensures DigitPrefixExceeds(UnsignedPart(s), MaxUint(w)) ==>
      s != [] && r == (if s[0] == '-' then MinInt(w) else MaxInt(w), Some(ErrRange))
    ensures r.1 == Some(ErrRange) <==>
      DigitPrefixExceeds(UnsignedPart(s), MaxUint(w))
      || (SignedDecimal(s).Some? && !(MinInt(w) <= SignedDecimal(s).value <= MaxInt(w)))
  {
    if s == [] then (0, Some(ErrSyntax))
    else
      var neg := s[0] == '-';
      var digits := UnsignedPart(s);
      SignedDecimalSplit(s);
      var parsed := ParseUint(digits, w);
      var un, e := parsed.0, parsed.1;
      assert e.Some? ==> e.value == ErrSyntax || e.value == ErrRange;
      if e == Some(ErrSyntax) then (0, Some(ErrSyntax))
      else if !neg && un >= SignedCutoff(w) then (MaxInt(w), Some(ErrRange))
      else if neg && un > SignedCutoff(w) then (MinInt(w), Some(ErrRange))
      else
        (if neg then -(un as int) else un, None)
  }

  /** At 8 bits, "300" already overflows before the stray character, so
      the range error wins and the value is clamped; "200" still fits the
      unsigned scan, so the stray character gives a syntax error. */
  lemma ParseIntNarrowOverflow()
    ensures ParseInt("300x", W8) == (127, Some(ErrRange))
    ensures ParseInt("-300x", W8) == (-128, Some(ErrRange))
    ensures ParseInt("200x", W8) == (0, Some(ErrSyntax))
  {
    assert "3"[..0] == [] && "30"[..1] == "3" && "300"[..2] == "30";
    assert "2"[..0] == [] && "20"[..1] == "2" && "200"[..2] == "20";
    assert DecimalValue("300") == 300;
    assert "300x"[..3] == "300";
    assert DigitPrefixExceeds("300x", MaxUint(W8));
    assert UnsignedPart("-300x") == "300x";
    assert UnsignedPart("200x") == "200x";
    forall k | 0 < k <= 4
      ensures AllDigits("200x"[..k]) ==> DecimalValue("200x"[..k]) <= 0xff
    {
      if k == 4 {
        assert "200x"[..k][3] == 'x' && !IsDigit('x');
      } else if k == 3 {
        assert "200x"[..k] == "200";
      } else if k == 2 {
        assert "200x"[..k] == "20";
      } else {
        assert "200x"[..k] == "2";
      }
    }
    assert !DigitPrefixExceeds("200x", MaxUint(W8));
  }
}
