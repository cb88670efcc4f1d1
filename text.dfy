/**
 * The Python string operations the MQTT router relies on: `str.strip()`, `str.split(sep)`,
 * `str.startswith` and `int(str)`, over ASCII text.
 */
module Text {
  import opened Wrappers

  /** The ASCII characters `int()` skips around a literal: space and `\t` to `\r`. */
  predicate IsIntSpace(c: char)
  {
    c == ' ' || ('\t' <= c <= '\r')
  }

  /** The ASCII characters for which `str.isspace()` holds: those and `\x1c` to `\x1f`. */
  predicate IsSpace(c: char)
  {
    IsIntSpace(c) || ('\U{1C}' <= c <= '\U{1F}')
  }

  /** Which whitespace is trimmed: that of `str.strip()`, or that `int()` skips. */
  datatype Whitespace = StrSpace | IntSpace

  predicate IsWhitespace(w: Whitespace, c: char)
  {
    match w
    case StrSpace => IsSpace(c)
    case IntSpace => IsIntSpace(c)
  }

  /** The number of leading whitespace characters. */
  function LeadingSpaces(w: Whitespace, s: string): (k: nat)
    ensures k <= |s|
    ensures forall i :: 0 <= i < k ==> IsWhitespace(w, s[i])
    ensures k < |s| ==> !IsWhitespace(w, s[k])
  {
    if s == [] || !IsWhitespace(w, s[0]) then 0 else 1 + LeadingSpaces(w, s[1..])
  }

  /** The length of `s` without its trailing whitespace. */
  function TrimmedEnd(w: Whitespace, s: string): (k: nat)
    ensures k <= |s|
    ensures forall i :: k <= i < |s| ==> IsWhitespace(w, s[i])
    ensures k > 0 ==> !IsWhitespace(w, s[k - 1])
  {
    if s == [] || !IsWhitespace(w, s[|s| - 1]) then |s| else TrimmedEnd(w, s[..|s| - 1])
  }

  /** The text between the leading and the trailing whitespace of kind `w`. */
  function Trim(w: Whitespace, s: string): (r: string)
    ensures exists i, j :: 0 <= i <= j <= |s| && r == s[i..j]
                           && (forall k :: 0 <= k < i || j <= k < |s| ==> IsWhitespace(w, s[k]))
    ensures r != [] ==> !IsWhitespace(w, r[0]) && !IsWhitespace(w, r[|r| - 1])
    ensures (s == [] || (!IsWhitespace(w, s[0]) && !IsWhitespace(w, s[|s| - 1]))) ==> r == s
  {
    var e := TrimmedEnd(w, s);
    var b := LeadingSpaces(w, s[..e]);
    assert s[..e][b..] == s[b..e];
    s[..e][b..]
  }

  /** `s.strip()`. */
  function Strip(s: string): string
  {
    Trim(StrSpace, s)
  }

  /** `int()` reads past `\x1c` to `\x1f` no more than past any other character: `"5\x1c"` is no integer. */
  lemma IntSkipsLessThanStrip()
    ensures Strip("5\U{1C}") == "5"
    ensures ParseInt("5\U{1C}") == None
  {
    assert Trim(IntSpace, "5\U{1C}") == "5\U{1C}";
    assert !WellGrouped("5\U{1C}");
  }

  /** `s.startswith(prefix)`. */
  predicate StartsWith(s: string, prefix: string)
  {
    |prefix| <= |s| && s[..|prefix|] == prefix
  }

  /**
   * `s.split(sep)` for a one-character separator: the pieces between separators, always
   * at least one (an empty string splits into one empty piece).
   */
  function Split(s: string, sep: char): (parts: seq<string>)
    ensures |parts| >= 1
    ensures forall i :: 0 <= i < |parts| ==> sep !in parts[i]
    decreases |s|
  {
    if s == [] then [""]
    else
      var rest := Split(s[1..], sep);
      if s[0] == sep then [""] + rest else [[s[0]] + rest[0]] + rest[1..]
  }

  /** `sep.join(parts)`. */
  function Join(parts: seq<string>, sep: char): string
    decreases |parts|
  {
    if |parts| <= 1 then (if parts == [] then "" else parts[0])
    else parts[0] + [sep] + Join(parts[1..], sep)
  }

  /** Joining the pieces of a split gives back the text. */
  lemma {:induction false} JoinSplit(s: string, sep: char)
    ensures Join(Split(s, sep), sep) == s
    decreases |s|
  {
    if s != [] {
      JoinSplit(s[1..], sep);
      var rest := Split(s[1..], sep);
      if s[0] != sep {
        var parts := Split(s, sep);
        assert parts[1..] == rest[1..];
        assert s == [s[0]] + s[1..];
      }
    }
  }

  /** Splitting a join of separator-free pieces gives back the pieces. */
  lemma {:induction false} SplitJoin(parts: seq<string>, sep: char)
    requires |parts| >= 1
    requires forall i :: 0 <= i < |parts| ==> sep !in parts[i]
    ensures Split(Join(parts, sep), sep) == parts
    decreases |parts|
  {
    if |parts| == 1 {
      SplitFree(parts[0], sep);
    } else {
      SplitJoin(parts[1..], sep);
      SplitAfterFree(parts[0], Join(parts[1..], sep), sep);
      assert parts == [parts[0]] + parts[1..];
    }
  }

  /** A text without the separator is one piece. */
  lemma {:induction false} SplitFree(s: string, sep: char)
    requires sep !in s
    ensures Split(s, sep) == [s]
    decreases |s|
  {
    if s != [] {
      SplitFree(s[1..], sep);
      assert s == [s[0]] + s[1..];
    }
  }

  /** A separator-free head followed by a separator is split off as the first piece. */
  lemma {:induction false} SplitAfterFree(head: string, tail: string, sep: char)
    requires sep !in head
    ensures Split(head + [sep] + tail, sep) == [head] + Split(tail, sep)
    decreases |head|
  {
    if head == [] {
      assert head + [sep] + tail == [sep] + tail;
      assert ([sep] + tail)[1..] == tail;
    } else {
      SplitAfterFree(head[1..], tail, sep);
      assert (head + [sep] + tail)[1..] == head[1..] + [sep] + tail;
      assert head == [head[0]] + head[1..];
    }
  }

  // ---------------------------------------------------------------------------------
  // int(str)

  predicate IsDigit(c: char)
  {
    '0' <= c <= '9'
  }

  function DigitValue(c: char): nat
    requires IsDigit(c)
  {
    (c as int) - ('0' as int)
  }

  /** The value of a string of decimal digits. */
  function DigitsValue(s: string): nat
    requires forall i :: 0 <= i < |s| ==> IsDigit(s[i])
    decreases |s|
  {
    if s == [] then 0 else 10 * DigitsValue(s[..|s| - 1]) + DigitValue(s[|s| - 1])
  }

  /** Digits with single underscores between them, as `int()` accepts them. */
  predicate WellGrouped(s: string)
  {
    && s != []
    && IsDigit(s[0]) && IsDigit(s[|s| - 1])
    && (forall i :: 0 <= i < |s| ==> IsDigit(s[i]) || s[i] == '_')
    && (forall i :: 0 <= i < |s| - 1 ==> !(s[i] == '_' && s[i + 1] == '_'))
  }

  function RemoveUnderscores(s: string): (r: string)
    ensures forall i :: 0 <= i < |r| ==> r[i] != '_'
    ensures (forall i :: 0 <= i < |s| ==> IsDigit(s[i]) || s[i] == '_') ==> forall i :: 0 <= i < |r| ==> IsDigit(r[i])
    decreases |s|
  {
    if s == [] then []
    else if s[|s| - 1] == '_' then RemoveUnderscores(s[..|s| - 1])
    else RemoveUnderscores(s[..|s| - 1]) + [s[|s| - 1]]
  }

  /**
   * CPython's default limit on the decimal digits that `int()` reads and `str()` writes
   * (`sys.int_info.default_max_str_digits`); underscores and the sign do not count,
   * leading zeros do.
   */
  const MaxStrDigits: nat := 4300

  /**
   * An unsigned decimal literal, or `None`: `int()` raises on a malformed literal and on one
   * with more than `MaxStrDigits` digits.
   */
  function ParseDigits(s: string): (r: Option<nat>)
    ensures r.Some? <==> WellGrouped(s) && |RemoveUnderscores(s)| <= MaxStrDigits
  {
    if WellGrouped(s) && |RemoveUnderscores(s)| <= MaxStrDigits then Some(DigitsValue(RemoveUnderscores(s)))
    else None
  }

  /** Whether a literal starts with a sign. */
  predicate Signed(t: string)
  {
    t != [] && (t[0] == '-' || t[0] == '+')
  }

  /** Whether a literal starts with a minus sign. */
  predicate Negative(t: string)
  {
    t != [] && t[0] == '-'
  }

  /** A literal without its sign. */
  function Unsigned(t: string): string
  {
    if Signed(t) then t[1..] else t
  }

  /**
   * `int(s)`: surrounding whitespace of the kind `int()` skips (not `\x1c` to `\x1f`), an
   * optional sign, then a decimal literal; `None` where `int` raises. The magnitude is the literal's value and the sign is the literal's sign.
   */
  function ParseInt(s: string): (r: Option<int>)
    ensures r.Some? <==> ParseDigits(Unsigned(Trim(IntSpace, s))).Some?
    ensures r.Some? ==> (if r.value < 0 then -r.value else r.value) == ParseDigits(Unsigned(Trim(IntSpace, s))).value
    ensures r.Some? && r.value < 0 ==> Negative(Trim(IntSpace, s))
    ensures r.Some? && r.value > 0 ==> !Negative(Trim(IntSpace, s))
  {
    var t := Trim(IntSpace, s);
    match ParseDigits(Unsigned(t))
    case None => None
    case Some(n) => if Negative(t) then Some(-(n as int)) else Some(n as int)
  }

  function DigitChar(d: nat): (c: char)
    requires d < 10
    ensures IsDigit(c) && DigitValue(c) == d
  {
    ('0' as int + d) as char
  }

  /** The decimal digits of `n`, most significant first. */
  function ShowNat(n: nat): (s: string)
    ensures s != [] && forall i :: 0 <= i < |s| ==> IsDigit(s[i])
    decreases n
  {
    if n < 10 then [DigitChar(n)] else ShowNat(n / 10) + [DigitChar(n % 10)]
  }

  function Magnitude(n: int): nat
  {
    if n < 0 then -n else n
  }

  /** `str(n)`, without the digit limit: the decimal text of any integer. */
  function Show(n: int): string
  {
    if n < 0 then "-" + ShowNat(-n) else ShowNat(n)
  }

  /** Whether the decimal text of `n` is within the digit limit, so `str(n)` does not raise. */
  predicate Fits(n: int)
  {
    |ShowNat(Magnitude(n))| <= MaxStrDigits
  }

  function Pow10(k: nat): (p: nat)
    ensures p >= 1
  {
    if k == 0 then 1 else 10 * Pow10(k - 1)
  }

  /** `n` has at most `k` decimal digits exactly when it is below `10^k`. */
  lemma {:induction false} ShowNatLength(n: nat, k: nat)
    requires k >= 1
    ensures |ShowNat(n)| <= k <==> n < Pow10(k)
    decreases n
  {
    if n >= 10 {
      if k == 1 {
        assert |ShowNat(n)| == |ShowNat(n / 10)| + 1;
      } else {
        ShowNatLength(n / 10, k - 1);
        assert n / 10 < Pow10(k - 1) <==> n < 10 * Pow10(k - 1);
      }
    } else {
      assert Pow10(k) == 10 * Pow10(k - 1);
    }
  }

  /** The digit limit is the same as `|n| < 10^4300`. */
  lemma FitsRange(n: int)
    ensures Fits(n) <==> Magnitude(n) < Pow10(MaxStrDigits)
  {
    ShowNatLength(Magnitude(n), MaxStrDigits);
  }

  lemma {:induction false} DigitsOfShowNat(n: nat)
    ensures DigitsValue(ShowNat(n)) == n
    decreases n
  {
    if n >= 10 {
      DigitsOfShowNat(n / 10);
      var s := ShowNat(n);
      assert s[..|s| - 1] == ShowNat(n / 10);
    }
  }

  lemma {:induction false} RemoveUnderscoresOfDigits(s: string)
    requires forall i :: 0 <= i < |s| ==> IsDigit(s[i])
    ensures RemoveUnderscores(s) == s
    decreases |s|
  {
    if s != [] {
      RemoveUnderscoresOfDigits(s[..|s| - 1]);
      assert s[..|s| - 1] + [s[|s| - 1]] == s;
    }
  }

  lemma ParseShowNat(m: nat)
    ensures ParseDigits(ShowNat(m)) == if |ShowNat(m)| <= MaxStrDigits then Some(m) else None
  {
    var digits := ShowNat(m);
    DigitsOfShowNat(m);
    RemoveUnderscoresOfDigits(digits);
    assert WellGrouped(digits);
  }

  /** The decimal text of `n` has nothing for `strip` to remove. */
  lemma ShowStripped(n: int)
    ensures Strip(Show(n)) == Show(n)
    ensures Trim(IntSpace, Show(n)) == Show(n)
  {
    ShowShape(n);
  }

  /** The decimal text of `n` is signed by `-` exactly when `n` is negative. */
  lemma ShowSign(n: int)
    ensures Negative(Show(n)) <==> n < 0
    ensures Unsigned(Show(n)) == ShowNat(Magnitude(n))
  {
    assert IsDigit(ShowNat(Magnitude(n))[0]);
  }

  /**
   * `int(str(n)) == n` within the digit limit; beyond it `int()` rejects the decimal text
   * of `n` (where `str(n)` itself would raise).
   */
  lemma ParseShow(n: int)
    ensures ParseInt(Show(n)) == if Fits(n) then Some(n) else None
  {
    ParseShowNat(Magnitude(n));
    ShowStripped(n);
    ShowSign(n);
  }

  /** A digit string without the leading zeros `str` never writes (a lone `0` is kept). */
  function DropLeadingZeros(d: string): (r: string)
    ensures |r| <= |d| && r == d[|d| - |r|..]
    ensures d != [] ==> r != [] && (|r| > 1 ==> r[0] != '0')
    decreases |d|
  {
    if |d| > 1 && d[0] == '0' then DropLeadingZeros(d[1..]) else d
  }

  /** A leading zero does not change the value of a digit string. */
  lemma {:induction false} LeadingZeroValue(d: string)
    requires forall i :: 0 <= i < |d| ==> IsDigit(d[i])
    ensures DigitsValue(['0'] + d) == DigitsValue(d)
    decreases |d|
  {
    if d != [] {
      LeadingZeroValue(d[..|d| - 1]);
      assert (['0'] + d)[..|d|] == ['0'] + d[..|d| - 1];
    }
  }

  /** Dropping leading zeros keeps the value. */
  lemma {:induction false} DropLeadingZerosValue(d: string)
    requires forall i :: 0 <= i < |d| ==> IsDigit(d[i])
    ensures DigitsValue(DropLeadingZeros(d)) == DigitsValue(d)
    decreases |d|
  {
    if |d| > 1 && d[0] == '0' {
      DropLeadingZerosValue(d[1..]);
      LeadingZeroValue(d[1..]);
      assert ['0'] + d[1..] == d;
    }
  }

  /** A digit string that starts with a non-zero digit has a positive value. */
  lemma {:induction false} LeadingNonZeroPositive(d: string)
    requires d != [] && d[0] != '0' && forall i :: 0 <= i < |d| ==> IsDigit(d[i])
    ensures DigitsValue(d) >= 1
    decreases |d|
  {
    if |d| > 1 {
      LeadingNonZeroPositive(d[..|d| - 1]);
    }
  }

  /** `str` gives back a digit string without superfluous leading zeros. */
  lemma {:induction false} ShowNatOfCanonical(d: string)
    requires d != [] && (|d| > 1 ==> d[0] != '0')
    requires forall i :: 0 <= i < |d| ==> IsDigit(d[i])
    ensures ShowNat(DigitsValue(d)) == d
    decreases |d|
  {
    var n := DigitsValue(d);
    var c := d[|d| - 1];
    if |d| == 1 {
      assert DigitChar(DigitValue(c)) == c;
      assert [c] == d;
    } else {
      var front := d[..|d| - 1];
      ShowNatOfCanonical(front);
      LeadingNonZeroPositive(front);
      assert n / 10 == DigitsValue(front) && n % 10 == DigitValue(c);
      assert DigitChar(DigitValue(c)) == c;
      assert front + [c] == d;
    }
  }

  /**
   * What `int` reads from a decimal literal: the number whose `str` is the literal without
   * its underscores and its leading zeros.
   */
  lemma ParseDigitsReadsShow(s: string)
    requires ParseDigits(s).Some?
    ensures ShowNat(ParseDigits(s).value) == DropLeadingZeros(RemoveUnderscores(s))
  {
    var d := RemoveUnderscores(s);
    assert s == s[..|s| - 1] + [s[|s| - 1]];
    assert d == RemoveUnderscores(s[..|s| - 1]) + [s[|s| - 1]];
    DropLeadingZerosValue(d);
    var r := DropLeadingZeros(d);
    assert forall i :: 0 <= i < |r| ==> r[i] == d[|d| - |r| + i];
    ShowNatOfCanonical(r);
  }

  /** `str(n)` has no whitespace at either end and no comma. */
  lemma ShowShape(n: int)
    ensures Show(n) != [] && !IsSpace(Show(n)[0]) && !IsSpace(Show(n)[|Show(n)| - 1])
    ensures ',' !in Show(n)
  {
    var m: nat := if n < 0 then -n else n;
    var digits := ShowNat(m);
    assert forall c :: c in digits ==> IsDigit(c);
  }
}
