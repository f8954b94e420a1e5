/**
 * String helpers with the semantics of the Go and JavaScript library calls the
 * core relies on: strings.Split, strings.Join, strings.TrimSpace,
 * strings.LastIndex, strings.HasPrefix, strconv.Atoi, fmt.Sscanf with "%d",
 * fmt's "%d" and "%v" of an int or a bool, and String.prototype.trim.
 * Characters stand for code points, so a length counts characters where Go
 * counts bytes; the two agree on ASCII text.
 */
module Text {
  import opened Wrappers

  const MaxInt64: int := 0x7FFF_FFFF_FFFF_FFFF
  const MinInt64: int := -0x8000_0000_0000_0000
  const MaxUint64: int := 0xFFFF_FFFF_FFFF_FFFF

  predicate IsInt64(n: int) {
    MinInt64 <= n <= MaxInt64
  }

  /** Go's `int` arithmetic on a 64-bit platform: wrap-around modulo 2^64. */
  function Wrap64(n: int): (r: int)
    ensures IsInt64(r)
    ensures IsInt64(n) ==> r == n
    ensures (r - n) % 0x1_0000_0000_0000_0000 == 0
  {
    (n - MinInt64) % 0x1_0000_0000_0000_0000 + MinInt64
  }

  /** The value strconv.ParseInt reports for an out-of-range decimal: the nearest bound. */
  function ClampInt64(n: int): (r: int)
    ensures IsInt64(r)
    ensures IsInt64(n) ==> r == n
  {
    if n > MaxInt64 then MaxInt64 else if n < MinInt64 then MinInt64 else n
  }

  // ---------------------------------------------------------------- digits

  predicate IsDigit(c: char) {
    '0' <= c <= '9'
  }

  predicate AllDigits(s: string) {
    forall i :: 0 <= i < |s| ==> IsDigit(s[i])
  }

  function DigitValue(c: char): (d: nat)
    requires IsDigit(c)
    ensures d < 10
  {
    c as int - '0' as int
  }

  function DigitChar(d: nat): (c: char)
    requires d < 10
    ensures IsDigit(c) && DigitValue(c) == d
  {
    ('0' as int + d) as char
  }

  /** The value of a string of decimal digits, most significant first. */
  function DecimalValue(s: string): nat
    requires AllDigits(s)
  {
    if s == [] then 0 else DecimalValue(s[..|s| - 1]) * 10 + DigitValue(s[|s| - 1])
  }

  /** The shortest decimal digits of a natural number, as fmt's "%d" writes them. */
  function NatToDigits(n: nat): (s: string)
    ensures |s| >= 1 && AllDigits(s)
    ensures DecimalValue(s) == n
    ensures s[0] == '0' ==> n == 0
  {
    if n < 10 then [DigitChar(n)]
    else
      var high := NatToDigits(n / 10);
      var s := high + [DigitChar(n % 10)];
      assert s[..|s| - 1] == high;
      s
  }

  /** fmt's "%d" of an int. */
  function IntToString(n: int): (s: string)
    ensures |s| >= 1
    ensures n >= 0 <==> IsDigit(s[0])
  {
    if n < 0 then "-" + NatToDigits(-n) else NatToDigits(n)
  }

  /** fmt's "%v" of a bool. */
  function BoolToString(b: bool): (s: string)
    ensures s == "true" || s == "false"
    ensures b <==> s == "true"
  {
    if b then "true" else "false"
  }

  lemma {:induction false} DecimalValueInjective(s: string, t: string)
    requires |s| >= 1 && AllDigits(s) && |t| >= 1 && AllDigits(t)
    requires s[0] != '0' || |s| == 1
    requires t[0] != '0' || |t| == 1
    requires DecimalValue(s) == DecimalValue(t)
    ensures s == t
  {
    if |s| == 1 && |t| == 1 {
    } else if |s| == 1 {
      DecimalValueLowerBound(t);
    } else if |t| == 1 {
      DecimalValueLowerBound(s);
    } else {
      var s', t' := s[..|s| - 1], t[..|t| - 1];
      assert DecimalValue(s) == DecimalValue(s') * 10 + DigitValue(s[|s| - 1]);
      assert DecimalValue(t) == DecimalValue(t') * 10 + DigitValue(t[|t| - 1]);
      assert DecimalValue(s') == DecimalValue(t') && DigitValue(s[|s| - 1]) == DigitValue(t[|t| - 1]);
      DecimalValueInjective(s', t');
      assert s == s' + [s[|s| - 1]] && t == t' + [t[|t| - 1]];
    }
  }

  /** A digit string of length at least two that does not start with 0 is worth at least 10. */
  lemma {:induction false} DecimalValueLowerBound(s: string)
    requires |s| >= 2 && AllDigits(s) && s[0] != '0'
    ensures DecimalValue(s) >= 10
  {
    var s' := s[..|s| - 1];
    if |s'| >= 2 {
      DecimalValueLowerBound(s');
    } else {
      assert DigitValue(s'[0]) >= 1;
      assert DecimalValue(s') == DecimalValue(s'[..0]) * 10 + DigitValue(s'[0]);
    }
  }

  /** "%d" loses no information: distinct ints are written differently. */
  lemma IntToStringInjective(a: int, b: int)
    requires IntToString(a) == IntToString(b)
    ensures a == b
  {
    if a < 0 && b < 0 {
      var da, db := NatToDigits(-a), NatToDigits(-b);
      assert IntToString(a) == "-" + da && IntToString(b) == "-" + db;
      assert da == IntToString(a)[1..] && db == IntToString(b)[1..];
      DecimalValueInjectiveFromDigits(-a, -b);
    } else if a >= 0 && b >= 0 {
      DecimalValueInjectiveFromDigits(a, b);
    }
  }

  lemma DecimalValueInjectiveFromDigits(a: nat, b: nat)
    requires NatToDigits(a) == NatToDigits(b)
    ensures a == b
  {
    assert DecimalValue(NatToDigits(a)) == a;
  }

  // ------------------------------------------------------- number scanning

  /** The longest prefix of `s` made of decimal digits. */
  function DigitPrefix(s: string): (d: string)
    ensures |d| <= |s| && d == s[..|d|] && AllDigits(d)
    ensures |d| < |s| ==> !IsDigit(s[|d|])
  {
    if |s| > 0 && IsDigit(s[0]) then [s[0]] + DigitPrefix(s[1..]) else []
  }

  lemma {:induction false} DigitPrefixOfDigits(d: string, rest: string)
    requires AllDigits(d)
    requires |rest| > 0 ==> !IsDigit(rest[0])
    ensures DigitPrefix(d + rest) == d
  {
    if d != [] {
      assert (d + rest)[1..] == d[1..] + rest;
      DigitPrefixOfDigits(d[1..], rest);
      assert [d[0]] + d[1..] == d;
    }
  }

  /** An optional leading '+' or '-': whether it is '-', and what follows it. */
  function SplitSign(s: string): (r: (bool, string))
    ensures r.1 == s || (|s| > 0 && (s[0] == '+' || s[0] == '-') && r.1 == s[1..])
  {
    if |s| > 0 && (s[0] == '-' || s[0] == '+') then (s[0] == '-', s[1..]) else (false, s)
  }

  /**
   * strconv.Atoi with its error discarded, as `round, _ := strconv.Atoi(s)` does.
   * After an optional sign, ParseUint reads the digits one by one and stops at
   * whichever comes first: a character that is not a digit (a syntax error,
   * value 0) or a value above 2^64 - 1 (a range error, which ParseInt turns
   * into the int64 bound of the sign). A clean run of digits is clamped to
   * int64 by ParseInt. Strings shorter than 19 bytes take Atoi's fast path,
   * which holds at most 18 digits, cannot overflow and gives the same values.
   */
  function Atoi(s: string): (v: int)
    ensures IsInt64(v)
  {
    var (neg, body) := SplitSign(s);
    var run := DigitPrefix(body);
    if |body| == 0 then 0
    else if DecimalValue(run) > MaxUint64 then (if neg then MinInt64 else MaxInt64)
    else if |run| < |body| then 0
    else
      var magnitude: int := DecimalValue(body);
      ClampInt64(if neg then -magnitude else magnitude)
  }

  /**
   * strconv.Atoi fails on anything but an optionally signed, non-empty run of
   * digits (an empty string, a lone sign, a space or a trailing newline); the
   * discarded error leaves 0, unless the digits before the offending character
   * already overflowed 64 bits.
   */
  lemma AtoiSyntaxError(s: string)
    requires var body := SplitSign(s).1;
             |body| == 0 || (!AllDigits(body) && DecimalValue(DigitPrefix(body)) <= MaxUint64)
    ensures Atoi(s) == 0
  {
  }

  /**
   * A run of digits past 2^64 - 1 is a range error, whatever follows it: Atoi
   * gives the int64 bound of the sign.
   */
  lemma AtoiRangeError(s: string)
    requires DecimalValue(DigitPrefix(SplitSign(s).1)) > MaxUint64
    ensures Atoi(s) == if SplitSign(s).0 then MinInt64 else MaxInt64
  {
  }

  /** The digits of a number past 2^64 - 1 followed by any non-digit text read as MaxInt64, or MinInt64 after '-'. */
  lemma AtoiOverflowThenJunk(n: nat, junk: string)
    requires n > MaxUint64
    requires junk != [] && !IsDigit(junk[0])
    ensures Atoi(NatToDigits(n) + junk) == MaxInt64
    ensures Atoi("-" + NatToDigits(n) + junk) == MinInt64
  {
    var d := NatToDigits(n);
    DigitPrefixOfDigits(d, junk);
    assert (d + junk)[0] == d[0] && IsDigit(d[0]);
    assert SplitSign(d + junk) == (false, d + junk);
    assert ("-" + d + junk)[1..] == d + junk;
    assert SplitSign("-" + d + junk) == (true, d + junk);
    AtoiRangeError(d + junk);
    AtoiRangeError("-" + d + junk);
  }

  /** The counter text "99999999999999999999x" reads as MaxInt64, not 0. */
  lemma AtoiOverflowExample()
    ensures Atoi(NatToDigits(99999999999999999999) + "x") == MaxInt64
  {
    AtoiOverflowThenJunk(99999999999999999999, "x");
  }

  /** strconv.Atoi of a run of digits, unsigned, with '+' and with '-': its value, clamped to int64. */
  lemma AtoiDigits(d: string)
    requires |d| > 0 && AllDigits(d)
    ensures Atoi(d) == ClampInt64(DecimalValue(d))
    ensures Atoi("+" + d) == ClampInt64(DecimalValue(d))
    ensures Atoi("-" + d) == ClampInt64(-(DecimalValue(d) as int))
  {
    assert !IsDigit('+') && !IsDigit('-') && IsDigit(d[0]);
    DigitPrefixOfDigits(d, []);
    assert d + [] == d;
    assert SplitSign(d) == (false, d);
    assert ("+" + d)[0] == '+' && ("+" + d)[1..] == d;
    assert SplitSign("+" + d) == (false, d);
    assert ("-" + d)[0] == '-' && ("-" + d)[1..] == d;
    assert SplitSign("-" + d) == (true, d);
  }

  /** A counter written with a trailing newline, or a doubled sign, does not parse. */
  lemma AtoiRejects()
    ensures Atoi("7\n") == 0 && Atoi("") == 0 && Atoi("-") == 0 && Atoi("+-1") == 0 && Atoi(" 1") == 0
  {
    assert SplitSign("7\n") == (false, "7\n") && !IsDigit("7\n"[1]);
    assert DigitPrefix("7\n") == "7";
    AtoiSyntaxError("7\n");
    AtoiSyntaxError("-");
    assert SplitSign("+-1").1 == "-1" && !IsDigit("-1"[0]);
    assert DigitPrefix("-1") == [];
    AtoiSyntaxError("+-1");
    assert SplitSign(" 1") == (false, " 1") && !IsDigit(" 1"[0]);
    assert DigitPrefix(" 1") == [];
    AtoiSyntaxError(" 1");
  }

  /**
   * fmt.Sscanf(s, "%d", &v): an optional sign, then the longest run of digits
   * (input after it is left unread); None when there is no digit or the value
   * does not fit an int64. Leading white space is not skipped in this model.
   */
  function ScanInt(s: string): (r: Option<int>)
    ensures r.Some? ==> IsInt64(r.value)
  {
    var (neg, body) := SplitSign(s);
    var d := DigitPrefix(body);
    if |d| == 0 then None
    else
      var magnitude: int := DecimalValue(d);
      var v := if neg then -magnitude else magnitude;
      if IsInt64(v) then Some(v) else None
  }

  /** strconv.Atoi reads back what "%d" wrote, for every int64. */
  lemma AtoiOfIntToString(n: int)
    requires IsInt64(n)
    ensures Atoi(IntToString(n)) == n
  {
    var s := IntToString(n);
    if n < 0 {
      assert s[0] == '-' && s[1..] == NatToDigits(-n);
      DigitPrefixOfDigits(NatToDigits(-n), []);
      assert NatToDigits(-n) + [] == NatToDigits(-n);
    } else {
      assert SplitSign(s) == (false, s);
      DigitPrefixOfDigits(s, []);
      assert s + [] == s;
    }
  }

  /** fmt.Sscanf with "%d" reads back what "%d" wrote, for every int64. */
  lemma ScanIntOfIntToString(n: int)
    requires IsInt64(n)
    ensures ScanInt(IntToString(n)) == Some(n)
  {
    var s := IntToString(n);
    if n < 0 {
      var d := NatToDigits(-n);
      assert s[1..] == d;
      DigitPrefixOfDigits(d, []);
      assert d + [] == d;
    } else {
      assert SplitSign(s) == (false, s);
      DigitPrefixOfDigits(s, []);
      assert s + [] == s;
    }
  }

  // ------------------------------------------------------------- white space

  /** Go's unicode.IsSpace, used by strings.TrimSpace. */
  predicate IsGoSpace(c: char) {
    c == '\t' || c == '\n' || c == '\U{000B}' || c == '\U{000C}' || c == '\r' || c == ' '
    || c == '\U{0085}' || c == '\U{00A0}' || c == '\U{1680}'
    || ('\U{2000}' <= c <= '\U{200A}')
    || c == '\U{2028}' || c == '\U{2029}' || c == '\U{202F}' || c == '\U{205F}' || c == '\U{3000}'
  }

  /** The white space and line terminators that JavaScript's String.prototype.trim removes. */
  predicate IsJsSpace(c: char) {
    c == '\t' || c == '\n' || c == '\U{000B}' || c == '\U{000C}' || c == '\r' || c == ' '
    || c == '\U{00A0}' || c == '\U{1680}'
    || ('\U{2000}' <= c <= '\U{200A}')
    || c == '\U{2028}' || c == '\U{2029}' || c == '\U{202F}' || c == '\U{205F}' || c == '\U{3000}'
    || c == '\U{FEFF}'
  }

  function TrimLeft(s: string, space: char -> bool): (r: string)
    ensures |r| <= |s| && r == s[|s| - |r|..]
    ensures r != [] ==> !space(r[0])
    ensures forall i :: 0 <= i < |s| - |r| ==> space(s[i])
  {
    if |s| > 0 && space(s[0]) then TrimLeft(s[1..], space) else s
  }

  function TrimRight(s: string, space: char -> bool): (r: string)
    ensures |r| <= |s| && r == s[..|r|]
    ensures r != [] ==> !space(r[|r| - 1])
    ensures forall i :: |r| <= i < |s| ==> space(s[i])
  {
    if |s| > 0 && space(s[|s| - 1]) then TrimRight(s[..|s| - 1], space) else s
  }

  /** Both ends stripped of the characters `space` accepts. */
  function Trim(s: string, space: char -> bool): (r: string)
    ensures |r| <= |s|
    ensures r != [] ==> !space(r[0]) && !space(r[|r| - 1])
    ensures r == [] <==> forall i :: 0 <= i < |s| ==> space(s[i])
  {
    var left := TrimLeft(s, space);
    TrimRight(left, space)
  }

  /** strings.TrimSpace. */
  function TrimSpace(s: string): string {
    Trim(s, IsGoSpace)
  }

  /** TrimSpace leaves a string alone when neither end is white space. */
  lemma TrimSpaceOfUnpadded(s: string)
    requires s != [] ==> !IsGoSpace(s[0]) && !IsGoSpace(s[|s| - 1])
    ensures TrimSpace(s) == s
  {
    assert TrimLeft(s, IsGoSpace) == s;
  }

  // -------------------------------------------------------- split and join

  /** strings.Split(s, sep) for a one-character separator: never empty, "" gives [""]. */
  function Split(s: string, sep: char): (parts: seq<string>)
    ensures |parts| >= 1
    ensures forall i :: 0 <= i < |parts| ==> sep !in parts[i]
  {
    if |s| == 0 then [""]
    else if s[0] == sep then [""] + Split(s[1..], sep)
    else
      var rest := Split(s[1..], sep);
      [[s[0]] + rest[0]] + rest[1..]
  }

  /** strings.Join(parts, sep). */
  function Join(parts: seq<string>, sep: string): string {
    if parts == [] then "" else if |parts| == 1 then parts[0]
    else parts[0] + sep + Join(parts[1..], sep)
  }

  lemma {:induction false} SplitWithoutSeparator(s: string, sep: char)
    requires sep !in s
    ensures Split(s, sep) == [s]
  {
    if |s| > 0 {
      SplitWithoutSeparator(s[1..], sep);
      assert [s[0]] + s[1..] == s;
    }
  }

  /** Splitting at a separator splits the two sides independently. */
  lemma {:induction false} SplitAtSeparator(a: string, sep: char, b: string)
    ensures Split(a + [sep] + b, sep) == Split(a, sep) + Split(b, sep)
  {
    if |a| == 0 {
      assert a + [sep] + b == [sep] + b;
      assert ([sep] + b)[1..] == b;
    } else {
      var s := a + [sep] + b;
      assert s[0] == a[0] && s[1..] == a[1..] + [sep] + b;
      SplitAtSeparator(a[1..], sep, b);
      if a[0] == sep {
      } else {
        var rest := Split(a[1..], sep);
        assert Split(a, sep) == [[a[0]] + rest[0]] + rest[1..];
        assert (rest + Split(b, sep))[0] == rest[0];
        assert (rest + Split(b, sep))[1..] == rest[1..] + Split(b, sep);
      }
    }
  }

  /** Join with a one-character separator is undone by Split, when no part holds the separator. */
  lemma {:induction false} SplitOfJoin(parts: seq<string>, sep: char)
    requires |parts| >= 1
    requires forall i :: 0 <= i < |parts| ==> sep !in parts[i]
    ensures Split(Join(parts, [sep]), sep) == parts
  {
    if |parts| == 1 {
      SplitWithoutSeparator(parts[0], sep);
    } else {
      SplitOfJoin(parts[1..], sep);
      SplitAtSeparator(parts[0], sep, Join(parts[1..], [sep]));
      SplitWithoutSeparator(parts[0], sep);
      assert [parts[0]] + parts[1..] == parts;
    }
  }

  // -------------------------------------------------------------- searching

  predicate HasPrefix(s: string, prefix: string) {
    |prefix| <= |s| && s[..|prefix|] == prefix
  }

  /** strings.LastIndex(s, c) for a one-character needle: -1 when absent. */
  function LastIndexOf(s: string, c: char): (r: int)
    ensures -1 <= r < |s|
    ensures r >= 0 ==> s[r] == c
    ensures forall k :: r < k < |s| ==> s[k] != c
  {
    if |s| == 0 then -1
    else if s[|s| - 1] == c then |s| - 1
    else LastIndexOf(s[..|s| - 1], c)
  }

  lemma AppendAssoc<T>(a: seq<T>, b: seq<T>, c: seq<T>)
    ensures a + b + c == a + (b + c)
  {
  }

  /** Appending a line and its newline to `t + earlier` gives `t + later` when `later` is `earlier` plus that line. */
  lemma AppendLine(t: string, earlier: string, line: string, later: string)
    requires later == earlier + (line + "\n")
    ensures t + earlier + line + "\n" == t + later
  {
    AppendAssoc(t + earlier, line, "\n");
    AppendAssoc(t, earlier, line + "\n");
  }
}
