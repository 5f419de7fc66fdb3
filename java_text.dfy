/** The java.lang.String, Character and number-parsing behaviour that the
    interceptors depend on, written out so that their quirks are visible:
    `isBlank`, `trim`, `toLowerCase`, `split` (which drops trailing empty
    fields), `Integer.parseInt`, `Long.parseLong`, `Byte.parseByte` and
    `Integer.toString`. */
module JavaText {
  import opened Lang

  // ---------------------------------------------------------------------------
  // Characters

  /** `Character.isWhitespace`: the Unicode space, line and paragraph
      separators except the three non-breaking spaces, and the ASCII controls
      TAB, LF, VT, FF, CR and FS, GS, RS, US. */
  predicate IsJavaWhitespace(c: char) {
    || c == ' '
    || '\t' <= c <= '\r'
    || '\U{1C}' <= c <= '\U{1F}'
    || c == '\U{1680}'
    || ('\U{2000}' <= c <= '\U{200A}' && c != '\U{2007}')
    || c == '\U{2028}' || c == '\U{2029}' || c == '\U{205F}' || c == '\U{3000}'
  }

  /** `Character.toLowerCase` on the ASCII letters. */
  function LowerChar(c: char): char {
    if 'A' <= c <= 'Z' then (c as int + 32) as char else c
  }

  predicate IsDecimalDigit(c: char) { '0' <= c <= '9' }

  predicate IsLowerHexDigit(c: char) { '0' <= c <= '9' || 'a' <= c <= 'f' }

  /** `Character.digit(c, radix)` on ASCII characters, for 2 <= radix <= 36. */
  function DigitValue(c: char, radix: nat): (r: Option<nat>)
    ensures r.Some? ==> r.value < radix
  {
    var v :=
      if '0' <= c <= '9' then c as int - '0' as int
      else if 'a' <= c <= 'z' then c as int - 'a' as int + 10
      else if 'A' <= c <= 'Z' then c as int - 'A' as int + 10
      else -1;
    if 0 <= v < radix then Some(v) else None
  }

  /** The lower-case digit character for `d`, as `Character.forDigit` and the
      hex encoders of the tracing library write it. */
  function DigitChar(d: nat): (c: char)
    requires d < 16
    ensures DigitValue(c, 16) == Some(d)
    ensures IsLowerHexDigit(c)
    ensures d < 10 ==> IsDecimalDigit(c) && DigitValue(c, 10) == Some(d)
  {
    if d < 10 then ('0' as int + d) as char else ('a' as int + d - 10) as char
  }

  // ---------------------------------------------------------------------------
  // Strings

  /** `String.isBlank`: empty, or white space only. */
  predicate IsBlank(s: string) {
    forall i :: 0 <= i < |s| ==> IsJavaWhitespace(s[i])
  }

  predicate IsLowerHex(s: string) {
    forall i :: 0 <= i < |s| ==> IsLowerHexDigit(s[i])
  }

  /** The guard `s == null || s.isBlank()`. */
  predicate IsNullOrBlank(s: Option<string>) {
    s.None? || IsBlank(s.value)
  }

  /** `String.toLowerCase`, on ASCII letters. */
  function Lower(s: string): (r: string)
    ensures |r| == |s|
    ensures forall i :: 0 <= i < |r| ==> !('A' <= r[i] <= 'Z')
    ensures forall i :: 0 <= i < |s| && !('A' <= s[i] <= 'Z') ==> r[i] == s[i]
  {
    seq(|s|, i requires 0 <= i < |s| => LowerChar(s[i]))
  }

  /** Drops the leading characters at or below U+0020. */
  function TrimStart(s: string): (r: string)
    ensures |r| <= |s| && r == s[|s| - |r|..]
    ensures forall i :: 0 <= i < |s| - |r| ==> s[i] <= ' '
    ensures r == [] || r[0] > ' '
  {
    if |s| > 0 && s[0] <= ' ' then TrimStart(s[1..]) else s
  }

  /** Drops the trailing characters at or below U+0020. */
  function TrimEnd(s: string): (r: string)
    ensures |r| <= |s| && r == s[..|r|]
    ensures forall i :: |r| <= i < |s| ==> s[i] <= ' '
    ensures r == [] || r[|r| - 1] > ' '
  {
    if |s| > 0 && s[|s| - 1] <= ' ' then TrimEnd(s[..|s| - 1]) else s
  }

  /** `String.trim`: the longest infix that neither starts nor ends with a
      character at or below U+0020. */
  function Trim(s: string): (r: string)
    ensures r == [] || (r[0] > ' ' && r[|r| - 1] > ' ')
  {
    TrimEnd(TrimStart(s))
  }

  /** What `trim` cuts off: the result is the slice `s[a..b]`, and every
      character before `a` or from `b` on is at or below U+0020. */
  lemma TrimCutsBlankEnds(s: string)
    ensures var a := |s| - |TrimStart(s)|;
            var b := a + |Trim(s)|;
            && b <= |s| && Trim(s) == s[a..b]
            && (forall i :: 0 <= i < a ==> s[i] <= ' ')
            && (forall i :: b <= i < |s| ==> s[i] <= ' ')
  {
    var t := TrimStart(s);
    var a := |s| - |t|;
    forall i | a + |Trim(s)| <= i < |s|
      ensures s[i] <= ' '
    {
      assert s[i] == t[i - a];
    }
  }

  // ---------------------------------------------------------------------------
  // Splitting on one delimiter character

  /** Every field between occurrences of `d`, empty fields included. */
  function SplitAll(s: string, d: char): (fields: seq<string>)
    ensures |fields| >= 1
  {
    if |s| == 0 then [""]
    else if s[0] == d then [""] + SplitAll(s[1..], d)
    else
      var rest := SplitAll(s[1..], d);
      [[s[0]] + rest[0]] + rest[1..]
  }

  /** `fields` written out with `d` between consecutive fields. */
  function Join(fields: seq<string>, d: char): string
  {
    if |fields| == 0 then ""
    else if |fields| == 1 then fields[0]
    else fields[0] + [d] + Join(fields[1..], d)
  }

  /** Removes the empty fields at the end of `fields`. */
  function DropTrailingEmpty(fields: seq<string>): (r: seq<string>)
    ensures |r| <= |fields| && r == fields[..|r|]
    ensures forall i :: |r| <= i < |fields| ==> fields[i] == ""
    ensures r == [] || r[|r| - 1] != ""
  {
    if |fields| > 0 && fields[|fields| - 1] == "" then DropTrailingEmpty(fields[..|fields| - 1])
    else fields
  }

  /** `String.split(d)` with the default limit 0: a string without `d` is
      returned whole, otherwise the fields are cut and trailing empty ones
      are dropped (so "a--" gives ["a"] and "---" gives []). */
  function JavaSplit(s: string, d: char): (parts: seq<string>)
    ensures |parts| <= |SplitAll(s, d)| && parts == SplitAll(s, d)[..|parts|]
    ensures forall i :: |parts| <= i < |SplitAll(s, d)| ==> SplitAll(s, d)[i] == ""
    ensures d !in s ==> parts == [s]
    ensures d in s ==> parts == [] || parts[|parts| - 1] != ""
  {
    if d !in s then SplitWithoutDelimiter(s, d); [s]
    else DropTrailingEmpty(SplitAll(s, d))
  }

  lemma {:induction false} SplitWithoutDelimiter(s: string, d: char)
    requires d !in s
    ensures SplitAll(s, d) == [s]
  {
    if |s| > 0 {
      assert s[0] != d && d !in s[1..];
      SplitWithoutDelimiter(s[1..], d);
      assert [s[0]] + s[1..] == s;
    }
  }

  /** A leading field without the delimiter is cut off as the first field. */
  lemma {:induction false} SplitLeadingField(a: string, d: char, b: string)
    requires d !in a
    ensures SplitAll(a + [d] + b, d) == [a] + SplitAll(b, d)
  {
    var s := a + [d] + b;
    if |a| == 0 {
      assert s[1..] == b;
    } else {
      assert s[1..] == a[1..] + [d] + b;
      assert d !in a[1..];
      SplitLeadingField(a[1..], d, b);
      assert [a[0]] + a[1..] == a;
    }
  }

  /** Splitting undoes joining when no field holds the delimiter. */
  lemma {:induction false} SplitJoin(fields: seq<string>, d: char)
    requires |fields| >= 1
    requires forall i :: 0 <= i < |fields| ==> d !in fields[i]
    ensures SplitAll(Join(fields, d), d) == fields
  {
    if |fields| == 1 {
      SplitWithoutDelimiter(fields[0], d);
    } else {
      SplitJoin(fields[1..], d);
      SplitLeadingField(fields[0], d, Join(fields[1..], d));
    }
  }

  // ---------------------------------------------------------------------------
  // Numbers

  /** The value of a digit string in `radix`, or none if some character is not
      a digit (the empty string has value 0; callers reject it). */
  function DigitsValue(s: string, radix: nat): Option<nat>
  {
    if |s| == 0 then Some(0)
    else
      match DigitsValue(s[..|s| - 1], radix)
      case None => None
      case Some(high) =>
        match DigitValue(s[|s| - 1], radix)
        case None => None
        case Some(low) => Some(high * radix + low)
  }

  /** The value `Integer.parseInt` and `Long.parseLong` compute before their
      range check: an optional '+' or '-', then at least one digit. */
  function ParseSigned(s: string, radix: nat): Option<int>
  {
    if |s| == 0 then None
    else if s[0] == '-' || s[0] == '+' then
      if |s| == 1 then None
      else
        match DigitsValue(s[1..], radix)
        case None => None
        case Some(v) =>
          var signed: int := if s[0] == '-' then -(v as int) else v;
          Some(signed)
    else
      match DigitsValue(s, radix)
      case None => None
      case Some(v) => Some(v)
  }

  const MinInt := -0x8000_0000
  const MaxInt := 0x7fff_ffff
  const MinLong := -0x8000_0000_0000_0000
  const MaxLong := 0x7fff_ffff_ffff_ffff

  /** `Integer.parseInt(s, radix)`; none stands for NumberFormatException. */
  function ParseInt(s: string, radix: nat): (r: Option<int>)
    ensures r.Some? ==> MinInt <= r.value <= MaxInt
  {
    match ParseSigned(s, radix)
    case Some(v) => if MinInt <= v <= MaxInt then Some(v) else None
    case None => None
  }

  /** `Long.parseLong(s)`; none stands for NumberFormatException. */
  function ParseLong(s: string): (r: Option<int>)
    ensures r.Some? ==> MinLong <= r.value <= MaxLong
  {
    match ParseSigned(s, 10)
    case Some(v) => if MinLong <= v <= MaxLong then Some(v) else None
    case None => None
  }

  /** `Byte.parseByte(s, radix)`: `Integer.parseInt`, then a check that the
      value fits a signed byte; none stands for NumberFormatException. */
  function ParseByte(s: string, radix: nat): (r: Option<int>)
    ensures r.Some? ==> -128 <= r.value <= 127
  {
    match ParseInt(s, radix)
    case Some(v) => if -128 <= v <= 127 then Some(v) else None
    case None => None
  }

  /** The decimal digits of `n`, without leading zeros. */
  function Decimal(n: nat): (s: string)
    ensures |s| >= 1
    ensures forall i :: 0 <= i < |s| ==> IsDecimalDigit(s[i])
  {
    if n < 10 then [DigitChar(n)] else Decimal(n / 10) + [DigitChar(n % 10)]
  }

  /** `Integer.toString` / `Long.toString`. */
  function IntToString(i: int): (s: string)
    ensures |s| >= 1 && (s[0] == '-' <==> i < 0)
    ensures forall k :: 1 <= k < |s| ==> IsDecimalDigit(s[k])
  {
    if i < 0 then "-" + Decimal(-i) else Decimal(i)
  }

  lemma {:induction false} DecimalValue(n: nat)
    ensures DigitsValue(Decimal(n), 10) == Some(n)
  {
    var s := Decimal(n);
    if n < 10 {
      assert s[..|s| - 1] == [];
    } else {
      assert s[..|s| - 1] == Decimal(n / 10);
      DecimalValue(n / 10);
    }
  }

  /** `Long.parseLong` reads back what `Long.toString` writes. */
  lemma ParseLongIntToString(n: int)
    requires MinLong <= n <= MaxLong
    ensures ParseLong(IntToString(n)) == Some(n)
  {
    var s := IntToString(n);
    if n < 0 {
      assert s[1..] == Decimal(-n);
      DecimalValue(-n);
    } else {
      assert IsDecimalDigit(s[0]);
      DecimalValue(n);
    }
  }
}
