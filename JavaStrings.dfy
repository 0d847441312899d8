/**
  The pieces of java.lang.String and java.lang.Integer that the log parser
  relies on, stated for Dafny strings (seq<char>):

  - `Split`       : `s.split(",")` — split on every comma, then drop the
                    trailing empty strings; an empty input gives one empty field.
  - `Trim`        : `s.trim()` — drop leading and trailing characters whose code
                    is at most U+0020.
  - `ToLowerCase` : `s.toLowerCase()`, for the ASCII letters.
  - `ParseInt`    : `Integer.parseInt(s)` — optional sign, decimal digits,
                    32-bit range; `None` stands for the NumberFormatException.
*/
module JavaStrings {

  datatype Option<+T> = None | Some(value: T)

  // ---------------------------------------------------------------------------
  // Splitting on a one-character delimiter
  // ---------------------------------------------------------------------------

  /** The pieces glued back together with `sep` between neighbours. */
  function Join(parts: seq<string>, sep: char): string
    decreases |parts|
  {
    if |parts| == 0 then ""
    else if |parts| == 1 then parts[0]
    else parts[0] + [sep] + Join(parts[1..], sep)
  }

  /** Splitting on every `sep`, keeping every empty piece (one more piece than separators). */
  function RawSplit(s: string, sep: char): (parts: seq<string>)
    ensures |parts| >= 1
    ensures forall i :: 0 <= i < |parts| ==> sep !in parts[i]
    decreases |s|
  {
    if |s| == 0 then [""]
    else
      var rest := RawSplit(s[1..], sep);
      if s[0] == sep then [""] + rest
      else [[s[0]] + rest[0]] + rest[1..]
  }

  lemma JoinCons(p: string, rest: seq<string>, sep: char)
    requires |rest| >= 1
    ensures Join([p] + rest, sep) == p + [sep] + Join(rest, sep)
  {
    assert ([p] + rest)[1..] == rest;
  }

  /** Gluing the raw pieces back together gives the input. */
  lemma {:induction false} JoinRawSplit(s: string, sep: char)
    ensures Join(RawSplit(s, sep), sep) == s
    decreases |s|
  {
    if |s| > 0 {
      var rest := RawSplit(s[1..], sep);
      JoinRawSplit(s[1..], sep);
      if s[0] == sep {
        JoinCons("", rest, sep);
      } else if |rest| == 1 {
        assert RawSplit(s, sep) == [[s[0]] + rest[0]];
      } else {
        JoinCons(rest[0], rest[1..], sep);
        assert rest == [rest[0]] + rest[1..];
        JoinCons([s[0]] + rest[0], rest[1..], sep);
        assert RawSplit(s, sep) == [[s[0]] + rest[0]] + rest[1..];
      }
    }
  }

  /** A piece that holds no separator is split off whole. */
  lemma {:induction false} RawSplitPiece(p: string, tail: string, sep: char)
    requires sep !in p
    ensures RawSplit(p + [sep] + tail, sep) == [p] + RawSplit(tail, sep)
    decreases |p|
  {
    if |p| == 0 {
      assert p + [sep] + tail == [sep] + tail;
      assert ([sep] + tail)[1..] == tail;
    } else {
      assert (p + [sep] + tail)[1..] == p[1..] + [sep] + tail;
      RawSplitPiece(p[1..], tail, sep);
      assert [p[0]] + p[1..] == p;
    }
  }

  /** A string without separators is one piece. */
  lemma {:induction false} RawSplitNoSeparator(p: string, sep: char)
    requires sep !in p
    ensures RawSplit(p, sep) == [p]
    decreases |p|
  {
    if |p| > 0 {
      RawSplitNoSeparator(p[1..], sep);
      assert [p[0]] + p[1..] == p;
    }
  }

  /** Splitting undoes joining, for pieces free of the separator. */
  lemma {:induction false} RawSplitJoin(parts: seq<string>, sep: char)
    requires |parts| >= 1
    requires forall i :: 0 <= i < |parts| ==> sep !in parts[i]
    ensures RawSplit(Join(parts, sep), sep) == parts
    decreases |parts|
  {
    if |parts| == 1 {
      RawSplitNoSeparator(parts[0], sep);
    } else {
      RawSplitJoin(parts[1..], sep);
      RawSplitPiece(parts[0], Join(parts[1..], sep), sep);
      assert [parts[0]] + parts[1..] == parts;
    }
  }

  /** A separator at the end of the input adds one empty piece at the end. */
  lemma {:induction false} RawSplitTrailingSeparator(s: string, sep: char)
    ensures RawSplit(s + [sep], sep) == RawSplit(s, sep) + [""]
    decreases |s|
  {
    if |s| == 0 {
      assert RawSplit([sep], sep) == [""] + RawSplit([], sep);
    } else {
      assert (s + [sep])[1..] == s[1..] + [sep];
      RawSplitTrailingSeparator(s[1..], sep);
    }
  }

  /** The pieces with the trailing empty ones removed. */
  function DropTrailingEmpty(parts: seq<string>): (r: seq<string>)
    ensures r <= parts
    ensures |r| > 0 ==> r[|r| - 1] != ""
    ensures forall i :: |r| <= i < |parts| ==> parts[i] == ""
    decreases |parts|
  {
    if |parts| == 0 then []
    else if parts[|parts| - 1] == "" then DropTrailingEmpty(parts[..|parts| - 1])
    else parts
  }

  /**
    `s.split(",")`. For a delimiter that matches nowhere Java returns the
    input itself, so the empty line gives one empty field; otherwise the
    comma-separated pieces without the trailing empty ones.
  */
  function Split(s: string): (fields: seq<string>)
    ensures s == "" ==> fields == [""]
    ensures s != "" ==> fields <= RawSplit(s, ',')
    ensures s != "" && |fields| > 0 ==> fields[|fields| - 1] != ""
    ensures forall i :: 0 <= i < |fields| ==> ',' !in fields[i]
  {
    if s == "" then [""] else DropTrailingEmpty(RawSplit(s, ','))
  }

  /** Splitting a comma-joined row gives back its fields when the last one is not empty. */
  lemma SplitJoin(fields: seq<string>)
    requires |fields| >= 1 && fields[|fields| - 1] != ""
    requires forall i :: 0 <= i < |fields| ==> ',' !in fields[i]
    ensures Split(Join(fields, ',')) == fields
  {
    RawSplitJoin(fields, ',');
    if Join(fields, ',') == "" {
      assert fields == [""];
    }
  }

  /** A trailing comma on a non-empty line does not change the fields (`"a,b,c,"` has three). */
  lemma SplitTrailingComma(s: string)
    requires s != ""
    ensures Split(s + [',']) == Split(s)
  {
    RawSplitTrailingSeparator(s, ',');
    var parts := RawSplit(s, ',');
    assert (parts + [""])[..|parts + [""]| - 1] == parts;
  }

  // ---------------------------------------------------------------------------
  // trim
  // ---------------------------------------------------------------------------

  /** `trim` treats every character up to U+0020 (space and the control characters) as blank. */
  predicate IsBlank(c: char) {
    c <= ' '
  }

  function TrimStart(s: string): (r: string)
    ensures |r| <= |s| && r == s[|s| - |r|..]
    ensures forall k :: 0 <= k < |s| - |r| ==> IsBlank(s[k])
    ensures r == "" || !IsBlank(r[0])
    decreases |s|
  {
    if |s| > 0 && IsBlank(s[0]) then TrimStart(s[1..]) else s
  }

  function TrimEnd(s: string): (r: string)
    ensures r <= s
    ensures forall k :: |r| <= k < |s| ==> IsBlank(s[k])
    ensures r == "" || !IsBlank(r[|r| - 1])
    decreases |s|
  {
    if |s| > 0 && IsBlank(s[|s| - 1]) then TrimEnd(s[..|s| - 1]) else s
  }

  /** `s.trim()`: the input without its leading and trailing blanks. */
  function Trim(s: string): (r: string)
    ensures |r| <= |s|
    ensures r == "" || (!IsBlank(r[0]) && !IsBlank(r[|r| - 1]))
  {
    TrimEnd(TrimStart(s))
  }

  predicate AllBlank(s: string) {
    forall k :: 0 <= k < |s| ==> IsBlank(s[k])
  }

  /** Trimming removes blank padding and nothing else: `trim(pre + t + post) == t`. */
  lemma {:induction false} TrimPadded(pre: string, t: string, post: string)
    requires AllBlank(pre) && AllBlank(post)
    requires t == "" || (!IsBlank(t[0]) && !IsBlank(t[|t| - 1]))
    ensures Trim(pre + t + post) == t
  {
    if t == "" {
      var u := pre + post;
      assert AllBlank(u);
      assert pre + t + post == u;
    } else {
      TrimStartPadded(pre, t + post);
      assert pre + t + post == pre + (t + post);
      TrimEndPadded(t, post);
    }
  }

  /** No blank at either end: what `trim` leaves, and what it leaves alone. */
  predicate Unpadded(t: string) {
    t == "" || (!IsBlank(t[0]) && !IsBlank(t[|t| - 1]))
  }

  /** A field padded with blanks holds a comma only if the field itself does; trimming removes the padding. */
  lemma PaddedField(pre: string, t: string, post: string)
    requires AllBlank(pre) && AllBlank(post) && Unpadded(t)
    ensures ',' in pre + t + post <==> ',' in t
    ensures Trim(pre + t + post) == t
  {
    TrimPadded(pre, t, post);
    assert ',' !in pre && ',' !in post by {
      assert !IsBlank(',');
    }
  }

  /** A string with no blank at either end is its own trim. */
  lemma TrimUnpadded(t: string)
    requires Unpadded(t)
    ensures Trim(t) == t
  {
    TrimPadded("", t, "");
    assert "" + t + "" == t;
  }

  lemma {:induction false} TrimStartPadded(pre: string, rest: string)
    requires AllBlank(pre)
    requires rest == "" || !IsBlank(rest[0])
    ensures TrimStart(pre + rest) == rest
    decreases |pre|
  {
    if |pre| > 0 {
      assert (pre + rest)[1..] == pre[1..] + rest;
      TrimStartPadded(pre[1..], rest);
    } else {
      assert pre + rest == rest;
    }
  }

  lemma {:induction false} TrimEndPadded(t: string, post: string)
    requires AllBlank(post)
    requires t == "" || !IsBlank(t[|t| - 1])
    ensures TrimEnd(t + post) == t
    decreases |post|
  {
    if |post| > 0 {
      assert (t + post)[..|t + post| - 1] == t + post[..|post| - 1];
      TrimEndPadded(t, post[..|post| - 1]);
    } else {
      assert t + post == t;
    }
  }

  /** Trimming twice is trimming once. */
  lemma TrimIdempotent(s: string)
    ensures Trim(Trim(s)) == Trim(s)
  {
    var t := Trim(s);
    TrimPadded("", t, "");
    assert "" + t + "" == t;
  }

  // ---------------------------------------------------------------------------
  // toLowerCase
  // ---------------------------------------------------------------------------

  predicate IsUpper(c: char) {
    'A' <= c <= 'Z'
  }

  /** The lower-case form of an ASCII letter; every other character is kept. */
  function LowerChar(c: char): (d: char)
    ensures !IsUpper(d)
    ensures IsUpper(c) ==> d as int == c as int + ('a' as int - 'A' as int)
    ensures !IsUpper(c) ==> d == c
  {
    if IsUpper(c) then (c as int - 'A' as int + 'a' as int) as char else c
  }

  /** `s.toLowerCase()`: same length, every letter lowered, nothing upper-case left. */
  function ToLowerCase(s: string): (r: string)
    ensures |r| == |s|
    ensures forall i :: 0 <= i < |s| ==> r[i] == LowerChar(s[i])
    ensures forall i :: 0 <= i < |r| ==> !IsUpper(r[i])
    decreases |s|
  {
    if |s| == 0 then "" else [LowerChar(s[0])] + ToLowerCase(s[1..])
  }

  /** Lowering an already lowered string changes nothing. */
  lemma ToLowerCaseIdempotent(s: string)
    ensures ToLowerCase(ToLowerCase(s)) == ToLowerCase(s)
  {
  }

  /** Two characters that are the same letter up to ASCII case (or the same character). */
  predicate SameIgnoringCase(c: char, d: char) {
    c == d
    || (IsUpper(c) && d as int == c as int + 32)
    || (IsUpper(d) && c as int == d as int + 32)
  }

  /** `a.equalsIgnoreCase(b)` restricted to ASCII, defined character by character. */
  predicate EqualsIgnoringCase(a: string, b: string) {
    |a| == |b| && forall i :: 0 <= i < |a| ==> SameIgnoringCase(a[i], b[i])
  }

  /** Lower-casing identifies exactly the strings that differ only in letter case. */
  lemma ToLowerCaseEquals(a: string, b: string)
    ensures ToLowerCase(a) == ToLowerCase(b) <==> EqualsIgnoringCase(a, b)
  {
    if ToLowerCase(a) == ToLowerCase(b) {
      forall i | 0 <= i < |a|
        ensures SameIgnoringCase(a[i], b[i])
      {
        assert ToLowerCase(a)[i] == ToLowerCase(b)[i];
      }
    }
    if EqualsIgnoringCase(a, b) {
      forall i | 0 <= i < |a|
        ensures ToLowerCase(a)[i] == ToLowerCase(b)[i]
      {
        assert SameIgnoringCase(a[i], b[i]);
      }
    }
  }

  // ---------------------------------------------------------------------------
  // Integer.parseInt
  // ---------------------------------------------------------------------------

  const INT_MIN: int := -0x8000_0000
  const INT_MAX: int := 0x7fff_ffff

  predicate IsDigit(c: char) {
    '0' <= c <= '9'
  }

  predicate AllDigits(s: string) {
    forall k :: 0 <= k < |s| ==> IsDigit(s[k])
  }

  function DigitValue(c: char): (v: nat)
    requires IsDigit(c)
    ensures v < 10
  {
    c as int - '0' as int
  }

  function DigitChar(v: nat): (c: char)
    requires v < 10
    ensures IsDigit(c) && DigitValue(c) == v
  {
    ('0' as int + v) as char
  }

  /** The value of a string of decimal digits, most significant first. */
  function DigitsValue(s: string): nat
    requires AllDigits(s)
    decreases |s|
  {
    if |s| == 0 then 0 else DigitsValue(s[..|s| - 1]) * 10 + DigitValue(s[|s| - 1])
  }

  /**
    `Integer.parseInt(s)`: an optional `+` or `-`, then at least one decimal
    digit, and a value that fits in 32 bits; anything else is `None`.
  */
  function ParseInt(s: string): (r: Option<int>)
    ensures r.Some? ==> INT_MIN <= r.value <= INT_MAX
    ensures r.Some? ==> |s| > 0 && (IsDigit(s[0]) || s[0] == '-' || s[0] == '+')
    ensures r.Some? ==> forall k :: 1 <= k < |s| ==> IsDigit(s[k])
    ensures |s| > 0 && AllDigits(s) && DigitsValue(s) <= INT_MAX ==> r == Some(DigitsValue(s))
    ensures |s| > 0 && AllDigits(s) && DigitsValue(s) > INT_MAX ==> r.None?
    ensures s == "-" || s == "+" ==> r.None?
  {
    if |s| == 0 then None
    else
      var digits := if s[0] == '-' || s[0] == '+' then s[1..] else s;
      if |digits| == 0 || !AllDigits(digits) then None
      else
        var v: int := if s[0] == '-' then -(DigitsValue(digits) as int) else DigitsValue(digits);
        if INT_MIN <= v <= INT_MAX then Some(v) else None
  }

  /** `Integer.toString` for non-negative values: decimal digits without leading zeros. */
  function NatToDigits(n: nat): (s: string)
    ensures |s| >= 1 && AllDigits(s)
    decreases n
  {
    if n < 10 then [DigitChar(n)] else NatToDigits(n / 10) + [DigitChar(n % 10)]
  }

  /** `Integer.toString(n)`. */
  function IntToString(n: int): (s: string)
    ensures |s| >= 1
  {
    if n < 0 then "-" + NatToDigits(-n) else NatToDigits(n)
  }

  /** A printed integer is digits, after a minus sign when it is negative. */
  lemma IntToStringChars(n: int)
    ensures forall k :: 0 <= k < |IntToString(n)| ==> IsDigit(IntToString(n)[k]) || (k == 0 && IntToString(n)[k] == '-')
  {
    if n < 0 {
      var d := NatToDigits(-n);
      assert forall k :: 1 <= k < |"-" + d| ==> ("-" + d)[k] == d[k - 1];
    }
  }

  lemma {:induction false} NatToDigitsValue(n: nat)
    ensures DigitsValue(NatToDigits(n)) == n
    decreases n
  {
    var s := NatToDigits(n);
    if n < 10 {
      assert s[..0] == "";
    } else {
      NatToDigitsValue(n / 10);
      assert s[..|s| - 1] == NatToDigits(n / 10);
    }
  }

  /** A minus sign before digits reads as the negated value, if that is not below `INT_MIN`. */
  lemma ParseIntNegative(digits: string)
    requires |digits| > 0 && AllDigits(digits)
    ensures ParseInt("-" + digits)
         == if DigitsValue(digits) <= -INT_MIN then Some(-(DigitsValue(digits) as int)) else None
  {
    assert ("-" + digits)[1..] == digits;
  }

  /** A plus sign before digits reads as their value, if that is not above `INT_MAX`. */
  lemma ParseIntPlus(digits: string)
    requires |digits| > 0 && AllDigits(digits)
    ensures ParseInt("+" + digits) == if DigitsValue(digits) <= INT_MAX then Some(DigitsValue(digits)) else None
  {
    assert ("+" + digits)[1..] == digits;
  }

  /** Every 32-bit integer survives printing and parsing back. */
  lemma ParseIntToString(n: int)
    requires INT_MIN <= n <= INT_MAX
    ensures ParseInt(IntToString(n)) == Some(n)
  {
    if n < 0 {
      NatToDigitsValue(-n);
      ParseIntNegative(NatToDigits(-n));
    } else {
      NatToDigitsValue(n);
    }
  }
}
