/** The few Python string operations the analysis layer relies on, over
    `seq<char>`: case mapping of ASCII letters, `strip`, `split()`, `split(sep)`,
    `join`, `startswith`, `replace(pat, "")`, `isdigit` and `int(str)`. */
module Text {
  import opened Wrappers

  /** The characters Python's `str.split()` and `str.strip()` skip, those
      for which `str.isspace()` holds: the ASCII controls tab to carriage
      return and the four separators after them, the space, next line,
      no-break space, and the Unicode space and separator characters. */
  predicate IsWhitespace(c: char) {
    || '\t' <= c <= '\r' || '\U{001C}' <= c <= ' ' || c == '\U{0085}' || c == '\U{00A0}'
    || c == '\U{1680}' || '\U{2000}' <= c <= '\U{200A}' || c == '\U{2028}' || c == '\U{2029}'
    || c == '\U{202F}' || c == '\U{205F}' || c == '\U{3000}'
  }

  predicate IsDigit(c: char) { '0' <= c <= '9' }

  function LowerChar(c: char): char {
    if 'A' <= c <= 'Z' then (c as int + 32) as char else c
  }

  function UpperChar(c: char): char {
    if 'a' <= c <= 'z' then (c as int - 32) as char else c
  }

  /** `s.lower()` restricted to ASCII letters. */
  function Lower(s: string): (r: string)
    ensures |r| == |s|
    ensures forall i :: 0 <= i < |s| ==> r[i] == LowerChar(s[i])
  {
    seq(|s|, i requires 0 <= i < |s| => LowerChar(s[i]))
  }

  /** `s.upper()` restricted to ASCII letters. */
  function Upper(s: string): (r: string)
    ensures |r| == |s|
    ensures forall i :: 0 <= i < |s| ==> r[i] == UpperChar(s[i])
  {
    seq(|s|, i requires 0 <= i < |s| => UpperChar(s[i]))
  }

  /** `s.startswith(p)` */
  predicate StartsWith(s: string, p: string) {
    |p| <= |s| && s[..|p|] == p
  }

  /** `s.isdigit()` for ASCII digits: non-empty and digits only. */
  predicate IsDigits(s: string) {
    |s| > 0 && AllDigits(s)
  }

  /** Every character is an ASCII digit. */
  predicate AllDigits(s: string) {
    s == [] || (IsDigit(s[0]) && AllDigits(s[1..]))
  }

  lemma {:induction false} AllDigitsMeans(s: string)
    ensures AllDigits(s) <==> forall i :: 0 <= i < |s| ==> IsDigit(s[i])
  {
    if s != [] {
      AllDigitsMeans(s[1..]);
      assert forall i :: 1 <= i < |s| ==> s[i] == s[1..][i - 1];
    }
  }

  /** `s.lstrip()` */
  function LStrip(s: string): (r: string)
    ensures |r| <= |s| && r == s[|s| - |r|..]
    ensures r == [] || !IsWhitespace(r[0])
    ensures forall i :: 0 <= i < |s| - |r| ==> IsWhitespace(s[i])
  {
    if s != [] && IsWhitespace(s[0]) then LStrip(s[1..]) else s
  }

  /** `s.rstrip()` */
  function RStrip(s: string): (r: string)
    ensures |r| <= |s| && r == s[..|r|]
    ensures r == [] || !IsWhitespace(r[|r| - 1])
    ensures forall i :: |r| <= i < |s| ==> IsWhitespace(s[i])
  {
    if s != [] && IsWhitespace(s[|s| - 1]) then RStrip(s[..|s| - 1]) else s
  }

  /** `s.strip()` */
  function Strip(s: string): (r: string)
    ensures r == [] || (!IsWhitespace(r[0]) && !IsWhitespace(r[|r| - 1]))
  {
    RStrip(LStrip(s))
  }

  /** Length of the leading run of non-whitespace characters. */
  function WordLength(s: string): (n: nat)
    ensures n <= |s|
    ensures forall i :: 0 <= i < n ==> !IsWhitespace(s[i])
    ensures n == |s| || IsWhitespace(s[n])
  {
    if s == [] || IsWhitespace(s[0]) then 0 else 1 + WordLength(s[1..])
  }

  /** `s.split()`: the maximal runs of non-whitespace characters, in order. */
  function Words(s: string): seq<string>
    decreases |s|
  {
    var t := LStrip(s);
    if t == [] then []
    else
      var n := WordLength(t);
      [t[..n]] + Words(t[n..])
  }

  /** Every word is non-empty and free of whitespace. */
  lemma {:induction false} WordsAreWords(s: string)
    ensures forall w :: w in Words(s) ==> w != [] && forall j :: 0 <= j < |w| ==> !IsWhitespace(w[j])
    decreases |s|
  {
    var t := LStrip(s);
    if t != [] {
      var n := WordLength(t);
      var first := t[..n];
      assert first != [] && forall j :: 0 <= j < |first| ==> !IsWhitespace(first[j]);
      WordsAreWords(t[n..]);
      assert Words(s) == [first] + Words(t[n..]);
    }
  }

  /** `s.split(c)`: the pieces between occurrences of `c`; never empty. */
  function Split(s: string, c: char): (parts: seq<string>)
    ensures |parts| >= 1
    ensures forall i :: 0 <= i < |parts| ==> c !in parts[i]
  {
    if s == [] then [[]]
    else
      var rest := Split(s[1..], c);
      if s[0] == c then [[]] + rest else [[s[0]] + rest[0]] + rest[1..]
  }

  /** A string containing the separator splits into at least two pieces. */
  lemma {:induction false} SplitAtSeparator(s: string, c: char)
    requires c in s
    ensures |Split(s, c)| >= 2
  {
    if s[0] != c {
      SplitAtSeparator(s[1..], c);
    }
  }

  /** `sep.join(parts)` */
  function Join(parts: seq<string>, sep: string): string {
    if parts == [] then []
    else if |parts| == 1 then parts[0]
    else parts[0] + sep + Join(parts[1..], sep)
  }

  /** `s.replace(pat, "")`: removes the non-overlapping occurrences of `pat`
      found scanning left to right. */
  function RemoveAll(s: string, pat: string): string
    requires pat != []
    decreases |s|
  {
    if |s| < |pat| then s
    else if s[..|pat|] == pat then RemoveAll(s[|pat|..], pat)
    else [s[0]] + RemoveAll(s[1..], pat)
  }

  /** Decimal value of a string of ASCII digits. */
  function DigitsValue(s: string): nat
    requires AllDigits(s)
  {
    Accumulate(0, s)
  }

  /** The value of `acc` followed by the digits of `s`, most significant first. */
  function Accumulate(acc: nat, s: string): nat
    requires AllDigits(s)
    decreases |s|
  {
    if s == [] then acc else Accumulate(acc * 10 + DigitValue(s[0]), s[1..])
  }

  function DigitValue(c: char): nat
    requires IsDigit(c)
  {
    c as int - '0' as int
  }

  /** One more digit at the end multiplies the value by ten and adds that digit. */
  lemma {:induction false} AccumulateSnoc(acc: nat, s: string, c: char)
    requires AllDigits(s) && IsDigit(c)
    ensures AllDigits(s + [c])
    ensures Accumulate(acc, s + [c]) == Accumulate(acc, s) * 10 + DigitValue(c)
    decreases |s|
  {
    if s == [] {
      assert [c][1..] == [];
    } else {
      assert (s + [c])[1..] == s[1..] + [c];
      AccumulateSnoc(acc * 10 + DigitValue(s[0]), s[1..], c);
    }
  }

  /** The literal `int()` accepts once surrounding whitespace is stripped:
      a run of digits, or a sign followed by one. */
  function LiteralValue(t: string): Option<int> {
    if IsDigits(t) then Some(DigitsValue(t))
    else if |t| > 0 && t[0] == '+' && IsDigits(t[1..]) then Some(DigitsValue(t[1..]))
    else if |t| > 0 && t[0] == '-' && IsDigits(t[1..]) then Some(-(DigitsValue(t[1..]) as int))
    else None
  }

  /** Where the scan of an integer literal stands. */
  datatype ScanState =
    | Leading                              // only whitespace so far
    | Signed(negative: bool)               // a sign, no digit yet
    | InDigits(negative: bool, value: nat) // one or more digits
    | Trailing(negative: bool, value: nat) // whitespace after the digits

  /** `int(s)` for a decimal literal: surrounding whitespace, an optional sign,
      then one or more ASCII digits; anything else raises `ValueError` (`None`). */
  function ParseInt(s: string): Option<int> {
    Scan(s, Leading)
  }

  function SignedValue(negative: bool, v: nat): int {
    if negative then -(v as int) else v as int
  }

  /** The literal scanner, one character at a time. */
  function Scan(s: string, st: ScanState): Option<int>
    decreases |s|
  {
    if s == [] then
      match st
      case InDigits(neg, v) => Some(SignedValue(neg, v))
      case Trailing(neg, v) => Some(SignedValue(neg, v))
      case _ => None
    else
      var c := s[0];
      match st
      case Leading =>
        if IsWhitespace(c) then Scan(s[1..], Leading)
        else if c == '+' then Scan(s[1..], Signed(false))
        else if c == '-' then Scan(s[1..], Signed(true))
        else if IsDigit(c) then Scan(s[1..], InDigits(false, DigitValue(c)))
        else None
      case Signed(neg) =>
        if IsDigit(c) then Scan(s[1..], InDigits(neg, DigitValue(c))) else None
      case InDigits(neg, v) =>
        if IsDigit(c) then Scan(s[1..], InDigits(neg, v * 10 + DigitValue(c)))
        else if IsWhitespace(c) then Scan(s[1..], Trailing(neg, v))
        else None
      case Trailing(neg, v) =>
        if IsWhitespace(c) then Scan(s[1..], Trailing(neg, v)) else None
  }

  /** Stripping trailing whitespace from a string and from its tail agree
      except for the first character. */
  lemma {:induction false} RStripCons(w: string)
    requires w != []
    ensures !IsWhitespace(w[0]) || RStrip(w[1..]) != [] ==> RStrip(w) == [w[0]] + RStrip(w[1..])
    ensures IsWhitespace(w[0]) && RStrip(w[1..]) == [] ==> RStrip(w) == []
    decreases |w|
  {
    if |w| > 1 && IsWhitespace(w[|w| - 1]) {
      var init := w[..|w| - 1];
      RStripCons(init);
      assert init[1..] == w[1..][..|w[1..]| - 1];
    }
  }

  /** After the digits, only whitespace may follow. */
  lemma {:induction false} ScanTrailing(x: string, neg: bool, v: nat)
    ensures RStrip(x) == [] ==> Scan(x, Trailing(neg, v)) == Some(SignedValue(neg, v))
    ensures RStrip(x) != [] ==> Scan(x, Trailing(neg, v)) == None
    decreases |x|
  {
    if x != [] {
      RStripCons(x);
      if IsWhitespace(x[0]) {
        ScanTrailing(x[1..], neg, v);
      }
    }
  }

  /** Within the digits: the rest must be digits up to trailing whitespace. */
  lemma {:induction false} ScanDigits(w: string, neg: bool, v: nat)
    ensures AllDigits(RStrip(w)) ==> Scan(w, InDigits(neg, v)) == Some(SignedValue(neg, Accumulate(v, RStrip(w))))
    ensures !AllDigits(RStrip(w)) ==> Scan(w, InDigits(neg, v)) == None
    decreases |w|
  {
    if w != [] {
      RStripCons(w);
      var r := RStrip(w[1..]);
      if IsDigit(w[0]) {
        ScanDigits(w[1..], neg, v * 10 + DigitValue(w[0]));
        assert ([w[0]] + r)[1..] == r;
      } else if IsWhitespace(w[0]) {
        ScanTrailing(w[1..], neg, v);
      }
    }
  }

  /** After a sign: one or more digits, then only whitespace. */
  lemma ScanSigned(w: string, neg: bool)
    ensures IsDigits(RStrip(w)) ==> Scan(w, Signed(neg)) == Some(SignedValue(neg, DigitsValue(RStrip(w))))
    ensures !IsDigits(RStrip(w)) ==> Scan(w, Signed(neg)) == None
  {
    if w != [] {
      RStripCons(w);
      var r := RStrip(w[1..]);
      if IsDigit(w[0]) {
        ScanDigits(w[1..], neg, DigitValue(w[0]));
        assert ([w[0]] + r)[1..] == r;
      }
    }
  }

  /** Leading whitespace is skipped. */
  lemma {:induction false} ScanLeading(s: string)
    ensures Scan(s, Leading) == Scan(LStrip(s), Leading)
    decreases |s|
  {
    if s != [] && IsWhitespace(s[0]) {
      ScanLeading(s[1..]);
    }
  }

  /** A literal that starts with a sign is signed digits. */
  lemma SignedLiteral(t: string)
    requires t != [] && (t[0] == '+' || t[0] == '-')
    ensures IsDigits(t[1..]) ==> LiteralValue(t) == Some(SignedValue(t[0] == '-', DigitsValue(t[1..])))
    ensures !IsDigits(t[1..]) ==> LiteralValue(t) == None
  {
    assert !IsDigits(t);
  }

  /** A literal that starts with a digit is all digits. */
  lemma DigitLiteral(t: string)
    requires t != [] && IsDigit(t[0])
    ensures AllDigits(t[1..]) ==> LiteralValue(t) == Some(SignedValue(false, Accumulate(DigitValue(t[0]), t[1..])))
    ensures !AllDigits(t[1..]) ==> LiteralValue(t) == None
  {
    if AllDigits(t[1..]) {
      assert IsDigits(t);
    } else {
      assert !IsDigits(t);
    }
  }

  /** From the first non-blank character on, the scan reads the literal. */
  lemma ScanFromStart(u: string)
    requires u == [] || !IsWhitespace(u[0])
    ensures Scan(u, Leading) == LiteralValue(RStrip(u))
  {
    if u != [] {
      RStripCons(u);
      var r := RStrip(u[1..]);
      var t := RStrip(u);
      assert t == [u[0]] + r && t[0] == u[0] && t[1..] == r;
      if u[0] == '+' || u[0] == '-' {
        SignedLiteral(t);
        ScanSigned(u[1..], u[0] == '-');
      } else if IsDigit(u[0]) {
        DigitLiteral(t);
        ScanDigits(u[1..], false, DigitValue(u[0]));
      } else {
        assert !IsDigits(t);
      }
    }
  }

  /** The scanner accepts exactly Python's literal: `int(s)` is the literal
      value of `s.strip()`. */
  lemma ParseIntMeans(s: string)
    ensures ParseInt(s) == LiteralValue(Strip(s))
  {
    ScanLeading(s);
    ScanFromStart(LStrip(s));
  }

  lemma {:induction false} LStripUpper(s: string)
    ensures Upper(LStrip(s)) == LStrip(Upper(s))
  {
    if s != [] && IsWhitespace(s[0]) {
      assert Upper(s)[1..] == Upper(s[1..]);
      LStripUpper(s[1..]);
    } else if s != [] {
      assert !IsWhitespace(Upper(s)[0]);
    }
  }

  lemma {:induction false} RStripUpper(s: string)
    ensures Upper(RStrip(s)) == RStrip(Upper(s))
  {
    if s != [] && IsWhitespace(s[|s| - 1]) {
      assert Upper(s)[..|s| - 1] == Upper(s[..|s| - 1]);
      RStripUpper(s[..|s| - 1]);
    } else if s != [] {
      assert !IsWhitespace(Upper(s)[|s| - 1]);
    }
  }

  /** Upper-casing commutes with stripping: whitespace has no case. */
  lemma StripUpper(s: string)
    ensures Upper(Strip(s)) == Strip(Upper(s))
  {
    RStripUpper(LStrip(s));
    LStripUpper(s);
  }

  /** Applying `upper()` twice is the same as once. */
  lemma UpperIdempotent(s: string)
    ensures Upper(Upper(s)) == Upper(s)
  {
  }

  /** `s.replace(pat, "")` leaves a string without the pattern's first character alone. */
  lemma {:induction false} RemoveAllAbsent(s: string, pat: string)
    requires pat != [] && pat[0] !in s
    ensures RemoveAll(s, pat) == s
  {
    if |s| >= |pat| {
      assert s[..|pat|][0] == s[0] != pat[0];
      RemoveAllAbsent(s[1..], pat);
      assert [s[0]] + s[1..] == s;
    }
  }

  /** `int(s.strip().upper().replace("AS", ""))`: an AS number written
      with or without an "AS" prefix, in any letter case. */
  function NormalizeAsn(s: string): Option<int> {
    ParseInt(RemoveAll(Upper(Strip(s)), "AS"))
  }

  /** Letter case does not matter to the normalisation. */
  lemma NormalizeIgnoresCase(s: string)
    ensures NormalizeAsn(Upper(s)) == NormalizeAsn(s)
  {
    StripUpper(s);
    UpperIdempotent(Strip(s));
  }

  /** A string with no blank at either end is its own `strip()`. */
  lemma StripUnchanged(w: string)
    requires w != [] && !IsWhitespace(w[0]) && !IsWhitespace(w[|w| - 1])
    ensures Strip(w) == w
  {
    assert LStrip(w) == w;
  }

  /** Digits and capitals are their own `upper()`. */
  lemma UpperUnchanged(w: string)
    requires forall i :: 0 <= i < |w| ==> IsDigit(w[i]) || 'A' <= w[i] <= 'Z'
    ensures Upper(w) == w
  {
  }

  /** A digit string reads as its value. */
  lemma ParseDigits(d: string)
    requires IsDigits(d)
    ensures ParseInt(d) == Some(DigitsValue(d))
  {
    ParseIntMeans(d);
    AllDigitsMeans(d);
    StripUnchanged(d);
  }

  /** A run of digits normalises to its value, with or without an upper-case
      "AS" in front. */
  lemma NormalizeDigits(d: string)
    requires IsDigits(d)
    ensures NormalizeAsn(d) == Some(DigitsValue(d))
    ensures NormalizeAsn("AS" + d) == Some(DigitsValue(d))
  {
    AllDigitsMeans(d);
    ParseDigits(d);
    assert 'A' !in d;
    RemoveAllAbsent(d, "AS");
    StripUnchanged(d);
    UpperUnchanged(d);
    var w := "AS" + d;
    StripUnchanged(w);
    UpperUnchanged(w);
    assert w[..2] == "AS" && w[2..] == d;
    assert RemoveAll(w, "AS") == RemoveAll(d, "AS");
  }

  /** Digits, bare or behind "AS", are already stripped and upper-case. */
  lemma DigitForms(d: string)
    requires IsDigits(d)
    ensures Strip(d) == d && Upper(d) == d
    ensures Strip("AS" + d) == "AS" + d && Upper("AS" + d) == "AS" + d
  {
    AllDigitsMeans(d);
    assert IsDigit(d[0]) && IsDigit(d[|d| - 1]);
    StripUnchanged(d);
    UpperUnchanged(d);
    var w := "AS" + d;
    assert w[0] == 'A' && w[|w| - 1] == d[|d| - 1];
    StripUnchanged(w);
    forall i | 0 <= i < |w| ensures IsDigit(w[i]) || 'A' <= w[i] <= 'Z' {
      if i >= 2 {
        assert w[i] == d[i - 2];
      }
    }
    UpperUnchanged(w);
  }

  /** A lower-case "as" in front of digits is already stripped and
      upper-cases to "AS". */
  lemma LowerAsForm(d: string)
    requires IsDigits(d)
    ensures Strip("as" + d) == "as" + d
    ensures Upper("as" + d) == "AS" + d
  {
    AllDigitsMeans(d);
    var l := "as" + d;
    assert forall i :: 2 <= i < |l| ==> l[i] == d[i - 2];
    assert IsDigit(l[|l| - 1]);
    StripUnchanged(l);
    var w := "AS" + d;
    assert forall i :: 2 <= i < |w| ==> w[i] == d[i - 2];
    assert forall i :: 0 <= i < |l| ==> Upper(l)[i] == w[i];
  }

  /** Deleting a one-letter pattern that occurs only at the end. */
  lemma {:induction false} RemoveTrailing(s: string, c: char)
    requires c !in s
    ensures RemoveAll(s + [c], [c]) == s
  {
    if s != [] {
      assert (s + [c])[..1] == [s[0]] != [c];
      assert (s + [c])[1..] == s[1..] + [c];
      RemoveTrailing(s[1..], c);
      assert [s[0]] + s[1..] == s;
    } else {
      assert RemoveAll([c], [c]) == RemoveAll([], [c]);
    }
  }
}
