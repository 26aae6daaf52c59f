/**
 * The Python string operations the maintainer relies on, written out over
 * `seq<char>`: `startswith`/`endswith`, `split(sep)` and `sep.join`,
 * `split()` on whitespace, `strip(chars)`, `lower()`, `replace(pat, '')`,
 * `int(text)` and the `'%Y-%m-%d %H:%M'` format of `datetime.strptime`.
 */
module Strings {
  import opened Wrappers

  predicate StartsWith(s: string, prefix: string) {
    |prefix| <= |s| && s[..|prefix|] == prefix
  }

  predicate EndsWith(s: string, suffix: string) {
    |suffix| <= |s| && s[|s| - |suffix|..] == suffix
  }

  lemma EndsWithAppend(a: string, b: string, suffix: string)
    requires EndsWith(b, suffix)
    ensures EndsWith(a + b, suffix)
  {
    var s := a + b;
    assert s[|s| - |suffix|..] == b[|b| - |suffix|..];
  }

  /** Position of the first `c` in `s`. */
  function IndexOf(s: string, c: char): (i: nat)
    requires c in s
    ensures i < |s| && s[i] == c && c !in s[..i]
  {
    if s[0] == c then 0
    else
      var j := IndexOf(s[1..], c);
      assert s[..j + 1] == [s[0]] + s[1..][..j];
      j + 1
  }

  lemma IndexOfAfterPrefix(p: string, sep: char, rest: string)
    requires sep !in p
    ensures sep in p + [sep] + rest && IndexOf(p + [sep] + rest, sep) == |p|
  {
    var s := p + [sep] + rest;
    assert s[|p|] == sep;
    var i := IndexOf(s, sep);
    assert forall k :: 0 <= k < |p| ==> s[k] == p[k];
    assert forall k :: 0 <= k < i ==> s[..i][k] == s[k];
  }

  // ---------------------------------------------------------------------
  // split(sep) and sep.join(...)
  // ---------------------------------------------------------------------

  /** Python's `s.split(sep)` for a one-character separator: at least one part, none holding `sep`. */
  function Split(s: string, sep: char): (parts: seq<string>)
    ensures |parts| >= 1
    ensures forall k :: 0 <= k < |parts| ==> sep !in parts[k]
    decreases |s|
  {
    if sep !in s then [s]
    else
      var i := IndexOf(s, sep);
      [s[..i]] + Split(s[i + 1..], sep)
  }

  /** Python's `sep.join(parts)`. */
  function Join(parts: seq<string>, sep: char): string {
    if |parts| == 0 then ""
    else if |parts| == 1 then parts[0]
    else parts[0] + [sep] + Join(parts[1..], sep)
  }

  /** Joining the parts of a split gives back the original text. */
  lemma {:induction false} JoinSplit(s: string, sep: char)
    ensures Join(Split(s, sep), sep) == s
    decreases |s|
  {
    if sep in s {
      var i := IndexOf(s, sep);
      var tail := Split(s[i + 1..], sep);
      JoinSplit(s[i + 1..], sep);
      assert Split(s, sep) == [s[..i]] + tail;
      assert ([s[..i]] + tail)[1..] == tail;
      assert s == s[..i] + [sep] + s[i + 1..];
    }
  }

  /** Splitting a join gives back the parts, provided there is at least one and none holds `sep`. */
  lemma {:induction false} SplitJoin(parts: seq<string>, sep: char)
    requires |parts| >= 1
    requires forall k :: 0 <= k < |parts| ==> sep !in parts[k]
    ensures Split(Join(parts, sep), sep) == parts
  {
    if |parts| > 1 {
      var tail := parts[1..];
      forall k | 0 <= k < |tail| ensures sep !in tail[k] {
        assert tail[k] == parts[k + 1];
      }
      var rest := Join(tail, sep);
      SplitJoin(tail, sep);
      SplitCons(parts[0], sep, rest);
      calc {
        Split(Join(parts, sep), sep);
        Split(parts[0] + [sep] + rest, sep);
        [parts[0]] + Split(rest, sep);
        [parts[0]] + tail;
        parts;
      }
    }
  }

  /** Splitting at the first separator, when it follows a part without one. */
  lemma SplitCons(p: string, sep: char, rest: string)
    requires sep !in p
    ensures Split(p + [sep] + rest, sep) == [p] + Split(rest, sep)
  {
    var s := p + [sep] + rest;
    IndexOfAfterPrefix(p, sep, rest);
    assert s[..|p|] == p;
    assert s[|p| + 1..] == rest;
  }

  /** Joining two or more parts is joining all but the last, then the separator and the last. */
  lemma {:induction false} JoinSnoc(parts: seq<string>, sep: char)
    requires |parts| >= 2
    ensures Join(parts, sep) == Join(parts[..|parts| - 1], sep) + [sep] + parts[|parts| - 1]
  {
    if |parts| > 2 {
      var init := parts[..|parts| - 1];
      JoinSnoc(parts[1..], sep);
      assert parts[1..][..|parts| - 2] == init[1..];
      assert init[0] == parts[0];
    }
  }

  /** A character found in no part and other than the separator is not in the join. */
  lemma {:induction false} JoinAvoids(parts: seq<string>, sep: char, c: char)
    requires c != sep
    requires forall k :: 0 <= k < |parts| ==> c !in parts[k]
    ensures c !in Join(parts, sep)
  {
    if |parts| > 1 {
      JoinAvoids(parts[1..], sep, c);
    }
  }

  lemma JoinEmpty(parts: seq<string>, sep: char)
    ensures Join(parts, sep) == "" <==> parts == [] || parts == [""]
  {
    if |parts| > 1 {
      assert Join(parts, sep)[|parts[0]|] == sep;
    }
  }

  // ---------------------------------------------------------------------
  // lower() and split() on whitespace
  // ---------------------------------------------------------------------

  function LowerChar(c: char): char {
    if 'A' <= c <= 'Z' then (c as int - 'A' as int + 'a' as int) as char else c
  }

  /** `s.lower()` for the ASCII letters. */
  function Lower(s: string): (r: string)
    ensures |r| == |s|
    ensures forall i :: 0 <= i < |s| ==> r[i] == LowerChar(s[i])
  {
    if s == [] then [] else [LowerChar(s[0])] + Lower(s[1..])
  }

  /** The characters Python's `str.split()` and `str.strip()` treat as whitespace. */
  predicate IsSpace(c: char) {
    || ('\t' <= c <= '\r')
    || ('\U{1C}' <= c <= ' ')
    || c == '\U{85}' || c == '\U{A0}' || c == '\U{1680}'
    || ('\U{2000}' <= c <= '\U{200A}')
    || c == '\U{2028}' || c == '\U{2029}' || c == '\U{202F}' || c == '\U{205F}' || c == '\U{3000}'
  }

  predicate IsWord(w: string) {
    w != [] && forall i :: 0 <= i < |w| ==> !IsSpace(w[i])
  }

  /** Length of the run of non-whitespace at the start of `s`. */
  function WordLength(s: string): (n: nat)
    ensures n <= |s|
    ensures forall i :: 0 <= i < n ==> !IsSpace(s[i])
    ensures n < |s| ==> IsSpace(s[n])
  {
    if s == [] || IsSpace(s[0]) then 0 else 1 + WordLength(s[1..])
  }

  /** Python's `s.split()` with no argument: the maximal runs of non-whitespace, in order. */
  function Words(s: string): (ws: seq<string>)
    ensures forall k :: 0 <= k < |ws| ==> IsWord(ws[k])
    decreases |s|
  {
    if s == [] then []
    else if IsSpace(s[0]) then Words(s[1..])
    else
      var n := WordLength(s);
      [s[..n]] + Words(s[n..])
  }

  lemma {:induction false} WordLengthOfWord(w: string, rest: string)
    requires forall i :: 0 <= i < |w| ==> !IsSpace(w[i])
    requires rest == [] || IsSpace(rest[0])
    ensures WordLength(w + rest) == |w|
    decreases |w|
  {
    if w == [] {
      assert w + rest == rest;
    } else {
      assert (w + rest)[1..] == w[1..] + rest;
      WordLengthOfWord(w[1..], rest);
    }
  }

  /** Words separated by single spaces are split back into the same words. */
  lemma {:induction false} WordsOfJoin(ws: seq<string>)
    requires forall k :: 0 <= k < |ws| ==> IsWord(ws[k])
    ensures Words(Join(ws, ' ')) == ws
  {
    if |ws| == 1 {
      var w := ws[0];
      WordLengthOfWord(w, []);
      assert w + [] == w;
      assert w[|w|..] == [];
    } else if |ws| > 1 {
      var tail := ws[1..];
      forall k | 0 <= k < |tail| ensures IsWord(tail[k]) {
        assert tail[k] == ws[k + 1];
      }
      var rest := Join(tail, ' ');
      WordsOfJoin(tail);
      WordsCons(ws[0], rest);
      calc {
        Words(Join(ws, ' '));
        Words(ws[0] + [' '] + rest);
        [ws[0]] + Words(rest);
        [ws[0]] + tail;
        ws;
      }
    }
  }

  /** A word followed by a space reads as that word, then the words of the rest. */
  lemma WordsCons(w: string, rest: string)
    requires IsWord(w)
    ensures Words(w + [' '] + rest) == [w] + Words(rest)
  {
    var s := w + [' '] + rest;
    WordLengthOfWord(w, [' '] + rest);
    assert s == w + ([' '] + rest);
    assert s[..|w|] == w;
    assert s[|w|..] == [' '] + rest;
    assert ([' '] + rest)[1..] == rest;
  }

  // ---------------------------------------------------------------------
  // strip(chars)
  // ---------------------------------------------------------------------

  function StripLeft(s: string, drop: char -> bool): (r: string)
    ensures |r| <= |s| && r == s[|s| - |r|..]
    ensures r == [] || !drop(r[0])
    ensures forall i :: 0 <= i < |s| - |r| ==> drop(s[i])
  {
    if s != [] && drop(s[0]) then StripLeft(s[1..], drop) else s
  }

  function StripRight(s: string, drop: char -> bool): (r: string)
    ensures |r| <= |s| && r == s[..|r|]
    ensures r == [] || !drop(r[|r| - 1])
    ensures forall i :: |r| <= i < |s| ==> drop(s[i])
  {
    if s != [] && drop(s[|s| - 1]) then StripRight(s[..|s| - 1], drop) else s
  }

  /** Python's `s.strip(chars)`: drop leading and trailing characters of the set. */
  function Strip(s: string, chars: set<char>): string {
    StripRight(StripLeft(s, c => c in chars), c => c in chars)
  }

  // ---------------------------------------------------------------------
  // int(text)
  // ---------------------------------------------------------------------

  predicate IsDigit(c: char) {
    '0' <= c <= '9'
  }

  predicate DigitOrUnderscore(c: char) {
    IsDigit(c) || c == '_'
  }

  /** Decimal digits, with single underscores allowed between two digits. */
  predicate IsDigitText(s: string) {
    && |s| >= 1 && IsDigit(s[0]) && IsDigit(s[|s| - 1])
    && forall i :: 0 <= i < |s| ==> DigitOrUnderscore(s[i]) && (s[i] == '_' ==> i + 1 < |s| && IsDigit(s[i + 1]))
  }

  function DigitValue(c: char): nat
    requires IsDigit(c)
  {
    c as int - '0' as int
  }

  /** The number written by the digits of `s`, underscores skipped. */
  function DigitsValue(s: string): nat
    requires forall i :: 0 <= i < |s| ==> DigitOrUnderscore(s[i])
  {
    if s == [] then 0
    else
      var last := s[|s| - 1];
      assert DigitOrUnderscore(last);
      if last == '_' then DigitsValue(s[..|s| - 1])
      else DigitsValue(s[..|s| - 1]) * 10 + DigitValue(last)
  }

  function SignedValue(s: string): Option<int> {
    if IsDigitText(s) then Some(DigitsValue(s)) else None
  }

  /** The text `int()` accepts once surrounding whitespace is stripped: an optional sign, then digits. */
  predicate IsIntText(t: string) {
    IsDigitText(t) || (|t| >= 1 && (t[0] == '+' || t[0] == '-') && IsDigitText(t[1..]))
  }

  /** `int()` on text without surrounding whitespace: an optional sign, then digits. */
  function ReadSigned(t: string): (r: Option<int>)
    ensures r.Some? ==> |t| >= 1 && (IsDigit(t[0]) || (|t| >= 2 && IsDigit(t[1])))
  {
    if t != [] && (t[0] == '+' || t[0] == '-') then
      match SignedValue(t[1..])
      case Some(n) => Some(if t[0] == '-' then -n else n)
      case None => None
    else SignedValue(t)
  }

  /**
   * Python's `int(text)` in base 10: surrounding whitespace, an optional sign,
   * then digits; anything else raises `ValueError`, here `None`.
   */
  function ParseInt(text: string): (r: Option<int>)
    ensures r.Some? ==> exists k :: 0 <= k < |text| && IsDigit(text[k])
  {
    var t := StripRight(StripLeft(text, IsSpace), IsSpace);
    var r := ReadSigned(t);
    if r.None? then r
    else
      var k := if IsDigit(t[0]) then 0 else 1;
      TrimIndex(text, k);
      assert IsDigit(text[|text| - |StripLeft(text, IsSpace)| + k]);
      r
  }

  /** A character of the stripped text is the one at the same place after the leading whitespace. */
  lemma TrimIndex(text: string, k: nat)
    requires k < |StripRight(StripLeft(text, IsSpace), IsSpace)|
    ensures var start := |text| - |StripLeft(text, IsSpace)|;
      start + k < |text| && StripRight(StripLeft(text, IsSpace), IsSpace)[k] == text[start + k]
  {
  }

  /** `int(text)` succeeds exactly on an optional sign and digits between whitespace. */
  lemma ParseIntGrammar(text: string)
    ensures ParseInt(text).Some? <==> IsIntText(StripRight(StripLeft(text, IsSpace), IsSpace))
  {
    var t := StripRight(StripLeft(text, IsSpace), IsSpace);
    assert ParseInt(text) == ReadSigned(t);
    if t != [] && (t[0] == '+' || t[0] == '-') {
      assert !IsDigitText(t);
    }
  }

  function DigitChar(d: nat): (c: char)
    requires d < 10
    ensures IsDigit(c) && DigitValue(c) == d
  {
    ('0' as int + d) as char
  }

  /** `str(n)` for a natural number: its decimal digits, most significant first. */
  function DecimalText(n: nat): (s: string)
    ensures |s| >= 1 && forall i :: 0 <= i < |s| ==> IsDigit(s[i])
  {
    if n < 10 then [DigitChar(n)] else DecimalText(n / 10) + [DigitChar(n % 10)]
  }

  /** `str(i)`: a minus sign before the digits of a negative number. */
  function IntText(i: int): string {
    (if i < 0 then "-" else "") + DecimalText(if i < 0 then -i else i)
  }

  lemma {:induction false} DecimalTextValue(n: nat)
    ensures IsDigitText(DecimalText(n))
    ensures DigitsValue(DecimalText(n)) == n
    decreases n
  {
    if n >= 10 {
      var s := DecimalText(n);
      assert s[..|s| - 1] == DecimalText(n / 10);
      DecimalTextValue(n / 10);
    }
  }

  /** An underscore between digits does not change the value `int()` reads. */
  lemma {:induction false} UnderscoreIgnored(a: string, b: string)
    requires forall i :: 0 <= i < |a| ==> DigitOrUnderscore(a[i])
    requires forall i :: 0 <= i < |b| ==> DigitOrUnderscore(b[i])
    ensures DigitsValue(a + "_" + b) == DigitsValue(a + b)
    decreases |b|
  {
    var s := a + "_" + b;
    if b == [] {
      assert s[..|s| - 1] == a;
      assert a + b == a;
    } else {
      var b' := b[..|b| - 1];
      assert s[..|s| - 1] == a + "_" + b';
      assert (a + b)[..|a + b| - 1] == a + b';
      UnderscoreIgnored(a, b');
    }
  }

  lemma {:induction false} StripLeftPrefix(lead: string, rest: string, drop: char -> bool)
    requires forall i :: 0 <= i < |lead| ==> drop(lead[i])
    requires rest == [] || !drop(rest[0])
    ensures StripLeft(lead + rest, drop) == rest
    decreases |lead|
  {
    if lead == [] {
      assert lead + rest == rest;
    } else {
      assert (lead + rest)[1..] == lead[1..] + rest;
      StripLeftPrefix(lead[1..], rest, drop);
    }
  }

  lemma {:induction false} StripRightSuffix(rest: string, trail: string, drop: char -> bool)
    requires forall i :: 0 <= i < |trail| ==> drop(trail[i])
    requires rest == [] || !drop(rest[|rest| - 1])
    ensures StripRight(rest + trail, drop) == rest
    decreases |trail|
  {
    if trail == [] {
      assert rest + trail == rest;
    } else {
      var t' := trail[..|trail| - 1];
      assert (rest + trail)[..|rest + trail| - 1] == rest + t';
      StripRightSuffix(rest, t', drop);
    }
  }

  /** Whitespace around a text that neither starts nor ends with whitespace is exactly what stripping drops. */
  lemma TrimPadding(lead: string, x: string, trail: string)
    requires forall k :: 0 <= k < |lead| ==> IsSpace(lead[k])
    requires forall k :: 0 <= k < |trail| ==> IsSpace(trail[k])
    requires x != [] && !IsSpace(x[0]) && !IsSpace(x[|x| - 1])
    ensures StripRight(StripLeft(lead + x + trail, IsSpace), IsSpace) == x
  {
    assert lead + x + trail == lead + (x + trail);
    StripLeftPrefix(lead, x + trail, IsSpace);
    StripRightSuffix(x, trail, IsSpace);
  }

  /** `int()` of a text between whitespace is what the text alone reads as. */
  lemma ParseIntPadded(lead: string, x: string, trail: string)
    requires forall k :: 0 <= k < |lead| ==> IsSpace(lead[k])
    requires forall k :: 0 <= k < |trail| ==> IsSpace(trail[k])
    requires x != [] && !IsSpace(x[0]) && !IsSpace(x[|x| - 1])
    ensures ParseInt(lead + x + trail) == ReadSigned(x)
  {
    TrimPadding(lead, x, trail);
  }

  /** An optional sign before digits reads as the signed value of the digits. */
  lemma ReadSignedDigits(sign: string, digits: string)
    requires sign == "" || sign == "+" || sign == "-"
    requires IsDigitText(digits)
    ensures var v: int := DigitsValue(digits);
      ReadSigned(sign + digits) == Some(if sign == "-" then -v else v)
  {
    var t := sign + digits;
    if sign == "" {
      assert t == digits;
      assert !(t[0] == '+' || t[0] == '-');
    } else {
      assert t[0] == sign[0];
      assert t[1..] == digits;
    }
  }

  /**
   * `int()` of digits after an optional sign, whatever whitespace surrounds
   * them, is the signed value of the digits (underscores between digits
   * included).
   */
  lemma ParseIntSignedDigits(lead: string, sign: string, digits: string, trail: string)
    requires sign == "" || sign == "+" || sign == "-"
    requires IsDigitText(digits)
    requires forall k :: 0 <= k < |lead| ==> IsSpace(lead[k])
    requires forall k :: 0 <= k < |trail| ==> IsSpace(trail[k])
    ensures var v: int := DigitsValue(digits);
      ParseInt(lead + (sign + digits) + trail) == Some(if sign == "-" then -v else v)
  {
    var x := sign + digits;
    assert x[|x| - 1] == digits[|digits| - 1];
    ReadSignedDigits(sign, digits);
    ParseIntPadded(lead, x, trail);
  }

  /** `int(str(i)) == i`. */
  lemma ParseIntOfIntText(i: int)
    ensures ParseInt(IntText(i)) == Some(i)
  {
    var sign := if i < 0 then "-" else "";
    var n: nat := if i < 0 then -i else i;
    DecimalTextValue(n);
    ParseIntSignedDigits("", sign, DecimalText(n), "");
    Unpadded(IntText(i));
  }

  lemma Unpadded(s: string)
    ensures "" + s + "" == s
  {
  }

  // ---------------------------------------------------------------------
  // datetime.strptime(text, '%Y-%m-%d %H:%M')
  // ---------------------------------------------------------------------

  predicate IsLeapYear(y: int) {
    y % 4 == 0 && (y % 100 != 0 || y % 400 == 0)
  }

  function DaysInMonth(y: int, m: int): int
    requires 1 <= m <= 12
  {
    if m == 2 then (if IsLeapYear(y) then 29 else 28)
    else if m == 4 || m == 6 || m == 9 || m == 11 then 30
    else 31
  }

  function Number2(a: char, b: char): nat
    requires IsDigit(a) && IsDigit(b)
  {
    10 * DigitValue(a) + DigitValue(b)
  }

  /**
   * Whether `s` is a calendar date and clock time written `YYYY-MM-DD HH:MM`:
   * year 1 to 9999, a real day of that month, hour below 24, minute below 60.
   */
  predicate IsListingDate(s: string) {
    && |s| == 16
    && IsDigit(s[0]) && IsDigit(s[1]) && IsDigit(s[2]) && IsDigit(s[3]) && s[4] == '-'
    && IsDigit(s[5]) && IsDigit(s[6]) && s[7] == '-'
    && IsDigit(s[8]) && IsDigit(s[9]) && s[10] == ' '
    && IsDigit(s[11]) && IsDigit(s[12]) && s[13] == ':'
    && IsDigit(s[14]) && IsDigit(s[15])
    && var year := 100 * Number2(s[0], s[1]) + Number2(s[2], s[3]);
    && var month := Number2(s[5], s[6]);
    && var day := Number2(s[8], s[9]);
    && 1 <= year
    && 1 <= month <= 12
    && 1 <= day <= DaysInMonth(year, month)
    && Number2(s[11], s[12]) < 24
    && Number2(s[14], s[15]) < 60
  }

  // ---------------------------------------------------------------------
  // replace(pat, '')
  // ---------------------------------------------------------------------

  /** Whether `pat` occurs somewhere in `s`. */
  predicate Contains(s: string, pat: string)
    decreases |s|
  {
    |pat| <= |s| && (s[..|pat|] == pat || Contains(s[1..], pat))
  }

  /** Python's `s.replace(pat, '')`: delete the non-overlapping occurrences, scanning left to right. */
  function RemoveAll(s: string, pat: string): (r: string)
    requires pat != []
    ensures |r| <= |s|
    decreases |s|
  {
    if |s| < |pat| then s
    else if s[..|pat|] == pat then RemoveAll(s[|pat|..], pat)
    else [s[0]] + RemoveAll(s[1..], pat)
  }

  /** Removing `.zim` from a stem followed by `.zim` gives the stem back, when the stem has no `.zim` of its own. */
  lemma {:induction false} RemoveZimSuffix(stem: string)
    requires !Contains(stem, ".zim")
    ensures RemoveAll(stem + ".zim", ".zim") == stem
    decreases |stem|
  {
    var s := stem + ".zim";
    if stem == [] {
      assert s == ".zim";
      assert s[4..] == [];
    } else {
      if |stem| >= 4 {
        assert s[..4] == stem[..4];
      } else {
        assert s[|stem|] == '.';
        assert s[..4][|stem|] != ".zim"[|stem|];
      }
      assert s[1..] == stem[1..] + ".zim";
      RemoveZimSuffix(stem[1..]);
      assert stem == [stem[0]] + stem[1..];
    }
  }
}
