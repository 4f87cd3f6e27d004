/**
 * The pieces of JavaScript's string library that the front end's parsing and naming rules
 * are built from: `trim`, `split` on one character, `split(/\r?\n/)`, `join`, `startsWith`,
 * a global one-character `replace`, and the decimal form of a non-negative integer in a
 * template literal. Strings are sequences of Unicode scalar values.
 */
module JsText {

  /** WhiteSpace and LineTerminator of ECMA-262: what `String.prototype.trim` removes. */
  predicate IsWhiteSpace(c: char) {
    c == '\t' || c == '\n' || c == '\U{B}' || c == '\U{C}' || c == '\r' || c == ' '
    || c == '\U{A0}' || c == '\U{1680}' || ('\U{2000}' <= c <= '\U{200A}')
    || c == '\U{2028}' || c == '\U{2029}' || c == '\U{202F}' || c == '\U{205F}'
    || c == '\U{3000}' || c == '\U{FEFF}'
  }

  /** Only white space: the strings for which `s.trim()` is falsy. */
  predicate IsBlank(s: string) {
    forall i :: 0 <= i < |s| ==> IsWhiteSpace(s[i])
  }

  /**
   * `s.trim()`: white space removed from both ends; empty exactly for blank input, and
   * otherwise with white space on neither end.
   */
  function Trim(s: string): (r: string)
    ensures |r| <= |s|
    ensures r == [] <==> IsBlank(s)
    ensures r != [] ==> !IsWhiteSpace(r[0]) && !IsWhiteSpace(r[|r| - 1])
  {
    if |s| > 0 && IsWhiteSpace(s[0]) then Trim(s[1..])
    else if |s| > 0 && IsWhiteSpace(s[|s| - 1]) then Trim(s[..|s| - 1])
    else s
  }

  /** The number of white-space characters `s` starts with. */
  function LeadingWhiteSpace(s: string): (n: nat)
    ensures n <= |s| && IsBlank(s[..n])
    ensures n < |s| ==> !IsWhiteSpace(s[n])
  {
    if |s| > 0 && IsWhiteSpace(s[0]) then
      var n := LeadingWhiteSpace(s[1..]);
      assert s[..n + 1] == [s[0]] + s[1..][..n];
      n + 1
    else 0
  }

  /** `s` with `Trim(s)` found at offset `i` and only white space after it. */
  predicate TrimmedAt(s: string, i: nat) {
    i + |Trim(s)| <= |s| && Trim(s) == s[i..i + |Trim(s)|] && IsBlank(s[i + |Trim(s)|..])
  }

  /**
   * What `trim()` keeps is the slice of its input after the leading white space, and all
   * that follows that slice is white space.
   */
  lemma {:induction false} TrimIsSlice(s: string)
    ensures TrimmedAt(s, LeadingWhiteSpace(s))
    decreases |s|, 1
  {
    if |s| > 0 && IsWhiteSpace(s[0]) {
      TrimIsSliceFront(s);
    } else if |s| > 0 && IsWhiteSpace(s[|s| - 1]) {
      TrimIsSliceBack(s);
    } else {
      assert s[0..|s|] == s;
    }
  }

  lemma {:induction false} TrimIsSliceFront(s: string)
    requires |s| > 0 && IsWhiteSpace(s[0])
    ensures TrimmedAt(s, LeadingWhiteSpace(s))
    decreases |s|, 0
  {
    var r := Trim(s);
    TrimIsSlice(s[1..]);
    var i := LeadingWhiteSpace(s[1..]);
    assert s[1..][i..i + |r|] == s[i + 1..i + 1 + |r|];
    assert s[1..][i + |r|..] == s[i + 1 + |r|..];
  }

  lemma {:induction false} TrimIsSliceBack(s: string)
    requires |s| > 0 && !IsWhiteSpace(s[0]) && IsWhiteSpace(s[|s| - 1])
    ensures TrimmedAt(s, LeadingWhiteSpace(s))
    decreases |s|, 0
  {
    var r := Trim(s);
    var t := s[..|s| - 1];
    TrimIsSlice(t);
    assert LeadingWhiteSpace(t) == 0;
    assert t[0..|r|] == s[0..|r|];
    assert s[|r|..] == t[|r|..] + [s[|s| - 1]];
  }

  /** Trimming a string that has no white space on either end gives it back. */
  lemma TrimUnpadded(s: string)
    requires s == [] || (!IsWhiteSpace(s[0]) && !IsWhiteSpace(s[|s| - 1]))
    ensures Trim(s) == s
  {
  }

  /** `trim()` is idempotent. */
  lemma TrimIdempotent(s: string)
    ensures Trim(Trim(s)) == Trim(s)
  {
    TrimUnpadded(Trim(s));
  }

  /** `s.startsWith(p)`. */
  predicate StartsWith(s: string, p: string) {
    |p| <= |s| && s[..|p|] == p
  }

  /** Position `i` holds `c` and no earlier position does. */
  predicate FirstAt(s: string, c: char, i: nat) {
    i < |s| && s[i] == c && forall j :: 0 <= j < i ==> s[j] != c
  }

  /** Index of the first occurrence of `c` (`s.indexOf(c)` when it is found). */
  function IndexOf(s: string, c: char): (i: nat)
    requires c in s
    ensures FirstAt(s, c, i)
  {
    if s[0] == c then 0
    else IndexOf(s[1..], c) + 1
  }

  /**
   * `s.split(sep)` for a one-character separator: the pieces between separators, in order,
   * always at least one, none containing the separator, and a single piece exactly when the
   * separator does not occur.
   */
  function Split(s: string, sep: char): (parts: seq<string>)
    ensures |parts| >= 1
    ensures forall i :: 0 <= i < |parts| ==> sep !in parts[i]
  {
    if |s| == 0 then [""]
    else
      var rest := Split(s[1..], sep);
      if s[0] == sep then [""] + rest
      else
        assert s == [s[0]] + s[1..];
        [[s[0]] + rest[0]] + rest[1..]
  }

  /** A split gives a single piece, the whole string, exactly when the separator does not occur. */
  lemma {:induction false} SplitSingle(s: string, sep: char)
    ensures |Split(s, sep)| == 1 <==> sep !in s
    ensures sep !in s ==> Split(s, sep) == [s]
  {
    if |s| > 0 {
      SplitSingle(s[1..], sep);
      assert s == [s[0]] + s[1..];
    }
  }

  /** The pieces of a split hold only characters of the split string. */
  lemma {:induction false} SplitPartsFrom(s: string, sep: char, c: char)
    requires c !in s
    ensures forall i :: 0 <= i < |Split(s, sep)| ==> c !in Split(s, sep)[i]
  {
    if |s| > 0 {
      assert c !in s[1..];
      SplitPartsFrom(s[1..], sep, c);
    }
  }

  /** `parts.join(sep)`: "" for no parts, the parts with `sep` between neighbours otherwise. */
  function Join(parts: seq<string>, sep: string): string {
    if |parts| == 0 then ""
    else if |parts| == 1 then parts[0]
    else parts[0] + sep + Join(parts[1..], sep)
  }

  /** Every occurrence of `c` replaced by `d`. */
  function ReplaceChar(s: string, c: char, d: char): string {
    seq(|s|, i requires 0 <= i < |s| => if s[i] == c then d else s[i])
  }

  /** `s.replace(/c/g, '')`: every occurrence of `c` removed, the rest kept in order. */
  function RemoveChar(s: string, c: char): (r: string)
    ensures c !in r
    ensures |r| <= |s|
    ensures c !in s ==> r == s
  {
    if |s| == 0 then ""
    else
      assert s == [s[0]] + s[1..];
      (if s[0] == c then "" else [s[0]]) + RemoveChar(s[1..], c)
  }

  /** Splitting on `c` and joining with `d` replaces each `c` by `d`. */
  lemma {:induction false} JoinSplit(s: string, c: char, d: char)
    ensures Join(Split(s, c), [d]) == ReplaceChar(s, c, d)
  {
    if |s| > 0 {
      var rest := Split(s[1..], c);
      JoinSplit(s[1..], c, d);
      assert ReplaceChar(s, c, d) == [if s[0] == c then d else s[0]] + ReplaceChar(s[1..], c, d);
      if s[0] != c {
        if |rest| > 1 {
          assert Join(Split(s, c), [d]) == [s[0]] + rest[0] + [d] + Join(rest[1..], [d]);
        }
      }
    }
  }

  /** Replacing a character by itself changes nothing. */
  lemma ReplaceCharSelf(s: string, c: char)
    ensures ReplaceChar(s, c, c) == s
  {
  }

  /** `s.split(c).join(c)` gives `s` back. */
  lemma JoinSplitRoundTrip(s: string, c: char)
    ensures Join(Split(s, c), [c]) == s
  {
    JoinSplit(s, c, c);
    ReplaceCharSelf(s, c);
  }

  /** The first piece of a split is the text before the first separator; the rest is the split of what follows it. */
  lemma SplitAtFirst(s: string, c: char)
    requires c in s
    ensures Split(s, c) == [s[..IndexOf(s, c)]] + Split(s[IndexOf(s, c) + 1..], c)
  {
    SplitAtSeparator(s, c, IndexOf(s, c));
  }

  /** The same, for any position holding the first separator. */
  lemma {:induction false} SplitAtSeparator(s: string, c: char, i: nat)
    requires FirstAt(s, c, i)
    ensures Split(s, c) == [s[..i]] + Split(s[i + 1..], c)
  {
    var t := s[1..];
    if i == 0 {
      assert Split(s, c) == [""] + Split(t, c);
    } else {
      SplitAtSeparator(t, c, i - 1);
      SplitPastHead(s, c, i);
    }
  }

  /** One step of the induction above: the split of the tail, with the head put back on its first piece. */
  lemma SplitPastHead(s: string, c: char, i: nat)
    requires 0 < i < |s| && s[0] != c
    requires Split(s[1..], c) == [s[1..][..i - 1]] + Split(s[1..][i..], c)
    ensures Split(s, c) == [s[..i]] + Split(s[i + 1..], c)
  {
    var t := s[1..];
    var rest := Split(t, c);
    assert Split(s, c) == [[s[0]] + rest[0]] + rest[1..];
    assert t[i..] == s[i + 1..];
    assert [s[0]] + t[..i - 1] == s[..i];
  }

  /** Splitting around one separator concatenates the splits of the two sides. */
  lemma {:induction false} SplitAround(a: string, c: char, b: string)
    ensures Split(a + [c] + b, c) == Split(a, c) + Split(b, c)
  {
    if |a| == 0 {
      assert (a + [c] + b)[1..] == b;
    } else {
      assert (a + [c] + b)[1..] == a[1..] + [c] + b;
      SplitAround(a[1..], c, b);
    }
  }

  /** A joined sequence is empty only when there are no parts or one empty part (for a non-empty separator). */
  lemma {:induction false} JoinEmpty(parts: seq<string>, sep: string)
    requires sep != ""
    ensures Join(parts, sep) == "" <==> |parts| == 0 || parts == [""]
  {
    if |parts| > 1 {
      assert |Join(parts, sep)| >= |sep|;
    }
  }

  /** A trailing carriage return removed (the `\r?` before a line break). */
  function DropCarriageReturn(line: string): string {
    if |line| > 0 && line[|line| - 1] == '\r' then line[..|line| - 1] else line
  }

  /** `s.split(/\r?\n/)`: the pieces between `\n`, each but the last without the `\r` just before its break. */
  function SplitLines(s: string): (lines: seq<string>)
    ensures |lines| == |Split(s, '\n')|
    ensures forall i :: 0 <= i < |lines| ==> '\n' !in lines[i]
  {
    var parts := Split(s, '\n');
    seq(|parts|, i requires 0 <= i < |parts| =>
      if i < |parts| - 1 then DropCarriageReturn(parts[i]) else parts[i])
  }

  /** The character of a decimal digit. */
  function DigitChar(d: nat): (c: char)
    requires d < 10
    ensures '0' <= c <= '9'
  {
    (48 + d) as char
  }

  /** The value of a decimal digit character. */
  function DigitValue(c: char): nat
    requires '0' <= c <= '9'
  {
    c as int - 48
  }

  predicate IsDecimal(s: string) {
    forall i :: 0 <= i < |s| ==> '0' <= s[i] <= '9'
  }

  /** `${n}` for a non-negative integer: canonical decimal digits, no leading zero. */
  function NatToString(n: nat): (s: string)
    ensures |s| >= 1 && IsDecimal(s)
    ensures s[0] == '0' ==> n == 0 && s == "0"
  {
    if n < 10 then [DigitChar(n)]
    else NatToString(n / 10) + [DigitChar(n % 10)]
  }

  /** The number a string of decimal digits denotes. */
  function ParseDecimal(s: string): nat
    requires IsDecimal(s)
  {
    if |s| == 0 then 0
    else ParseDecimal(s[..|s| - 1]) * 10 + DigitValue(s[|s| - 1])
  }

  /** Reading back the decimal form of `n` gives `n`. */
  lemma {:induction false} DecimalRoundTrip(n: nat)
    ensures ParseDecimal(NatToString(n)) == n
  {
    if n >= 10 {
      DecimalRoundTrip(n / 10);
      var s := NatToString(n);
      assert s[..|s| - 1] == NatToString(n / 10);
    }
  }

  /** Distinct numbers have distinct decimal forms. */
  lemma NatToStringInjective(m: nat, n: nat)
    requires NatToString(m) == NatToString(n)
    ensures m == n
  {
    DecimalRoundTrip(m);
    DecimalRoundTrip(n);
  }
}
