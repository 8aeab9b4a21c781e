/**
 * The JavaScript string built-ins the pages rely on: `trim`, `toLowerCase`,
 * `includes`, `split(',')` and `padStart` on decimal numbers.
 */
module Text {

  /** The code points `String.prototype.trim` strips: ECMAScript WhiteSpace and LineTerminator. */
  predicate IsSpace(c: char) {
    || c == '\t' || c == '\n' || c == '\U{000B}' || c == '\U{000C}' || c == '\r' || c == ' '
    || c == '\U{00A0}' || c == '\U{1680}' || ('\U{2000}' <= c <= '\U{200A}')
    || c == '\U{2028}' || c == '\U{2029}' || c == '\U{202F}' || c == '\U{205F}'
    || c == '\U{3000}' || c == '\U{FEFF}'
  }

  /** Drops the leading white space. */
  function TrimStart(s: string): (r: string)
    ensures |r| <= |s| && r == s[|s| - |r|..]
    ensures forall i :: 0 <= i < |s| - |r| ==> IsSpace(s[i])
    ensures r == [] || !IsSpace(r[0])
  {
    if s != [] && IsSpace(s[0]) then TrimStart(s[1..]) else s
  }

  /** Drops the trailing white space. */
  function TrimEnd(s: string): (r: string)
    ensures |r| <= |s| && r == s[..|r|]
    ensures forall i :: |r| <= i < |s| ==> IsSpace(s[i])
    ensures r == [] || !IsSpace(r[|r| - 1])
  {
    if s != [] && IsSpace(s[|s| - 1]) then TrimEnd(s[..|s| - 1]) else s
  }

  /** `s.trim()` */
  function Trim(s: string): string {
    TrimEnd(TrimStart(s))
  }

  /** `!s.trim()`: the text is empty once trimmed. */
  predicate IsBlank(s: string) {
    Trim(s) == ""
  }

  /** A text is blank exactly when every character of it is white space. */
  lemma BlankIffAllSpace(s: string)
    ensures IsBlank(s) <==> forall i :: 0 <= i < |s| ==> IsSpace(s[i])
  {
    TrimStartAllSpace(s);
    TrimEndAllSpace(TrimStart(s));
  }

  lemma TrimStartAllSpace(s: string)
    ensures TrimStart(s) == [] <==> forall i :: 0 <= i < |s| ==> IsSpace(s[i])
  {
    var u := TrimStart(s);
    assert u != [] ==> u[0] == s[|s| - |u|];
  }

  lemma TrimEndAllSpace(s: string)
    ensures TrimEnd(s) == [] <==> forall i :: 0 <= i < |s| ==> IsSpace(s[i])
  {
    var u := TrimEnd(s);
    assert u != [] ==> u[|u| - 1] == s[|u| - 1];
  }

  /** Trimming twice is trimming once. */
  lemma TrimIdempotent(s: string)
    ensures Trim(Trim(s)) == Trim(s)
  {
    var t := Trim(s);
    if t != [] {
      assert !IsSpace(t[0]) by {
        var u := TrimStart(s);
        assert t == u[..|t|];
      }
      assert TrimStart(t) == t;
    }
  }

  /** A trimmed text neither starts nor ends with white space. */
  lemma TrimmedHasNoOuterSpace(s: string)
    ensures Trim(s) == [] || (!IsSpace(Trim(s)[0]) && !IsSpace(Trim(s)[|Trim(s)| - 1]))
  {
    var u := TrimStart(s);
    var t := Trim(s);
    if t != [] {
      assert t == u[..|t|];
    }
  }

  /** `toLowerCase` on one character; only the ASCII letters have a case here. */
  function LowerChar(c: char): char {
    if 'A' <= c <= 'Z' then (c as int + 32) as char else c
  }

  /** `s.toLowerCase()` */
  function ToLower(s: string): (r: string)
    ensures |r| == |s|
    ensures forall i :: 0 <= i < |s| ==> r[i] == LowerChar(s[i])
  {
    seq(|s|, i requires 0 <= i < |s| => LowerChar(s[i]))
  }

  /** `sub` occurs in `s` starting at index `i`. */
  predicate OccursAt(s: string, sub: string, i: nat) {
    i + |sub| <= |s| && s[i..i + |sub|] == sub
  }

  /** `s.includes(sub)` */
  predicate Contains(s: string, sub: string) {
    exists i: nat | i <= |s| :: OccursAt(s, sub, i)
  }

  /** Every text includes the empty text, so an empty search term matches everything. */
  lemma ContainsEmpty(s: string)
    ensures Contains(s, "")
  {
    assert OccursAt(s, "", 0);
  }

  /** A text includes itself. */
  lemma ContainsSelf(s: string)
    ensures Contains(s, s)
  {
    assert OccursAt(s, s, 0);
  }

  /** Case-insensitive `includes`: both sides lowered, as the search boxes do. */
  predicate ContainsIgnoringCase(s: string, term: string) {
    Contains(ToLower(s), ToLower(term))
  }

  // ---------------------------------------------------------------------------
  // Splitting on a separator, as `text.split(',')`.

  /** `s.split(sep)`: the pieces between separators, always at least one. */
  function Split(s: string, sep: char): (r: seq<string>)
    ensures |r| >= 1
    ensures forall k :: 0 <= k < |r| ==> sep !in r[k]
  {
    if s == [] then [""]
    else
      var rest := Split(s[1..], sep);
      if s[0] == sep then [""] + rest
      else [[s[0]] + rest[0]] + rest[1..]
  }

  /** `pieces.join(sep)`, the inverse of `Split`. */
  function Join(pieces: seq<string>, sep: char): string
    requires |pieces| >= 1
  {
    if |pieces| == 1 then pieces[0] else pieces[0] + [sep] + Join(pieces[1..], sep)
  }

  /** Splitting and joining again gives back the text: no character is lost or added. */
  lemma {:induction false} JoinSplit(s: string, sep: char)
    ensures Join(Split(s, sep), sep) == s
  {
    if s != [] {
      var rest := Split(s[1..], sep);
      JoinSplit(s[1..], sep);
      if s[0] == sep {
        assert Split(s, sep)[1..] == rest;
      } else {
        var r := Split(s, sep);
        assert r[1..] == rest[1..];
        if |rest| == 1 {
          assert Join(r, sep) == [s[0]] + rest[0];
        } else {
          assert Join(r, sep) == [s[0]] + rest[0] + [sep] + Join(rest[1..], sep);
        }
      }
    }
  }

  /** The trimmed, non-empty pieces of `s.split(sep)`, in order. */
  function SplitTrimmed(s: string, sep: char): seq<string> {
    TrimmedNonEmpty(Split(s, sep))
  }

  /** `pieces.map(p => p.trim()).filter(p => p)` */
  function TrimmedNonEmpty(pieces: seq<string>): seq<string> {
    if pieces == [] then []
    else
      var t := Trim(pieces[0]);
      (if t == "" then [] else [t]) + TrimmedNonEmpty(pieces[1..])
  }

  /** Every item kept is non-empty, already trimmed, and free of the separator. */
  lemma {:induction false} SplitTrimmedItems(s: string, sep: char)
    ensures forall k :: 0 <= k < |SplitTrimmed(s, sep)| ==> CleanItem(SplitTrimmed(s, sep)[k], sep)
  {
    TrimmedNonEmptyItems(Split(s, sep), sep);
  }

  lemma {:induction false} TrimmedNonEmptyItems(pieces: seq<string>, sep: char)
    requires forall k :: 0 <= k < |pieces| ==> sep !in pieces[k]
    ensures forall k :: 0 <= k < |TrimmedNonEmpty(pieces)| ==> CleanItem(TrimmedNonEmpty(pieces)[k], sep)
  {
    if pieces != [] {
      var tail := TrimmedNonEmpty(pieces[1..]);
      TrimmedNonEmptyItems(pieces[1..], sep);
      var t := Trim(pieces[0]);
      if t != "" {
        TrimKeepsOut(pieces[0], sep);
        TrimIdempotent(pieces[0]);
        assert CleanItem(t, sep);
        assert TrimmedNonEmpty(pieces) == [t] + tail;
      } else {
        assert TrimmedNonEmpty(pieces) == tail;
      }
    }
  }

  /** What `SplitTrimmed` promises of each item it keeps. */
  predicate CleanItem(item: string, sep: char) {
    item != "" && Trim(item) == item && sep !in item
  }

  /** Trimming only removes characters, so a character absent before stays absent. */
  lemma TrimKeepsOut(s: string, c: char)
    requires c !in s
    ensures c !in Trim(s)
  {
    var u := TrimStart(s);
    var t := Trim(s);
    assert t == u[..|t|];
    assert u == s[|s| - |u|..];
  }

  /** A text that is blank yields no items at all. */
  lemma {:induction false} SplitTrimmedBlank(s: string, sep: char)
    requires IsBlank(s)
    ensures SplitTrimmed(s, sep) == []
  {
    BlankIffAllSpace(s);
    if !IsSpace(sep) {
      assert sep !in s;
      NoSepSplit(s, sep);
      assert Split(s, sep) == [s];
    } else {
      AllSpacePieces(s, sep);
      forall k | 0 <= k < |Split(s, sep)| ensures IsBlank(Split(s, sep)[k]) {
        BlankIffAllSpace(Split(s, sep)[k]);
      }
    }
    TrimmedNonEmptyAllBlank(Split(s, sep));
  }

  lemma {:induction false} NoSepSplit(s: string, sep: char)
    requires sep !in s
    ensures Split(s, sep) == [s]
  {
    if s != [] {
      NoSepSplit(s[1..], sep);
      assert [s[0]] + s[1..] == s;
    }
  }

  /** Every character is white space. */
  predicate AllSpace(s: string) {
    forall i :: 0 <= i < |s| ==> IsSpace(s[i])
  }

  lemma {:induction false} AllSpacePieces(s: string, sep: char)
    requires AllSpace(s)
    ensures forall k :: 0 <= k < |Split(s, sep)| ==> AllSpace(Split(s, sep)[k])
  {
    if s != [] {
      AllSpacePieces(s[1..], sep);
      var rest := Split(s[1..], sep);
      if s[0] != sep {
        assert Split(s, sep)[0] == [s[0]] + rest[0];
      }
    }
  }

  lemma {:induction false} TrimmedNonEmptyAllBlank(pieces: seq<string>)
    requires forall k :: 0 <= k < |pieces| ==> IsBlank(pieces[k])
    ensures TrimmedNonEmpty(pieces) == []
  {
    if pieces != [] {
      TrimmedNonEmptyAllBlank(pieces[1..]);
    }
  }

  // ---------------------------------------------------------------------------
  // Decimal numbers padded with zeros, as `String(n).padStart(width, '0')`.

  predicate IsDigit(c: char) {
    '0' <= c <= '9'
  }

  function DigitChar(d: nat): (c: char)
    requires d < 10
    ensures IsDigit(c)
  {
    (48 + d) as char
  }

  /** `String(n)` for a non-negative integer. */
  function Digits(n: nat): (r: string)
    ensures |r| >= 1
    ensures forall i :: 0 <= i < |r| ==> IsDigit(r[i])
  {
    if n < 10 then [DigitChar(n)] else Digits(n / 10) + [DigitChar(n % 10)]
  }

  /** `s.padStart(width, fill)` */
  function PadStart(s: string, width: nat, fill: char): (r: string)
    ensures |r| == if |s| < width then width else |s|
    ensures r[|r| - |s|..] == s
    ensures forall i :: 0 <= i < |r| - |s| ==> r[i] == fill
  {
    if |s| < width then seq(width - |s|, _ => fill) + s else s
  }

  /** `String(n).padStart(width, '0')` */
  function PadNumber(n: nat, width: nat): (r: string)
    ensures |r| >= width
    ensures forall i :: 0 <= i < |r| ==> IsDigit(r[i])
  {
    PadStart(Digits(n), width, '0')
  }

  /** The number a string of decimal digits denotes. */
  function DecimalValue(s: string): nat
    requires forall i :: 0 <= i < |s| ==> IsDigit(s[i])
  {
    if s == [] then 0
    else
      assert IsDigit(s[|s| - 1]);
      DecimalValue(s[..|s| - 1]) * 10 + (s[|s| - 1] as int - 48)
  }

  lemma {:induction false} DecimalValueOfDigits(n: nat)
    ensures DecimalValue(Digits(n)) == n
  {
    if n >= 10 {
      var d := Digits(n);
      assert d[..|d| - 1] == Digits(n / 10);
      DecimalValueOfDigits(n / 10);
    }
  }

  lemma {:induction false} LeadingZerosAddNothing(zeros: string, s: string)
    requires forall i :: 0 <= i < |zeros| ==> zeros[i] == '0'
    requires forall i :: 0 <= i < |s| ==> IsDigit(s[i])
    ensures DecimalValue(zeros + s) == DecimalValue(s)
    decreases |s|, |zeros|
  {
    if s == [] {
      assert zeros + s == zeros;
      if zeros != [] {
        assert zeros[..|zeros| - 1] + [] == zeros[..|zeros| - 1];
        LeadingZerosAddNothing(zeros[..|zeros| - 1], []);
      }
    } else {
      assert (zeros + s)[..|zeros + s| - 1] == zeros + s[..|s| - 1];
      LeadingZerosAddNothing(zeros, s[..|s| - 1]);
    }
  }

  /** Reading a zero-padded number back gives the number: padding loses nothing. */
  lemma PadNumberRoundTrip(n: nat, width: nat)
    ensures DecimalValue(PadNumber(n, width)) == n
  {
    var d := Digits(n);
    var r := PadNumber(n, width);
    DecimalValueOfDigits(n);
    var zeros := r[..|r| - |d|];
    assert r == zeros + d;
    LeadingZerosAddNothing(zeros, d);
  }

  /** Distinct numbers get distinct padded codes. */
  lemma PadNumberInjective(a: nat, b: nat, width: nat)
    requires PadNumber(a, width) == PadNumber(b, width)
    ensures a == b
  {
    PadNumberRoundTrip(a, width);
    PadNumberRoundTrip(b, width);
  }
}
