/**
 * The string operations of JavaScript that the screens rely on, stated over
 * `seq<char>`: `trim`, the `/\D/g` digit filter, `slice`, `split(' ')` followed
 * by taking first characters, `replace` with a string pattern, number-to-string
 * conversion and `padStart`.
 */
module Strings {
  import opened Wrappers

  /** The characters `String.prototype.trim` removes: WhiteSpace and LineTerminator. */
  predicate IsJsWhitespace(c: char) {
    || c == '\t' || c == '\n' || c == '\U{0B}' || c == '\U{0C}' || c == '\r' || c == ' '
    || c == '\U{A0}' || c == '\U{1680}' || ('\U{2000}' <= c <= '\U{200A}')
    || c == '\U{2028}' || c == '\U{2029}' || c == '\U{202F}' || c == '\U{205F}'
    || c == '\U{3000}' || c == '\U{FEFF}'
  }

  predicate AllWhitespace(s: string) {
    forall i :: 0 <= i < |s| ==> IsJsWhitespace(s[i])
  }

  /** Drops leading whitespace: what is dropped is whitespace, what is kept starts with none. */
  function TrimStart(s: string): (r: string)
    ensures |r| <= |s| && r == s[|s| - |r|..]
    ensures forall i :: 0 <= i < |s| - |r| ==> IsJsWhitespace(s[i])
    ensures r != [] ==> !IsJsWhitespace(r[0])
  {
    if s != [] && IsJsWhitespace(s[0]) then TrimStart(s[1..]) else s
  }

  /** Drops trailing whitespace: what is dropped is whitespace, what is kept ends with none. */
  function TrimEnd(s: string): (r: string)
    ensures |r| <= |s| && r == s[..|r|]
    ensures forall i :: |r| <= i < |s| ==> IsJsWhitespace(s[i])
    ensures r != [] ==> !IsJsWhitespace(r[|r| - 1])
  {
    if s != [] && IsJsWhitespace(s[|s| - 1]) then TrimEnd(s[..|s| - 1]) else s
  }

  /** `r` is the slice of `s` that begins at `start`, with only whitespace outside it. */
  predicate IsTrimmedSlice(s: string, start: int, r: string) {
    && 0 <= start && start + |r| <= |s| && r == s[start..start + |r|]
    && (forall k :: 0 <= k < start ==> IsJsWhitespace(s[k]))
    && (forall k :: start + |r| <= k < |s| ==> IsJsWhitespace(s[k]))
  }

  /** `s.trim()`: the slice of `s` left once the whitespace at both ends is dropped;
      empty exactly when `s` is whitespace only, and otherwise neither starting nor
      ending with whitespace. */
  function Trim(s: string): (r: string)
    ensures IsTrimmedSlice(s, |s| - |TrimStart(s)|, r)
    ensures r == [] <==> AllWhitespace(s)
    ensures r != [] ==> !IsJsWhitespace(r[0]) && !IsJsWhitespace(r[|r| - 1])
  {
    var t := TrimStart(s);
    var r := TrimEnd(t);
    TrimIsSlice(s, t, r);
    r
  }

  /** Dropping whitespace from the front (giving `t`) and then from the back (giving
      `r`) leaves a slice of `s` with whitespace only outside it. */
  lemma TrimIsSlice(s: string, t: string, r: string)
    requires |t| <= |s| && t == s[|s| - |t|..]
    requires forall i :: 0 <= i < |s| - |t| ==> IsJsWhitespace(s[i])
    requires t != [] ==> !IsJsWhitespace(t[0])
    requires |r| <= |t| && r == t[..|r|] && forall i :: |r| <= i < |t| ==> IsJsWhitespace(t[i])
    requires r != [] ==> !IsJsWhitespace(r[|r| - 1])
    ensures IsTrimmedSlice(s, |s| - |t|, r)
    ensures r == [] <==> AllWhitespace(s)
    ensures r != [] ==> !IsJsWhitespace(r[0]) && !IsJsWhitespace(r[|r| - 1])
  {
    var start := |s| - |t|;
    assert t[..|r|] == s[start..start + |r|];
    forall k | start + |r| <= k < |s| ensures IsJsWhitespace(s[k]) {
      assert s[k] == t[k - start];
    }
    if r != [] {
      assert r[0] == t[0];
      assert !AllWhitespace(s) by { assert s[start] == r[0]; }
    }
  }

  predicate IsAsciiDigit(c: char) {
    '0' <= c <= '9'
  }

  predicate HasDigit(s: string) {
    exists i :: 0 <= i < |s| && IsAsciiDigit(s[i])
  }

  /** `s.replace(/\D/g, "")`: the ASCII digits of `s`, in order. */
  function KeepDigits(s: string): (r: string)
    ensures |r| <= |s|
    ensures forall i :: 0 <= i < |r| ==> IsAsciiDigit(r[i])
    ensures r == [] <==> !HasDigit(s)
    ensures (forall i :: 0 <= i < |s| ==> IsAsciiDigit(s[i])) ==> r == s
  {
    if s == [] then []
    else
      var init := s[..|s| - 1];
      var last := s[|s| - 1];
      var rest := KeepDigits(init);
      assert forall i :: 0 <= i < |init| ==> init[i] == s[i];
      if IsAsciiDigit(last) then
        assert HasDigit(s) by { assert IsAsciiDigit(s[|s| - 1]); }
        rest + [last]
      else
        assert HasDigit(s) ==> HasDigit(init) by {
          if HasDigit(s) {
            var i :| 0 <= i < |s| && IsAsciiDigit(s[i]);
            assert i < |init| && IsAsciiDigit(init[i]);
          }
        }
        rest
  }

  /** The digit filter works character by character and keeps the order: filtering a
      concatenation filters each part, and one character is kept exactly when it is a
      digit. */
  lemma {:induction false} KeepDigitsAppend(a: string, b: string)
    ensures KeepDigits(a + b) == KeepDigits(a) + KeepDigits(b)
    ensures forall c :: KeepDigits([c]) == if IsAsciiDigit(c) then [c] else []
    decreases |b|
  {
    forall c ensures KeepDigits([c]) == if IsAsciiDigit(c) then [c] else [] {
      assert [c][..0] == [];
    }
    if b == [] {
      assert a + b == a;
    } else {
      var init, last := b[..|b| - 1], b[|b| - 1];
      assert b == init + [last];
      assert a + b == (a + init) + [last];
      KeepDigitsSnoc(a + init, last);
      KeepDigitsSnoc(init, last);
      KeepDigitsAppend(a, init);
      AppendAssociative(KeepDigits(a), KeepDigits(init), if IsAsciiDigit(last) then [last] else []);
    }
  }

  /** One more character at the end is kept exactly when it is a digit. */
  lemma KeepDigitsSnoc(s: string, c: char)
    ensures KeepDigits(s + [c]) == KeepDigits(s) + if IsAsciiDigit(c) then [c] else []
  {
    assert (s + [c])[..|s|] == s;
  }

  /** Concatenation regroups; proved apart from the digit filter's facts, which make the
      same step run out of resource inside `KeepDigitsAppend`. */
  lemma AppendAssociative(x: string, y: string, z: string)
    ensures x + y + z == x + (y + z)
  {
  }

  /** When `s` has a digit, the last character kept is the last digit of `s`. */
  lemma {:induction false} LastKeptDigit(s: string)
    requires HasDigit(s)
    ensures exists i :: 0 <= i < |s| && s[i] == KeepDigits(s)[|KeepDigits(s)| - 1]
                        && forall j :: i < j < |s| ==> !IsAsciiDigit(s[j])
  {
    var init := s[..|s| - 1];
    var last := s[|s| - 1];
    var r := KeepDigits(s);
    if IsAsciiDigit(last) {
      assert r == KeepDigits(init) + [last];
      assert s[|s| - 1] == r[|r| - 1];
    } else {
      assert r == KeepDigits(init);
      assert HasDigit(init) by {
        var i :| 0 <= i < |s| && IsAsciiDigit(s[i]);
        assert i < |init| && IsAsciiDigit(init[i]);
      }
      LastKeptDigit(init);
      var i :| 0 <= i < |init| && init[i] == r[|r| - 1] && forall j :: i < j < |init| ==> !IsAsciiDigit(init[j]);
      assert s[i] == init[i];
      forall j | i < j < |s| ensures !IsAsciiDigit(s[j]) {
        if j < |init| {
          assert s[j] == init[j];
        }
      }
    }
  }

  /** `s.slice(0, n)`: the first `n` characters, or all of them when there are fewer. */
  function Take<T>(s: seq<T>, n: nat): (r: seq<T>)
    ensures |r| == if |s| < n then |s| else n
    ensures r == s[..|r|]
  {
    if |s| <= n then s else s[..n]
  }

  /** `s.slice(-1)`: the last character as a string, or "" for "". */
  function LastChar(s: string): (r: string)
    ensures |r| == if s == [] then 0 else 1
    ensures r != [] ==> r[0] == s[|s| - 1]
  {
    if s == [] then [] else [s[|s| - 1]]
  }

  /** `s.split(' ')`: the pieces between single spaces; consecutive, leading or trailing
      spaces give empty pieces, and there is always one piece more than there are spaces. */
  function SplitOnSpace(s: string): (pieces: seq<string>)
    ensures |pieces| >= 1
    ensures forall k :: 0 <= k < |pieces| ==> ' ' !in pieces[k]
    ensures JoinOnSpace(pieces) == s
  {
    if s == [] then [""]
    else
      var rest := SplitOnSpace(s[1..]);
      if s[0] == ' ' then
        var pieces := [""] + rest;
        assert pieces[1..] == rest;
        pieces
      else
        var pieces := [[s[0]] + rest[0]] + rest[1..];
        assert |rest| > 1 ==>
          pieces[1..] == rest[1..] && JoinOnSpace(rest) == rest[0] + " " + JoinOnSpace(rest[1..]);
        assert s == [s[0]] + s[1..];
        pieces
  }

  /** `pieces.join(' ')`: the inverse of `SplitOnSpace`. */
  function JoinOnSpace(pieces: seq<string>): string
    requires |pieces| >= 1
  {
    if |pieces| == 1 then pieces[0] else pieces[0] + " " + JoinOnSpace(pieces[1..])
  }

  /** `pieces.map(n => n[0]).join('')`: an empty piece gives `undefined`, which `join`
      turns into "". */
  function JoinFirstChars(pieces: seq<string>): string {
    if pieces == [] then ""
    else (if pieces[0] == "" then "" else [pieces[0][0]]) + JoinFirstChars(pieces[1..])
  }

  /** `name.split(' ').map(n => n[0]).join('')`. */
  function Initials(name: string): string {
    JoinFirstChars(SplitOnSpace(name))
  }

  /** Reference definition of the same initials: every non-space character that starts
      the string (when `atStart`) or follows a space. */
  function WordStarts(s: string, atStart: bool): string {
    if s == [] then ""
    else (if atStart && s[0] != ' ' then [s[0]] else "") + WordStarts(s[1..], s[0] == ' ')
  }

  lemma {:induction false} InitialsSplitStep(s: string)
    ensures JoinFirstChars(SplitOnSpace(s)) == WordStarts(s, true)
    ensures JoinFirstChars(SplitOnSpace(s)[1..]) == WordStarts(s, false)
  {
    if s != [] {
      InitialsSplitStep(s[1..]);
      var rest := SplitOnSpace(s[1..]);
      if s[0] == ' ' {
        assert SplitOnSpace(s) == [""] + rest;
        assert SplitOnSpace(s)[1..] == rest;
      } else {
        var first := [s[0]] + rest[0];
        assert SplitOnSpace(s) == [first] + rest[1..];
        assert SplitOnSpace(s)[1..] == rest[1..];
      }
    }
  }

  /** The initials taken through `split(' ')` are exactly the characters that begin a
      space-separated word: `"Ananya Rao"` gives `"AR"`, and empty pieces add nothing. */
  lemma InitialsAreWordStarts(name: string)
    ensures Initials(name) == WordStarts(name, true)
  {
    InitialsSplitStep(name);
  }

  /** The word starts of a concatenation: those of the first part, then those of the
      second, which begins a word when the first part ends with a space. */
  lemma {:induction false} WordStartsConcat(a: string, b: string, atStart: bool)
    requires a != []
    ensures WordStarts(a + b, atStart) == WordStarts(a, atStart) + WordStarts(b, a[|a| - 1] == ' ')
  {
    var head := if atStart && a[0] != ' ' then [a[0]] else "";
    assert (a + b)[0] == a[0] && (a + b)[1..] == a[1..] + b;
    assert WordStarts(a + b, atStart) == head + WordStarts(a[1..] + b, a[0] == ' ');
    assert WordStarts(a, atStart) == head + WordStarts(a[1..], a[0] == ' ');
    if |a| > 1 {
      WordStartsConcat(a[1..], b, a[0] == ' ');
      assert a[1..][|a[1..]| - 1] == a[|a| - 1];
    } else {
      assert a[1..] == [] && a[1..] + b == b;
    }
  }

  /** A word without spaces contributes its first character when it begins a word, and
      nothing otherwise. */
  lemma {:induction false} WordStartsOfWord(w: string, atStart: bool)
    requires w != [] && ' ' !in w
    ensures WordStarts(w, atStart) == if atStart then [w[0]] else ""
  {
    if |w| > 1 {
      assert ' ' !in w[1..] by {
        forall i | 0 <= i < |w[1..]| ensures w[1..][i] != ' ' {
          assert w[1..][i] == w[i + 1];
        }
      }
      WordStartsOfWord(w[1..], false);
    }
  }

  /** A first and a last name separated by one space give the first letter of each. */
  lemma TwoWordInitials(first: string, last: string)
    requires first != [] && last != [] && ' ' !in first && ' ' !in last
    ensures Initials(first + " " + last) == [first[0], last[0]]
  {
    InitialsAreWordStarts(first + " " + last);
    assert first + " " + last == first + (" " + last);
    WordStartsConcat(first, " " + last, true);
    WordStartsOfWord(first, true);
    assert first[|first| - 1] != ' ';
    WordStartsConcat(" ", last, false);
    WordStartsOfWord(last, true);
  }

  /** Position `i` of `s` begins a word: it is the first position (and `atStart` holds)
      or it follows a space. */
  predicate BeginsWord(s: string, i: nat, atStart: bool)
    requires i < |s|
  {
    if i == 0 then atStart else s[i - 1] == ' '
  }

  lemma {:induction false} WordStartsEmpty(s: string, atStart: bool)
    ensures WordStarts(s, atStart) == "" <==>
      forall i :: 0 <= i < |s| && BeginsWord(s, i, atStart) ==> s[i] == ' '
  {
    if s != [] {
      var t := s[1..];
      WordStartsEmpty(t, s[0] == ' ');
      forall i | 1 <= i < |s|
        ensures s[i] == t[i - 1] && BeginsWord(s, i, atStart) == BeginsWord(t, i - 1, s[0] == ' ')
      {
      }
      if WordStarts(s, atStart) == "" {
        forall i | 0 <= i < |s| && BeginsWord(s, i, atStart)
          ensures s[i] == ' '
        {
          if i > 0 {
            assert BeginsWord(t, i - 1, s[0] == ' ');
          }
        }
      }
    }
  }

  /** The initials are empty exactly when the name holds nothing but spaces. */
  lemma InitialsEmptyIff(name: string)
    ensures Initials(name) == "" <==> forall i :: 0 <= i < |name| ==> name[i] == ' '
  {
    InitialsAreWordStarts(name);
    WordStartsEmpty(name, true);
    if exists i :: 0 <= i < |name| && name[i] != ' ' {
      var i :| 0 <= i < |name| && name[i] != ' ';
      var k := i;
      while k > 0 && name[k - 1] != ' '
        invariant 0 <= k <= i
        invariant name[k] != ' '
      {
        k := k - 1;
      }
      assert BeginsWord(name, k, true) && name[k] != ' ';
    }
  }

  /** `text` holds `pattern` starting at index `i`. */
  predicate OccursAt(text: string, pattern: string, i: nat) {
    i + |pattern| <= |text| && text[i..i + |pattern|] == pattern
  }

  /** The first occurrence of `pattern` at or after `from`. */
  function IndexFrom(text: string, pattern: string, from: nat): (r: Option<nat>)
    ensures r.Some? ==> from <= r.value && OccursAt(text, pattern, r.value)
    ensures r.Some? ==> forall j :: from <= j < r.value ==> !OccursAt(text, pattern, j)
    ensures r.None? ==> forall j :: from <= j ==> !OccursAt(text, pattern, j)
    decreases |text| - from
  {
    if from + |pattern| > |text| then None
    else if text[from..from + |pattern|] == pattern then Some(from)
    else IndexFrom(text, pattern, from + 1)
  }

  /** `text.indexOf(pattern)`: the first occurrence, if any. */
  function IndexOf(text: string, pattern: string): Option<nat> {
    IndexFrom(text, pattern, 0)
  }

  /** `text.replace(pattern, replacement)` with a string pattern: only the first occurrence
      is replaced, and a text without the pattern is returned unchanged. */
  function ReplaceFirst(text: string, pattern: string, replacement: string): (r: string)
    ensures IndexOf(text, pattern).None? ==> r == text
    ensures IndexOf(text, pattern).Some? ==>
      var i := IndexOf(text, pattern).value;
      && (forall j :: 0 <= j < i ==> !OccursAt(text, pattern, j))
      && r == text[..i] + replacement + text[i + |pattern|..]
  {
    match IndexOf(text, pattern)
    case None => text
    case Some(i) => text[..i] + replacement + text[i + |pattern|..]
  }

  /** A pattern placed after a prefix that does not hold its first character is found
      right there, so `replace` swaps exactly that occurrence. */
  lemma ReplaceAfterPrefix(prefix: string, pattern: string, suffix: string, replacement: string)
    requires pattern != [] && pattern[0] !in prefix
    ensures ReplaceFirst(prefix + pattern + suffix, pattern, replacement) == prefix + replacement + suffix
  {
    var text := prefix + pattern + suffix;
    var i := |prefix|;
    assert text[i..i + |pattern|] == pattern;
    assert OccursAt(text, pattern, i);
    forall j | 0 <= j < i
      ensures !OccursAt(text, pattern, j)
    {
      assert text[j] == prefix[j];
    }
    assert text[..i] == prefix;
    assert text[i + |pattern|..] == suffix;
  }

  function DigitChar(d: nat): char
    requires d < 10
  {
    ('0' as int + d) as char
  }

  function DigitValue(c: char): nat {
    if IsAsciiDigit(c) then (c as int - '0' as int) as nat else 0
  }

  /** `n.toString()` for a non-negative integer: its decimal digits, with no leading zero. */
  function NatToDecimal(n: nat): (r: string)
    ensures r != [] && forall i :: 0 <= i < |r| ==> IsAsciiDigit(r[i])
    ensures n < 10 <==> |r| == 1
    ensures n < 100 <==> |r| <= 2
    ensures |r| > 1 ==> r[0] != '0'
  {
    if n < 10 then [DigitChar(n)] else NatToDecimal(n / 10) + [DigitChar(n % 10)]
  }

  /** `n.toString()` for an integer, with a leading minus sign when negative. */
  function IntToDecimal(n: int): (r: string)
    ensures r != []
    ensures n >= 0 ==> r == NatToDecimal(n)
    ensures n < 0 ==> r == "-" + NatToDecimal(-n)
  {
    if n >= 0 then NatToDecimal(n) else "-" + NatToDecimal(-n)
  }

  /** Reads a string of decimal digits back as a number. */
  function DecimalValue(s: string): nat {
    if s == [] then 0 else DecimalValue(s[..|s| - 1]) * 10 + DigitValue(s[|s| - 1])
  }

  /** Reading back what `NatToDecimal` prints gives the number. */
  lemma {:induction false} DecimalRoundTrip(n: nat)
    ensures DecimalValue(NatToDecimal(n)) == n
  {
    if n >= 10 {
      DecimalRoundTrip(n / 10);
      var r := NatToDecimal(n);
      assert r[..|r| - 1] == NatToDecimal(n / 10);
    }
  }

  /** Leading zeros do not change the value read back. */
  lemma {:induction false} LeadingZeros(zeros: string, s: string)
    requires forall i :: 0 <= i < |zeros| ==> zeros[i] == '0'
    ensures DecimalValue(zeros + s) == DecimalValue(s)
    decreases |s|
  {
    if s == [] {
      assert zeros + s == zeros;
      AllZeros(zeros);
    } else {
      assert (zeros + s)[..|zeros + s| - 1] == zeros + s[..|s| - 1];
      LeadingZeros(zeros, s[..|s| - 1]);
    }
  }

  lemma {:induction false} AllZeros(zeros: string)
    requires forall i :: 0 <= i < |zeros| ==> zeros[i] == '0'
    ensures DecimalValue(zeros) == 0
  {
    if zeros != [] {
      AllZeros(zeros[..|zeros| - 1]);
    }
  }

  /** `s.padStart(width, fill)`: `fill` repeated in front until `width` is reached; a string
      already that long is returned unchanged, never truncated. */
  function PadStart(s: string, width: nat, fill: char): (r: string)
    ensures |r| == if |s| < width then width else |s|
    ensures r[|r| - |s|..] == s
    ensures forall i :: 0 <= i < |r| - |s| ==> r[i] == fill
  {
    if |s| >= width then s else seq(width - |s|, _ => fill) + s
  }

  /** `s.toUpperCase()` on ASCII letters. */
  function UpperAscii(s: string): (r: string)
    ensures |r| == |s|
    ensures forall i :: 0 <= i < |s| ==> r[i] == (if 'a' <= s[i] <= 'z' then (s[i] as int - 32) as char else s[i])
  {
    seq(|s|, i requires 0 <= i < |s| => if 'a' <= s[i] <= 'z' then (s[i] as int - 32) as char else s[i])
  }

  /** Upper-casing leaves a string without lower-case ASCII letters as it is, so it is
      idempotent. */
  lemma UpperAsciiKeepsNonLower(s: string)
    requires forall i :: 0 <= i < |s| ==> !('a' <= s[i] <= 'z')
    ensures UpperAscii(s) == s
    ensures UpperAscii(UpperAscii(s)) == UpperAscii(s)
  {
    assert forall i :: 0 <= i < |s| ==> UpperAscii(s)[i] == s[i];
  }
}
