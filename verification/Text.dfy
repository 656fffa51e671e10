/** Text as sequences of Unicode scalar values: encoded sizes, decimal numerals and
    the string operations the summary code relies on. */
module Text {

  predicate OccursAt(text: string, part: string, at: nat) {
    at + |part| <= |text| && text[at..at + |part|] == part
  }

  predicate Includes(text: string, part: string) {
    exists at :: 0 <= at <= |text| && OccursAt(text, part, at)
  }

  /** UTF-8 length of one character (section 3 of RFC 3629). */
  function Utf8Width(c: char): (n: nat)
    ensures 1 <= n <= 4
  {
    if c as int < 0x80 then 1 else if c as int < 0x800 then 2 else if c as int < 0x1_0000 then 3 else 4
  }

  /** Code units in the source's UTF-16 strings. */
  function Utf16Width(c: char): nat { if c as int < 0x1_0000 then 1 else 2 }

  function Bytes(s: string): nat {
    if s == [] then 0 else Bytes(s[..|s| - 1]) + Utf8Width(s[|s| - 1])
  }

  function Units16(s: string): nat {
    if s == [] then 0 else Units16(s[..|s| - 1]) + Utf16Width(s[|s| - 1])
  }

  lemma {:induction false} SizesAppend(s: string, t: string)
    ensures Bytes(s + t) == Bytes(s) + Bytes(t)
    ensures Units16(s + t) == Units16(s) + Units16(t)
  {
    if t == [] {
      assert s + t == s;
    } else {
      assert (s + t)[..|s + t| - 1] == s + t[..|t| - 1];
      SizesAppend(s, t[..|t| - 1]);
    }
  }

  lemma {:induction false} SizesAtLeastLength(s: string)
    ensures Bytes(s) >= |s| && Units16(s) >= |s|
  {
    if s != [] { SizesAtLeastLength(s[..|s| - 1]); }
  }

  predicate Ascii(s: string) { forall k :: 0 <= k < |s| ==> s[k] as int < 0x80 }

  lemma {:induction false} AsciiBytes(s: string)
    requires Ascii(s)
    ensures Bytes(s) == |s|
  {
    if s != [] { AsciiBytes(s[..|s| - 1]); }
  }

  // -------------------------------------------------------------------- numerals

  function Digit(d: nat): char
    requires d < 10
  {
    '0' + d as char
  }

  function Decimal(n: nat): string {
    if n < 10 then [Digit(n)] else Decimal(n / 10) + [Digit(n % 10)]
  }

  lemma {:induction false} DecimalAscii(n: nat)
    ensures Ascii(Decimal(n)) && Decimal(n) != []
  {
    if n >= 10 { DecimalAscii(n / 10); }
  }

  lemma {:induction false} DecimalGrows(m: nat, n: nat)
    requires m <= n
    ensures |Decimal(m)| <= |Decimal(n)|
  {
    if m >= 10 { DecimalGrows(m / 10, n / 10); }
  }

  function Repeat(c: char, n: nat): string { seq(n, _ => c) }

  function PadStart(s: string, width: nat, c: char): string {
    if |s| >= width then s else Repeat(c, width - |s|) + s
  }

  // ------------------------------------------------------------------ replacement

  /** Leftmost, non-overlapping replacement of every occurrence. */
  function ReplaceAll(text: string, part: string, with: string): string
    requires part != []
    decreases |text|
  {
    if text == [] then []
    else if part <= text then with + ReplaceAll(text[|part|..], part, with)
    else [text[0]] + ReplaceAll(text[1..], part, with)
  }

  predicate Disjoint(s: string, t: string) { forall c :: c in s ==> c !in t }

  /** A prefix of the result that has nothing of the replacement in it was a prefix of
      the text. */
  lemma {:induction false} PrefixKept(text: string, part: string, with: string, m: string)
    requires part != [] && with != [] && Disjoint(with, m) && m <= ReplaceAll(text, part, with)
    ensures m <= text
    decreases |text|
  {
    if m != [] {
      StartsWithKept(text, part, with, m[0]);
      assert m[1..] <= ReplaceAll(text[1..], part, with);
      PrefixKept(text[1..], part, with, m[1..]);
      assert m == [m[0]] + m[1..] && text == [text[0]] + text[1..];
    }
  }

  lemma StartsWithKept(text: string, part: string, with: string, c: char)
    requires part != [] && with != [] && c !in with && [c] <= ReplaceAll(text, part, with)
    ensures text != [] && !(part <= text) && text[0] == c
  {
    assert ReplaceAll(text, part, with)[0] == [c][0];
  }

  lemma SuffixFree(text: string, from: nat, m: string)
    requires from <= |text| && !Includes(text, m)
    ensures !Includes(text[from..], m)
  {
    forall at | 0 <= at <= |text[from..]| ensures !OccursAt(text[from..], m, at) {
      if OccursAt(text[from..], m, at) {
        assert text[from..][at..at + |m|] == text[from + at..from + at + |m|];
        assert OccursAt(text, m, from + at);
      }
    }
  }

  /** Replacing leaves no occurrence of what is replaced, and makes none of anything
      that shares no character with the replacement. */
  lemma {:induction false} ReplaceLeavesNone(text: string, part: string, with: string, m: string)
    requires part != [] && m != [] && with != [] && Disjoint(with, m)
    requires m == part || !Includes(text, m)
    ensures !Includes(ReplaceAll(text, part, with), m)
    decreases |text|
  {
    if text == [] {
    } else if part <= text {
      if m != part { SuffixFree(text, |part|, m); }
      ReplaceLeavesNone(text[|part|..], part, with, m);
      NoneAfter(with, ReplaceAll(text[|part|..], part, with), m);
    } else {
      if m != part { SuffixFree(text, 1, m); }
      ReplaceLeavesNone(text[1..], part, with, m);
      NoneBefore(text, part, with, m);
    }
  }

  lemma AppendedOccurrence(s: string, t: string, m: string, at: nat)
    requires m != [] && OccursAt(s + t, m, at)
    ensures if at < |s| then m[0] in s else OccursAt(t, m, at - |s|)
  {
    var all := s + t;
    assert all[at..at + |m|][0] == all[at];
    if at < |s| {
      assert m[0] == s[at];
    } else {
      assert all[at..at + |m|] == t[at - |s|..at - |s| + |m|];
    }
  }

  /** No occurrence starts inside a text that shares no character with it. */
  lemma NoneAfter(with: string, rest: string, m: string)
    requires m != [] && Disjoint(with, m) && !Includes(rest, m)
    ensures !Includes(with + rest, m)
  {
    forall at | 0 <= at <= |with + rest| ensures !OccursAt(with + rest, m, at) {
      if OccursAt(with + rest, m, at) { AppendedOccurrence(with, rest, m, at); }
    }
  }

  lemma NoneBefore(text: string, part: string, with: string, m: string)
    requires part != [] && m != [] && with != [] && Disjoint(with, m) && text != [] && !(part <= text)
    requires m == part || !Includes(text, m)
    requires !Includes(ReplaceAll(text[1..], part, with), m)
    ensures !Includes(ReplaceAll(text, part, with), m)
  {
    var rest := ReplaceAll(text[1..], part, with);
    forall at | 0 <= at <= |[text[0]] + rest| ensures !OccursAt([text[0]] + rest, m, at) {
      if OccursAt([text[0]] + rest, m, at) {
        AppendedOccurrence([text[0]], rest, m, at);
        if at == 0 { PrefixOccurs(text, part, with, m); }
      }
    }
  }

  lemma PrefixOccurs(text: string, part: string, with: string, m: string)
    requires part != [] && with != [] && Disjoint(with, m) && OccursAt(ReplaceAll(text, part, with), m, 0)
    ensures m <= text && Includes(text, m)
  {
    PrefixKept(text, part, with, m);
    assert OccursAt(text, m, 0);
  }

  /** Replacing by something no longer never makes the text longer. */
  lemma {:induction false} ReplaceShrinks(text: string, part: string, with: string)
    requires part != [] && Bytes(with) <= Bytes(part)
    ensures Bytes(ReplaceAll(text, part, with)) <= Bytes(text)
    decreases |text|
  {
    if text == [] {
    } else if part <= text {
      assert text == part + text[|part|..];
      SizesAppend(part, text[|part|..]);
      SizesAppend(with, ReplaceAll(text[|part|..], part, with));
      ReplaceShrinks(text[|part|..], part, with);
    } else {
      assert text == [text[0]] + text[1..];
      SizesAppend([text[0]], text[1..]);
      SizesAppend([text[0]], ReplaceAll(text[1..], part, with));
      ReplaceShrinks(text[1..], part, with);
    }
  }
}
