/** Text helpers used by the catalog search and the compose generator:
    ASCII lower-casing (`toLowerCase`), substring search (`includes`),
    decimal rendering of numbers (template-literal interpolation) and
    newline-terminated lines. */
module Text {

  // ---------------------------------------------------------------------------
  // Lower-casing
  // ---------------------------------------------------------------------------

  predicate IsUpper(c: char) {
    'A' <= c <= 'Z'
  }

  /** `toLowerCase` on one character, restricted to ASCII letters. */
  function LowerChar(c: char): (r: char)
    ensures !IsUpper(r)
    ensures !IsUpper(c) ==> r == c
    ensures IsUpper(c) ==> 'a' <= r <= 'z' && r as int - 'a' as int == c as int - 'A' as int
  {
    if IsUpper(c) then (c as int - 'A' as int + 'a' as int) as char else c
  }

  /** `toLowerCase` on a string: character by character, length preserved. */
  function Lower(s: string): (r: string)
    ensures |r| == |s|
    ensures forall i | 0 <= i < |s| :: r[i] == LowerChar(s[i])
  {
    seq(|s|, i requires 0 <= i < |s| => LowerChar(s[i]))
  }

  lemma LowerIdempotent(s: string)
    ensures Lower(Lower(s)) == Lower(s)
  {
  }

  lemma LowerAppend(a: string, b: string)
    ensures Lower(a + b) == Lower(a) + Lower(b)
  {
  }

  // ---------------------------------------------------------------------------
  // Substring search
  // ---------------------------------------------------------------------------

  /** `q` occurs in `s` starting at index `i`. */
  predicate OccursAt(s: string, q: string, i: nat) {
    i + |q| <= |s| && s[i..i + |q|] == q
  }

  /** Left-to-right scan for an occurrence of `q` at index `i` or later. */
  predicate IncludesFrom(s: string, q: string, i: nat): (r: bool)
    ensures r ==> i + |q| <= |s|
    decreases |s| - i
  {
    i <= |s| && (OccursAt(s, q, i) || IncludesFrom(s, q, i + 1))
  }

  /** JavaScript's `s.includes(q)`: a prefix is always included, and a
      needle longer than the text never is. */
  predicate Includes(s: string, q: string): (r: bool)
    ensures q <= s ==> r
    ensures r ==> |q| <= |s|
  {
    IncludesFrom(s, q, 0)
  }

  lemma {:induction false} IncludesFromIff(s: string, q: string, i: nat)
    ensures IncludesFrom(s, q, i) <==> exists k: nat :: i <= k && OccursAt(s, q, k)
    decreases |s| - i
  {
    if i <= |s| {
      IncludesFromIff(s, q, i + 1);
      if exists k: nat :: i <= k && OccursAt(s, q, k) {
        var k: nat :| i <= k && OccursAt(s, q, k);
        assert k == i || (i + 1 <= k && OccursAt(s, q, k));
      }
    } else {
      assert forall k: nat :: i <= k ==> !OccursAt(s, q, k);
    }
  }

  /** `includes` holds exactly when there is an index at which `q` occurs. */
  lemma IncludesIff(s: string, q: string)
    ensures Includes(s, q) <==> exists k: nat :: OccursAt(s, q, k)
  {
    IncludesFromIff(s, q, 0);
  }

  /** The empty string is included in every string. */
  lemma IncludesEmpty(s: string)
    ensures Includes(s, "")
  {
    assert OccursAt(s, "", 0);
  }

  lemma IncludesSelf(s: string)
    ensures Includes(s, s)
  {
    assert OccursAt(s, s, 0);
  }

  /** An occurrence inside either part is an occurrence inside the whole. */
  lemma IncludesInAppend(a: string, b: string, q: string)
    requires Includes(a, q) || Includes(b, q)
    ensures Includes(a + b, q)
  {
    IncludesIff(a, q);
    IncludesIff(b, q);
    IncludesIff(a + b, q);
    if Includes(a, q) {
      var k: nat :| OccursAt(a, q, k);
      assert (a + b)[k..k + |q|] == a[k..k + |q|];
      assert OccursAt(a + b, q, k);
    } else {
      var k: nat :| OccursAt(b, q, k);
      assert (a + b)[|a| + k..|a| + k + |q|] == b[k..k + |q|];
      assert OccursAt(a + b, q, |a| + k);
    }
  }

  // ---------------------------------------------------------------------------
  // Decimal rendering of numbers
  // ---------------------------------------------------------------------------

  predicate IsDigit(c: char) {
    '0' <= c <= '9'
  }

  function DigitChar(d: nat): (c: char)
    requires d < 10
    ensures IsDigit(c)
  {
    ('0' as int + d) as char
  }

  function DigitValue(c: char): (d: nat)
    requires IsDigit(c)
    ensures d < 10
  {
    c as int - '0' as int
  }

  predicate AllDigits(s: string) {
    forall i | 0 <= i < |s| :: IsDigit(s[i])
  }

  /** Decimal notation of a non-negative integer, every digit written out:
      non-empty, digits only, no leading zero. This is what `${n}` writes for
      whole numbers below 2^53. */
  function NatToString(n: nat): (r: string)
    ensures |r| > 0 && AllDigits(r)
    ensures r[0] == '0' ==> n == 0 && r == "0"
    decreases n
  {
    if n < 10 then [DigitChar(n)] else NatToString(n / 10) + [DigitChar(n % 10)]
  }

  /** Value of a string of decimal digits (most significant first). */
  function DigitsValue(s: string): nat
    requires AllDigits(s)
    decreases |s|
  {
    if s == [] then 0 else DigitsValue(s[..|s| - 1]) * 10 + DigitValue(s[|s| - 1])
  }

  /** Reading the rendered digits back gives the number. */
  lemma {:induction false} NatToStringRoundTrip(n: nat)
    ensures DigitsValue(NatToString(n)) == n
    decreases n
  {
    if n >= 10 {
      NatToStringRoundTrip(n / 10);
      var r := NatToString(n);
      assert r[..|r| - 1] == NatToString(n / 10);
    }
  }

  lemma NatToStringInjective(m: nat, n: nat)
    requires NatToString(m) == NatToString(n)
    ensures m == n
  {
    NatToStringRoundTrip(m);
    NatToStringRoundTrip(n);
  }

  /** Decimal notation of an integer: a minus sign before negative values. */
  function IntToString(n: int): (r: string)
    ensures |r| > 0
    ensures n < 0 <==> r[0] == '-'
    ensures n >= 0 ==> r == NatToString(n)
    ensures n < 0 ==> r[1..] == NatToString(-n)
  {
    if n < 0 then "-" + NatToString(-n) else NatToString(n)
  }

  lemma IntToStringInjective(m: int, n: int)
    requires IntToString(m) == IntToString(n)
    ensures m == n
  {
    if m < 0 {
      NatToStringInjective(-m, -n);
    } else {
      NatToStringInjective(m, n);
    }
  }

  /** Rendered numbers contain no line break. */
  lemma IntToStringNoNewline(n: int)
    ensures '\n' !in IntToString(n)
  {
    var r := IntToString(n);
    if n < 0 {
      assert r == "-" + NatToString(-n);
    }
  }

  // ---------------------------------------------------------------------------
  // Appending in a loop
  // ---------------------------------------------------------------------------

  /** The text that `xs.forEach((x) => { text += f(x); })` appends: the pieces
      for every element, in order. */
  function ConcatMap<T>(xs: seq<T>, f: T -> string): string
    decreases |xs|
  {
    if xs == [] then "" else ConcatMap(xs[..|xs| - 1], f) + f(xs[|xs| - 1])
  }

  lemma AppendAssoc(a: string, b: string, c: string)
    ensures (a + b) + c == a + (b + c)
  {
  }

  lemma AppendEmpty(a: string)
    ensures a + "" == a
  {
  }

  /** One more element appends its piece. */
  lemma ConcatMapSnoc<T>(xs: seq<T>, i: nat, f: T -> string)
    requires i < |xs|
    ensures ConcatMap(xs[..i + 1], f) == ConcatMap(xs[..i], f) + f(xs[i])
  {
    assert xs[..i + 1][..i] == xs[..i];
  }

  /** The piece of one element sits between the pieces of the elements before
      it and those after it. */
  lemma ConcatMapAt<T>(a: seq<T>, x: T, b: seq<T>, f: T -> string)
    ensures ConcatMap(a + [x] + b, f) == ConcatMap(a, f) + f(x) + ConcatMap(b, f)
  {
    ConcatMapAppend(a + [x], b, f);
    ConcatMapSnoc(a + [x], |a|, f);
    assert (a + [x])[..|a|] == a;
    assert (a + [x])[..|a| + 1] == a + [x];
  }

  /** The pieces of a concatenation are the pieces of each part. */
  lemma {:induction false} ConcatMapAppend<T>(a: seq<T>, b: seq<T>, f: T -> string)
    ensures ConcatMap(a + b, f) == ConcatMap(a, f) + ConcatMap(b, f)
    decreases |b|
  {
    if b == [] {
      assert a + b == a;
    } else {
      var ab := a + b;
      assert ab[..|ab| - 1] == a + b[..|b| - 1];
      ConcatMapAppend(a, b[..|b| - 1], f);
    }
  }

  // ---------------------------------------------------------------------------
  // Lines
  // ---------------------------------------------------------------------------

  predicate NoNewline(s: string) {
    '\n' !in s
  }

  /** Each line followed by a line break, in order. */
  function JoinLines(lines: seq<string>): (text: string)
    ensures |text| >= |lines|
    decreases |lines|
  {
    if lines == [] then "" else lines[0] + "\n" + JoinLines(lines[1..])
  }

  lemma {:induction false} JoinLinesAppend(a: seq<string>, b: seq<string>)
    ensures JoinLines(a + b) == JoinLines(a) + JoinLines(b)
    decreases |a|
  {
    if a != [] {
      assert (a + b)[1..] == a[1..] + b;
      JoinLinesAppend(a[1..], b);
    } else {
      assert a + b == b;
    }
  }

  /** The text of four consecutive groups of lines is the four texts in turn. */
  lemma JoinLinesAppend4(a: seq<string>, b: seq<string>, c: seq<string>, d: seq<string>,
                         w: string, x: string, y: string, z: string)
    requires JoinLines(a) == w && JoinLines(b) == x && JoinLines(c) == y && JoinLines(d) == z
    ensures JoinLines(a + b + c + d) == w + x + y + z
  {
    JoinLinesAppend(a + b + c, d);
    JoinLinesAppend(a + b, c);
    JoinLinesAppend(a, b);
  }

  /** Two lines, each ended by a line break. */
  lemma JoinTwoLines(a: string, b: string)
    ensures JoinLines([a, b]) == (a + "\n") + (b + "\n")
  {
    assert [a, b][1..] == [b];
    assert JoinLines([b]) == b + "\n" + JoinLines([]);
  }

  /** Appending one line to the text appends it, plus a line break. */
  lemma JoinLinesSnoc(lines: seq<string>, line: string)
    ensures JoinLines(lines + [line]) == JoinLines(lines) + line + "\n"
  {
    JoinLinesAppend(lines, [line]);
    assert JoinLines([line]) == line + "\n" + JoinLines([]);
  }

  /** Pieces that are lines ended by a line break join up to the lines. */
  lemma {:induction false} ConcatMapLines<T>(xs: seq<T>, item: T -> string, lines: seq<string>)
    requires |lines| == |xs|
    requires forall i | 0 <= i < |xs| :: item(xs[i]) == lines[i] + "\n"
    ensures ConcatMap(xs, item) == JoinLines(lines)
    decreases |xs|
  {
    if xs != [] {
      var n := |xs| - 1;
      ConcatMapLines(xs[..n], item, lines[..n]);
      assert lines == lines[..n] + [lines[n]];
      JoinLinesSnoc(lines[..n], lines[n]);
      AppendAssoc(JoinLines(lines[..n]), lines[n], "\n");
    }
  }

  /** Index of the first line break in `s`, or `|s|` if there is none. */
  function FirstNewline(s: string): (k: nat)
    ensures k <= |s|
    ensures k < |s| ==> s[k] == '\n'
    ensures forall j | 0 <= j < k :: s[j] != '\n'
    decreases |s|
  {
    if s == [] || s[0] == '\n' then 0 else 1 + FirstNewline(s[1..])
  }

  /** Cuts a text at its line breaks; a final unterminated piece is a line too. */
  function SplitLines(text: string): seq<string>
    decreases |text|
  {
    if text == [] then []
    else
      var k := FirstNewline(text);
      if k == |text| then [text] else [text[..k]] + SplitLines(text[k + 1..])
  }

  /** A text made of lines without line breaks is cut back into those lines. */
  lemma SplitJoinedText(text: string, lines: seq<string>)
    requires forall i | 0 <= i < |lines| :: NoNewline(lines[i])
    requires text == JoinLines(lines)
    ensures SplitLines(text) == lines
  {
    SplitJoinLines(lines);
  }

  /** Splitting joined lines gives the lines back, provided none of them
      contains a line break itself. */
  lemma {:induction false} SplitJoinLines(lines: seq<string>)
    requires forall i | 0 <= i < |lines| :: NoNewline(lines[i])
    ensures SplitLines(JoinLines(lines)) == lines
    decreases |lines|
  {
    if lines != [] {
      var text := JoinLines(lines);
      var rest := JoinLines(lines[1..]);
      assert text == lines[0] + "\n" + rest;
      assert FirstNewline(text) == |lines[0]| by {
        FirstNewlineAfter(lines[0], rest);
      }
      assert text[..|lines[0]|] == lines[0];
      assert text[|lines[0]| + 1..] == rest;
      SplitJoinLines(lines[1..]);
    }
  }

  lemma {:induction false} FirstNewlineAfter(line: string, rest: string)
    requires NoNewline(line)
    ensures FirstNewline(line + "\n" + rest) == |line|
    decreases |line|
  {
    if line != [] {
      assert (line + "\n" + rest)[1..] == line[1..] + "\n" + rest;
      FirstNewlineAfter(line[1..], rest);
    }
  }
}
