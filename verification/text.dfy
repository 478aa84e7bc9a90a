/** Character classes, line tokenising and decimal rendering of integers. */
module Text {

  predicate IsLetter(c: char) {
    'a' <= c <= 'z' || 'A' <= c <= 'Z'
  }

  predicate IsDigit(c: char) {
    '0' <= c <= '9'
  }

  /** A character of the regular-expression class `\w`. */
  predicate IsWordChar(c: char) {
    IsLetter(c) || IsDigit(c) || c == '_'
  }

  /** An ASCII character `str.strip()` removes: space, tab, line feed,
      vertical tab, form feed, carriage return and the four separators
      0x1c-0x1f. The non-ASCII whitespace Python also strips is not
      modelled. */
  predicate IsSpace(c: char) {
    c == ' ' || 9 <= c as int <= 13 || 28 <= c as int <= 31
  }

  /** `str.isalpha()`: non-empty and letters only. */
  predicate IsAlpha(s: string) {
    |s| > 0 && forall i :: 0 <= i < |s| ==> IsLetter(s[i])
  }

  /** A match of `\w+`. */
  predicate IsWord(s: string) {
    |s| > 0 && forall i :: 0 <= i < |s| ==> IsWordChar(s[i])
  }

  predicate AllDigits(s: string) {
    forall i :: 0 <= i < |s| ==> IsDigit(s[i])
  }

  predicate AllSpaces(s: string) {
    forall i :: 0 <= i < |s| ==> IsSpace(s[i])
  }

  predicate HasDigit(s: string) {
    exists i :: 0 <= i < |s| && IsDigit(s[i])
  }

  // ----- stripping -----

  /** Number of whitespace characters at the front of `s`. */
  function LeadingSpaces(s: string): (k: nat)
    ensures k <= |s|
    ensures AllSpaces(s[..k])
    ensures k == |s| || !IsSpace(s[k])
  {
    if |s| == 0 || !IsSpace(s[0]) then 0
    else
      var k := 1 + LeadingSpaces(s[1..]);
      assert s[..k] == [s[0]] + s[1..][..k - 1];
      k
  }

  /** Number of whitespace characters at the back of `s`. */
  function TrailingSpaces(s: string): (k: nat)
    ensures k <= |s|
    ensures AllSpaces(s[|s| - k..])
    ensures k == |s| || !IsSpace(s[|s| - k - 1])
  {
    if |s| == 0 || !IsSpace(s[|s| - 1]) then 0
    else
      var k := 1 + TrailingSpaces(s[..|s| - 1]);
      assert s[|s| - k..] == s[..|s| - 1][|s| - k..] + [s[|s| - 1]];
      k
  }

  /** `str.strip()`: the line without leading and trailing whitespace. */
  function Strip(s: string): (r: string)
    ensures |r| == 0 || (!IsSpace(r[0]) && !IsSpace(r[|r| - 1]))
  {
    var rest := s[LeadingSpaces(s)..];
    rest[..|rest| - TrailingSpaces(rest)]
  }

  lemma {:induction false} LeadingSpacesOfPadded(p: string, core: string)
    requires AllSpaces(p)
    requires |core| == 0 || !IsSpace(core[0])
    ensures LeadingSpaces(p + core) == |p| + LeadingSpaces(core)
    decreases |p|
  {
    if |p| > 0 {
      assert (p + core)[1..] == p[1..] + core;
      assert IsSpace(p[0]);
      LeadingSpacesOfPadded(p[1..], core);
    } else {
      assert p + core == core;
    }
  }

  lemma {:induction false} TrailingSpacesOfPadded(core: string, q: string)
    requires AllSpaces(q)
    requires |core| == 0 || !IsSpace(core[|core| - 1])
    ensures TrailingSpaces(core + q) == |q| + TrailingSpaces(core)
    decreases |q|
  {
    if |q| > 0 {
      assert (core + q)[..|core + q| - 1] == core + q[..|q| - 1];
      assert IsSpace(q[|q| - 1]);
      TrailingSpacesOfPadded(core, q[..|q| - 1]);
    } else {
      assert core + q == core;
    }
  }

  /** Stripping removes exactly the whitespace padding around a line whose
      first and last characters are not whitespace. */
  lemma StripRemovesPadding(p: string, core: string, q: string)
    requires AllSpaces(p) && AllSpaces(q)
    requires |core| == 0 || (!IsSpace(core[0]) && !IsSpace(core[|core| - 1]))
    ensures Strip(p + core + q) == core
  {
    if |core| == 0 {
      assert p + core + q == p + q;
      StripOfSpaces(p + q);
    } else {
      StripOfPadded(p, core, q);
    }
  }

  lemma StripOfSpaces(s: string)
    requires AllSpaces(s)
    ensures Strip(s) == []
  {
    assert s == s + [];
    LeadingSpacesOfPadded(s, []);
  }

  lemma StripOfPadded(p: string, core: string, q: string)
    requires AllSpaces(p) && AllSpaces(q)
    requires |core| > 0 && !IsSpace(core[0]) && !IsSpace(core[|core| - 1])
    ensures Strip(p + core + q) == core
  {
    var s := p + core + q;
    assert s == p + (core + q);
    LeadingSpacesOfPadded(p, core + q);
    assert LeadingSpaces(core + q) == 0;
    var rest := s[|p|..];
    assert rest == core + q;
    TrailingSpacesOfPadded(core, q);
    assert TrailingSpaces(core) == 0;
    assert rest[..|rest| - |q|] == core;
  }

  // ----- splitting on single spaces -----

  /** Index of the first space in `s`, or `|s|` when there is none. */
  function FirstSpace(s: string): (k: nat)
    ensures k <= |s|
    ensures ' ' !in s[..k]
    ensures k < |s| ==> s[k] == ' '
  {
    if |s| == 0 || s[0] == ' ' then 0
    else
      var k := 1 + FirstSpace(s[1..]);
      assert s[..k] == [s[0]] + s[1..][..k - 1];
      k
  }

  /** The pieces joined back together with single spaces. */
  function Join(pieces: seq<string>): string
    requires |pieces| > 0
  {
    if |pieces| == 1 then pieces[0] else pieces[0] + " " + Join(pieces[1..])
  }

  /** `str.split(' ')`: cut at every single space, so two adjacent spaces
      give an empty piece and an empty line gives one empty piece. */
  function Split(s: string): (pieces: seq<string>)
    ensures |pieces| > 0
    ensures forall p :: p in pieces ==> ' ' !in p
    ensures Join(pieces) == s
    decreases |s|
  {
    var k := FirstSpace(s);
    if k == |s| then
      assert s[..k] == s;
      [s]
    else
      var tail := Split(s[k + 1..]);
      assert s == s[..k] + " " + s[k + 1..];
      [s[..k]] + tail
  }

  /** Splitting undoes joining: the pieces of a line are determined by it. */
  lemma {:induction false} SplitJoin(pieces: seq<string>)
    requires |pieces| > 0
    requires forall p :: p in pieces ==> ' ' !in p
    ensures Split(Join(pieces)) == pieces
    decreases |pieces|
  {
    var s := Join(pieces);
    if |pieces| == 1 {
      FirstSpaceAbsent(s);
    } else {
      var head := pieces[0];
      var rest := Join(pieces[1..]);
      assert s == head + " " + rest;
      FirstSpaceAfter(head, rest);
      assert s[..|head|] == head;
      assert s[|head| + 1..] == rest;
      assert forall p :: p in pieces[1..] ==> p in pieces;
      SplitJoin(pieces[1..]);
    }
  }

  lemma FirstSpaceAbsent(s: string)
    requires ' ' !in s
    ensures FirstSpace(s) == |s|
  {
  }

  lemma FirstSpaceAfter(head: string, rest: string)
    requires ' ' !in head
    ensures FirstSpace(head + " " + rest) == |head|
  {
    var s := head + " " + rest;
    assert s[|head|] == ' ';
    assert s[..|head|] == head;
  }

  // ----- decimal rendering -----

  function DigitChar(d: nat): (c: char)
    requires d < 10
    ensures IsDigit(c)
  {
    ('0' as int + d) as char
  }

  /** The decimal digits of `n`, without leading zeros. */
  function NatToString(n: nat): (s: string)
    ensures |s| > 0 && AllDigits(s)
    ensures s[0] == '0' ==> s == "0"
    decreases n
  {
    if n < 10 then [DigitChar(n)] else NatToString(n / 10) + [DigitChar(n % 10)]
  }

  /** `str(k)` for an integer `k`. */
  function IntToString(k: int): (s: string)
    ensures |s| > 0 && IsDigit(s[|s| - 1])
    ensures s[0] == '-' <==> k < 0
    ensures k < 0 ==> |s| > 1 && AllDigits(s[1..])
    ensures k >= 0 ==> AllDigits(s)
  {
    if k < 0 then "-" + NatToString(-k) else NatToString(k)
  }
}
