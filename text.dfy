/**
 * String helpers used by the aggregator and the report renderer: the ASCII
 * part of Python's str.strip() and str.title(), the key humaniser, fixed-step
 * slicing into chunks, " | ".join and str() of a natural number.
 */
module Text {

  function Min(a: int, b: int): int { if a <= b then a else b }

  // ---------------------------------------------------------------- strip

  /** Python's str.isspace() restricted to ASCII: space, \t \n \v \f \r and the separators \x1c-\x1f. */
  predicate IsSpace(c: char) {
    c == ' ' || ('\t' <= c <= '\r') || ('\U{001C}' <= c <= '\U{001F}')
  }

  predicate AllSpace(s: string) {
    forall k :: 0 <= k < |s| ==> IsSpace(s[k])
  }

  /** Index of the first non-whitespace character, or |s| when there is none. */
  function LeadingSpace(s: string): (i: nat)
    ensures i <= |s| && AllSpace(s[..i])
    ensures i < |s| ==> !IsSpace(s[i])
  {
    if s != [] && IsSpace(s[0]) then
      var i := 1 + LeadingSpace(s[1..]);
      assert s[..i] == [s[0]] + s[1..][..i - 1];
      i
    else 0
  }

  /** One past the index of the last non-whitespace character, or 0 when there is none. */
  function TrailingSpace(s: string): (j: nat)
    ensures j <= |s| && AllSpace(s[j..])
    ensures j > 0 ==> !IsSpace(s[j - 1])
  {
    if s != [] && IsSpace(s[|s| - 1]) then
      var j := TrailingSpace(s[..|s| - 1]);
      assert s[j..] == s[..|s| - 1][j..] + [s[|s| - 1]];
      j
    else |s|
  }

  /** str.strip(): drops the leading and the trailing whitespace. */
  function Strip(s: string): (r: string)
    ensures r == [] <==> AllSpace(s)
    ensures r != [] ==> !IsSpace(r[0]) && !IsSpace(r[|r| - 1])
    ensures exists i :: 0 <= i <= |s| - |r| && r == s[i..i + |r|] && AllSpace(s[..i]) && AllSpace(s[i + |r|..])
  {
    var i := LeadingSpace(s);
    if i == |s| then
      assert s[..i] == s && s[i..] == [] && s[i..i] == [];
      []
    else
      var j := TrailingSpace(s);
      assert i < j;
      assert !AllSpace(s) by { assert !IsSpace(s[i]); }
      assert s[i..i + (j - i)] == s[i..j];
      s[i..j]
  }

  // ---------------------------------------------------------------- title

  predicate IsLetter(c: char) { 'a' <= c <= 'z' || 'A' <= c <= 'Z' }

  function Upper(c: char): char { if 'a' <= c <= 'z' then (c as int - 32) as char else c }

  function Lower(c: char): char { if 'A' <= c <= 'Z' then (c as int + 32) as char else c }

  /**
   * str.title() on ASCII: a letter becomes upper case when the character before
   * it is not a letter (or it starts the string) and lower case otherwise;
   * every other character is left alone. `afterLetter` says whether the
   * character before s[0] was a letter.
   */
  function TitleFrom(s: string, afterLetter: bool): string
  {
    if s == [] then []
    else
      var c := s[0];
      [if !IsLetter(c) then c else if afterLetter then Lower(c) else Upper(c)]
      + TitleFrom(s[1..], IsLetter(c))
  }

  function Title(s: string): string { TitleFrom(s, false) }

  /** The character str.title() puts at position i of s, stated position by position. */
  function TitleCharAt(s: string, i: nat): char
    requires i < |s|
  {
    if !IsLetter(s[i]) then s[i]
    else if i > 0 && IsLetter(s[i - 1]) then Lower(s[i])
    else Upper(s[i])
  }

  lemma {:induction false} TitleFromAt(s: string, afterLetter: bool, i: nat)
    requires i < |s|
    ensures |TitleFrom(s, afterLetter)| == |s|
    ensures TitleFrom(s, afterLetter)[i] ==
      if !IsLetter(s[i]) then s[i]
      else if (if i == 0 then afterLetter else IsLetter(s[i - 1])) then Lower(s[i])
      else Upper(s[i])
  {
    if i == 0 {
      if |s| > 1 {
        TitleFromAt(s[1..], IsLetter(s[0]), 0);
      }
    } else {
      TitleFromAt(s[1..], IsLetter(s[0]), i - 1);
    }
  }

  /** Title keeps the length and changes each character exactly as TitleCharAt says. */
  lemma TitleAt(s: string)
    ensures |Title(s)| == |s|
    ensures forall i :: 0 <= i < |s| ==> Title(s)[i] == TitleCharAt(s, i)
  {
    if s == [] {
    } else {
      TitleFromAt(s, false, 0);
    }
    forall i | 0 <= i < |s|
      ensures Title(s)[i] == TitleCharAt(s, i)
    {
      TitleFromAt(s, false, i);
    }
  }

  // ---------------------------------------------------------------- humanise

  function UnderscoresToSpaces(s: string): (r: string)
    ensures |r| == |s|
    ensures forall i :: 0 <= i < |s| ==> r[i] == if s[i] == '_' then ' ' else s[i]
  {
    seq(|s|, i requires 0 <= i < |s| => if s[i] == '_' then ' ' else s[i])
  }

  /** The section title drawn for a key: `key.replace('_', ' ').title()`. */
  function Humanise(key: string): string
  {
    Title(UnderscoresToSpaces(key))
  }

  /**
   * A humanised key has the key's length, holds no underscore, has a space
   * exactly where the key had an underscore, and keeps every other non-letter.
   */
  lemma HumaniseShape(key: string)
    ensures |Humanise(key)| == |key|
    ensures '_' !in Humanise(key)
    ensures forall i :: 0 <= i < |key| ==> (Humanise(key)[i] == ' ' <==> key[i] == '_' || key[i] == ' ')
    ensures forall i :: 0 <= i < |key| && !IsLetter(key[i]) && key[i] != '_' ==> Humanise(key)[i] == key[i]
  {
    var u := UnderscoresToSpaces(key);
    TitleAt(u);
    var h := Humanise(key);
    assert forall i :: 0 <= i < |key| ==> h[i] == TitleCharAt(u, i);
    forall i | 0 <= i < |key| ensures h[i] != '_' {
      assert h[i] == TitleCharAt(u, i);
    }
  }

  // ---------------------------------------------------------------- chunking

  /** Both wrapping loops of the renderer start a new chunk every 80 characters. */
  const ChunkStep: nat := 80

  /** How many chunks a text of n characters is cut into: ceil(n / 80). */
  function ChunkCount(n: nat): nat
  {
    (n + ChunkStep - 1) / ChunkStep
  }

  /**
   * `[s[i:i+width] for i in range(0, len(s), 80)]`: one slice of at most
   * `width` characters starting at every multiple of ChunkStep below |s|.
   */
  function Slices(s: string, width: nat): seq<string>
    decreases |s|
  {
    if s == [] then []
    else [s[..Min(width, |s|)]] + Slices(s[Min(ChunkStep, |s|)..], width)
  }

  /** The number of slices is ceil(|s| / 80). */
  lemma {:induction false} SlicesCount(s: string, width: nat)
    ensures |Slices(s, width)| == ChunkCount(|s|)
    decreases |s|
  {
    if |s| > ChunkStep {
      SlicesCount(s[ChunkStep..], width);
    } else if s != [] {
      assert s[|s|..] == [];
    }
  }

  lemma SliceOfSuffix<T>(s: seq<T>, a: nat, i: nat, j: nat)
    requires a <= |s| && i <= j <= |s| - a
    ensures s[a..][i..j] == s[a + i..a + j]
  {
  }

  /** Slice k is s[80k : 80k + width], cut short at the end of s; it is never empty. */
  lemma {:induction false} SlicesAt(s: string, width: nat, k: nat)
    requires width > 0
    requires k < |Slices(s, width)|
    ensures ChunkStep * k < |s|
    ensures Slices(s, width)[k] == s[ChunkStep * k .. Min(ChunkStep * k + width, |s|)]
    ensures 0 < |Slices(s, width)[k]| <= width
    decreases |s|
  {
    if k > 0 {
      var t := s[Min(ChunkStep, |s|)..];
      assert Slices(s, width)[k] == Slices(t, width)[k - 1];
      SlicesAt(t, width, k - 1);
      assert |s| > ChunkStep && t == s[ChunkStep..];
      var lo := ChunkStep * (k - 1);
      assert ChunkStep * k == lo + ChunkStep;
      assert Min(lo + width, |t|) + ChunkStep == Min(ChunkStep * k + width, |s|);
      SliceOfSuffix(s, ChunkStep, lo, Min(lo + width, |t|));
    }
  }

  function Concat(ss: seq<string>): string
  {
    if ss == [] then [] else ss[0] + Concat(ss[1..])
  }

  /** When the width equals the step the slices partition s: their concatenation is s. */
  lemma {:induction false} SlicesPartition(s: string)
    ensures Concat(Slices(s, ChunkStep)) == s
    decreases |s|
  {
    if s != [] {
      SlicesPartition(s[Min(ChunkStep, |s|)..]);
      assert s[..Min(ChunkStep, |s|)] + s[Min(ChunkStep, |s|)..] == s;
    }
  }

  // ---------------------------------------------------------------- join

  /** `sep.join(parts)`. */
  function Join(parts: seq<string>, sep: string): string
  {
    if parts == [] then []
    else if |parts| == 1 then parts[0]
    else parts[0] + sep + Join(parts[1..], sep)
  }

  /** Joined with a non-empty separator, the text is empty exactly when there is no part or a single empty one. */
  lemma {:induction false} JoinEmpty(parts: seq<string>, sep: string)
    requires sep != []
    ensures Join(parts, sep) == [] <==> parts == [] || parts == [[]]
  {
    if |parts| == 1 {
      assert parts == [parts[0]];
    }
  }

  // ---------------------------------------------------------------- str(n)

  function Digit(d: nat): char
    requires d < 10
  {
    "0123456789"[d]
  }

  /** `str(n)` for a natural number: its decimal digits, no leading zero. */
  function NatToString(n: nat): (r: string)
    ensures |r| >= 1
    ensures forall k :: 0 <= k < |r| ==> '0' <= r[k] <= '9'
    ensures |r| > 1 ==> r[0] != '0'
  {
    if n < 10 then [Digit(n)] else NatToString(n / 10) + [Digit(n % 10)]
  }

  /** The number a string of decimal digits denotes. */
  function DecimalValue(s: string): int
  {
    if s == [] then 0 else 10 * DecimalValue(s[..|s| - 1]) + (s[|s| - 1] as int - '0' as int)
  }

  lemma DigitValue(d: nat)
    requires d < 10
    ensures Digit(d) as int - '0' as int == d
  {
    if d == 0 {} else if d == 1 {} else if d == 2 {} else if d == 3 {} else if d == 4 {}
    else if d == 5 {} else if d == 6 {} else if d == 7 {} else if d == 8 {} else {}
  }

  /** Reading the digits back gives the number: NatToString loses nothing. */
  lemma {:induction false} NatToStringValue(n: nat)
    ensures DecimalValue(NatToString(n)) == n
  {
    DigitValue(n % 10);
    if n < 10 {
      assert NatToString(n)[..0] == [];
    } else {
      NatToStringValue(n / 10);
      var r := NatToString(n);
      assert r[..|r| - 1] == NatToString(n / 10);
    }
  }
}
