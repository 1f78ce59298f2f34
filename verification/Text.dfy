/** Python's `strip`, `lower` and `replace` on ASCII text. */
module Text {

  predicate Whitespace(c: char) { c == ' ' || '\t' <= c <= '\r' || '\U{1c}' <= c <= '\U{1f}' }

  lemma WhitespaceIs(c: char)
    ensures Whitespace(c) <==>
              c in {' ', '\t', '\n', '\U{b}', '\U{c}', '\r', '\U{1c}', '\U{1d}', '\U{1e}', '\U{1f}'}
  {
  }

  /** `not s.strip()`. */
  predicate Blank(s: string) { forall i :: 0 <= i < |s| ==> Whitespace(s[i]) }

  function StripLeft(s: string): string {
    if s != [] && Whitespace(s[0]) then StripLeft(s[1..]) else s
  }

  function StripRight(s: string): string {
    if s != [] && Whitespace(s[|s| - 1]) then StripRight(s[..|s| - 1]) else s
  }

  function Strip(s: string): string { StripRight(StripLeft(s)) }

  predicate Stripped(s: string) { s != [] ==> !Whitespace(s[0]) && !Whitespace(s[|s| - 1]) }

  function LowerChar(c: char): char { if 'A' <= c <= 'Z' then c - 'A' + 'a' else c }

  function Lower(s: string): (t: string)
    ensures |t| == |s| && forall i :: 0 <= i < |s| ==> t[i] == LowerChar(s[i])
  {
    seq(|s|, i requires 0 <= i < |s| => LowerChar(s[i]))
  }

  function UnderscoreChar(c: char): char { if c == '-' then '_' else c }

  /** `s.replace("-", "_")`. */
  function Underscored(s: string): (t: string)
    ensures |t| == |s| && forall i :: 0 <= i < |s| ==> t[i] == UnderscoreChar(s[i])
  {
    seq(|s|, i requires 0 <= i < |s| => UnderscoreChar(s[i]))
  }

  lemma {:induction false} StripRightAt(s: string) returns (j: nat)
    ensures j <= |s| && StripRight(s) == s[..j] && (j > 0 ==> !Whitespace(s[j - 1]))
    ensures forall k :: j <= k < |s| ==> Whitespace(s[k])
  {
    if s != [] && Whitespace(s[|s| - 1]) {
      j := StripRightAt(s[..|s| - 1]);
      assert s[..|s| - 1][..j] == s[..j];
    } else {
      j := |s|;
      assert s[..j] == s;
    }
  }

  lemma {:induction false} StripLeftAt(s: string) returns (i: nat)
    ensures i <= |s| && StripLeft(s) == s[i..] && (i < |s| ==> !Whitespace(s[i]))
    ensures forall k :: 0 <= k < i ==> Whitespace(s[k])
  {
    if s != [] && Whitespace(s[0]) {
      i := StripLeftAt(s[1..]);
      i := i + 1;
      assert s[1..][i - 1..] == s[i..];
      forall k | 1 <= k < i ensures Whitespace(s[k]) { assert s[1..][k - 1] == s[k]; }
    } else {
      i := 0;
      assert s[i..] == s;
    }
  }

  /** The characters before `i` and from `j` on are whitespace, and those next to them are not. */
  predicate TrimmedAt(text: string, i: nat, j: nat) {
    && i <= j <= |text| && (forall k :: 0 <= k < |text| && (k < i || j <= k) ==> Whitespace(text[k]))
    && (i < j ==> !Whitespace(text[i]) && !Whitespace(text[j - 1]))
  }

  lemma StripCuts(text: string) returns (i: nat, j: nat)
    ensures TrimmedAt(text, i, j) && Strip(text) == text[i..j]
  {
    i := StripLeftAt(text);
    var left := text[i..];
    var n := StripRightAt(left);
    j := i + n;
    assert left[..n] == text[i..j];
    forall k | j <= k < |text| ensures Whitespace(text[k]) { assert left[k - i] == text[k]; }
    if n > 0 { assert left[n - 1] == text[j - 1]; }
  }

  /** Stripping leaves no whitespace at either end, and nothing exactly of blank text. */
  lemma StripStrips(s: string)
    ensures Stripped(Strip(s)) && (Strip(s) == [] <==> Blank(s))
  {
    var i, j := StripCuts(s);
    if i < j { assert Strip(s)[0] == s[i] && Strip(s)[j - i - 1] == s[j - 1]; }
  }

  lemma LowerKeepsSpace(c: char)
    ensures Whitespace(LowerChar(c)) <==> Whitespace(c)
    ensures Whitespace(UnderscoreChar(c)) <==> Whitespace(c)
    ensures LowerChar(LowerChar(c)) == LowerChar(c)
    ensures UnderscoreChar(LowerChar(UnderscoreChar(LowerChar(c)))) == UnderscoreChar(LowerChar(c))
  {
  }

  // ----- the same, read off the text -----

  ghost predicate Trims(text: string, field: string) {
    exists i: nat, j: nat :: TrimmedAt(text, i, j) && text[i..j] == field
  }

  lemma TrimsSame(text: string, i: nat, j: nat, a: nat, b: nat)
    requires TrimmedAt(text, i, j) && TrimmedAt(text, a, b)
    ensures text[i..j] == text[a..b]
  {
  }

  /** Stripping trims, and nothing else does. */
  lemma TrimsIff(text: string, field: string)
    ensures Trims(text, field) <==> Strip(text) == field
  {
    var a, b := StripCuts(text);
    if i: nat, j: nat :| TrimmedAt(text, i, j) && text[i..j] == field { TrimsSame(text, i, j, a, b); }
  }

  /** `d` stands for `c` when letters are read in lower case and, if `dashed`, hyphens as underscores. */
  predicate Folds(c: char, d: char, dashed: bool) {
    if 'A' <= c <= 'Z' then d as int == c as int + 32
    else if dashed && c == '-' then d == '_'
    else d == c
  }

  predicate Folded(field: string, word: string, dashed: bool) {
    |field| == |word| && forall k :: 0 <= k < |word| ==> Folds(field[k], word[k], dashed)
  }

  lemma FoldedIff(field: string, word: string)
    ensures Folded(field, word, false) <==> Lower(field) == word
    ensures Folded(field, word, true) <==> Underscored(Lower(field)) == word
  {
  }

  /** `text` spells `word`, but for whitespace at its ends, upper case and, if `dashed`, hyphens. */
  ghost predicate Spells(text: string, word: string, dashed: bool) {
    exists field :: Trims(text, field) && Folded(field, word, dashed)
  }

  lemma SpellsIff(text: string, word: string)
    ensures Spells(text, word, false) <==> Lower(Strip(text)) == word
    ensures Spells(text, word, true) <==> Underscored(Lower(Strip(text))) == word
  {
    forall field ensures Trims(text, field) <==> Strip(text) == field { TrimsIff(text, field); }
    FoldedIff(Strip(text), word);
  }
}
