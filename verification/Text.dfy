/** Strings as sequences of code points: white space, trimming, searching and the text order. */
module Text {

  /** Case mapping is a parameter: the theorems hold for every folding and every lower-casing. */
  datatype Casing = Casing(fold: string -> string, lower: string -> string)

  predicate IsSpace(c: char) {
    '\t' <= c <= '\r' || c == ' ' || c == '\U{85}' || c == '\U{A0}' || c == '\U{1680}' ||
    '\U{2000}' <= c <= '\U{200A}' || c == '\U{2028}' || c == '\U{2029}' || c == '\U{202F}' ||
    c == '\U{205F}' || c == '\U{3000}'
  }

  predicate IsControl(c: char) { c < ' ' || '\U{7F}' <= c <= '\U{9F}' }

  function TrimLeft(s: string): string {
    if s != [] && IsSpace(s[0]) then TrimLeft(s[1..]) else s
  }

  function TrimRight(s: string, cut: char -> bool): string {
    if s != [] && cut(s[|s| - 1]) then TrimRight(s[..|s| - 1], cut) else s
  }

  function TrimSpace(s: string): string { TrimRight(TrimLeft(s), IsSpace) }

  lemma {:induction false} TrimLeftIs(s: string) returns (i: nat)
    ensures i <= |s| && TrimLeft(s) == s[i..] && (forall k :: 0 <= k < i ==> IsSpace(s[k])) &&
            (i < |s| ==> !IsSpace(s[i]))
  {
    i := 0;
    if s != [] && IsSpace(s[0]) {
      var k := TrimLeftIs(s[1..]);
      i := k + 1;
    }
  }

  lemma {:induction false} TrimRightIs(s: string, cut: char -> bool) returns (i: nat)
    ensures i <= |s| && TrimRight(s, cut) == s[..i] && (forall k :: i <= k < |s| ==> cut(s[k])) &&
            (0 < i ==> !cut(s[i - 1]))
  {
    i := |s|;
    if s != [] && cut(s[|s| - 1]) { i := TrimRightIs(s[..|s| - 1], cut); } else { assert s[..i] == s; }
  }

  /** A trimmed text is the text without the white space around it: nothing else goes, and none of it stays. */
  lemma TrimSpaceIs(s: string) returns (i: nat, j: nat)
    ensures i <= j <= |s| && TrimSpace(s) == s[i..j] &&
            (forall k :: 0 <= k < i || j <= k < |s| ==> IsSpace(s[k])) &&
            (i < j ==> !IsSpace(s[i]) && !IsSpace(s[j - 1]))
  {
    hide IsSpace;
    i := TrimLeftIs(s);
    var n := TrimRightIs(TrimLeft(s), IsSpace);
    j := i + n;
    assert s[i..][..n] == s[i..j];
    forall k | j <= k < |s| ensures IsSpace(s[k]) { assert s[k] == TrimLeft(s)[k - i]; }
  }

  predicate At(s: string, i: int, sub: string) {
    0 <= i <= |s| - |sub| && s[i..i + |sub|] == sub
  }

  predicate Contains(s: string, sub: string) {
    exists i :: 0 <= i <= |s| - |sub| && At(s, i, sub)
  }

  predicate HasSuffix(s: string, suffix: string) {
    |suffix| <= |s| && s[|s| - |suffix|..] == suffix
  }

  /** Byte order of UTF-8 text, which is code-point order. */
  predicate Less(a: string, b: string) {
    if b == [] then false
    else if a == [] then true
    else if a[0] != b[0] then a[0] < b[0]
    else Less(a[1..], b[1..])
  }

  lemma {:induction false} LessIsStrict(a: string, b: string)
    ensures !(Less(a, b) && Less(b, a))
    ensures a != b ==> Less(a, b) || Less(b, a)
    ensures a == b ==> !Less(a, b)
  {
    if a != [] && b != [] && a[0] == b[0] {
      LessIsStrict(a[1..], b[1..]);
      assert a == [a[0]] + a[1..] && b == [b[0]] + b[1..];
    }
  }

  lemma {:induction false} LessIsTransitive(a: string, b: string, c: string)
    requires Less(a, b) && Less(b, c)
    ensures Less(a, c)
  {
    if a != [] && a[0] == b[0] && b[0] == c[0] {
      LessIsTransitive(a[1..], b[1..], c[1..]);
    }
  }
}
