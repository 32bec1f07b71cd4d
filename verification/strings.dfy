/** The three string primitives the handlers rely on: `String.prototype.includes`
    (the status-line classifier), `String.prototype.toUpperCase` (the save
    confirmation) and the extension a browser reads off a download name. */
module Strings {

  /** `sub` occurs in `s` starting at position `i`. */
  predicate OccursAt(s: string, sub: string, i: nat) {
    i + |sub| <= |s| && s[i..i + |sub|] == sub
  }

  /** Reference meaning of "contains": some position where `sub` occurs. */
  ghost predicate Contains(s: string, sub: string) {
    exists i: nat :: OccursAt(s, sub, i)
  }

  /** Occurrences in a tail are the occurrences in the whole string, one
      position further right. */
  lemma OccursInTail(s: string, sub: string)
    requires |s| > 0
    requires !OccursAt(s, sub, 0)
    ensures Contains(s[1..], sub) <==> Contains(s, sub)
  {
    if Contains(s[1..], sub) {
      var i: nat :| OccursAt(s[1..], sub, i);
      assert s[i + 1..i + 1 + |sub|] == s[1..][i..i + |sub|];
      assert OccursAt(s, sub, i + 1);
    }
    if Contains(s, sub) {
      var i: nat :| OccursAt(s, sub, i);
      assert i > 0;
      assert s[1..][i - 1..i - 1 + |sub|] == s[i..i + |sub|];
      assert OccursAt(s[1..], sub, i - 1);
    }
  }

  /** `s.includes(sub)`: a left-to-right scan that is true exactly when
      `sub` occurs somewhere in `s` (the empty string occurs everywhere). */
  function Includes(s: string, sub: string): (r: bool)
    ensures r <==> Contains(s, sub)
    decreases |s|
  {
    if |sub| > |s| then false
    else if s[..|sub|] == sub then assert OccursAt(s, sub, 0); true
    else OccursInTail(s, sub); Includes(s[1..], sub)
  }

  /** A string cannot contain `sub` when the first character of `sub` never
      appears in it. */
  lemma MissingFirstChar(s: string, sub: string)
    requires |sub| > 0 && sub[0] !in s
    ensures !Includes(s, sub)
  {
  }

  predicate IsAsciiLower(c: char) {
    'a' <= c <= 'z'
  }

  /** `toUpperCase` on one character; only the ASCII letters are mapped. */
  function UpperChar(c: char): (u: char)
    ensures !IsAsciiLower(u)
    ensures !IsAsciiLower(c) ==> u == c
  {
    if IsAsciiLower(c) then (c as int - 32) as char else c
  }

  /** `s.toUpperCase()`, character by character, same length. */
  function ToUpperCase(s: string): string {
    seq(|s|, i requires 0 <= i < |s| => UpperChar(s[i]))
  }

  /** The upper-cased string has no lower-case ASCII letter and upper-casing
      it again changes nothing. */
  lemma UpperCaseIsUpper(s: string)
    ensures forall i :: 0 <= i < |s| ==> !IsAsciiLower(ToUpperCase(s)[i])
    ensures ToUpperCase(ToUpperCase(s)) == ToUpperCase(s)
  {
  }

  /** The text after the last '.' of a file name (the whole name when it
      has no dot): the extension a browser uses to pick the file type. */
  function Extension(name: string): (ext: string)
    ensures |ext| <= |name| && ext == name[|name| - |ext|..]
    ensures '.' !in ext
    ensures |ext| < |name| ==> name[|name| - |ext| - 1] == '.'
  {
    if |name| == 0 || name[|name| - 1] == '.' then ""
    else
      var last := name[|name| - 1];
      var init := name[..|name| - 1];
      var ext := Extension(init) + [last];
      assert name == init + [last];
      ext
  }

  /** Appending a dot-free extension after a dot makes `Extension` return it,
      whatever the base name is. */
  lemma {:induction false} ExtensionOfDotted(base: string, ext: string)
    requires '.' !in ext
    ensures Extension(base + "." + ext) == ext
  {
    var name := base + "." + ext;
    if ext != "" {
      var init := ext[..|ext| - 1];
      assert name[..|name| - 1] == base + "." + init;
      ExtensionOfDotted(base, init);
      assert init + [ext[|ext| - 1]] == ext;
    }
  }
}
