/** Portable targets: the segments of a path, the extension of its file, and what a grant accepts of them. */
module Targets {

  const MAX_TARGET := 4096

  predicate AlphaNumeric(c: char) {
    'A' <= c <= 'Z' || 'a' <= c <= 'z' || '0' <= c <= '9'
  }

  predicate InSegment(c: char) {
    AlphaNumeric(c) || c == '.' || c == '_' || c == '-'
  }

  // The texts between the slashes.
  function Segments(target: string): (s: seq<string>)
    ensures |s| > 0
  {
    if |target| == 0 then [""] else
    var before, c := Segments(target[..|target| - 1]), target[|target| - 1];
    if c == '/' then before + [""] else before[..|before| - 1] + [before[|before| - 1] + [c]]
  }

  // A segment neither begins nor ends with a dot.
  predicate SegmentFits(s: string) {
    && |s| > 0 && s[0] != '.' && s[|s| - 1] != '.'
    && forall i :: 0 <= i < |s| ==> InSegment(s[i])
  }

  predicate IsPortable(target: string) {
    |target| <= MAX_TARGET && forall s :: s in Segments(target) ==> SegmentFits(s)
  }

  // ---------- the extension ----------

  function FileName(target: string): string {
    Segments(target)[|Segments(target)| - 1]
  }

  // The end of a text that begins with its last dot; empty when there is none.
  function FromLastDot(s: string): string {
    if |s| == 0 then ""
    else if s[|s| - 1] == '.' then "."
    else
      var rest := FromLastDot(s[..|s| - 1]);
      if rest == "" then "" else rest + [s[|s| - 1]]
  }

  // What follows the last dot of a name, with the dot, unless that dot is its first or its last character.
  function SuffixOf(name: string): string {
    var end := FromLastDot(name);
    if 1 < |end| < |name| then end else ""
  }

  function Suffix(target: string): string {
    SuffixOf(FileName(target))
  }

  predicate ExtensionFits(e: string) {
    |e| >= 2 && e[0] == '.' && forall i :: 1 <= i < |e| ==> AlphaNumeric(e[i])
  }

  // ---------- letter case and device names ----------

  function LowerOf(c: char): char {
    if 'A' <= c <= 'Z' then c - 'A' + 'a' else c
  }

  function UpperOf(c: char): char {
    if 'a' <= c <= 'z' then c - 'a' + 'A' else c
  }

  function Lower(s: string): string {
    seq(|s|, i requires 0 <= i < |s| => LowerOf(s[i]))
  }

  function Upper(s: string): string {
    seq(|s|, i requires 0 <= i < |s| => UpperOf(s[i]))
  }

  // The beginning of a segment before its first dot.
  function Stem(s: string): string {
    if |s| == 0 || s[0] == '.' then "" else [s[0]] + Stem(s[1..])
  }

  predicate IsDevice(stem: string) {
    var name := Upper(stem);
    || name in ["CON", "PRN", "AUX", "NUL"]
    || (|name| == 4 && (name[..3] == "COM" || name[..3] == "LPT") && '1' <= name[3] <= '9')
  }

  // What the grant contract asks of a target beyond what the tool request asks.
  predicate GrantAcceptable(target: string) {
    && ExtensionFits(Suffix(target))
    && forall s :: s in Segments(target) ==> !IsDevice(Stem(s))
  }

  // ---------- where the dots and slashes are ----------

  lemma {:induction false} OneSegment(s: string)
    requires forall i :: 0 <= i < |s| ==> s[i] != '/'
    ensures Segments(s) == [s]
  {
    if |s| > 0 {
      OneSegment(s[..|s| - 1]);
      assert s == s[..|s| - 1] + [s[|s| - 1]];
    }
  }

  lemma {:induction false} DotEnds(s: string, i: nat)
    requires i < |s| && s[i] == '.' && forall k :: i < k < |s| ==> s[k] != '.'
    ensures FromLastDot(s) == s[i..]
  {
    if i < |s| - 1 {
      DotEnds(s[..|s| - 1], i);
      assert s[i..] == s[..|s| - 1][i..] + [s[|s| - 1]];
    }
  }

  lemma {:induction false} DotBegins(s: string, i: nat)
    requires i <= |s| && (i < |s| ==> s[i] == '.') && forall k :: 0 <= k < i ==> s[k] != '.'
    ensures Stem(s) == s[..i]
  {
    if i > 0 {
      DotBegins(s[1..], i - 1);
      assert s[..i] == [s[0]] + s[1..][..i - 1];
    }
  }
}
