/** Small string helpers shared by the guardrail, risk and trade-off modules:
    an Option type, Python's `str.lower()` and `str.title()` on ASCII letters,
    the substring test `sub in text`, and `sep.join(parts)`. */
module Text {

  datatype Option<+T> = None | Some(value: T)

  predicate IsUpper(c: char) { 'A' <= c <= 'Z' }
  predicate IsLower(c: char) { 'a' <= c <= 'z' }
  predicate IsLetter(c: char) { IsUpper(c) || IsLower(c) }

  function LowerChar(c: char): (d: char)
    ensures !IsUpper(d)
    ensures IsLetter(c) <==> IsLetter(d)
    ensures !IsUpper(c) ==> d == c
  {
    if IsUpper(c) then (c as int + 32) as char else c
  }

  function UpperChar(c: char): (d: char)
    ensures !IsLower(d)
    ensures IsLetter(c) <==> IsLetter(d)
    ensures !IsLower(c) ==> d == c
  {
    if IsLower(c) then (c as int - 32) as char else c
  }

  /** `s.lower()`: every ASCII capital replaced by its small letter. */
  function Lower(s: string): (r: string)
    ensures |r| == |s|
    ensures forall i :: 0 <= i < |s| ==> r[i] == LowerChar(s[i])
  {
    seq(|s|, i requires 0 <= i < |s| => LowerChar(s[i]))
  }

  /** `s.title()`: a letter that follows a letter is made small, any other
      letter capital; characters that are not letters are kept. */
  function Title(s: string): (r: string)
    ensures |r| == |s|
  {
    TitleAfter(s, false)
  }

  function TitleAfter(s: string, afterLetter: bool): (r: string)
    ensures |r| == |s|
  {
    if s == [] then []
    else
      var c := if afterLetter then LowerChar(s[0]) else UpperChar(s[0]);
      [c] + TitleAfter(s[1..], IsLetter(s[0]))
  }

  /** Python's `sub in text`. */
  predicate Contains(text: string, sub: string) {
    exists i :: 0 <= i <= |text| && sub <= text[i..]
  }

  /** `any(word in text for word in words)`, scanning the words in order. */
  function AnyContained(text: string, words: seq<string>): (b: bool)
    ensures b <==> exists k :: 0 <= k < |words| && Contains(text, words[k])
  {
    if words == [] then false
    else Contains(text, words[0]) || AnyContained(text, words[1..])
  }

  /** `sep.join(parts)`. */
  function Join(parts: seq<string>, sep: string): string {
    if parts == [] then ""
    else if |parts| == 1 then parts[0]
    else parts[0] + sep + Join(parts[1..], sep)
  }

  predicate IsSuffix(suffix: string, s: string) {
    |suffix| <= |s| && s[|s| - |suffix|..] == suffix
  }

  lemma LowerAppend(s: string, t: string)
    ensures Lower(s + t) == Lower(s) + Lower(t)
  {
  }

  lemma ContainsItself(s: string)
    ensures Contains(s, s)
  {
    assert s <= s[0..];
  }

  lemma {:induction false} ContainsExtendRight(t: string, u: string, w: string)
    requires Contains(t, w)
    ensures Contains(t + u, w)
  {
    var i :| 0 <= i <= |t| && w <= t[i..];
    assert (t + u)[i..] == t[i..] + u;
  }

  lemma {:induction false} ContainsExtendLeft(s: string, t: string, w: string)
    requires Contains(t, w)
    ensures Contains(s + t, w)
  {
    var i :| 0 <= i <= |t| && w <= t[i..];
    assert (s + t)[|s| + i..] == t[i..];
  }

  lemma PrefixExtend(p: string, s: string, u: string)
    requires p <= s
    ensures p <= s + u
  {
  }

  /** A text that starts with `head` keeps it as a prefix when `tail` is
      appended, and ends with `tail`. */
  lemma Framed(head: string, body: string, tail: string)
    requires head <= body
    ensures head <= body + tail
    ensures IsSuffix(tail, body + tail)
  {
    PrefixExtend(head, body, tail);
    SuffixOfAppend(body, tail);
  }

  lemma SuffixOfAppend(s: string, u: string)
    ensures IsSuffix(u, s + u)
  {
    assert (s + u)[|s|..] == u;
  }

  lemma {:induction false} ContainsInLarger(s: string, t: string, u: string, w: string)
    requires Contains(t, w)
    ensures Contains(s + t + u, w)
  {
    var i :| 0 <= i <= |t| && w <= t[i..];
    var j := |s| + i;
    assert (s + t + u)[j..] == t[i..] + u;
  }
}
