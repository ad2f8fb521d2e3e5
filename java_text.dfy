/** Java's nullable strings and the two text helpers the network utilities
    rely on: `isBlank` / `nullIfBlank` (a string is blank when it is null or
    `trim()` leaves nothing of it) and string concatenation, where a null
    operand is spelled "null". */
module JavaText {

  /** A Java reference that may be null. */
  datatype Option<+T> = None | Some(value: T)

  /** Characters Java's `String.trim()` removes: every code point up to U+0020. */
  predicate IsTrimmed(c: char) {
    c <= ' '
  }

  /** `trim()` from the front: drops leading trimmable characters. */
  function TrimStart(s: string): string {
    if |s| > 0 && IsTrimmed(s[0]) then TrimStart(s[1..]) else s
  }

  /** `trim()` from the back: drops trailing trimmable characters. */
  function TrimEnd(s: string): string {
    if |s| > 0 && IsTrimmed(s[|s| - 1]) then TrimEnd(s[..|s| - 1]) else s
  }

  /** What `TrimStart` leaves is a suffix of its input that is empty or starts
      with a kept character, and everything it dropped was trimmable. */
  lemma {:induction false} TrimStartIsSuffix(s: string)
    ensures var r := TrimStart(s);
      && |r| <= |s| && r == s[|s| - |r|..]
      && (r == [] || !IsTrimmed(r[0]))
      && forall i :: 0 <= i < |s| - |r| ==> IsTrimmed(s[i])
  {
    if |s| > 0 && IsTrimmed(s[0]) {
      TrimStartIsSuffix(s[1..]);
    }
  }

  /** What `TrimEnd` leaves is a prefix of its input that is empty or ends
      with a kept character, and everything it dropped was trimmable. */
  lemma {:induction false} TrimEndIsPrefix(s: string)
    ensures var r := TrimEnd(s);
      && |r| <= |s| && r == s[..|r|]
      && (r == [] || !IsTrimmed(r[|r| - 1]))
      && forall i :: |r| <= i < |s| ==> IsTrimmed(s[i])
  {
    if |s| > 0 && IsTrimmed(s[|s| - 1]) {
      TrimEndIsPrefix(s[..|s| - 1]);
    }
  }

  /** Java's `String.trim()`. */
  function Trim(s: string): string {
    TrimEnd(TrimStart(s))
  }

  /** The text helper's `isBlank`: null, or nothing left after `trim()`. */
  predicate IsBlank(s: Option<string>) {
    s.None? || |Trim(s.value)| == 0
  }

  /** The text helper's `nullIfBlank`: null, or a string that `trim()` empties
      (one made only of characters up to U+0020), becomes null; any other
      string is passed through as it is (it is not trimmed). */
  function NullIfBlank(s: Option<string>): (r: Option<string>)
    ensures r.None? <==> s.None? || forall i :: 0 <= i < |s.value| ==> IsTrimmed(s.value[i])
    ensures r.Some? ==> r == s
  {
    if s.None? then None
    else
      BlankIffAllTrimmed(s.value);
      if IsBlank(s) then None else s
  }

  /** Java's `a + b` for a possibly null `a` and a non-null `b`. */
  function Concat(a: Option<string>, b: string): string {
    (if a.Some? then a.value else "null") + b
  }

  /** With the same left operand, different right operands give different
      concatenations: the same package name never merges two distinct uids. */
  lemma ConcatInjective(a: Option<string>, b1: string, b2: string)
    requires Concat(a, b1) == Concat(a, b2)
    ensures b1 == b2
  {
    var p := if a.Some? then a.value else "null";
    assert b1 == Concat(a, b1)[|p|..];
    assert b2 == Concat(a, b2)[|p|..];
  }

  /** `trim()` leaves nothing exactly when every character is trimmable, so a
      string is blank exactly when it is null or made only of characters up
      to U+0020. */
  lemma {:induction false} BlankIffAllTrimmed(s: string)
    ensures IsBlank(Some(s)) <==> forall i :: 0 <= i < |s| ==> IsTrimmed(s[i])
  {
    var t := TrimStart(s);
    TrimStartIsSuffix(s);
    TrimEndIsPrefix(t);
    if t == [] {
      assert Trim(s) == [];
    } else {
      assert !IsTrimmed(t[0]);
      assert s[|s| - |t|] == t[0];
    }
  }

  /** A string with a character above U+0020 is not blank, whatever surrounds it. */
  lemma NotBlankWhenVisible(s: string, i: nat)
    requires i < |s| && !IsTrimmed(s[i])
    ensures !IsBlank(Some(s))
    ensures NullIfBlank(Some(s)) == Some(s)
  {
    BlankIffAllTrimmed(s);
  }
}
