/**
 * Shared vocabulary: an Option type for JavaScript's null/undefined and Java's
 * null, and the small string operations of the JavaScript and Java runtimes
 * that the application relies on (trim, toLowerCase, includes, split, join),
 * restricted to the characters the application data uses.
 */
module Common {

  datatype Option<T> = None | Some(value: T)

  /** JavaScript truthiness of a nullable string: present and non-empty. */
  predicate Truthy(s: Option<string>) {
    s.Some? && s.value != ""
  }

  /** A nullable string kept only when it is truthy, as `x ? x : undefined` does. */
  function IfTruthy(s: Option<string>): (r: Option<string>)
    ensures r.Some? <==> Truthy(s)
    ensures r.Some? ==> r == s
  {
    if Truthy(s) then s else None
  }

  /** The line terminators after which a multiline `^` matches in JavaScript. */
  predicate IsLineTerminator(c: char) {
    c == '\n' || c == '\r' || c == '\U{2028}' || c == '\U{2029}'
  }

  /** The white-space characters that `String.prototype.trim` removes (Latin-1 subset). */
  predicate IsWhitespace(c: char) {
    IsLineTerminator(c) || c == ' ' || c == '\t' || c == '\U{000B}' || c == '\U{000C}'
    || c == '\U{00A0}' || c == '\U{FEFF}'
  }

  predicate IsTrimmed(s: string) {
    s == [] || (!IsWhitespace(s[0]) && !IsWhitespace(s[|s| - 1]))
  }

  predicate AllWhitespace(s: string) {
    forall i :: 0 <= i < |s| ==> IsWhitespace(s[i])
  }

  function TrimStart(s: string): (r: string)
    ensures r == [] || !IsWhitespace(r[0])
    ensures |r| <= |s| && r == s[|s| - |r|..]
    ensures AllWhitespace(s[..|s| - |r|])
  {
    if s != [] && IsWhitespace(s[0]) then
      var r := TrimStart(s[1..]);
      assert s[1..][..|s| - 1 - |r|] == s[1..|s| - |r|];
      r
    else s
  }

  function TrimEnd(s: string): (r: string)
    ensures r == [] || !IsWhitespace(r[|r| - 1])
    ensures |r| <= |s| && r == s[..|r|]
    ensures AllWhitespace(s[|r|..])
  {
    if s != [] && IsWhitespace(s[|s| - 1]) then
      var r := TrimEnd(s[..|s| - 1]);
      assert s[..|s| - 1][|r|..] + [s[|s| - 1]] == s[|r|..];
      r
    else s
  }

  /** `String.prototype.trim`: strips leading and trailing white space. */
  function Trim(s: string): (r: string)
    ensures IsTrimmed(r)
    ensures r == [] <==> AllWhitespace(s)
  {
    var a := TrimStart(s);
    var r := TrimEnd(a);
    if r == [] then
      assert a == [] by { assert a[|r|..] == a; }
      assert s[..|s| - |a|] == s;
      r
    else
      assert r[0] == a[0];
      assert !AllWhitespace(s) by {
        assert s[|s| - |a|] == a[0];
      }
      r
  }

  /** Trimming a string with no white space at either end returns it unchanged. */
  lemma TrimOfTrimmed(s: string)
    requires IsTrimmed(s)
    ensures Trim(s) == s
  {
  }

  /** Appending white space to a trimmed, non-empty string is undone by trim. */
  lemma {:induction false} TrimDropsTrailingWhitespace(s: string, ws: string)
    requires IsTrimmed(s) && s != [] && AllWhitespace(ws)
    ensures Trim(s + ws) == s
    decreases |ws|
  {
    if ws == [] {
      assert s + ws == s;
    } else {
      var t := s + ws;
      assert t[..|t| - 1] == s + ws[..|ws| - 1];
      TrimDropsTrailingWhitespace(s, ws[..|ws| - 1]);
      assert TrimStart(t) == t;
      assert TrimStart(s + ws[..|ws| - 1]) == s + ws[..|ws| - 1];
    }
  }

  /** ASCII lower-casing; `toLowerCase` outside ASCII is not modelled. */
  function LowerChar(c: char): char {
    if 'A' <= c <= 'Z' then (c as int + 32) as char else c
  }

  function ToLower(s: string): (r: string)
    ensures |r| == |s|
    ensures forall i :: 0 <= i < |s| ==> r[i] == LowerChar(s[i])
  {
    seq(|s|, i requires 0 <= i < |s| => LowerChar(s[i]))
  }

  /** `hay.includes(needle)` (JavaScript) / `hay.contains(needle)` (Java). */
  predicate Contains(hay: string, needle: string) {
    exists i :: 0 <= i <= |hay| - |needle| && OccursAt(hay, needle, i)
  }

  predicate OccursAt(hay: string, needle: string, i: int) {
    0 <= i <= |hay| - |needle| && hay[i..i + |needle|] == needle
  }

  /** `s.split(sep)` for a one-character separator, as in JavaScript. */
  function Split(s: string, sep: char): (r: seq<string>)
    ensures |r| >= 1
    ensures forall k :: 0 <= k < |r| ==> sep !in r[k]
    decreases |s|
  {
    if s == [] then [""]
    else
      var rest := Split(s[1..], sep);
      if s[0] == sep then [""] + rest
      else [[s[0]] + rest[0]] + rest[1..]
  }

  /** `parts.join(sep)`, as in JavaScript. */
  function Join(parts: seq<string>, sep: string): string {
    if parts == [] then ""
    else if |parts| == 1 then parts[0]
    else parts[0] + sep + Join(parts[1..], sep)
  }

  /** Joining the pieces of a split gives the original text back. */
  lemma {:induction false} JoinSplit(s: string, sep: char)
    ensures Join(Split(s, sep), [sep]) == s
    decreases |s|
  {
    if s != [] {
      JoinSplit(s[1..], sep);
      var rest := Split(s[1..], sep);
      if s[0] == sep {
        assert s == [sep] + s[1..];
      } else if |rest| == 1 {
        assert s == [s[0]] + s[1..];
      } else {
        assert Join(rest, [sep]) == rest[0] + [sep] + Join(rest[1..], [sep]);
        assert s == [s[0]] + s[1..];
      }
    }
  }

  /** A text without the separator splits into itself alone. */
  lemma SplitWithoutSeparator(s: string, sep: char)
    requires sep !in s
    ensures Split(s, sep) == [s]
    decreases |s|
  {
    if s != [] {
      SplitWithoutSeparator(s[1..], sep);
      assert [s[0]] + s[1..] == s;
    }
  }
}
