/** `String.prototype.trim`, `includes` and `split` on a one-character
    separator, with JavaScript's whitespace set. */
module JsStrings {

  /** The characters `trim` removes: the WhiteSpace and LineTerminator
      code points of ECMAScript. */
  predicate IsWhitespace(c: char) {
    ('\U{9}' <= c <= '\U{D}') || c == '\U{20}' || c == '\U{A0}' || c == '\U{1680}'
    || ('\U{2000}' <= c <= '\U{200A}') || c == '\U{2028}' || c == '\U{2029}'
    || c == '\U{202F}' || c == '\U{205F}' || c == '\U{3000}' || c == '\U{FEFF}'
  }

  /** The number of leading whitespace characters. */
  function LeadingSpace(s: string): (n: nat)
    ensures n <= |s|
    ensures forall i :: 0 <= i < n ==> IsWhitespace(s[i])
    ensures n < |s| ==> !IsWhitespace(s[n])
  {
    if |s| == 0 || !IsWhitespace(s[0]) then 0 else 1 + LeadingSpace(s[1..])
  }

  /** The number of trailing whitespace characters. */
  function TrailingSpace(s: string): (n: nat)
    ensures n <= |s|
    ensures forall i :: |s| - n <= i < |s| ==> IsWhitespace(s[i])
    ensures n < |s| ==> !IsWhitespace(s[|s| - n - 1])
  {
    if |s| == 0 || !IsWhitespace(s[|s| - 1]) then 0 else 1 + TrailingSpace(s[..|s| - 1])
  }

  /** `s.trim()`: a contiguous piece of `s` that neither starts nor ends with
      whitespace; everything cut off on either side is whitespace. */
  function Trim(s: string): (r: string)
    ensures LeadingSpace(s) + |r| <= |s|
    ensures r == s[LeadingSpace(s)..LeadingSpace(s) + |r|]
    ensures forall i :: 0 <= i < LeadingSpace(s) ==> IsWhitespace(s[i])
    ensures forall i :: LeadingSpace(s) + |r| <= i < |s| ==> IsWhitespace(s[i])
    ensures |r| > 0 ==> !IsWhitespace(r[0]) && !IsWhitespace(r[|r| - 1])
  {
    var a := LeadingSpace(s);
    SuffixSpace(s, a);
    s[a..|s| - TrailingSpace(s[a..])]
  }

  /** The trailing whitespace of a suffix, read back in the whole string. */
  lemma SuffixSpace(s: string, a: nat)
    requires a <= |s|
    ensures TrailingSpace(s[a..]) <= |s| - a
    ensures forall i :: |s| - TrailingSpace(s[a..]) <= i < |s| ==> IsWhitespace(s[i])
    ensures TrailingSpace(s[a..]) < |s| - a ==> !IsWhitespace(s[|s| - TrailingSpace(s[a..]) - 1])
  {
    var t := s[a..];
    var b := TrailingSpace(t);
    forall i | |s| - b <= i < |s| ensures IsWhitespace(s[i]) {
      assert s[i] == t[i - a];
    }
    if b < |t| {
      assert s[|s| - b - 1] == t[|t| - b - 1];
    }
  }

  /** Trimming twice is trimming once. */
  lemma TrimIdempotent(s: string)
    ensures Trim(Trim(s)) == Trim(s)
  {
    var r := Trim(s);
    if |r| > 0 {
      assert LeadingSpace(r) == 0;
      assert TrailingSpace(r) == 0;
    }
  }

  /** `s.includes(c)` */
  predicate Includes(s: string, c: char) {
    exists i :: 0 <= i < |s| && s[i] == c
  }

  /** `s.split(c)` for a one-character `c`: the pieces between separators,
      empty pieces included; the empty string splits into one empty piece. */
  function Split(s: string, c: char): (parts: seq<string>)
    ensures |parts| >= 1
    ensures forall k :: 0 <= k < |parts| ==> !Includes(parts[k], c)
  {
    if |s| == 0 then [""]
    else
      var rest := Split(s[1..], c);
      if s[0] == c then [""] + rest
      else
        assert forall i :: 1 <= i < |[s[0]] + rest[0]| ==> ([s[0]] + rest[0])[i] == rest[0][i - 1];
        [[s[0]] + rest[0]] + rest[1..]
  }

  /** `parts.join(c)` */
  function Join(parts: seq<string>, c: char): string
    requires |parts| >= 1
  {
    if |parts| == 1 then parts[0] else parts[0] + [c] + Join(parts[1..], c)
  }

  /** Joining the pieces with the separator gives back the string. */
  lemma {:induction false} SplitJoin(s: string, c: char)
    ensures Join(Split(s, c), c) == s
  {
    if |s| > 0 {
      SplitJoin(s[1..], c);
      var rest := Split(s[1..], c);
      if s[0] == c {
        assert Join(Split(s, c), c) == "" + [c] + Join(rest, c);
        assert s == [s[0]] + s[1..];
      } else {
        var parts := Split(s, c);
        assert parts[1..] == rest[1..];
        if |rest| == 1 {
          assert Join(parts, c) == [s[0]] + rest[0];
        } else {
          assert Join(parts, c) == ([s[0]] + rest[0]) + [c] + Join(rest[1..], c);
          assert Join(rest, c) == rest[0] + [c] + Join(rest[1..], c);
        }
        assert s == [s[0]] + s[1..];
      }
    }
  }

  /** A string without the separator splits into itself alone. */
  lemma {:induction false} SplitWithoutSeparator(s: string, c: char)
    requires !Includes(s, c)
    ensures Split(s, c) == [s]
  {
    if |s| > 0 {
      assert !Includes(s[1..], c) by {
        forall i | 0 <= i < |s[1..]| ensures s[1..][i] != c {
          assert s[1..][i] == s[i + 1];
        }
      }
      SplitWithoutSeparator(s[1..], c);
      assert [s[0]] + s[1..] == s;
    }
  }

  /** A string holding the separator splits into at least two pieces. */
  lemma {:induction false} SplitWithSeparator(s: string, c: char)
    requires Includes(s, c)
    ensures |Split(s, c)| >= 2
  {
    if s[0] != c {
      var i :| 0 <= i < |s| && s[i] == c;
      assert s[1..][i - 1] == c;
      SplitWithSeparator(s[1..], c);
    }
  }
}
