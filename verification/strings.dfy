/**
 * The JavaScript string operations the triage pipeline relies on, over
 * `string = seq<char>`: ASCII `toLowerCase`, `includes`, `split(" ")`,
 * `join` and the emptiness test on `trim()`.
 */
module Strings {

  /** ASCII lower-casing of one character. */
  function LowerChar(c: char): char {
    if 'A' <= c <= 'Z' then (c as int + 32) as char else c
  }

  /** `s.toLowerCase()`, restricted to ASCII letters. */
  function Lower(s: string): (r: string)
    ensures |r| == |s|
    ensures forall i :: 0 <= i < |r| ==> !('A' <= r[i] <= 'Z')
    ensures forall i :: 0 <= i < |s| && !('A' <= s[i] <= 'Z') ==> r[i] == s[i]
    ensures forall i :: 0 <= i < |s| && 'A' <= s[i] <= 'Z' ==> 'a' <= r[i] <= 'z' && r[i] as int - 'a' as int == s[i] as int - 'A' as int
  {
    seq(|s|, i requires 0 <= i < |s| => LowerChar(s[i]))
  }

  /** Lower-casing twice is lower-casing once. */
  lemma LowerIdempotent(s: string)
    ensures Lower(Lower(s)) == Lower(s)
  {
  }

  /** A term found in a text is still found once both are lower-cased. */
  lemma LowerKeepsContains(text: string, term: string)
    ensures Contains(text, term) ==> Contains(Lower(text), Lower(term))
  {
    if Contains(text, term) {
      var i :| 0 <= i <= |text| && OccursAt(text, term, i);
      forall k | 0 <= k < |term| ensures Lower(text)[i + k] == Lower(term)[k] {
        assert text[i + k] == term[k];
      }
      assert Lower(text)[i..i + |term|] == Lower(term);
      assert OccursAt(Lower(text), Lower(term), i);
    }
  }

  /** `s.startsWith(prefix)` */
  predicate StartsWith(s: string, prefix: string) {
    |prefix| <= |s| && s[..|prefix|] == prefix
  }

  /** `s.endsWith(suffix)` */
  predicate EndsWith(s: string, suffix: string) {
    |suffix| <= |s| && s[|s| - |suffix|..] == suffix
  }

  /** Appending keeps a prefix, and the last part is a suffix of the whole. */
  lemma AppendKeepsEnds(a: string, b: string, c: string, prefix: string)
    requires StartsWith(a, prefix)
    ensures StartsWith(a + b + c, prefix)
    ensures EndsWith(a + b + c, c)
  {
    assert (a + b + c)[..|prefix|] == a[..|prefix|];
    assert (a + b + c)[|a + b|..] == c;
  }

  /** `term` occurs in `text` starting at offset `i`. */
  predicate OccursAt(text: string, term: string, i: int) {
    0 <= i && i + |term| <= |text| && text[i..i + |term|] == term
  }

  /** `text.includes(term)`: `term` occurs in `text` at some offset. */
  predicate Contains(text: string, term: string) {
    exists i | 0 <= i <= |text| :: OccursAt(text, term, i)
  }

  /** The empty string is found in every string. */
  lemma ContainsEmpty(text: string)
    ensures Contains(text, "")
  {
    assert OccursAt(text, "", 0);
  }

  /** The middle one of three strings framed by two more is found in the whole. */
  lemma ContainsMiddle(a: string, b: string, c: string, d: string, e: string)
    ensures Contains(a + (b + c + d) + e, c)
  {
    var whole := a + (b + c + d) + e;
    assert whole[|a| + |b|..|a| + |b| + |c|] == c;
    assert OccursAt(whole, c, |a| + |b|);
  }

  /**
   * `s.split(sep)` for a one-character separator: the pieces between
   * separators, including the empty ones before, between and after
   * separators. Splitting "" yields [""].
   */
  function Split(s: string, sep: char): (r: seq<string>)
    ensures |r| >= 1
    ensures |r[0]| <= |s|
    decreases |s|
  {
    if |s| == 0 then [""]
    else
      var rest := Split(s[1..], sep);
      if s[0] == sep then [""] + rest
      else [[s[0]] + rest[0]] + rest[1..]
  }

  /** `parts.join(sep)`. */
  function Join(parts: seq<string>, sep: string): string
    decreases |parts|
  {
    if |parts| == 0 then ""
    else if |parts| == 1 then parts[0]
    else parts[0] + sep + Join(parts[1..], sep)
  }

  /** No piece of a split holds the separator. */
  lemma {:induction false} SplitPiecesLackSeparator(s: string, sep: char)
    ensures forall k :: 0 <= k < |Split(s, sep)| ==> sep !in Split(s, sep)[k]
    decreases |s|
  {
    if |s| > 0 {
      SplitPiecesLackSeparator(s[1..], sep);
    }
  }

  /** Joining the pieces of a split with the separator gives back the original string. */
  lemma {:induction false} JoinSplit(s: string, sep: char)
    ensures Join(Split(s, sep), [sep]) == s
    decreases |s|
  {
    if |s| > 0 {
      var rest := Split(s[1..], sep);
      JoinSplit(s[1..], sep);
      if s[0] == sep {
        assert Split(s, sep)[1..] == rest;
        assert Join(Split(s, sep), [sep]) == "" + [sep] + Join(rest, [sep]);
        assert s == [s[0]] + s[1..];
      } else if |rest| == 1 {
        assert s == [s[0]] + s[1..];
      } else {
        var r := Split(s, sep);
        assert r[1..] == rest[1..];
        assert Join(r, [sep]) == [s[0]] + rest[0] + [sep] + Join(rest[1..], [sep]);
        assert s == [s[0]] + s[1..];
      }
    }
  }

  /** Two separators side by side at offset `i`. */
  predicate AdjacentSeparatorsAt(s: string, sep: char, i: int) {
    0 <= i && i + 1 < |s| && s[i] == sep && s[i + 1] == sep
  }

  /**
   * The inputs whose split contains an empty piece: the empty string, and
   * strings that start or end with the separator or hold two in a row.
   */
  predicate YieldsEmptyPiece(s: string, sep: char) {
    || |s| == 0
    || s[0] == sep
    || s[|s| - 1] == sep
    || exists i | 0 <= i < |s| :: AdjacentSeparatorsAt(s, sep, i)
  }

  lemma SplitFirstPiece(s: string, sep: char)
    ensures Split(s, sep)[0] == "" <==> |s| == 0 || s[0] == sep
  {
  }

  /** The pieces after the first are empty exactly at a trailing or doubled separator. */
  lemma {:induction false} SplitLaterPieces(s: string, sep: char)
    ensures "" in Split(s, sep)[1..] <==>
      (|s| > 0 && s[|s| - 1] == sep) || exists i | 0 <= i < |s| :: AdjacentSeparatorsAt(s, sep, i)
    decreases |s|
  {
    if |s| > 0 {
      var tail := s[1..];
      var rest := Split(tail, sep);
      SplitLaterPieces(tail, sep);
      SplitFirstPiece(tail, sep);
      assert rest == [rest[0]] + rest[1..];
      if exists i | 0 <= i < |s| :: AdjacentSeparatorsAt(s, sep, i) {
        var i :| 0 <= i < |s| && AdjacentSeparatorsAt(s, sep, i);
        if i > 0 {
          assert AdjacentSeparatorsAt(tail, sep, i - 1);
        }
      }
      if exists i | 0 <= i < |tail| :: AdjacentSeparatorsAt(tail, sep, i) {
        var i :| 0 <= i < |tail| && AdjacentSeparatorsAt(tail, sep, i);
        assert AdjacentSeparatorsAt(s, sep, i + 1);
      }
      if |tail| > 0 && tail[0] == sep && s[0] == sep {
        assert AdjacentSeparatorsAt(s, sep, 0);
      }
      if s[0] == sep {
        assert Split(s, sep)[1..] == rest;
      } else {
        assert Split(s, sep)[1..] == rest[1..];
      }
    }
  }

  /** `split` produces an empty piece exactly for the inputs of `YieldsEmptyPiece`. */
  lemma SplitHasEmptyPiece(s: string, sep: char)
    ensures "" in Split(s, sep) <==> YieldsEmptyPiece(s, sep)
  {
    var r := Split(s, sep);
    SplitFirstPiece(s, sep);
    SplitLaterPieces(s, sep);
    assert r == [r[0]] + r[1..];
  }

  /** The characters `String.prototype.trim` removes (ECMAScript WhiteSpace and LineTerminator). */
  predicate IsTrimmable(c: char) {
    || c == '\t' || c == '\n' || c == '\U{000B}' || c == '\U{000C}' || c == '\r' || c == ' '
    || c == '\U{00A0}' || c == '\U{1680}' || ('\U{2000}' <= c <= '\U{200A}')
    || c == '\U{2028}' || c == '\U{2029}' || c == '\U{202F}' || c == '\U{205F}'
    || c == '\U{3000}' || c == '\U{FEFF}'
  }

  /** `!s.trim()`: the string is empty once surrounding white space is removed. */
  predicate IsBlank(s: string) {
    forall i | 0 <= i < |s| :: IsTrimmable(s[i])
  }

  /** `s.trimStart()`: the suffix left after dropping the leading white space. */
  function TrimStart(s: string): (r: string)
    ensures |r| <= |s| && r == s[|s| - |r|..]
    ensures forall i | 0 <= i < |s| - |r| :: IsTrimmable(s[i])
    ensures r == [] || !IsTrimmable(r[0])
  {
    if |s| > 0 && IsTrimmable(s[0]) then TrimStart(s[1..]) else s
  }

  /** `s.trimEnd()`: the prefix left after dropping the trailing white space. */
  function TrimEnd(s: string): (r: string)
    ensures |r| <= |s| && r == s[..|r|]
    ensures forall i | |r| <= i < |s| :: IsTrimmable(s[i])
    ensures r == [] || !IsTrimmable(r[|r| - 1])
  {
    if |s| > 0 && IsTrimmable(s[|s| - 1]) then TrimEnd(s[..|s| - 1]) else s
  }

  /** `s.trim()`: the slice between the leading and the trailing white space. */
  function Trim(s: string): (r: string)
    ensures exists a, b ::
      (0 <= a <= b <= |s| && r == s[a..b]
       && (forall i | 0 <= i < a :: IsTrimmable(s[i]))
       && (forall i | b <= i < |s| :: IsTrimmable(s[i])))
    ensures r == [] || (!IsTrimmable(r[0]) && !IsTrimmable(r[|r| - 1]))
  {
    var t := TrimStart(s);
    var r := TrimEnd(t);
    var a := |s| - |t|;
    assert r == s[a..a + |r|];
    forall i | a + |r| <= i < |s| ensures IsTrimmable(s[i]) {
      assert s[i] == t[i - a];
    }
    r
  }

  /** The blank test agrees with JavaScript's: a string is blank exactly when trimming empties it. */
  lemma BlankIffTrimEmpty(s: string)
    ensures IsBlank(s) <==> Trim(s) == ""
  {
    var t := TrimStart(s);
    if !IsBlank(s) {
      var k :| 0 <= k < |s| && !IsTrimmable(s[k]);
      assert t != [];
    }
  }
}
