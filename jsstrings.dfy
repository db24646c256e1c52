/**
  The few JavaScript string operations the core relies on, with the meaning
  the ECMAScript library gives them: `indexOf`, `includes`, `split` with a
  non-empty separator, `trim`, and `+=`-accumulation of a list of strings.
 */
module JsStrings {

  /** `sub` occurs in `s` starting at index `i`. */
  predicate OccursAt(s: string, sub: string, i: nat) {
    i + |sub| <= |s| && s[i..i + |sub|] == sub
  }

  /**
    `s.indexOf(sub, from)` for a non-empty `sub`, the only kind the core
    searches for: the first index at or after `from` where `sub` occurs, or -1.
    (For an empty `sub`, JavaScript clamps `from` to the length instead.)
   */
  function IndexOf(s: string, sub: string, from: nat): (r: int)
    ensures r == -1 || (from <= r && OccursAt(s, sub, r))
    decreases |s| - from
  {
    if from + |sub| > |s| then -1
    else if s[from..from + |sub|] == sub then from
    else IndexOf(s, sub, from + 1)
  }

  /** `indexOf` finds the first occurrence: none lies between `from` and its result, nor after `from` when it gives -1. */
  lemma {:induction false} IndexOfIsFirst(s: string, sub: string, from: nat)
    ensures IndexOf(s, sub, from) == -1 ==> forall i: nat :: from <= i ==> !OccursAt(s, sub, i)
    ensures IndexOf(s, sub, from) != -1 ==> forall i: nat :: from <= i < IndexOf(s, sub, from) ==> !OccursAt(s, sub, i)
    decreases |s| - from
  {
    if from + |sub| <= |s| && s[from..from + |sub|] != sub {
      IndexOfIsFirst(s, sub, from + 1);
    }
  }

  /** `s.includes(sub)`. */
  function Includes(s: string, sub: string): bool {
    IndexOf(s, sub, 0) != -1
  }

  /** `includes` holds exactly when `sub` occurs somewhere in `s`. */
  lemma IncludesMeans(s: string, sub: string)
    ensures Includes(s, sub) <==> exists i: nat :: OccursAt(s, sub, i)
  {
    IndexOfIsFirst(s, sub, 0);
  }

  /** An occurrence in a slice `s[k..]` is an occurrence in `s`, shifted by `k`. */
  lemma OccursInSuffix(s: string, sub: string, k: nat, i: nat)
    requires k <= |s|
    ensures OccursAt(s[k..], sub, i) <==> OccursAt(s, sub, k + i)
  {
    if i + |sub| <= |s| - k {
      assert s[k..][i..i + |sub|] == s[k + i..k + i + |sub|];
    }
  }

  /** An occurrence in a prefix `s[..k]` is an occurrence in `s`. */
  lemma OccursInPrefix(s: string, sub: string, k: nat, i: nat)
    requires k <= |s|
    requires OccursAt(s[..k], sub, i)
    ensures OccursAt(s, sub, i)
  {
    assert s[..k][i..i + |sub|] == s[i..i + |sub|];
  }

  /** Searching a suffix from 0 is searching the whole string from the suffix's start. */
  lemma IndexOfSuffix(s: string, sub: string, k: nat)
    requires k <= |s|
    ensures IndexOf(s[k..], sub, 0) == (if IndexOf(s, sub, k) == -1 then -1 else IndexOf(s, sub, k) - k)
  {
    var a := IndexOf(s[k..], sub, 0);
    var b := IndexOf(s, sub, k);
    IndexOfIsFirst(s[k..], sub, 0);
    IndexOfIsFirst(s, sub, k);
    if a != -1 {
      OccursInSuffix(s, sub, k, a);
      forall i: nat | k <= i < k + a ensures !OccursAt(s, sub, i) {
        OccursInSuffix(s, sub, k, i - k);
      }
    } else if b != -1 {
      OccursInSuffix(s, sub, k, b - k);
    }
  }

  /** `parts.join(sep)`. */
  function Join(parts: seq<string>, sep: string): string
    decreases |parts|
  {
    if |parts| == 0 then ""
    else if |parts| == 1 then parts[0]
    else parts[0] + sep + Join(parts[1..], sep)
  }

  /**
    `s.split(sep)` for a non-empty separator: the pieces between successive
    non-overlapping occurrences of `sep`, scanning from the left.
   */
  function Split(s: string, sep: string): (parts: seq<string>)
    requires |sep| > 0
    ensures |parts| >= 1
    ensures |parts| >= 2 <==> Includes(s, sep)
    ensures parts[0] == if Includes(s, sep) then s[..IndexOf(s, sep, 0)] else s
    ensures forall k :: 0 <= k < |parts| ==> !Includes(parts[k], sep)
    ensures Join(parts, sep) == s
    decreases |s|
  {
    var i := IndexOf(s, sep, 0);
    if i == -1 then [s]
    else
      var head, rest := s[..i], Split(s[i + |sep|..], sep);
      assert !Includes(head, sep) by {
        IndexOfIsFirst(s, sep, 0);
        IncludesMeans(head, sep);
        forall j: nat ensures !OccursAt(head, sep, j) {
          if OccursAt(head, sep, j) { OccursInPrefix(s, sep, i, j); }
        }
      }
      assert s == head + sep + s[i + |sep|..];
      [head] + rest
  }

  /** A string that holds `sep` splits into the text before its first occurrence and the pieces of the rest. */
  lemma SplitUnfold(s: string, sep: string)
    requires |sep| > 0 && Includes(s, sep)
    ensures IndexOf(s, sep, 0) + |sep| <= |s|
    ensures Split(s, sep) == [s[..IndexOf(s, sep, 0)]] + Split(s[IndexOf(s, sep, 0) + |sep|..], sep)
  {
  }

  /** The second piece runs to the end of the string when `sep` occurs only once. */
  lemma SecondPieceToEnd(s: string, sep: string, k: nat)
    requires |sep| > 0 && Includes(s, sep)
    requires k == IndexOf(s, sep, 0) + |sep| && IndexOf(s, sep, k) == -1
    ensures Split(s, sep)[1] == s[k..]
  {
    var rest := s[k..];
    SplitUnfold(s, sep);
    assert Split(s, sep)[1] == Split(rest, sep)[0];
    IndexOfSuffix(s, sep, k);
    assert !Includes(rest, sep);
  }

  lemma SliceOfSuffix(s: string, k: nat, j: nat)
    requires k <= j <= |s|
    ensures s[k..][..j - k] == s[k..j]
  {
  }

  /** The second piece stops at the second occurrence of `sep`. */
  lemma SecondPieceToNext(s: string, sep: string, k: nat, j: nat)
    requires |sep| > 0 && Includes(s, sep)
    requires k == IndexOf(s, sep, 0) + |sep| && j == IndexOf(s, sep, k)
    ensures k <= j <= |s| && Split(s, sep)[1] == s[k..j]
  {
    var rest := s[k..];
    SplitUnfold(s, sep);
    assert Split(s, sep)[1] == Split(rest, sep)[0];
    IndexOfSuffix(s, sep, k);
    assert IndexOf(rest, sep, 0) == j - k;
    assert Includes(rest, sep);
    assert Split(rest, sep)[0] == rest[..j - k];
    SliceOfSuffix(s, k, j);
  }

  /**
    Of the pieces of a string that holds `sep`, the second is the text between
    the first occurrence of `sep` and the next one, or the end of the string.
   */
  lemma SplitSecondPiece(s: string, sep: string)
    requires |sep| > 0 && Includes(s, sep)
    ensures var k := IndexOf(s, sep, 0) + |sep|;
            var j := IndexOf(s, sep, k);
            Split(s, sep)[1] == if j == -1 then s[k..] else s[k..j]
  {
    var k := IndexOf(s, sep, 0) + |sep|;
    var j := IndexOf(s, sep, k);
    if j == -1 {
      SecondPieceToEnd(s, sep, k);
    } else {
      SecondPieceToNext(s, sep, k, j);
    }
  }

  /** The whitespace `String.prototype.trim` removes: ECMAScript WhiteSpace and LineTerminator. */
  predicate IsWhitespace(c: char) {
    || c == '\t' || c == '\n' || c == '\U{B}' || c == '\U{C}' || c == '\r' || c == ' '
    || c == '\U{A0}' || c == '\U{1680}' || ('\U{2000}' <= c <= '\U{200A}')
    || c == '\U{2028}' || c == '\U{2029}' || c == '\U{202F}' || c == '\U{205F}'
    || c == '\U{3000}' || c == '\U{FEFF}'
  }

  /** `s.trimStart()`: the suffix left after dropping leading whitespace. */
  function TrimStart(s: string): (r: string)
    ensures |r| <= |s| && r == s[|s| - |r|..]
    ensures r == "" || !IsWhitespace(r[0])
    ensures forall k :: 0 <= k < |s| - |r| ==> IsWhitespace(s[k])
  {
    if s != "" && IsWhitespace(s[0]) then TrimStart(s[1..]) else s
  }

  /** `s.trimEnd()`: the prefix left after dropping trailing whitespace. */
  function TrimEnd(s: string): (r: string)
    ensures |r| <= |s| && r == s[..|r|]
    ensures r == "" || !IsWhitespace(r[|r| - 1])
    ensures forall k :: |r| <= k < |s| ==> IsWhitespace(s[k])
  {
    if s != "" && IsWhitespace(s[|s| - 1]) then TrimEnd(s[..|s| - 1]) else s
  }

  /** How many leading characters `trim` drops. */
  function TrimOffset(s: string): nat {
    |s| - |TrimStart(s)|
  }

  /**
    `s.trim()`: the slice of `s` that starts and ends with a non-whitespace
    character, everything cut off on either side being whitespace.
   */
  function Trim(s: string): (r: string)
    ensures TrimOffset(s) + |r| <= |s|
    ensures r == s[TrimOffset(s)..TrimOffset(s) + |r|]
    ensures r == "" || (!IsWhitespace(r[0]) && !IsWhitespace(r[|r| - 1]))
    ensures forall k :: 0 <= k < TrimOffset(s) ==> IsWhitespace(s[k])
    ensures forall k :: TrimOffset(s) + |r| <= k < |s| ==> IsWhitespace(s[k])
  {
    var t := TrimStart(s);
    var r := TrimEnd(t);
    TrimStartThenEnd(s, t, r, |s| - |t|);
    r
  }

  lemma TrimStartThenEnd(s: string, t: string, r: string, off: nat)
    requires off <= |s| && t == s[off..]
    requires |r| <= |t| && r == t[..|r|]
    requires forall k :: |r| <= k < |t| ==> IsWhitespace(t[k])
    ensures r == s[off..off + |r|]
    ensures forall k :: off + |r| <= k < |s| ==> IsWhitespace(s[k])
  {
    forall k | off + |r| <= k < |s| ensures IsWhitespace(s[k]) {
      assert s[k] == t[k - off];
    }
  }

  /** A string with a non-whitespace character does not trim to the empty string. */
  lemma TrimKeepsNonBlank(s: string, k: nat)
    requires k < |s| && !IsWhitespace(s[k])
    ensures Trim(s) != ""
  {
  }

  /** Trimming drops whitespace padding on both sides of a text that starts and ends with a non-whitespace character. */
  lemma TrimOfPadded(pre: string, body: string, post: string)
    requires forall k :: 0 <= k < |pre| ==> IsWhitespace(pre[k])
    requires forall k :: 0 <= k < |post| ==> IsWhitespace(post[k])
    requires body != "" && !IsWhitespace(body[0]) && !IsWhitespace(body[|body| - 1])
    ensures Trim(pre + body + post) == body
  {
    var s := pre + body + post;
    TrimStartOfPadded(pre, body + post);
    assert s == pre + (body + post);
    TrimEndOfPadded(body, post);
  }

  lemma {:induction false} TrimStartOfPadded(pre: string, rest: string)
    requires forall k :: 0 <= k < |pre| ==> IsWhitespace(pre[k])
    requires rest != "" && !IsWhitespace(rest[0])
    ensures TrimStart(pre + rest) == rest
  {
    if pre == [] {
      assert pre + rest == rest;
    } else {
      assert (pre + rest)[1..] == pre[1..] + rest;
      TrimStartOfPadded(pre[1..], rest);
    }
  }

  lemma {:induction false} TrimEndOfPadded(rest: string, post: string)
    requires forall k :: 0 <= k < |post| ==> IsWhitespace(post[k])
    requires rest != "" && !IsWhitespace(rest[|rest| - 1])
    ensures TrimEnd(rest + post) == rest
  {
    if post == [] {
      assert rest + post == rest;
    } else {
      var n := |post| - 1;
      assert (rest + post)[..|rest + post| - 1] == rest + post[..n];
      TrimEndOfPadded(rest, post[..n]);
    }
  }

  /** The concatenation of a list of strings, accumulated left to right as `text += piece` does. */
  function Concat(pieces: seq<string>): string {
    if pieces == [] then "" else Concat(pieces[..|pieces| - 1]) + pieces[|pieces| - 1]
  }
}
