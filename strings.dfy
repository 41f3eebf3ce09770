/**
 * The JavaScript string operations the core relies on, with their ECMAScript semantics:
 * `includes`, `indexOf`, `split` by a non-empty separator, `Array.prototype.join`,
 * `replace` with a string pattern (first occurrence) and with a global pattern
 * (every occurrence), `toLowerCase` restricted to ASCII, `trim`, `slice(0, n)` and `+=`.
 */
module Strings {
  import opened Wrappers

  /** `p` occurs in `s` starting at index `i`. */
  predicate OccursAt(s: string, p: string, i: nat) {
    i + |p| <= |s| && s[i..i + |p|] == p
  }

  /** `s.includes(p)`. */
  predicate Contains(s: string, p: string) {
    exists i: nat :: i <= |s| && OccursAt(s, p, i)
  }

  /** `s.indexOf(p, from)`, with `None` for -1. */
  function IndexOfFrom(s: string, p: string, from: nat): (r: Option<nat>)
    ensures r.Some? ==> from <= r.value && OccursAt(s, p, r.value)
    ensures forall j: nat :: from <= j && (r.None? || j < r.value) ==> !OccursAt(s, p, j)
    decreases |s| + 1 - from
  {
    if from + |p| > |s| then None
    else if s[from..from + |p|] == p then Some(from)
    else IndexOfFrom(s, p, from + 1)
  }

  /** `s.indexOf(p)`: the first occurrence of `p` in `s`, or `None` when there is none. */
  function IndexOf(s: string, p: string): (r: Option<nat>)
    ensures r.None? <==> !Contains(s, p)
    ensures r.Some? ==> OccursAt(s, p, r.value) && forall j: nat :: j < r.value ==> !OccursAt(s, p, j)
  {
    IndexOfFrom(s, p, 0)
  }

  /** `s.split(sep)` for a non-empty separator: the pieces between successive leftmost occurrences. */
  function Split(s: string, sep: string): (parts: seq<string>)
    requires |sep| > 0
    ensures |parts| >= 1
    decreases |s|
  {
    match IndexOf(s, sep)
    case None => [s]
    case Some(i) => [s[..i]] + Split(s[i + |sep|..], sep)
  }

  /** `parts.join(sep)`; the empty array joins to the empty string. */
  function Join(parts: seq<string>, sep: string): string
    decreases |parts|
  {
    if |parts| == 0 then ""
    else if |parts| == 1 then parts[0]
    else parts[0] + sep + Join(parts[1..], sep)
  }

  /** `s.replace(new RegExp(p, 'g'), v)` for a pattern matching the literal text `p`:
      every leftmost, non-overlapping occurrence of `p` is replaced by `v`. */
  function ReplaceAll(s: string, p: string, v: string): (r: string)
    requires |p| > 0
    ensures r == Join(Split(s, p), v)
    decreases |s|
  {
    match IndexOf(s, p)
    case None => s
    case Some(i) =>
      var rest := s[i + |p|..];
      assert Split(s, p)[1..] == Split(rest, p);
      s[..i] + v + ReplaceAll(rest, p, v)
  }

  /** `s.replace(p, v)` with a string pattern: only the first occurrence of `p` is replaced. */
  function ReplaceFirst(s: string, p: string, v: string): (r: string)
    requires |p| > 0
    ensures !Contains(s, p) ==> r == s
  {
    match IndexOf(s, p)
    case None => s
    case Some(i) => s[..i] + v + s[i + |p|..]
  }

  /** JavaScript's `toLowerCase`, restricted to the ASCII letters. */
  function LowerChar(c: char): char {
    if 'A' <= c <= 'Z' then (c as int + 32) as char else c
  }

  function ToLower(s: string): string {
    seq(|s|, i requires 0 <= i < |s| => LowerChar(s[i]))
  }

  /** The ECMAScript WhiteSpace and LineTerminator code points that `trim` removes. */
  predicate IsJsWhitespace(c: char) {
    || c == '\t' || c == '\n' || c == '\U{B}' || c == '\U{C}' || c == '\r' || c == ' '
    || c == '\U{A0}' || c == '\U{1680}' || ('\U{2000}' <= c <= '\U{200A}')
    || c == '\U{2028}' || c == '\U{2029}' || c == '\U{202F}' || c == '\U{205F}'
    || c == '\U{3000}' || c == '\U{FEFF}'
  }

  function TrimStart(s: string): string
    decreases |s|
  {
    if |s| > 0 && IsJsWhitespace(s[0]) then TrimStart(s[1..]) else s
  }

  function TrimEnd(s: string): string
    decreases |s|
  {
    if |s| > 0 && IsJsWhitespace(s[|s| - 1]) then TrimEnd(s[..|s| - 1]) else s
  }

  /** `s.trim()`. */
  function Trim(s: string): string {
    TrimEnd(TrimStart(s))
  }

  /** `!s.trim()`: the input is empty or white space only. */
  predicate IsBlank(s: string) {
    Trim(s) == ""
  }

  /** `s.slice(0, n)` (and `s.substring(0, n)`): the first `n` elements, or all of them. */
  function Take<T>(s: seq<T>, n: nat): (r: seq<T>)
    ensures |r| == (if |s| < n then |s| else n)
    ensures r == s[..|r|]
  {
    if |s| <= n then s else s[..n]
  }

  /** The value of `acc` after `acc = ""; for (x of parts) acc += x;`. */
  function Concat(parts: seq<string>): string
    decreases |parts|
  {
    if |parts| == 0 then "" else Concat(parts[..|parts| - 1]) + parts[|parts| - 1]
  }

  // ---------------------------------------------------------------------------------------------
  // Lemmas

  /** One step of a split: the text before the first separator, then the split of the rest. */
  lemma {:induction false} SplitStep(s: string, sep: string, i: nat)
    requires |sep| > 0
    requires IndexOf(s, sep) == Some(i)
    ensures i + |sep| <= |s|
    ensures Split(s, sep) == [s[..i]] + Split(s[i + |sep|..], sep)
    ensures Split(s, sep)[0] == s[..i] && Split(s, sep)[1..] == Split(s[i + |sep|..], sep)
  {
    assert OccursAt(s, sep, i);
    SplitUnfold(s, sep, i);
    var parts := [s[..i]] + Split(s[i + |sep|..], sep);
    assert parts[1..] == Split(s[i + |sep|..], sep);
  }

  lemma {:induction false} SplitUnfold(s: string, sep: string, i: nat)
    requires |sep| > 0
    requires IndexOf(s, sep) == Some(i) && i + |sep| <= |s|
    ensures Split(s, sep) == [s[..i]] + Split(s[i + |sep|..], sep)
  {
  }

  /** Joining the pieces of a split with the same separator gives back the original string. */
  lemma {:induction false} SplitJoin(s: string, sep: string)
    requires |sep| > 0
    ensures Join(Split(s, sep), sep) == s
    decreases |s|
  {
    var r := IndexOf(s, sep);
    if r.Some? {
      var i := r.value;
      var rest := s[i + |sep|..];
      SplitJoin(rest, sep);
      SplitStep(s, sep, i);
      var parts := Split(s, sep);
      assert Join(parts, sep) == s[..i] + sep + rest;
      assert s[i..i + |sep|] == sep;
      assert s == s[..i] + s[i..i + |sep|] + rest;
    }
  }

  /** No text before the first occurrence of `p` contains `p`. */
  lemma {:induction false} NothingBeforeFirst(s: string, p: string, i: nat)
    requires |p| > 0
    requires IndexOf(s, p) == Some(i)
    ensures !Contains(s[..i], p)
  {
    forall j: nat | j <= i ensures !OccursAt(s[..i], p, j) {
      if j + |p| <= i {
        assert !OccursAt(s, p, j);
        assert s[..i][j..j + |p|] == s[j..j + |p|];
      }
    }
  }

  /** The first piece of a split is the longest prefix before the first separator: a prefix of
      the string, free of the separator, and either all of it or followed by the separator. */
  lemma {:induction false} SplitHead(s: string, sep: string)
    requires |sep| > 0
    ensures var h := Split(s, sep)[0];
            && |h| <= |s| && h == s[..|h|] && !Contains(h, sep)
            && (|h| == |s| || OccursAt(s, sep, |h|))
  {
    var r := IndexOf(s, sep);
    if r.Some? {
      SplitStep(s, sep, r.value);
      NothingBeforeFirst(s, sep, r.value);
    }
  }

  /** A string that contains `sep` splits into at least two pieces, the second beginning right after
      the first separator. */
  lemma {:induction false} SplitSecond(s: string, sep: string)
    requires |sep| > 0
    requires Contains(s, sep)
    ensures |Split(s, sep)| > 1
    ensures Split(s, sep)[1] == Split(s[IndexOf(s, sep).value + |sep|..], sep)[0]
  {
    SplitStep(s, sep, IndexOf(s, sep).value);
  }

  /** An occurrence of a one-character string is that character. */
  lemma {:induction false} OccursAtChar(s: string, c: char, j: nat)
    requires OccursAt(s, [c], j)
    ensures j < |s| && s[j] == c
  {
    assert s[j..j + 1][0] == s[j];
  }

  /** Every character of a string that `s` contains is a character of `s`. */
  lemma {:induction false} ContainedCharsIn(s: string, p: string, k: nat)
    requires Contains(s, p)
    requires k < |p|
    ensures p[k] in s
  {
    var j: nat :| j <= |s| && OccursAt(s, p, j);
    assert s[j..j + |p|][k] == s[j + k];
  }

  /** No piece of a split contains the separator. */
  lemma {:induction false} SplitPartsFree(s: string, sep: string)
    requires |sep| > 0
    ensures forall k :: 0 <= k < |Split(s, sep)| ==> !Contains(Split(s, sep)[k], sep)
    decreases |s|
  {
    match IndexOf(s, sep)
    case None =>
    case Some(i) =>
      var rest := s[i + |sep|..];
      NothingBeforeFirst(s, sep, i);
      SplitPartsFree(rest, sep);
      assert Split(s, sep) == [s[..i]] + Split(rest, sep);
  }

  /** A string contains a one-character string exactly when the character is one of its elements. */
  lemma {:induction false} ContainsChar(s: string, c: char)
    ensures Contains(s, [c]) <==> c in s
  {
    if c in s {
      var j :| 0 <= j < |s| && s[j] == c;
      assert s[j..j + 1] == [c];
      assert OccursAt(s, [c], j);
    }
    if Contains(s, [c]) {
      var j: nat :| j <= |s| && OccursAt(s, [c], j);
      assert s[j] == s[j..j + 1][0] == c;
    }
  }

  /** A string that does not contain `p` has no prefix that contains `p`. */
  lemma {:induction false} PrefixFree(s: string, p: string, n: nat)
    requires n <= |s|
    requires !Contains(s, p)
    ensures !Contains(s[..n], p)
  {
    forall j: nat | j <= n ensures !OccursAt(s[..n], p, j) {
      if j + |p| <= n {
        assert !OccursAt(s, p, j);
        assert s[..n][j..j + |p|] == s[j..j + |p|];
      }
    }
  }

  /** `a + p + b` contains `p`. */
  lemma {:induction false} ContainsInfix(a: string, p: string, b: string)
    ensures Contains(a + p + b, p)
  {
    var s := a + p + b;
    assert s[|a|..|a| + |p|] == p;
    assert OccursAt(s, p, |a|);
  }

  /** The first occurrence of `c` in `a + [c] + b`, when `a` does not hold `c`, is right after `a`. */
  lemma {:induction false} FirstCharOccurrence(a: string, c: char, b: string)
    requires c !in a
    ensures IndexOf(a + [c] + b, [c]) == Some(|a|)
  {
    var s := a + [c] + b;
    assert s[|a|..|a| + 1] == [c];
    assert OccursAt(s, [c], |a|);
    forall k: nat | k < |a|
      ensures !OccursAt(s, [c], k)
    {
      assert s[k..k + 1][0] == a[k];
    }
  }

  /** Splitting on a one-character separator undoes a join with it, provided no piece holds the
      character: the pieces come back in order. */
  lemma {:induction false} JoinSplitChar(parts: seq<string>, c: char)
    requires |parts| >= 1
    requires forall k :: 0 <= k < |parts| ==> c !in parts[k]
    ensures Split(Join(parts, [c]), [c]) == parts
    decreases |parts|
  {
    if |parts| == 1 {
      ContainsChar(parts[0], c);
      assert IndexOf(parts[0], [c]).None?;
    } else {
      var s := Join(parts, [c]);
      var tail := Join(parts[1..], [c]);
      assert s == parts[0] + [c] + tail;
      var n := |parts[0]|;
      FirstCharOccurrence(parts[0], c, tail);
      SplitStep(s, [c], n);
      assert s[..n] == parts[0];
      assert s[n + 1..] == tail;
      JoinSplitChar(parts[1..], c);
      assert parts == [parts[0]] + parts[1..];
    }
  }

  /** A first-occurrence replace puts `v` between the first piece of the split and the rest of the
      string, which is the remaining pieces joined back with `p`. */
  lemma {:induction false} ReplaceFirstSplit(s: string, p: string, v: string)
    requires |p| > 0
    requires Contains(s, p)
    ensures |Split(s, p)| > 1
    ensures ReplaceFirst(s, p, v) == Split(s, p)[0] + v + Join(Split(s, p)[1..], p)
  {
    var i := IndexOf(s, p).value;
    assert OccursAt(s, p, i);
    var rest := s[i + |p|..];
    SplitJoin(rest, p);
    SplitStep(s, p, i);
    ReplaceFirstUnfold(s, p, v, i);
  }

  lemma {:induction false} ReplaceFirstUnfold(s: string, p: string, v: string, i: nat)
    requires |p| > 0
    requires IndexOf(s, p) == Some(i) && i + |p| <= |s|
    ensures ReplaceFirst(s, p, v) == s[..i] + v + s[i + |p|..]
  {
  }

  /** Replacing every occurrence of `p` by `p` itself leaves the string unchanged. */
  lemma {:induction false} ReplaceAllIdentity(s: string, p: string)
    requires |p| > 0
    ensures ReplaceAll(s, p, p) == s
  {
    SplitJoin(s, p);
  }

  /** A global replace of a pattern the string does not contain changes nothing. */
  lemma {:induction false} ReplaceAllAbsent(s: string, p: string, v: string)
    requires |p| > 0
    requires !Contains(s, p)
    ensures ReplaceAll(s, p, v) == s
  {
  }

  /** The running concatenation grows by exactly the next chunk. */
  lemma {:induction false} ConcatStep(parts: seq<string>, i: nat)
    requires i < |parts|
    ensures Concat(parts[..i + 1]) == Concat(parts[..i]) + parts[i]
  {
    assert parts[..i + 1][..i] == parts[..i];
  }

  /** Concatenating the chunks is joining them with the empty separator. */
  lemma {:induction false} ConcatIsJoin(parts: seq<string>)
    ensures Concat(parts) == Join(parts, "")
    decreases |parts|
  {
    if |parts| > 1 {
      var init := parts[..|parts| - 1];
      ConcatIsJoin(init);
      JoinSnoc(init, parts[|parts| - 1], "");
      assert init + [parts[|parts| - 1]] == parts;
    }
  }

  /** Appending one more piece to a non-empty join adds the separator and the piece. */
  lemma {:induction false} JoinSnoc(parts: seq<string>, x: string, sep: string)
    requires |parts| >= 1
    ensures Join(parts + [x], sep) == Join(parts, sep) + sep + x
    decreases |parts|
  {
    if |parts| > 1 {
      assert (parts + [x])[1..] == parts[1..] + [x];
      JoinSnoc(parts[1..], x, sep);
    }
  }

  /** A string is blank exactly when every character is white space. */
  lemma {:induction false} BlankIffAllWhitespace(s: string)
    ensures IsBlank(s) <==> forall i :: 0 <= i < |s| ==> IsJsWhitespace(s[i])
  {
    TrimStartAll(s);
    TrimEndAll(TrimStart(s));
    if forall i :: 0 <= i < |s| ==> IsJsWhitespace(s[i]) {
      TrimStartOfWhitespace(s);
    }
  }

  lemma {:induction false} TrimStartOfWhitespace(s: string)
    requires forall i :: 0 <= i < |s| ==> IsJsWhitespace(s[i])
    ensures TrimStart(s) == ""
    decreases |s|
  {
    if |s| > 0 {
      TrimStartOfWhitespace(s[1..]);
    }
  }

  /** TrimStart removes only white space, and leaves a string empty or not starting with white space. */
  lemma {:induction false} TrimStartAll(s: string)
    ensures |TrimStart(s)| <= |s|
    ensures TrimStart(s) == s[|s| - |TrimStart(s)|..]
    ensures forall i :: 0 <= i < |s| - |TrimStart(s)| ==> IsJsWhitespace(s[i])
    ensures TrimStart(s) != "" ==> !IsJsWhitespace(TrimStart(s)[0])
    decreases |s|
  {
    if |s| > 0 && IsJsWhitespace(s[0]) {
      TrimStartAll(s[1..]);
    }
  }

  /** TrimEnd of a string not starting with white space is empty only if the string is. */
  lemma {:induction false} TrimEndAll(s: string)
    ensures |TrimEnd(s)| <= |s|
    ensures TrimEnd(s) == s[..|TrimEnd(s)|]
    ensures s != "" && !IsJsWhitespace(s[0]) ==> TrimEnd(s) != ""
    decreases |s|
  {
    if |s| > 0 && IsJsWhitespace(s[|s| - 1]) {
      TrimEndAll(s[..|s| - 1]);
      if !IsJsWhitespace(s[0]) {
        assert |s| > 1;
        assert s[..|s| - 1][0] == s[0];
      }
    }
  }
}
