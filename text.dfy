/** The JavaScript string built-ins the dashboard relies on, over `string` (a `seq<char>`). */
module Text {

  /** `toLowerCase` on one character; only the ASCII letters A-Z are mapped. */
  function LowerChar(ch: char): char
  {
    if 'A' <= ch <= 'Z' then (ch as int - 'A' as int + 'a' as int) as char else ch
  }

  /** `s.toLowerCase()`, character by character. */
  function Lower(s: string): (r: string)
    ensures |r| == |s|
    ensures forall i :: 0 <= i < |s| ==> r[i] == LowerChar(s[i])
  {
    if s == [] then [] else [LowerChar(s[0])] + Lower(s[1..])
  }

  /** Lower-casing works character by character, so it distributes over concatenation. */
  lemma LowerAppend(a: string, b: string)
    ensures Lower(a + b) == Lower(a) + Lower(b)
  {
    assert forall i :: 0 <= i < |b| ==> (a + b)[|a| + i] == b[i];
  }

  /** A string without upper-case letters is its own lower case. */
  lemma LowerOfLowerCase(s: string)
    requires forall i :: 0 <= i < |s| ==> !('A' <= s[i] <= 'Z')
    ensures Lower(s) == s
  {
  }

  lemma LowerIdempotent(s: string)
    ensures Lower(Lower(s)) == Lower(s)
  {
  }

  /** `t` occurs in `s` starting at offset `i`. */
  predicate OccursAt(s: string, t: string, i: int)
  {
    0 <= i && i + |t| <= |s| && s[i..i + |t|] == t
  }

  /** `s.includes(t)`. */
  predicate Contains(s: string, t: string)
  {
    exists i | 0 <= i <= |s| - |t| :: OccursAt(s, t, i)
  }

  lemma ContainsMiddle(a: string, b: string, c: string)
    ensures Contains(a + b + c, b)
  {
    assert (a + b + c)[|a|..|a| + |b|] == b;
    assert OccursAt(a + b + c, b, |a|);
  }

  /** Lower-casing both sides keeps an occurrence. */
  lemma ContainsLower(s: string, t: string)
    requires Contains(s, t)
    ensures Contains(Lower(s), Lower(t))
  {
    var i :| 0 <= i <= |s| - |t| && OccursAt(s, t, i);
    assert forall k :: 0 <= k < |t| ==> Lower(s)[i + k] == LowerChar(t[k]);
    assert Lower(s)[i..i + |t|] == Lower(t);
    assert OccursAt(Lower(s), Lower(t), i);
  }

  lemma ContainsEmpty(s: string)
    ensures Contains(s, "")
  {
    assert OccursAt(s, "", 0);
  }

  /** `s.endsWith(t)`. */
  predicate EndsWith(s: string, t: string)
  {
    |t| <= |s| && s[|s| - |t|..] == t
  }

  /** `s.lastIndexOf(c)` for a one-character needle: -1 when `c` does not occur. */
  function LastIndexOf(s: string, c: char): (r: int)
    ensures -1 <= r < |s|
    ensures r == -1 <==> c !in s
    ensures r >= 0 ==> s[r] == c && c !in s[r + 1..]
  {
    if s == [] then -1
    else if s[|s| - 1] == c then |s| - 1
    else
      var k := LastIndexOf(s[..|s| - 1], c);
      assert s == s[..|s| - 1] + [s[|s| - 1]];
      assert k >= 0 ==> s[k + 1..] == s[..|s| - 1][k + 1..] + [s[|s| - 1]];
      k
  }

  /** The last occurrence of `c` in `a + [c] + b` is the one between them when `b` has none. */
  lemma {:induction false} LastIndexOfJoined(a: string, c: char, b: string)
    requires c !in b
    ensures LastIndexOf(a + [c] + b, c) == |a|
    decreases |b|
  {
    if b != [] {
      var s, front := a + [c] + b, b[..|b| - 1];
      assert b == front + [b[|b| - 1]];
      assert s[..|s| - 1] == a + [c] + front;
      LastIndexOfJoined(a, c, front);
    }
  }

  /** `s.substring(start, end)`: both bounds clamped to [0, |s|], swapped when reversed. */
  function Substring(s: string, start: int, end: int): string
  {
    var a := if start < 0 then 0 else if start > |s| then |s| else start;
    var b := if end < 0 then 0 else if end > |s| then |s| else end;
    if a <= b then s[a..b] else s[b..a]
  }

  /** `s.substring(0, s.lastIndexOf(c))`: the text before the last `c`, or "" when there is none. */
  function PrefixBeforeLast(s: string, c: char): (r: string)
    ensures c !in s ==> r == ""
    ensures c in s ==> |r| < |s| && r == s[..|r|] && s[|r|] == c && c !in s[|r| + 1..]
  {
    Substring(s, 0, LastIndexOf(s, c))
  }

  /** What precedes a separator followed by separator-free text is the text before it. */
  lemma PrefixBeforeLastJoined(a: string, c: char, b: string)
    requires c !in b
    ensures PrefixBeforeLast(a + [c] + b, c) == a
  {
    var s := a + [c] + b;
    assert s[|a|] == c;
    LastIndexOfJoined(a, c, b);
    assert s[..|a|] == a;
  }

  /** `parts.join(c)`; an empty array joins to "". */
  function Join(parts: seq<string>, c: char): string
  {
    if |parts| == 0 then ""
    else if |parts| == 1 then parts[0]
    else Join(parts[..|parts| - 1], c) + [c] + parts[|parts| - 1]
  }

  /** Joining one more piece puts a separator between it and the join of the others. */
  lemma JoinSnoc(front: seq<string>, last: string, c: char)
    requires |front| >= 1
    ensures Join(front + [last], c) == Join(front, c) + [c] + last
  {
    assert (front + [last])[..|front|] == front;
  }

  /** `parts` are pieces free of `c` that join back to `s`. */
  predicate SplitsInto(parts: seq<string>, s: string, c: char)
  {
    |parts| >= 1 && (forall i :: 0 <= i < |parts| ==> c !in parts[i]) && Join(parts, c) == s
  }

  /** Cutting `s` at its last `c` extends a split of what precedes it by the rest. */
  lemma SplitStep(s: string, c: char, k: int, front: seq<string>)
    requires 0 <= k < |s| && s[k] == c
    requires c !in s[k + 1..]
    requires SplitsInto(front, s[..k], c)
    ensures SplitsInto(front + [s[k + 1..]], s, c)
  {
    var last := s[k + 1..];
    var parts := front + [last];
    JoinSnoc(front, last, c);
    assert s == s[..k] + [c] + last;
    assert forall i :: 0 <= i < |front| ==> parts[i] == front[i];
  }

  /** `s.split(c)` for a one-character separator: the pieces between occurrences of `c`. */
  function Split(s: string, c: char): (parts: seq<string>)
    ensures SplitsInto(parts, s, c)
    ensures parts[|parts| - 1] == s[LastIndexOf(s, c) + 1..]
    decreases |s|
  {
    var k := LastIndexOf(s, c);
    if k < 0 then [s]
    else
      var front := Split(s[..k], c);
      SplitStep(s, c, k, front);
      front + [s[k + 1..]]
  }

  /** There is more than one part exactly when the separator occurs. */
  lemma SplitHasManyParts(s: string, c: char)
    ensures |Split(s, c)| > 1 <==> c in s
  {
    if c in s {
      assert |Split(s[..LastIndexOf(s, c)], c)| >= 1;
    }
  }

  /** Splitting is the only way to cut `s` into `c`-free pieces that join back to `s`. */
  lemma {:induction false} SplitUnique(parts: seq<string>, c: char)
    requires |parts| >= 1
    requires forall i :: 0 <= i < |parts| ==> c !in parts[i]
    ensures Split(Join(parts, c), c) == parts
    decreases |parts|
  {
    if |parts| > 1 {
      var front, last := parts[..|parts| - 1], parts[|parts| - 1];
      assert parts == front + [last];
      assert Join(parts, c) == Join(front, c) + [c] + last;
      SplitUnique(front, c);
      SplitJoined(Join(front, c), c, last);
    }
  }

  /** Appending a `c`-free piece after a separator adds exactly one part. */
  lemma SplitJoined(a: string, c: char, b: string)
    requires c !in b
    ensures Split(a + [c] + b, c) == Split(a, c) + [b]
  {
    var s := a + [c] + b;
    LastIndexOfJoined(a, c, b);
    assert s[..|a|] == a;
    assert s[|a| + 1..] == b;
  }

  /** `parts.pop(); parts.join(c)` on the split of `s` keeps what precedes the last `c`. */
  lemma SplitPopJoin(s: string, c: char)
    requires c in s
    ensures var parts := Split(s, c); Join(parts[..|parts| - 1], c) == PrefixBeforeLast(s, c)
  {
    var k := LastIndexOf(s, c);
    var parts := Split(s, c);
    assert parts == Split(s[..k], c) + [s[k + 1..]];
    assert parts[..|parts| - 1] == Split(s[..k], c);
  }
}
