/**
 * String rules shared by the components: JavaScript white space and `trim`,
 * ASCII lower-casing, `includes`, `startsWith`, `split`/`join` on one
 * character, and the email pattern `^\S+@\S+\.\S+$`.
 */
module Text {

  /** A character that JavaScript counts as white space or a line terminator:
      the class `\s` of its regular expressions and what `trim` removes. */
  predicate IsSpace(c: char) {
    var n := c as int;
    n == 0x09 || n == 0x0A || n == 0x0B || n == 0x0C || n == 0x0D || n == 0x20
    || n == 0xA0 || n == 0x1680 || (0x2000 <= n <= 0x200A) || n == 0x2028
    || n == 0x2029 || n == 0x202F || n == 0x205F || n == 0x3000 || n == 0xFEFF
  }

  predicate NotSpace(c: char) {
    !IsSpace(c)
  }

  predicate NoSpace(s: string) {
    All(s, NotSpace)
  }

  /** Every element of `s` satisfies `p`. */
  predicate All<C>(s: seq<C>, p: C -> bool) {
    forall k :: 0 <= k < |s| ==> p(s[k])
  }

  predicate IsBlank(s: string) {
    All(s, IsSpace)
  }

  /** `s.trimStart()`: the suffix left after dropping leading white space. */
  function TrimStart(s: string): (r: string)
    ensures |r| <= |s| && r == s[|s| - |r|..]
    ensures IsBlank(s[..|s| - |r|])
    ensures r == [] || !IsSpace(r[0])
    decreases |s|
  {
    if s != [] && IsSpace(s[0]) then
      var r := TrimStart(s[1..]);
      assert s[..|s| - |r|] == [s[0]] + s[1..][..|s| - 1 - |r|];
      r
    else s
  }

  /** `s.trimEnd()`: the prefix left after dropping trailing white space. */
  function TrimEnd(s: string): (r: string)
    ensures |r| <= |s| && r == s[..|r|]
    ensures IsBlank(s[|r|..])
    ensures r == [] || !IsSpace(r[|r| - 1])
    decreases |s|
  {
    if s != [] && IsSpace(s[|s| - 1]) then
      var init := s[..|s| - 1];
      var r := TrimEnd(init);
      assert s[|r|..] == init[|r|..] + [s[|s| - 1]];
      r
    else s
  }

  /** `s.trim()`. The forms and lists only test whether it is empty, and it is
      empty exactly when every character of `s` is white space. */
  function Trim(s: string): (r: string)
    ensures |r| <= |s|
    ensures r == [] <==> IsBlank(s)
    ensures r != [] ==> !IsSpace(r[0]) && !IsSpace(r[|r| - 1])
  {
    var t := TrimStart(s);
    var u := TrimEnd(t);
    TrimBothEnds(s, t, u, IsSpace);
    u
  }

  /** Dropping a run of `sp` elements from the front of `s` and then from the
      back leaves nothing exactly when every element of `s` satisfies `sp`. */
  lemma TrimBothEnds<C>(s: seq<C>, t: seq<C>, u: seq<C>, sp: C -> bool)
    requires |t| <= |s| && t == s[|s| - |t|..] && (t == [] || !sp(t[0]))
    requires All(s[..|s| - |t|], sp)
    requires |u| <= |t| && u == t[..|u|] && (u == [] || !sp(u[|u| - 1]))
    requires All(t[|u|..], sp)
    ensures u == [] <==> All(s, sp)
    ensures u != [] ==> !sp(u[0])
  {
    var cut := |s| - |t|;
    assert u == [] ==> t == [] by {
      assert u == [] ==> t[|u|..] == t;
    }
    assert t != [] ==> t[0] == s[cut];
    assert s == s[..cut] + t;
  }

  /** ASCII lower-casing; other characters are kept. */
  function LowerChar(c: char): (r: char)
    ensures 'A' <= c <= 'Z' ==> r as int == c as int + 32
    ensures !('A' <= c <= 'Z') ==> r == c
  {
    if 'A' <= c <= 'Z' then (c as int + 32) as char else c
  }

  /** `s.toLowerCase()`, restricted to ASCII letters. */
  function Lower(s: string): (r: string)
    ensures |r| == |s|
    ensures forall k :: 0 <= k < |s| ==> r[k] == LowerChar(s[k])
    ensures forall k :: 0 <= k < |r| ==> !('A' <= r[k] <= 'Z')
  {
    seq(|s|, k requires 0 <= k < |s| => LowerChar(s[k]))
  }

  lemma LowerIdempotent(s: string)
    ensures Lower(Lower(s)) == Lower(s)
  {
  }

  /** `q` occurs in `s` starting at index `i`. */
  ghost predicate OccursAt(s: string, q: string, i: int) {
    0 <= i && i + |q| <= |s| && s[i..i + |q|] == q
  }

  /** `s.includes(q)`. The empty query occurs in every string. */
  function Includes(s: string, q: string): (r: bool)
    ensures r <==> exists i :: OccursAt(s, q, i)
    decreases |s|
  {
    if |q| > |s| then
      assert forall i :: !OccursAt(s, q, i);
      false
    else if s[..|q|] == q then
      assert OccursAt(s, q, 0);
      true
    else
      OccursShift(s, q);
      Includes(s[1..], q)
  }

  /** Away from index 0, an occurrence in `s` is an occurrence in `s[1..]`. */
  lemma OccursShift(s: string, q: string)
    requires |q| <= |s| && s[..|q|] != q
    ensures (exists i :: OccursAt(s, q, i)) <==> (exists i :: OccursAt(s[1..], q, i))
  {
    if i :| OccursAt(s, q, i) {
      assert i != 0;
      assert s[1..][i - 1..i - 1 + |q|] == s[i..i + |q|];
      assert OccursAt(s[1..], q, i - 1);
    }
    if i :| OccursAt(s[1..], q, i) {
      assert s[i + 1..i + 1 + |q|] == s[1..][i..i + |q|];
      assert OccursAt(s, q, i + 1);
    }
  }

  /** `s.startsWith(p)`. */
  predicate StartsWith(s: string, p: string) {
    |p| <= |s| && s[..|p|] == p
  }

  /** `a` sorts no later than `b`, character by character; the model's stand-in
      for `localeCompare`. */
  predicate LexLe(a: string, b: string)
    decreases |a|
  {
    a == [] || (b != [] && (a[0] < b[0] || (a[0] == b[0] && LexLe(a[1..], b[1..]))))
  }

  lemma {:induction false} LexLeTotal(a: string, b: string)
    ensures LexLe(a, b) || LexLe(b, a)
    decreases |a|
  {
    if a != [] && b != [] && a[0] == b[0] {
      LexLeTotal(a[1..], b[1..]);
    }
  }

  lemma {:induction false} LexLeTransitive(a: string, b: string, c: string)
    requires LexLe(a, b) && LexLe(b, c)
    ensures LexLe(a, c)
    decreases |a|
  {
    if a != [] && a[0] == b[0] && b[0] == c[0] {
      LexLeTransitive(a[1..], b[1..], c[1..]);
    }
  }

  /** The strings `^\S+@\S+\.\S+$` accepts: three non-empty runs of
      non-space characters joined by `@` and by `.`. */
  ghost predicate MatchesEmailRegex(s: string) {
    exists a: string, b: string, c: string ::
      |a| > 0 && |b| > 0 && |c| > 0 && NoSpace(a) && NoSpace(b) && NoSpace(c)
      && s == a + ['@'] + b + ['.'] + c
  }

  /** First index `i >= from` with `s[i] == c`, or -1. */
  function IndexFrom(s: string, c: char, from: nat): (r: int)
    ensures r == -1 || (from <= r < |s| && s[r] == c)
    ensures forall k :: from <= k < |s| && (r == -1 || k < r) ==> s[k] != c
    decreases |s| - from
  {
    if from >= |s| then -1
    else if s[from] == c then from
    else IndexFrom(s, c, from + 1)
  }

  /** Last index `i < upto` with `s[i] == c`, or -1. */
  function LastIndexBefore(s: string, c: char, upto: nat): (r: int)
    requires upto <= |s|
    ensures r == -1 || (0 <= r < upto && s[r] == c)
    ensures forall k :: 0 <= k < upto && r < k ==> s[k] != c
  {
    if upto == 0 then -1
    else if s[upto - 1] == c then upto - 1
    else LastIndexBefore(s, c, upto - 1)
  }

  /** `/^\S+@\S+\.\S+$/.test(s)`, decided by the first `@` after the first
      character and the last `.` before the last character. */
  function EmailOk(s: string): (r: bool)
    ensures r <==> MatchesEmailRegex(s)
  {
    var at := IndexFrom(s, '@', 1);
    var dot := if |s| >= 1 then LastIndexBefore(s, '.', |s| - 1) else -1;
    RegexGivesIndices(s);
    var ok := NoSpace(s) && at != -1 && dot != -1 && at + 2 <= dot;
    if ok then IndicesGiveRegex(s, at, dot); ok else ok
  }

  /** An `@` at `at >= 1` and a `.` at `dot`, at least two apart and before
      the last character, in a string without white space, match the pattern. */
  lemma IndicesGiveRegex(s: string, at: int, dot: int)
    requires NoSpace(s) && 1 <= at && at + 2 <= dot < |s| - 1
    requires s[at] == '@' && s[dot] == '.'
    ensures MatchesEmailRegex(s)
  {
    var a, b, c := s[..at], s[at + 1..dot], s[dot + 1..];
    assert s == a + ['@'] + b + ['.'] + c;
    AllSlice(s, 0, at, NotSpace);
    AllSlice(s, at + 1, dot, NotSpace);
    AllSlice(s, dot + 1, |s|, NotSpace);
    assert s[dot + 1..|s|] == c;
    assert |a| > 0 && |b| > 0 && |c| > 0 && NoSpace(a) && NoSpace(b) && NoSpace(c);
  }

  /** A string the pattern accepts has no white space, an `@` after its first
      character and a `.` at least two characters later, before its last one. */
  lemma RegexGivesIndices(s: string)
    ensures MatchesEmailRegex(s) ==>
      NoSpace(s) && IndexFrom(s, '@', 1) != -1 && |s| >= 1
      && LastIndexBefore(s, '.', |s| - 1) != -1
      && IndexFrom(s, '@', 1) + 2 <= LastIndexBefore(s, '.', |s| - 1)
  {
    if MatchesEmailRegex(s) {
      var a: string, b: string, c: string :|
        |a| > 0 && |b| > 0 && |c| > 0 && NoSpace(a) && NoSpace(b) && NoSpace(c)
        && s == a + ['@'] + b + ['.'] + c;
      assert NotSpace('@') && NotSpace('.');
      AllConcat(a, ['@'], NotSpace);
      AllConcat(a + ['@'], b, NotSpace);
      AllConcat(a + ['@'] + b, ['.'], NotSpace);
      AllConcat(a + ['@'] + b + ['.'], c, NotSpace);
      var i, j := |a|, |a| + 1 + |b|;
      assert s[i] == '@' && s[j] == '.';
    }
  }

  lemma AllConcat<C>(x: seq<C>, y: seq<C>, p: C -> bool)
    requires All(x, p) && All(y, p)
    ensures All(x + y, p)
  {
    forall k | 0 <= k < |x + y| ensures p((x + y)[k]) {
      if k < |x| {
        assert (x + y)[k] == x[k];
      } else {
        assert (x + y)[k] == y[k - |x|];
      }
    }
  }

  lemma AllSlice<C>(s: seq<C>, i: nat, j: nat, p: C -> bool)
    requires All(s, p) && i <= j <= |s|
    ensures All(s[i..j], p)
  {
    forall k | 0 <= k < j - i ensures p(s[i..j][k]) {
      assert s[i..j][k] == s[i + k];
    }
  }

  /** `parts.join([sep])`. */
  function Join(parts: seq<string>, sep: char): (r: string)
    decreases |parts|
  {
    if parts == [] then []
    else if |parts| == 1 then parts[0]
    else parts[0] + [sep] + Join(parts[1..], sep)
  }

  /** `s.split(sep)` for a one-character separator: the pieces between
      separators, including empty ones; `''` splits into `['']`. */
  function Split(s: string, sep: char): (r: seq<string>)
    ensures |r| >= 1
    ensures forall k :: 0 <= k < |r| ==> sep !in r[k]
    ensures Join(r, sep) == s
    decreases |s|
  {
    var i := IndexFrom(s, sep, 0);
    if i == -1 then
      assert sep !in s by {
        forall k | 0 <= k < |s| ensures s[k] != sep {}
      }
      [s]
    else
      var rest := Split(s[i + 1..], sep);
      assert sep !in s[..i] by {
        forall k | 0 <= k < i ensures s[..i][k] != sep {}
      }
      assert s == s[..i] + [sep] + s[i + 1..];
      [s[..i]] + rest
  }

  /** The first separator of `p + [sep] + tail` is the one after `p`. */
  lemma FirstSeparator(p: string, tail: string, sep: char)
    requires sep !in p
    ensures IndexFrom(p + [sep] + tail, sep, 0) == |p|
  {
    var s := p + [sep] + tail;
    assert s[|p|] == sep;
    assert forall k :: 0 <= k < |p| ==> s[k] == p[k];
  }

  /** Splitting undoes joining pieces that do not contain the separator. */
  lemma {:induction false} SplitJoin(parts: seq<string>, sep: char)
    requires |parts| >= 1
    requires forall k :: 0 <= k < |parts| ==> sep !in parts[k]
    ensures Split(Join(parts, sep), sep) == parts
    decreases |parts|
  {
    var s := Join(parts, sep);
    if |parts| == 1 {
      assert sep !in s;
      assert IndexFrom(s, sep, 0) == -1;
    } else {
      var tail := Join(parts[1..], sep);
      assert s == parts[0] + [sep] + tail;
      FirstSeparator(parts[0], tail, sep);
      var n := |parts[0]|;
      assert s[..n] == parts[0];
      assert s[n + 1..] == tail;
      SplitJoin(parts[1..], sep);
      assert Split(s, sep) == [parts[0]] + Split(tail, sep);
    }
  }
}
