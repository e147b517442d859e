/** The string operations of the host language that the server relies on:
    `str.strip()` with no argument, `sep.join(parts)` and, to state what the
    receiving side can recover, `s.split(sep)`. */
module Text {

  /** The characters `str.strip()` removes: those for which `str.isspace()`
      holds. */
  predicate IsWhitespace(c: char) {
    || '\t' <= c <= '\r'                   // tab, line feed, vertical tab, form feed, carriage return
    || '\U{001C}' <= c <= '\U{001F}'       // file, group, record and unit separators
    || c == ' ' || c == '\U{0085}' || c == '\U{00A0}' || c == '\U{1680}'
    || '\U{2000}' <= c <= '\U{200A}'       // en quad .. hair space
    || c == '\U{2028}' || c == '\U{2029}' || c == '\U{202F}' || c == '\U{205F}' || c == '\U{3000}'
  }

  predicate AllWhitespace(s: string) {
    forall k :: 0 <= k < |s| ==> IsWhitespace(s[k])
  }

  lemma WhitespaceConcat(a: string, b: string)
    requires AllWhitespace(a) && AllWhitespace(b)
    ensures AllWhitespace(a + b)
  {
    forall k | 0 <= k < |a + b| ensures IsWhitespace((a + b)[k]) {
      if k < |a| { assert (a + b)[k] == a[k]; } else { assert (a + b)[k] == b[k - |a|]; }
    }
  }

  /** Neither begins nor ends with whitespace. */
  predicate Trimmed(s: string) {
    s == [] || (!IsWhitespace(s[0]) && !IsWhitespace(s[|s| - 1]))
  }

  /** Length of the longest all-whitespace prefix. */
  function LeadingWhitespace(s: string): (n: nat)
    ensures n <= |s|
    ensures AllWhitespace(s[..n])
    ensures n < |s| ==> !IsWhitespace(s[n])
  {
    if s == [] || !IsWhitespace(s[0]) then 0 else 1 + LeadingWhitespace(s[1..])
  }

  /** Length of the longest all-whitespace suffix. */
  function TrailingWhitespace(s: string): (n: nat)
    ensures n <= |s|
    ensures AllWhitespace(s[|s| - n..])
    ensures n < |s| ==> !IsWhitespace(s[|s| - 1 - n])
  {
    if s == [] || !IsWhitespace(s[|s| - 1]) then 0
    else 1 + TrailingWhitespace(s[..|s| - 1])
  }

  /** `s.strip()`: drop leading whitespace, then trailing whitespace. */
  function Strip(s: string): (r: string)
    ensures Trimmed(r)
    ensures |r| <= |s|
  {
    var t := s[LeadingWhitespace(s)..];
    t[..|t| - TrailingWhitespace(t)]
  }

  /** What Strip removes is whitespace on both sides of its result. */
  lemma StripSplits(s: string) returns (p: string, q: string)
    ensures AllWhitespace(p) && AllWhitespace(q) && s == p + Strip(s) + q
  {
    var i := LeadingWhitespace(s);
    var t := s[i..];
    var j := |t| - TrailingWhitespace(t);
    p, q := s[..i], t[j..];
    SliceIntoThree(s, i, t, j);
  }

  lemma SliceIntoThree(s: string, i: nat, t: string, j: nat)
    requires i <= |s| && t == s[i..] && j <= |t|
    ensures s == s[..i] + t[..j] + t[j..]
  {
    assert t == t[..j] + t[j..];
    assert s == s[..i] + s[i..];
  }

  lemma {:induction false} LeadingOfWhitespacePrefix(p: string, m: string)
    requires AllWhitespace(p)
    requires m == [] || !IsWhitespace(m[0])
    ensures LeadingWhitespace(p + m) == |p|
    decreases |p|
  {
    if p != [] {
      assert (p + m)[1..] == p[1..] + m;
      LeadingOfWhitespacePrefix(p[1..], m);
    } else {
      assert p + m == m;
    }
  }

  lemma {:induction false} TrailingOfWhitespaceSuffix(m: string, q: string)
    requires AllWhitespace(q)
    requires m == [] || !IsWhitespace(m[|m| - 1])
    ensures TrailingWhitespace(m + q) == |q|
    decreases |q|
  {
    if q != [] {
      assert (m + q)[..|m + q| - 1] == m + q[..|q| - 1];
      TrailingOfWhitespaceSuffix(m, q[..|q| - 1]);
    } else {
      assert m + q == m;
    }
  }

  /** Strip is characterised by its result: whatever trimmed middle is
      surrounded by whitespace on both sides is what Strip returns. */
  lemma StripUnique(p: string, m: string, q: string)
    requires AllWhitespace(p) && AllWhitespace(q) && Trimmed(m)
    ensures Strip(p + m + q) == m
  {
    var s := p + m + q;
    if m == [] {
      assert s == p + q;
      WhitespaceConcat(p, q);
      LeadingOfWhitespacePrefix(s, []);
      assert s + [] == s;
    } else {
      LeadingOfWhitespacePrefix(p, m + q);
      assert s == p + (m + q);
      assert s[|p|..] == m + q;
      TrailingOfWhitespaceSuffix(m, q);
      assert (m + q)[..|m|] == m;
    }
  }

  /** StripUnique with the whitespace on each side given in two pieces. */
  lemma StripUniquePadded(p: string, p': string, m: string, q': string, q: string)
    requires AllWhitespace(p) && AllWhitespace(p') && AllWhitespace(q') && AllWhitespace(q)
    requires Trimmed(m)
    ensures Strip(p + (p' + m + q') + q) == m
  {
    assert p + (p' + m + q') + q == (p + p') + m + (q' + q);
    WhitespaceConcat(p, p');
    WhitespaceConcat(q', q);
    StripUnique(p + p', m, q' + q);
  }

  lemma StripIdempotent(s: string)
    ensures Strip(Strip(s)) == Strip(s)
  {
    var r := Strip(s);
    assert [] + r + [] == r;
    StripUnique([], r, []);
  }

  /** Strip leaves nothing exactly when the input is all whitespace. */
  lemma StripEmptyIff(s: string)
    ensures Strip(s) == [] <==> AllWhitespace(s)
  {
    var p, q := StripSplits(s);
    if AllWhitespace(s) {
      assert s == s + [] + [];
      StripUnique(s, [], []);
    }
    if Strip(s) == [] {
      assert s == p + q;
      WhitespaceConcat(p, q);
    }
  }

  /** Python's `sep.join(parts)` for a one-character separator. */
  function Join(parts: seq<string>, sep: char): string {
    if |parts| == 0 then ""
    else if |parts| == 1 then parts[0]
    else parts[0] + [sep] + Join(parts[1..], sep)
  }

  /** Total number of occurrences of `c` in all of `parts`. */
  function CountIn(parts: seq<string>, c: char): nat {
    if parts == [] then 0 else multiset(parts[0])[c] + CountIn(parts[1..], c)
  }

  /** A join of n parts adds n - 1 separators to those the parts hold. */
  lemma {:induction false} JoinCount(parts: seq<string>, sep: char)
    requires |parts| >= 1
    ensures multiset(Join(parts, sep))[sep] == |parts| - 1 + CountIn(parts, sep)
    decreases |parts|
  {
    if |parts| > 1 {
      JoinCount(parts[1..], sep);
    }
  }

  /** Index of the first `c` in `s`, or `|s|` when there is none. */
  function IndexOf(s: string, c: char): (i: nat)
    ensures i <= |s|
    ensures c !in s[..i]
    ensures i < |s| ==> s[i] == c
  {
    if s == [] then 0
    else if s[0] == c then 0
    else 1 + IndexOf(s[1..], c)
  }

  /** Python's `s.split(sep)`: the pieces between separators, at least one. */
  function Split(s: string, sep: char): (parts: seq<string>)
    ensures |parts| >= 1
    ensures forall i :: 0 <= i < |parts| ==> sep !in parts[i]
    decreases |s|
  {
    var i := IndexOf(s, sep);
    if i == |s| then [s] else [s[..i]] + Split(s[i + 1..], sep)
  }

  predicate FreeOf(parts: seq<string>, sep: char) {
    forall i :: 0 <= i < |parts| ==> sep !in parts[i]
  }

  lemma {:induction false} IndexOfFirst(a: string, sep: char, b: string)
    requires sep !in a
    ensures IndexOf(a + [sep] + b, sep) == |a|
    decreases |a|
  {
    if a != [] {
      assert (a + [sep] + b)[1..] == a[1..] + [sep] + b;
      IndexOfFirst(a[1..], sep, b);
    }
  }

  lemma {:induction false} IndexOfAbsent(a: string, sep: char)
    requires sep !in a
    ensures IndexOf(a, sep) == |a|
    decreases |a|
  {
    if a != [] {
      IndexOfAbsent(a[1..], sep);
    }
  }

  /** Splitting a join recovers the parts when none holds the separator. */
  lemma {:induction false} SplitJoin(parts: seq<string>, sep: char)
    requires |parts| >= 1 && FreeOf(parts, sep)
    ensures Split(Join(parts, sep), sep) == parts
    decreases |parts|
  {
    if |parts| == 1 {
      IndexOfAbsent(parts[0], sep);
    } else {
      var rest := Join(parts[1..], sep);
      var s := parts[0] + [sep] + rest;
      IndexOfFirst(parts[0], sep, rest);
      assert s[..|parts[0]|] == parts[0];
      assert s[|parts[0]| + 1..] == rest;
      SplitJoin(parts[1..], sep);
      assert [parts[0]] + parts[1..] == parts;
    }
  }

  /** A split yields one piece more than there are separators. */
  lemma {:induction false} SplitCount(s: string, sep: char)
    ensures |Split(s, sep)| == multiset(s)[sep] + 1
    decreases |s|
  {
    var i := IndexOf(s, sep);
    if i == |s| {
      assert s == s[..i];
      assert sep !in multiset(s);
    } else {
      SplitCount(s[i + 1..], sep);
      assert s == s[..i] + [sep] + s[i + 1..];
      assert sep !in multiset(s[..i]);
      assert multiset(s) == multiset(s[..i]) + multiset{sep} + multiset(s[i + 1..]);
    }
  }
}
