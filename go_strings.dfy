/**
 * The functions of Go's `strings` package that the dev server relies on,
 * stated over Dafny strings (sequences of Unicode scalar values).
 */
module GoStrings {

  /** `strings.HasPrefix`. */
  predicate HasPrefix(s: string, prefix: string)
  {
    |prefix| <= |s| && s[..|prefix|] == prefix
  }

  /** `strings.HasSuffix`. */
  predicate HasSuffix(s: string, suffix: string)
  {
    |suffix| <= |s| && s[|s| - |suffix|..] == suffix
  }

  /** `HasPrefix` compares the leading characters one by one. */
  lemma HasPrefixIff(s: string, prefix: string)
    ensures HasPrefix(s, prefix) <==>
      |prefix| <= |s| && forall k :: 0 <= k < |prefix| ==> s[k] == prefix[k]
  {
    if |prefix| <= |s| && forall k :: 0 <= k < |prefix| ==> s[k] == prefix[k] {
      assert s[..|prefix|] == prefix;
    }
  }

  /** `HasSuffix` compares the trailing characters one by one, aligned at the end. */
  lemma HasSuffixIff(s: string, suffix: string)
    ensures HasSuffix(s, suffix) <==>
      |suffix| <= |s| && forall k :: 0 <= k < |suffix| ==> s[|s| - |suffix| + k] == suffix[k]
  {
    if |suffix| <= |s| && forall k :: 0 <= k < |suffix| ==> s[|s| - |suffix| + k] == suffix[k] {
      assert s[|s| - |suffix|..] == suffix;
    }
  }

  /** `sub` occurs in `s` starting at position `i`. */
  predicate OccursAt(s: string, sub: string, i: int)
  {
    0 <= i && i + |sub| <= |s| && s[i..i + |sub|] == sub
  }

  /** The first position at or after `from` where `sub` occurs, or -1. */
  function IndexFrom(s: string, sub: string, from: nat): (r: int)
    requires from <= |s|
    ensures r == -1 || (from <= r && OccursAt(s, sub, r))
    ensures forall j :: from <= j && (r == -1 || j < r) ==> !OccursAt(s, sub, j)
    decreases |s| - from
  {
    if from + |sub| > |s| then -1
    else if s[from..from + |sub|] == sub then from
    else if from == |s| then -1
    else IndexFrom(s, sub, from + 1)
  }

  /** `strings.Index`: the first occurrence of `sub` in `s`, or -1 when there is none. */
  function Index(s: string, sub: string): (r: int)
    ensures r == -1 || OccursAt(s, sub, r)
    ensures forall j :: 0 <= j && (r == -1 || j < r) ==> !OccursAt(s, sub, j)
  {
    IndexFrom(s, sub, 0)
  }

  /**
   * `strings.Contains`, which Go defines as `Index(s, sub) >= 0`: it holds
   * exactly when some position of `s` holds an occurrence of `sub`.
   */
  predicate Contains(s: string, sub: string)
    ensures Contains(s, sub) <==> exists i :: OccursAt(s, sub, i)
  {
    Index(s, sub) >= 0
  }

  /** `Contains` holds exactly when some position holds an occurrence. */
  lemma ContainsIff(s: string, sub: string, i: int)
    ensures OccursAt(s, sub, i) ==> Contains(s, sub)
    ensures Contains(s, sub) ==> OccursAt(s, sub, Index(s, sub))
  {
  }

  /**
   * `strings.Replace(s, pat, repl, 1)`: the first occurrence of `pat` is
   * replaced by `repl`; without an occurrence `s` comes back unchanged.
   * (For an empty `pat`, Go inserts `repl` at the front, which is what
   * `Index(s, "") == 0` gives here as well.)
   */
  function ReplaceFirst(s: string, pat: string, repl: string): (r: string)
    ensures !Contains(s, pat) ==> r == s
    ensures Contains(s, pat) ==> |r| == |s| - |pat| + |repl|
  {
    var i := Index(s, pat);
    if i < 0 then s else s[..i] + repl + s[i + |pat|..]
  }

  /**
   * Replacing the first occurrence: when `s` is `p + pat + q` and `pat`
   * does not occur anywhere before the end of `p`, the result is
   * `p + repl + q`, whatever `q` holds (including further occurrences).
   */
  lemma ReplaceFirstAt(p: string, pat: string, q: string, repl: string)
    requires forall j :: 0 <= j < |p| ==> !OccursAt(p + pat + q, pat, j)
    ensures ReplaceFirst(p + pat + q, pat, repl) == p + repl + q
  {
    var s := p + pat + q;
    assert s[|p|..|p| + |pat|] == pat;
    assert OccursAt(s, pat, |p|);
    var i := Index(s, pat);
    assert i == |p|;
    assert s[..i] == p;
    assert s[i + |pat|..] == q;
  }

  /**
   * A replacement that carries the pattern inside it keeps the string
   * containing the pattern.
   */
  lemma ReplaceFirstKeepsPattern(p: string, pat: string, q: string, pre: string, post: string)
    requires forall j :: 0 <= j < |p| ==> !OccursAt(p + pat + q, pat, j)
    ensures Contains(ReplaceFirst(p + pat + q, pat, pre + pat + post), pat)
  {
    ReplaceFirstAt(p, pat, q, pre + pat + post);
    var r := p + (pre + pat + post) + q;
    var at := |p| + |pre|;
    assert r[at..at + |pat|] == pat;
    ContainsIff(r, pat, at);
  }

  /** `strings.TrimLeftFunc(s, unicode.IsSpace)`. */
  function TrimLeftSpace(s: string): (r: string)
    ensures |r| <= |s| && r == s[|s| - |r|..]
    ensures AllSpace(s[..|s| - |r|])
    ensures r == [] || !IsSpace(r[0])
  {
    if |s| > 0 && IsSpace(s[0]) then
      var r := TrimLeftSpace(s[1..]);
      assert s[..|s| - |r|] == [s[0]] + s[1..][..|s| - 1 - |r|];
      r
    else s
  }

  /** `strings.TrimRightFunc(s, unicode.IsSpace)`. */
  function TrimRightSpace(s: string): (r: string)
    ensures |r| <= |s| && r == s[..|r|]
    ensures AllSpace(s[|r|..])
    ensures r == [] || !IsSpace(r[|r| - 1])
  {
    if |s| > 0 && IsSpace(s[|s| - 1]) then
      var r := TrimRightSpace(s[..|s| - 1]);
      assert s[|r|..] == s[..|s| - 1][|r|..] + [s[|s| - 1]];
      r
    else s
  }

  /**
   * `strings.TrimSpace`: drops leading and trailing white space. The
   * result neither starts nor ends with white space.
   */
  function TrimSpace(s: string): (r: string)
    ensures |r| <= |s|
    ensures r == [] || (!IsSpace(r[0]) && !IsSpace(r[|r| - 1]))
  {
    var t := TrimLeftSpace(s);
    var r := TrimRightSpace(t);
    assert r != [] ==> r[0] == t[0];
    r
  }

  /** Every character of `s` is white space (the empty string included). */
  predicate AllSpace(s: string)
  {
    forall k :: 0 <= k < |s| ==> IsSpace(s[k])
  }

  /**
   * What `TrimSpace` removes is white space: the result is the slice of
   * `s` that starts after the leading white space, with only white space
   * after it.
   */
  lemma TrimSpaceSlice(s: string)
    ensures var i, r := |s| - |TrimLeftSpace(s)|, TrimSpace(s);
      i + |r| <= |s| && r == s[i..i + |r|] && AllSpace(s[..i]) && AllSpace(s[i + |r|..])
  {
    var t := TrimLeftSpace(s);
    var r := TrimRightSpace(t);
    var i := |s| - |t|;
    assert r == t[..|r|];
    assert s[i + |r|..] == t[|r|..];
  }

  /** Trimming gives the empty string exactly when `s` is nothing but white space. */
  lemma TrimSpaceEmpty(s: string)
    ensures TrimSpace(s) == [] <==> AllSpace(s)
  {
    var t := TrimLeftSpace(s);
    var i := |s| - |t|;
    if TrimSpace(s) == [] {
      assert t == [];
      assert s == s[..i];
    }
    if t != [] {
      assert t[0] == s[i];
    }
  }

  /** Trimming a string with no white space at either end changes nothing. */
  lemma TrimSpaceFixed(s: string)
    requires s == [] || (!IsSpace(s[0]) && !IsSpace(s[|s| - 1]))
    ensures TrimSpace(s) == s
  {
  }

  /** `TrimSpace` is idempotent. */
  lemma TrimSpaceIdempotent(s: string)
    ensures TrimSpace(TrimSpace(s)) == TrimSpace(s)
  {
    TrimSpaceFixed(TrimSpace(s));
  }

  /** A string with no white-space character at all is its own trimming. */
  lemma TrimSpaceNoSpace(s: string)
    requires NoSpace(s)
    ensures TrimSpace(s) == s
  {
    TrimSpaceFixed(s);
  }

  /** No character of `s` is white space. */
  predicate NoSpace(s: string)
  {
    forall k :: 0 <= k < |s| ==> !IsSpace(s[k])
  }

  /**
   * Go's `unicode.IsSpace`: the Latin-1 spaces '\t', '\n', '\v', '\f',
   * '\r', ' ', U+0085 and U+00A0, and above Latin-1 the characters with
   * the Unicode White_Space property.
   */
  predicate IsSpace(c: char)
  {
    IsOneOf(c, SpaceChars)
  }

  /** The characters `unicode.IsSpace` accepts. */
  const SpaceChars: seq<char> := [
    '\t', '\n', '\U{000B}', '\U{000C}', '\r', ' ', '\U{0085}', '\U{00A0}', '\U{1680}',
    '\U{2000}', '\U{2001}', '\U{2002}', '\U{2003}', '\U{2004}', '\U{2005}',
    '\U{2006}', '\U{2007}', '\U{2008}', '\U{2009}', '\U{200A}',
    '\U{2028}', '\U{2029}', '\U{202F}', '\U{205F}', '\U{3000}']

  /** `c` is one of `cs`. */
  predicate IsOneOf(c: char, cs: seq<char>)
  {
    cs != [] && (cs[0] == c || IsOneOf(c, cs[1..]))
  }

  /** `s` holds no `c`. */
  predicate Lacks(s: string, c: char)
  {
    forall k :: 0 <= k < |s| ==> s[k] != c
  }

  /** The number of times `c` occurs in `s` (what `strings.Count` gives for a one-character separator). */
  function CountChar(s: string, c: char): nat
  {
    if s == [] then 0 else (if s[0] == c then 1 else 0) + CountChar(s[1..], c)
  }

  /** Counting is additive over concatenation. */
  lemma {:induction false} CountCharConcat(a: string, b: string, c: char)
    ensures CountChar(a + b, c) == CountChar(a, c) + CountChar(b, c)
  {
    if a != [] {
      assert (a + b)[1..] == a[1..] + b;
      CountCharConcat(a[1..], b, c);
    } else {
      assert a + b == b;
    }
  }

  /**
   * `strings.IndexByte`: the position of the first `c` in `s`, or -1 when
   * `s` holds no `c`.
   */
  function IndexChar(s: string, c: char): (i: int)
    ensures i == -1 || (0 <= i < |s| && s[i] == c)
    ensures forall j :: 0 <= j < |s| && (i == -1 || j < i) ==> s[j] != c
  {
    if s == [] then -1
    else if s[0] == c then 0
    else
      var j := IndexChar(s[1..], c);
      if j == -1 then -1 else j + 1
  }

  /**
   * `strings.Split(s, sep)` for a one-character separator: like Go's
   * implementation, it cuts at the first separator and goes on with what
   * follows (see `SplitCount`, `SplitPieces`, `JoinSplit` and `SplitJoin`
   * for what the pieces are).
   */
  function Split(s: string, sep: char): (parts: seq<string>)
    ensures |parts| >= 1
    decreases |s|
  {
    var i := IndexChar(s, sep);
    if i == -1 then [s] else [s[..i]] + Split(s[i + 1..], sep)
  }

  /** A string without `c` counts no `c`. */
  lemma {:induction false} LacksCountsNone(s: string, c: char)
    requires Lacks(s, c)
    ensures CountChar(s, c) == 0
  {
    if s != [] {
      LacksCountsNone(s[1..], c);
    }
  }

  /** Cutting at the first `c` leaves one `c` fewer in what follows it. */
  lemma CountAtFirst(s: string, c: char, i: nat)
    requires i < |s| && s[i] == c && Lacks(s[..i], c)
    ensures CountChar(s, c) == 1 + CountChar(s[i + 1..], c)
  {
    var head, tail := s[..i], s[i + 1..];
    assert s == head + ([c] + tail);
    CountCharConcat(head, [c] + tail, c);
    LacksCountsNone(head, c);
    assert ([c] + tail)[1..] == tail;
  }

  /** Splitting gives one more piece than there are separators. */
  lemma {:induction false} SplitCount(s: string, sep: char)
    ensures |Split(s, sep)| == CountChar(s, sep) + 1
    decreases |s|
  {
    var i := IndexChar(s, sep);
    if i == -1 {
      LacksCountsNone(s, sep);
    } else {
      assert Lacks(s[..i], sep);
      CountAtFirst(s, sep, i);
      SplitCount(s[i + 1..], sep);
    }
  }

  /** No piece of a split holds the separator. */
  lemma {:induction false} SplitPieces(s: string, sep: char)
    ensures forall k :: 0 <= k < |Split(s, sep)| ==> Lacks(Split(s, sep)[k], sep)
    decreases |s|
  {
    var i := IndexChar(s, sep);
    if i != -1 {
      var rest := Split(s[i + 1..], sep);
      SplitPieces(s[i + 1..], sep);
      var parts := Split(s, sep);
      assert parts == [s[..i]] + rest;
      assert Lacks(s[..i], sep);
      forall k | 0 <= k < |parts|
        ensures Lacks(parts[k], sep)
      {
        if k > 0 {
          assert parts[k] == rest[k - 1];
        }
      }
    }
  }

  /** `strings.Join(parts, string(sep))` for a non-empty list. */
  function Join(parts: seq<string>, sep: char): string
    requires |parts| >= 1
  {
    if |parts| == 1 then parts[0] else parts[0] + [sep] + Join(parts[1..], sep)
  }

  /** Joining the pieces of a split with the separator gives the string back. */
  lemma {:induction false} JoinSplit(s: string, sep: char)
    ensures Join(Split(s, sep), sep) == s
    decreases |s|
  {
    var i := IndexChar(s, sep);
    if i != -1 {
      var rest := Split(s[i + 1..], sep);
      JoinSplit(s[i + 1..], sep);
      assert ([s[..i]] + rest)[1..] == rest;
      assert s == s[..i] + [sep] + s[i + 1..];
    }
  }

  /**
   * The other direction of the round trip: splitting a join of pieces
   * that hold no separator gives the pieces back.
   */
  lemma {:induction false} SplitJoin(parts: seq<string>, sep: char)
    requires |parts| >= 1
    requires forall k :: 0 <= k < |parts| ==> Lacks(parts[k], sep)
    ensures Split(Join(parts, sep), sep) == parts
    decreases |parts|
  {
    if |parts| > 1 {
      var p, rest := parts[0], Join(parts[1..], sep);
      var s := p + [sep] + rest;
      var i := IndexChar(s, sep);
      assert s[|p|] == sep;
      assert i == |p|;
      assert s[..i] == p && s[i + 1..] == rest;
      SplitJoin(parts[1..], sep);
      assert parts == [p] + parts[1..];
    }
  }

  /**
   * The first piece of a split is the part of `s` before the first
   * separator: a prefix of `s` holding no separator that is either all
   * of `s` or followed by the separator.
   */
  lemma SplitFirst(s: string, sep: char)
    ensures var head := Split(s, sep)[0];
      head <= s && Lacks(head, sep) && (|head| < |s| ==> s[|head|] == sep) && (Lacks(s, sep) ==> head == s)
  {
    var i := IndexChar(s, sep);
  }

  /** The number of bytes of the UTF-8 encoding of `c`. */
  function Utf8Width(c: char): (w: nat)
    ensures 1 <= w <= 4
    ensures w == 1 <==> c < '\U{0080}'
  {
    if c < '\U{0080}' then 1
    else if c < '\U{0800}' then 2
    else if c < '\U{10000}' then 3
    else 4
  }

  /**
   * Go's `len` of a string: the length of its UTF-8 encoding in bytes,
   * between one and four bytes per character.
   */
  function Utf8Len(s: string): (n: nat)
    ensures |s| <= n <= 4 * |s|
    ensures n == |s| <==> forall k :: 0 <= k < |s| ==> s[k] < '\U{0080}'
  {
    if s == [] then 0 else Utf8Width(s[0]) + Utf8Len(s[1..])
  }
}
