/** Python string operations the core relies on, over `seq<char>`.
    Whitespace is the ASCII part of Python's `str.isspace` (space, tab, line
    feed, vertical tab, form feed, carriage return and the four separators
    U+001C..U+001F); letter case is ASCII only. */
module Text {
  import opened Wrappers

  predicate IsSpace(c: char) {
    c == ' ' || ('\t' <= c <= '\r') || ('\U{1C}' <= c <= '\U{1F}')
  }

  /** Python's `not s` for an optional string: None or "". */
  predicate Falsy(s: Option<string>) {
    s.None? || s.value == []
  }

  predicate StartsWith(s: string, prefix: string) {
    |prefix| <= |s| && s[..|prefix|] == prefix
  }

  /** Python's `needle in hay`. */
  predicate Contains(hay: string, needle: string)
    decreases |hay|
  {
    StartsWith(hay, needle) || (hay != [] && Contains(hay[1..], needle))
  }

  /** `needle` occurs in `hay` starting at offset `i`. */
  predicate OccursAt(hay: string, needle: string, i: int) {
    0 <= i <= |hay| - |needle| && hay[i..i + |needle|] == needle
  }

  /** Python's `needle in hay` holds exactly when `needle` occurs at some offset of `hay`. */
  lemma {:induction false} ContainsAt(hay: string, needle: string)
    ensures Contains(hay, needle) <==> exists i :: OccursAt(hay, needle, i)
    decreases |hay|
  {
    if StartsWith(hay, needle) {
      assert OccursAt(hay, needle, 0);
    } else if hay != [] {
      ContainsAt(hay[1..], needle);
      if Contains(hay[1..], needle) {
        var i :| OccursAt(hay[1..], needle, i);
        assert hay[i + 1..i + 1 + |needle|] == hay[1..][i..i + |needle|];
        assert OccursAt(hay, needle, i + 1);
      }
      if i :| OccursAt(hay, needle, i) {
        assert i != 0;
        assert hay[1..][i - 1..i - 1 + |needle|] == hay[i..i + |needle|];
        assert OccursAt(hay[1..], needle, i - 1);
      }
    }
  }

  /** Index of the first key, from `from` on, that occurs in `hay` (|keys| if none). */
  function FirstMatchFrom(keys: seq<string>, hay: string, from: nat): (i: nat)
    requires from <= |keys|
    ensures from <= i <= |keys|
    ensures forall j :: from <= j < i ==> !Contains(hay, keys[j])
    ensures i < |keys| ==> Contains(hay, keys[i])
    decreases |keys| - from
  {
    if from == |keys| then from
    else if Contains(hay, keys[from]) then from
    else FirstMatchFrom(keys, hay, from + 1)
  }

  /** The first key, in list order, that is a substring of `hay`; None when no key is. */
  function FirstContained(keys: seq<string>, hay: string): (r: Option<string>)
    ensures r.None? <==> forall j :: 0 <= j < |keys| ==> !Contains(hay, keys[j])
    ensures r.Some? ==> exists i :: 0 <= i < |keys| && keys[i] == r.value && Contains(hay, keys[i])
                                    && forall j :: 0 <= j < i ==> !Contains(hay, keys[j])
  {
    var i := FirstMatchFrom(keys, hay, 0);
    if i < |keys| then Some(keys[i]) else None
  }

  /** `s` without its leading whitespace. */
  function TrimStart(s: string): (r: string)
    ensures |r| <= |s| && r == s[|s| - |r|..]
    ensures r == [] || !IsSpace(r[0])
  {
    if s != [] && IsSpace(s[0]) then TrimStart(s[1..]) else s
  }

  /** Only whitespace is removed from the front. */
  lemma {:induction false} TrimStartRemovesSpace(s: string)
    ensures forall k :: 0 <= k < |s| - |TrimStart(s)| ==> IsSpace(s[k])
    decreases |s|
  {
    if s != [] && IsSpace(s[0]) {
      TrimStartRemovesSpace(s[1..]);
      assert forall k :: 1 <= k < |s| ==> s[k] == s[1..][k - 1];
    }
  }

  /** `s` without its trailing whitespace. */
  function TrimEnd(s: string): (r: string)
    ensures |r| <= |s| && r == s[..|r|]
    ensures r == [] || !IsSpace(r[|r| - 1])
  {
    if s != [] && IsSpace(s[|s| - 1]) then TrimEnd(s[..|s| - 1]) else s
  }

  /** Only whitespace is removed from the back. */
  lemma {:induction false} TrimEndRemovesSpace(s: string)
    ensures forall k :: |TrimEnd(s)| <= k < |s| ==> IsSpace(s[k])
    decreases |s|
  {
    if s != [] && IsSpace(s[|s| - 1]) {
      TrimEndRemovesSpace(s[..|s| - 1]);
    }
  }

  /** Python's `s.strip()`: the slice of `s` left when whitespace is removed from both ends. */
  function Strip(s: string): (r: string)
    ensures |r| <= |s|
    ensures r == [] || (!IsSpace(r[0]) && !IsSpace(r[|r| - 1]))
    ensures var a := |s| - |TrimStart(s)|; a + |r| <= |s| && r == s[a..a + |r|]
  {
    var t := TrimStart(s);
    var r := TrimEnd(t);
    SliceOfSuffix(s, |s| - |t|, |r|);
    assert r == [] || r[0] == t[0];
    r
  }

  lemma SliceOfSuffix(s: string, a: nat, n: nat)
    requires a + n <= |s|
    ensures s[a..][..n] == s[a..a + n]
  {
  }

  /** Strip removes whitespace and nothing else: what precedes and follows the
      result in `s` is all whitespace. */
  lemma StripRemovesOnlySpace(s: string)
    ensures var a := |s| - |TrimStart(s)|;
            (forall k :: 0 <= k < a ==> IsSpace(s[k]))
            && (forall k :: a + |Strip(s)| <= k < |s| ==> IsSpace(s[k]))
  {
    var t := TrimStart(s);
    var a := |s| - |t|;
    TrimStartRemovesSpace(s);
    TrimEndRemovesSpace(t);
    forall k | a + |Strip(s)| <= k < |s|
      ensures IsSpace(s[k])
    {
      assert s[k] == t[k - a];
    }
  }

  lemma StripIdempotent(s: string)
    ensures Strip(Strip(s)) == Strip(s)
  {
    var r := Strip(s);
    assert TrimStart(r) == r;
    assert TrimEnd(r) == r;
  }

  /** The characters of `s` that are not whitespace, in order. */
  function NonSpace(s: string): (r: string)
    ensures |r| <= |s|
    ensures forall k :: 0 <= k < |r| ==> !IsSpace(r[k])
  {
    if s == [] then []
    else if IsSpace(s[0]) then NonSpace(s[1..])
    else [s[0]] + NonSpace(s[1..])
  }

  lemma {:induction false} NonSpaceAppend(a: string, b: string)
    ensures NonSpace(a + b) == NonSpace(a) + NonSpace(b)
  {
    if a != [] {
      assert (a + b)[1..] == a[1..] + b;
      NonSpaceAppend(a[1..], b);
    } else {
      assert a + b == b;
    }
  }

  predicate AllSpace(s: string) {
    forall k :: 0 <= k < |s| ==> IsSpace(s[k])
  }

  lemma {:induction false} NonSpaceOfSpaces(s: string)
    requires AllSpace(s)
    ensures NonSpace(s) == []
  {
    if s != [] {
      assert AllSpace(s[1..]) by {
        forall k | 0 <= k < |s| - 1 ensures IsSpace(s[1..][k]) {
          assert s[1..][k] == s[k + 1];
        }
      }
      NonSpaceOfSpaces(s[1..]);
    }
  }

  /** Whitespace around a text contributes no characters. */
  lemma NonSpaceAround(head: string, mid: string, tail: string)
    requires AllSpace(head) && AllSpace(tail)
    ensures NonSpace(head + mid + tail) == NonSpace(mid)
  {
    NonSpaceAppend(head + mid, tail);
    NonSpaceAppend(head, mid);
    NonSpaceOfSpaces(head);
    NonSpaceOfSpaces(tail);
  }

  /** Removing leading whitespace keeps every other character. */
  lemma TrimStartKeepsNonSpace(s: string)
    ensures NonSpace(TrimStart(s)) == NonSpace(s)
  {
    var t := TrimStart(s);
    var head := s[..|s| - |t|];
    TrimStartRemovesSpace(s);
    assert AllSpace(head);
    assert s == head + t + [];
    NonSpaceAround(head, t, []);
  }

  /** Removing trailing whitespace keeps every other character. */
  lemma TrimEndKeepsNonSpace(s: string)
    ensures NonSpace(TrimEnd(s)) == NonSpace(s)
  {
    var r := TrimEnd(s);
    var tail := s[|r|..];
    TrimEndRemovesSpace(s);
    assert AllSpace(tail) by {
      forall k | 0 <= k < |tail| ensures IsSpace(tail[k]) {
        assert tail[k] == s[|r| + k];
      }
    }
    assert s == [] + r + tail;
    NonSpaceAround([], r, tail);
  }

  /** Stripping removes whitespace only: the other characters all survive, in order. */
  lemma StripKeepsNonSpace(s: string)
    ensures NonSpace(Strip(s)) == NonSpace(s)
  {
    var t := TrimStart(s);
    assert Strip(s) == TrimEnd(t);
    TrimStartKeepsNonSpace(s);
    TrimEndKeepsNonSpace(t);
  }

  /** A character not in `s` is not in its stripped form. */
  lemma StripKeepsAbsent(s: string, c: char)
    requires c !in s
    ensures c !in Strip(s)
  {
    var a := |s| - |TrimStart(s)|;
    var r := Strip(s);
    forall k | 0 <= k < |r| ensures r[k] != c {
      assert r[k] == s[a + k];
    }
  }

  function LowerChar(c: char): char {
    if 'A' <= c <= 'Z' then (c as int + 32) as char else c
  }

  /** Python's `s.lower()`, ASCII letters only. */
  function Lower(s: string): (r: string)
    ensures |r| == |s|
    ensures forall k :: 0 <= k < |s| ==> r[k] == LowerChar(s[k])
  {
    seq(|s|, k requires 0 <= k < |s| => LowerChar(s[k]))
  }

  function CountChar(s: string, c: char): nat {
    if s == [] then 0 else (if s[0] == c then 1 else 0) + CountChar(s[1..], c)
  }

  lemma {:induction false} CountCharAppend(a: string, b: string, c: char)
    ensures CountChar(a + b, c) == CountChar(a, c) + CountChar(b, c)
  {
    if a == [] {
      assert a + b == b;
    } else {
      assert (a + b)[1..] == a[1..] + b;
      CountCharAppend(a[1..], b, c);
    }
  }

  lemma {:induction false} CountCharAbsent(s: string, c: char)
    requires c !in s
    ensures CountChar(s, c) == 0
  {
    if s != [] {
      CountCharAbsent(s[1..], c);
    }
  }

  /** Python's `s.replace(pattern, "")`: occurrences are found left to right and
      do not overlap; a deletion can bring two halves of a new occurrence together,
      which is not deleted in the same pass. */
  function RemoveAll(s: string, pattern: string): (r: string)
    requires pattern != []
    ensures |r| <= |s|
    ensures !Contains(s, pattern) ==> r == s
    decreases |s|
  {
    if |s| < |pattern| then s
    else if s[..|pattern|] == pattern then RemoveAll(s[|pattern|..], pattern)
    else [s[0]] + RemoveAll(s[1..], pattern)
  }

  /** Joining with "" after one character is prepended to the first part is that
      character in front of the join. */
  lemma JoinConsFirst(c: char, a: string, t: seq<string>)
    ensures Join("", [[c] + a] + t) == [c] + Join("", [a] + t)
  {
    var q, p := [[c] + a] + t, [a] + t;
    assert q[0] == [c] + a && p[0] == a && q[1..] == t && p[1..] == t;
    if t != [] {
      var rest := Join("", t);
      assert Join("", q) == ([c] + a) + "" + rest;
      assert Join("", p) == a + "" + rest;
      assert ([c] + a) + "" + rest == [c] + (a + "" + rest);
    }
  }

  /** `s.replace(pattern, "")` is `"".join(s.split(pattern))`: every piece between
      the occurrences that `split` finds left to right is kept, and each
      occurrence is deleted. */
  lemma {:induction false} RemoveAllIsJoinSplit(s: string, pattern: string)
    requires pattern != []
    ensures RemoveAll(s, pattern) == Join("", Split(s, pattern))
    decreases |s|
  {
    if |s| < |pattern| {
    } else if s[..|pattern|] == pattern {
      var rest := Split(s[|pattern|..], pattern);
      RemoveAllIsJoinSplit(s[|pattern|..], pattern);
      var q := [[]] + rest;
      assert q[1..] == rest;
      assert Join("", q) == [] + "" + Join("", rest);
    } else {
      RemoveAllIsJoinSplit(s[1..], pattern);
      var rest := Split(s[1..], pattern);
      assert rest == [rest[0]] + rest[1..];
      JoinConsFirst(s[0], rest[0], rest[1..]);
    }
  }

  /** Deleting a pattern that does not contain `c` keeps every `c`. */
  lemma {:induction false} RemoveAllKeepsCount(s: string, pattern: string, c: char)
    requires pattern != [] && c !in pattern
    ensures CountChar(RemoveAll(s, pattern), c) == CountChar(s, c)
    decreases |s|
  {
    if |s| < |pattern| {
    } else if s[..|pattern|] == pattern {
      RemoveAllKeepsCount(s[|pattern|..], pattern, c);
      assert s == pattern + s[|pattern|..];
      CountCharAppend(pattern, s[|pattern|..], c);
      CountCharAbsent(pattern, c);
    } else {
      RemoveAllKeepsCount(s[1..], pattern, c);
    }
  }

  /** Python's `s.split(sep)` for a non-empty separator. */
  function Split(s: string, sep: string): (r: seq<string>)
    requires sep != []
    ensures |r| >= 1
    decreases |s|
  {
    if |s| < |sep| then [s]
    else if s[..|sep|] == sep then [[]] + Split(s[|sep|..], sep)
    else
      var rest := Split(s[1..], sep);
      [[s[0]] + rest[0]] + rest[1..]
  }

  /** Python's `sep.join(parts)`. */
  function Join(sep: string, parts: seq<string>): string {
    if |parts| == 0 then []
    else if |parts| == 1 then parts[0]
    else parts[0] + sep + Join(sep, parts[1..])
  }

  /** Splitting on one character gives one piece more than there are occurrences of it. */
  lemma {:induction false} SplitCount(s: string, c: char)
    ensures |Split(s, [c])| == CountChar(s, c) + 1
    decreases |s|
  {
    if |s| >= 1 {
      SplitCount(s[1..], c);
      if s[..1] == [c] {
        assert s[0] == c;
        assert s[1..] == s[|[c]|..];
      }
    }
  }

  /** No piece of a split on `c` contains `c`. */
  lemma {:induction false} SplitPiecesLack(s: string, c: char)
    ensures forall p :: p in Split(s, [c]) ==> c !in p
    decreases |s|
  {
    if |s| >= 1 {
      SplitPiecesLack(s[1..], c);
      if s[..1] == [c] {
        assert s[1..] == s[|[c]|..];
      } else {
        assert s[0] != c;
        var rest := Split(s[1..], [c]);
        assert rest[0] in rest;
        forall p | p in [[s[0]] + rest[0]] + rest[1..] ensures c !in p {
          if p != [s[0]] + rest[0] {
            assert p in rest;
          }
        }
      }
    }
  }

  lemma {:induction false} SplitWithoutSeparator(p: string, sep: string)
    requires sep != [] && sep[0] !in p
    ensures Split(p, sep) == [p]
    decreases |p|
  {
    if |p| >= |sep| {
      assert p[..|sep|][0] == p[0] != sep[0];
      SplitWithoutSeparator(p[1..], sep);
      assert [p[0]] + p[1..] == p;
    }
  }

  lemma {:induction false} SplitAtSeparator(p: string, sep: string, t: string)
    requires sep != [] && sep[0] !in p
    ensures Split(p + sep + t, sep) == [p] + Split(t, sep)
    decreases |p|
  {
    var s := p + sep + t;
    if p == [] {
      assert s == sep + t;
      assert s[..|sep|] == sep;
      assert s[|sep|..] == t;
    } else {
      assert s[..|sep|][0] == p[0] != sep[0];
      assert s[1..] == p[1..] + sep + t;
      SplitAtSeparator(p[1..], sep, t);
      assert [p[0]] + p[1..] == p;
    }
  }

  /** Splitting a join gives the parts back when no part holds the separator's first character. */
  lemma {:induction false} SplitJoin(sep: string, parts: seq<string>)
    requires sep != [] && |parts| >= 1
    requires forall p :: p in parts ==> sep[0] !in p
    ensures Split(Join(sep, parts), sep) == parts
    decreases |parts|
  {
    if |parts| == 1 {
      SplitWithoutSeparator(parts[0], sep);
    } else {
      assert parts[0] in parts;
      SplitAtSeparator(parts[0], sep, Join(sep, parts[1..]));
      assert forall p :: p in parts[1..] ==> p in parts;
      SplitJoin(sep, parts[1..]);
      assert [parts[0]] + parts[1..] == parts;
    }
  }
}
