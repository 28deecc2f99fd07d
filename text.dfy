/** The small JavaScript string and array operations the pages build their
    text from: `replace(/\s+/g, '')`, `replace('@', '')`, `join`, `split`,
    `substring`-based truncation, `slice(0, n)` and the `||` fallback on
    strings. Strings are sequences of Unicode scalar values. */
module Text {

  datatype Option<+T> = None | Some(value: T)

  /** A value, or the message of the "Missing Information" notice that stops
      an action. */
  datatype Result<+T> = Success(value: T) | Failure(message: string)

  /** JavaScript's `\s` class: the ECMAScript WhiteSpace and LineTerminator
      code points. */
  predicate IsWhitespace(c: char) {
    || c == ' ' || c == '\t' || c == '\n' || c == '\r'
    || c == '\U{B}' || c == '\U{C}' || c == '\U{A0}' || c == '\U{1680}'
    || ('\U{2000}' <= c <= '\U{200A}')
    || c == '\U{2028}' || c == '\U{2029}' || c == '\U{202F}' || c == '\U{205F}'
    || c == '\U{3000}' || c == '\U{FEFF}'
  }

  predicate NoWhitespace(s: string) {
    forall i :: 0 <= i < |s| ==> !IsWhitespace(s[i])
  }

  /** `s.replace(/\s+/g, '')`: every run of whitespace is deleted, which is
      the same as deleting every whitespace character. */
  function RemoveWhitespace(s: string): (r: string)
    ensures |r| <= |s|
    ensures NoWhitespace(r)
    ensures NoWhitespace(s) ==> r == s
  {
    if s == [] then []
    else
      assert s == [s[0]] + s[1..];
      if IsWhitespace(s[0]) then RemoveWhitespace(s[1..])
      else [s[0]] + RemoveWhitespace(s[1..])
  }

  /** Whitespace removal distributes over concatenation: the characters that
      remain keep their order. */
  lemma {:induction false} RemoveWhitespaceAppend(a: string, b: string)
    ensures RemoveWhitespace(a + b) == RemoveWhitespace(a) + RemoveWhitespace(b)
  {
    if a == [] {
      assert a + b == b;
    } else {
      assert (a + b)[0] == a[0];
      assert (a + b)[1..] == a[1..] + b;
      RemoveWhitespaceAppend(a[1..], b);
    }
  }

  /** Whitespace removal keeps exactly the characters that are not
      whitespace: each of them as often as it occurs in the input, and no
      whitespace at all. */
  lemma {:induction false} RemoveWhitespaceKeeps(s: string)
    ensures forall ch :: !IsWhitespace(ch) ==> multiset(RemoveWhitespace(s))[ch] == multiset(s)[ch]
    ensures forall ch :: IsWhitespace(ch) ==> multiset(RemoveWhitespace(s))[ch] == 0
    ensures multiset(RemoveWhitespace(s)) <= multiset(s)
    ensures forall ch :: ch in s && !IsWhitespace(ch) ==> ch in RemoveWhitespace(s)
  {
    if s != [] {
      RemoveWhitespaceKeeps(s[1..]);
      assert s == [s[0]] + s[1..];
      assert multiset(s) == multiset{s[0]} + multiset(s[1..]);
      if !IsWhitespace(s[0]) {
        assert multiset(RemoveWhitespace(s)) == multiset{s[0]} + multiset(RemoveWhitespace(s[1..]));
      }
    }
  }

  /** Removing whitespace twice is the same as removing it once. */
  lemma RemoveWhitespaceIdempotent(s: string)
    ensures RemoveWhitespace(RemoveWhitespace(s)) == RemoveWhitespace(s)
  {
  }

  /** `s.replace(c, '')` with a one-character string pattern: only the first
      occurrence of `c` is deleted. */
  function RemoveFirst(s: string, c: char): (r: string)
    ensures c !in s ==> r == s
    ensures c in s ==> |r| + 1 == |s|
    ensures s != [] && s[0] == c ==> r == s[1..]
  {
    if s == [] then []
    else
      assert s == [s[0]] + s[1..];
      if s[0] == c then s[1..]
      else [s[0]] + RemoveFirst(s[1..], c)
  }

  /** Exactly one `c` is deleted when there is one: the characters kept are
      those of the input less that one. */
  lemma {:induction false} RemoveFirstMultiset(s: string, c: char)
    ensures c in s ==> multiset(RemoveFirst(s, c)) + multiset{c} == multiset(s)
    ensures c !in s ==> multiset(RemoveFirst(s, c)) == multiset(s)
  {
    if s != [] {
      RemoveFirstMultiset(s[1..], c);
      assert s == [s[0]] + s[1..];
      assert multiset(s) == multiset{s[0]} + multiset(s[1..]);
    }
  }

  /** The deleted character is the first occurrence: everything before and
      after it is kept. */
  lemma {:induction false} RemoveFirstAt(s: string, c: char, k: nat)
    requires k < |s| && s[k] == c && c !in s[..k]
    ensures RemoveFirst(s, c) == s[..k] + s[k + 1..]
  {
    if k > 0 {
      var t := s[1..];
      var u := t[..k - 1];
      forall i | 0 <= i < |u| ensures u[i] != c {
        assert u[i] == s[..k][i + 1];
      }
      RemoveFirstAt(t, c, k - 1);
      assert s[..k] == [s[0]] + u;
      assert s[k + 1..] == t[k..];
    }
  }

  /** `parts.join(sep)`. */
  function Join(parts: seq<string>, sep: string): (r: string)
    ensures |parts| == 0 ==> r == ""
    ensures |parts| == 1 ==> r == parts[0]
  {
    if |parts| == 0 then ""
    else if |parts| == 1 then parts[0]
    else parts[0] + sep + Join(parts[1..], sep)
  }

  predicate IsSuffix<T(==)>(p: seq<T>, s: seq<T>) {
    |p| <= |s| && s[|s| - |p|..] == p
  }

  /** Every entry is a hashtag: non-empty and starting with `#`. */
  predicate AllHashtags(tags: seq<string>) {
    forall i :: 0 <= i < |tags| ==> |tags[i]| > 0 && tags[i][0] == '#'
  }

  lemma AllHashtagsAppend(a: seq<string>, b: seq<string>)
    requires AllHashtags(a) && AllHashtags(b)
    ensures AllHashtags(a + b)
  {
    forall i | 0 <= i < |a + b| ensures |(a + b)[i]| > 0 && (a + b)[i][0] == '#' {
      if i >= |a| {
        assert (a + b)[i] == b[i - |a|];
      }
    }
  }

  /** `s.split(d)` with a one-character separator: the pieces between the
      separators, one more piece than there are separators, none holding the
      separator. */
  function Split(s: string, d: char): (r: seq<string>)
    ensures |r| >= 1
    ensures forall i :: 0 <= i < |r| ==> d !in r[i]
    decreases |s|
  {
    if s == [] then [""]
    else
      assert s == [s[0]] + s[1..];
      var rest := Split(s[1..], d);
      if s[0] == d then [""] + rest
      else [[s[0]] + rest[0]] + rest[1..]
  }

  /** A split has one more piece than there are separators. */
  lemma {:induction false} SplitCount(s: string, d: char)
    ensures |Split(s, d)| == multiset(s)[d] + 1
    decreases |s|
  {
    if s != [] {
      SplitCount(s[1..], d);
      assert s == [s[0]] + s[1..];
      assert multiset(s) == multiset{s[0]} + multiset(s[1..]);
    }
  }

  /** Joining the pieces of a split with the separator gives back the
      original string. */
  lemma {:induction false} JoinSplit(s: string, d: char)
    ensures Join(Split(s, d), [d]) == s
    decreases |s|
  {
    if s != [] {
      var t := s[1..];
      JoinSplit(t, d);
      var rest := Split(t, d);
      assert s == [s[0]] + t;
      if s[0] == d {
        assert Split(s, d) == [""] + rest;
        JoinCons("", rest, [d]);
      } else if |rest| == 1 {
        assert Split(s, d) == [[s[0]] + rest[0]];
      } else {
        assert Split(s, d) == [[s[0]] + rest[0]] + rest[1..];
        JoinExtendFirst(s[0], rest, [d]);
      }
    }
  }

  /** Joining a non-empty list whose first element is `a`. */
  lemma JoinCons(a: string, rest: seq<string>, sep: string)
    requires |rest| > 0
    ensures Join([a] + rest, sep) == a + sep + Join(rest, sep)
  {
    assert ([a] + rest)[1..] == rest;
  }

  /** Prefixing the first piece with a character prefixes the join with it. */
  lemma JoinExtendFirst(x: char, parts: seq<string>, sep: string)
    requires |parts| > 1
    ensures Join([[x] + parts[0]] + parts[1..], sep) == [x] + Join(parts, sep)
  {
    var h := [x] + parts[0];
    var tail := parts[1..];
    var j := Join(tail, sep);
    assert [parts[0]] + tail == parts;
    JoinCons(parts[0], tail, sep);
    JoinCons(h, tail, sep);
    assert h + sep + j == [x] + (parts[0] + sep + j);
  }

  /** Splitting a string whose first piece has no separator peels that piece
      off. */
  lemma {:induction false} SplitPrefix(p: string, d: char, tail: string)
    requires d !in p
    ensures Split(p + [d] + tail, d) == [p] + Split(tail, d)
    decreases |p|
  {
    if p == [] {
      assert p + [d] + tail == [d] + tail;
      assert ([d] + tail)[1..] == tail;
    } else {
      var s := p + [d] + tail;
      assert s[0] == p[0];
      assert s[1..] == p[1..] + [d] + tail;
      SplitPrefix(p[1..], d, tail);
      assert [p[0]] + p[1..] == p;
    }
  }

  /** Splitting a join of separator-free pieces gives back the pieces. */
  lemma {:induction false} SplitJoin(parts: seq<string>, d: char)
    requires |parts| > 0
    requires forall i :: 0 <= i < |parts| ==> d !in parts[i]
    ensures Split(Join(parts, [d]), d) == parts
  {
    if |parts| == 1 {
      SplitNoSeparator(parts[0], d);
    } else {
      SplitJoin(parts[1..], d);
      SplitPrefix(parts[0], d, Join(parts[1..], [d]));
      assert [parts[0]] + parts[1..] == parts;
    }
  }

  /** A string without the separator splits into itself alone. */
  lemma {:induction false} SplitNoSeparator(s: string, d: char)
    requires d !in s
    ensures Split(s, d) == [s]
    decreases |s|
  {
    if s != [] {
      assert s[1..] <= s[1..];
      assert forall i :: 0 <= i < |s[1..]| ==> s[1..][i] == s[i + 1];
      assert d !in s[1..];
      SplitNoSeparator(s[1..], d);
      assert [s[0]] + s[1..] == s;
    }
  }

  /** `s.length > n ? s.substring(0, n) + '...' : s`. */
  function Truncate(s: string, n: nat): (r: string)
    ensures |r| <= n + 3
    ensures |s| <= n ==> r == s
    ensures |s| > n ==> |r| == n + 3 && r[..n] == s[..n] && r[n..] == "..."
  {
    if |s| > n then s[..n] + "..." else s
  }

  function Min(a: nat, b: nat): nat {
    if a <= b then a else b
  }

  /** `xs.slice(0, n)`: the first `n` elements, or all of them when there
      are fewer. */
  function Take<T(==)>(xs: seq<T>, n: nat): (r: seq<T>)
    ensures |r| == Min(n, |xs|)
    ensures r <= xs
  {
    if |xs| <= n then xs else xs[..n]
  }

  /** `s || fallback` on strings: the empty string is falsy. */
  function OrElse(s: string, fallback: string): (r: string)
    ensures s != "" ==> r == s
    ensures s == "" ==> r == fallback
  {
    if s != "" then s else fallback
  }

  /** `part` occurs in `text` starting at index `i`. */
  predicate OccursAt(text: string, part: string, i: nat) {
    i + |part| <= |text| && text[i..i + |part|] == part
  }

  /** `part` occurs verbatim somewhere in `text`. */
  predicate Contains(text: string, part: string) {
    exists i: nat | i <= |text| :: OccursAt(text, part, i)
  }

  /** The middle of a three-part concatenation occurs in it verbatim. */
  lemma ContainsMiddle(a: string, b: string, c: string)
    ensures Contains(a + b + c, b)
  {
    assert OccursAt(a + b + c, b, |a|) by {
      assert (a + b + c)[|a|..|a| + |b|] == b;
    }
  }

  /** Both interpolated parts of a `p + a + q + b + z` template occur in it
      verbatim. */
  lemma ContainsBoth(p: string, a: string, q: string, b: string, z: string)
    ensures Contains(p + a + q + b + z, a)
    ensures Contains(p + a + q + b + z, b)
  {
    var t := p + a + q + b + z;
    assert OccursAt(t, a, |p|) by {
      assert t == p + a + (q + b + z);
    }
    assert OccursAt(t, b, |p| + |a| + |q|) by {
      assert t == (p + a + q) + b + z;
    }
  }

  /** A string made only of whitespace loses all of it. */
  lemma {:induction false} RemoveWhitespaceBlank(s: string)
    requires forall i :: 0 <= i < |s| ==> IsWhitespace(s[i])
    ensures RemoveWhitespace(s) == ""
  {
    if s != [] {
      RemoveWhitespaceBlank(s[1..]);
    }
  }
}
