/** The handful of Python string operations the adapters rely on, written out
    over `string` (a sequence of Unicode scalar values, like Python's `str`). */
module Text {
  import opened Wrappers

  /** `p` is a prefix of `s` (`s.startswith(p)`). */
  predicate IsPrefix(p: string, s: string)
  {
    |p| <= |s| && s[..|p|] == p
  }

  /** Substring test `sub in s`. */
  predicate Contains(s: string, sub: string)
    decreases |s|
  {
    IsPrefix(sub, s) || (|s| > 0 && Contains(s[1..], sub))
  }

  lemma {:induction false} PrefixTrans(a: string, b: string, s: string)
    requires IsPrefix(a, b) && IsPrefix(b, s)
    ensures IsPrefix(a, s)
  {
    assert s[..|a|] == s[..|b|][..|a|];
  }

  /** A substring of a prefix of `s` is a substring of `s`. */
  lemma {:induction false} ContainsInPrefix(s: string, a: string, b: string)
    requires IsPrefix(a, s) && Contains(a, b)
    ensures Contains(s, b)
    decreases |a|
  {
    if IsPrefix(b, a) {
      PrefixTrans(b, a, s);
    } else {
      assert a[1..] == s[1..][..|a| - 1];
      ContainsInPrefix(s[1..], a[1..], b);
    }
  }

  /** "Is a substring of" is transitive: whatever contains `a` contains
      every substring of `a`. */
  lemma {:induction false} ContainsTrans(s: string, a: string, b: string)
    requires Contains(s, a) && Contains(a, b)
    ensures Contains(s, b)
    decreases |s|
  {
    if IsPrefix(a, s) {
      ContainsInPrefix(s, a, b);
    } else {
      ContainsTrans(s[1..], a, b);
    }
  }

  /** ASCII case mapping, as `str.lower()` does on ASCII letters. */
  function LowerChar(c: char): char
  {
    if 'A' <= c <= 'Z' then (c as int + 32) as char else c
  }

  function Lower(s: string): (r: string)
    ensures |r| == |s|
    ensures forall i :: 0 <= i < |s| ==> r[i] == LowerChar(s[i])
  {
    seq(|s|, i requires 0 <= i < |s| => LowerChar(s[i]))
  }

  /** `str.isspace()` for one character: the characters Python strips. */
  predicate IsSpace(c: char)
  {
    c == ' ' || ('\t' <= c <= '\r') || ('\U{1C}' <= c <= '\U{1F}')
    || c == '\U{85}' || c == '\U{A0}' || c == '\U{1680}'
    || ('\U{2000}' <= c <= '\U{200A}') || c == '\U{2028}' || c == '\U{2029}'
    || c == '\U{202F}' || c == '\U{205F}' || c == '\U{3000}'
  }

  /** `s.lstrip()`: the longest suffix of `s` that does not start with whitespace. */
  function TrimStart(s: string): (r: string)
    ensures |r| <= |s| && r == s[|s| - |r|..]
    ensures forall i :: 0 <= i < |s| - |r| ==> IsSpace(s[i])
    ensures r == [] || !IsSpace(r[0])
    decreases |s|
  {
    if |s| > 0 && IsSpace(s[0]) then TrimStart(s[1..]) else s
  }

  /** `s.rstrip()`: the longest prefix of `s` that does not end with whitespace. */
  function TrimEnd(s: string): (r: string)
    ensures |r| <= |s| && r == s[..|r|]
    ensures forall i :: |r| <= i < |s| ==> IsSpace(s[i])
    ensures r == [] || !IsSpace(r[|r| - 1])
    decreases |s|
  {
    if |s| > 0 && IsSpace(s[|s| - 1]) then TrimEnd(s[..|s| - 1]) else s
  }

  /** `s.strip()`. */
  function Strip(s: string): string
  {
    TrimEnd(TrimStart(s))
  }

  /** Text that neither starts nor ends with whitespace is its own strip. */
  lemma StripUnpadded(s: string)
    requires |s| > 0 && !IsSpace(s[0]) && !IsSpace(s[|s| - 1])
    ensures Strip(s) == s
  {
    assert TrimStart(s) == s;
    assert TrimEnd(s) == s;
  }

  /** Index of the first `c` in `s`, or `|s|` when there is none. */
  function Find(s: string, c: char): (r: nat)
    ensures r <= |s|
    ensures r < |s| <==> c in s
    ensures r < |s| ==> s[r] == c
    ensures forall j :: 0 <= j < r ==> s[j] != c
  {
    if s == [] then 0 else if s[0] == c then 0 else 1 + Find(s[1..], c)
  }

  /** `s.split(c, 1)` when `c in s`: the text before the first `c` and the text after it. */
  function SplitFirst(s: string, c: char): (r: Option<(string, string)>)
    ensures r.None? <==> c !in s
    ensures r.Some? ==> s == r.value.0 + [c] + r.value.1 && c !in r.value.0
  {
    var i := Find(s, c);
    if i == |s| then None
    else
      assert s == s[..i] + [c] + s[i + 1..];
      Some((s[..i], s[i + 1..]))
  }

  /** Splitting `p + c + rest` on its first `c` gives back `p` and `rest`
      exactly when `p` holds no `c`: only the first occurrence splits. */
  lemma SplitFirstConcat(p: string, c: char, rest: string)
    requires c !in p
    ensures SplitFirst(p + [c] + rest, c) == Some((p, rest))
  {
    var s := p + [c] + rest;
    assert s[|p|] == c;
    var i := Find(s, c);
    assert i == |p|;
    assert s[..i] == p;
    assert s[i + 1..] == rest;
  }

  /** `s.split(sep)` for a one-character separator. */
  function SplitOn(s: string, sep: char): (r: seq<string>)
    ensures |r| >= 1
    ensures forall i :: 0 <= i < |r| ==> sep !in r[i]
    decreases |s|
  {
    var i := Find(s, sep);
    if i == |s| then [s] else [s[..i]] + SplitOn(s[i + 1..], sep)
  }

  /** `sep.join(parts)` for a one-character separator. */
  function JoinWith(parts: seq<string>, sep: char): string
  {
    if |parts| == 0 then ""
    else if |parts| == 1 then parts[0]
    else parts[0] + [sep] + JoinWith(parts[1..], sep)
  }

  /** Joining the pieces of a split gives back the text. */
  lemma {:induction false} JoinSplit(s: string, sep: char)
    ensures JoinWith(SplitOn(s, sep), sep) == s
    decreases |s|
  {
    var i := Find(s, sep);
    if i < |s| {
      var rest := s[i + 1..];
      var tail := SplitOn(rest, sep);
      assert SplitOn(s, sep) == [s[..i]] + tail;
      JoinSplit(rest, sep);
      assert ([s[..i]] + tail)[1..] == tail;
      assert JoinWith([s[..i]] + tail, sep) == s[..i] + [sep] + JoinWith(tail, sep);
      assert s == s[..i] + [sep] + rest;
    } else {
      assert SplitOn(s, sep) == [s];
    }
  }

  /** `s.replace(pat, rep)`: every non-overlapping occurrence of `pat`,
      scanning left to right, becomes `rep`; text without the pattern is
      returned unchanged. */
  function Replace(s: string, pat: string, rep: string): (r: string)
    requires pat != ""
    ensures !Contains(s, pat) ==> r == s
    decreases |s|
  {
    if s == [] then []
    else if IsPrefix(pat, s) then rep + Replace(s[|pat|..], pat, rep)
    else [s[0]] + Replace(s[1..], pat, rep)
  }

  /** Text in front of which no occurrence can start is copied through. */
  lemma {:induction false} ReplaceKeepsPrefix(a: string, s: string, pat: string, rep: string)
    requires pat != "" && pat[0] !in a
    ensures Replace(a + s, pat, rep) == a + Replace(s, pat, rep)
    decreases |a|
  {
    if a != [] {
      var t := a + s;
      assert t[0] == a[0] && t[1..] == a[1..] + s;
      assert !IsPrefix(pat, t);
      ReplaceKeepsPrefix(a[1..], s, pat, rep);
      assert a == [a[0]] + a[1..];
    } else {
      assert a + s == s;
    }
  }

  /** Text that starts with `q`, where no occurrence starts and where `q`
      holds no further first character of the pattern, keeps `q` in front. */
  lemma ReplaceSkipsPrefix(q: string, s: string, pat: string, rep: string)
    requires pat != "" && q != "" && !IsPrefix(pat, q + s) && pat[0] !in q[1..]
    ensures Replace(q + s, pat, rep) == q + Replace(s, pat, rep)
  {
    var t := q + s;
    assert t[0] == q[0] && t[1..] == q[1..] + s;
    assert Replace(t, pat, rep) == [q[0]] + Replace(q[1..] + s, pat, rep);
    ReplaceKeepsPrefix(q[1..], s, pat, rep);
    assert [q[0]] + (q[1..] + Replace(s, pat, rep)) == q + Replace(s, pat, rep);
  }

  /** An occurrence at the start is rewritten, and the scan goes on after it. */
  lemma ReplaceAtStart(pat: string, b: string, rep: string)
    requires pat != ""
    ensures Replace(pat + b, pat, rep) == rep + Replace(b, pat, rep)
  {
    assert IsPrefix(pat, pat + b);
    assert (pat + b)[|pat|..] == b;
  }

  /** Applies `f` to every element, keeping the order. */
  function MapSeq<A, B>(f: A -> B, s: seq<A>): (r: seq<B>)
    ensures |r| == |s|
    ensures forall i :: 0 <= i < |s| ==> r[i] == f(s[i])
  {
    seq(|s|, i requires 0 <= i < |s| => f(s[i]))
  }

  lemma MapSeqAppend<A, B>(f: A -> B, a: seq<A>, b: seq<A>)
    ensures MapSeq(f, a + b) == MapSeq(f, a) + MapSeq(f, b)
  {
    var e, ea, eb := MapSeq(f, a + b), MapSeq(f, a), MapSeq(f, b);
    forall i | 0 <= i < |e|
      ensures e[i] == (ea + eb)[i]
    {
      if i < |a| {
        assert (a + b)[i] == a[i];
      } else {
        assert (a + b)[i] == b[i - |a|];
      }
    }
  }

  /** A non-empty sequence is its front followed by its last element. */
  lemma SplitLast<T>(s: seq<T>)
    requires |s| > 0
    ensures s == s[..|s| - 1] + [s[|s| - 1]]
  {
  }
}
