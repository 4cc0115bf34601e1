/** The handful of Python `str` operations the workflows rely on, as pure
    functions over `seq<char>`: `in`, `split(sep)`, `sep.join(...)`,
    `strip()`, and the ASCII part of `lower()`. */
module Text {

  import opened Wrappers

  /** `p` is a prefix of `s` (Python's `s.startswith(p)`). */
  predicate StartsWith(s: string, p: string) {
    |p| <= |s| && s[..|p|] == p
  }

  /** `p` is a suffix of `s` (Python's `s.endswith(p)`). */
  predicate EndsWith(s: string, p: string) {
    |p| <= |s| && s[|s| - |p|..] == p
  }

  /** Substring test, Python's `sub in s`. */
  predicate Contains(s: string, sub: string)
    decreases |s|
  {
    StartsWith(s, sub) || (|s| > 0 && Contains(s[1..], sub))
  }

  /** Python's `s.split(sep)` for a non-empty separator: scanning left to
      right, every non-overlapping occurrence of `sep` ends one part. */
  function SplitOn(s: string, sep: string): (parts: seq<string>)
    requires |sep| > 0
    ensures |parts| >= 1
    decreases |s|
  {
    if |s| == 0 then [""]
    else if StartsWith(s, sep) then [""] + SplitOn(s[|sep|..], sep)
    else
      var rest := SplitOn(s[1..], sep);
      [[s[0]] + rest[0]] + rest[1..]
  }

  /** Python's `sep.join(parts)`. */
  function Join(parts: seq<string>, sep: string): string {
    if |parts| == 0 then ""
    else if |parts| == 1 then parts[0]
    else parts[0] + sep + Join(parts[1..], sep)
  }

  /** Python's `s.split('\n')`. */
  function Lines(s: string): (lines: seq<string>)
    ensures |lines| >= 1
  {
    SplitOn(s, "\n")
  }

  function Last<T>(xs: seq<T>): T
    requires |xs| > 0
  {
    xs[|xs| - 1]
  }

  /** The characters Python's `str.isspace()` accepts, which are the ones
      `str.strip()` removes when called without arguments. */
  predicate IsSpace(c: char) {
    var n := c as int;
    (9 <= n <= 13) || (28 <= n <= 32) || n == 0x85 || n == 0xA0 || n == 0x1680
    || (0x2000 <= n <= 0x200A) || n == 0x2028 || n == 0x2029 || n == 0x202F
    || n == 0x205F || n == 0x3000
  }

  /** Every character of `t` is white space. */
  predicate AllSpace(t: string) {
    forall k :: 0 <= k < |t| ==> IsSpace(t[k])
  }

  /** Python's `s.lstrip()`: the suffix left after dropping leading white space. */
  function StripLeft(s: string): (r: string)
    ensures |r| <= |s| && r == s[|s| - |r|..]
    ensures AllSpace(s[..|s| - |r|])
    ensures |r| > 0 ==> !IsSpace(r[0])
    decreases |s|
  {
    if |s| > 0 && IsSpace(s[0]) then
      var r := StripLeft(s[1..]);
      assert s[..|s| - |r|] == [s[0]] + s[1..][..|s| - 1 - |r|];
      r
    else s
  }

  /** Python's `s.rstrip()`: the prefix left after dropping trailing white space. */
  function StripRight(s: string): (r: string)
    ensures |r| <= |s| && r == s[..|r|]
    ensures AllSpace(s[|r|..])
    ensures |r| > 0 ==> !IsSpace(r[|r| - 1])
    decreases |s|
  {
    if |s| > 0 && IsSpace(s[|s| - 1]) then
      var r := StripRight(s[..|s| - 1]);
      assert s[|r|..] == s[..|s| - 1][|r|..] + [s[|s| - 1]];
      r
    else s
  }

  /** Python's `s.strip()`: `s` without its leading and trailing white space. */
  function Strip(s: string): (r: string)
    ensures exists i :: 0 <= i && i + |r| <= |s| && s[i..][..|r|] == r
                        && AllSpace(s[..i]) && AllSpace(s[i + |r|..])
    ensures |r| > 0 ==> !IsSpace(r[0]) && !IsSpace(r[|r| - 1])
  {
    var left := StripLeft(s);
    var r := StripRight(left);
    var i := |s| - |left|;
    assert s[i..] == left;
    assert s[i + |r|..] == left[|r|..];
    r
  }

  /** The ASCII part of Python's `str.lower()`. */
  function ToLower(c: char): (d: char)
    ensures 'A' <= c <= 'Z' ==> 'a' <= d <= 'z' && d as int - c as int == 32
    ensures !('A' <= c <= 'Z') ==> d == c
  {
    if 'A' <= c <= 'Z' then (c as int + 32) as char else c
  }

  /** Python's `[line for line in lines if m in line]`. */
  function LinesContaining(lines: seq<string>, m: string): (hits: seq<string>)
    ensures |hits| <= |lines|
    ensures forall h :: h in hits ==> h in lines && Contains(h, m)
  {
    if |lines| == 0 then []
    else if Contains(lines[0], m) then [lines[0]] + LinesContaining(lines[1..], m)
    else LinesContaining(lines[1..], m)
  }

  /** The first line of `content` that contains `marker`, read the way the
      classifier reads it: test `marker in content`, and if so take element
      `[0]` of the lines that contain it. */
  function FirstLineWith(content: string, marker: string): (line: Option<string>)
    requires '\n' !in marker
    ensures line.Some? <==> Contains(content, marker)
  {
    if Contains(content, marker) then
      ContainedInSomePart(content, "\n", marker);
      var k :| 0 <= k < |Lines(content)| && Contains(Lines(content)[k], marker);
      FirstHit(Lines(content), marker, k);
      Some(LinesContaining(Lines(content), marker)[0])
    else
      None
  }

  /** Line `k` is the first of `lines` that contains `marker`. */
  ghost predicate IsFirstLineWith(lines: seq<string>, k: int, marker: string) {
    && 0 <= k < |lines|
    && Contains(lines[k], marker)
    && forall j :: 0 <= j < k ==> !Contains(lines[j], marker)
  }

  /** The line found is the first line of `content` that contains `marker`. */
  lemma FirstLineWithIsFirstHit(content: string, marker: string)
    requires '\n' !in marker && Contains(content, marker)
    ensures exists k :: IsFirstLineWith(Lines(content), k, marker) &&
                        Lines(content)[k] == FirstLineWith(content, marker).value
  {
    ContainedInSomePart(content, "\n", marker);
    var k :| 0 <= k < |Lines(content)| && Contains(Lines(content)[k], marker);
    FirstHit(Lines(content), marker, k);
  }

  /** Python's `str(n)` for a natural number. */
  function NatToString(n: nat): (r: string)
    ensures |r| > 0
    ensures forall i :: 0 <= i < |r| ==> '0' <= r[i] <= '9'
  {
    var digit := ['0' + (n % 10) as char];
    if n < 10 then digit else NatToString(n / 10) + digit
  }

  // ---------------------------------------------------------------------
  // Substring facts
  // ---------------------------------------------------------------------

  lemma {:induction false} ContainsSuffix(a: string, b: string, sub: string)
    requires Contains(b, sub)
    ensures Contains(a + b, sub)
    decreases |a|
  {
    if |a| > 0 {
      assert (a + b)[1..] == a[1..] + b;
      ContainsSuffix(a[1..], b, sub);
    } else {
      assert a + b == b;
    }
  }

  /** A text starts with whatever was put at its front. */
  lemma StartsWithAppend(a: string, b: string)
    ensures StartsWith(a + b, a)
  {
    assert (a + b)[..|a|] == a;
  }

  lemma ContainsPrefix(a: string, b: string, sub: string)
    requires StartsWith(a, sub)
    ensures Contains(a + b, sub)
  {
    assert (a + b)[..|sub|] == a[..|sub|];
  }

  /** Text after an occurrence does not hide it. */
  lemma {:induction false} ContainsExtendRight(a: string, b: string, sub: string)
    requires Contains(a, sub)
    ensures Contains(a + b, sub)
    decreases |a|
  {
    if StartsWith(a, sub) {
      ContainsPrefix(a, b, sub);
    } else {
      assert |a| > 0 && Contains(a[1..], sub);
      ContainsExtendRight(a[1..], b, sub);
      assert (a + b)[1..] == a[1..] + b;
    }
  }

  /** `sub` occurs inside `p + sub + q`. */
  lemma ContainsMiddle(p: string, sub: string, q: string)
    ensures Contains(p + sub + q, sub)
  {
    ContainsPrefix(sub, q, sub);
    ContainsSuffix(p, sub + q, sub);
    assert p + sub + q == p + (sub + q);
  }

  // ---------------------------------------------------------------------
  // split / join
  // ---------------------------------------------------------------------

  lemma JoinCons(p: string, rest: seq<string>, sep: string)
    requires |rest| >= 1
    ensures Join([p] + rest, sep) == p + sep + Join(rest, sep)
  {
    assert ([p] + rest)[1..] == rest;
  }

  /** Gluing a character onto the first part glues it onto the joined text. */
  lemma JoinGlueHead(c: char, rest: seq<string>, sep: string)
    requires |rest| >= 1
    ensures Join([[c] + rest[0]] + rest[1..], sep) == [c] + Join(rest, sep)
  {
    var parts := [[c] + rest[0]] + rest[1..];
    if |rest| > 1 {
      assert parts[1..] == rest[1..];
      assert Join(parts, sep) == [c] + rest[0] + sep + Join(rest[1..], sep);
      assert Join(rest, sep) == rest[0] + sep + Join(rest[1..], sep);
    }
  }

  /** Joining the parts of a split with the same separator gives back the
      original text. */
  lemma {:induction false} SplitJoin(s: string, sep: string)
    requires |sep| > 0
    ensures Join(SplitOn(s, sep), sep) == s
    decreases |s|
  {
    if |s| == 0 {
    } else if StartsWith(s, sep) {
      var tail := s[|sep|..];
      assert SplitOn(s, sep) == [""] + SplitOn(tail, sep);
      SplitJoin(tail, sep);
      JoinCons("", SplitOn(tail, sep), sep);
      assert s == sep + tail;
    } else {
      var rest := SplitOn(s[1..], sep);
      assert SplitOn(s, sep) == [[s[0]] + rest[0]] + rest[1..];
      SplitJoin(s[1..], sep);
      JoinGlueHead(s[0], rest, sep);
      assert s == [s[0]] + s[1..];
    }
  }

  /** Text without the separator character splits into itself alone. */
  lemma {:induction false} SplitWithoutSeparator(p: string, c: char)
    requires c !in p
    ensures SplitOn(p, [c]) == [p]
    decreases |p|
  {
    if |p| > 0 {
      SplitWithoutSeparator(p[1..], c);
      assert SplitOn(p, [c]) == [[p[0]] + p[1..]];
      assert [p[0]] + p[1..] == p;
    }
  }

  /** Splitting at a separator character ends the first part at its first
      occurrence. */
  lemma {:induction false} SplitAtFirstSeparator(p: string, c: char, rest: string)
    requires c !in p
    ensures SplitOn(p + [c] + rest, [c]) == [p] + SplitOn(rest, [c])
    decreases |p|
  {
    var s := p + [c] + rest;
    if |p| == 0 {
      assert StartsWith(s, [c]);
      assert s[1..] == rest;
    } else {
      assert s[0] == p[0] && p[0] != c;
      assert s[..1] != [c];
      assert s[1..] == p[1..] + [c] + rest;
      SplitAtFirstSeparator(p[1..], c, rest);
      assert [p[0]] + p[1..] == p;
    }
  }

  /** Splitting a join at a separator character none of the parts holds
      gives back the parts. */
  lemma {:induction false} JoinSplit(parts: seq<string>, c: char)
    requires |parts| >= 1
    requires forall i :: 0 <= i < |parts| ==> c !in parts[i]
    ensures SplitOn(Join(parts, [c]), [c]) == parts
    decreases |parts|
  {
    if |parts| == 1 {
      SplitWithoutSeparator(parts[0], c);
    } else {
      JoinSplit(parts[1..], c);
      SplitAtFirstSeparator(parts[0], c, Join(parts[1..], [c]));
      assert parts == [parts[0]] + parts[1..];
    }
  }

  /** Splitting never leaves a separator inside a part. */
  lemma {:induction false} SplitPartsAvoidSeparator(s: string, sep: string)
    requires |sep| > 0
    ensures forall k :: 0 <= k < |SplitOn(s, sep)| ==> !Contains(SplitOn(s, sep)[k], sep)
    decreases |s|
  {
    var parts := SplitOn(s, sep);
    if |s| == 0 {
    } else if StartsWith(s, sep) {
      SplitPartsAvoidSeparator(s[|sep|..], sep);
      assert forall k :: 1 <= k < |parts| ==> parts[k] == SplitOn(s[|sep|..], sep)[k - 1];
    } else {
      var rest := SplitOn(s[1..], sep);
      SplitPartsAvoidSeparator(s[1..], sep);
      assert forall k :: 1 <= k < |parts| ==> parts[k] == rest[k];
      var first := [s[0]] + rest[0];
      assert first[1..] == rest[0];
      SplitJoin(s[1..], sep);
      JoinStartsWithFirst(rest, sep);
      assert !StartsWith(first, sep);
    }
  }

  lemma JoinStartsWithFirst(parts: seq<string>, sep: string)
    requires |parts| > 0
    ensures StartsWith(Join(parts, sep), parts[0])
  {
    if |parts| > 1 {
      assert (parts[0] + sep + Join(parts[1..], sep))[..|parts[0]|] == parts[0];
    }
  }

  /** Every part occurs in the join. */
  lemma {:induction false} JoinContainsParts(parts: seq<string>, sep: string, k: nat)
    requires k < |parts|
    ensures Contains(Join(parts, sep), parts[k])
    decreases k
  {
    if k == 0 {
      JoinStartsWithFirst(parts, sep);
    } else {
      JoinContainsParts(parts[1..], sep, k - 1);
      ContainsSuffix(parts[0] + sep, Join(parts[1..], sep), parts[k]);
      assert Join(parts, sep) == parts[0] + sep + Join(parts[1..], sep);
    }
  }

  /** Joining all parts equals joining all but the last, the separator, and
      the last. */
  lemma {:induction false} JoinSnoc(parts: seq<string>, sep: string)
    requires |parts| >= 2
    ensures Join(parts, sep) == Join(parts[..|parts| - 1], sep) + sep + Last(parts)
    decreases |parts|
  {
    if |parts| > 2 {
      JoinSnoc(parts[1..], sep);
      assert parts[1..][..|parts| - 2] == parts[..|parts| - 1][1..];
    }
  }

  /** With two or more parts, `s` is the join of all but the last part, then
      `m`, then the last part. */
  lemma SplitManyParts(s: string, m: string)
    requires |m| > 0 && |SplitOn(s, m)| >= 2
    ensures s == Join(SplitOn(s, m)[..|SplitOn(s, m)| - 1], m) + m + Last(SplitOn(s, m))
  {
    SplitJoin(s, m);
    JoinSnoc(SplitOn(s, m), m);
  }

  /** With two or more parts, `m` occurs in `s`, and `s` ends with `m`
      followed by the last part. */
  lemma SplitManyPartsEnd(s: string, m: string)
    requires |m| > 0 && |SplitOn(s, m)| >= 2
    ensures Contains(s, m)
    ensures |m| + |Last(SplitOn(s, m))| <= |s|
    ensures s[|s| - |m| - |Last(SplitOn(s, m))|..] == m + Last(SplitOn(s, m))
  {
    var parts := SplitOn(s, m);
    var front := Join(parts[..|parts| - 1], m);
    var last := Last(parts);
    SplitManyParts(s, m);
    ContainsMiddle(front, m, last);
    EndsWithLastTwo(s, front, m, last);
  }

  /** A text made of `a`, `m` and `b` ends with `m + b`. */
  lemma EndsWithLastTwo(s: string, a: string, m: string, b: string)
    requires s == a + m + b
    ensures |m| + |b| <= |s| && s[|s| - |m| - |b|..] == m + b
  {
    assert s[|a|..] == m + b;
  }

  /** The last part of `s.split(m)` is the text after the last occurrence of
      `m`: it holds no `m`, `s` ends with `m` followed by it when `m` occurs,
      and it is all of `s` when `m` does not occur. */
  lemma SplitLastIsTextAfterLastMarker(s: string, m: string)
    requires |m| > 0
    ensures !Contains(Last(SplitOn(s, m)), m)
    ensures Contains(s, m) ==>
              |m| + |Last(SplitOn(s, m))| <= |s| &&
              s[|s| - |m| - |Last(SplitOn(s, m))|..] == m + Last(SplitOn(s, m))
    ensures !Contains(s, m) ==> Last(SplitOn(s, m)) == s
  {
    var parts := SplitOn(s, m);
    SplitPartsAvoidSeparator(s, m);
    assert !Contains(parts[|parts| - 1], m);
    if |parts| == 1 {
      SplitJoin(s, m);
      assert Join(parts, m) == parts[0];
    } else {
      SplitManyPartsEnd(s, m);
    }
  }

  /** A prefix of the first part of a split: if no separator starts in the
      first `n` characters of `t`, those characters all lie in the first part. */
  lemma {:induction false} FirstPartCovers(t: string, sep: string, n: nat)
    requires |sep| > 0
    requires n <= |t|
    requires forall j :: 0 <= j < n ==> !StartsWith(t[j..], sep)
    ensures n <= |SplitOn(t, sep)[0]| && SplitOn(t, sep)[0][..n] == t[..n]
    decreases n
  {
    if n > 0 {
      assert t[0..] == t;
      var rest := SplitOn(t[1..], sep);
      forall j | 0 <= j < n - 1
        ensures !StartsWith(t[1..][j..], sep)
      {
        assert t[1..][j..] == t[j + 1..];
      }
      FirstPartCovers(t[1..], sep, n - 1);
      assert ([t[0]] + rest[0])[..n] == [t[0]] + rest[0][..n - 1];
      assert t[..n] == [t[0]] + t[1..][..n - 1];
    }
  }

  /** When a one-character separator does not occur in `m`, any occurrence of
      `m` in `s` lies wholly inside one part of `s.split(sep)`. */
  lemma {:induction false} ContainedInSomePart(s: string, sep: string, m: string)
    requires |sep| == 1 && sep[0] !in m
    requires Contains(s, m)
    ensures exists k :: 0 <= k < |SplitOn(s, sep)| && Contains(SplitOn(s, sep)[k], m)
    decreases |s|
  {
    var parts := SplitOn(s, sep);
    if |s| == 0 {
      assert StartsWith(parts[0], m);
    } else if StartsWith(s, sep) {
      if StartsWith(s, m) {
        assert |m| == 0;
        assert StartsWith(parts[0], m);
      } else {
        ContainedInSomePart(s[1..], sep, m);
        var k :| 0 <= k < |SplitOn(s[1..], sep)| && Contains(SplitOn(s[1..], sep)[k], m);
        assert parts[k + 1] == SplitOn(s[1..], sep)[k];
      }
    } else {
      var rest := SplitOn(s[1..], sep);
      if StartsWith(s, m) {
        forall j | 0 <= j < |m|
          ensures !StartsWith(s[j..], sep)
        {
          assert s[j..][0] == s[j] == m[j];
        }
        FirstPartCovers(s, sep, |m|);
        assert StartsWith(parts[0], m);
      } else {
        ContainedInSomePart(s[1..], sep, m);
        var k :| 0 <= k < |rest| && Contains(rest[k], m);
        if k == 0 {
          assert parts[0][1..] == rest[0];
          assert Contains(parts[0], m);
        } else {
          assert parts[k] == rest[k];
        }
      }
    }
  }

  /** When some line contains `m`, the filtered list is non-empty and its
      head is the earliest such line. */
  lemma {:induction false} FirstHit(lines: seq<string>, m: string, k: nat)
    requires k < |lines| && Contains(lines[k], m)
    ensures |LinesContaining(lines, m)| > 0
    ensures exists i :: 0 <= i <= k && lines[i] == LinesContaining(lines, m)[0] &&
                        Contains(lines[i], m) &&
                        forall j :: 0 <= j < i ==> !Contains(lines[j], m)
    decreases k
  {
    if !Contains(lines[0], m) {
      FirstHit(lines[1..], m, k - 1);
      var i :| 0 <= i <= k - 1 && lines[1..][i] == LinesContaining(lines[1..], m)[0] &&
               Contains(lines[1..][i], m) &&
               forall j :: 0 <= j < i ==> !Contains(lines[1..][j], m);
      assert lines[i + 1] == lines[1..][i];
      forall j | 0 <= j < i + 1
        ensures !Contains(lines[j], m)
      {
        if j > 0 {
          assert lines[j] == lines[1..][j - 1];
        }
      }
    } else {
      assert lines[0] == LinesContaining(lines, m)[0];
    }
  }
}
