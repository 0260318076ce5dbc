/** The string operations the system relies on, on both sides of the wire:
    Python's `str.strip`, `str.split(',')`, `', '.join`, `in` and
    `str.replace(token, "")`, and JavaScript's `trim`, `startsWith` and
    `indexOf`. Strings are `seq<char>`. */
module Text {
  import opened Common

  /** The ASCII whitespace both `str.strip()` and `String.prototype.trim()`
      remove: space, tab, line feed, vertical tab, form feed and carriage
      return. Python's `strip` also removes the separators 0x1C to 0x1F,
      which `trim` keeps. */
  predicate IsSpace(c: char)
  {
    c == ' ' || c == '\t' || c == '\n' || c == '\r' || c as int == 11 || c as int == 12
  }

  predicate AllSpace(s: string)
  {
    forall k :: 0 <= k < |s| ==> IsSpace(s[k])
  }

  /** Drops the leading whitespace. */
  function TrimStart(s: string): (r: string)
    ensures |r| <= |s| && r == s[|s| - |r|..]
    ensures r == [] || !IsSpace(r[0])
  {
    if s != [] && IsSpace(s[0]) then TrimStart(s[1..]) else s
  }

  /** What `TrimStart` drops is whitespace. */
  lemma {:induction false} TrimStartDropsSpace(s: string)
    ensures AllSpace(s[..|s| - |TrimStart(s)|])
  {
    if s != [] && IsSpace(s[0]) {
      TrimStartDropsSpace(s[1..]);
      assert s[..|s| - |TrimStart(s)|] == [s[0]] + s[1..][..|s[1..]| - |TrimStart(s[1..])|];
    }
  }

  /** Drops the trailing whitespace. */
  function TrimEnd(s: string): (r: string)
    ensures |r| <= |s| && r == s[..|r|]
    ensures r == [] || !IsSpace(r[|r| - 1])
  {
    if s != [] && IsSpace(s[|s| - 1]) then TrimEnd(s[..|s| - 1]) else s
  }

  /** What `TrimEnd` drops is whitespace. */
  lemma {:induction false} TrimEndDropsSpace(s: string)
    ensures AllSpace(s[|TrimEnd(s)|..])
  {
    if s != [] && IsSpace(s[|s| - 1]) {
      var p := s[..|s| - 1];
      TrimEndDropsSpace(p);
      assert s[|TrimEnd(s)|..] == p[|TrimEnd(p)|..] + [s[|s| - 1]];
    }
  }

  /** `s.strip()` in Python, `s.trim()` in JavaScript. */
  function Strip(s: string): (r: string)
  {
    TrimEnd(TrimStart(s))
  }

  /** Neither end of the stripped text is whitespace. */
  lemma StripEnds(s: string)
    ensures Strip(s) == [] || (!IsSpace(Strip(s)[0]) && !IsSpace(Strip(s)[|Strip(s)| - 1]))
  {
    var t := TrimStart(s);
    if Strip(s) != [] {
      assert Strip(s)[0] == t[0];
    }
  }

  /** Text with nothing but whitespace strips to the empty string, and only
      such text does. */
  lemma StripEmptyIffAllSpace(s: string)
    ensures Strip(s) == [] <==> AllSpace(s)
  {
    if Strip(s) == [] {
      StripEmptyAllSpace(s);
    } else {
      StripNonEmptyNotAllSpace(s);
    }
  }

  /** Text that strips to nothing is all whitespace. */
  lemma StripEmptyAllSpace(s: string)
    requires Strip(s) == []
    ensures AllSpace(s)
  {
    var t := TrimStart(s);
    TrimStartDropsSpace(s);
    assert t == [] by {
      TrimEndDropsSpace(t);
      assert t[0..] == t;
    }
    assert s[..|s|] == s;
  }

  /** Text that keeps something after a strip has a non-whitespace
      character: the first one kept. */
  lemma StripNonEmptyNotAllSpace(s: string)
    requires Strip(s) != []
    ensures !AllSpace(s)
  {
    var t := TrimStart(s);
    assert t != [];
    assert s[|s| - |t|] == t[0];
  }

  /** Leading whitespace does not survive a strip. */
  lemma {:induction false} StripLeadingSpace(c: char, s: string)
    requires IsSpace(c)
    ensures Strip([c] + s) == Strip(s)
  {
    assert ([c] + s)[1..] == s;
  }

  /** Stripping twice is stripping once. */
  lemma StripIdempotent(s: string)
    ensures Strip(Strip(s)) == Strip(s)
  {
    var r := Strip(s);
    if r != [] {
      StripEnds(s);
      assert TrimStart(r) == r;
      assert TrimEnd(r) == r;
    }
  }

  /** `p` is a prefix of `s` (`s.startsWith(p)`). */
  predicate StartsWith(s: string, p: string)
  {
    |p| <= |s| && s[..|p|] == p
  }

  /** `t` occurs in `s` starting at index `i`. */
  predicate OccursAt(s: string, t: string, i: int)
  {
    0 <= i <= |s| - |t| && s[i..i + |t|] == t
  }

  /** `t in s` for strings: `t` occurs in `s` as a contiguous piece. */
  predicate Contains(s: string, t: string)
  {
    exists i | 0 <= i <= |s| :: OccursAt(s, t, i)
  }

  /** A piece of a concatenation occurs in it. */
  lemma ContainsMiddle(a: string, t: string, b: string)
    ensures Contains(a + t + b, t)
  {
    var s := a + t + b;
    assert s[|a|..|a| + |t|] == t;
    assert OccursAt(s, t, |a|);
  }

  lemma ContainsPrefix(t: string, b: string)
    ensures Contains(t + b, t)
  {
    assert (t + b)[..|t|] == t;
    assert OccursAt(t + b, t, 0);
  }

  lemma ContainsSuffix(a: string, t: string)
    ensures Contains(a + t, t)
  {
    assert (a + t)[|a|..] == t;
    assert OccursAt(a + t, t, |a|);
  }

  /** What occurs in a string occurs in any longer string around it. */
  lemma ContainsExtend(a: string, s: string, b: string, t: string)
    requires Contains(s, t)
    ensures Contains(a + s, t) && Contains(s + b, t)
  {
    var i :| 0 <= i <= |s| && OccursAt(s, t, i);
    assert (a + s)[|a| + i..|a| + i + |t|] == s[i..i + |t|];
    assert OccursAt(a + s, t, |a| + i);
    assert (s + b)[i..i + |t|] == s[i..i + |t|];
    assert OccursAt(s + b, t, i);
  }

  /** Three adjacent pieces of a concatenation occur together in it. */
  lemma ContainsAdjacent(a: string, x: string, y: string, z: string)
    ensures Contains(a + x + y + z, x + y + z)
  {
    assert a + x + y + z == a + (x + y + z);
    ContainsSuffix(a, x + y + z);
  }

  /** Between a fixed lead and a fixed tail, the middle is determined by
      the whole. */
  lemma FramedDetermined(p: string, l: string, x1: string, x2: string, f: string)
    ensures p + (l + x1 + f) == p + (l + x2 + f) <==> x1 == x2
  {
    if p + (l + x1 + f) == p + (l + x2 + f) {
      var w := p + (l + x1 + f);
      assert |x1| == |x2|;
      assert x1 == w[|p| + |l|..|p| + |l| + |x1|];
      assert x2 == (p + (l + x2 + f))[|p| + |l|..|p| + |l| + |x2|];
    }
  }

  /** A string whose characters avoid `c` contains no text that starts with `c`. */
  lemma NotContainsWithoutChar(s: string, t: string)
    requires |t| > 0 && t[0] !in s
    ensures !Contains(s, t)
  {
    forall i | 0 <= i <= |s| ensures !OccursAt(s, t, i) {
      if i <= |s| - |t| {
        assert s[i..i + |t|][0] == s[i];
      }
    }
  }

  /** JavaScript's `s.indexOf(c)` for a one-character needle: the first index
      of `c`, or -1 when there is none. */
  function IndexOf(s: string, c: char): (r: int)
    ensures -1 <= r < |s|
    ensures r == -1 <==> c !in s
    ensures r >= 0 ==> s[r] == c && c !in s[..r]
  {
    if s == [] then -1
    else if s[0] == c then 0
    else
      var k := IndexOf(s[1..], c);
      assert s[1..][..if k < 0 then 0 else k] == s[1..if k < 0 then 1 else k + 1];
      if k < 0 then -1 else k + 1
  }

  /** Number of occurrences of the character `c` in `s`. */
  function Count(s: string, c: char): nat
  {
    if s == [] then 0 else (if s[0] == c then 1 else 0) + Count(s[1..], c)
  }

  /** `sep.join(pieces)` in Python. */
  function Join(pieces: seq<string>, sep: string): string
  {
    if pieces == [] then ""
    else if |pieces| == 1 then pieces[0]
    else pieces[0] + sep + Join(pieces[1..], sep)
  }

  /** `s.split(c)` in Python for a one-character separator: the pieces
      between separators, empty ones included, so there is always one more
      piece than there are separators, no piece holds the separator, and
      joining the pieces with the separator gives back `s`. */
  function Split(s: string, c: char): (r: seq<string>)
    ensures |r| == Count(s, c) + 1
    ensures forall k :: 0 <= k < |r| ==> c !in r[k]
    ensures Join(r, [c]) == s
  {
    if s == [] then [""]
    else
      var rest := Split(s[1..], c);
      if s[0] == c then
        assert [""] + rest == [""] + rest;
        [""] + rest
      else
        var r := [[s[0]] + rest[0]] + rest[1..];
        assert r[1..] == rest[1..];
        assert s == [s[0]] + s[1..];
        r
  }

  /** Python's `s.replace(t, "")`: scanning left to right, every
      non-overlapping occurrence of `t` is cut out. */
  function RemoveAll(s: string, t: string): (r: string)
    requires |t| > 0
    decreases |s|
  {
    if |s| < |t| then s
    else if s[..|t|] == t then RemoveAll(s[|t|..], t)
    else [s[0]] + RemoveAll(s[1..], t)
  }

  /** Removal never lengthens the text. */
  lemma {:induction false} RemoveAllLength(s: string, t: string)
    requires |t| > 0
    ensures |RemoveAll(s, t)| <= |s|
    decreases |s|
  {
    if |s| < |t| {
    } else if s[..|t|] == t {
      RemoveAllLength(s[|t|..], t);
    } else {
      RemoveAllLength(s[1..], t);
    }
  }

  /** Text without `t` is left exactly as it was. */
  lemma {:induction false} RemoveAllAbsent(s: string, t: string)
    requires |t| > 0 && !Contains(s, t)
    ensures RemoveAll(s, t) == s
    decreases |s|
  {
    if |s| < |t| {
    } else {
      assert !OccursAt(s, t, 0);
      assert s[..|t|] != t;
      forall i | 0 <= i <= |s[1..]| ensures !OccursAt(s[1..], t, i) {
        if OccursAt(s[1..], t, i) {
          assert s[i + 1..i + 1 + |t|] == s[1..][i..i + |t|];
          assert OccursAt(s, t, i + 1);
        }
      }
      RemoveAllAbsent(s[1..], t);
    }
  }

  /** Cutting the occurrences out may join two pieces into a new one: the
      result of `replace` can still contain `t`. */
  lemma RemoveAllCanReassemble()
    ensures RemoveAll("[[x]x]", "[x]") == "[x]"
  {
    var t := "[x]";
    var s := "[[x]x]";
    assert s[..3][1] != t[1];
    assert s[1..][..3] == t;
    assert s[1..][3..] == "x]";
    assert "x]"[..0] == [];
    calc {
      RemoveAll(s, t);
      [s[0]] + RemoveAll(s[1..], t);
      [s[0]] + RemoveAll(s[1..][3..], t);
      [s[0]] + RemoveAll("x]", t);
      "[x]";
    }
  }

  /** Text without the separator is a single piece. */
  lemma {:induction false} SplitWithout(a: string, c: char)
    requires c !in a
    ensures Split(a, c) == [a]
  {
    if a != [] {
      SplitWithout(a[1..], c);
    }
  }

  /** Splitting at the first separator: the text before it is the first
      piece and the rest is split on. */
  lemma {:induction false} SplitAtFirst(a: string, c: char, b: string)
    requires c !in a
    ensures Split(a + [c] + b, c) == [a] + Split(b, c)
  {
    if a == [] {
      assert [] + [c] + b == [c] + b;
      assert ([c] + b)[1..] == b;
    } else {
      var s := a + [c] + b;
      assert s[1..] == a[1..] + [c] + b;
      SplitAtFirst(a[1..], c, b);
      assert [a[0]] + a[1..] == a;
    }
  }

  /** A leading character other than the separator joins the first piece. */
  lemma SplitConsOther(x: char, s: string, c: char)
    requires x != c
    ensures Split([x] + s, c) == [[x] + Split(s, c)[0]] + Split(s, c)[1..]
  {
    assert ([x] + s)[1..] == s;
  }

  /** Joining a single piece gives the piece. */
  lemma JoinSingle(pieces: seq<string>, sep: string)
    requires |pieces| == 1
    ensures Join(pieces, sep) == pieces[0]
  {
  }
}
