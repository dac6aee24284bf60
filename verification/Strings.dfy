/**
 * The two string facts the pipeline leans on: the lexicographic order behind JavaScript's
 * default `sort()` and `<`, and backslash escaping.
 */
module Strings {

  // ---- Lexicographic order ---------------------------------------------------

  predicate LexLess(a: string, b: string) {
    if b == "" then false
    else if a == "" then true
    else if a[0] != b[0] then a[0] < b[0]
    else LexLess(a[1..], b[1..])
  }

  lemma {:induction false} LexLessTransitive(a: string, b: string, c: string)
    requires LexLess(a, b) && LexLess(b, c)
    ensures LexLess(a, c)
  {
    if a != "" && b[0] == c[0] && a[0] == b[0] {
      LexLessTransitive(a[1..], b[1..], c[1..]);
    }
  }

  /** The order is decided at the first difference, where the end of a string comes before any character. */
  lemma {:induction false} LexLessAt(a: string, b: string, i: nat)
    requires i <= |a| && i <= |b| && a[..i] == b[..i]
    ensures i < |a| && i < |b| && a[i] < b[i] ==> LexLess(a, b) && !LexLess(b, a)
    ensures i == |a| < |b| ==> LexLess(a, b) && !LexLess(b, a)
    decreases i
  {
    if i > 0 {
      assert a[0] == a[..i][0] == b[..i][0] == b[0];
      assert a[1..][..i - 1] == a[..i][1..] && b[1..][..i - 1] == b[..i][1..];
      LexLessAt(a[1..], b[1..], i - 1);
    }
  }

  /** Exactly one of `a < b`, `a == b`, `b < a`. */
  lemma {:induction false} LexLessTrichotomy(a: string, b: string)
    ensures LexLess(a, b) || a == b || LexLess(b, a)
    ensures !(LexLess(a, b) && LexLess(b, a))
    ensures a == b ==> !LexLess(a, b)
  {
    if a != "" && b != "" && a[0] == b[0] {
      LexLessTrichotomy(a[1..], b[1..]);
      assert a == [a[0]] + a[1..] && b == [b[0]] + b[1..];
    }
  }

  // ---- Sorting by name -------------------------------------------------------

  ghost predicate Ascending(names: seq<string>) {
    forall i, j :: 0 <= i < j < |names| ==> names[i] == names[j] || LexLess(names[i], names[j])
  }

  function Insert(name: string, names: seq<string>): (r: seq<string>)
    ensures multiset(r) == multiset(names) + multiset{name}
  {
    if names == [] || name == names[0] || LexLess(name, names[0]) then [name] + names
    else
      assert names == [names[0]] + names[1..];
      [names[0]] + Insert(name, names[1..])
  }

  lemma {:induction false} InsertAscending(name: string, names: seq<string>)
    requires Ascending(names)
    ensures Ascending(Insert(name, names))
  {
    var r := Insert(name, names);
    if names == [] {
    } else if name == names[0] || LexLess(name, names[0]) {
      forall j | 0 <= j < |names| ensures name == names[j] || LexLess(name, names[j]) {
        if j > 0 && name != names[0] && names[0] != names[j] {
          LexLessTransitive(name, names[0], names[j]);
        }
      }
    } else {
      var tail := Insert(name, names[1..]);
      InsertAscending(name, names[1..]);
      LexLessTrichotomy(name, names[0]);
      forall j | 0 <= j < |tail| ensures names[0] == tail[j] || LexLess(names[0], tail[j]) {
        assert tail[j] in multiset(tail);
        assert tail[j] == name || tail[j] in multiset(names[1..]);
        if tail[j] != name {
          var k :| 0 <= k < |names[1..]| && names[1..][k] == tail[j];
          assert names[k + 1] == tail[j];
        }
      }
    }
  }

  /** `[...names].sort()`. */
  function Sorted(names: seq<string>): (r: seq<string>)
    ensures multiset(r) == multiset(names)
  {
    if names == [] then []
    else
      assert names == [names[0]] + names[1..];
      Insert(names[0], Sorted(names[1..]))
  }

  lemma {:induction false} SortedAscending(names: seq<string>)
    ensures Ascending(Sorted(names))
  {
    if names != [] {
      SortedAscending(names[1..]);
      InsertAscending(names[0], Sorted(names[1..]));
    }
  }

  /** The first of an ascending sequence is no larger than any member. */
  lemma {:induction false} FirstIsLeast(names: seq<string>, n: string)
    requires Ascending(names) && n in names
    ensures names[0] == n || LexLess(names[0], n)
  {
    var i :| 0 <= i < |names| && names[i] == n;
  }

  lemma {:induction false} MultisetTail(names: seq<string>)
    requires names != []
    ensures multiset(names[1..]) == multiset(names) - multiset{names[0]}
    ensures names[0] in multiset(names)
  {
    assert names == [names[0]] + names[1..];
  }

  lemma {:induction false} AscendingUnique(a: seq<string>, b: seq<string>)
    requires Ascending(a) && Ascending(b) && multiset(a) == multiset(b)
    ensures a == b
  {
    hide LexLess;
    assert |multiset(a)| == |a| && |multiset(b)| == |b|;
    if a != [] {
      MultisetTail(a);
      MultisetTail(b);
      assert a[0] in multiset(b) && b[0] in multiset(a);
      FirstIsLeast(a, b[0]);
      FirstIsLeast(b, a[0]);
      LexLessTrichotomy(a[0], b[0]);
      AscendingUnique(a[1..], b[1..]);
      assert a == [a[0]] + a[1..] && b == [b[0]] + b[1..];
    }
  }

  lemma {:induction false} SortedMembers(names: seq<string>)
    ensures forall n :: n in Sorted(names) <==> n in names
  {
    forall n ensures n in Sorted(names) <==> n in names {
      assert n in Sorted(names) <==> n in multiset(Sorted(names));
      assert n in names <==> n in multiset(names);
    }
  }

  /** Sorting forgets the declaration order. */
  lemma {:induction false} SortedPermutation(a: seq<string>, b: seq<string>)
    requires multiset(a) == multiset(b)
    ensures Sorted(a) == Sorted(b)
  {
    SortedAscending(a);
    SortedAscending(b);
    AscendingUnique(Sorted(a), Sorted(b));
  }

  // ---- Backslash escaping ----------------------------------------------------

  /** `s.replace(/c/g, sub)`: every occurrence of `c` becomes `sub`. */
  function ReplaceAll(s: string, c: char, sub: string): string {
    if s == "" then ""
    else (if s[0] == c then sub else [s[0]]) + ReplaceAll(s[1..], c, sub)
  }

  lemma {:induction false} ReplaceAllConcat(s: string, t: string, c: char, sub: string)
    ensures ReplaceAll(s + t, c, sub) == ReplaceAll(s, c, sub) + ReplaceAll(t, c, sub)
  {
    if s == "" {
      assert s + t == t;
    } else {
      ReplaceAllConcat(s[1..], t, c, sub);
      assert (s + t)[1..] == s[1..] + t && (s + t)[0] == s[0];
      var head := if s[0] == c then sub else [s[0]];
      var mid, tail := ReplaceAll(s[1..], c, sub), ReplaceAll(t, c, sub);
      assert ReplaceAll(s + t, c, sub) == head + (mid + tail);
      assert head + (mid + tail) == (head + mid) + tail;
    }
  }

  /** One pass: a backslash goes in front of each backslash and of each char in `specials`. */
  function Escape(s: string, specials: set<char>): string {
    if s == "" then ""
    else (if s[0] == '\\' || s[0] in specials then ['\\', s[0]] else [s[0]]) + Escape(s[1..], specials)
  }

  /** Drop one level of backslashes; a trailing lone backslash stands for itself. */
  function Unescape(s: string): string {
    if s == "" then ""
    else if s[0] == '\\' && |s| > 1 then [s[1]] + Unescape(s[2..])
    else [s[0]] + Unescape(s[1..])
  }

  lemma {:induction false} UnescapeEscape(s: string, specials: set<char>)
    ensures Unescape(Escape(s, specials)) == s
  {
    if s != "" {
      UnescapeEscape(s[1..], specials);
      var rest := Escape(s[1..], specials);
      if s[0] == '\\' || s[0] in specials {
        assert Escape(s, specials)[2..] == rest;
      } else {
        assert Escape(s, specials)[1..] == rest;
      }
      assert s == [s[0]] + s[1..];
    }
  }

  lemma {:induction false} UnescapeAt(s: string, i: nat)
    requires i < |s|
    ensures Unescape(s[i..]) ==
      if s[i] == '\\' && i + 1 < |s| then [s[i + 1]] + Unescape(s[i + 2..]) else [s[i]] + Unescape(s[i + 1..])
  {
    var t := s[i..];
    assert t[1..] == s[i + 1..];
    if |t| > 1 {
      assert t[2..] == s[i + 2..];
    }
  }

  method Unsanitize(value: string) returns (out: string)
    ensures out == Unescape(value)
  {
    hide Unescape;
    out := "";
    var i := 0;
    assert value[0..] == value;
    while i < |value|
      invariant 0 <= i <= |value|
      invariant out + Unescape(value[i..]) == Unescape(value)
    {
      UnescapeAt(value, i);
      if value[i] == '\\' && i + 1 < |value| {
        assert out + ([value[i + 1]] + Unescape(value[i + 2..])) == out + [value[i + 1]] + Unescape(value[i + 2..]);
        out := out + [value[i + 1]];
        i := i + 2;
      } else {
        assert out + ([value[i]] + Unescape(value[i + 1..])) == out + [value[i]] + Unescape(value[i + 1..]);
        out := out + [value[i]];
        i := i + 1;
      }
    }
    UnescapeEmpty(value[i..]);
  }

  lemma UnescapeEmpty(s: string)
    requires s == ""
    ensures Unescape(s) == ""
  {
  }

  // ---- Scanning around escapes -----------------------------------------------

  /** Index of the first un-escaped `c` at or after `from`, or -1. */
  function UnescapedIndex(s: string, c: char, from: nat): (r: int)
    ensures r == -1 || (from <= r < |s| && s[r] == c)
    decreases |s| - from
  {
    if from >= |s| then -1
    else if s[from] == '\\' then UnescapedIndex(s, c, from + 2)
    else if s[from] == c then from
    else UnescapedIndex(s, c, from + 1)
  }

  method IndexOfUnescaped(s: string, c: char) returns (index: int)
    ensures index == UnescapedIndex(s, c, 0)
  {
    var i := 0;
    while i < |s|
      invariant 0 <= i
      invariant UnescapedIndex(s, c, i) == UnescapedIndex(s, c, 0)
    {
      if s[i] == '\\' {
        i := i + 2;
      } else if s[i] == c {
        return i;
      } else {
        i := i + 1;
      }
    }
    return -1;
  }

  /** `s` has no un-escaped `c` and does not end in the middle of an escape. */
  predicate Inert(s: string, c: char) {
    if s == "" then true
    else if s[0] == '\\' then |s| > 1 && Inert(s[2..], c)
    else s[0] != c && Inert(s[1..], c)
  }

  lemma {:induction false} InertConcat(s: string, t: string, c: char)
    requires Inert(s, c) && Inert(t, c)
    ensures Inert(s + t, c)
  {
    if s == "" {
      assert s + t == t;
    } else if s[0] == '\\' {
      InertConcat(s[2..], t, c);
      assert (s + t)[2..] == s[2..] + t;
    } else {
      InertConcat(s[1..], t, c);
      assert (s + t)[1..] == s[1..] + t;
    }
  }

  lemma {:induction false} EscapeInert(s: string, specials: set<char>, c: char)
    requires c in specials
    ensures Inert(Escape(s, specials), c)
  {
    if s != "" {
      EscapeInert(s[1..], specials, c);
      var rest := Escape(s[1..], specials);
      if s[0] == '\\' || s[0] in specials {
        assert Escape(s, specials)[2..] == rest;
      } else {
        assert Escape(s, specials)[1..] == rest;
      }
    }
  }

  /** `s` is free of backslashes and of every char in `specials`. */
  predicate Plain(s: string, specials: set<char>) {
    forall i :: 0 <= i < |s| ==> s[i] != '\\' && s[i] !in specials
  }

  lemma {:induction false} PlainInert(s: string, specials: set<char>, c: char)
    requires Plain(s, specials) && c in specials
    ensures Inert(s, c)
  {
    if s != "" {
      PlainInert(s[1..], specials, c);
    }
  }

  lemma {:induction false} UnescapedIndexAfterInert(s: string, c: char, rest: string, from: nat)
    requires from <= |s| && Inert(s[from..], c) && c != '\\'
    ensures UnescapedIndex(s + [c] + rest, c, from) == |s|
    decreases |s| - from
  {
    var whole := s + [c] + rest;
    if from < |s| {
      var next := if s[from] == '\\' then from + 2 else from + 1;
      assert whole[from] == s[from] && s[from..][next - from..] == s[next..];
      UnescapedIndexAfterInert(s, c, rest, next);
    }
  }
}
