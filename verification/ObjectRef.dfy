/**
 * The object key of a game's raw day-file.
 */
module ObjectRef {
  import opened Basics

  const RAW_OBJECT_PREFIX := "raw/"
  const RAW_SUFFIX := ".rawlog"

  predicate HasDotDot(s: string) {
    exists i :: 0 <= i < |s| - 1 && s[i] == '.' && s[i + 1] == '.'
  }

  predicate LegalSegment(s: string) {
    '/' !in s && !HasDotDot(s)
  }

  /** Path separators and parent steps are refused. */
  function ObjectRefFor(game: string, day: string): Option<string> {
    if !LegalSegment(game) || !LegalSegment(day) then None
    else Some(RAW_OBJECT_PREFIX + game + "/" + day + RAW_SUFFIX)
  }

  /** The prefix a game's raw expiry is scoped to. */
  function GamePrefix(game: string): string {
    RAW_OBJECT_PREFIX + game + "/"
  }

  function SlashAt(s: string): nat {
    if s == "" || s[0] == '/' then 0 else 1 + SlashAt(s[1..])
  }

  lemma {:induction false} SlashAfter(a: string, x: string)
    requires '/' !in a
    ensures SlashAt(a + "/" + x) == |a|
  {
    if a != "" {
      SlashAfter(a[1..], x);
      assert (a + "/" + x)[1..] == a[1..] + "/" + x;
    }
  }

  lemma {:induction false} FirstSlash(a: string, x: string, b: string, y: string)
    requires '/' !in a && '/' !in b
    requires a + "/" + x <= b + "/" + y
    ensures a == b && x <= y
  {
    var s, t := a + "/" + x, b + "/" + y;
    var rest := t[|s|..];
    assert t == s + rest == a + "/" + (x + rest);
    SlashAfter(a, x + rest);
    SlashAfter(b, y);
    assert a == t[..|a|] == b;
    assert x + rest == t[|a| + 1..] == y;
  }

  /** Distinct game days get distinct keys. */
  lemma {:induction false} ObjectRefInjective(game1: string, day1: string, game2: string, day2: string)
    requires ObjectRefFor(game1, day1).Some? && ObjectRefFor(game1, day1) == ObjectRefFor(game2, day2)
    ensures game1 == game2 && day1 == day2
  {
    hide HasDotDot;
    var r1, r2 := ObjectRefFor(game1, day1).value, ObjectRefFor(game2, day2).value;
    var x1, x2 := day1 + RAW_SUFFIX, day2 + RAW_SUFFIX;
    RefTail(game1, day1);
    RefTail(game2, day2);
    FirstSlash(game1, x1, game2, x2);
    FirstSlash(game2, x2, game1, x1);
    assert day1 == x1[..|x1| - |RAW_SUFFIX|] && day2 == x2[..|x2| - |RAW_SUFFIX|];
  }

  lemma RefTail(game: string, day: string)
    requires ObjectRefFor(game, day).Some?
    ensures ObjectRefFor(game, day).value[4..] == game + "/" + (day + RAW_SUFFIX)
  {
    hide LegalSegment;
    var tail := game + "/" + (day + RAW_SUFFIX);
    assert ObjectRefFor(game, day).value == RAW_OBJECT_PREFIX + tail;
    assert |RAW_OBJECT_PREFIX| == 4;
  }

  /** A game's expiry sweep sees the keys of that game and of no other. */
  lemma {:induction false} PrefixScopesGame(game: string, day: string, swept: string)
    requires ObjectRefFor(game, day).Some? && LegalSegment(swept)
    ensures GamePrefix(swept) <= ObjectRefFor(game, day).value <==> swept == game
  {
    hide HasDotDot;
    var ref := ObjectRefFor(game, day).value;
    assert ref == GamePrefix(game) + (day + RAW_SUFFIX);
    RefTail(game, day);
    assert GamePrefix(swept)[4..] == swept + "/" + "";
    if GamePrefix(swept) <= ref {
      assert GamePrefix(swept)[4..] <= ref[4..];
      FirstSlash(swept, "", game, day + RAW_SUFFIX);
    }
  }

  /** The written form, and exactly what is refused: a slash or two dots in a row in either part. */
  lemma {:induction false} RefFormat(game: string, day: string)
    ensures ObjectRefFor(game, day).Some? ==> ObjectRefFor(game, day).value == "raw/" + game + "/" + day + ".rawlog"
    ensures ObjectRefFor(game, day).None? <==> Refused(game) || Refused(day)
    ensures GamePrefix(game) == "raw/" + game + "/"
  {
  }

  ghost predicate Refused(s: string) {
    (exists i :: 0 <= i < |s| && s[i] == '/')
    || (exists i, j :: 0 <= i < |s| && 0 <= j < |s| && j == i + 1 && s[i] == '.' && s[j] == '.')
  }
}
