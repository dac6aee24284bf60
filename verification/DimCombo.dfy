/**
 * The canonical `dim_combo` text of a monetization cell: the active dimensions in name
 * order, each written `name=value` with the value escaped, joined by `|`.
 *
 * Each loop of the encoder and decoder is a method proved equal to a recursive function;
 * the theorems (round trip, injectivity, order independence) are about those functions.
 */
module DimCombo {
  import opened Strings

  const UNKNOWN_VALUE := "unknown"
  const OTHER_VALUE := "other"
  const ALL_DIMENSIONS: seq<string> := [
    "level_bucket", "region", "in_game_state", "payer_tier", "days_since_install", "sessions_before_purchase"
  ]
  const CLIENT_DIMENSIONS: set<string> := {"level_bucket", "region", "in_game_state", "sessions_before_purchase"}
  const SERVER_DIMENSIONS: set<string> := {"payer_tier", "install_cohort", "days_since_install"}

  /** The two structural delimiters of the grammar. */
  const DELIMITERS: set<char> := {'|', '='}

  // ---- Escaping one value ----------------------------------------------------

  /** Three global replaces, backslash first. */
  function SanitizeValue(value: string): string {
    ReplaceAll(ReplaceAll(ReplaceAll(value, '\\', "\\\\"), '|', "\\|"), '=', "\\=")
  }

  /** The three sequential replaces never re-escape each other's output. */
  lemma {:induction false} SanitizeIsSinglePass(value: string)
    ensures SanitizeValue(value) == Escape(value, DELIMITERS)
  {
    if value != "" {
      var head, tail := [value[0]], value[1..];
      assert value == head + tail;
      SanitizeIsSinglePass(tail);
      ReplaceAllConcat(head, tail, '\\', "\\\\");
      var h1 := ReplaceAll(head, '\\', "\\\\");
      var t1 := ReplaceAll(tail, '\\', "\\\\");
      ReplaceAllConcat(h1, t1, '|', "\\|");
      var h2 := ReplaceAll(h1, '|', "\\|");
      var t2 := ReplaceAll(t1, '|', "\\|");
      ReplaceAllConcat(h2, t2, '=', "\\=");
      SanitizeOneChar(value[0]);
    }
  }

  lemma {:induction false} SanitizeOneChar(c: char)
    ensures SanitizeValue([c]) == if c == '\\' || c in DELIMITERS then ['\\', c] else [c]
  {
    ReplaceOneChar(c, '\\', "\\\\");
    if c == '\\' {
      ReplaceTwoChars('\\', '\\', '|', "\\|");
      ReplaceTwoChars('\\', '\\', '=', "\\=");
    } else {
      ReplaceOneChar(c, '|', "\\|");
      if c == '|' {
        ReplaceTwoChars('\\', '|', '=', "\\=");
      } else {
        ReplaceOneChar(c, '=', "\\=");
      }
    }
  }

  lemma {:induction false} ReplaceOneChar(a: char, c: char, sub: string)
    ensures ReplaceAll([a], c, sub) == if a == c then sub else [a]
  {
    assert [a][1..] == "";
  }

  lemma {:induction false} ReplaceTwoChars(a: char, b: char, c: char, sub: string)
    requires a != c && b != c
    ensures ReplaceAll([a, b], c, sub) == [a, b]
  {
    ReplaceOneChar(b, c, sub);
    assert [a, b][1..] == [b];
  }

  // ---- Scanning around escapes -----------------------------------------------

  /** The pieces of `cur + s` between un-escaped `sep`s, `cur` being already scanned. */
  function Pieces(s: string, sep: char, cur: string): (r: seq<string>)
    ensures |r| > 0
    decreases |s|
  {
    if s == "" then [cur]
    else if s[0] == '\\' && |s| > 1 then Pieces(s[2..], sep, cur + s[..2])
    else if s[0] == sep then [cur] + Pieces(s[1..], sep, "")
    else Pieces(s[1..], sep, cur + [s[0]])
  }

  method SplitUnescaped(s: string, sep: char) returns (parts: seq<string>)
    ensures parts == Pieces(s, sep, "")
  {
    parts := [];
    var current := "";
    var i := 0;
    while i < |s|
      invariant 0 <= i <= |s|
      invariant parts + Pieces(s[i..], sep, current) == Pieces(s, sep, "")
    {
      if s[i] == '\\' && i + 1 < |s| {
        assert s[i..][2..] == s[i + 2..] && s[i..][..2] == [s[i], s[i + 1]];
        current := current + [s[i], s[i + 1]];
        i := i + 2;
      } else {
        assert s[i..][1..] == s[i + 1..];
        if s[i] == sep {
          parts, current := parts + [current], "";
        } else {
          current := current + [s[i]];
        }
        i := i + 1;
      }
    }
    parts := parts + [current];
  }

  // ---- Building --------------------------------------------------------------

  /** The value a component is written with: absent and empty both mean `unknown`. */
  function ValueOf(resolved: map<string, string>, dim: string): string {
    if dim !in resolved || resolved[dim] == "" then UNKNOWN_VALUE else resolved[dim]
  }

  function Component(dim: string, value: string): string {
    dim + "=" + SanitizeValue(value)
  }

  function Components(dims: seq<string>, resolved: map<string, string>): seq<string> {
    seq(|dims|, i requires 0 <= i < |dims| => Component(dims[i], ValueOf(resolved, dims[i])))
  }

  /** `parts.join('|')`. */
  function Join(parts: seq<string>): string {
    if |parts| == 0 then ""
    else if |parts| == 1 then parts[0]
    else parts[0] + "|" + Join(parts[1..])
  }

  function DimComboOf(activeDims: seq<string>, resolved: map<string, string>): string {
    Join(Components(Sorted(activeDims), resolved))
  }

  method BuildDimCombo(activeDims: seq<string>, resolved: map<string, string>) returns (combo: string)
    ensures combo == DimComboOf(activeDims, resolved)
  {
    hide SanitizeValue;
    var parts: seq<string> := [];
    var sorted := Sorted(activeDims);
    var i := 0;
    while i < |sorted|
      invariant 0 <= i <= |sorted|
      invariant parts == Components(sorted, resolved)[..i]
    {
      var raw := if sorted[i] in resolved then resolved[sorted[i]] else "";
      var value := if raw == "" then UNKNOWN_VALUE else raw;
      parts := parts + [sorted[i] + "=" + SanitizeValue(value)];
      i := i + 1;
    }
    assert parts == Components(sorted, resolved);
    combo := Join(parts);
  }

  // ---- Parsing ---------------------------------------------------------------

  /** A component without a name, or without an un-escaped `=`, is skipped. */
  function AddComponent(out: map<string, string>, component: string): map<string, string> {
    var eq := UnescapedIndex(component, '=', 0);
    if eq <= 0 then out else out[component[..eq] := Unescape(component[eq + 1..])]
  }

  function AddComponents(out: map<string, string>, components: seq<string>): map<string, string>
    decreases |components|
  {
    if components == [] then out
    else AddComponents(AddComponent(out, components[0]), components[1..])
  }

  function ParsedCombo(combo: string): map<string, string> {
    if combo == "" then map[] else AddComponents(map[], Pieces(combo, '|', ""))
  }

  method ParseDimCombo(combo: string) returns (out: map<string, string>)
    ensures out == ParsedCombo(combo)
  {
    out := map[];
    if combo == "" {
      return;
    }
    var components := SplitUnescaped(combo, '|');
    var i := 0;
    while i < |components|
      invariant 0 <= i <= |components|
      invariant AddComponents(out, components[i..]) == AddComponents(map[], components)
    {
      assert components[i..][1..] == components[i + 1..];
      var eq := IndexOfUnescaped(components[i], '=');
      if eq > 0 {
        var value := Unsanitize(components[i][eq + 1..]);
        out := out[components[i][..eq] := value];
      }
      i := i + 1;
    }
  }

  predicate DimComboHas(combo: string, dimension: string) {
    dimension in ParsedCombo(combo)
  }

  // ---- Round trip ------------------------------------------------------------

  /** A dimension name the grammar can carry: non-empty, no delimiter, no backslash. */
  predicate PlainName(dim: string) {
    dim != "" && Plain(dim, DELIMITERS)
  }

  /** Every dimension the configuration lets through is such a name. */
  lemma {:induction false} KnownDimensionsArePlain(dim: string)
    requires dim in ALL_DIMENSIONS
    ensures PlainName(dim)
  {
  }

  lemma {:induction false} PiecesOfInert(s: string, rest: string, sep: char, cur: string)
    requires Inert(s, sep)
    ensures Pieces(s + rest, sep, cur) == Pieces(rest, sep, cur + s)
    decreases |s|
  {
    if s == "" {
      assert s + rest == rest && cur + s == cur;
    } else if s[0] == '\\' {
      PiecesOfInert(s[2..], rest, sep, cur + s[..2]);
      assert (s + rest)[2..] == s[2..] + rest && (s + rest)[..2] == s[..2];
      assert cur + s[..2] + s[2..] == cur + s;
    } else {
      PiecesOfInert(s[1..], rest, sep, cur + [s[0]]);
      assert (s + rest)[1..] == s[1..] + rest;
      assert cur + [s[0]] + s[1..] == cur + s;
    }
  }

  lemma {:induction false} PiecesOfJoin(parts: seq<string>)
    requires parts != [] && forall p :: p in parts ==> Inert(p, '|')
    ensures Pieces(Join(parts), '|', "") == parts
  {
    var first := parts[0];
    assert "" + first == first;
    if |parts| == 1 {
      PiecesOfInert(first, "", '|', "");
      assert first + "" == first && parts == [first];
    } else {
      var rest := "|" + Join(parts[1..]);
      assert Join(parts) == first + rest;
      PiecesOfInert(first, rest, '|', "");
      assert rest[1..] == Join(parts[1..]);
      PiecesOfJoin(parts[1..]);
      assert parts == [first] + parts[1..];
    }
  }

  lemma {:induction false} ComponentShape(out: map<string, string>, dim: string, value: string)
    requires PlainName(dim)
    ensures Inert(Component(dim, value), '|')
    ensures AddComponent(out, Component(dim, value)) == out[dim := value]
  {
    var c := Component(dim, value);
    SanitizeIsSinglePass(value);
    PlainInert(dim, DELIMITERS, '|');
    EscapeInert(value, DELIMITERS, '|');
    assert "="[1..] == "";
    InertConcat(dim, "=", '|');
    InertConcat(dim + "=", SanitizeValue(value), '|');
    PlainInert(dim, DELIMITERS, '=');
    UnescapedIndexAfterInert(dim, '=', SanitizeValue(value), 0);
    assert c[..|dim|] == dim && c[|dim| + 1..] == SanitizeValue(value);
    UnescapeEscape(value, DELIMITERS);
  }

  /** What a combo over `dims` should decode to. */
  function Resolution(dims: seq<string>, resolved: map<string, string>): map<string, string> {
    map d | d in dims :: ValueOf(resolved, d)
  }

  lemma {:induction false} ComponentsDecode(out: map<string, string>, dims: seq<string>, resolved: map<string, string>)
    requires forall d :: d in dims ==> PlainName(d)
    ensures forall p :: p in Components(dims, resolved) ==> Inert(p, '|')
    ensures AddComponents(out, Components(dims, resolved)) == out + Resolution(dims, resolved)
    decreases |dims|
  {
    hide Component, AddComponent, ValueOf, PlainName, Inert;
    if dims != [] {
      var value := ValueOf(resolved, dims[0]);
      ComponentShape(out, dims[0], value);
      ComponentsDecode(out[dims[0] := value], dims[1..], resolved);
      var parts := Components(dims, resolved);
      assert parts[0] == Component(dims[0], value);
      assert parts[1..] == Components(dims[1..], resolved);
      assert out + Resolution(dims, resolved) == out[dims[0] := value] + Resolution(dims[1..], resolved);
      assert forall p :: p in parts ==> p == parts[0] || p in parts[1..];
    }
  }

  /** Parsing a built combo gives back exactly the resolved values, whatever chars they hold. */
  lemma {:induction false} DimComboRoundTrip(activeDims: seq<string>, resolved: map<string, string>)
    requires forall d :: d in activeDims ==> PlainName(d)
    ensures ParsedCombo(DimComboOf(activeDims, resolved)) == Resolution(activeDims, resolved)
  {
    hide PlainName, Sorted, AddComponents, ValueOf, Inert;
    var sorted := Sorted(activeDims);
    SortedMembers(activeDims);
    var parts := Components(sorted, resolved);
    ComponentsDecode(map[], sorted, resolved);
    assert Resolution(sorted, resolved) == Resolution(activeDims, resolved);
    if sorted != [] {
      hide Resolution;
      PiecesOfJoin(parts);
      assert |Join(parts)| >= |parts[0]| > 0;
    }
  }

  /** Two builds agree exactly when they name the same dimensions with the same values. */
  lemma {:induction false} DimComboInjective(dims1: seq<string>, resolved1: map<string, string>,
                          dims2: seq<string>, resolved2: map<string, string>)
    requires forall d :: d in dims1 ==> PlainName(d)
    requires forall d :: d in dims2 ==> PlainName(d)
    requires multiset(dims1) == multiset(dims2)
    ensures DimComboOf(dims1, resolved1) == DimComboOf(dims2, resolved2)
       <==> Resolution(dims1, resolved1) == Resolution(dims2, resolved2)
  {
    hide Component, ParsedCombo, ValueOf, PlainName, Sorted;
    DimComboRoundTrip(dims1, resolved1);
    DimComboRoundTrip(dims2, resolved2);
    SortedPermutation(dims1, dims2);
    if Resolution(dims1, resolved1) == Resolution(dims2, resolved2) {
      SortedMembers(dims1);
      SortedMembers(dims2);
      forall d | d in Sorted(dims1) ensures ValueOf(resolved1, d) == ValueOf(resolved2, d) {
        assert Resolution(dims1, resolved1)[d] == Resolution(dims2, resolved2)[d];
      }
      assert Components(Sorted(dims1), resolved1) == Components(Sorted(dims1), resolved2);
    }
  }

  /** Reordering the configured dimensions never re-keys a cell. */
  lemma {:induction false} DimComboOrderIndependent(dims1: seq<string>, dims2: seq<string>,
                                                    resolved: map<string, string>)
    requires multiset(dims1) == multiset(dims2)
    ensures DimComboOf(dims1, resolved) == DimComboOf(dims2, resolved)
  {
    SortedPermutation(dims1, dims2);
  }

  /** A combo has a slice for a dimension exactly when that dimension was active. */
  lemma {:induction false} DimComboHasActive(activeDims: seq<string>, resolved: map<string, string>, dimension: string)
    requires forall d :: d in activeDims ==> PlainName(d)
    ensures DimComboHas(DimComboOf(activeDims, resolved), dimension) <==> dimension in activeDims
  {
    DimComboRoundTrip(activeDims, resolved);
  }

  /** The written form of two dimensions, in name order whatever order they are configured in. */
  lemma {:induction false} TwoDimsFormat(d1: string, d2: string, v1: string, v2: string)
    requires LexLess(d1, d2) && v1 != "" && v2 != ""
    ensures var resolved := map[d1 := v1, d2 := v2];
      && DimComboOf([d1, d2], resolved) == d1 + "=" + SanitizeValue(v1) + "|" + d2 + "=" + SanitizeValue(v2)
      && DimComboOf([d2, d1], resolved) == DimComboOf([d1, d2], resolved)
  {
    hide SanitizeValue;
    LexLessTrichotomy(d1, d2);
    var resolved := map[d1 := v1, d2 := v2];
    assert [d1, d2][1..] == [d2] && [d2, d1][1..] == [d1] && [d2][1..] == [] && [d1][1..] == [];
    hide LexLess;
    SortedTwo(d1, d2);
    var parts := Components([d1, d2], resolved);
    assert parts == [Component(d1, v1), Component(d2, v2)];
    assert parts[1..] == [Component(d2, v2)];
    assert Join(parts) == parts[0] + "|" + parts[1];
  }

  lemma {:induction false} SortedTwo(d1: string, d2: string)
    requires LexLess(d1, d2)
    ensures Sorted([d1, d2]) == [d1, d2] && Sorted([d2, d1]) == [d1, d2]
  {
    LexLessTrichotomy(d1, d2);
    hide LexLess;
    assert [d1, d2][1..] == [d2] && [d2, d1][1..] == [d1] && [d2][1..] == [] && [d1][1..] == [];
    assert Sorted([]) == [];
    assert Insert(d2, []) == [d2] && Insert(d1, []) == [d1];
    assert Sorted([d2]) == [d2] && Sorted([d1]) == [d1];
    assert Insert(d1, [d2]) == [d1] + [d2];
    assert Insert(d2, [d1]) == [d1] + Insert(d2, []);
  }

  /** A delimiter or a backslash in a value is written with a backslash before it. */
  lemma ValueFormat()
    ensures SanitizeValue("a|b") == "a\\|b" && SanitizeValue("a=b") == "a\\=b" && SanitizeValue("a\\b") == "a\\\\b"
  {
    SanitizeIsSinglePass("a|b");
    SanitizeIsSinglePass("a=b");
    SanitizeIsSinglePass("a\\b");
    hide SanitizeValue;
  }
}
