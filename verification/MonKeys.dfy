/**
 * Hash-field names of the monetization rollup: `{product}#{dim_combo}` for a cell and
 * `{cell}#{currency}` for its per-currency local sum.
 */
module MonKeys {
  import opened Basics
  import opened Strings

  const CELL_SEP: char := '#'
  /** The reserved field that marks a bucket as rehydrated. */
  const SEEDED_MARKER_FIELD := "__seeded"

  function SanitizeProductId(productId: string): string {
    ReplaceAll(ReplaceAll(productId, '\\', "\\\\"), '#', "\\#")
  }

  lemma {:induction false} SanitizeProductIdIsSinglePass(productId: string)
    ensures SanitizeProductId(productId) == Escape(productId, {CELL_SEP})
  {
    if productId != "" {
      var c, tail := productId[0], productId[1..];
      assert productId == [c] + tail;
      SanitizeProductIdIsSinglePass(tail);
      ReplaceAllConcat([c], tail, '\\', "\\\\");
      ReplaceAllConcat(ReplaceAll([c], '\\', "\\\\"), ReplaceAll(tail, '\\', "\\\\"), '#', "\\#");
      assert [c][1..] == "" && "\\\\"[1..] == "\\";
    }
  }

  /** A currency the `loc` field grammar can carry. */
  predicate CleanCurrency(currency: string) {
    currency != "" && CELL_SEP !in currency
  }

  // ---- Cell keys -------------------------------------------------------------

  function CellKey(productId: string, dimCombo: string): string {
    SanitizeProductId(productId) + [CELL_SEP] + dimCombo
  }

  function ParsedCellKey(key: string): Option<(string, string)> {
    var i := UnescapedIndex(key, CELL_SEP, 0);
    if i == -1 then None else Some((Unescape(key[..i]), key[i + 1..]))
  }

  method ParseCellKey(key: string) returns (cell: Option<(string, string)>)
    ensures cell == ParsedCellKey(key)
  {
    var i := 0;
    while i < |key|
      invariant 0 <= i
      invariant UnescapedIndex(key, CELL_SEP, i) == UnescapedIndex(key, CELL_SEP, 0)
    {
      if key[i] == '\\' {
        i := i + 2;
      } else if key[i] == CELL_SEP {
        var productId := Unsanitize(key[..i]);
        return Some((productId, key[i + 1..]));
      } else {
        i := i + 1;
      }
    }
    return None;
  }

  /** Any product id and any combo survive the key, even ones holding `#` or backslashes. */
  lemma {:induction false} CellKeyRoundTrip(productId: string, dimCombo: string)
    ensures ParsedCellKey(CellKey(productId, dimCombo)) == Some((productId, dimCombo))
  {
    var escaped := SanitizeProductId(productId);
    SanitizeProductIdIsSinglePass(productId);
    EscapeInert(productId, {CELL_SEP}, CELL_SEP);
    assert escaped[0..] == escaped;
    UnescapedIndexAfterInert(escaped, CELL_SEP, dimCombo, 0);
    UnescapeEscape(productId, {CELL_SEP});
    var key := CellKey(productId, dimCombo);
    assert key[..|escaped|] == escaped && key[|escaped| + 1..] == dimCombo;
  }

  /** Two cells share a hash field only when they are the same cell; no cell is the marker. */
  lemma {:induction false} CellKeyInjective(productId1: string, dimCombo1: string, productId2: string,
                                            dimCombo2: string)
    ensures CellKey(productId1, dimCombo1) == CellKey(productId2, dimCombo2)
       <==> productId1 == productId2 && dimCombo1 == dimCombo2
    ensures CellKey(productId1, dimCombo1) != SEEDED_MARKER_FIELD
  {
    CellKeyRoundTrip(productId1, dimCombo1);
    CellKeyRoundTrip(productId2, dimCombo2);
    assert CELL_SEP in CellKey(productId1, dimCombo1);
    assert CELL_SEP !in SEEDED_MARKER_FIELD;
  }

  // ---- Local-sum fields ------------------------------------------------------

  function LocField(cellKey: string, currency: string): string {
    cellKey + [CELL_SEP] + currency
  }

  /** `s.lastIndexOf(c)`. */
  function LastIndex(s: string, c: char): (r: int)
    ensures -1 <= r < |s|
    ensures r >= 0 ==> s[r] == c
    ensures forall i :: r < i < |s| ==> s[i] != c
  {
    if s == "" then -1
    else if s[|s| - 1] == c then |s| - 1
    else LastIndex(s[..|s| - 1], c)
  }

  function ParseLocField(field: string): Option<(string, string)> {
    var i := LastIndex(field, CELL_SEP);
    if i <= 0 || i == |field| - 1 then None else Some((field[..i], field[i + 1..]))
  }

  /**
   * Splitting on the last `#` recovers the pair exactly for a non-empty currency free of
   * `#`. The purchase validator only checks that the currency is non-empty.
   */
  lemma {:induction false} LocFieldRoundTripIff(cellKey: string, currency: string)
    ensures ParseLocField(LocField(cellKey, currency)) == Some((cellKey, currency))
       <==> cellKey != "" && currency != "" && CELL_SEP !in currency
  {
    var field := LocField(cellKey, currency);
    var i := LastIndex(field, CELL_SEP);
    assert field[|cellKey|] == CELL_SEP;
    assert forall k :: 0 <= k < |currency| ==> field[|cellKey| + 1 + k] == currency[k];
    if i == |cellKey| {
      assert field[..i] == cellKey && field[i + 1..] == currency;
      forall k | 0 <= k < |currency| ensures currency[k] != CELL_SEP {
        assert field[|cellKey| + 1 + k] != CELL_SEP;
      }
    } else {
      assert i > |cellKey| && field[i] == currency[i - |cellKey| - 1];
    }
  }

  /** The written forms: a `#` or a backslash in the product id has a backslash before it, and `#` joins the parts. */
  lemma KeyFormats(productId: string, dimCombo: string, currency: string)
    ensures CellKey(productId, dimCombo) == Escape(productId, {'#'}) + "#" + dimCombo
    ensures '#' !in productId && '\\' !in productId ==> CellKey(productId, dimCombo) == productId + "#" + dimCombo
    ensures LocField(productId, currency) == productId + "#" + currency
  {
    SanitizeProductIdIsSinglePass(productId);
    if '#' !in productId && '\\' !in productId {
      EscapePlain(productId);
    }
    hide SanitizeProductId, Escape;
  }

  lemma HashFormat()
    ensures Escape("a#b", {CELL_SEP}) == "a\\#b"
  {
    assert "a#b"[1..] == "#b" && "#b"[1..] == "b" && "b"[1..] == "";
    assert Escape("b", {CELL_SEP}) == "b";
    assert Escape("#b", {CELL_SEP}) == "\\#b";
  }

  lemma {:induction false} EscapePlain(s: string)
    requires '#' !in s && '\\' !in s
    ensures Escape(s, {CELL_SEP}) == s
  {
    if s != "" {
      EscapePlain(s[1..]);
    }
  }
}
