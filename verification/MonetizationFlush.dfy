/**
 * The durable monetization cells and their Redis image: the floors that seed the `cnt`,
 * `rev`, `cat` and `loc` hashes of a day, and the projection that flushes them back.
 */
module MonetizationFlush {
  import opened Basics
  import opened MonKeys

  /** One MONETIZATION_CELL row of the day, keyed by product and combo. */
  datatype Cell = Cell(count: int, revenue: int, category: string, local: map<string, int>)

  type CellId = (string, string)

  /** One flush row: the key parsed from the hash field, and the values. */
  datatype Row = Row(productId: string, dimCombo: string, cell: Cell)

  const EMPTY_CELL := Cell(0, 0, "", map[])

  datatype Hashes = Hashes(cnt: map<string, int>, rev: map<string, int>, cat: map<string, string>, loc: map<string, int>)

  // ---- Projection ------------------------------------------------------------

  /** A field that names a cell: not the marker, and it splits into product and combo. */
  predicate NamesCell(field: string) {
    field != SEEDED_MARKER_FIELD && ParsedCellKey(field).Some?
  }

  predicate NamesLocal(field: string) {
    field != SEEDED_MARKER_FIELD && ParseLocField(field).Some? && ParsedCellKey(ParseLocField(field).value.0).Some?
  }

  function LocalCell(field: string): string
    requires NamesLocal(field)
  {
    ParseLocField(field).value.0
  }

  function LocalCurrency(field: string): string
    requires NamesLocal(field)
  {
    ParseLocField(field).value.1
  }

  /** The cells the fields of a hash name. */
  function CellNames<V>(m: map<string, V>): set<string> {
    set f | f in m && NamesCell(f)
  }

  function LocalNames(loc: map<string, int>): set<string> {
    set f | f in loc && NamesLocal(f) :: LocalCell(f)
  }

  lemma {:induction false} CellNamesAdd<V>(m: map<string, V>, f: string, value: V)
    ensures CellNames(m[f := value]) == CellNames(m) + (if NamesCell(f) then {f} else {})
    ensures f !in m ==> f !in CellNames(m)
  {
    hide NamesCell;
  }

  function CellFields(h: Hashes): set<string> {
    CellNames(h.cnt) + CellNames(h.rev) + CellNames(h.cat) + LocalNames(h.loc)
  }

  /** A loc field is determined by the cell and currency it parses to. */
  lemma {:induction false} LocalFieldShape(field: string)
    requires NamesLocal(field)
    ensures field == LocField(LocalCell(field), LocalCurrency(field))
    ensures LocalCurrency(field) != "" && CELL_SEP !in LocalCurrency(field)
  {
    var i := LastIndex(field, CELL_SEP);
    var currency := field[i + 1..];
    assert field == field[..i] + [field[i]] + currency;
    forall k | 0 <= k < |currency| ensures currency[k] != CELL_SEP {
      assert currency[k] == field[i + 1 + k];
    }
  }

  lemma {:induction false} LocalFieldsUnique()
    ensures forall f, g ::
      (NamesLocal(f) && NamesLocal(g) && LocalCell(f) == LocalCell(g) && LocalCurrency(f) == LocalCurrency(g)) ==> f == g
  {
    forall f, g | NamesLocal(f) && NamesLocal(g) && LocalCell(f) == LocalCell(g) && LocalCurrency(f) == LocalCurrency(g)
      ensures f == g
    {
      LocalFieldShape(f);
      LocalFieldShape(g);
    }
  }

  /** The currencies booked for one cell. */
  function LocalOf(loc: map<string, int>, key: string): map<string, int> {
    LocalFieldsUnique();
    map f | f in loc && NamesLocal(f) && LocalCell(f) == key :: LocalCurrency(f) := loc[f]
  }

  /** What the four hashes say about one cell. */
  function RowAt(h: Hashes, key: string): Row
    requires ParsedCellKey(key).Some?
  {
    var (p, c) := ParsedCellKey(key).value;
    Row(p, c, Cell(if key in h.cnt then h.cnt[key] else 0, if key in h.rev then h.rev[key] else 0,
                   if key in h.cat then h.cat[key] else "", LocalOf(h.loc, key)))
  }

  lemma {:induction false} MarkerNamesNothing()
    ensures ParsedCellKey(SEEDED_MARKER_FIELD) == None
  {
    assert CELL_SEP !in SEEDED_MARKER_FIELD;
  }

  lemma {:induction false} CellFieldsParse(h: Hashes)
    ensures forall k :: k in CellFields(h) ==> ParsedCellKey(k).Some?
    ensures forall k :: k in CellFields(h) ==> NamesCell(k)
  {
    MarkerNamesNothing();
  }

  /** All cells the four hashes mention, with what they say. */
  function Projected(h: Hashes): map<string, Row> {
    CellFieldsParse(h);
    map k | k in CellFields(h) :: RowAt(h, k)
  }

  // ---- The projector's loops -------------------------------------------------

  /** The accumulator of a cell key, created empty on first mention. */
  function AccFor(rows: map<string, Row>, key: string): Row {
    if key in rows then rows[key]
    else if ParsedCellKey(key).Some? then Row(ParsedCellKey(key).value.0, ParsedCellKey(key).value.1, EMPTY_CELL)
    else Row("", "", EMPTY_CELL)
  }

  function WithCount(a: Row, count: int): Row {
    a.(cell := a.cell.(count := count))
  }

  function WithRevenue(a: Row, revenue: int): Row {
    a.(cell := a.cell.(revenue := revenue))
  }

  function WithCategory(a: Row, category: string): Row {
    a.(cell := a.cell.(category := category))
  }

  /** A row of `rows0`, or a new one, with one measure put in from `m` if there. */
  function RowWith<V>(rows0: map<string, Row>, m: map<string, V>, put: (Row, V) -> Row, k: string): Row {
    var a := AccFor(rows0, k);
    if k in m && NamesCell(k) then put(a, m[k]) else a
  }

  ghost predicate Filled<V>(rows0: map<string, Row>, m: map<string, V>, put: (Row, V) -> Row, rows: map<string, Row>) {
    && rows.Keys == rows0.Keys + CellNames(m)
    && forall k :: k in rows ==> rows[k] == RowWith(rows0, m, put, k)
  }

  lemma {:induction false} Untouched<V>(rows0: map<string, Row>, m: map<string, V>, put: (Row, V) -> Row,
                                        rows: map<string, Row>, f: string)
    requires f !in m && Filled(rows0, m, put, rows)
    ensures AccFor(rows, f) == AccFor(rows0, f)
  {
    hide NamesCell;
    assert f !in CellNames(m);
  }

  lemma {:induction false} OneMore<V>(rows0: map<string, Row>, m: map<string, V>, put: (Row, V) -> Row,
                                      rows: map<string, Row>, f: string, value: V)
    requires f !in m && Filled(rows0, m, put, rows)
    ensures var rows' := if NamesCell(f) then rows[f := put(AccFor(rows, f), value)] else rows;
      Filled(rows0, m[f := value], put, rows')
  {
    CellNamesAdd(m, f, value);
    Untouched(rows0, m, put, rows, f);
    hide NamesCell, CellNames, AccFor, RowWith;
    var rows' := if NamesCell(f) then rows[f := put(AccFor(rows, f), value)] else rows;
    assert rows'.Keys == rows0.Keys + CellNames(m[f := value]);
    forall k | k in rows' ensures rows'[k] == RowWith(rows0, m[f := value], put, k) {
      RowWithIs(rows0, m[f := value], put, k);
      RowWithIs(rows0, m, put, k);
    }
  }

  lemma RowWithIs<V>(rows0: map<string, Row>, m: map<string, V>, put: (Row, V) -> Row, k: string)
    ensures RowWith(rows0, m, put, k) ==
      var a := AccFor(rows0, k); if k in m && NamesCell(k) then put(a, m[k]) else a
  {
  }

  lemma NothingScanned<V>(rows0: map<string, Row>, put: (Row, V) -> Row)
    ensures Filled(rows0, map[], put, rows0)
  {
  }

  /** Read one measure of every cell a hash names. */
  method Scan<V>(rows0: map<string, Row>, m: map<string, V>, put: (Row, V) -> Row) returns (rows: map<string, Row>)
    ensures Filled(rows0, m, put, rows)
  {
    rows := rows0;
    var todo := m.Keys;
    NothingScanned(rows0, put);
    hide Filled, NamesCell, AccFor;
    ghost var done: map<string, V> := map[];
    while todo != {}
      invariant todo <= m.Keys
      invariant done == m - todo
      invariant Filled(rows0, done, put, rows)
      decreases |todo|
    {
      var f :| f in todo;
      OneMore(rows0, done, put, rows, f, m[f]);
      if NamesCell(f) {
        rows := rows[f := put(AccFor(rows, f), m[f])];
      }
      todo := todo - {f};
      done := done[f := m[f]];
    }
    assert done == m;
  }

  /** The three scans, one after the other. */
  ghost predicate Scanned(h: Hashes, r1: map<string, Row>, r2: map<string, Row>, r3: map<string, Row>) {
    Filled(map[], h.cnt, WithCount, r1) && Filled(r1, h.rev, WithRevenue, r2) && Filled(r2, h.cat, WithCategory, r3)
  }

  lemma {:induction false} LocalScanned(loc: map<string, int>, field: string, value: int, key: string)
    requires field !in loc
    ensures LocalOf(loc[field := value], key)
         == if NamesLocal(field) && LocalCell(field) == key then LocalOf(loc, key)[LocalCurrency(field) := value]
            else LocalOf(loc, key)
  {
    LocalFieldsUnique();
    hide NamesLocal, LocalCell, LocalCurrency;
  }

  /** `rows` is `rows0` with the local sums of the fields of `loc` filled in. */
  ghost predicate LocalsFilled(rows0: map<string, Row>, loc: map<string, int>, rows: map<string, Row>) {
    && rows.Keys == rows0.Keys + LocalNames(loc)
    && forall k :: k in rows ==> rows[k] == var a := AccFor(rows0, k); a.(cell := a.cell.(local := LocalOf(loc, k)))
  }

  lemma {:induction false} NothingFilled(rows0: map<string, Row>)
    requires NoLocals(rows0)
    ensures LocalsFilled(rows0, map[], rows0)
  {
    forall k ensures LocalOf(map[], k) == map[] {
    }
  }

  lemma {:induction false} MentionedBy(loc: map<string, int>, field: string, value: int)
    ensures LocalNames(loc[field := value]) == LocalNames(loc) + (if NamesLocal(field) then {LocalCell(field)} else {})
  {
    hide NamesLocal, LocalCell;
  }

  lemma {:induction false} OneMoreFilled(rows0: map<string, Row>, loc: map<string, int>, rows: map<string, Row>,
                                         field: string, value: int)
    requires field !in loc && LocalsFilled(rows0, loc, rows)
    requires NoLocals(rows0)
    ensures var rows' :=
      if !NamesLocal(field) then rows
      else
        var a := AccFor(rows, LocalCell(field));
        rows[LocalCell(field) := a.(cell := a.cell.(local := a.cell.local[LocalCurrency(field) := value]))];
      LocalsFilled(rows0, loc[field := value], rows')
  {
    hide NamesLocal, LocalCell, LocalCurrency, LocalOf, ParsedCellKey, LocalNames;
    MentionedBy(loc, field, value);
    forall k ensures LocalOf(loc[field := value], k)
      == if NamesLocal(field) && LocalCell(field) == k then LocalOf(loc, k)[LocalCurrency(field) := value]
         else LocalOf(loc, k)
    {
      LocalScanned(loc, field, value, k);
    }
    if NamesLocal(field) {
      UnscannedLocal(loc, LocalCell(field));
    }
  }

  method ScanLocals(rows0: map<string, Row>, loc: map<string, int>) returns (rows: map<string, Row>)
    requires NoLocals(rows0)
    ensures LocalsFilled(rows0, loc, rows)
  {
    hide LocalsFilled, NamesLocal, LocalCell, LocalCurrency, AccFor, NoLocals;
    rows := rows0;
    NothingFilled(rows0);
    var todo := loc.Keys;
    ghost var done: map<string, int> := map[];
    while todo != {}
      invariant todo <= loc.Keys
      invariant done == loc - todo
      invariant LocalsFilled(rows0, done, rows)
      decreases |todo|
    {
      var f :| f in todo;
      OneMoreFilled(rows0, done, rows, f, loc[f]);
      if NamesLocal(f) {
        var a := AccFor(rows, LocalCell(f));
        rows := rows[LocalCell(f) := a.(cell := a.cell.(local := a.cell.local[LocalCurrency(f) := loc[f]]))];
      }
      todo := todo - {f};
      done := done[f := loc[f]];
    }
    assert done == loc;
  }

  /** A cell no scanned field names has no local sums yet. */
  lemma {:induction false} UnscannedLocal(loc: map<string, int>, key: string)
    ensures key !in LocalNames(loc) ==> LocalOf(loc, key) == map[]
  {
    hide NamesLocal, LocalCell, LocalCurrency;
  }

  lemma {:induction false} ScansCompose(h: Hashes, r1: map<string, Row>, r2: map<string, Row>, r3: map<string, Row>,
                                        r4: map<string, Row>, k: string)
    requires Scanned(h, r1, r2, r3)
    requires LocalsFilled(r3, h.loc, r4) && k in r4 && NamesCell(k)
    ensures r4[k] == RowAt(h, k)
  {
    hide ParsedCellKey, NamesLocal, LocalCell, LocalOf;
  }

  lemma {:induction false} ScansMention(h: Hashes, r1: map<string, Row>, r2: map<string, Row>, r3: map<string, Row>,
                                        r4: map<string, Row>)
    requires Scanned(h, r1, r2, r3)
    requires LocalsFilled(r3, h.loc, r4)
    ensures r4.Keys == CellFields(h)
  {
    hide NamesCell, NamesLocal, LocalCell, LocalOf, AccFor;
  }

  ghost predicate NoLocals(rows: map<string, Row>) {
    forall k :: k in rows ==> rows[k].cell.local == map[]
  }

  lemma {:induction false} AccHasNoLocals(rows: map<string, Row>, k: string)
    requires NoLocals(rows)
    ensures AccFor(rows, k).cell.local == map[]
  {
  }

  lemma {:induction false} NoLocalsYet(h: Hashes, r1: map<string, Row>, r2: map<string, Row>, r3: map<string, Row>)
    requires Scanned(h, r1, r2, r3)
    ensures NoLocals(r3)
  {
    hide NamesCell, AccFor;
    forall k | k in r1 ensures r1[k].cell.local == map[] { AccHasNoLocals(map[], k); }
    forall k | k in r2 ensures r2[k].cell.local == map[] { AccHasNoLocals(r1, k); }
    forall k | k in r3 ensures r3[k].cell.local == map[] { AccHasNoLocals(r2, k); }
  }

  method ProjectMonetizationCell(h: Hashes) returns (rows: map<string, Row>)
    ensures rows == Projected(h)
  {
    hide Filled, LocalsFilled, RowAt, CellFields, NoLocals;
    var counted := Scan(map[], h.cnt, WithCount);
    var priced := Scan(counted, h.rev, WithRevenue);
    var categorized := Scan(priced, h.cat, WithCategory);
    NoLocalsYet(h, counted, priced, categorized);
    rows := ScanLocals(categorized, h.loc);
    ScansMention(h, counted, priced, categorized, rows);
    CellFieldsParse(h);
    forall k | k in rows ensures rows[k] == RowAt(h, k) {
      ScansCompose(h, counted, priced, categorized, rows, k);
    }
  }

  // ---- Floors ----------------------------------------------------------------

  function KeyOf(id: CellId): string {
    CellKey(id.0, id.1)
  }

  lemma {:induction false} KeysUnique()
    ensures forall a: CellId, b: CellId :: KeyOf(a) == KeyOf(b) ==> a == b
  {
    forall a: CellId, b: CellId | KeyOf(a) == KeyOf(b) ensures a == b {
      CellKeyInjective(a.0, a.1, b.0, b.1);
    }
  }

  function CntFloor(cells: map<CellId, Cell>): map<string, int> {
    KeysUnique();
    map id | id in cells :: KeyOf(id) := cells[id].count
  }

  function RevFloor(cells: map<CellId, Cell>): map<string, int> {
    KeysUnique();
    map id | id in cells :: KeyOf(id) := cells[id].revenue
  }

  function CatFloor(cells: map<CellId, Cell>): map<string, string> {
    KeysUnique();
    map id | id in cells :: KeyOf(id) := cells[id].category
  }

  predicate LocFieldOf(cells: map<CellId, Cell>, id: CellId, currency: string, field: string) {
    id in cells && currency in cells[id].local && field == LocField(KeyOf(id), currency)
  }

  /**
   * The local-sum floor, whatever order the rows come in: when two sums collide on one
   * field, one of them is there.
   */
  ghost predicate IsLocFloor(cells: map<CellId, Cell>, loc: map<string, int>) {
    && (forall id: CellId, c :: id in cells && c in cells[id].local ==> LocField(KeyOf(id), c) in loc)
    && (forall f :: f in loc ==> exists id: CellId, c :: LocFieldOf(cells, id, c, f) && loc[f] == cells[id].local[c])
  }

  method LocFloor(cells: map<CellId, Cell>) returns (loc: map<string, int>)
    ensures IsLocFloor(cells, loc)
  {
    hide LocField, KeyOf;
    loc := map[];
    var todo := cells.Keys;
    while todo != {}
      invariant todo <= cells.Keys
      invariant forall id: CellId, c :: id in cells && id !in todo && c in cells[id].local ==> LocField(KeyOf(id), c) in loc
      invariant forall f :: f in loc ==> exists id: CellId, c :: LocFieldOf(cells, id, c, f) && loc[f] == cells[id].local[c]
      decreases |todo|
    {
      var id :| id in todo;
      var currencies := cells[id].local.Keys;
      while currencies != {}
        invariant currencies <= cells[id].local.Keys
        invariant forall other: CellId, c :: other in cells && other !in todo && c in cells[other].local ==> LocField(KeyOf(other), c) in loc
        invariant forall c :: c in cells[id].local && c !in currencies ==> LocField(KeyOf(id), c) in loc
        invariant forall f :: f in loc ==> exists other: CellId, c :: LocFieldOf(cells, other, c, f) && loc[f] == cells[other].local[c]
        decreases |currencies|
      {
        var c :| c in currencies;
        var field := LocField(KeyOf(id), c);
        loc := loc[field := cells[id].local[c]];
        assert LocFieldOf(cells, id, c, field) && loc[field] == cells[id].local[c];
        currencies := currencies - {c};
      }
      todo := todo - {id};
    }
  }

  /** The four hashes right after a rehydrate, marker included. */
  function SeededHashes(cells: map<CellId, Cell>, loc: map<string, int>): Hashes {
    Hashes(CntFloor(cells)[SEEDED_MARKER_FIELD := 1], RevFloor(cells)[SEEDED_MARKER_FIELD := 1],
           CatFloor(cells)[SEEDED_MARKER_FIELD := "1"], loc[SEEDED_MARKER_FIELD := 1])
  }

  /** The rows a flush should write back. */
  function RowsOf(cells: map<CellId, Cell>): map<string, Row> {
    KeysUnique();
    map id | id in cells :: KeyOf(id) := Row(id.0, id.1, cells[id])
  }

  // ---- Seed, then flush ------------------------------------------------------

  predicate CleanCells(cells: map<CellId, Cell>) {
    forall id :: id in cells ==> forall c :: c in cells[id].local ==> CleanCurrency(c)
  }

  lemma {:induction false} CleanFieldParses(id: CellId, currency: string)
    requires CleanCurrency(currency)
    ensures var f := LocField(KeyOf(id), currency);
      NamesLocal(f) && LocalCell(f) == KeyOf(id) && LocalCurrency(f) == currency
  {
    LocFieldRoundTripIff(KeyOf(id), currency);
    KeyNamesCell(id);
    var f := LocField(KeyOf(id), currency);
    assert CELL_SEP in f && CELL_SEP !in SEEDED_MARKER_FIELD;
  }

  lemma {:induction false} MarkerIsNoLocal()
    ensures !NamesLocal(SEEDED_MARKER_FIELD)
  {
  }

  lemma {:induction false} LocalOfAt(loc: map<string, int>, f: string)
    requires f in loc && NamesLocal(f)
    ensures LocalCurrency(f) in LocalOf(loc, LocalCell(f)) && LocalOf(loc, LocalCell(f))[LocalCurrency(f)] == loc[f]
  {
    LocalFieldsUnique();
    hide NamesLocal, LocalCell, LocalCurrency;
  }

  lemma {:induction false} LocalOfFrom(loc: map<string, int>, key: string, c: string) returns (f: string)
    requires c in LocalOf(loc, key)
    ensures f in loc && NamesLocal(f) && LocalCell(f) == key && LocalCurrency(f) == c
  {
    hide NamesLocal, LocalCell, LocalCurrency;
    f :| f in loc && NamesLocal(f) && LocalCell(f) == key && LocalCurrency(f) == c;
  }

  /** The cell and currency a field of the clean floor was written for. */
  lemma {:induction false} SourceOf(cells: map<CellId, Cell>, loc: map<string, int>, f: string) returns (id: CellId,
                                    c: string)
    requires CleanCells(cells) && IsLocFloor(cells, loc) && f in loc
    ensures id in cells && c in cells[id].local && loc[f] == cells[id].local[c]
    ensures NamesLocal(f) && LocalCell(f) == KeyOf(id) && LocalCurrency(f) == c
  {
    hide NamesLocal, LocalCell, LocalCurrency, KeyOf, LocField, CleanCurrency;
    id, c :| LocFieldOf(cells, id, c, f) && loc[f] == cells[id].local[c];
    CleanFieldParses(id, c);
  }

  lemma {:induction false} KeyUnique(a: CellId, b: CellId)
    requires KeyOf(a) == KeyOf(b)
    ensures a == b
  {
    CellKeyInjective(a.0, a.1, b.0, b.1);
  }

  lemma {:induction false} CleanLocalsComeBack(cells: map<CellId, Cell>, loc: map<string, int>, id: CellId)
    requires CleanCells(cells) && IsLocFloor(cells, loc) && id in cells
    ensures LocalOf(loc[SEEDED_MARKER_FIELD := 1], KeyOf(id)) == cells[id].local
  {
    hide NamesLocal, LocalCell, LocalCurrency, KeyOf, LocField, CleanCurrency, LocalOf;
    var h := loc[SEEDED_MARKER_FIELD := 1];
    MarkerIsNoLocal();
    var back := LocalOf(h, KeyOf(id));
    forall c | c in cells[id].local ensures c in back && back[c] == cells[id].local[c] {
      LocalComesBack(cells, loc, id, c);
    }
    forall c | c in back ensures c in cells[id].local {
      var f := LocalOfFrom(h, KeyOf(id), c);
      var id2, c2 := SourceOf(cells, loc, f);
      KeyUnique(id, id2);
    }
  }

  lemma {:induction false} LocalComesBack(cells: map<CellId, Cell>, loc: map<string, int>, id: CellId, c: string)
    requires CleanCells(cells) && IsLocFloor(cells, loc) && id in cells && c in cells[id].local
    ensures var back := LocalOf(loc[SEEDED_MARKER_FIELD := 1], KeyOf(id)); c in back && back[c] == cells[id].local[c]
  {
    var f := LocField(KeyOf(id), c);
    assert f in loc && CleanCurrency(c) by {
      hide KeyOf, LocField, CleanCurrency;
      assert LocFieldOf(cells, id, c, f);
    }
    hide NamesLocal, LocalCell, LocalCurrency, KeyOf, LocField, CleanCurrency, LocalOf, IsLocFloor, CleanCells;
    MarkerIsNoLocal();
    CleanFieldParses(id, c);
    var id2, c2 := SourceOf(cells, loc, f);
    KeyUnique(id, id2);
    LocalOfAt(loc[SEEDED_MARKER_FIELD := 1], f);
  }

  /** What each floor, and the expected flush, holds for one cell. */
  lemma {:induction false} FloorsAt(cells: map<CellId, Cell>, id: CellId)
    requires id in cells
    ensures var k := KeyOf(id);
      && k in CntFloor(cells) && CntFloor(cells)[k] == cells[id].count
      && k in RevFloor(cells) && RevFloor(cells)[k] == cells[id].revenue
      && k in CatFloor(cells) && CatFloor(cells)[k] == cells[id].category
      && k in RowsOf(cells) && RowsOf(cells)[k] == Row(id.0, id.1, cells[id])
  {
    KeysUnique();
    hide KeyOf;
  }

  lemma {:induction false} RowsOfFrom(cells: map<CellId, Cell>, k: string) returns (id: CellId)
    requires k in CntFloor(cells) || k in RevFloor(cells) || k in CatFloor(cells) || k in RowsOf(cells)
    ensures id in cells && KeyOf(id) == k
  {
    hide KeyOf;
    id :| id in cells && KeyOf(id) == k;
  }

  lemma {:induction false} SeededFields(cells: map<CellId, Cell>, loc: map<string, int>, k: string)
    requires CleanCells(cells) && IsLocFloor(cells, loc)
    ensures k in CellFields(SeededHashes(cells, loc)) <==> k in RowsOf(cells)
  {
    hide NamesLocal, LocalCell, LocalCurrency, KeyOf, LocField, CleanCurrency, ParsedCellKey, IsLocFloor,
         CntFloor, RevFloor, CatFloor, RowsOf;
    var h := SeededHashes(cells, loc);
    MarkerIsNoLocal();
    if k in CellFields(h) {
      if f :| f in h.loc && NamesLocal(f) && LocalCell(f) == k {
        var id, c := SourceOf(cells, loc, f);
        FloorsAt(cells, id);
      } else {
        assert k in CntFloor(cells) || k in RevFloor(cells) || k in CatFloor(cells);
        var id := RowsOfFrom(cells, k);
        FloorsAt(cells, id);
      }
    }
    if k in RowsOf(cells) {
      var id := RowsOfFrom(cells, k);
      FloorsAt(cells, id);
      KeyNamesCell(id);
    }
  }

  lemma {:induction false} KeyNamesCell(id: CellId)
    ensures NamesCell(KeyOf(id)) && ParsedCellKey(KeyOf(id)) == Some(id)
    ensures KeyOf(id) != SEEDED_MARKER_FIELD
  {
    CellKeyRoundTrip(id.0, id.1);
    CellKeyInjective(id.0, id.1, id.0, id.1);
  }

  /** No projection ever yields a currency the field grammar cannot carry. */
  lemma {:induction false} ProjectedCurrenciesAreClean(loc: map<string, int>, key: string, c: string)
    requires c in LocalOf(loc, key)
    ensures CleanCurrency(c)
  {
    var f :| f in loc && NamesLocal(f) && LocalCell(f) == key && LocalCurrency(f) == c;
    LocalFieldShape(f);
  }

  lemma {:induction false} CleanRowComesBack(cells: map<CellId, Cell>, loc: map<string, int>, id: CellId)
    requires CleanCells(cells) && IsLocFloor(cells, loc) && id in cells
    requires ParsedCellKey(KeyOf(id)) == Some(id)
    ensures RowAt(SeededHashes(cells, loc), KeyOf(id)) == Row(id.0, id.1, cells[id])
  {
    hide ParsedCellKey, KeyOf, CleanCells, IsLocFloor, LocalOf, CntFloor, RevFloor, CatFloor;
    CleanLocalsComeBack(cells, loc, id);
    KeyNamesCell(id);
    FloorsAt(cells, id);
  }

  /**
   * Seeding a day's hashes from its durable cells and flushing them gives the cells back,
   * exactly when every currency is non-empty and free of `#`; product ids and combos may
   * hold anything.
   */
  lemma {:induction false} SeedThenFlushIff(cells: map<CellId, Cell>, loc: map<string, int>)
    requires IsLocFloor(cells, loc)
    ensures Projected(SeededHashes(cells, loc)) == RowsOf(cells) <==> CleanCells(cells)
  {
    hide ParsedCellKey, KeyOf, CleanCurrency, IsLocFloor, CellFields, LocalOf, NamesCell, RowAt, SeededHashes, RowsOf;
    var h := SeededHashes(cells, loc);
    if CleanCells(cells) {
      forall k ensures k in CellFields(h) <==> k in RowsOf(cells) {
        SeededFields(cells, loc, k);
      }
      forall k | k in RowsOf(cells) ensures ParsedCellKey(k).Some? && RowAt(h, k) == RowsOf(cells)[k] {
        var id := RowsOfFrom(cells, k);
        KeyNamesCell(id);
        CleanRowComesBack(cells, loc, id);
        FloorsAt(cells, id);
      }
    }
    if Projected(h) == RowsOf(cells) {
      forall id, c | id in cells && c in cells[id].local ensures CleanCurrency(c) {
        UncleanBreaks(cells, h, id, c);
      }
    }
  }

  /** A projection equal to the cells shows each of their currencies. */
  lemma {:induction false} UncleanBreaks(cells: map<CellId, Cell>, h: Hashes, id: CellId, c: string)
    requires Projected(h) == RowsOf(cells) && id in cells && c in cells[id].local
    ensures CleanCurrency(c)
  {
    hide ParsedCellKey, KeyOf, CleanCurrency, CellFields, LocalOf, NamesCell;
    FloorsAt(cells, id);
    assert Projected(h)[KeyOf(id)].cell.local == LocalOf(h.loc, KeyOf(id));
    ProjectedCurrenciesAreClean(h.loc, KeyOf(id), c);
  }
}
