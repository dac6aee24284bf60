/**
 * The durable money unit of a purchase: eligibility, the exactly-once claim of its
 * transaction id, and the payer tables, all in one database transaction.
 */
module PurchaseGate {
  import opened Basics
  import opened Fx
  import opened Sums

  datatype Source = FromServer | FromClient
  datatype Environment = Prod | Sandbox
  datatype Provenance = ServerProvenance | ClientProvenance

  /** One delivery of a purchase row, with the rates and tier rule in force when it is handled. */
  datatype Row = Row(
    game: string, source: Option<Source>, verified: bool, environment: Option<Environment>, provenance: Provenance,
    attempt: string, tx: string, user: string, productId: string, category: string,
    currency: string, local: int, day: int, period: string,
    rates: Rates, stalenessMax: int, rule: TierRule)

  datatype TierRule = TierRule(whaleMin: int, dolphinMin: int)
  datatype Tier = First | Indeterminate | Whale | Dolphin | Minnow

  datatype Claim = Claim(game: string, user: string, day: int, local: int, currency: string, productId: string)
  datatype Payer = Payer(firstDay: int, lifetime: int, unconverted: bool)

  type PayerId = (string, string)
  type PeriodId = (PayerId, string)

  /** PURCHASE_IDEMPOTENCY (its key is the transaction id alone), PAYER_SPINE_EXT, PAYER_PERIOD_SPEND. */
  datatype Tables = Tables(claims: map<string, Claim>, payers: map<PayerId, Payer>, periods: map<PeriodId, int>)

  const NO_ROWS := Tables(map[], map[], map[])

  datatype Token =
    | Invalid
    | Client(attempt: string)
    | Ineligible
    | Accepted(row: Row, normalized: int, disposition: Disposition, tier: Tier)

  // ---- One delivery ----------------------------------------------------------

  predicate Eligible(r: Row) {
    && r.source == Some(FromServer)
    && r.verified && r.environment == Some(Prod) && r.provenance == ServerProvenance
  }

  function PayerOf(r: Row): PayerId { (r.game, r.user) }

  function Converted(r: Row): FxResult {
    Normalize(r.rates, r.currency, r.local, r.day, r.stalenessMax)
  }

  function ClassifyTier(hadRowBefore: bool, lifetimeBefore: int, hadUnconverted: bool, rule: TierRule): Tier {
    if !hadRowBefore then First
    else if hadUnconverted then Indeterminate
    else if lifetimeBefore >= rule.whaleMin then Whale
    else if lifetimeBefore >= rule.dolphinMin then Dolphin
    else Minnow
  }

  function TierBefore(t: Tables, r: Row): Tier {
    var id := PayerOf(r);
    if id in t.payers then ClassifyTier(true, t.payers[id].lifetime, t.payers[id].unconverted, r.rule)
    else ClassifyTier(false, 0, false, r.rule)
  }

  function ClaimOf(r: Row): Claim {
    Claim(r.game, r.user, r.day, r.local, r.currency, r.productId)
  }

  function PayersAfter(payers: map<PayerId, Payer>, id: PayerId, day: int, normalized: int,
                       parked: bool): map<PayerId, Payer> {
    payers[id := if id in payers
                 then Payer(payers[id].firstDay, payers[id].lifetime + normalized, payers[id].unconverted || parked)
                 else Payer(day, normalized, parked)]
  }

  /** The tables after a delivery: unchanged unless it is eligible and claims its transaction. */
  function After(t: Tables, r: Row): Tables {
    if !Eligible(r) || r.tx in t.claims then t
    else
      var fx := Converted(r);
      Tables(t.claims[r.tx := ClaimOf(r)],
             PayersAfter(t.payers, PayerOf(r), r.day, fx.normalized, fx.disposition == Parked),
             Incr(t.periods, (PayerOf(r), r.period), fx.normalized))
  }

  function TokenOf(t: Tables, r: Row): Token {
    match r.source
    case None => Invalid
    case Some(FromClient) => Client(r.attempt)
    case Some(FromServer) =>
      if !Eligible(r) || r.tx in t.claims then Ineligible
      else Accepted(r, Converted(r).normalized, Converted(r).disposition, TierBefore(t, r))
  }

  // ---- The hook and the gate ---------------------------------------------------

  class PurchaseDurableHook {
    var claims: map<string, Claim>
    var payers: map<PayerId, Payer>
    var periods: map<PeriodId, int>

    function State(): Tables
      reads this
    {
      Tables(claims, payers, periods)
    }

    /** The kernel's presence check: it never inserts. */
    method ClaimTransaction(tx: string) returns (duplicate: bool)
      ensures duplicate == (tx in claims)
    {
      duplicate := tx in claims;
    }

    /** Insert-if-absent of the full row. */
    method ClaimFull(tx: string, claim: Claim) returns (claimed: bool)
      modifies this`claims
      ensures claimed == (tx !in old(claims))
      ensures claims == if claimed then old(claims)[tx := claim] else old(claims)
    {
      claimed := tx !in claims;
      if claimed {
        claims := claims[tx := claim];
      }
    }

    /** Insert, or on conflict keep the first day, add the amount and OR the flag. */
    method WriteFirstPurchaseWriteOnce(id: PayerId, day: int, normalized: int, parked: bool)
      modifies this`payers
      ensures payers == PayersAfter(old(payers), id, day, normalized, parked)
    {
      if id !in payers {
        payers := payers[id := Payer(day, normalized, parked)];
      } else {
        var lifetime := payers[id].lifetime + normalized;
        payers := payers[id := payers[id].(lifetime := lifetime, unconverted := payers[id].unconverted || parked)];
      }
    }

    method IncrementPeriodSpend(id: PeriodId, normalized: int)
      modifies this`periods
      ensures periods == Incr(old(periods), id, normalized)
    {
      periods := if id in periods then periods[id := periods[id] + normalized] else periods[id := normalized];
    }

    method Write(r: Row) returns (token: Token)
      modifies this
      ensures State() == After(old(State()), r)
      ensures token == TokenOf(old(State()), r)
    {
      hide Normalize;
      if r.source.None? { return Invalid; }
      if r.source.value.FromClient? { return Client(r.attempt); }
      if !r.verified || r.environment != Some(Prod) || r.provenance != ServerProvenance { return Ineligible; }
      var fx := Normalize(r.rates, r.currency, r.local, r.day, r.stalenessMax);
      var id := PayerOf(r);
      // The tier is read before any write of this unit.
      var hadRowBefore := id in payers;
      var lifetimeBefore := if hadRowBefore then payers[id].lifetime else 0;
      var hadUnconverted := hadRowBefore && payers[id].unconverted;
      var tier := ClassifyTier(hadRowBefore, lifetimeBefore, hadUnconverted, r.rule);
      var claimed := ClaimFull(r.tx, ClaimOf(r));
      if !claimed { return Ineligible; }
      WriteFirstPurchaseWriteOnce(id, r.day, fx.normalized, fx.disposition == Parked);
      IncrementPeriodSpend((id, r.period), fx.normalized);
      token := Accepted(r, fx.normalized, fx.disposition, tier);
    }
  }

  // ---- Runs --------------------------------------------------------------------

  /** Any serialized sequence of deliveries; a rolled-back transaction is one that never happened. */
  function Run(rows: seq<Row>): Tables {
    if rows == [] then NO_ROWS else After(Run(rows[..|rows| - 1]), rows[|rows| - 1])
  }

  /** The first eligible delivery of its transaction id, whatever game the earlier ones named. */
  predicate IsFirst(earlier: seq<Row>, r: Row) {
    Eligible(r) && forall j :: 0 <= j < |earlier| && Eligible(earlier[j]) ==> earlier[j].tx != r.tx
  }

  predicate IsPurchase(rows: seq<Row>, i: nat, id: PayerId)
    requires i < |rows|
  {
    IsFirst(rows[..i], rows[i]) && PayerOf(rows[i]) == id
  }

  /** The payer's normalized spend, counting each transaction once. */
  function Spend(rows: seq<Row>, id: PayerId): int {
    if rows == [] then 0
    else
      var n := |rows| - 1;
      Spend(rows[..n], id) + if IsPurchase(rows, n, id) then Converted(rows[n]).normalized else 0
  }

  function SpendIn(rows: seq<Row>, id: PayerId, period: string): int {
    if rows == [] then 0
    else
      var n := |rows| - 1;
      SpendIn(rows[..n], id, period)
      + if IsPurchase(rows, n, id) && rows[n].period == period then Converted(rows[n]).normalized else 0
  }

  function PeriodsOf(periods: map<PeriodId, int>, id: PayerId): map<string, int> {
    map k | k in periods && k.0 == id :: k.1 := periods[k]
  }

  /** The claimed transaction ids are those of the eligible deliveries; nothing else claims. */
  lemma {:induction false} ClaimsAreEligible(rows: seq<Row>, tx: string)
    ensures tx in Run(rows).claims <==> exists i :: 0 <= i < |rows| && Eligible(rows[i]) && rows[i].tx == tx
  {
    hide Converted, PayersAfter;
    if rows != [] {
      var n := |rows| - 1;
      var earlier := rows[..n];
      ClaimsAreEligible(earlier, tx);
      assert forall i :: 0 <= i < n ==> earlier[i] == rows[i];
      if tx in Run(rows).claims && tx !in Run(earlier).claims {
        assert Eligible(rows[n]) && rows[n].tx == tx;
      }
    }
  }

  /** Money counts only from a verified production row of the server; client rows and rows without a source never claim. */
  lemma {:induction false} OnlyServerMoneyCounts(t: Tables, r: Row)
    ensures TokenOf(t, r).Accepted? <==>
      && r.source == Some(FromServer) && r.verified && r.environment == Some(Prod) && r.provenance == ServerProvenance
      && r.tx !in t.claims
    ensures !TokenOf(t, r).Accepted? ==> After(t, r) == t
    ensures r.source == None ==> TokenOf(t, r) == Invalid
    ensures r.source == Some(FromClient) ==> TokenOf(t, r) == Client(r.attempt)
    ensures r.source == Some(FromServer) && !TokenOf(t, r).Accepted? ==> TokenOf(t, r) == Ineligible
  {
    hide Converted, TierBefore, PayersAfter;
  }

  /** A delivery is accepted exactly when it is the first eligible one of its transaction. */
  lemma {:induction false} AcceptedIffFirst(earlier: seq<Row>, r: Row)
    ensures TokenOf(Run(earlier), r).Accepted? <==> IsFirst(earlier, r)
    ensures IsFirst(earlier, r) <==> (Eligible(r) && r.tx !in Run(earlier).claims)
  {
    hide Run, Converted, TierBefore;
    ClaimsAreEligible(earlier, r.tx);
  }

  /**
   * Exactly-once money: over every sequence of deliveries, duplicates at any lateness
   * included, a payer's lifetime spend is the sum over distinct claimed transactions, and
   * so is the sum of the payer's period rows.
   */
  lemma {:induction false} MoneyExactlyOnce(rows: seq<Row>, id: PayerId)
    ensures var t := Run(rows);
      && (if id in t.payers then t.payers[id].lifetime else 0) == Spend(rows, id)
      && Total(PeriodsOf(t.periods, id)) == Spend(rows, id)
  {
    hide Converted, Eligible, Total;
    if rows == [] {
      assert PeriodsOf(map[], id) == map[];
      TotalNone(PeriodsOf(map[], id));
    } else {
      var n := |rows| - 1;
      var t := Run(rows[..n]);
      MoneyExactlyOnce(rows[..n], id);
      AcceptedIffFirst(rows[..n], rows[n]);
      if IsFirst(rows[..n], rows[n]) {
        var normalized := Converted(rows[n]).normalized;
        PeriodsOfIncr(t.periods, (PayerOf(rows[n]), rows[n].period), normalized, id);
        TotalIncr(PeriodsOf(t.periods, id), rows[n].period, normalized);
      }
    }
  }

  lemma {:induction false} PeriodsOfIncr(periods: map<PeriodId, int>, k: PeriodId, amount: int, id: PayerId)
    ensures PeriodsOf(Incr(periods, k, amount), id)
         == if k.0 == id then Incr(PeriodsOf(periods, id), k.1, amount) else PeriodsOf(periods, id)
  {
    var after := PeriodsOf(Incr(periods, k, amount), id);
    var wanted := if k.0 == id then Incr(PeriodsOf(periods, id), k.1, amount) else PeriodsOf(periods, id);
    forall p ensures p in after <==> p in wanted {
      InPeriodsOf(periods, id, p);
      InPeriodsOf(Incr(periods, k, amount), id, p);
    }
    forall p | p in after ensures after[p] == wanted[p] {
      InPeriodsOf(periods, id, p);
      InPeriodsOf(Incr(periods, k, amount), id, p);
    }
  }

  lemma InPeriodsOf(periods: map<PeriodId, int>, id: PayerId, p: string)
    ensures p in PeriodsOf(periods, id) <==> (id, p) in periods
    ensures p in PeriodsOf(periods, id) ==> PeriodsOf(periods, id)[p] == periods[(id, p)]
  {
    var k := (id, p);
    assert k.0 == id && k.1 == p;
  }

  /** Each period row holds the payer's spend in that period. */
  lemma {:induction false} PeriodRowIsSpend(rows: seq<Row>, id: PayerId, period: string)
    ensures Get(Run(rows).periods, (id, period)) == SpendIn(rows, id, period)
  {
    hide Converted, Eligible;
    if rows != [] {
      var n := |rows| - 1;
      PeriodRowIsSpend(rows[..n], id, period);
      AcceptedIffFirst(rows[..n], rows[n]);
    }
  }

  /** The payer's first accepted delivery, if any. */
  function FirstPurchase(rows: seq<Row>, id: PayerId): (r: int)
    ensures -1 <= r < |rows|
    ensures r >= 0 ==> IsPurchase(rows, r, id)
  {
    if rows == [] then -1
    else
      var n := |rows| - 1;
      var r := FirstPurchase(rows[..n], id);
      if r >= 0 then
        assert rows[..n][..r] == rows[..r];
        r
      else if IsPurchase(rows, n, id) then n
      else -1
  }

  /** Whether one of the payer's purchases was parked for want of a rate. */
  predicate AnyParked(rows: seq<Row>, id: PayerId) {
    exists i :: 0 <= i < |rows| && IsPurchase(rows, i, id) && Converted(rows[i]).disposition == Parked
  }

  lemma {:induction false} AnyParkedStep(rows: seq<Row>, id: PayerId)
    requires rows != []
    ensures var n := |rows| - 1;
      AnyParked(rows, id) <==> (AnyParked(rows[..n], id) || (IsPurchase(rows, n, id) && Converted(rows[n]).disposition == Parked))
  {
    hide Converted, IsFirst;
    var n := |rows| - 1;
    var earlier := rows[..n];
    forall i | 0 <= i < n ensures earlier[i] == rows[i] && earlier[..i] == rows[..i] {
    }
    if AnyParked(earlier, id) {
      var i :| 0 <= i < n && IsPurchase(earlier, i, id) && Converted(earlier[i]).disposition == Parked;
      assert IsPurchase(rows, i, id);
    }
    if AnyParked(rows, id) {
      var i :| 0 <= i < |rows| && IsPurchase(rows, i, id) && Converted(rows[i]).disposition == Parked;
      if i < n {
        assert IsPurchase(earlier, i, id);
      }
    }
  }

  /**
   * The first purchase day is the day of the payer's first accepted delivery and no later
   * delivery rewrites it; the flag says whether any purchase was parked.
   */
  lemma {:induction false} FirstDayIsWriteOnce(rows: seq<Row>, id: PayerId)
    ensures var t := Run(rows); var first := FirstPurchase(rows, id);
      && (id in t.payers <==> first >= 0)
      && (first >= 0 ==> t.payers[id].firstDay == rows[first].day)
      && (id in t.payers ==> (t.payers[id].unconverted <==> AnyParked(rows, id)))
      && (id !in t.payers ==> !AnyParked(rows, id))
  {
    hide Converted, Eligible, AnyParked;
    if rows != [] {
      var n := |rows| - 1;
      FirstDayIsWriteOnce(rows[..n], id);
      AcceptedIffFirst(rows[..n], rows[n]);
      AnyParkedStep(rows, id);
    } else {
      NoneParked(id);
    }
  }

  lemma NoneParked(id: PayerId)
    ensures !AnyParked([], id)
  {
  }

  /** The step-7 token of the i-th delivery. */
  function TokenAt(rows: seq<Row>, i: nat): Token
    requires i < |rows|
  {
    TokenOf(Run(rows[..i]), rows[i])
  }

  /**
   * Among a payer's accepted purchases exactly the first is tiered `first`; a later one is
   * `indeterminate` iff an earlier purchase was parked, and otherwise is placed by the
   * money of the distinct earlier transactions.
   */
  lemma {:induction false} TierIsPrePurchase(rows: seq<Row>, i: nat)
    requires i < |rows| && IsFirst(rows[..i], rows[i])
    ensures TokenAt(rows, i).Accepted?
    ensures var id := PayerOf(rows[i]); var earlier := rows[..i]; var rule := rows[i].rule; var tier := TokenAt(rows, i).tier;
      && (tier == First <==> FirstPurchase(rows, id) == i)
      && (tier == Indeterminate <==> AnyParked(earlier, id))
      && (tier == Whale ==> Spend(earlier, id) >= rule.whaleMin)
      && (tier == Dolphin ==> rule.dolphinMin <= Spend(earlier, id) < rule.whaleMin)
      && (tier == Minnow ==> Spend(earlier, id) < rule.whaleMin && Spend(earlier, id) < rule.dolphinMin)
  {
    hide Run, Spend, AnyParked, Eligible, IsFirst, FirstPurchase, TokenOf, Total, PeriodsOf;
    var id, earlier := PayerOf(rows[i]), rows[..i];
    AcceptedIffFirst(earlier, rows[i]);
    TokenTier(Run(earlier), rows[i]);
    MoneyExactlyOnce(earlier, id);
    FirstDayIsWriteOnce(earlier, id);
    FirstPurchaseIsHere(rows, i);
  }

  lemma TokenTier(t: Tables, r: Row)
    requires TokenOf(t, r).Accepted?
    ensures TokenOf(t, r).tier == TierBefore(t, r)
  {
    hide Eligible, TierBefore, Converted;
  }

  lemma FirstPurchaseIsHere(rows: seq<Row>, i: nat)
    requires i < |rows| && IsFirst(rows[..i], rows[i])
    ensures FirstPurchase(rows, PayerOf(rows[i])) == i <==> FirstPurchase(rows[..i], PayerOf(rows[i])) < 0
  {
    hide IsFirst, FirstPurchase;
    FirstPurchaseAt(rows, i, PayerOf(rows[i]));
  }

  /** An amount converted at the latest rate of its currency that is not after the day, nor too old. */
  ghost predicate IsAsOf(r: Row, normalized: int, parked: bool) {
    if parked then
      normalized == 0 && forall date :: r.day - r.stalenessMax <= date <= r.day ==> (r.currency, date) !in r.rates
    else
      exists date ::
        && (r.currency, date) in r.rates && r.day - r.stalenessMax <= date <= r.day
        && (forall later :: date < later <= r.day ==> (r.currency, later) !in r.rates)
        && -0.5 <= normalized as real - r.local as real * r.rates[(r.currency, date)] <= 0.5
  }

  /**
   * What step 8 is handed for an accepted purchase: the delivery itself, its as-of amount,
   * which is also what the payer's lifetime and period row have just grown by, and its
   * disposition, which says whether it was parked.
   */
  lemma {:induction false} TokenIsAsOf(rows: seq<Row>, i: nat)
    requires i < |rows| && IsFirst(rows[..i], rows[i]) && rows[i].stalenessMax >= 0
    ensures var r := rows[i]; var token := TokenAt(rows, i); var before, after := Run(rows[..i]), Run(rows[..i + 1]);
      && token.Accepted? && token.row == r
      && IsAsOf(r, token.normalized, token.disposition == Parked)
      && (token.disposition == Fresh <==> (r.currency, r.day) in r.rates)
      && (r.game, r.user) in after.payers
      && after.payers[(r.game, r.user)].lifetime
         == (if (r.game, r.user) in before.payers then before.payers[(r.game, r.user)].lifetime else 0) + token.normalized
      && Get(after.periods, ((r.game, r.user), r.period))
         == Get(before.periods, ((r.game, r.user), r.period)) + token.normalized
      && r.tx in after.claims
      && after.claims[r.tx] == Claim(r.game, r.user, r.day, r.local, r.currency, r.productId)
  {
    var r := rows[i];
    AcceptedIffFirst(rows[..i], r);
    assert rows[..i + 1][..i] == rows[..i];
    NormalizeIsAsOf(r.rates, r.currency, r.local, r.day, r.stalenessMax);
    hide Normalize, Eligible, IsFirst;
  }

  lemma {:induction false} FirstPurchaseAt(rows: seq<Row>, i: nat, id: PayerId)
    requires i < |rows| && IsPurchase(rows, i, id)
    ensures FirstPurchase(rows, id) == i <==> FirstPurchase(rows[..i], id) < 0
    ensures FirstPurchase(rows, id) >= 0
  {
    hide IsFirst;
    var n := |rows| - 1;
    if i < n {
      assert rows[..n][..i] == rows[..i];
      FirstPurchaseAt(rows[..n], i, id);
    }
  }

  /** Redelivering what was already delivered, or delivering ineligible rows, changes nothing. */
  lemma {:induction false} DuplicatesAreNoOps(rows: seq<Row>, more: seq<Row>)
    requires forall i :: 0 <= i < |more| ==>
      !Eligible(more[i]) || exists j :: 0 <= j < |rows| && Eligible(rows[j]) && rows[j].tx == more[i].tx
    ensures Run(rows + more) == Run(rows)
  {
    hide Converted, Eligible, PayersAfter;
    if more == [] {
      assert rows + more == rows;
    } else {
      var n := |more| - 1;
      DuplicatesAreNoOps(rows, more[..n]);
      assert (rows + more)[..|rows + more| - 1] == rows + more[..n];
      ClaimsAreEligible(rows, more[n].tx);
    }
  }
}
