/** Two short runs from seeded markets that show conditions of the theorems cannot be dropped. */
module Traces {
  import opened Tables
  import opened Operations
  import opened Ledger
  import opened Bidding
  import opened Settlement
  import opened Sales
  import opened Market
  import opened Theorems

  /** Two guilds of equal wealth, and one LEGENDARY item held by the first. */
  function TwoGuilds(wealth: int): State {
    var pouch := Pouch(wealth, 0, wealth, 0, 0);
    State(1, [pouch, pouch], [Item(Legendary, 5, 0)], map[InvKey(0, 0) := 1], [], [], [], [], [pouch, pouch], [], [])
  }

  lemma TwoGuildsAreSeeded(wealth: int)
    requires 0 <= wealth <= MAX_INT32
    ensures Seeded(TwoGuilds(wealth))
  {
    assert InvKey(0, 0) in TwoGuilds(wealth).inventories;
  }

  /** The first guild auctions the item for 1000 seconds, the second bids 10, the sweep comes late. */
  function Opening(now: Time): Op {
    CreateAuction(0, 0, 1000, None, now)
  }

  const BID := PlaceBid(0, 1, 10, 0, 0)
  const CLOSE := SettleAuction(0, 2000 * SECOND, 2000 * SECOND)

  function Row(start: Time): Auction {
    Auction(0, 0, Active, start, start + 1000 * SECOND, 5)
  }

  function AfterOpening(wealth: int): State {
    TwoGuilds(wealth).(auctions := [Row(0)], openingEnd := [1000 * SECOND])
  }

  function AfterBid(wealth: int): State {
    var s := AfterOpening(wealth);
    s.(pouches := [s.pouches[0], s.pouches[1].(reserved := 10)], bids := [Bid(0, 1, 10, BidActive)],
       log := [LogEntry(1, TxReserve, 10, OfAuction(0), Some(0))])
  }

  /** The row an opening inserts, read from tables where the first guild holds the item. */
  lemma OpeningPlan(s: State, now: Time)
    requires s.items == [Item(Legendary, 5, 0)] && InvKey(0, 0) in s.inventories && now % 1000 == 0
    ensures PlanAuction(s, Opening(now)) == Ok([Do(AppendAuction(Row(now)))])
  {
  }

  lemma OpeningSucceeds(s: State, now: Time)
    requires s.items == [Item(Legendary, 5, 0)] && InvKey(0, 0) in s.inventories && now % 1000 == 0
    requires s.auctions == []
    ensures Step(s, Opening(now)) == Opened(s, Row(now))
  {
    OpeningPlan(s, now);
    hide PlanAuction, RunActions, Perform;
    RunOne(s, Do(AppendAuction(Row(now))));
    PerformDo(s, AppendAuction(Row(now)));
  }

  lemma OpeningStep(wealth: int)
    ensures Step(TwoGuilds(wealth), Opening(0)) == AfterOpening(wealth)
  {
    hide Step;
    OpeningSucceeds(TwoGuilds(wealth), 0);
  }

  lemma OpeningIsSound(wealth: int)
    requires 0 <= wealth <= MAX_INT32
    ensures Sound(AfterOpening(wealth))
  {
    TwoGuildsAreSeeded(wealth);
    hide Sound, Step, Seeded, TwoGuilds, AfterOpening;
    SeededIsSound(TwoGuilds(wealth));
    StepKeepsSound(TwoGuilds(wealth), Opening(0));
    OpeningStep(wealth);
  }

  lemma BidIsInOrder(wealth: int)
    requires 10 <= wealth <= MAX_INT32
    ensures var s := AfterOpening(wealth);
            && LiveOn(s, 0, 0) && s.auctions[0].owner == 0 && BID.now <= s.auctions[0].end
            && MeetsFloor(s, 0, 10) && Affords(s, 1, 10, 0)
            && Placed(s, BID, 0) == AfterBid(wealth)
    ensures BID == PlaceBid(0, 1, 10, 0, 0)
  {
  }

  lemma BidStep(wealth: int)
    requires 10 <= wealth <= MAX_INT32
    ensures Step(AfterOpening(wealth), BID) == AfterBid(wealth)
  {
    hide *;
    OpeningIsSound(wealth);
    BidIsInOrder(wealth);
    BidAcceptedIff(AfterOpening(wealth), BID, 0);
    StepIs(AfterOpening(wealth), BID);
  }

  /** After the first guild opened an auction and the second bid 10. */
  lemma OpenedAndBid(wealth: int)
    requires 10 <= wealth <= MAX_INT32
    ensures Run(TwoGuilds(wealth), [Opening(0), BID]) == AfterBid(wealth) && Sound(AfterBid(wealth))
  {
    hide Sound, Step, TwoGuilds, AfterOpening, AfterBid;
    OpeningStep(wealth);
    BidStep(wealth);
    OpeningIsSound(wealth);
    StepKeepsSound(AfterOpening(wealth), BID);
    RunPair(TwoGuilds(wealth), Opening(0), BID);
  }

  lemma StepIs(s: State, op: Op)
    ensures Exec(s, op).Ok? ==> Step(s, op) == Exec(s, op).value
  {
  }

  /** The ownership read succeeds, the database admits the late row, and the tables are no longer sound. */
  ghost predicate BreaksOwnership(s: State, create: Op, between: seq<Op>) {
    && create.CreateAuction? && PlanAuction(s, create).Ok?
    && LateInsert(s, create, between).Ok? && !Sound(LateInsert(s, create, between).value)
  }

  lemma {:induction false} LateInsertBreaks(s: State, create: Op, between: seq<Op>, row: Auction)
    requires create.CreateAuction? && PlanAuction(s, create) == Ok([Do(AppendAuction(row))])
    requires Perform(Run(s, between), Do(AppendAuction(row))).Ok?
    requires !Sound(Perform(Run(s, between), Do(AppendAuction(row))).value)
    ensures BreaksOwnership(s, create, between)
  {
    hide PlanAuction, Perform, Run, Sound;
  }

  lemma {:induction false} RunSingle(s: State, op: Op)
    ensures Run(s, [op]) == Step(s, op)
  {
    assert [op][1..] == [];
  }

  lemma {:induction false} RunPair(s: State, x: Op, y: Op)
    ensures Run(s, [x, y]) == Step(Step(s, x), y)
  {
    assert [x, y][1..] == [y];
    RunSingle(Step(s, x), y);
  }

  lemma RowOwner()
    ensures Row(0).owner == 0
  {
  }

  lemma SettleIsInOrder(wealth: int)
    ensures var s := AfterBid(wealth);
            && Ended(s, 0, CLOSE.now) && Last(s, 0) == Some(0)
            && s.bids[0] == Bid(0, 1, 10, BidActive) && s.auctions[0] == Row(0)
            && (10 <= wealth ==> LimitCovers(s, 1, 10, CLOSE.at))
            && (CreditFits(s, 0, 10) <==> wealth + 10 <= MAX_INT32)
    ensures CLOSE.SettleAuction? && CLOSE.auction == 0
  {
  }

  lemma SettleOutcome(wealth: int)
    requires 10 <= wealth <= MAX_INT32
    ensures Exec(AfterBid(wealth), CLOSE).Ok? <==> wealth + 10 <= MAX_INT32
  {
    hide *;
    OpenedAndBid(wealth);
    SettleIsInOrder(wealth);
    RowOwner();
    SettleAcceptedIff(AfterBid(wealth), CLOSE);
  }

  /** The same item and owner as in the other row, and values the database admits. */
  predicate SecondRow(row: Auction, first: Auction) {
    && row == first.(start := row.start, end := row.end, basePrice := row.basePrice)
    && row.start < row.end && 0 <= row.basePrice <= MAX_INT32
  }

  lemma LaterOpeningPlan(wealth: int, later: Time)
    requires later % 1000 == 0
    ensures Opening(later).CreateAuction?
    ensures PlanAuction(AfterBid(wealth), Opening(later)) == Ok([Do(AppendAuction(Row(later)))])
    ensures SecondRow(Row(later), Row(0))
  {
    OpeningPlan(AfterBid(wealth), later);
    hide PlanAuction;
  }

  /** A settlement to a winner between the plan of a second auction and its insert breaks ownership. */
  lemma {:induction false} SettlingBreaks(s: State, settle: Op, create: Op, row: Auction)
    requires Sound(s) && settle.SettleAuction? && Exec(s, settle).Ok? && Last(s, settle.auction).Some?
    requires SecondRow(row, s.auctions[settle.auction])
    requires create.CreateAuction? && PlanAuction(s, create) == Ok([Do(AppendAuction(row))])
    ensures BreaksOwnership(s, create, [settle])
  {
    hide Sound, Exec, Last, PlanAuction, Perform, BreaksOwnership, Run, Step;
    SettlementBetweenReadAndInsert(s, settle, row);
    RunSingle(s, settle);
    StepIs(s, settle);
    LateInsertBreaks(s, create, [settle], row);
  }

  lemma CloseIsAccepted(wealth: int)
    requires 10 <= wealth <= MAX_INT32 - 10
    ensures Seeded(TwoGuilds(wealth)) && Sound(AfterBid(wealth))
    ensures Run(TwoGuilds(wealth), [Opening(0), BID]) == AfterBid(wealth)
    ensures CLOSE.SettleAuction? && CLOSE.auction == 0 && Exec(AfterBid(wealth), CLOSE).Ok?
    ensures Last(AfterBid(wealth), 0) == Some(0) && AfterBid(wealth).auctions == [Row(0)]
  {
    assert 10 <= wealth <= MAX_INT32 && wealth + 10 <= MAX_INT32;
    SettleIsInOrder(wealth);
    hide Sound, Exec, Last, Seeded, TwoGuilds, Run, LimitCovers, CreditFits, Ended, Opening;
    TwoGuildsAreSeeded(wealth);
    OpenedAndBid(wealth);
    SettleOutcome(wealth);
  }

  /** A reachable run in which the seller's ownership read, a settlement, and then the insert of a second
      auction leave an ACTIVE auction whose owner holds nothing. */
  lemma LateInsertCanBreakOwnership(wealth: int, later: Time)
    requires 10 <= wealth <= MAX_INT32 - 10 && later % 1000 == 0
    ensures Seeded(TwoGuilds(wealth))
    ensures Run(TwoGuilds(wealth), [Opening(0), BID]) == AfterBid(wealth)
    ensures BreaksOwnership(AfterBid(wealth), Opening(later), [CLOSE])
  {
    CloseIsAccepted(wealth);
    hide *;
    LaterOpeningPlan(wealth, later);
    SettlingBreaks(AfterBid(wealth), CLOSE, Opening(later), Row(later));
  }

  /** Without room for all gold in one column, an ended auction can be stuck although its winner's limit
      covers the bid: the seller's column overflows. */
  lemma OverflowBlocksSettlement()
    ensures Seeded(TwoGuilds(MAX_INT32))
    ensures var s := Run(TwoGuilds(MAX_INT32), [Opening(0), BID]);
            && Ended(s, 0, CLOSE.now) && Last(s, 0) == Some(0)
            && LimitCovers(s, s.bids[0].guild, s.bids[0].amount, CLOSE.at)
            && Exec(s, CLOSE).Err?
  {
    assert MAX_INT32 == 0x7fff_ffff;
    hide *;
    TwoGuildsAreSeeded(MAX_INT32);
    OpenedAndBid(MAX_INT32);
    SettleIsInOrder(MAX_INT32);
    SettleOutcome(MAX_INT32);
  }
}
