/** The market's promises, for every state any run of operations reaches from a seeded market. */
module Theorems {
  import opened Tables
  import opened GoldPouch
  import opened Operations
  import opened Sums
  import opened Ledger
  import opened Bidding
  import opened Holdings
  import opened Settlement
  import opened Sales
  import opened Market
  import opened Lifecycle
  import opened Possession
  import opened Sweep
  import opened Clocks

  lemma {:induction false} ReachableIsSound(s0: State, ops: seq<Op>)
    requires Seeded(s0)
    ensures Sound(Run(s0, ops))
  {
    SeededIsSound(s0);
    RunKeepsSound(s0, ops);
  }

  // ---- Escrow ----------------------------------------------------------------------------

  /** Every guild's reserved balance is exactly the sum of its live bids, and every live bid is on a
      live auction. */
  lemma {:induction false} ReservedGoldIsLiveBids(s0: State, ops: seq<Op>)
    requires Seeded(s0)
    ensures var s := Run(s0, ops);
            && (forall g :: 0 <= g < |s.pouches| ==>
                              && s.pouches[g].reserved == Bids(s.bids, BidsOfGuild(g), BidActive)
                              && 0 <= s.pouches[g].reserved <= s.pouches[g].total)
            && (forall i :: 0 <= i < |s.bids| && s.bids[i].status == BidActive ==>
                              Has(s.auctions, s.bids[i].auction) && s.auctions[s.bids[i].auction].status == Active)
  {
    ReachableIsSound(s0, ops);
    var s := Run(s0, ops);
    forall i | 0 <= i < |s.bids| && s.bids[i].status == BidActive
      ensures Has(s.auctions, s.bids[i].auction) && s.auctions[s.bids[i].auction].status == Active
    {
      assert BidRowOk(s, s.bids[i]) && Stands(s, i);
    }
  }

  // ---- Log -------------------------------------------------------------------------------

  /** Folding a guild's log rows over the pouch it was seeded with gives its current pouch. */
  lemma {:induction false} LogReplaysToBalances(s0: State, ops: seq<Op>, g: GuildId)
    requires Seeded(s0) && Has(s0.pouches, g)
    ensures var s := Run(s0, ops);
            && Has(s.pouches, g)
            && s.pouches[g].limit == s0.pouches[g].limit
            && s.pouches[g].total == s0.pouches[g].total + TotalFlow(s.log, g)
            && s.pouches[g].reserved == ReservedFlow(s.log, g)
  {
    ReachableIsSound(s0, ops);
    RunKeepsOpening(s0, ops);
    assert Replays(Run(s0, ops), g);
  }

  lemma {:induction false} ActionsKeepOpening(s: State, acts: seq<Action>)
    requires RunActions(s, acts).Ok?
    ensures RunActions(s, acts).value.opening == s.opening
    decreases |acts|
  {
    if acts != [] {
      if acts[0].Pay? {
        PerformPay(s, acts[0]);
      } else {
        OnlyPayTouchesLedger(s, acts[0]);
      }
      ActionsKeepOpening(Perform(s, acts[0]).value, acts[1..]);
    }
  }

  lemma {:induction false} RunKeepsOpening(s: State, ops: seq<Op>)
    ensures Run(s, ops).opening == s.opening
    decreases |ops|
  {
    if ops != [] {
      if Exec(s, ops[0]).Ok? {
        ActionsKeepOpening(s, Plan(s, ops[0]).value);
      }
      RunKeepsOpening(Step(s, ops[0]), ops[1..]);
    }
  }

  /** The log rows under "auction:<a>": a live auction holds its live bids in escrow and has paid
      nothing; a settled one has released or paid out all it ever reserved, and credited the seller
      with exactly the winning amount. */
  lemma {:induction false} LogReconcilesPerAuction(s0: State, ops: seq<Op>, a: AuctionId)
    requires Seeded(s0) && Has(Run(s0, ops).auctions, a)
    ensures var s := Run(s0, ops);
            var ref := LogOfRef(OfAuction(a));
            && Logged(s.log, ref, TxCredit) == Logged(s.log, ref, TxAuctionWin)
            && (s.auctions[a].status == Active ==>
                  && Logged(s.log, ref, TxReserve) - Logged(s.log, ref, TxRelease)
                     == Bids(s.bids, BidsOfAuction(a), BidActive)
                  && Logged(s.log, ref, TxAuctionWin) == 0)
            && (s.auctions[a].status == Expired ==>
                  && Logged(s.log, ref, TxReserve) == Logged(s.log, ref, TxRelease) + Logged(s.log, ref, TxAuctionWin)
                  && Logged(s.log, ref, TxAuctionWin)
                     == if Last(s, a).Some? then s.bids[Last(s, a).value].amount else 0)
  {
    ReachableIsSound(s0, ops);
    var s := Run(s0, ops);
    AuctionTotals(s, a);
    assert Reconciles(s.log, s.bids, a);
  }

  // ---- Daily cap -------------------------------------------------------------------------

  lemma {:induction false} RunKeepsCapped(s: State, ops: seq<Op>)
    requires Sound(s) && Capped(s) && TimelyOps(s, ops)
    ensures Capped(Run(s, ops))
    decreases |ops|
  {
    if ops != [] {
      StepKeepsSound(s, ops[0]);
      if Exec(s, ops[0]).Ok? {
        RunKeepsCap(s, Plan(s, ops[0]).value);
      }
      hide Sound, Capped;
      RunKeepsCapped(Step(s, ops[0]), ops[1..]);
    }
  }

  /** On every UTC day every guild is charged at most its daily limit, and SpentToday is what it was
      charged on the day of its last reset, although reservations reset it too. */
  lemma {:induction false} DailyLimitHolds(s0: State, ops: seq<Op>, g: GuildId, day: int)
    requires Seeded(s0) && TimelyOps(s0, ops) && Has(s0.pouches, g)
    ensures var s := Run(s0, ops);
            && Has(s.pouches, g)
            && Charged(s.log, g, day) <= s0.pouches[g].limit
            && Charged(s.log, g, s.pouches[g].lastReset) == s.pouches[g].spent
  {
    SeededIsSound(s0);
    RunKeepsCapped(s0, ops);
    LogReplaysToBalances(s0, ops, g);
    assert CappedGuild(Run(s0, ops), g);
  }

  /** The same, judged from the requests alone: it is enough that the clock readings that may concern a
      guild's pouch are in order, and none is before the day its pouch was seeded with. */
  lemma {:induction false} DailyLimitHoldsInOrder(s0: State, ops: seq<Op>, g: GuildId, day: int)
    requires Seeded(s0) && ReadingsInOrder(ops) && Awaits(s0, ops) && Has(s0.pouches, g)
    ensures var s := Run(s0, ops);
            && Has(s.pouches, g)
            && Charged(s.log, g, day) <= s0.pouches[g].limit
            && Charged(s.log, g, s.pouches[g].lastReset) == s.pouches[g].spent
  {
    OrderedReadingsAreTimely(s0, ops);
    DailyLimitHolds(s0, ops, g, day);
  }

  // ---- Wallets ---------------------------------------------------------------------------

  /** What every guild's wallet shows after any run: its live bids as reserved, its opening gold and all
      logged movements as its total, the difference as usable, and the limit it was seeded with. */
  lemma {:induction false} WalletShowsTheBooks(s0: State, ops: seq<Op>, g: GuildId, now: Time)
    requires Seeded(s0)
    ensures GetWallet(Run(s0, ops).pouches, g, now)
            == if !Has(s0.pouches, g) then Err(GuildNotFound)
               else
                 var s := Run(s0, ops);
                 var total := s0.pouches[g].total + TotalFlow(s.log, g);
                 var reserved := Bids(s.bids, BidsOfGuild(g), BidActive);
                 Ok(WalletView(guild := g, total := total, reserved := reserved, usable := total - reserved,
                               limit := s0.pouches[g].limit,
                               spentToday := if Has(s.pouches, g) && s.pouches[g].lastReset == UtcDay(now)
                                             then s.pouches[g].spent else 0))
  {
    ReachableIsSound(s0, ops);
    RunKeepsOpening(s0, ops);
    if Has(s0.pouches, g) {
      LogReplaysToBalances(s0, ops, g);
    }
    hide Sound, Run, TotalFlow, ReservedFlow, Bids, UtcDay;
  }

  /** And, if no pouch's clock stepped back, it shows as spent today exactly what settlements charged the
      guild on the UTC day of the reading, on the day of the last reset or any later one. */
  lemma {:induction false} WalletShowsTodaysCharges(s0: State, ops: seq<Op>, g: GuildId, now: Time)
    requires Seeded(s0) && TimelyOps(s0, ops) && Has(s0.pouches, g)
    ensures var s := Run(s0, ops);
            && Has(s.pouches, g)
            && (s.pouches[g].lastReset <= UtcDay(now) ==>
                  && GetWallet(s.pouches, g, now).Ok?
                  && GetWallet(s.pouches, g, now).value.spentToday == Charged(s.log, g, UtcDay(now)))
  {
    SeededIsSound(s0);
    RunKeepsCapped(s0, ops);
    LogReplaysToBalances(s0, ops, g);
    assert CappedGuild(Run(s0, ops), g);
    hide Sound, Run, Charged, UtcDay;
  }

  // ---- Gold ------------------------------------------------------------------------------

  /** The gold in the market never changes, and no balance ever exceeds it: if it fits a 32-bit column at
      the start, every balance always does. */
  lemma {:induction false} GoldIsConserved(s0: State, ops: seq<Op>, g: GuildId)
    requires Seeded(s0) && Has(s0.pouches, g)
    ensures var s := Run(s0, ops);
            && Gold(s.pouches) == Gold(s0.pouches)
            && Has(s.pouches, g)
            && 0 <= s.pouches[g].reserved <= s.pouches[g].total <= Gold(s0.pouches)
  {
    RunConservesGold(s0, ops);
    ReachableIsSound(s0, ops);
    RunKeepsOpening(s0, ops);
    var s := Run(s0, ops);
    assert forall h :: 0 <= h < |s.pouches| ==> PouchRowOk(s.pouches[h]);
    GoldCovers(s.pouches, g);
  }

  // ---- Ownership -------------------------------------------------------------------------

  /** Every LEGENDARY item is always held by exactly one guild, once; a live auction's owner is that
      guild, and no item is in two live auctions. */
  lemma {:induction false} LegendaryHasOneOwner(s0: State, ops: seq<Op>, item: ItemId)
    requires Seeded(s0) && IsLegendary(Run(s0, ops), item)
    ensures var s := Run(s0, ops);
            && Held(s)
            && (forall g :: InvKey(g, item) in s.inventories <==> g == HolderOf(s, item))
            && s.inventories[InvKey(HolderOf(s, item), item)] == 1
            && (forall a :: LiveOn(s, a, item) ==>
                              && s.auctions[a].owner == HolderOf(s, item)
                              && ActiveAuction(s.auctions, item, |s.auctions|) == Some(a))
  {
    ReachableIsSound(s0, ops);
    var s := Run(s0, ops);
    var holder := HolderOf(s, item);
    assert InventoryRowOk(s, InvKey(holder, item), s.inventories[InvKey(holder, item)]);
    forall a | LiveOn(s, a, item)
      ensures s.auctions[a].owner == holder && ActiveAuction(s.auctions, item, |s.auctions|) == Some(a)
    {
      assert AuctionRowOk(s, s.auctions[a]);
      ActiveAuctionIsUnique(s, a);
    }
  }

  /** Inserting an auction row into sound tables keeps the owner rule exactly when the named owner holds
      the item at the moment of the insertion. */
  lemma InsertedAuctionIsOwnedIff(s: State, row: Auction)
    requires Sound(s) && row.status == Active && Perform(s, Do(AppendAuction(row))).Ok?
    ensures Sound(Perform(s, Do(AppendAuction(row))).value) <==> InvKey(row.owner, row.item) in s.inventories
  {
    PerformDo(s, AppendAuction(row));
    var s' := Opened(s, row);
    if InvKey(row.owner, row.item) in s.inventories {
      OpenedKeepsOwned(s, row);
      CreationKeepsBooks(s, s');
    } else {
      assert s'.auctions[|s.auctions|] == row;
      assert !AuctionRowOk(s', s'.auctions[|s.auctions|]);
    }
  }

  /** The tables when an auction planned on `s` is inserted after other operations have committed. */
  function LateInsert(s: State, create: Op, between: seq<Op>): Result<State>
    requires create.CreateAuction? && PlanAuction(s, create).Ok?
  {
    Perform(Run(s, between), PlanAuction(s, create).value[0])
  }

  /** CreateAuction reads ownership without a lock.  If any operations commit between that read and its
      insert, and the database admits the row, the tables stay sound if and only if no settlement among
      them awarded the item, or the last that did awarded it back to the owner. */
  lemma {:induction false} LateInsertIsOwnedIff(s: State, create: Op, between: seq<Op>)
    requires Sound(s) && create.CreateAuction? && PlanAuction(s, create).Ok? && LateInsert(s, create, between).Ok?
    ensures Sound(LateInsert(s, create, between).value)
            <==> LastWinner(s, between, create.item) in {None, Some(create.owner)}
  {
    RunKeepsSound(s, between);
    RunMovesItem(s, between, create.item, create.owner);
    hide Sound, Run, LastWinner, Perform;
    InsertedAuctionIsOwnedIff(Run(s, between), PlanAuction(s, create).value[0].write.newAuction);
  }

  /** A settlement to a winner takes the item from the seller and leaves it in no auction. */
  lemma SettlementTakesItem(s: State, settle: Op)
    requires Sound(s) && settle.SettleAuction? && Exec(s, settle).Ok? && Last(s, settle.auction).Some?
    ensures var s', row := Exec(s, settle).value, s.auctions[settle.auction];
            && Has(s.auctions, settle.auction) && row.status == Active && Sound(s')
            && IsLegendary(s', row.item) && !UnderAuction(s'.auctions, row.item)
            && InvKey(row.owner, row.item) in s.inventories && InvKey(row.owner, row.item) !in s'.inventories
  {
    var a, w, s' := settle.auction, Last(s, settle.auction).value, Exec(s, settle).value;
    SettleAcceptedIff(s, settle);
    hide Exec, LastBid, HighestActive;
    SettleKeepsSound(s, settle);
    WonByOwned(s, s', a, w, settle.at);
    SettledItemIsFree(s, s', a, w, settle.at);
    assert AuctionRowOk(s, s.auctions[a]);
  }

  /** The database does admit such rows: once an auction was settled to a winner, a second auction of the
      item for the guild that has just lost it goes in. */
  lemma SettlementBetweenReadAndInsert(s: State, settle: Op, row: Auction)
    requires Sound(s) && settle.SettleAuction? && Exec(s, settle).Ok? && Last(s, settle.auction).Some?
    requires row == s.auctions[settle.auction].(start := row.start, end := row.end, basePrice := row.basePrice)
    requires row.start < row.end && 0 <= row.basePrice <= MAX_INT32
    ensures InvKey(row.owner, row.item) in s.inventories
    ensures var s' := Exec(s, settle).value;
            && Perform(s', Do(AppendAuction(row))).Ok?
            && !Sound(Perform(s', Do(AppendAuction(row))).value)
  {
    SettlementTakesItem(s, settle);
    hide Sound, Exec, Last, UnderAuction, Perform;
    PerformDo(Exec(s, settle).value, AppendAuction(row));
    InsertedAuctionIsOwnedIff(Exec(s, settle).value, row);
  }

  /** After a settlement no live auction names the item. */
  lemma SettledItemIsFree(s: State, s': State, a: AuctionId, w: BidId, at: Time)
    requires Auctioned(s) && Has(s.auctions, a) && s.auctions[a].status == Active
    requires Has(s.bids, w) && WonBy(s, s', a, w, at)
    ensures !UnderAuction(s'.auctions, s.auctions[a].item)
    ensures IsLegendary(s', s.auctions[a].item)
  {
  }

  // ---- Stock -----------------------------------------------------------------------------

  /** For every listing: what is left is the seller's stock, the listing is ACTIVE exactly while
      something is left, and the purchases logged for it, the seller's credits and price times units
      sold are the same amount. */
  lemma {:induction false} StockStaysInStep(s0: State, ops: seq<Op>, l: ListingId)
    requires Seeded(s0) && Has(Run(s0, ops).listings, l)
    ensures var s := Run(s0, ops);
            var row := s.listings[l];
            var ref := LogOfRef(OfListing(l));
            && Has(s.openingStock, l) && InvKey(row.guild, row.item) in s.inventories
            && s.inventories[InvKey(row.guild, row.item)] == row.quantity
            && 0 <= row.quantity <= s.openingStock[l]
            && (row.status == ListingActive <==> row.quantity > 0)
            && Logged(s.log, ref, TxPurchase) == row.basePrice * (s.openingStock[l] - row.quantity)
            && Logged(s.log, ref, TxCredit) == Logged(s.log, ref, TxPurchase)
  {
    ReachableIsSound(s0, ops);
    var s := Run(s0, ops);
    assert ListingOk(s, s.listings[l], s.openingStock[l]);
    assert Sold(s.log, l, Takings(s, l));
  }

  // ---- Closed auctions -------------------------------------------------------------------

  /** In an EXPIRED auction the bid accepted last is the only one WON, and every other bid is
      CANCELLED or LOST. */
  lemma {:induction false} ExpiredAuctionIsClosed(s0: State, ops: seq<Op>, a: AuctionId, i: BidId)
    requires Seeded(s0)
    requires var s := Run(s0, ops);
             Has(s.auctions, a) && s.auctions[a].status == Expired && Has(s.bids, i) && s.bids[i].auction == a
    ensures var s := Run(s0, ops);
            if Last(s, a) == Some(i) then s.bids[i].status == BidWon
            else s.bids[i].status == BidCancelled || s.bids[i].status == BidLost
    ensures Last(Run(s0, ops), a).Some?
  {
    ReachableIsSound(s0, ops);
    assert Stands(Run(s0, ops), i);
  }
}
