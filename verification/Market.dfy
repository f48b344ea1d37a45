/** The market as a whole: what every operation keeps, exactly when each one is accepted, and what
    therefore holds after any run. */
module Market {
  import opened Tables
  import opened Operations
  import opened Ledger
  import opened Bidding
  import opened Holdings
  import opened Settlement
  import opened Sales

  /** The global invariant. */
  ghost predicate Sound(s: State) {
    Books(s) && Standing(s) && Owned(s)
  }

  /** A market just seeded: a pouch per guild with nothing reserved or spent, every COMMON and RARE
      item listed at its owner's stock, no auctions, no bids, an empty log. */
  ghost predicate Seeded(s: State) {
    && s.bids == [] && s.log == [] && s.auctions == [] && s.openingEnd == []
    && s.opening == s.pouches
    && (forall g :: 0 <= g < |s.pouches| ==>
                      PouchRowOk(s.pouches[g]) && s.pouches[g].reserved == 0 && s.pouches[g].spent == 0)
    && Held(s)
    && |s.openingStock| == |s.listings|
    && (forall l :: 0 <= l < |s.listings| ==>
                      s.openingStock[l] == s.listings[l].quantity && ListingOk(s, s.listings[l], s.openingStock[l]))
    && (forall l, m :: 0 <= l < m < |s.listings| ==> s.listings[l].item != s.listings[m].item)
  }

  lemma SeededIsSound(s: State)
    requires Seeded(s)
    ensures Sound(s) && Capped(s)
  {
    assert forall l :: 0 <= l < |s.listings| ==> ListingOk(s, s.listings[l], s.openingStock[l]);
    forall l ensures Sold(s.log, l, Takings(s, l)) {
    }
    forall g | 0 <= g < |s.pouches| ensures CappedGuild(s, g) {
    }
  }

  // ---- Placing a bid ---------------------------------------------------------------------

  /** The least next bid: the base price, then 5% above the bid accepted last. */
  predicate MeetsFloor(s: State, a: AuctionId, amount: int)
    requires Has(s.auctions, a)
  {
    match Last(s, a)
    case None => s.auctions[a].basePrice <= amount
    case Some(i) => 105 * s.bids[i].amount <= 100 * amount
  }

  /** Auction `a` is the live auction of the item. */
  predicate LiveOn(s: State, a: AuctionId, item: ItemId) {
    Has(s.auctions, a) && s.auctions[a].status == Active && s.auctions[a].item == item
  }

  lemma FloorIsExact(s: State, a: AuctionId, amount: int)
    requires Sound(s) && Has(s.auctions, a) && s.auctions[a].status == Active
    ensures MinRequired(s, a) <= amount <==> MeetsFloor(s, a, amount)
  {
    HighestIsLast(s, a);
    if Last(s, a).Some? {
      CeilDivIsLeast(s.bids[Last(s, a).value].amount * 105, 100, amount);
    }
  }

  /** Exactly when a bid is accepted, and what it leaves behind. */
  lemma BidAcceptedIff(s: State, op: Op, a: AuctionId)
    requires Sound(s) && op.PlaceBid? && LiveOn(s, a, op.item)
    ensures Exec(s, op).Ok?
            <==> && s.auctions[a].owner != op.guild
                 && op.now <= s.auctions[a].end
                 && MeetsFloor(s, a, op.amount)
                 && Affords(s, op.guild, op.amount, op.at)
    ensures Exec(s, op).Ok? ==> Exec(s, op).value == Placed(s, op, a) && PlanBid(s, op, a).Ok?
  {
    ActiveAuctionIsUnique(s, a);
    FloorIsExact(s, a, op.amount);
    if op.amount > 0 && s.auctions[a].owner != op.guild && PlanBid(s, op, a).Ok? {
      PlaceBidRuns(s, op, a);
    }
  }

  /** An accepted bid reserves its amount, becomes the last and highest bid of the auction, and moves
      the end time by five minutes (in nanoseconds) exactly when it came in the last five; it writes one
      log row, may carry out the lazy reset, and changes nothing else. */
  lemma AcceptedBidEffects(s: State, op: Op, a: AuctionId)
    requires Sound(s) && op.PlaceBid? && LiveOn(s, a, op.item) && Exec(s, op).Ok?
    ensures var s' := Exec(s, op).value;
            && Has(s.pouches, op.guild) && |s'.pouches| == |s.pouches|
            && s'.pouches[op.guild].reserved == s.pouches[op.guild].reserved + op.amount
            && s'.pouches[op.guild].total == s.pouches[op.guild].total
            && Last(s', a) == Some(|s.bids|) && Highest(s', a) == Some(|s.bids|)
            && s'.bids[|s.bids|] == Bid(a, op.guild, op.amount, BidActive)
            && var row, p := s.auctions[a], s.pouches[op.guild];
               var extension := if row.end - op.now <= 300_000_000_000 then 300_000_000_000 else 0;
               var spent := if p.lastReset == UtcDay(op.at) then p.spent else 0;
               && op.now <= row.end && op.now + 300_000_000_000 <= row.end + extension
               && s' == s.(auctions := s.auctions[a := row.(end := row.end + extension)],
                           bids := s.bids + [Bid(a, op.guild, op.amount, BidActive)],
                           pouches := s.pouches[op.guild := p.(reserved := p.reserved + op.amount, spent := spent,
                                                               lastReset := UtcDay(op.at))],
                           log := s.log + [LogEntry(op.guild, TxReserve, op.amount, OfAuction(a),
                                                    Some(UtcDay(op.at)))])
  {
    hide Exec, RunActions, PlanBid, MeetsFloor, Sound, Placed, LastBid, HighestActive;
    BidAcceptedIff(s, op, a);
    PlacedIs(s, op, a);
    PlaceBidKeepsSound(s, op);
    LiveHighestIsLast(Exec(s, op).value, a);
    NewestIsLast(s.bids, Bid(a, op.guild, op.amount, BidActive));
  }

  /** The rows of an accepted bid, one by one. */
  lemma PlacedIs(s: State, op: Op, a: AuctionId)
    requires op.PlaceBid? && Has(s.auctions, a) && Affords(s, op.guild, op.amount, op.at)
    ensures var row, p := s.auctions[a], s.pouches[op.guild];
            var extension := if row.end - op.now <= 300_000_000_000 then 300_000_000_000 else 0;
            var spent := if p.lastReset == UtcDay(op.at) then p.spent else 0;
            && Placed(s, op, a)
               == s.(auctions := s.auctions[a := row.(end := row.end + extension)],
                     bids := s.bids + [Bid(a, op.guild, op.amount, BidActive)],
                     pouches := s.pouches[op.guild := p.(reserved := p.reserved + op.amount, spent := spent,
                                                         lastReset := UtcDay(op.at))],
                     log := s.log + [LogEntry(op.guild, TxReserve, op.amount, OfAuction(a), Some(UtcDay(op.at)))])
  {
    hide UtcDay;
  }

  lemma LiveHighestIsLast(s: State, a: AuctionId)
    requires Sound(s) && Has(s.auctions, a) && s.auctions[a].status == Active
    ensures Highest(s, a) == Last(s, a)
  {
    hide Accounts, Escrowed, Reconciled, Owned;
    HighestIsLast(s, a);
  }

  lemma {:induction false} NewestIsLast(bids: seq<Bid>, b: Bid)
    ensures LastBid(bids + [b], b.auction, |bids + [b]|) == Some(|bids|)
  {
  }

  lemma AcceptedBidHasAuction(s: State, op: Op) returns (a: AuctionId)
    requires op.PlaceBid? && Exec(s, op).Ok?
    ensures LiveOn(s, a, op.item)
  {
    a := PreRead(s, op).value;
  }

  lemma PlaceBidKeepsSound(s: State, op: Op)
    requires Sound(s) && op.PlaceBid? && Exec(s, op).Ok?
    ensures Sound(Exec(s, op).value)
  {
    var a := AcceptedBidHasAuction(s, op);
    BidAcceptedIff(s, op, a);
    PlacedKeepsBooks(s, op, a);
    BiddingKeepsOwned(s, Placed(s, op, a), EntryOf(ReserveFor(op, a)));
  }

  // ---- Cancelling a bid ------------------------------------------------------------------

  lemma CancelCheckedIff(s: State, op: Op)
    requires BidRows(s) && Ladder(s.bids) && Standing(s) && op.CancelBid? && Has(s.bids, op.bid)
    ensures PlanCancel(s, op, s.bids[op.bid].auction).Ok?
            <==> && LiveOn(s, s.bids[op.bid].auction, op.item)
                 && s.bids[op.bid].guild == op.guild
                 && s.bids[op.bid].status == BidActive
                 && !IsLast(s.bids, op.bid)
  {
    var a := s.bids[op.bid].auction;
    assert BidRowOk(s, s.bids[op.bid]);
    if s.auctions[a].status == Active {
      HighestIsLast(s, a);
      LastIsLast(s.bids, op.bid);
    }
    hide BidRows, Ladder, Standing, IsLast, LastBid, HighestActive;
  }

  /** Exactly when a bid may be cancelled: its bidder asks, naming its item, while the auction is
      ACTIVE and a later bid was accepted. */
  lemma CancelAcceptedIff(s: State, op: Op)
    requires Sound(s) && op.CancelBid?
    ensures Exec(s, op).Ok?
            <==> && Has(s.bids, op.bid)
                 && LiveOn(s, s.bids[op.bid].auction, op.item)
                 && s.bids[op.bid].guild == op.guild
                 && s.bids[op.bid].status == BidActive
                 && !IsLast(s.bids, op.bid)
    ensures Exec(s, op).Ok? ==>
              BidRowOk(s, s.bids[op.bid]) && Exec(s, op).value == Released(s, op.bid, BidCancelled)
              && PlanCancel(s, op, s.bids[op.bid].auction).Ok?
  {
    if Has(s.bids, op.bid) {
      CancelCheckedIff(s, op);
      if PlanCancel(s, op, s.bids[op.bid].auction).Ok? {
        CancelKeepsBooks(s, op, s.bids[op.bid].auction);
      }
      hide Sound, IsLast, RunActions, PlanCancel;
    }
  }

  lemma CancelKeepsSound(s: State, op: Op)
    requires Sound(s) && op.CancelBid? && Exec(s, op).Ok?
    ensures Sound(Exec(s, op).value)
  {
    CancelAcceptedIff(s, op);
    var a := s.bids[op.bid].auction;
    CancelKeepsBooks(s, op, a);
    var b := s.bids[op.bid];
    BiddingKeepsOwned(s, Released(s, op.bid, BidCancelled), LogEntry(b.guild, TxRelease, b.amount, OfAuction(a), None));
  }

  // ---- Settling --------------------------------------------------------------------------

  /** The auction has ended and not yet been settled. */
  predicate Ended(s: State, a: AuctionId, now: Time) {
    Has(s.auctions, a) && s.auctions[a].status == Active && s.auctions[a].end < now
  }

  /** Exactly when a settlement commits, and everything it leaves behind: with no bid the auction
      expires; otherwise the bid accepted last wins. */
  lemma SettleAcceptedIff(s: State, op: Op)
    requires Sound(s) && op.SettleAuction?
    ensures Exec(s, op).Ok?
            <==> && Ended(s, op.auction, op.now)
                 && match Last(s, op.auction)
                    case None => true
                    case Some(w) => && LimitCovers(s, s.bids[w].guild, s.bids[w].amount, op.at)
                                    && CreditFits(s, s.auctions[op.auction].owner, s.bids[w].amount)
    ensures Exec(s, op).Ok? ==>
              && Highest(s, op.auction) == Last(s, op.auction)
              && match Last(s, op.auction)
                 case None => Exec(s, op).value == ExpiredAt(s, op.auction)
                 case Some(w) => WonBy(s, Exec(s, op).value, op.auction, w, op.at) && Books(Exec(s, op).value)
  {
    var a := op.auction;
    if Ended(s, a, op.now) {
      HighestIsLast(s, a);
      hide Books, Owned;
      match Highest(s, a)
      case None =>
        ExpireRuns(s, a, s.auctions[a].end);
      case Some(w) =>
        var pay, loop := PayOut(s, a, w, op.at), ReleaseLosers(s.bids, a, w, 0);
        PayOutRuns(s, a, w, op.at);
        RunConcat(s, pay + loop, [Do(PutAuction(a, Expired, s.auctions[a].end))]);
        RunConcat(s, pay, loop);
        if RunActions(s, pay).Ok? {
          var s' := WinnerSettles(s, a, w, op.at);
        }
    }
  }

  lemma SettleKeepsSound(s: State, op: Op)
    requires Sound(s) && op.SettleAuction? && Exec(s, op).Ok?
    ensures Sound(Exec(s, op).value)
  {
    SettleAcceptedIff(s, op);
    var s' := Exec(s, op).value;
    match Last(s, op.auction)
    case None => UnsoldExpires(s, op.auction);
    case Some(w) =>
      WonByStands(s, s', op.auction, w, op.at);
      WonByOwned(s, s', op.auction, w, op.at);
  }

  // ---- Purchasing ------------------------------------------------------------------------

  /** Listing `l` is the live listing of the item. */
  predicate LiveListing(s: State, l: ListingId, item: ItemId) {
    Has(s.listings, l) && s.listings[l].status == ListingActive && s.listings[l].item == item
  }

  /** Exactly when a purchase is accepted, and what it leaves behind. */
  lemma PurchaseAcceptedIff(s: State, op: Op, l: ListingId)
    requires Sound(s) && op.Purchase? && LiveListing(s, l, op.item)
    ensures Exec(s, op).Ok?
            <==> && 0 < op.units <= s.listings[l].quantity
                 && Affords(s, op.buyer, Total(s, op, l), op.at)
                 && SaleFits(s, op.buyer, s.listings[l].guild, Total(s, op, l))
    ensures Exec(s, op).Ok? ==> CanBuy(s, op, l) && PouchesReady(s, op, l) && Exec(s, op).value == Bought(s, op, l)
  {
    ActiveListingIsUnique(s, l);
    assert ListingOk(s, s.listings[l], s.openingStock[l]);
    if 0 < op.units && PlanPurchase(s, op, l).Ok? {
      PurchaseRuns(s, op, l);
    }
  }

  lemma PurchaseKeepsSound(s: State, op: Op)
    requires Sound(s) && op.Purchase? && Exec(s, op).Ok?
    ensures Sound(Exec(s, op).value)
  {
    var l := PreRead(s, op).value;
    PurchaseAcceptedIff(s, op, l);
    BoughtKeepsBooks(s, op, l);
    BoughtKeepsOwned(s, op, l);
    var s' := Bought(s, op, l);
    forall i | 0 <= i < |s'.bids| ensures Stands(s', i) {
      assert Stands(s, i);
    }
  }

  // ---- Any operation ---------------------------------------------------------------------

  /** Exactly when an item may be created. */
  lemma CreateItemAcceptedIff(s: State, op: Op)
    requires Sound(s) && op.CreateItem?
    ensures Exec(s, op).Ok?
            <==> && op.rarity.Some? && op.price.Some? && 0 <= op.price.value <= MAX_INT32
                 && (op.rarity != Some(Legendary) ==>
                       && op.price.value > 0
                       && op.quantity.Some? && 0 < op.quantity.value <= MAX_INT32)
                 && Has(s.pouches, if op.forGuild.Some? then op.forGuild.value else DEFAULT_GUILD)
                 && 0 <= op.forger < s.characters
    ensures Exec(s, op).Ok? ==>
              var (item, guild, quantity) := ItemOf(op);
              Exec(s, op).value == Created(s, item, guild, quantity)
  {
    if PlanItem(s, op).Ok? {
      CreateItemRuns(s, op);
      assert !HeldElsewhere(s.inventories, InvKey(ItemOf(op).1, |s.items|)) by {
        assert forall k :: k in s.inventories ==> InventoryRowOk(s, k, s.inventories[k]);
      }
    }
  }

  /** Exactly when an auction may be created: its owner holds the LEGENDARY item, which is not under
      auction, and neither the price nor the duration overflows; and the row it adds. */
  lemma CreateAuctionAcceptedIff(s: State, op: Op)
    requires op.CreateAuction?
    ensures Exec(s, op).Ok?
            <==> && op.seconds > 0 && Wrap64(op.seconds * SECOND) > 0
                 && IsLegendary(s, op.item) && InvKey(op.owner, op.item) in s.inventories
                 && !UnderAuction(s.auctions, op.item)
                 && 0 <= (if op.cachedPrice.Some? then op.cachedPrice.value else s.items[op.item].price) <= MAX_INT32
    ensures Exec(s, op).Ok? ==>
              exists row: Auction ::
                && Exec(s, op).value
                   == s.(auctions := s.auctions + [row], openingEnd := s.openingEnd + [row.end])
                && row.item == op.item && row.owner == op.owner && row.status == Active
                && row.start % 1000 == 0 && row.start <= op.now < row.start + 1000
                && row.end - row.start == Wrap64(op.seconds * SECOND)
                && row.basePrice == if op.cachedPrice.Some? then op.cachedPrice.value else s.items[op.item].price
  {
    if PlanAuction(s, op).Ok? {
      CreateAuctionRuns(s, op);
      RunOne(s, PlanAuction(s, op).value[0]);
      PerformDo(s, PlanAuction(s, op).value[0].write);
    }
  }

  lemma CreateItemKeepsSound(s: State, op: Op)
    requires Sound(s) && op.CreateItem? && Exec(s, op).Ok?
    ensures Sound(Exec(s, op).value)
  {
    CreateItemRuns(s, op);
    var (item, guild, quantity) := ItemOf(op);
    CreatedKeepsOwned(s, item, guild, quantity);
    CreationKeepsBooks(s, Created(s, item, guild, quantity));
  }

  lemma CreateAuctionKeepsSound(s: State, op: Op)
    requires Sound(s) && op.CreateAuction? && Exec(s, op).Ok?
    ensures Sound(Exec(s, op).value)
  {
    CreateAuctionRuns(s, op);
    var row := PlanAuction(s, op).value[0].write.newAuction;
    OpenedKeepsOwned(s, row);
    CreationKeepsBooks(s, Opened(s, row));
  }

  /** Every operation, accepted or refused, keeps the global invariant. */
  lemma StepKeepsSound(s: State, op: Op)
    requires Sound(s)
    ensures Sound(Step(s, op))
  {
    hide Books, Standing, Owned;
    if Exec(s, op).Ok? {
      match op
      case CreateItem(_, _, _, _, _) => CreateItemKeepsSound(s, op);
      case CreateAuction(_, _, _, _, _) => CreateAuctionKeepsSound(s, op);
      case PlaceBid(_, _, _, _, _) => PlaceBidKeepsSound(s, op);
      case CancelBid(_, _, _) => CancelKeepsSound(s, op);
      case SettleAuction(_, _, _) => SettleKeepsSound(s, op);
      case Purchase(_, _, _, _, _) => PurchaseKeepsSound(s, op);
    }
  }

  /** The invariant holds after any run of any operations. */
  lemma {:induction false} RunKeepsSound(s: State, ops: seq<Op>)
    requires Sound(s)
    ensures Sound(Run(s, ops))
    decreases |ops|
  {
    hide Sound;
    if ops != [] {
      StepKeepsSound(s, ops[0]);
      RunKeepsSound(Step(s, ops[0]), ops[1..]);
    }
  }
}
