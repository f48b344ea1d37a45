/** Buying from a listing, and creating items and auctions: stock, listing, price and log in lock-step. */
module Sales {
  import opened Tables
  import opened GoldPouch
  import opened Operations
  import opened Sums
  import opened Ledger
  import opened Bidding
  import opened Holdings

  // ---- Purchase --------------------------------------------------------------------------

  function Total(s: State, op: Op, l: ListingId): int
    requires op.Purchase? && Has(s.listings, l)
  {
    s.listings[l].basePrice * op.units
  }

  function BuyerReserves(s: State, op: Op, l: ListingId): Action
    requires op.Purchase? && Has(s.listings, l)
  {
    Pay(Reserve(op.at), op.buyer, Total(s, op, l), OfListing(l))
  }

  function BuyerPays(s: State, op: Op, l: ListingId): Action
    requires op.Purchase? && Has(s.listings, l)
  {
    Pay(Settle(TxPurchase, op.paidAt), op.buyer, Total(s, op, l), OfListing(l))
  }

  function SellerEarns(s: State, op: Op, l: ListingId): Action
    requires op.Purchase? && Has(s.listings, l)
  {
    Pay(Credit, s.listings[l].guild, Total(s, op, l), OfListing(l))
  }

  /** The seller's balance fits its column afterwards; buying from oneself always fits. */
  predicate SaleFits(s: State, buyer: GuildId, seller: GuildId, amount: int) {
    Has(s.pouches, seller) && (buyer == seller || s.pouches[seller].total + amount <= MAX_INT32)
  }

  /** The pouches and the log after the three movements of a purchase. */
  function Charged3(s: State, op: Op, l: ListingId): State
    requires op.Purchase? && Has(s.listings, l)
    requires PouchesReady(s, op, l)
  {
    Paid(Paid(Paid(s, BuyerReserves(s, op, l)), BuyerPays(s, op, l)), SellerEarns(s, op, l))
  }

  predicate PouchesReady(s: State, op: Op, l: ListingId)
    requires op.Purchase? && Has(s.listings, l)
  {
    && Has(s.pouches, op.buyer) && Has(s.pouches, s.listings[l].guild)
    && Moved(s.pouches[op.buyer], Reserve(op.at), Total(s, op, l)).Ok?
    && Moved(Moved(s.pouches[op.buyer], Reserve(op.at), Total(s, op, l)).value,
             Settle(TxPurchase, op.paidAt), Total(s, op, l)).Ok?
  }

  /** The state after an accepted purchase. */
  function Bought(s: State, op: Op, l: ListingId): State
    requires op.Purchase? && Has(s.listings, l) && PouchesReady(s, op, l)
    requires InvKey(s.listings[l].guild, op.item) in s.inventories
  {
    var row := s.listings[l];
    var key := InvKey(row.guild, op.item);
    var left := row.quantity - op.units;
    Charged3(s, op, l).(
      listings := s.listings[l := row.(quantity := left, status := if left == 0 then ListingExpired else row.status)],
      inventories := s.inventories[key := s.inventories[key] - op.units])
  }

  /** What the checks of a purchase leave to assume about the listing. */
  ghost predicate CanBuy(s: State, op: Op, l: ListingId) {
    && Books(s) && Owned(s) && op.Purchase?
    && PlanPurchase(s, op, l).Ok? && s.listings[l].item == op.item && op.units > 0
  }

  lemma PositiveProduct(x: int, y: int)
    requires x > 0 && y > 0
    ensures x * y > 0
  {
  }

  lemma TotalPositive(s: State, op: Op, l: ListingId)
    requires CanBuy(s, op, l)
    ensures ListingOk(s, s.listings[l], s.openingStock[l])
    ensures 0 < Total(s, op, l)
  {
    assert ListingOk(s, s.listings[l], s.openingStock[l]);
    PositiveProduct(s.listings[l].basePrice, op.units);
  }

  /** The buyer's side never fails once the reservation is accepted. */
  lemma {:induction false} BuyerSide(s: State, op: Op, l: ListingId)
    requires CanBuy(s, op, l) && Affords(s, op.buyer, Total(s, op, l), op.at)
    ensures PouchesReady(s, op, l)
    ensures RunActions(s, [BuyerReserves(s, op, l), BuyerPays(s, op, l)])
            == Ok(Paid(Paid(s, BuyerReserves(s, op, l)), BuyerPays(s, op, l)))
    ensures var p := Paid(Paid(s, BuyerReserves(s, op, l)), BuyerPays(s, op, l)).pouches[op.buyer];
            && PouchRowOk(p)
            && p.total == s.pouches[op.buyer].total - Total(s, op, l)
            && p.reserved == s.pouches[op.buyer].reserved
  {
    TotalPositive(s, op, l);
    assert PouchRowOk(s.pouches[op.buyer]);
    hide Books, Owned;
    SettleAfterReserveSucceeds(s.pouches[op.buyer], Total(s, op, l), op.at, TxPurchase, op.paidAt);
    ReservePays(s, op, l);
    PerformPay(Paid(s, BuyerReserves(s, op, l)), BuyerPays(s, op, l));
    RunTwo(s, BuyerReserves(s, op, l), BuyerPays(s, op, l));
  }

  lemma ReservePays(s: State, op: Op, l: ListingId)
    requires CanBuy(s, op, l)
    ensures Perform(s, BuyerReserves(s, op, l)).Ok? <==> Affords(s, op.buyer, Total(s, op, l), op.at)
    ensures Affords(s, op.buyer, Total(s, op, l), op.at) ==>
              Perform(s, BuyerReserves(s, op, l)).value == Paid(s, BuyerReserves(s, op, l))
  {
    ReservePerforms(s, op.buyer, Total(s, op, l), op.at, OfListing(l));
  }

  lemma SellerEarnsIff(s: State, op: Op, l: ListingId)
    requires CanBuy(s, op, l) && Affords(s, op.buyer, Total(s, op, l), op.at)
    ensures PouchesReady(s, op, l)
    ensures var paid := Paid(Paid(s, BuyerReserves(s, op, l)), BuyerPays(s, op, l));
            && (Perform(paid, SellerEarns(s, op, l)).Ok?
                <==> SaleFits(s, op.buyer, s.listings[l].guild, Total(s, op, l)))
            && (Perform(paid, SellerEarns(s, op, l)).Ok? ==>
                  Perform(paid, SellerEarns(s, op, l)).value == Charged3(s, op, l))
  {
    BuyerSide(s, op, l);
    TotalPositive(s, op, l);
    assert PouchRowOk(s.pouches[s.listings[l].guild]);
    hide Books, Owned, Total, Affords;
    PerformPay(Paid(Paid(s, BuyerReserves(s, op, l)), BuyerPays(s, op, l)), SellerEarns(s, op, l));
  }

  /** The seller's side fails only when the seller's column overflows. */
  lemma SellerSide(s: State, op: Op, l: ListingId)
    requires CanBuy(s, op, l) && Affords(s, op.buyer, Total(s, op, l), op.at)
    ensures PouchesReady(s, op, l)
    ensures var paid := Paid(Paid(s, BuyerReserves(s, op, l)), BuyerPays(s, op, l));
            var r := RunActions(paid, PlanPurchase(s, op, l).value[2..]);
            && (r.Ok? <==> SaleFits(s, op.buyer, s.listings[l].guild, Total(s, op, l)))
            && (r.Ok? ==> r.value == Bought(s, op, l))
  {
    hide Books, Owned, RunActions, Perform, Affords;
    var acts := PlanPurchase(s, op, l).value;
    assert acts[2..] == [SellerEarns(s, op, l)] + [acts[3], acts[4]];
    hide Total;
    SellerEarnsIff(s, op, l);
    var paid := Paid(Paid(s, BuyerReserves(s, op, l)), BuyerPays(s, op, l));
    RunConcat(paid, [SellerEarns(s, op, l)], [acts[3], acts[4]]);
    RunOne(paid, SellerEarns(s, op, l));
    if SaleFits(s, op.buyer, s.listings[l].guild, Total(s, op, l)) {
      StockRuns(s, Charged3(s, op, l), op, l);
    }
  }

  /** A purchase goes through exactly when the buyer's wallet affords it and the seller's column
      holds the price. */
  lemma {:induction false} PurchaseRuns(s: State, op: Op, l: ListingId)
    requires CanBuy(s, op, l)
    ensures RunActions(s, PlanPurchase(s, op, l).value).Ok?
            <==> && Affords(s, op.buyer, Total(s, op, l), op.at)
                 && SaleFits(s, op.buyer, s.listings[l].guild, Total(s, op, l))
    ensures RunActions(s, PlanPurchase(s, op, l).value).Ok? ==>
              PouchesReady(s, op, l) && RunActions(s, PlanPurchase(s, op, l).value).value == Bought(s, op, l)
  {
    var acts := PlanPurchase(s, op, l).value;
    var front := [BuyerReserves(s, op, l), BuyerPays(s, op, l)];
    hide Books, Owned;
    RunTwo(s, front[0], front[1]);
    ReservePays(s, op, l);
    RunConcat(s, front, acts[2..]);
    assert acts == front + acts[2..];
    if Affords(s, op.buyer, Total(s, op, l), op.at) {
      BuyerSide(s, op, l);
      SellerSide(s, op, l);
    }
  }

  lemma {:induction false} StockRuns(s: State, paid: State, op: Op, l: ListingId)
    requires CanBuy(s, op, l)
    requires paid == s.(pouches := paid.pouches, log := paid.log)
    ensures var acts := PlanPurchase(s, op, l).value;
            var row := s.listings[l];
            var key := InvKey(row.guild, op.item);
            var left := row.quantity - op.units;
            RunActions(paid, [acts[3], acts[4]])
            == Ok(paid.(listings := s.listings[l := row.(quantity := left,
                                                         status := if left == 0 then ListingExpired else row.status)],
                        inventories := s.inventories[key := s.inventories[key] - op.units]))
  {
    var acts := PlanPurchase(s, op, l).value;
    assert ListingOk(s, s.listings[l], s.openingStock[l]);
    hide Books, Owned;
    PerformDo(paid, acts[3].write);
    PerformDo(Apply(paid, acts[3].write), acts[4].write);
    RunTwo(paid, acts[3], acts[4]);
  }

  /** Rows that concern no auction leave the auctions' accounts alone. */
  lemma AuctionsUntouched(log: seq<LogEntry>, e: LogEntry, bids: seq<Bid>, a: AuctionId)
    requires Reconciles(log, bids, a) && !e.ref.OfAuction?
    ensures Reconciles(log + [e], bids, a)
  {
  }

  /** A purchase leaves every reserved balance and every limit as it was, and moves the price from
      the buyer's total to the seller's. */
  lemma BoughtBalances(s: State, op: Op, l: ListingId, g: GuildId)
    requires CanBuy(s, op, l) && Affords(s, op.buyer, Total(s, op, l), op.at) && Has(s.pouches, g)
    ensures PouchesReady(s, op, l) && InvKey(s.listings[l].guild, op.item) in s.inventories
    ensures var s' := Bought(s, op, l);
            && |s'.pouches| == |s.pouches|
            && s'.pouches[g].reserved == s.pouches[g].reserved
            && s'.pouches[g].limit == s.pouches[g].limit
            && s'.pouches[g].total
               == s.pouches[g].total - (if g == op.buyer then Total(s, op, l) else 0)
                  + (if g == s.listings[l].guild then Total(s, op, l) else 0)
  {
    BuyerSide(s, op, l);
    hide Books, Owned;
    var p := s.pouches[op.buyer];
    MovedChanges(p, Reserve(op.at), Total(s, op, l));
    MovedChanges(Moved(p, Reserve(op.at), Total(s, op, l)).value, Settle(TxPurchase, op.paidAt), Total(s, op, l));
  }

  lemma {:induction false} BoughtKeepsBooks(s: State, op: Op, l: ListingId)
    requires CanBuy(s, op, l) && RunActions(s, PlanPurchase(s, op, l).value).Ok?
    ensures PouchesReady(s, op, l) && Books(Bought(s, op, l))
  {
    PurchaseRuns(s, op, l);
    RunKeepsAccounts(s, PlanPurchase(s, op, l).value);
    var s' := Bought(s, op, l);
    forall g | 0 <= g < |s'.pouches|
      ensures s'.pouches[g].reserved == Bids(s'.bids, BidsOfGuild(g), BidActive)
    {
      BoughtBalances(s, op, l, g);
    }
    forall i | 0 <= i < |s'.bids| ensures BidRowOk(s', s'.bids[i]) {
      assert BidRowOk(s, s.bids[i]);
      BoughtBalances(s, op, l, s.bids[i].guild);
    }
    forall a ensures Reconciles(s'.log, s'.bids, a) {
      BoughtReconciles(s, op, l, a);
    }
  }

  lemma BoughtReconciles(s: State, op: Op, l: ListingId, a: AuctionId)
    requires op.Purchase? && Has(s.listings, l) && PouchesReady(s, op, l)
    requires Reconciles(s.log, s.bids, a)
    ensures Reconciles(Charged3(s, op, l).log, s.bids, a)
  {
    var log1 := s.log + [EntryOf(BuyerReserves(s, op, l))];
    AuctionsUntouched(s.log, EntryOf(BuyerReserves(s, op, l)), s.bids, a);
    AuctionsUntouched(log1, EntryOf(BuyerPays(s, op, l)), s.bids, a);
    AuctionsUntouched(log1 + [EntryOf(BuyerPays(s, op, l))], EntryOf(SellerEarns(s, op, l)), s.bids, a);
  }

  /** The three rows of a purchase are booked under its own listing, and under no other. */
  lemma BoughtSold(s: State, op: Op, l: ListingId, x: ListingId, takings: int)
    requires op.Purchase? && Has(s.listings, l) && PouchesReady(s, op, l)
    requires Sold(s.log, x, takings)
    ensures Sold(Charged3(s, op, l).log, x, takings + if x == l then Total(s, op, l) else 0)
  {
    hide Total, Moved, Logged;
    var e1, e2, e3 := EntryOf(BuyerReserves(s, op, l)), EntryOf(BuyerPays(s, op, l)), EntryOf(SellerEarns(s, op, l));
    LoggedByKind(s.log, e1, LogOfRef(OfListing(x)));
    LoggedByKind(s.log + [e1], e2, LogOfRef(OfListing(x)));
    LoggedByKind(s.log + [e1] + [e2], e3, LogOfRef(OfListing(x)));
  }

  lemma TakingsGrow(price: int, opening: int, quantity: int, units: int)
    ensures price * (opening - (quantity - units)) == price * (opening - quantity) + price * units
  {
  }

  lemma TakingsAfter(s: State, op: Op, l: ListingId, x: ListingId)
    requires op.Purchase? && Has(s.listings, l) && Has(s.openingStock, l) && PouchesReady(s, op, l)
    requires InvKey(s.listings[l].guild, op.item) in s.inventories
    ensures Takings(Bought(s, op, l), x) == Takings(s, x) + if x == l then Total(s, op, l) else 0
  {
    assert Bought(s, op, l).openingStock == s.openingStock;
    hide Charged3, PouchesReady;
    if x == l {
      TakingsGrow(s.listings[l].basePrice, s.openingStock[l], s.listings[l].quantity, op.units);
    }
  }

  lemma BoughtTakings(s: State, op: Op, l: ListingId, x: ListingId)
    requires CanBuy(s, op, l) && PouchesReady(s, op, l) && InvKey(s.listings[l].guild, op.item) in s.inventories
    ensures Sold(Bought(s, op, l).log, x, Takings(Bought(s, op, l), x))
  {
    assert Sold(s.log, x, Takings(s, x)) && Has(s.openingStock, l);
    hide Books, Owned;
    BoughtSold(s, op, l, x, Takings(s, x));
    TakingsAfter(s, op, l, x);
    hide Takings, Sold, Total;
  }

  lemma BoughtKeepsListed(s: State, op: Op, l: ListingId)
    requires CanBuy(s, op, l) && Affords(s, op.buyer, Total(s, op, l), op.at)
    ensures PouchesReady(s, op, l)
    ensures Listed(Bought(s, op, l))
  {
    BuyerSide(s, op, l);
    var s' := Bought(s, op, l);
    var row := s.listings[l];
    assert ListingOk(s, row, s.openingStock[l]);
    forall x ensures Sold(s'.log, x, Takings(s', x)) {
      BoughtTakings(s, op, l, x);
    }
    hide Books, Sold, Charged3;
    forall x | 0 <= x < |s'.listings| ensures ListingOk(s', s'.listings[x], s'.openingStock[x]) {
      assert ListingOk(s, s.listings[x], s.openingStock[x]);
      assert x != l ==> s.listings[x].item != row.item;
    }
  }

  lemma BoughtKeepsOwned(s: State, op: Op, l: ListingId)
    requires CanBuy(s, op, l) && Affords(s, op.buyer, Total(s, op, l), op.at)
    ensures PouchesReady(s, op, l)
    ensures Owned(Bought(s, op, l))
  {
    BuyerSide(s, op, l);
    BoughtKeepsListed(s, op, l);
    var s' := Bought(s, op, l);
    var key := InvKey(s.listings[l].guild, op.item);
    assert ListingOk(s, s.listings[l], s.openingStock[l]);
    forall i | 0 <= i < |s'.items| ensures HasHolder(s'.inventories, i) {
      assert HasHolder(s.inventories, i);
      var k :| k in s.inventories && k.item == i;
      assert k in s'.inventories;
    }
    forall k | k in s'.inventories ensures InventoryRowOk(s', k, s'.inventories[k]) {
      assert InventoryRowOk(s, k, s.inventories[k]);
    }
    forall a | 0 <= a < |s'.auctions| ensures AuctionRowOk(s', s'.auctions[a]) {
      assert AuctionRowOk(s, s.auctions[a]);
    }
  }

  // ---- Creating an item ------------------------------------------------------------------

  /** The state after an item was created, listed if it is not LEGENDARY. */
  function Created(s: State, item: Item, guild: GuildId, quantity: int): State {
    var i := |s.items|;
    s.(items := s.items + [item],
       inventories := s.inventories[InvKey(guild, i) := quantity],
       listings := if item.rarity == Legendary then s.listings
                   else s.listings + [Listing(i, guild, quantity, item.price, ListingActive)],
       openingStock := if item.rarity == Legendary then s.openingStock else s.openingStock + [quantity])
  }

  /** The item, its owner and its quantity, as an accepted request states them. */
  function ItemOf(op: Op): (Item, GuildId, int)
    requires op.CreateItem? && op.rarity.Some? && op.price.Some?
    requires op.rarity.value != Legendary ==> op.quantity.Some?
  {
    (Item(op.rarity.value, op.price.value, op.forger),
     if op.forGuild.Some? then op.forGuild.value else DEFAULT_GUILD,
     if op.rarity.value != Legendary then op.quantity.value else 1)
  }

  /** The forger exists and the values fit their columns. */
  predicate Storable(s: State, item: Item, quantity: int) {
    0 <= item.forger < s.characters && item.price <= MAX_INT32 && quantity <= MAX_INT32
  }

  /** Only an unknown forger, a value too large for its column, or an item id another guild already
      holds stops a creation. */
  lemma {:induction false} CreateItemRuns(s: State, op: Op)
    requires op.CreateItem? && PlanItem(s, op).Ok?
    ensures var (item, guild, quantity) := ItemOf(op);
            var r := RunActions(s, PlanItem(s, op).value);
            && Has(s.pouches, guild) && 0 < quantity && (item.rarity != Legendary ==> 0 < item.price)
            && 0 <= item.price
            && (r.Ok? ==> Storable(s, item, quantity) && r.value == Created(s, item, guild, quantity))
            && (Storable(s, item, quantity) && !HeldElsewhere(s.inventories, InvKey(guild, |s.items|)) ==> r.Ok?)
  {
    var (item, guild, quantity) := ItemOf(op);
    var acts := PlanItem(s, op).value;
    var front := [acts[0], acts[1]];
    assert acts == front + acts[2..];
    PerformDo(s, acts[0].write);
    var s1 := Apply(s, acts[0].write);
    PerformDo(s1, acts[1].write);
    var s2 := Apply(s1, acts[1].write);
    RunTwo(s, acts[0], acts[1]);
    RunConcat(s, front, acts[2..]);
    if item.rarity != Legendary {
      RunOne(s2, acts[2]);
      assert acts[2..] == [acts[2]];
      PerformDo(s2, acts[2].write);
    } else {
      assert acts[2..] == [];
    }
  }

  lemma CreatedKeepsOwned(s: State, item: Item, guild: GuildId, quantity: int)
    requires Owned(s) && Has(s.pouches, guild) && 0 < quantity <= MAX_INT32 && 0 <= item.price <= MAX_INT32
    requires item.rarity == Legendary ==> quantity == 1
    requires item.rarity != Legendary ==> 0 < item.price
    ensures Owned(Created(s, item, guild, quantity))
  {
    CreatedKeepsHeld(s, item, guild, quantity);
    CreatedKeepsListed(s, item, guild, quantity);
    var s' := Created(s, item, guild, quantity);
    hide Held, Listed;
    forall a | 0 <= a < |s'.auctions| ensures AuctionRowOk(s', s'.auctions[a]) {
      assert AuctionRowOk(s, s.auctions[a]);
    }
  }

  /** A listing just created has sold nothing. */
  lemma CreatedTakings(s: State, item: Item, guild: GuildId, quantity: int, l: ListingId)
    requires |s.openingStock| == |s.listings|
    ensures Takings(Created(s, item, guild, quantity), l) == Takings(s, l)
  {
  }

  lemma CreatedKeepsListed(s: State, item: Item, guild: GuildId, quantity: int)
    requires Listed(s) && Has(s.pouches, guild) && 0 < quantity <= MAX_INT32 && 0 <= item.price <= MAX_INT32
    requires item.rarity != Legendary ==> 0 < item.price
    ensures Listed(Created(s, item, guild, quantity))
  {
    hide Sold, Takings;
    var s' := Created(s, item, guild, quantity);
    forall l ensures Sold(s'.log, l, Takings(s', l)) {
      assert Sold(s.log, l, Takings(s, l));
      CreatedTakings(s, item, guild, quantity, l);
    }
    forall l | 0 <= l < |s'.listings| ensures ListingOk(s', s'.listings[l], s'.openingStock[l]) {
      if l < |s.listings| {
        assert ListingOk(s, s.listings[l], s.openingStock[l]);
      }
    }
    forall l, m | 0 <= l < m < |s'.listings| ensures s'.listings[l].item != s'.listings[m].item {
      assert ListingOk(s, s.listings[l], s.openingStock[l]);
    }
  }

  lemma CreatedKeepsHeld(s: State, item: Item, guild: GuildId, quantity: int)
    requires Held(s) && Has(s.pouches, guild) && 0 < quantity <= MAX_INT32
    requires item.rarity == Legendary ==> quantity == 1
    ensures Held(Created(s, item, guild, quantity))
  {
    var s' := Created(s, item, guild, quantity);
    forall k | k in s'.inventories
      ensures InventoryRowOk(s', k, s'.inventories[k])
      ensures k.item == |s.items| <==> k == InvKey(guild, |s.items|)
    {
      if k in s.inventories {
        assert InventoryRowOk(s, k, s.inventories[k]);
      }
    }
    hide InventoryRowOk;
    forall i | 0 <= i < |s'.items| ensures HasHolder(s'.inventories, i) {
      if i < |s.items| {
        assert HasHolder(s.inventories, i);
        var k :| k in s.inventories && k.item == i;
        assert k in s'.inventories;
      } else {
        assert InvKey(guild, i) in s'.inventories;
      }
    }
  }

  // ---- Creating an auction ---------------------------------------------------------------

  function Opened(s: State, row: Auction): State {
    s.(auctions := s.auctions + [row], openingEnd := s.openingEnd + [row.end])
  }

  lemma {:induction false} CreateAuctionRuns(s: State, op: Op)
    requires op.CreateAuction? && PlanAuction(s, op).Ok?
    ensures var row := PlanAuction(s, op).value[0].write.newAuction;
            var r := RunActions(s, PlanAuction(s, op).value);
            && row.status == Active && InvKey(row.owner, row.item) in s.inventories
            && (r.Ok? ==> Refusal(s, AppendAuction(row)).None?)
            && (r.Ok? ==> r.value == Opened(s, row))
  {
    var acts := PlanAuction(s, op).value;
    RunOne(s, acts[0]);
    PerformDo(s, acts[0].write);
  }

  /** The database admits an auction row into sound tables, and they stay sound, if its owner holds
      the item at that moment. */
  lemma OpenedKeepsOwned(s: State, row: Auction)
    requires Owned(s) && Refusal(s, AppendAuction(row)).None? && row.status == Active
    requires InvKey(row.owner, row.item) in s.inventories
    ensures Owned(Opened(s, row))
  {
    var s' := Opened(s, row);
    assert InventoryRowOk(s, InvKey(row.owner, row.item), s.inventories[InvKey(row.owner, row.item)]);
    forall a | 0 <= a < |s'.auctions| ensures AuctionRowOk(s', s'.auctions[a]) {
      if a < |s.auctions| {
        assert AuctionRowOk(s, s.auctions[a]);
      }
    }
    forall k | k in s'.inventories ensures InventoryRowOk(s', k, s'.inventories[k]) {
      assert InventoryRowOk(s, k, s.inventories[k]);
    }
    forall l | 0 <= l < |s'.listings| ensures ListingOk(s', s'.listings[l], s'.openingStock[l]) {
      assert ListingOk(s, s.listings[l], s.openingStock[l]);
    }
    forall l ensures Sold(s'.log, l, Takings(s', l)) {
      assert Sold(s.log, l, Takings(s, l));
    }
  }

  // ---- Books under both ------------------------------------------------------------------

  /** Creating items and auctions leaves bids, pouches and log alone, and so the books. */
  lemma CreationKeepsBooks(s: State, s': State)
    requires Books(s) && Standing(s)
    requires s'.pouches == s.pouches && s'.bids == s.bids && s'.log == s.log && s'.opening == s.opening
    requires s.auctions <= s'.auctions
    ensures Books(s') && Standing(s')
  {
    forall i | 0 <= i < |s'.bids| ensures BidRowOk(s', s'.bids[i]) {
      assert BidRowOk(s, s.bids[i]);
    }
    forall i | 0 <= i < |s'.bids| ensures Stands(s', i) {
      assert Stands(s, i) && BidRowOk(s, s.bids[i]);
    }
    forall g | 0 <= g < |s'.pouches| ensures Replays(s', g) {
      assert Replays(s, g);
    }
  }
}
