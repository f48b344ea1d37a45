/** What accepted requests leave behind, in the terms of the request and the tables before it. */
module Outcomes {
  import opened Tables
  import opened Operations
  import opened Bidding
  import opened Holdings
  import opened Sales
  import opened Market

  // ---- Creating an item ------------------------------------------------------------------

  /** The guild a creation request names, or the default one. */
  function Recipient(op: Op): GuildId
    requires op.CreateItem?
  {
    match op.forGuild
    case Some(g) => g
    case None => DEFAULT_GUILD
  }

  /** Exactly the rows of an accepted creation: the item as requested, one inventory row for the guild
      named, and for a COMMON or RARE item a listing by that guild of the quantity at the price. */
  lemma CreatedItemEffects(s: State, op: Op)
    requires Sound(s) && op.CreateItem? && Exec(s, op).Ok?
    ensures op.rarity.Some? && op.price.Some? && (op.rarity.value != Legendary ==> op.quantity.Some?)
    ensures var s', i, g := Exec(s, op).value, |s.items|, Recipient(op);
            var quantity := if op.rarity.value == Legendary then 1 else op.quantity.value;
            && s'.items == s.items + [Item(op.rarity.value, op.price.value, op.forger)]
            && (forall k :: k in s'.inventories <==> k in s.inventories || k == InvKey(g, i))
            && (forall k :: k in s.inventories ==> k.item != i && s'.inventories[k] == s.inventories[k])
            && s'.inventories[InvKey(g, i)] == quantity
            && s'.listings
               == s.listings + (if op.rarity.value == Legendary then []
                                else [Listing(i, g, quantity, op.price.value, ListingActive)])
            && s' == s.(items := s'.items, inventories := s'.inventories, listings := s'.listings,
                        openingStock := s'.openingStock)
  {
    CreateItemAcceptedIff(s, op);
    assert forall k :: k in s.inventories ==> InventoryRowOk(s, k, s.inventories[k]);
    hide Sound, Exec;
  }

  // ---- Purchasing ------------------------------------------------------------------------

  /** Exactly what an accepted purchase moves: the price from buyer to seller, the units off the listing
      and off the seller's stock, and three log rows. */
  lemma PurchaseEffects(s: State, op: Op, l: ListingId)
    requires op.Purchase? && Sound(s) && LiveListing(s, l, op.item) && Exec(s, op).Ok?
    ensures var s', row := Exec(s, op).value, s.listings[l];
            var cost := row.basePrice * op.units;
            && 0 < op.units <= row.quantity && |s'.pouches| == |s.pouches|
            && (forall g :: 0 <= g < |s.pouches| ==> BalancesMoved(s, s', op.buyer, row.guild, cost, g))
            && s'.listings == s.listings[l := row.(quantity := row.quantity - op.units,
                                                   status := if op.units == row.quantity then ListingExpired
                                                             else ListingActive)]
            && s'.inventories == s.inventories[InvKey(row.guild, row.item) := row.quantity - op.units]
            && s'.log == s.log + [LogEntry(op.buyer, TxReserve, cost, OfListing(l), Some(UtcDay(op.at)))]
                               + [LogEntry(op.buyer, TxPurchase, cost, OfListing(l), Some(UtcDay(op.paidAt)))]
                               + [LogEntry(row.guild, TxCredit, cost, OfListing(l), None)]
            && s' == s.(pouches := s'.pouches, listings := s'.listings, inventories := s'.inventories, log := s'.log)
  {
    hide Sound, Exec, PouchesReady, Affords, Bought, Total, CanBuy, SaleFits;
    LiveRow(s, l, op.item);
    PurchaseAcceptedIff(s, op, l);
    BoughtIs(s, op, l);
    CountedPouches(s, op, l);
    forall g | 0 <= g < |s.pouches|
      ensures BalancesMoved(s, Bought(s, op, l), op.buyer, s.listings[l].guild, Total(s, op, l), g)
    {
      BalancesAfter(s, op, l, g);
    }
  }

  /** Guild `g`'s pouch after `cost` moved from payer to payee. */
  predicate BalancesMoved(s: State, s': State, payer: GuildId, payee: GuildId, cost: int, g: GuildId)
    requires Has(s.pouches, g)
  {
    && Has(s'.pouches, g)
    && s'.pouches[g].reserved == s.pouches[g].reserved
    && s'.pouches[g].limit == s.pouches[g].limit
    && s'.pouches[g].total
       == s.pouches[g].total - (if g == payer then cost else 0) + (if g == payee then cost else 0)
  }

  lemma CountedPouches(s: State, op: Op, l: ListingId)
    requires op.Purchase? && Has(s.listings, l) && PouchesReady(s, op, l)
    requires InvKey(s.listings[l].guild, op.item) in s.inventories
    ensures |Bought(s, op, l).pouches| == |s.pouches|
  {
    hide Total;
  }

  lemma BalancesAfter(s: State, op: Op, l: ListingId, g: GuildId)
    requires CanBuy(s, op, l) && Affords(s, op.buyer, Total(s, op, l), op.at) && Has(s.pouches, g)
    ensures PouchesReady(s, op, l) && InvKey(s.listings[l].guild, op.item) in s.inventories
    ensures BalancesMoved(s, Bought(s, op, l), op.buyer, s.listings[l].guild, Total(s, op, l), g)
  {
    hide CanBuy, Affords, Total, PouchesReady, Bought;
    BoughtBalances(s, op, l, g);
  }

  lemma LiveRow(s: State, l: ListingId, item: ItemId)
    requires Sound(s) && LiveListing(s, l, item)
    ensures InvKey(s.listings[l].guild, item) in s.inventories
    ensures s.inventories[InvKey(s.listings[l].guild, item)] == s.listings[l].quantity
  {
    assert ListingOk(s, s.listings[l], s.openingStock[l]);
  }

  /** The rows of an accepted purchase other than the pouches, one by one. */
  lemma BoughtIs(s: State, op: Op, l: ListingId)
    requires op.Purchase? && Has(s.listings, l) && PouchesReady(s, op, l)
    requires InvKey(s.listings[l].guild, op.item) in s.inventories
    ensures var s', row := Bought(s, op, l), s.listings[l];
            var cost, key, left := row.basePrice * op.units, InvKey(row.guild, op.item), row.quantity - op.units;
            && Total(s, op, l) == cost
            && s'.listings == s.listings[l := row.(quantity := left,
                                                   status := if left == 0 then ListingExpired else row.status)]
            && s'.inventories == s.inventories[key := s.inventories[key] - op.units]
            && s'.log == s.log + [LogEntry(op.buyer, TxReserve, cost, OfListing(l), Some(UtcDay(op.at)))]
                               + [LogEntry(op.buyer, TxPurchase, cost, OfListing(l), Some(UtcDay(op.paidAt)))]
                               + [LogEntry(row.guild, TxCredit, cost, OfListing(l), None)]
            && s' == s.(pouches := s'.pouches, listings := s'.listings, inventories := s'.inventories, log := s'.log)
  {
    hide PouchesReady, UtcDay;
  }

  /** Buying k units of an item just created charges a buyer other than the seller k times the price asked
      for when it was created, and pays the seller that. */
  lemma FirstPurchaseCharges(s: State, create: Op, buy: Op)
    requires Sound(s) && create.CreateItem? && Exec(s, create).Ok? && create.rarity != Some(Legendary)
    requires buy.Purchase? && buy.item == |s.items| && Exec(Exec(s, create).value, buy).Ok?
    ensures create.price.Some? && Has(s.pouches, buy.buyer) && Has(s.pouches, Recipient(create))
    ensures var s', g := Exec(Exec(s, create).value, buy).value, Recipient(create);
            && |s'.pouches| == |s.pouches|
            && (buy.buyer != g ==>
                  && s'.pouches[buy.buyer].total == s.pouches[buy.buyer].total - buy.units * create.price.value
                  && s'.pouches[g].total == s.pouches[g].total + buy.units * create.price.value)
            && (buy.buyer == g ==> s'.pouches[g].total == s.pouches[g].total)
  {
    var s1, l := Exec(s, create).value, |s.listings|;
    hide Sound, Exec, LiveListing, BalancesMoved;
    NewListing(s, create);
    StepKeepsSound(s, create);
    PurchaseEffects(s1, buy, l);
    BuyerExists(s1, buy, l);
    Commutes(create.price.value, buy.units);
    FirstBalances(s, s1, Exec(s1, buy).value, buy.buyer, Recipient(create), create.price.value * buy.units);
  }

  lemma NewListing(s: State, create: Op)
    requires Sound(s) && create.CreateItem? && Exec(s, create).Ok? && create.rarity != Some(Legendary)
    ensures create.price.Some? && Has(s.pouches, Recipient(create))
    ensures var s1, l := Exec(s, create).value, |s.listings|;
            && LiveListing(s1, l, |s.items|) && s1.pouches == s.pouches
            && s1.listings[l].guild == Recipient(create) && s1.listings[l].basePrice == create.price.value
  {
    hide Sound, Exec;
    CreatedItemEffects(s, create);
    CreateItemAcceptedIff(s, create);
  }

  lemma BuyerExists(s: State, buy: Op, l: ListingId)
    requires buy.Purchase? && Sound(s) && LiveListing(s, l, buy.item) && Exec(s, buy).Ok?
    ensures Has(s.pouches, buy.buyer)
  {
    hide Sound, Exec;
    PurchaseAcceptedIff(s, buy, l);
  }

  lemma FirstBalances(s: State, s1: State, s2: State, payer: GuildId, payee: GuildId, cost: int)
    requires s1.pouches == s.pouches && Has(s.pouches, payer) && Has(s.pouches, payee)
    requires |s2.pouches| == |s.pouches|
    requires BalancesMoved(s1, s2, payer, payee, cost, payer) && BalancesMoved(s1, s2, payer, payee, cost, payee)
    ensures payer != payee ==>
              && s2.pouches[payer].total == s.pouches[payer].total - cost
              && s2.pouches[payee].total == s.pouches[payee].total + cost
    ensures payer == payee ==> s2.pouches[payee].total == s.pouches[payee].total
  {
  }

  lemma Commutes(x: int, y: int)
    ensures x * y == y * x
  {
  }

  // ---- Cancelling ------------------------------------------------------------------------

  /** Exactly what an accepted cancellation changes: the status of the one bid, its bidder's reservation,
      and one log row. */
  lemma CancelledEffects(s: State, op: Op)
    requires Sound(s) && op.CancelBid? && Exec(s, op).Ok?
    ensures Has(s.bids, op.bid) && Has(s.pouches, op.guild)
    ensures var s', b, p := Exec(s, op).value, s.bids[op.bid], s.pouches[op.guild];
            && s' == s.(bids := s.bids[op.bid := b.(status := BidCancelled)],
                        pouches := s.pouches[op.guild := p.(reserved := p.reserved - b.amount)],
                        log := s.log + [LogEntry(op.guild, TxRelease, b.amount, OfAuction(b.auction), None)])
  {
    CancelAcceptedIff(s, op);
    hide Sound, Exec, PlanCancel, IsLast;
  }
}
