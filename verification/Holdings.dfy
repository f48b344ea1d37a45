/** Who holds what: one inventory row per item, the seller of a live auction holds its item, at most
    one live auction per item, and listings in lock-step with the seller's stock and the log. */
module Holdings {
  import opened Tables
  import opened Operations
  import opened Sums

  ghost predicate HasHolder(inventories: map<InvKey, int>, item: ItemId) {
    exists k :: k in inventories && k.item == item
  }

  predicate InventoryRowOk(s: State, k: InvKey, quantity: int) {
    && Has(s.items, k.item) && Has(s.pouches, k.guild)
    && 0 <= quantity <= MAX_INT32
    && (IsLegendary(s, k.item) ==> quantity == 1)
  }

  /** Every item has exactly one inventory row, and a LEGENDARY item's quantity is 1. */
  ghost predicate Held(s: State) {
    && (forall k, k' :: k in s.inventories && k' in s.inventories && k.item == k'.item ==> k == k')
    && (forall i :: 0 <= i < |s.items| ==> HasHolder(s.inventories, i))
    && (forall k :: k in s.inventories ==> InventoryRowOk(s, k, s.inventories[k]))
  }

  predicate AuctionRowOk(s: State, a: Auction) {
    && IsLegendary(s, a.item) && Has(s.pouches, a.owner)
    && a.start < a.end && 0 <= a.basePrice <= MAX_INT32
    && (a.status == Active ==> InvKey(a.owner, a.item) in s.inventories)
  }

  /** The owner named by a live auction holds the item, and no item is auctioned twice at a time. */
  ghost predicate Auctioned(s: State) {
    && (forall a :: 0 <= a < |s.auctions| ==> AuctionRowOk(s, s.auctions[a]))
    && (forall a, b :: 0 <= a < b < |s.auctions| && s.auctions[a].item == s.auctions[b].item ==>
                         s.auctions[a].status == Expired || s.auctions[b].status == Expired)
  }

  predicate ListingOk(s: State, l: Listing, opening: int) {
    && Has(s.items, l.item) && !IsLegendary(s, l.item) && Has(s.pouches, l.guild)
    && InvKey(l.guild, l.item) in s.inventories
    && s.inventories[InvKey(l.guild, l.item)] == l.quantity
    && 0 <= l.quantity <= opening <= MAX_INT32
    && 0 < l.basePrice <= MAX_INT32
    && (l.status == ListingActive <==> l.quantity > 0)
  }

  /** What the listing has sold, at its price. */
  function Takings(s: State, l: ListingId): int {
    if Has(s.listings, l) && Has(s.openingStock, l)
    then s.listings[l].basePrice * (s.openingStock[l] - s.listings[l].quantity)
    else 0
  }

  predicate Sold(log: seq<LogEntry>, l: ListingId, takings: int) {
    var ref := LogOfRef(OfListing(l));
    && Logged(log, ref, TxPurchase) == takings
    && Logged(log, ref, TxReserve) == takings
    && Logged(log, ref, TxCredit) == takings
    && Logged(log, ref, TxRelease) == 0
    && Logged(log, ref, TxAuctionWin) == 0
  }

  ghost predicate Listed(s: State) {
    && |s.openingStock| == |s.listings|
    && (forall l :: 0 <= l < |s.listings| ==> ListingOk(s, s.listings[l], s.openingStock[l]))
    && (forall l, m :: 0 <= l < m < |s.listings| ==> s.listings[l].item != s.listings[m].item)
    && (forall l :: Sold(s.log, l, Takings(s, l)))
  }

  ghost predicate Owned(s: State) {
    Held(s) && Auctioned(s) && Listed(s)
  }

  /** The one guild holding an item. */
  ghost function HolderOf(s: State, item: ItemId): (g: GuildId)
    requires Held(s) && Has(s.items, item)
    ensures InvKey(g, item) in s.inventories
    ensures forall k :: k in s.inventories && k.item == item ==> k.guild == g
  {
    assert HasHolder(s.inventories, item);
    var k :| k in s.inventories && k.item == item;
    k.guild
  }

  /** The unlocked search for an item's live auction finds the only one. */
  lemma ActiveAuctionIsUnique(s: State, a: AuctionId)
    requires Auctioned(s) && Has(s.auctions, a) && s.auctions[a].status == Active
    ensures ActiveAuction(s.auctions, s.auctions[a].item, |s.auctions|) == Some(a)
  {
  }

  lemma ActiveListingIsUnique(s: State, l: ListingId)
    requires Listed(s) && Has(s.listings, l) && s.listings[l].status == ListingActive
    ensures ActiveListing(s.listings, s.listings[l].item, |s.listings|) == Some(l)
  {
  }

  /** Rows that concern no listing leave the sales accounts alone. */
  lemma SalesUntouched(log: seq<LogEntry>, e: LogEntry, l: ListingId, takings: int)
    requires Sold(log, l, takings) && !e.ref.OfListing?
    ensures Sold(log + [e], l, takings)
  {
  }

  predicate NoListings(entries: seq<LogEntry>) {
    forall i :: 0 <= i < |entries| ==> !entries[i].ref.OfListing?
  }

  lemma {:induction false} SalesUntouchedBy(log: seq<LogEntry>, entries: seq<LogEntry>, l: ListingId, takings: int)
    requires Sold(log, l, takings) && NoListings(entries)
    ensures Sold(log + entries, l, takings)
  {
    if entries == [] {
      assert log + entries == log;
    } else {
      var n := |entries| - 1;
      SalesUntouchedBy(log, entries[..n], l, takings);
      SalesUntouched(log + entries[..n], entries[n], l, takings);
      assert log + entries == log + entries[..n] + [entries[n]];
    }
  }

  /** Bids and cancellations, which add log rows about an auction and move end times, keep all this. */
  lemma BiddingKeepsOwned(s: State, s': State, entry: LogEntry)
    requires Owned(s)
    requires s'.inventories == s.inventories && s'.items == s.items && |s'.pouches| == |s.pouches|
    requires s'.listings == s.listings && s'.openingStock == s.openingStock
    requires s'.log == s.log + [entry] && entry.ref.OfAuction?
    requires |s'.auctions| == |s.auctions|
    requires forall a :: 0 <= a < |s.auctions| ==>
                           s.auctions[a].end <= s'.auctions[a].end
                           && s'.auctions[a] == s.auctions[a].(end := s'.auctions[a].end)
    ensures Owned(s')
  {
    forall k | k in s'.inventories ensures InventoryRowOk(s', k, s'.inventories[k]) {
      assert InventoryRowOk(s, k, s.inventories[k]);
    }
    assert Auctioned(s') by {
      forall a | 0 <= a < |s'.auctions| ensures AuctionRowOk(s', s'.auctions[a]) {
        assert AuctionRowOk(s, s.auctions[a]);
      }
    }
    forall l ensures Sold(s'.log, l, Takings(s', l)) {
      SalesUntouched(s.log, entry, l, Takings(s, l));
    }
    forall l | 0 <= l < |s'.listings| ensures ListingOk(s', s'.listings[l], s'.openingStock[l]) {
      assert ListingOk(s, s.listings[l], s.openingStock[l]);
    }
  }
}
