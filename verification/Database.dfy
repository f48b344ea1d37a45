/** The tables as the services update them in place, with the repositories' statements
    (internal/repository) and rollback. */
module Database {
  import opened Tables
  import opened Operations
  import opened Market

  /** A bids row read back with its id. */
  datatype BidRow = BidRow(id: BidId, bid: Bid)

  /** The rows of one auction among the first `n`, in id order. */
  function RowsOf(bids: seq<Bid>, a: AuctionId, n: nat): seq<BidRow>
    requires n <= |bids|
  {
    if n == 0 then []
    else RowsOf(bids, a, n - 1) + if bids[n - 1].auction == a then [BidRow(n - 1, bids[n - 1])] else []
  }

  /** Those rows are exactly the auction's, in id order. */
  lemma {:induction false} RowsAreTheAuctions(bids: seq<Bid>, a: AuctionId, n: nat)
    requires n <= |bids|
    ensures var rows := RowsOf(bids, a, n);
            && (forall i :: 0 <= i < |rows| ==> 0 <= rows[i].id < n)
            && (forall i, j :: 0 <= i < j < |rows| ==> rows[i].id < rows[j].id)
            && (forall r :: r in rows <==> 0 <= r.id < n && bids[r.id].auction == a && r.bid == bids[r.id])
  {
    if n > 0 {
      RowsAreTheAuctions(bids, a, n - 1);
    }
  }

  class Database {
    var characters: nat
    var pouches: seq<Pouch>
    var items: seq<Item>
    var inventories: map<InvKey, int>
    var listings: seq<Listing>
    var auctions: seq<Auction>
    var bids: seq<Bid>
    var log: seq<LogEntry>
    // History, written but never read by the services.
    var opening: seq<Pouch>
    var openingStock: seq<int>
    var openingEnd: seq<Time>

    /** All rows, as one value. */
    function Contents(): State
      reads this
    {
      State(characters, pouches, items, inventories, listings, auctions, bids, log,
            opening, openingStock, openingEnd)
    }

    /** The global invariant of the tables between transactions. */
    ghost predicate Valid()
      reads this
    {
      Sound(Contents())
    }

    /** A freshly seeded database. */
    constructor (seed: State)
      requires Seeded(seed)
      ensures Contents() == seed && Valid()
    {
      characters, pouches, items := seed.characters, seed.pouches, seed.items;
      inventories, listings := seed.inventories, seed.listings;
      auctions, bids, log := seed.auctions, seed.bids, seed.log;
      opening, openingStock, openingEnd := seed.opening, seed.openingStock, seed.openingEnd;
      new;
      SeededIsSound(seed);
    }

    /** Undo everything since the snapshot was taken. */
    method Rollback(saved: State)
      modifies this
      ensures Contents() == saved
    {
      characters, pouches, items := saved.characters, saved.pouches, saved.items;
      inventories, listings := saved.inventories, saved.listings;
      auctions, bids, log := saved.auctions, saved.bids, saved.log;
      opening, openingStock, openingEnd := saved.opening, saved.openingStock, saved.openingEnd;
    }

    // ---- Pouches and log -----------------------------------------------------------------

    method UpdatePouch(guild: GuildId, pouch: Pouch) returns (err: Option<Error>)
      requires Has(pouches, guild)
      modifies this`pouches
      ensures err == Refusal(old(Contents()), PutPouch(guild, pouch))
      ensures Contents() == if err.None? then Apply(old(Contents()), PutPouch(guild, pouch)) else old(Contents())
    {
      if !PouchRowOk(pouch) {
        return Some(ConstraintViolation);
      }
      pouches := pouches[guild := pouch];
      return None;
    }

    method CreateLog(entry: LogEntry)
      modifies this`log
      ensures Contents() == Apply(old(Contents()), AppendLog(entry))
    {
      log := log + [entry];
    }

    // ---- Bids ----------------------------------------------------------------------------

    method CreateBid(bid: Bid) returns (err: Option<Error>)
      modifies this`bids
      ensures err == Refusal(old(Contents()), AppendBid(bid))
      ensures Contents() == if err.None? then Apply(old(Contents()), AppendBid(bid)) else old(Contents())
    {
      if bid.amount <= 0 || !FitsInt32(bid.amount) {
        return Some(ConstraintViolation);
      }
      bids := bids + [bid];
      return None;
    }

    method UpdateBid(auction: AuctionId, id: BidId, status: BidStatus)
      modifies this`bids
      ensures Contents() == Apply(old(Contents()), PutBidStatus(auction, id, status))
    {
      if Has(bids, id) && bids[id].auction == auction {
        bids := bids[id := bids[id].(status := status)];
      }
    }

    /** All bids of an auction, in id order. */
    method ListBids(auction: AuctionId) returns (rows: seq<BidRow>)
      ensures rows == RowsOf(bids, auction, |bids|)
    {
      rows := [];
      for i := 0 to |bids|
        invariant rows == RowsOf(bids, auction, i)
      {
        if bids[i].auction == auction {
          rows := rows + [BidRow(i, bids[i])];
        }
      }
    }

    // ---- Auctions ------------------------------------------------------------------------

    method UpdateAuction(id: AuctionId, status: AuctionStatus, end: Time)
      requires Has(auctions, id)
      modifies this`auctions
      ensures Contents() == Apply(old(Contents()), PutAuction(id, status, end))
    {
      auctions := auctions[id := auctions[id].(status := status, end := end)];
    }

    method CreateAuction(row: Auction) returns (err: Option<Error>)
      modifies this`auctions, this`openingEnd
      ensures err == Refusal(old(Contents()), AppendAuction(row))
      ensures Contents() == if err.None? then Apply(old(Contents()), AppendAuction(row)) else old(Contents())
    {
      err := Refusal(Contents(), AppendAuction(row));
      if err.None? {
        auctions := auctions + [row];
        openingEnd := openingEnd + [row.end];
      }
    }

    /** The ids of the ACTIVE auctions that end no later than the cutoff, in id order. */
    method ListActiveEndingBefore(cutoff: Time) returns (ids: seq<AuctionId>)
      ensures ids == Due(auctions, cutoff, 0)
    {
      ids := [];
      var i := 0;
      while i < |auctions|
        invariant 0 <= i <= |auctions|
        invariant ids + Due(auctions, cutoff, i) == Due(auctions, cutoff, 0)
      {
        if auctions[i].status == Active && auctions[i].end <= cutoff {
          assert ids + ([i] + Due(auctions, cutoff, i + 1)) == (ids + [i]) + Due(auctions, cutoff, i + 1);
          ids := ids + [i];
        } else {
          assert [] + Due(auctions, cutoff, i + 1) == Due(auctions, cutoff, i + 1);
        }
        i := i + 1;
      }
    }

    // ---- Items, inventories, listings ----------------------------------------------------

    method CreateItem(item: Item) returns (err: Option<Error>)
      modifies this`items
      ensures err == Refusal(old(Contents()), AppendItem(item))
      ensures Contents() == if err.None? then Apply(old(Contents()), AppendItem(item)) else old(Contents())
    {
      if item.price < 0 || item.price > MAX_INT32 {
        return Some(NumericOutOfRange);
      }
      if item.forger < 0 || item.forger >= characters {
        return Some(ForeignKeyViolation);
      }
      items := items + [item];
      return None;
    }

    method UpsertInventory(key: InvKey, quantity: int) returns (err: Option<Error>)
      modifies this`inventories
      ensures err == Refusal(old(Contents()), PutInventory(key, quantity))
      ensures Contents() == if err.None? then Apply(old(Contents()), PutInventory(key, quantity)) else old(Contents())
    {
      err := Refusal(Contents(), PutInventory(key, quantity));
      if err.None? {
        inventories := inventories[key := quantity];
      }
    }

    method DeleteInventory(key: InvKey)
      modifies this`inventories
      ensures Contents() == Apply(old(Contents()), DropInventory(key))
    {
      inventories := inventories - {key};
    }

    method CreateListing(row: Listing) returns (err: Option<Error>)
      modifies this`listings, this`openingStock
      ensures err == Refusal(old(Contents()), AppendListing(row))
      ensures Contents() == if err.None? then Apply(old(Contents()), AppendListing(row)) else old(Contents())
    {
      if !ListingRowOk(row) {
        return Some(NumericOutOfRange);
      }
      listings := listings + [row];
      openingStock := openingStock + [row.quantity];
      return None;
    }

    method UpdateListing(id: ListingId, quantity: int, status: ListingStatus) returns (err: Option<Error>)
      requires Has(listings, id)
      modifies this`listings
      ensures err == Refusal(old(Contents()), PutListing(id, quantity, status))
      ensures Contents()
              == if err.None? then Apply(old(Contents()), PutListing(id, quantity, status)) else old(Contents())
    {
      var row := listings[id].(quantity := quantity, status := status);
      if !ListingRowOk(row) {
        return Some(ConstraintViolation);
      }
      listings := listings[id := row];
      return None;
    }
  }
}
