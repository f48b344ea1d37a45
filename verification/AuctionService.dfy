/** Creating auctions, placing and cancelling bids, step by step on the tables
    (internal/service/auction_service.go). */
module AuctionService {
  import opened Tables
  import opened GoldPouch
  import opened Operations
  import opened Ledger
  import opened Market
  import opened Database
  import opened PouchService

  /** What a transaction's body left behind, before commit or rollback. */
  ghost predicate BodyOutcome(r: Result<State>, err: Option<Error>, after: State) {
    if r.Ok? then err.None? && after == r.value else err == Some(r.error)
  }

  /** The outcome of a whole transaction: committed as a whole, or nothing changed. */
  ghost predicate TxOutcome(before: State, op: Op, err: Option<Error>, after: State) {
    var r := Exec(before, op);
    if r.Ok? then err.None? && after == r.value else err == Some(r.error) && after == before
  }

  lemma OutcomeKeepsSound(before: State, op: Op, err: Option<Error>, after: State)
    requires TxOutcome(before, op, err, after)
    ensures Sound(before) ==> Sound(after)
  {
    hide Sound;
    if Sound(before) {
      StepKeepsSound(before, op);
    }
  }

  lemma {:induction false} RunCons(s: State, act: Action, rest: seq<Action>)
    ensures RunActions(s, [act] + rest)
            == if Perform(s, act).Ok? then RunActions(Perform(s, act).value, rest) else Err(Perform(s, act).error)
  {
  }

  lemma {:induction false} RunNone(s: State)
    ensures RunActions(s, []) == Ok(s)
  {
  }

  class AuctionService {
    const db: Database
    const goldPouches: GoldPouchService

    constructor (db: Database, goldPouches: GoldPouchService)
      requires goldPouches.db == db
      ensures this.db == db && this.goldPouches == goldPouches
    {
      this.db := db;
      this.goldPouches := goldPouches;
    }

    // ---- PlaceBid ------------------------------------------------------------------------

    method PlaceBid(item: ItemId, guild: GuildId, amount: int, now: Time, at: Time) returns (err: Option<Error>)
      requires goldPouches.db == db
      modifies db
      ensures TxOutcome(old(db.Contents()), Op.PlaceBid(item, guild, amount, now, at), err, db.Contents())
      ensures old(db.Valid()) ==> db.Valid()
    {
      ghost var before := db.Contents();
      if amount <= 0 {
        return Some(InvalidAmount);
      }
      var saved := db.Contents();
      err := PlaceBidInTx(item, guild, amount, now, at);
      if err.Some? {
        db.Rollback(saved);
      }
      OutcomeKeepsSound(before, Op.PlaceBid(item, guild, amount, now, at), err, db.Contents());
    }

    method PlaceBidInTx(item: ItemId, guild: GuildId, amount: int, now: Time, at: Time) returns (err: Option<Error>)
      requires goldPouches.db == db && amount > 0
      modifies db
      ensures BodyOutcome(Exec(old(db.Contents()), Op.PlaceBid(item, guild, amount, now, at)), err, db.Contents())
    {
      ghost var s0 := db.Contents();
      ghost var op := Op.PlaceBid(item, guild, amount, now, at);
      var found := ActiveAuction(db.auctions, item, |db.auctions|);
      if found.None? {
        return Some(AuctionNotFound);
      }
      var id := found.value;
      if db.auctions[id].owner == guild {
        return Some(SelfBidNotAllowed);
      }
      var auction := db.auctions[id];
      if auction.status != Active {
        return Some(AuctionNotActive);
      }
      if now > auction.end {
        return Some(AuctionExpired);
      }
      var minRequired := auction.basePrice;
      var highest := HighestActive(db.bids, id, |db.bids|);
      if highest.Some? {
        minRequired := CeilDiv(db.bids[highest.value].amount * 105, 100);
      }
      if amount < minRequired {
        return Some(BidTooLow);
      }
      assert Plan(s0, op).Ok? && Exec(s0, op) == RunActions(s0, Plan(s0, op).value);
      ghost var reserve := Pay(Move.Reserve(at), guild, amount, OfAuction(id));
      ghost var insert := Do(AppendBid(Bid(id, guild, amount, BidActive)));
      ghost var extend := Plan(s0, op).value[2..];
      assert Plan(s0, op).value == [reserve] + ([insert] + extend);
      RunCons(s0, reserve, [insert] + extend);
      hide Exec, Plan, RunActions, Perform, Apply;

      err := goldPouches.Reserve(guild, amount, OfAuction(id), at);
      if err.Some? {
        return;
      }
      RunCons(db.Contents(), insert, extend);
      PerformDo(db.Contents(), AppendBid(Bid(id, guild, amount, BidActive)));
      err := db.CreateBid(Bid(id, guild, amount, BidActive));
      if err.Some? {
        return;
      }
      if auction.end - now <= BID_EXTENSION_WINDOW {
        auction := auction.(end := auction.end + BID_EXTENSION_AMOUNT);
        assert extend == [Do(PutAuction(id, auction.status, auction.end))];
        RunOne(db.Contents(), Do(PutAuction(id, auction.status, auction.end)));
        PerformDo(db.Contents(), PutAuction(id, auction.status, auction.end));
        db.UpdateAuction(id, auction.status, auction.end);
      } else {
        assert extend == [];
        RunNone(db.Contents());
      }
      return None;
    }

    // ---- CancelBid -----------------------------------------------------------------------

    method CancelBid(item: ItemId, bidId: BidId, guild: GuildId) returns (err: Option<Error>)
      requires goldPouches.db == db
      modifies db
      ensures TxOutcome(old(db.Contents()), Op.CancelBid(item, bidId, guild), err, db.Contents())
      ensures old(db.Valid()) ==> db.Valid()
    {
      ghost var before := db.Contents();
      var saved := db.Contents();
      err := CancelBidInTx(item, bidId, guild);
      if err.Some? {
        db.Rollback(saved);
      }
      OutcomeKeepsSound(before, Op.CancelBid(item, bidId, guild), err, db.Contents());
    }

    method CancelBidInTx(item: ItemId, bidId: BidId, guild: GuildId) returns (err: Option<Error>)
      requires goldPouches.db == db
      modifies db
      ensures BodyOutcome(Exec(old(db.Contents()), Op.CancelBid(item, bidId, guild)), err, db.Contents())
    {
      ghost var s0 := db.Contents();
      ghost var op := Op.CancelBid(item, bidId, guild);
      if !Has(db.bids, bidId) {
        return Some(BidNotFound);
      }
      var id := db.bids[bidId].auction;
      if !Has(db.auctions, id) {
        return Some(AuctionNotFound);
      }
      var auction := db.auctions[id];
      if auction.item != item {
        return Some(BidNotFound);
      }
      var bid := db.bids[bidId];
      if bid.guild != guild {
        return Some(NotBidOwner);
      }
      if auction.status != Active {
        return Some(AuctionNotActive);
      }
      if bid.status != BidActive {
        return Some(BidNotActive);
      }
      var highest := HighestActive(db.bids, id, |db.bids|);
      if highest == Some(bidId) {
        return Some(BidIsHighest);
      }
      ghost var release := Pay(Move.Release, bid.guild, bid.amount, OfAuction(id));
      ghost var mark := Do(PutBidStatus(id, bidId, BidCancelled));
      assert Plan(s0, op).value == [release] + [mark];
      RunCons(s0, release, [mark]);

      err := goldPouches.Release(bid.guild, bid.amount, OfAuction(id));
      if err.Some? {
        return;
      }
      RunOne(db.Contents(), mark);
      PerformDo(db.Contents(), PutBidStatus(id, bidId, BidCancelled));
      db.UpdateBid(id, bidId, BidCancelled);
      return None;
    }

    // ---- CreateAuction -------------------------------------------------------------------

    method CreateAuction(item: ItemId, owner: GuildId, seconds: int, cachedPrice: Option<int>, now: Time)
      returns (err: Option<Error>)
      modifies db
      ensures TxOutcome(old(db.Contents()), Op.CreateAuction(item, owner, seconds, cachedPrice, now),
                        err, db.Contents())
      ensures old(db.Valid()) ==> db.Valid()
    {
      ghost var s0 := db.Contents();
      ghost var op := Op.CreateAuction(item, owner, seconds, cachedPrice, now);
      if seconds <= 0 {
        return Some(InvalidDuration);
      }
      if !Has(db.items, item) {
        return Some(ItemNotFound);
      }
      if InvKey(owner, item) !in db.inventories {
        return Some(NotItemOwner);
      }
      if db.items[item].rarity != Legendary {
        return Some(ItemNotLegendary);
      }
      var basePrice := db.items[item].price;
      if cachedPrice.Some? {
        basePrice := cachedPrice.value;
      }
      var start := TruncateToMicrosecond(now);
      var row := Auction(item, owner, Active, start, start + Wrap64(seconds * SECOND), basePrice);
      assert Plan(s0, op) == Ok([Do(AppendAuction(row))]);
      RunOne(s0, Do(AppendAuction(row)));
      PerformDo(s0, AppendAuction(row));
      err := db.CreateAuction(row);
      OutcomeKeepsSound(s0, op, err, db.Contents());
    }
  }
}
