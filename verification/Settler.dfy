/** The settlement sweep, step by step on the tables (internal/settlement/settlement.go). */
module Settler {
  import opened Tables
  import opened GoldPouch
  import opened Operations
  import opened Ledger
  import opened Database
  import opened PouchService
  import opened AuctionService

  // ---- The release loop runs over the rows read back -------------------------------------

  /** The statements of the loop over the rows listed. */
  function LoopOver(rows: seq<BidRow>, a: AuctionId, winner: BidId): seq<Action> {
    if rows == [] then []
    else
      (if rows[0].id != winner && rows[0].bid.status == BidActive
       then [Pay(Move.Release, rows[0].bid.guild, rows[0].bid.amount, OfAuction(a)),
             Do(PutBidStatus(a, rows[0].id, BidLost))]
       else []) + LoopOver(rows[1..], a, winner)
  }

  lemma {:induction false} LoopConcat(xs: seq<BidRow>, ys: seq<BidRow>, a: AuctionId, winner: BidId)
    ensures LoopOver(xs + ys, a, winner) == LoopOver(xs, a, winner) + LoopOver(ys, a, winner)
  {
    if xs == [] {
      assert xs + ys == ys;
    } else {
      assert (xs + ys)[1..] == xs[1..] + ys;
      LoopConcat(xs[1..], ys, a, winner);
    }
  }

  /** Row `i` of the auction, if it is one, as the listing reads it back. */
  function RowAt(bids: seq<Bid>, a: AuctionId, i: BidId): seq<BidRow>
    requires Has(bids, i)
  {
    if bids[i].auction == a then [BidRow(i, bids[i])] else []
  }

  lemma RowReleases(before: seq<Bid>, after: seq<Bid>, a: AuctionId, winner: BidId, i: nat)
    requires i < |before| == |after|
    requires i != winner ==> after[i] == before[i]
    requires i == winner ==> after[i].status == BidWon
    ensures LoopOver(RowAt(after, a, i), a, winner) + ReleaseLosers(before, a, winner, i + 1)
            == ReleaseLosers(before, a, winner, i)
  {
  }

  /** Looping over an auction's own rows, read after its winner was marked, is releasing its losers
      in table order. */
  lemma {:induction false} LoopReleasesLosers(before: seq<Bid>, after: seq<Bid>, a: AuctionId, winner: BidId, n: nat)
    requires |before| == |after| && n <= |after|
    requires forall i :: 0 <= i < |after| && i != winner ==> after[i] == before[i]
    requires Has(before, winner) && after[winner] == before[winner].(status := BidWon)
    ensures LoopOver(RowsOf(after, a, n), a, winner) + ReleaseLosers(before, a, winner, n)
            == ReleaseLosers(before, a, winner, 0)
  {
    hide LoopOver, ReleaseLosers, RowsOf;
    if n == 0 {
      LoopOverNothing(after, a, winner);
      assert [] + ReleaseLosers(before, a, winner, 0) == ReleaseLosers(before, a, winner, 0);
    } else {
      LoopReleasesLosers(before, after, a, winner, n - 1);
      RowReleases(before, after, a, winner, n - 1);
      LoopMovesOn(before, after, a, winner, n - 1);
    }
  }

  lemma {:induction false} LoopOverNothing(bids: seq<Bid>, a: AuctionId, winner: BidId)
    ensures LoopOver(RowsOf(bids, a, 0), a, winner) == []
  {
  }

  lemma LoopMovesOn(before: seq<Bid>, after: seq<Bid>, a: AuctionId, winner: BidId, i: nat)
    requires i < |before| == |after|
    requires LoopOver(RowAt(after, a, i), a, winner) + ReleaseLosers(before, a, winner, i + 1)
             == ReleaseLosers(before, a, winner, i)
    ensures LoopOver(RowsOf(after, a, i + 1), a, winner) + ReleaseLosers(before, a, winner, i + 1)
            == LoopOver(RowsOf(after, a, i), a, winner) + ReleaseLosers(before, a, winner, i)
  {
    hide LoopOver, ReleaseLosers;
    var rows, row := RowsOf(after, a, i), RowAt(after, a, i);
    assert RowsOf(after, a, i + 1) == rows + row;
    LoopConcat(rows, row, a, winner);
    Associative(LoopOver(rows, a, winner), LoopOver(row, a, winner), ReleaseLosers(before, a, winner, i + 1));
  }

  lemma Associative(x: seq<Action>, y: seq<Action>, z: seq<Action>)
    ensures (x + y) + z == x + (y + z)
  {
  }

  /** The rows read back, all of them, give the loop of the plan. */
  lemma {:induction false} ListedLoop(before: seq<Bid>, after: seq<Bid>, a: AuctionId, winner: BidId)
    requires Has(before, winner) && before[winner].auction == a
    requires after == before[winner := before[winner].(status := BidWon)]
    ensures LoopOver(RowsOf(after, a, |after|), a, winner) == ReleaseLosers(before, a, winner, 0)
  {
    LoopReleasesLosers(before, after, a, winner, |after|);
    var loop := LoopOver(RowsOf(after, a, |after|), a, winner);
    assert loop + [] == loop;
  }

  class Settler {
    const db: Database
    const goldPouches: GoldPouchService

    constructor (db: Database, goldPouches: GoldPouchService)
      requires goldPouches.db == db
      ensures this.db == db && this.goldPouches == goldPouches
    {
      this.db := db;
      this.goldPouches := goldPouches;
    }

    // ---- Tick ----------------------------------------------------------------------------

    /** One sweep; `clock` gives the readings each settlement takes. */
    method Tick(cutoff: Time, clock: AuctionId -> Readings)
      requires goldPouches.db == db
      modifies db
      ensures db.Contents() == Operations.Tick(old(db.Contents()), cutoff, clock)
      ensures old(db.Valid()) ==> db.Valid()
    {
      ghost var before := db.Contents();
      var ids := db.ListActiveEndingBefore(cutoff);
      var i := 0;
      while i < |ids|
        invariant 0 <= i <= |ids|
        invariant Run(db.Contents(), SettleOps(ids[i..], clock)) == Run(before, SettleOps(ids, clock))
        invariant old(db.Valid()) ==> db.Valid()
      {
        ghost var s := db.Contents();
        ghost var op := Op.SettleAuction(ids[i], clock(ids[i]).now, clock(ids[i]).at);
        var err := SettleAuction(ids[i], clock(ids[i]).now, clock(ids[i]).at);
        // A settlement that failed is logged and retried by the next sweep.
        NextSettle(s, ids[i..], clock);
        assert ids[i..][1..] == ids[i + 1..];
        assert db.Contents() == Step(s, op);
        i := i + 1;
      }
      assert ids[i..] == [];
    }

    // ---- SettleAuction -------------------------------------------------------------------

    method SettleAuction(id: AuctionId, now: Time, at: Time) returns (err: Option<Error>)
      requires goldPouches.db == db
      modifies db
      ensures TxOutcome(old(db.Contents()), Op.SettleAuction(id, now, at), err, db.Contents())
      ensures old(db.Valid()) ==> db.Valid()
    {
      ghost var before := db.Contents();
      var saved := db.Contents();
      err := SettleInTx(id, now, at);
      if err.Some? {
        db.Rollback(saved);
      }
      OutcomeKeepsSound(before, Op.SettleAuction(id, now, at), err, db.Contents());
    }

    method SettleInTx(id: AuctionId, now: Time, at: Time) returns (err: Option<Error>)
      requires goldPouches.db == db
      modifies db
      ensures BodyOutcome(Exec(old(db.Contents()), Op.SettleAuction(id, now, at)), err, db.Contents())
    {
      ghost var s0 := db.Contents();
      if !Has(db.auctions, id) {
        return Some(NotFound);
      }
      var auction := db.auctions[id];
      if auction.status != Active || now <= auction.end {
        return Some(NotEligible);
      }
      ghost var expire := Do(PutAuction(id, Expired, auction.end));
      var winner := HighestActive(db.bids, id, |db.bids|);
      if winner.Some? {
        ghost var closing := PayOut(s0, id, winner.value, at) + ReleaseLosers(s0.bids, id, winner.value, 0);
        RunConcat(s0, closing, [expire]);
        err := SettleWithWinner(id, winner.value, at);
        if err.Some? {
          return;
        }
      }
      auction := auction.(status := Expired);
      RunOne(db.Contents(), expire);
      PerformDo(db.Contents(), PutAuction(id, Expired, auction.end));
      db.UpdateAuction(id, auction.status, auction.end);
      return None;
    }

    /** Pay, transfer, mark the winner, then release every other live bid. */
    method SettleWithWinner(id: AuctionId, winner: BidId, at: Time) returns (err: Option<Error>)
      requires goldPouches.db == db
      requires Has(db.auctions, id) && Has(db.bids, winner) && db.bids[winner].auction == id
      modifies db
      ensures BodyOutcome(RunActions(old(db.Contents()),
                                     old(PayOut(db.Contents(), id, winner, at)
                                         + ReleaseLosers(db.bids, id, winner, 0))),
                          err, db.Contents())
      ensures err.None? ==> db.auctions == old(db.auctions)
    {
      hide RunActions, Perform, Apply, ReleaseLosers, PayOut;
      ghost var s0 := db.Contents();
      var auction, w := db.auctions[id], db.bids[winner];
      ghost var losers := ReleaseLosers(s0.bids, id, winner, 0);
      RunConcat(s0, PayOut(s0, id, winner, at), losers);
      err := PayWinner(id, winner, at);
      if err.Some? {
        return;
      }
      ghost var s1 := db.Contents();
      var rows := db.ListBids(id);
      ListedLoop(s0.bids, s1.bids, id, winner);
      var i := 0;
      while i < |rows|
        invariant 0 <= i <= |rows|
        invariant RunActions(db.Contents(), LoopOver(rows[i..], id, winner)) == RunActions(s1, losers)
        invariant db.auctions == old(db.auctions)
      {
        var b := rows[i];
        NextRow(db.Contents(), rows[i..], id, winner);
        assert rows[i..][1..] == rows[i + 1..];
        if b.id != winner && b.bid.status == BidActive {
          err := goldPouches.Release(b.bid.guild, b.bid.amount, OfAuction(id));
          if err.Some? {
            return;
          }
          PerformDo(db.Contents(), PutBidStatus(id, b.id, BidLost));
          db.UpdateBid(id, b.id, BidLost);
        }
        i := i + 1;
      }
      assert rows[i..] == [];
      RunNone(db.Contents());
      return None;
    }

    /** The payout: winner to seller, item to winner, bid WON. */
    method PayWinner(id: AuctionId, winner: BidId, at: Time) returns (err: Option<Error>)
      requires goldPouches.db == db
      requires Has(db.auctions, id) && Has(db.bids, winner) && db.bids[winner].auction == id
      modifies db
      ensures BodyOutcome(RunActions(old(db.Contents()), old(PayOut(db.Contents(), id, winner, at))),
                          err, db.Contents())
      ensures err.None? ==> db.auctions == old(db.auctions)
      ensures err.None? ==> db.bids == old(db.bids[winner := db.bids[winner].(status := BidWon)])
    {
      ghost var s0 := db.Contents();
      var auction, w := db.auctions[id], db.bids[winner];
      var key := InvKey(auction.owner, auction.item);
      ghost var settle := Pay(Move.Settle(TxAuctionWin, at), w.guild, w.amount, OfAuction(id));
      ghost var credit := Pay(Move.Credit, auction.owner, w.amount, OfAuction(id));
      ghost var give := Do(PutInventory(InvKey(w.guild, auction.item), 1));
      ghost var mark := Do(PutBidStatus(id, winner, BidWon));
      assert [settle] + ([credit] + ([TakeItem(key)] + ([give] + [mark]))) == PayOut(s0, id, winner, at);
      RunCons(s0, settle, [credit] + ([TakeItem(key)] + ([give] + [mark])));
      hide RunActions;

      err := goldPouches.Settle(w.guild, w.amount, TxAuctionWin, OfAuction(id), at);
      if err.Some? {
        return;
      }
      RunCons(db.Contents(), credit, [TakeItem(key)] + ([give] + [mark]));
      err := goldPouches.Credit(auction.owner, w.amount, OfAuction(id));
      if err.Some? {
        return;
      }
      RunCons(db.Contents(), TakeItem(key), [give] + [mark]);
      PerformTake(db.Contents(), key);
      if key !in db.inventories {
        return Some(NotFound);
      }
      db.DeleteInventory(key);
      RunCons(db.Contents(), give, [mark]);
      PerformDo(db.Contents(), PutInventory(InvKey(w.guild, auction.item), 1));
      err := db.UpsertInventory(InvKey(w.guild, auction.item), 1);
      if err.Some? {
        return;
      }
      RunOne(db.Contents(), mark);
      PerformDo(db.Contents(), PutBidStatus(id, winner, BidWon));
      db.UpdateBid(id, winner, BidWon);
      return None;
    }
  }

  // ---- One iteration of each loop --------------------------------------------------------

  lemma {:induction false} NextSettle(s: State, ids: seq<AuctionId>, clock: AuctionId -> Readings)
    requires ids != []
    ensures Run(s, SettleOps(ids, clock))
            == Run(Step(s, Op.SettleAuction(ids[0], clock(ids[0]).now, clock(ids[0]).at)), SettleOps(ids[1..], clock))
  {
    var op := Op.SettleAuction(ids[0], clock(ids[0]).now, clock(ids[0]).at);
    assert SettleOps(ids, clock) == [op] + SettleOps(ids[1..], clock);
    assert ([op] + SettleOps(ids[1..], clock))[1..] == SettleOps(ids[1..], clock);
  }

  lemma {:induction false} NextRow(s: State, rows: seq<BidRow>, a: AuctionId, winner: BidId)
    requires rows != []
    ensures var b := rows[0];
            var release := Pay(Move.Release, b.bid.guild, b.bid.amount, OfAuction(a));
            var mark := Do(PutBidStatus(a, b.id, BidLost));
            RunActions(s, LoopOver(rows, a, winner))
            == if b.id == winner || b.bid.status != BidActive then RunActions(s, LoopOver(rows[1..], a, winner))
               else if Perform(s, release).Err? then Err(Perform(s, release).error)
               else if Perform(Perform(s, release).value, mark).Err?
               then Err(Perform(Perform(s, release).value, mark).error)
               else RunActions(Perform(Perform(s, release).value, mark).value, LoopOver(rows[1..], a, winner))
  {
    var b := rows[0];
    var rest := LoopOver(rows[1..], a, winner);
    if b.id != winner && b.bid.status == BidActive {
      var release := Pay(Move.Release, b.bid.guild, b.bid.amount, OfAuction(a));
      var mark := Do(PutBidStatus(a, b.id, BidLost));
      assert [release, mark] + rest == [release] + ([mark] + rest);
      RunCons(s, release, [mark] + rest);
      if Perform(s, release).Ok? {
        RunCons(Perform(s, release).value, mark, rest);
      }
    } else {
      assert [] + rest == rest;
    }
  }
}
