/** What the auction house keeps: every reservation is somebody's live bid, every bid stands where
    its auction's status says, amounts climb by at least 5%, and the log reconciles per auction. */
module Bidding {
  import opened Tables
  import opened GoldPouch
  import opened Operations
  import opened Sums
  import opened Ledger

  // ---- Invariants ------------------------------------------------------------------------

  /** No later bid was accepted on the same auction. */
  ghost predicate IsLast(bids: seq<Bid>, i: BidId) {
    && Has(bids, i)
    && forall j :: i < j < |bids| ==> bids[j].auction != bids[i].auction
  }

  lemma LastAfterAppend(bids: seq<Bid>, b: Bid, i: BidId)
    requires Has(bids, i)
    ensures IsLast(bids + [b], i) <==> IsLast(bids, i) && b.auction != bids[i].auction
  {
    var bids' := bids + [b];
    if IsLast(bids', i) {
      forall j | i < j < |bids| ensures bids[j].auction != bids[i].auction {
        assert bids'[j].auction != bids'[i].auction;
      }
      assert bids'[|bids|] == b;
    }
  }

  lemma LastAfterUpdate(bids: seq<Bid>, i: BidId, st: BidStatus, j: BidId)
    requires Has(bids, i)
    ensures IsLast(bids[i := bids[i].(status := st)], j) <==> IsLast(bids, j)
  {
    var bids' := bids[i := bids[i].(status := st)];
    assert forall k :: 0 <= k < |bids| ==> bids'[k].auction == bids[k].auction;
    if IsLast(bids', j) {
      forall k | j < k < |bids| ensures bids[k].auction != bids[j].auction {
        assert bids'[k].auction != bids'[j].auction;
      }
    }
  }

  predicate BidRowOk(s: State, b: Bid) {
    && Has(s.auctions, b.auction) && Has(s.pouches, b.guild)
    && 0 < b.amount <= s.pouches[b.guild].limit
    && s.auctions[b.auction].basePrice <= b.amount
    && s.auctions[b.auction].owner != b.guild
  }

  ghost predicate BidRows(s: State) {
    forall i :: 0 <= i < |s.bids| ==> BidRowOk(s, s.bids[i])
  }

  /** Every later bid on an auction, accepted when earlier ones were live or cancelled, is at least
      5% above every earlier one. */
  ghost predicate Ladder(bids: seq<Bid>) {
    forall i, j :: 0 <= i < j < |bids| && bids[i].auction == bids[j].auction ==>
                     105 * bids[i].amount <= 100 * bids[j].amount
  }

  /** Where a bid may stand: on an ACTIVE auction it is live or cancelled, and the last one is live;
      on an EXPIRED auction the last one has won and the others are cancelled or lost. */
  ghost predicate Stands(s: State, i: BidId)
    requires Has(s.bids, i) && Has(s.auctions, s.bids[i].auction)
  {
    var st := s.bids[i].status;
    match s.auctions[s.bids[i].auction].status
    case Active => st == BidActive || (st == BidCancelled && !IsLast(s.bids, i))
    case Expired => if IsLast(s.bids, i) then st == BidWon else st == BidCancelled || st == BidLost
  }

  ghost predicate Standing(s: State)
    requires BidRows(s)
  {
    forall i :: 0 <= i < |s.bids| ==> Stands(s, i)
  }

  /** Each guild's reserved balance is the sum of its live bids over all auctions. */
  ghost predicate Escrowed(s: State) {
    forall g :: 0 <= g < |s.pouches| ==> s.pouches[g].reserved == Bids(s.bids, BidsOfGuild(g), BidActive)
  }

  /** The log rows under "auction:<a>" account for the auction's bids. */
  predicate Reconciles(log: seq<LogEntry>, bids: seq<Bid>, a: AuctionId) {
    var ref := LogOfRef(OfAuction(a));
    && Logged(log, ref, TxReserve)
       == Logged(log, ref, TxRelease) + Logged(log, ref, TxAuctionWin) + Bids(bids, BidsOfAuction(a), BidActive)
    && Logged(log, ref, TxAuctionWin) == Bids(bids, BidsOfAuction(a), BidWon)
    && Logged(log, ref, TxCredit) == Bids(bids, BidsOfAuction(a), BidWon)
    && Logged(log, ref, TxPurchase) == 0
  }

  ghost predicate Reconciled(s: State) {
    forall a :: Reconciles(s.log, s.bids, a)
  }

  /** What holds between any two steps of a settlement as well. */
  ghost predicate Books(s: State) {
    Accounts(s) && BidRows(s) && Ladder(s.bids) && Escrowed(s) && Reconciled(s)
  }

  // ---- The winner ------------------------------------------------------------------------

  /** The bid accepted last on the auction, among the first `n` rows. */
  function LastBid(bids: seq<Bid>, a: AuctionId, n: nat): (last: Option<BidId>)
    requires n <= |bids|
    ensures last.Some? ==> 0 <= last.value < n && bids[last.value].auction == a
    ensures last.Some? ==> forall j :: last.value < j < n ==> bids[j].auction != a
    ensures last.None? ==> forall j :: 0 <= j < n ==> bids[j].auction != a
  {
    if n == 0 then None else if bids[n - 1].auction == a then Some(n - 1) else LastBid(bids, a, n - 1)
  }

  function Last(s: State, a: AuctionId): Option<BidId> {
    LastBid(s.bids, a, |s.bids|)
  }

  /** While an auction is ACTIVE, the highest ACTIVE bid is the one accepted last, it exists as soon
      as any bid was ever accepted, and it beats every other bid, cancelled ones included. */
  lemma HighestIsLast(s: State, a: AuctionId)
    requires BidRows(s) && Ladder(s.bids) && Standing(s)
    requires Has(s.auctions, a) && s.auctions[a].status == Active
    ensures Highest(s, a) == Last(s, a)
    ensures Last(s, a).Some? ==>
              forall j :: 0 <= j < |s.bids| && s.bids[j].auction == a && j != Last(s, a).value ==>
                            s.bids[j].amount < s.bids[Last(s, a).value].amount
  {
    if Last(s, a).Some? {
      var last := Last(s, a).value;
      assert Stands(s, last) && IsLast(s.bids, last);
      assert s.bids[last].status == BidActive;
      forall j | 0 <= j < |s.bids| && s.bids[j].auction == a && j != last
        ensures s.bids[j].amount < s.bids[last].amount
      {
        assert j < last && BidRowOk(s, s.bids[j]);
      }
    }
  }

  /** However the query breaks ties, it has none to break: amounts on an auction differ, so any ACTIVE bid
      that no other exceeds is the highest. */
  lemma TiesNeverDecide(s: State, a: AuctionId, i: BidId)
    requires BidRows(s) && Ladder(s.bids)
    requires Has(s.bids, i) && s.bids[i].auction == a && s.bids[i].status == BidActive
    requires forall j :: 0 <= j < |s.bids| && s.bids[j].auction == a && s.bids[j].status == BidActive ==>
                           s.bids[j].amount <= s.bids[i].amount
    ensures Highest(s, a) == Some(i)
  {
    var h := Highest(s, a).value;
    assert BidRowOk(s, s.bids[h]) && BidRowOk(s, s.bids[i]);
    assert s.bids[h].amount == s.bids[i].amount;
  }

  lemma {:induction false} LastIsLast(bids: seq<Bid>, i: BidId)
    requires Has(bids, i)
    ensures IsLast(bids, i) <==> LastBid(bids, bids[i].auction, |bids|) == Some(i)
  {
  }

  lemma QuotientBounds(a: int, b: int)
    requires b > 0
    ensures b * (a / b) <= a < b * (a / b) + b
  {
  }

  lemma MulKeepsOrder(b: int, x: int, y: int)
    requires b >= 0 && x <= y
    ensures b * x <= b * y
  {
  }

  lemma CeilDivIsLeast(a: int, b: int, x: int)
    requires b > 0
    ensures CeilDiv(a, b) <= x <==> a <= x * b
  {
    var q := CeilDiv(a, b);
    QuotientBounds(a + b - 1, b);
    assert b * q <= a + b - 1 < b * q + b;
    hide CeilDiv;
    if q <= x {
      MulKeepsOrder(b, q, x);
    } else {
      MulKeepsOrder(b, x + 1, q);
    }
  }

  // ---- Releasing a bid -------------------------------------------------------------------

  /** The state after releasing live bid `i` and giving it a final status. */
  function Released(s: State, i: BidId, st: BidStatus): State
    requires Has(s.bids, i) && Has(s.pouches, s.bids[i].guild)
  {
    var b := s.bids[i];
    var p := s.pouches[b.guild];
    s.(pouches := s.pouches[b.guild := p.(reserved := p.reserved - b.amount)],
       log := s.log + [LogEntry(b.guild, TxRelease, b.amount, OfAuction(b.auction), None)],
       bids := s.bids[i := b.(status := st)])
  }

  function ReleaseActions(b: Bid, i: BidId, st: BidStatus): seq<Action> {
    [Pay(Release, b.guild, b.amount, OfAuction(b.auction)), Do(PutBidStatus(b.auction, i, st))]
  }

  /** In good books a live bid can always be released. */
  lemma {:induction false} ReleaseRuns(s: State, i: BidId, st: BidStatus)
    requires Books(s) && Has(s.bids, i) && s.bids[i].status == BidActive
    ensures RunActions(s, ReleaseActions(s.bids[i], i, st)) == Ok(Released(s, i, st))
  {
    var b := s.bids[i];
    assert BidRowOk(s, b);
    BidsCover(s.bids, i, BidsOfGuild(b.guild));
    assert PouchRowOk(s.pouches[b.guild]);
    var pay := Pay(Release, b.guild, b.amount, OfAuction(b.auction));
    PerformPay(s, pay);
    PerformDo(Paid(s, pay), PutBidStatus(b.auction, i, st));
    RunTwo(s, pay, Do(PutBidStatus(b.auction, i, st)));
  }

  lemma {:induction false} RunTwo(s: State, x: Action, y: Action)
    ensures RunActions(s, [x, y])
            == match Perform(s, x) case Err(e) => Err(e) case Ok(s') => Perform(s', y)
  {
    assert [x, y] == [x] + [y];
    RunConcat(s, [x], [y]);
    RunOne(s, x);
    if Perform(s, x).Ok? {
      RunOne(Perform(s, x).value, y);
    }
  }

  lemma ReleasedKeepsEscrow(s: State, i: BidId, st: BidStatus)
    requires BidRows(s) && Escrowed(s) && Has(s.bids, i) && s.bids[i].status == BidActive && st != BidActive
    ensures BidRowOk(s, s.bids[i]) && Escrowed(Released(s, i, st))
  {
    var b := s.bids[i];
    assert BidRowOk(s, b);
    var s' := Released(s, i, st);
    forall g | 0 <= g < |s'.pouches|
      ensures s'.pouches[g].reserved == Bids(s'.bids, BidsOfGuild(g), BidActive)
    {
      BidsUpdate(s.bids, i, b.(status := st), BidsOfGuild(g), BidActive);
    }
  }

  lemma ReleasedKeepsReconciliation(s: State, i: BidId, st: BidStatus, a: AuctionId)
    requires Has(s.bids, i) && Has(s.pouches, s.bids[i].guild)
    requires Reconciles(s.log, s.bids, a)
    requires s.bids[i].status == BidActive && (st == BidCancelled || st == BidLost)
    ensures Reconciles(Released(s, i, st).log, Released(s, i, st).bids, a)
  {
    var b := s.bids[i];
    BidsUpdate(s.bids, i, b.(status := st), BidsOfAuction(a), BidActive);
    BidsUpdate(s.bids, i, b.(status := st), BidsOfAuction(a), BidWon);
    LoggedByKind(s.log, LogEntry(b.guild, TxRelease, b.amount, OfAuction(b.auction), None), LogOfRef(OfAuction(a)));
  }

  lemma ReleasedKeepsBooks(s: State, i: BidId, st: BidStatus)
    requires Books(s) && Has(s.bids, i) && s.bids[i].status == BidActive
    requires st == BidCancelled || st == BidLost
    ensures BidRowOk(s, s.bids[i]) && Books(Released(s, i, st))
  {
    ReleaseRuns(s, i, st);
    RunKeepsAccounts(s, ReleaseActions(s.bids[i], i, st));
    ReleasedKeepsEscrow(s, i, st);
    ReleasedKeepsRows(s, i, st);
    hide Accounts, Escrowed, BidRows, Reconciles;
    var s' := Released(s, i, st);
    forall a ensures Reconciles(s'.log, s'.bids, a) {
      assert Reconciles(s.log, s.bids, a);
      ReleasedKeepsReconciliation(s, i, st, a);
    }
  }

  lemma ReleasedKeepsRows(s: State, i: BidId, st: BidStatus)
    requires BidRows(s) && Ladder(s.bids) && Has(s.bids, i)
    ensures BidRowOk(s, s.bids[i])
    ensures BidRows(Released(s, i, st)) && Ladder(Released(s, i, st).bids)
  {
  }

  // ---- Placing a bid ---------------------------------------------------------------------

  function ReserveFor(op: Op, a: AuctionId): Action
    requires op.PlaceBid?
  {
    Pay(Reserve(op.at), op.guild, op.amount, OfAuction(a))
  }

  predicate Extends(s: State, op: Op, a: AuctionId)
    requires op.PlaceBid? && Has(s.auctions, a)
  {
    s.auctions[a].end - op.now <= BID_EXTENSION_WINDOW
  }

  /** The state after an accepted bid. */
  function Placed(s: State, op: Op, a: AuctionId): State
    requires op.PlaceBid? && Has(s.auctions, a) && Has(s.pouches, op.guild)
    requires Moved(s.pouches[op.guild], Reserve(op.at), op.amount).Ok?
  {
    var row := s.auctions[a];
    Paid(s, ReserveFor(op, a)).(
      bids := s.bids + [Bid(a, op.guild, op.amount, BidActive)],
      auctions := if Extends(s, op, a) then s.auctions[a := row.(end := row.end + BID_EXTENSION_AMOUNT)]
                  else s.auctions)
  }

  /** The bidder exists and its wallet affords the amount on the day of the reading. */
  predicate Affords(s: State, g: GuildId, amount: int, at: Time) {
    amount > 0 && Has(s.pouches, g) && Moved(s.pouches[g], Reserve(at), amount).Ok?
  }

  lemma ReservePerforms(s: State, g: GuildId, amount: int, at: Time, ref: Reference)
    requires Accounts(s)
    ensures Perform(s, Pay(Reserve(at), g, amount, ref)).Ok? <==> Affords(s, g, amount, at)
    ensures Affords(s, g, amount, at) ==>
              Perform(s, Pay(Reserve(at), g, amount, ref)).value == Paid(s, Pay(Reserve(at), g, amount, ref))
    ensures Affords(s, g, amount, at) ==> amount <= s.pouches[g].total <= MAX_INT32 && amount <= s.pouches[g].limit
  {
    PerformPay(s, Pay(Reserve(at), g, amount, ref));
    if Has(s.pouches, g) {
      assert PouchRowOk(s.pouches[g]);
    }
  }

  lemma {:induction false} PlaceBidRuns(s: State, op: Op, a: AuctionId)
    requires Accounts(s) && op.PlaceBid? && PlanBid(s, op, a).Ok?
    ensures RunActions(s, PlanBid(s, op, a).value).Ok? <==> Affords(s, op.guild, op.amount, op.at)
    ensures Affords(s, op.guild, op.amount, op.at) ==>
              RunActions(s, PlanBid(s, op, a).value).value == Placed(s, op, a)
  {
    var acts := PlanBid(s, op, a).value;
    var insert := Do(AppendBid(Bid(a, op.guild, op.amount, BidActive)));
    var front := [ReserveFor(op, a), insert];
    ReservePerforms(s, op.guild, op.amount, op.at, OfAuction(a));
    RunTwo(s, ReserveFor(op, a), insert);
    RunConcat(s, front, acts[2..]);
    assert acts == front + acts[2..];
    if Affords(s, op.guild, op.amount, op.at) {
      var paid := Paid(s, ReserveFor(op, a));
      PerformDo(paid, insert.write);
      var inserted := paid.(bids := s.bids + [insert.write.bid]);
      if Extends(s, op, a) {
        var row := s.auctions[a];
        RunOne(inserted, acts[2]);
        assert acts[2..] == [acts[2]];
        PerformDo(inserted, PutAuction(a, row.status, row.end + BID_EXTENSION_AMOUNT));
      } else {
        assert acts[2..] == [];
      }
    }
  }

  lemma PlacedKeepsLadder(s: State, op: Op, a: AuctionId)
    requires BidRows(s) && Ladder(s.bids) && Standing(s)
    requires op.PlaceBid? && PlanBid(s, op, a).Ok?
    ensures Ladder(s.bids + [Bid(a, op.guild, op.amount, BidActive)])
    ensures s.auctions[a].basePrice <= op.amount
  {
    HighestIsLast(s, a);
    var bids' := s.bids + [Bid(a, op.guild, op.amount, BidActive)];
    if Last(s, a).Some? {
      var last := Last(s, a).value;
      CeilDivIsLeast(s.bids[last].amount * 105, 100, op.amount);
      assert BidRowOk(s, s.bids[last]);
      forall i, j | 0 <= i < j < |bids'| && bids'[i].auction == bids'[j].auction
        ensures 105 * bids'[i].amount <= 100 * bids'[j].amount
      {
        if j == |s.bids| {
          assert i == last || s.bids[i].amount < s.bids[last].amount;
        }
      }
    }
  }

  lemma PlacedKeepsStanding(s: State, op: Op, a: AuctionId)
    requires BidRows(s) && Standing(s)
    requires op.PlaceBid? && PlanBid(s, op, a).Ok? && Affords(s, op.guild, op.amount, op.at)
    requires BidRows(Placed(s, op, a))
    ensures Standing(Placed(s, op, a))
  {
    var s' := Placed(s, op, a);
    forall i | 0 <= i < |s'.bids| ensures Stands(s', i) {
      if i < |s.bids| {
        assert Stands(s, i);
        assert BidRowOk(s, s.bids[i]);
        LastAfterAppend(s.bids, Bid(a, op.guild, op.amount, BidActive), i);
      }
    }
  }

  lemma ReserveReconciles(log: seq<LogEntry>, bids: seq<Bid>, b: Bid, day: Option<int>, x: AuctionId)
    requires b.status == BidActive && Reconciles(log, bids, x)
    ensures Reconciles(log + [LogEntry(b.guild, TxReserve, b.amount, OfAuction(b.auction), day)], bids + [b], x)
  {
  }

  lemma PlacedKeepsBooks(s: State, op: Op, a: AuctionId)
    requires Books(s) && Standing(s)
    requires op.PlaceBid? && PlanBid(s, op, a).Ok? && Affords(s, op.guild, op.amount, op.at)
    requires s.auctions[a].owner != op.guild
    ensures Books(Placed(s, op, a)) && Standing(Placed(s, op, a))
  {
    var s' := Placed(s, op, a);
    PlaceBidRuns(s, op, a);
    RunKeepsAccounts(s, PlanBid(s, op, a).value);
    PlacedKeepsLadder(s, op, a);
    ReservePerforms(s, op.guild, op.amount, op.at, OfAuction(a));
    PlacedKeepsEscrow(s, op, a);
    PlacedKeepsRows(s, op, a);
    PlacedKeepsStanding(s, op, a);
    hide Accounts, BidRows, Ladder, Escrowed, Standing, Reconciles, PlanBid, Affords, Moved;
    forall x ensures Reconciles(s'.log, s'.bids, x) {
      assert Reconciles(s.log, s.bids, x);
      ReserveReconciles(s.log, s.bids, Bid(a, op.guild, op.amount, BidActive), Some(UtcDay(op.at)), x);
    }
  }

  lemma PlacedKeepsEscrow(s: State, op: Op, a: AuctionId)
    requires Escrowed(s) && op.PlaceBid? && Has(s.auctions, a) && Affords(s, op.guild, op.amount, op.at)
    ensures Escrowed(Placed(s, op, a))
  {
    var s' := Placed(s, op, a);
    MovedChanges(s.pouches[op.guild], Reserve(op.at), op.amount);
    hide Moved, Bids;
    forall g | 0 <= g < |s'.pouches|
      ensures s'.pouches[g].reserved == Bids(s'.bids, BidsOfGuild(g), BidActive)
    {
      BidsAppend(s.bids, Bid(a, op.guild, op.amount, BidActive), BidsOfGuild(g), BidActive);
    }
  }

  lemma PlacedKeepsRows(s: State, op: Op, a: AuctionId)
    requires BidRows(s) && op.PlaceBid? && Has(s.auctions, a) && Affords(s, op.guild, op.amount, op.at)
    requires s.auctions[a].basePrice <= op.amount <= s.pouches[op.guild].limit && s.auctions[a].owner != op.guild
    ensures BidRows(Placed(s, op, a))
  {
  }

  // ---- Cancelling a bid ------------------------------------------------------------------

  lemma {:induction false} CancelKeepsBooks(s: State, op: Op, a: AuctionId)
    requires Books(s) && Standing(s)
    requires op.CancelBid? && PlanCancel(s, op, a).Ok? && s.bids[op.bid].auction == a
    ensures BidRowOk(s, s.bids[op.bid]) && s.bids[op.bid].status == BidActive
    ensures RunActions(s, PlanCancel(s, op, a).value) == Ok(Released(s, op.bid, BidCancelled))
    ensures Books(Released(s, op.bid, BidCancelled)) && Standing(Released(s, op.bid, BidCancelled))
  {
    var s' := Released(s, op.bid, BidCancelled);
    assert PlanCancel(s, op, a).value == ReleaseActions(s.bids[op.bid], op.bid, BidCancelled);
    ReleaseRuns(s, op.bid, BidCancelled);
    ReleasedKeepsBooks(s, op.bid, BidCancelled);
    CancelledStands(s, op.bid);
  }

  /** Only a bid that is not the highest may be cancelled, and it stays overtaken. */
  lemma CancelledStands(s: State, i: BidId)
    requires BidRows(s) && Ladder(s.bids) && Standing(s)
    requires Has(s.bids, i) && s.bids[i].status == BidActive && Has(s.pouches, s.bids[i].guild)
    requires Has(s.auctions, s.bids[i].auction) && s.auctions[s.bids[i].auction].status == Active
    requires Highest(s, s.bids[i].auction) != Some(i)
    requires BidRows(Released(s, i, BidCancelled))
    ensures Standing(Released(s, i, BidCancelled))
  {
    var s' := Released(s, i, BidCancelled);
    HighestIsLast(s, s.bids[i].auction);
    assert !IsLast(s.bids, i) by {
      assert Last(s, s.bids[i].auction).value > i;
    }
    forall j | 0 <= j < |s'.bids| ensures Stands(s', j) {
      assert Stands(s, j);
      LastAfterUpdate(s.bids, i, BidCancelled, j);
    }
  }
}
