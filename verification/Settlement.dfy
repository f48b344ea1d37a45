/** Closing an auction: the payout, the release loop, and what a settlement as a whole does. */
module Settlement {
  import opened Tables
  import opened GoldPouch
  import opened Operations
  import opened Sums
  import opened Ledger
  import opened Bidding
  import opened Holdings

  // ---- Release loop ----------------------------------------------------------------------

  /** Bid `i` is released by the loop of a settlement won by `winner`. */
  predicate Loses(bids: seq<Bid>, a: AuctionId, winner: BidId, i: BidId)
    requires Has(bids, i)
  {
    bids[i].auction == a && i != winner && bids[i].status == BidActive
  }

  /** The log rows the loop writes: one per bid it releases, in order. */
  function ReleaseEntries(bids: seq<Bid>, a: AuctionId, winner: BidId, from: nat): seq<LogEntry>
    requires from <= |bids|
    decreases |bids| - from
  {
    if from == |bids| then []
    else
      (if Loses(bids, a, winner, from)
       then [LogEntry(bids[from].guild, TxRelease, bids[from].amount, OfAuction(a), None)]
       else []) + ReleaseEntries(bids, a, winner, from + 1)
  }

  /** The table after the loop has passed the rows from `from` on. */
  predicate Swept(before: seq<Bid>, after: seq<Bid>, a: AuctionId, winner: BidId, from: nat)
    requires from <= |before|
  {
    && |after| == |before|
    && (forall i :: 0 <= i < from ==> after[i] == before[i])
    && (forall i :: from <= i < |before| ==>
                      after[i] == if Loses(before, a, winner, i) then before[i].(status := BidLost) else before[i])
  }

  /** The loop's effect on a state: bids LOST, one release row each, balances adjusted. */
  ghost predicate SweptState(s: State, s': State, a: AuctionId, winner: BidId, from: nat)
    requires from <= |s.bids|
  {
    && Swept(s.bids, s'.bids, a, winner, from)
    && s'.log == s.log + ReleaseEntries(s.bids, a, winner, from)
    && |s'.pouches| == |s.pouches|
    && (forall g :: 0 <= g < |s.pouches| ==> s'.pouches[g] == s.pouches[g].(reserved := s'.pouches[g].reserved))
    && s' == s.(pouches := s'.pouches, bids := s'.bids, log := s'.log)
  }

  /** From good books the loop never fails: it marks each remaining live bid LOST, releases it
      exactly once, touches nothing else, and leaves good books. */
  lemma {:induction false} ReleaseLoop(s: State, listed: seq<Bid>, a: AuctionId, winner: BidId, from: nat)
    returns (s': State)
    requires Books(s) && |listed| == |s.bids| && from <= |listed|
    requires forall i :: from <= i < |listed| && i != winner ==> listed[i] == s.bids[i]
    ensures RunActions(s, ReleaseLosers(listed, a, winner, from)) == Ok(s')
    ensures Books(s')
    ensures SweptState(s, s', a, winner, from)
    decreases |listed| - from
  {
    hide Books;
    if from == |listed| {
      assert s.log + [] == s.log;
      s' := s;
    } else if Loses(listed, a, winner, from) {
      ReleaseFirst(s, listed, a, winner, from);
      s' := ReleaseLoop(Released(s, from, BidLost), listed, a, winner, from + 1);
      SweepOne(s, s', a, winner, from);
    } else {
      assert [] + ReleaseLosers(listed, a, winner, from + 1) == ReleaseLosers(listed, a, winner, from + 1);
      s' := ReleaseLoop(s, listed, a, winner, from + 1);
      SkipOne(s, s', a, winner, from);
    }
  }

  lemma {:induction false} ReleaseFirst(s: State, listed: seq<Bid>, a: AuctionId, winner: BidId, from: nat)
    requires Books(s) && from < |s.bids| == |listed| && listed[from] == s.bids[from]
    requires Loses(listed, a, winner, from)
    ensures Has(s.pouches, s.bids[from].guild) && Books(Released(s, from, BidLost))
    ensures RunActions(s, ReleaseLosers(listed, a, winner, from))
            == RunActions(Released(s, from, BidLost), ReleaseLosers(listed, a, winner, from + 1))
  {
    assert BidRowOk(s, s.bids[from]);
    ReleaseRuns(s, from, BidLost);
    ReleasedKeepsBooks(s, from, BidLost);
    RunConcat(s, ReleaseActions(listed[from], from, BidLost), ReleaseLosers(listed, a, winner, from + 1));
  }

  lemma SweepOne(s: State, s': State, a: AuctionId, winner: BidId, from: nat)
    requires from < |s.bids| && Loses(s.bids, a, winner, from) && Has(s.pouches, s.bids[from].guild)
    requires SweptState(Released(s, from, BidLost), s', a, winner, from + 1)
    ensures SweptState(s, s', a, winner, from)
  {
    var s1 := Released(s, from, BidLost);
    EntriesAgree(s.bids, s1.bids, a, winner, from + 1);
    var entry := [LogEntry(s.bids[from].guild, TxRelease, s.bids[from].amount, OfAuction(a), None)];
    var later := ReleaseEntries(s.bids, a, winner, from + 1);
    assert s.log + entry + later == s.log + (entry + later);
  }

  lemma SkipOne(s: State, s': State, a: AuctionId, winner: BidId, from: nat)
    requires from < |s.bids|
    requires !Loses(s.bids, a, winner, from)
    requires SweptState(s, s', a, winner, from + 1)
    ensures SweptState(s, s', a, winner, from)
  {
  }

  lemma {:induction false} EntriesAgree(bids: seq<Bid>, bids': seq<Bid>, a: AuctionId, winner: BidId, from: nat)
    requires |bids| == |bids'| && from <= |bids|
    requires forall i :: from <= i < |bids| ==> bids[i] == bids'[i]
    ensures ReleaseEntries(bids, a, winner, from) == ReleaseEntries(bids', a, winner, from)
    decreases |bids| - from
  {
    if from < |bids| {
      EntriesAgree(bids, bids', a, winner, from + 1);
    }
  }

  // ---- Payout ----------------------------------------------------------------------------

  function WinnerPays(s: State, a: AuctionId, w: BidId, at: Time): Action
    requires Has(s.bids, w)
  {
    Pay(Settle(TxAuctionWin, at), s.bids[w].guild, s.bids[w].amount, OfAuction(a))
  }

  function SellerGets(s: State, a: AuctionId, w: BidId): Action
    requires Has(s.bids, w) && Has(s.auctions, a)
  {
    Pay(Credit, s.auctions[a].owner, s.bids[w].amount, OfAuction(a))
  }

  /** `w` is a live bid on live auction `a`, placed by a guild other than the seller, and the books
      and holdings are good. */
  ghost predicate CanWin(s: State, a: AuctionId, w: BidId) {
    && Books(s) && Owned(s)
    && Has(s.auctions, a) && s.auctions[a].status == Active
    && Has(s.bids, w) && s.bids[w].auction == a && s.bids[w].status == BidActive
  }

  /** The winner's limit on the day of the reading still covers the bid. */
  predicate LimitCovers(s: State, g: GuildId, amount: int, at: Time) {
    Has(s.pouches, g) && Refreshed(s.pouches[g], UtcDay(at)).spent + amount <= s.pouches[g].limit
  }

  /** The seller's balance after the payout fits its column. */
  predicate CreditFits(s: State, g: GuildId, amount: int) {
    Has(s.pouches, g) && s.pouches[g].total + amount <= MAX_INT32
  }

  /** The state after the payout: gold moved, item moved, bid WON. */
  function PaidOut(s: State, a: AuctionId, w: BidId, at: Time): State
    requires Has(s.bids, w) && Has(s.auctions, a) && Has(s.pouches, s.bids[w].guild)
    requires Has(s.pouches, s.auctions[a].owner)
    requires Moved(s.pouches[s.bids[w].guild], Settle(TxAuctionWin, at), s.bids[w].amount).Ok?
  {
    var auction := s.auctions[a];
    Paid(Paid(s, WinnerPays(s, a, w, at)), SellerGets(s, a, w)).(
      inventories := (s.inventories - {InvKey(auction.owner, auction.item)})
                     [InvKey(s.bids[w].guild, auction.item) := 1],
      bids := s.bids[w := s.bids[w].(status := BidWon)])
  }

  /** The rows a payout needs are all there. */
  lemma WinnerRows(s: State, a: AuctionId, w: BidId)
    requires CanWin(s, a, w)
    ensures var b, auction := s.bids[w], s.auctions[a];
            && BidRowOk(s, b) && AuctionRowOk(s, auction)
            && b.guild != auction.owner
            && PouchRowOk(s.pouches[b.guild]) && PouchRowOk(s.pouches[auction.owner])
            && b.amount <= s.pouches[b.guild].reserved
            && InvKey(auction.owner, auction.item) in s.inventories
            && !HeldElsewhere(s.inventories - {InvKey(auction.owner, auction.item)}, InvKey(b.guild, auction.item))
  {
    var b, auction := s.bids[w], s.auctions[a];
    assert BidRowOk(s, b) && AuctionRowOk(s, auction);
    assert PouchRowOk(s.pouches[b.guild]) && PouchRowOk(s.pouches[auction.owner]);
    BidsCover(s.bids, w, BidsOfGuild(b.guild));
  }

  lemma WinnerPaysIff(s: State, a: AuctionId, w: BidId, at: Time)
    requires CanWin(s, a, w)
    ensures BidRowOk(s, s.bids[w])
    ensures Perform(s, WinnerPays(s, a, w, at)).Ok? <==> LimitCovers(s, s.bids[w].guild, s.bids[w].amount, at)
    ensures LimitCovers(s, s.bids[w].guild, s.bids[w].amount, at) ==>
              && Moved(s.pouches[s.bids[w].guild], Settle(TxAuctionWin, at), s.bids[w].amount).Ok?
              && Perform(s, WinnerPays(s, a, w, at)).value == Paid(s, WinnerPays(s, a, w, at))
  {
    WinnerRows(s, a, w);
    hide Books, Owned;
    PerformPay(s, WinnerPays(s, a, w, at));
  }

  lemma SellerGetsIff(s: State, a: AuctionId, w: BidId, at: Time)
    requires CanWin(s, a, w) && LimitCovers(s, s.bids[w].guild, s.bids[w].amount, at)
    ensures Has(s.pouches, s.auctions[a].owner)
    ensures Moved(s.pouches[s.bids[w].guild], Settle(TxAuctionWin, at), s.bids[w].amount).Ok?
    ensures var paid := Paid(s, WinnerPays(s, a, w, at));
            && (Perform(paid, SellerGets(s, a, w)).Ok? <==> CreditFits(s, s.auctions[a].owner, s.bids[w].amount))
            && (CreditFits(s, s.auctions[a].owner, s.bids[w].amount) ==>
                  Perform(paid, SellerGets(s, a, w)).value == Paid(paid, SellerGets(s, a, w)))
  {
    WinnerRows(s, a, w);
    WinnerPaysIff(s, a, w, at);
    hide Books, Owned;
    PerformPay(Paid(s, WinnerPays(s, a, w, at)), SellerGets(s, a, w));
  }

  /** A payout goes through exactly when the winner's daily limit and the seller's column allow it. */
  lemma {:induction false} PayOutRuns(s: State, a: AuctionId, w: BidId, at: Time)
    requires CanWin(s, a, w)
    ensures BidRowOk(s, s.bids[w]) && AuctionRowOk(s, s.auctions[a])
    ensures RunActions(s, PayOut(s, a, w, at)).Ok?
            <==> && LimitCovers(s, s.bids[w].guild, s.bids[w].amount, at)
                 && CreditFits(s, s.auctions[a].owner, s.bids[w].amount)
    ensures RunActions(s, PayOut(s, a, w, at)).Ok? ==>
              && Moved(s.pouches[s.bids[w].guild], Settle(TxAuctionWin, at), s.bids[w].amount).Ok?
              && RunActions(s, PayOut(s, a, w, at)).value == PaidOut(s, a, w, at)
  {
    var acts := PayOut(s, a, w, at);
    var pay, get := WinnerPays(s, a, w, at), SellerGets(s, a, w);
    WinnerRows(s, a, w);
    WinnerPaysIff(s, a, w, at);
    RunTwo(s, pay, get);
    assert acts == [pay, get] + acts[2..];
    RunConcat(s, [pay, get], acts[2..]);
    if LimitCovers(s, s.bids[w].guild, s.bids[w].amount, at) {
      SellerGetsIff(s, a, w, at);
      if CreditFits(s, s.auctions[a].owner, s.bids[w].amount) {
        var paid := Paid(Paid(s, pay), get);
        TransferRuns(s, paid, a, w);
        assert acts[2..] == Transfer(s, a, w);
      }
    }
  }

  /** The item and the status of the winning bid. */
  function Transfer(s: State, a: AuctionId, w: BidId): seq<Action>
    requires Has(s.bids, w) && Has(s.auctions, a)
  {
    [TakeItem(InvKey(s.auctions[a].owner, s.auctions[a].item)),
     Do(PutInventory(InvKey(s.bids[w].guild, s.auctions[a].item), 1)),
     Do(PutBidStatus(a, w, BidWon))]
  }

  lemma {:induction false} TransferRuns(s: State, paid: State, a: AuctionId, w: BidId)
    requires CanWin(s, a, w)
    requires paid == s.(pouches := paid.pouches, log := paid.log)
    ensures RunActions(paid, Transfer(s, a, w))
            == Ok(paid.(inventories := (s.inventories - {InvKey(s.auctions[a].owner, s.auctions[a].item)})
                                       [InvKey(s.bids[w].guild, s.auctions[a].item) := 1],
                        bids := s.bids[w := s.bids[w].(status := BidWon)]))
  {
    WinnerRows(s, a, w);
    hide Books, Owned;
    var key, key' := InvKey(s.auctions[a].owner, s.auctions[a].item), InvKey(s.bids[w].guild, s.auctions[a].item);
    var acts := Transfer(s, a, w);
    PerformTake(paid, key);
    var taken := Apply(paid, DropInventory(key));
    PerformDo(taken, PutInventory(key', 1));
    var given := Apply(taken, PutInventory(key', 1));
    PerformDo(given, PutBidStatus(a, w, BidWon));
    RunTwo(taken, acts[1], acts[2]);
    RunOne(paid, acts[0]);
    RunConcat(paid, [acts[0]], [acts[1], acts[2]]);
    assert acts == [acts[0]] + [acts[1], acts[2]];
  }

  lemma WinReconciles(log: seq<LogEntry>, bids: seq<Bid>, w: BidId, owner: GuildId, day: Option<int>, x: AuctionId)
    requires Has(bids, w) && bids[w].status == BidActive && Reconciles(log, bids, x)
    ensures var b := bids[w];
            Reconciles(log + [LogEntry(b.guild, TxAuctionWin, b.amount, OfAuction(b.auction), day)]
                       + [LogEntry(owner, TxCredit, b.amount, OfAuction(b.auction), None)],
                       bids[w := b.(status := BidWon)], x)
  {
    var b := bids[w];
    var win := LogEntry(b.guild, TxAuctionWin, b.amount, OfAuction(b.auction), day);
    var credit := LogEntry(owner, TxCredit, b.amount, OfAuction(b.auction), None);
    BidsUpdate(bids, w, b.(status := BidWon), BidsOfAuction(x), BidActive);
    BidsUpdate(bids, w, b.(status := BidWon), BidsOfAuction(x), BidWon);
    LoggedByKind(log, win, LogOfRef(OfAuction(x)));
    LoggedByKind(log + [win], credit, LogOfRef(OfAuction(x)));
  }

  lemma {:induction false} PaidOutTotals(s: State, a: AuctionId, w: BidId, at: Time, g: GuildId)
    requires CanWin(s, a, w) && RunActions(s, PayOut(s, a, w, at)).Ok? && Has(s.pouches, g)
    ensures var s' := RunActions(s, PayOut(s, a, w, at)).value;
            && |s'.pouches| == |s.pouches|
            && s'.pouches[g].limit == s.pouches[g].limit
            && s'.pouches[g].reserved
               == s.pouches[g].reserved - (if g == s.bids[w].guild then s.bids[w].amount else 0)
            && s'.pouches[g].total
               == AfterSale(g, s.pouches[g].total, s.bids[w].guild, s.auctions[a].owner, s.bids[w].amount)
  {
    PayOutRuns(s, a, w, at);
    hide Books, Owned;
    MovedChanges(s.pouches[s.bids[w].guild], Settle(TxAuctionWin, at), s.bids[w].amount);
  }

  lemma {:induction false} PaidOutKeepsEscrow(s: State, a: AuctionId, w: BidId, at: Time)
    requires CanWin(s, a, w) && RunActions(s, PayOut(s, a, w, at)).Ok?
    ensures Escrowed(RunActions(s, PayOut(s, a, w, at)).value)
  {
    PayOutRuns(s, a, w, at);
    assert Escrowed(s);
    hide Books, Owned, CanWin, RunActions, PayOut, Moved;
    var s' := PaidOut(s, a, w, at);
    forall g | 0 <= g < |s'.pouches|
      ensures s'.pouches[g].reserved == Bids(s'.bids, BidsOfGuild(g), BidActive)
    {
      PaidOutTotals(s, a, w, at, g);
      BidsUpdate(s.bids, w, s.bids[w].(status := BidWon), BidsOfGuild(g), BidActive);
    }
  }

  lemma {:induction false} PaidOutReconciles(s: State, a: AuctionId, w: BidId, at: Time)
    requires CanWin(s, a, w) && RunActions(s, PayOut(s, a, w, at)).Ok?
    ensures Reconciled(RunActions(s, PayOut(s, a, w, at)).value)
  {
    PayOutRuns(s, a, w, at);
    assert Reconciled(s);
    hide Books, Owned, CanWin, RunActions, PayOut, Moved, Reconciles;
    var s' := PaidOut(s, a, w, at);
    forall x ensures Reconciles(s'.log, s'.bids, x) {
      assert Reconciles(s.log, s.bids, x);
      WinReconciles(s.log, s.bids, w, s.auctions[a].owner, Some(UtcDay(at)), x);
    }
  }

  lemma {:induction false} PaidOutKeepsBooks(s: State, a: AuctionId, w: BidId, at: Time)
    requires CanWin(s, a, w) && RunActions(s, PayOut(s, a, w, at)).Ok?
    ensures Books(RunActions(s, PayOut(s, a, w, at)).value)
  {
    hide Accounts, BidRows, Escrowed, Reconciled, Owned, RunActions, PayOut, Moved;
    RunKeepsAccounts(s, PayOut(s, a, w, at));
    PaidOutKeepsEscrow(s, a, w, at);
    PaidOutKeepsRows(s, a, w, at);
    PaidOutReconciles(s, a, w, at);
    PayOutRuns(s, a, w, at);
    assert Ladder(PaidOut(s, a, w, at).bids);
  }

  lemma {:induction false} PaidOutKeepsRows(s: State, a: AuctionId, w: BidId, at: Time)
    requires CanWin(s, a, w) && RunActions(s, PayOut(s, a, w, at)).Ok?
    ensures BidRows(RunActions(s, PayOut(s, a, w, at)).value)
  {
    PayOutRuns(s, a, w, at);
    var s' := PaidOut(s, a, w, at);
    forall i | 0 <= i < |s'.bids| ensures BidRowOk(s', s'.bids[i]) {
      assert BidRowOk(s, s.bids[i]);
      PaidOutTotals(s, a, w, at, s.bids[i].guild);
    }
  }

  // ---- The whole settlement --------------------------------------------------------------

  /** The bids of the auction after it was won by `w`: the winner WON, other live bids LOST. */
  predicate ClosedBids(before: seq<Bid>, after: seq<Bid>, a: AuctionId, w: BidId)
    requires Has(before, w)
  {
    Swept(before[w := before[w].(status := BidWon)], after, a, w, 0)
  }

  function WinEntries(s: State, a: AuctionId, w: BidId, at: Time): seq<LogEntry>
    requires Has(s.bids, w) && Has(s.auctions, a)
  {
    [EntryOf(WinnerPays(s, a, w, at))] + [EntryOf(SellerGets(s, a, w))] + ReleaseEntries(s.bids, a, w, 0)
  }

  /** The total of a pouch after a sale from one guild to another. */
  function AfterSale(g: GuildId, total: int, payer: GuildId, payee: GuildId, amount: int): int {
    total - (if g == payer then amount else 0) + (if g == payee then amount else 0)
  }

  /** Everything an auction's settlement leaves behind when bid `w` wins it. */
  ghost predicate WonBy(s: State, s': State, a: AuctionId, w: BidId, at: Time)
    requires Has(s.auctions, a) && Has(s.bids, w)
  {
    var b, auction := s.bids[w], s.auctions[a];
    && s' == s.(pouches := s'.pouches, bids := s'.bids,
                log := s.log + WinEntries(s, a, w, at),
                inventories := (s.inventories - {InvKey(auction.owner, auction.item)})
                               [InvKey(b.guild, auction.item) := 1],
                auctions := s.auctions[a := auction.(status := Expired)])
    && ClosedBids(s.bids, s'.bids, a, w)
    && |s'.pouches| == |s.pouches|
    && forall g :: 0 <= g < |s.pouches| ==>
                     && s'.pouches[g].limit == s.pouches[g].limit
                     && s'.pouches[g].total == AfterSale(g, s.pouches[g].total, b.guild, auction.owner, b.amount)
  }

  function ExpiredAt(s: State, a: AuctionId): State
    requires Has(s.auctions, a)
  {
    s.(auctions := s.auctions[a := s.auctions[a].(status := Expired)])
  }

  lemma {:induction false} ExpireRuns(s: State, a: AuctionId, end: Time)
    requires Has(s.auctions, a) && s.auctions[a].end == end
    ensures RunActions(s, [Do(PutAuction(a, Expired, end))]) == Ok(ExpiredAt(s, a))
  {
    RunOne(s, Do(PutAuction(a, Expired, end)));
    PerformDo(s, PutAuction(a, Expired, end));
  }

  lemma {:induction false} SweptPayoutIsWonBy(s: State, s2: State, a: AuctionId, w: BidId, at: Time)
    requires CanWin(s, a, w) && RunActions(s, PayOut(s, a, w, at)).Ok?
    requires SweptState(RunActions(s, PayOut(s, a, w, at)).value, s2, a, w, 0)
    ensures s2.auctions == s.auctions
    ensures WonBy(s, ExpiredAt(s2, a), a, w, at)
  {
    hide Books, Owned;
    PayOutRuns(s, a, w, at);
    var s1 := PaidOut(s, a, w, at);
    forall g | 0 <= g < |s.pouches|
      ensures s2.pouches[g].limit == s.pouches[g].limit
      ensures s2.pouches[g].total
              == AfterSale(g, s.pouches[g].total, s.bids[w].guild, s.auctions[a].owner, s.bids[w].amount)
    {
      PaidOutTotals(s, a, w, at, g);
    }
    EntriesSkipWinner(s.bids, s1.bids, a, w, 0);
    assert s2.log == s.log + WinEntries(s, a, w, at);
  }

  /** Payout, release loop and expiry together. */
  lemma WinnerSettles(s: State, a: AuctionId, w: BidId, at: Time) returns (s': State)
    requires CanWin(s, a, w) && RunActions(s, PayOut(s, a, w, at)).Ok?
    ensures RunActions(s, PayOut(s, a, w, at) + ReleaseLosers(s.bids, a, w, 0)
                          + [Do(PutAuction(a, Expired, s.auctions[a].end))]) == Ok(s')
    ensures WonBy(s, s', a, w, at)
    ensures Books(s')
  {
    hide Books, Owned, WonBy, PayOut, ReleaseLosers, SweptState, RunActions;
    PayOutRuns(s, a, w, at);
    PaidOutKeepsBooks(s, a, w, at);
    var s2 := ReleaseLoop(PaidOut(s, a, w, at), s.bids, a, w, 0);
    SweptPayoutIsWonBy(s, s2, a, w, at);
    ExpireRuns(s2, a, s.auctions[a].end);
    ExpiryKeepsBooks(s2, a);
    s' := ExpiredAt(s2, a);
    RunThree(s, PayOut(s, a, w, at), ReleaseLosers(s.bids, a, w, 0), [Do(PutAuction(a, Expired, s.auctions[a].end))],
             PaidOut(s, a, w, at), s2, s');
  }

  lemma {:induction false} RunThree(s: State, xs: seq<Action>, ys: seq<Action>, zs: seq<Action>,
        s1: State, s2: State, s3: State)
    requires RunActions(s, xs) == Ok(s1) && RunActions(s1, ys) == Ok(s2) && RunActions(s2, zs) == Ok(s3)
    ensures RunActions(s, xs + ys + zs) == Ok(s3)
  {
    hide RunActions;
    RunConcat(s, xs + ys, zs);
    RunConcat(s, xs, ys);
  }

  lemma ExpiryKeepsBooks(s: State, a: AuctionId)
    requires Books(s) && Has(s.auctions, a)
    ensures Books(s.(auctions := s.auctions[a := s.auctions[a].(status := Expired)]))
  {
  }

  lemma {:induction false} EntriesSkipWinner(bids: seq<Bid>, bids': seq<Bid>, a: AuctionId, w: BidId, from: nat)
    requires |bids| == |bids'| && from <= |bids|
    requires forall i :: 0 <= i < |bids| && i != w ==> bids[i] == bids'[i]
    ensures ReleaseEntries(bids, a, w, from) == ReleaseEntries(bids', a, w, from)
    decreases |bids| - from
  {
    if from < |bids| {
      EntriesSkipWinner(bids, bids', a, w, from + 1);
    }
  }

  lemma LastSame(bids: seq<Bid>, bids': seq<Bid>, i: BidId)
    requires |bids| == |bids'|
    requires forall j :: 0 <= j < |bids| ==> bids[j].auction == bids'[j].auction
    ensures IsLast(bids, i) <==> IsLast(bids', i)
  {
  }

  /** After the winner's settlement every bid of the auction is CANCELLED, LOST or WON, and WON is
      exactly the bid accepted last. */
  lemma WonByStands(s: State, s': State, a: AuctionId, w: BidId, at: Time)
    requires BidRows(s) && Ladder(s.bids) && Standing(s)
    requires Has(s.auctions, a) && s.auctions[a].status == Active && Highest(s, a) == Some(w)
    requires WonBy(s, s', a, w, at) && BidRows(s')
    ensures Standing(s')
  {
    HighestIsLast(s, a);
    assert forall j :: 0 <= j < |s.bids| ==> s.bids[j].auction == s'.bids[j].auction;
    forall i | 0 <= i < |s'.bids| ensures Stands(s', i) {
      assert Stands(s, i) && BidRowOk(s, s.bids[i]);
      LastSame(s.bids, s'.bids, i);
      assert s.bids[i].auction == a ==> (IsLast(s.bids, i) <==> i == w);
    }
  }

  /** The item moved to the winner: still one row per item, and no other auction is disturbed. */
  lemma WonByOwned(s: State, s': State, a: AuctionId, w: BidId, at: Time)
    requires CanWin(s, a, w) && WonBy(s, s', a, w, at)
    ensures Owned(s')
    ensures InvKey(s.bids[w].guild, s.auctions[a].item) in s'.inventories
    ensures InvKey(s.auctions[a].owner, s.auctions[a].item) !in s'.inventories
  {
    WinnerRows(s, a, w);
    var key, key' := InvKey(s.auctions[a].owner, s.auctions[a].item), InvKey(s.bids[w].guild, s.auctions[a].item);
    WonByHeld(s, s', key, key');
    WonByListed(s, s', a, w, at);
    hide Books, Held, Listed;
    forall x | 0 <= x < |s'.auctions| ensures AuctionRowOk(s', s'.auctions[x]) {
      assert AuctionRowOk(s, s.auctions[x]);
      assert x != a && s.auctions[x].status == Active ==> s.auctions[x].item != key.item;
    }
  }

  lemma WonByListed(s: State, s': State, a: AuctionId, w: BidId, at: Time)
    requires CanWin(s, a, w) && WonBy(s, s', a, w, at)
    ensures Listed(s')
  {
    assert Listed(s) && AuctionRowOk(s, s.auctions[a]);
    hide Books, Held, Auctioned;
    forall l | 0 <= l < |s'.listings| ensures ListingOk(s', s'.listings[l], s'.openingStock[l]) {
      assert ListingOk(s, s.listings[l], s.openingStock[l]);
    }
    assert NoListings(WinEntries(s, a, w, at)) by {
      ReleasesNameNoListing(s.bids, a, w, 0);
    }
    forall l ensures Sold(s'.log, l, Takings(s', l)) {
      SalesUntouchedBy(s.log, WinEntries(s, a, w, at), l, Takings(s, l));
    }
  }

  lemma {:induction false} ReleasesNameNoListing(bids: seq<Bid>, a: AuctionId, w: BidId, from: nat)
    requires from <= |bids|
    ensures NoListings(ReleaseEntries(bids, a, w, from))
    decreases |bids| - from
  {
    if from < |bids| {
      ReleasesNameNoListing(bids, a, w, from + 1);
    }
  }

  /** Moving an item's single row from one guild to another keeps it single. */
  lemma WonByHeld(s: State, s': State, key: InvKey, key': InvKey)
    requires Held(s) && key in s.inventories && key.item == key'.item && Has(s.pouches, key'.guild)
    requires s'.items == s.items && |s'.pouches| == |s.pouches|
    requires s'.inventories == (s.inventories - {key})[key' := 1]
    ensures Held(s')
  {
    forall i | 0 <= i < |s'.items| ensures HasHolder(s'.inventories, i) {
      assert HasHolder(s.inventories, i);
      if i == key'.item {
        assert key' in s'.inventories;
      } else {
        var k :| k in s.inventories && k.item == i;
        assert k in s'.inventories;
      }
    }
    forall k | k in s'.inventories ensures InventoryRowOk(s', k, s'.inventories[k]) {
      if k != key' {
        assert InventoryRowOk(s, k, s.inventories[k]);
      } else {
        assert InventoryRowOk(s, key, s.inventories[key]);
      }
    }
  }

  /** An auction nobody bid on simply expires. */
  lemma UnsoldExpires(s: State, a: AuctionId)
    requires Books(s) && Standing(s) && Owned(s)
    requires Has(s.auctions, a) && s.auctions[a].status == Active && Highest(s, a).None?
    ensures Books(ExpiredAt(s, a)) && Standing(ExpiredAt(s, a)) && Owned(ExpiredAt(s, a))
  {
    var s' := ExpiredAt(s, a);
    ExpiryKeepsBooks(s, a);
    HighestIsLast(s, a);
    forall i | 0 <= i < |s'.bids| ensures Stands(s', i) {
      assert Stands(s, i);
    }
    forall x | 0 <= x < |s'.auctions| ensures AuctionRowOk(s', s'.auctions[x]) {
      assert AuctionRowOk(s, s.auctions[x]);
    }
    forall l | 0 <= l < |s'.listings| ensures ListingOk(s', s'.listings[l], s'.openingStock[l]) {
      assert ListingOk(s, s.listings[l], s.openingStock[l]);
    }
    forall k | k in s'.inventories ensures InventoryRowOk(s', k, s'.inventories[k]) {
      assert InventoryRowOk(s, k, s.inventories[k]);
    }
    forall l ensures Sold(s'.log, l, Takings(s', l)) {
      assert Sold(s.log, l, Takings(s, l));
    }
  }
}
