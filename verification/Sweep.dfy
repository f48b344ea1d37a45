/** The settlement sweep over all ended auctions, and the conservation facts it rests on. */
module Sweep {
  import opened Tables
  import opened GoldPouch
  import opened Operations
  import opened Sums
  import opened Ledger
  import opened Bidding
  import opened Holdings
  import opened Settlement
  import opened Sales
  import opened Market
  import opened Lifecycle
  import opened Possession

  // ---- Gold over whole runs --------------------------------------------------------------

  /** No run of operations creates or destroys gold. */
  lemma {:induction false} RunConservesGold(s: State, ops: seq<Op>)
    ensures Gold(Run(s, ops).pouches) == Gold(s.pouches)
    decreases |ops|
  {
    if ops != [] {
      if Exec(s, ops[0]).Ok? {
        ExecConservesGold(s, ops[0]);
      }
      RunConservesGold(Step(s, ops[0]), ops[1..]);
    }
  }

  lemma {:induction false} GoldCoversTwo(pouches: seq<Pouch>, g: nat, h: nat)
    requires g < |pouches| && h < |pouches| && g != h
    requires forall x :: 0 <= x < |pouches| ==> pouches[x].total >= 0
    ensures pouches[g].total + pouches[h].total <= Gold(pouches)
  {
    var n := |pouches| - 1;
    if g == n {
      GoldCovers(pouches[..n], h);
    } else if h == n {
      GoldCovers(pouches[..n], g);
    } else {
      GoldCoversTwo(pouches[..n], g, h);
    }
  }

  /** If all the gold in the market fits one 32-bit column, no credit can overflow one. */
  lemma CreditNeverOverflows(s: State, payer: GuildId, payee: GuildId, amount: int)
    requires Accounts(s) && Gold(s.pouches) <= MAX_INT32
    requires Has(s.pouches, payer) && Has(s.pouches, payee) && payer != payee
    requires amount <= s.pouches[payer].total
    ensures CreditFits(s, payee, amount)
  {
    assert forall x :: 0 <= x < |s.pouches| ==> PouchRowOk(s.pouches[x]);
    GoldCoversTwo(s.pouches, payer, payee);
  }

  // ---- Progress of one settlement --------------------------------------------------------

  /** In a market whose gold fits a 32-bit column, an ended auction settles unless its winner's daily
      limit is used up; nothing else can hold it back. */
  lemma OnlyTheLimitBlocksSettlement(s: State, op: Op)
    requires Sound(s) && Gold(s.pouches) <= MAX_INT32
    requires op.SettleAuction? && Ended(s, op.auction, op.now)
    ensures Exec(s, op).Ok?
            <==> match Last(s, op.auction)
                 case None => true
                 case Some(w) => LimitCovers(s, s.bids[w].guild, s.bids[w].amount, op.at)
  {
    SettleAcceptedIff(s, op);
    HighestIsLast(s, op.auction);
    if Last(s, op.auction).Some? {
      var w := Last(s, op.auction).value;
      WinnerRows(s, op.auction, w);
      CreditNeverOverflows(s, s.bids[w].guild, s.auctions[op.auction].owner, s.bids[w].amount);
    }
  }

  /** The same for purchases: within the stock, only the buyer's wallet decides. */
  lemma OnlyTheWalletBlocksPurchase(s: State, op: Op, l: ListingId)
    requires Sound(s) && Gold(s.pouches) <= MAX_INT32
    requires op.Purchase? && LiveListing(s, l, op.item) && 0 < op.units <= s.listings[l].quantity
    ensures Exec(s, op).Ok? <==> Affords(s, op.buyer, Total(s, op, l), op.at)
  {
    PurchaseAcceptedIff(s, op, l);
    assert ListingOk(s, s.listings[l], s.openingStock[l]);
    if Affords(s, op.buyer, Total(s, op, l), op.at) && op.buyer != s.listings[l].guild {
      ReservePerforms(s, op.buyer, Total(s, op, l), op.at, OfListing(l));
      CreditNeverOverflows(s, op.buyer, s.listings[l].guild, Total(s, op, l));
    }
  }

  // ---- The sweep as a fold ---------------------------------------------------------------

  /** Auction `x` was settled somewhere between the two states: its row expired, its bids have their
      final statuses, and no bid was added to it. */
  ghost predicate ClosedBetween(s: State, s': State, x: AuctionId)
    requires Has(s.auctions, x)
  {
    && s.auctions[x].status == Active
    && Has(s'.auctions, x) && s'.auctions[x] == s.auctions[x].(status := Expired)
    && |s.bids| <= |s'.bids| && Last(s', x) == Last(s, x)
    && forall i :: 0 <= i < |s.bids| && s.bids[i].auction == x ==>
                     s'.bids[i] == Closed(s.bids[i], x, Last(s, x) == Some(i))
  }

  /** Item and gold of settled auction `x` are where they belong: with a last bid, its bidder holds the
      item, the owner does not, and exactly that amount was taken and credited; without one the owner
      keeps the item and no gold moved. */
  ghost predicate HandedOver(s: State, s': State, x: AuctionId)
    requires Has(s.auctions, x)
  {
    var row, ref := s.auctions[x], LogOfRef(OfAuction(x));
    match Last(s, x)
    case None =>
      && Holds(s', row.owner, row.item)
      && Logged(s'.log, ref, TxCredit) == 0 && Logged(s'.log, ref, TxAuctionWin) == 0
    case Some(w) =>
      && Holds(s', s.bids[w].guild, row.item) && !Holds(s', row.owner, row.item)
      && Logged(s'.log, ref, TxCredit) == s.bids[w].amount
      && Logged(s'.log, ref, TxAuctionWin) == s.bids[w].amount
  }

  lemma UntouchedLast(s: State, s': State, x: AuctionId)
    requires Has(s.auctions, x) && Untouched(s, s', x)
    ensures Last(s', x) == Last(s, x)
  {
  }

  lemma UntouchedThenClosed(s: State, s1: State, s2: State, x: AuctionId)
    requires Has(s.auctions, x) && Untouched(s, s1, x) && ClosedBetween(s1, s2, x)
    ensures ClosedBetween(s, s2, x)
  {
    UntouchedLast(s, s1, x);
  }

  lemma ClosedThenUntouched(s: State, s1: State, s2: State, x: AuctionId)
    requires Has(s.auctions, x) && ClosedOn(s, s1, x) && Untouched(s1, s2, x)
    ensures ClosedBetween(s, s2, x)
  {
    LastSurvivesStatus(s, s1, x);
    UntouchedLast(s1, s2, x);
    hide LastBid;
  }

  lemma UntouchedTrans(s: State, s1: State, s2: State, x: AuctionId)
    requires Has(s.auctions, x) && Untouched(s, s1, x) && Untouched(s1, s2, x)
    ensures Untouched(s, s2, x)
  {
  }

  lemma {:induction false} SweepClosesOrLeaves(s: State, ids: seq<AuctionId>, clock: AuctionId -> Readings,
        x: AuctionId)
    requires Sound(s) && Has(s.auctions, x)
    ensures var s' := Run(s, SettleOps(ids, clock));
            Untouched(s, s', x) || (x in ids && ClosedBetween(s, s', x))
    decreases |ids|
  {
    if ids != [] {
      var op := SettleAuction(ids[0], clock(ids[0]).now, clock(ids[0]).at);
      var s1 := Step(s, op);
      var rest := SettleOps(ids[1..], clock);
      assert SettleOps(ids, clock) == [op] + rest && ([op] + rest)[1..] == rest;
      StepKeepsSound(s, op);
      SettleTouches(s, op, x);
      assert Has(s1.auctions, x);
      SweepClosesOrLeaves(s1, ids[1..], clock, x);
      var s2 := Run(s1, rest);
      hide Sound, Step, Run, SettleOps, Ended;
      if Untouched(s, s1, x) {
        if Untouched(s1, s2, x) {
          UntouchedTrans(s, s1, s2, x);
        } else {
          UntouchedThenClosed(s, s1, s2, x);
        }
      } else {
        ClosedThenUntouched(s, s1, s2, x);
      }
    }
  }

  // ---- Where a sweep leaves item and gold ------------------------------------------------

  lemma SettledAuctions(s: State, op: Op)
    requires Sound(s) && op.SettleAuction?
    ensures Step(s, op).items == s.items
    ensures || Step(s, op).auctions == s.auctions
            || (&& Exec(s, op).Ok? && Ended(s, op.auction, op.now)
                && Step(s, op).auctions == s.auctions[op.auction := s.auctions[op.auction].(status := Expired)])
  {
    SettleAcceptedIff(s, op);
    hide Books, Standing, Owned, Last, RunActions;
  }

  /** A settlement request hands over an item only if that item is in a live auction, and never puts
      one under auction. */
  lemma SettleNeedsAuction(s: State, op: Op, item: ItemId)
    requires Sound(s) && op.SettleAuction? && !UnderAuction(s.auctions, item)
    ensures HandedTo(s, op, item).None? && !UnderAuction(Step(s, op).auctions, item)
  {
    SettleAcceptedIff(s, op);
    SettledAuctions(s, op);
    hide Sound, Exec, Step, Last;
  }

  lemma {:induction false} SweepNeedsAuction(s: State, ids: seq<AuctionId>, clock: AuctionId -> Readings, item: ItemId)
    requires Sound(s) && !UnderAuction(s.auctions, item)
    ensures LastWinner(s, SettleOps(ids, clock), item).None?
    decreases |ids|
  {
    hide Sound, Step, HandedTo, UnderAuction;
    if ids != [] {
      var op := SettleAuction(ids[0], clock(ids[0]).now, clock(ids[0]).at);
      var rest := SettleOps(ids[1..], clock);
      assert SettleOps(ids, clock) == [op] + rest && ([op] + rest)[1..] == rest;
      StepKeepsSound(s, op);
      SettleNeedsAuction(s, op, item);
      SweepNeedsAuction(Step(s, op), ids[1..], clock, item);
    }
  }

  /** One settlement request leaves live auction `x` alone and hands its item to nobody, or closes `x`,
      awards its item as its last bid says, and leaves the item in no auction. */
  lemma SettleHandsOver(s: State, op: Op, x: AuctionId)
    requires Sound(s) && op.SettleAuction? && Has(s.auctions, x) && s.auctions[x].status == Active
    ensures var s1, item := Step(s, op), s.auctions[x].item;
            if op.auction == x && Exec(s, op).Ok?
            then
              && !UnderAuction(s1.auctions, item) && ClosedOn(s, s1, x)
              && HandedTo(s, op, item) == match Last(s, x) case None => None case Some(w) => Some(s.bids[w].guild)
            else HandedTo(s, op, item).None? && Untouched(s, s1, x)
  {
    OnlyLiveOne(s, x);
    hide Sound, LastBid, Untouched, ClosedOn, WonBy, LimitCovers, CreditFits, RunActions, Plan;
    SettledAuctions(s, op);
    SettleTouches(s, op, x);
    if Exec(s, op).Ok? {
      SettleAcceptedIff(s, op);
      SettledIsClosed(s, op, x);
    }
    hide Exec, Last;
  }

  /** The other auctions of a live auction's item are EXPIRED. */
  lemma OnlyLiveOne(s: State, x: AuctionId)
    requires Sound(s) && Has(s.auctions, x) && s.auctions[x].status == Active
    ensures forall y :: 0 <= y < |s.auctions| && y != x && s.auctions[y].item == s.auctions[x].item ==>
                          s.auctions[y].status == Expired
  {
  }

  /** If a sweep closes `x`, the last winning settlement of its item in the sweep is that of `x`. */
  lemma {:induction false} SweepAwards(s: State, ids: seq<AuctionId>, clock: AuctionId -> Readings, x: AuctionId)
    requires Sound(s) && Has(s.auctions, x) && s.auctions[x].status == Active
    requires var s' := Run(s, SettleOps(ids, clock)); Has(s'.auctions, x) && s'.auctions[x].status == Expired
    ensures LastWinner(s, SettleOps(ids, clock), s.auctions[x].item)
            == match Last(s, x) case None => None case Some(w) => Some(s.bids[w].guild)
    decreases |ids|
  {
    hide Sound, Step, HandedTo, UnderAuction, LastBid;
    if ids != [] {
      var op := SettleAuction(ids[0], clock(ids[0]).now, clock(ids[0]).at);
      var rest := SettleOps(ids[1..], clock);
      assert SettleOps(ids, clock) == [op] + rest && ([op] + rest)[1..] == rest;
      StepKeepsSound(s, op);
      SettleHandsOver(s, op, x);
      if op.auction == x && Exec(s, op).Ok? {
        SweepNeedsAuction(Step(s, op), ids[1..], clock, s.auctions[x].item);
      } else {
        UntouchedLast(s, Step(s, op), x);
        SweepAwards(Step(s, op), ids[1..], clock, x);
      }
    }
  }

  /** The gold booked under a closed auction. */
  lemma ClosedGold(s: State, s': State, x: AuctionId)
    requires Has(s.auctions, x) && Sound(s') && ClosedBetween(s, s', x)
    ensures var ref := LogOfRef(OfAuction(x));
            var price := match Last(s, x) case None => 0 case Some(w) => s.bids[w].amount;
            Logged(s'.log, ref, TxCredit) == price && Logged(s'.log, ref, TxAuctionWin) == price
  {
    AuctionTotals(s', x);
    assert Reconciles(s'.log, s'.bids, x);
    hide Sound, LastBid, Logged, Bids;
  }

  /** A sweep leaves every auction untouched, or listed by it and settled as a whole: row, bids, item
      and gold, whatever the other settlements of the sweep did. */
  lemma {:induction false} SweepSettlesOrLeaves(s: State, ids: seq<AuctionId>, clock: AuctionId -> Readings,
        x: AuctionId)
    requires Sound(s) && Has(s.auctions, x)
    ensures var s' := Run(s, SettleOps(ids, clock));
            || Untouched(s, s', x)
            || (x in ids && ClosedBetween(s, s', x) && HandedOver(s, s', x))
  {
    var ops := SettleOps(ids, clock);
    var s' := Run(s, ops);
    SweepClosesOrLeaves(s, ids, clock, x);
    if ClosedBetween(s, s', x) {
      RunKeepsSound(s, ops);
      ClosedGold(s, s', x);
      SweepAwards(s, ids, clock, x);
      WhoHolds(s, x);
      var row := s.auctions[x];
      RunMovesItem(s, ops, row.item, row.owner);
      if Last(s, x).Some? {
        RunMovesItem(s, ops, row.item, s.bids[Last(s, x).value].guild);
      }
    }
    hide Sound, Run, LastWinner, Untouched, ClosedBetween, LastBid, Holds, Logged, SettleOps;
  }

  /** The owner of a live auction holds the item and bids on nothing of its own. */
  lemma WhoHolds(s: State, x: AuctionId)
    requires Sound(s) && Has(s.auctions, x) && s.auctions[x].status == Active
    ensures Has(s.items, s.auctions[x].item) && Holds(s, s.auctions[x].owner, s.auctions[x].item)
    ensures Last(s, x).Some? ==> s.bids[Last(s, x).value].guild != s.auctions[x].owner
  {
    assert AuctionRowOk(s, s.auctions[x]);
    if Last(s, x).Some? {
      assert BidRowOk(s, s.bids[Last(s, x).value]);
    }
  }

  lemma DueSplits(auctions: seq<Auction>, cutoff: Time, from: nat, x: AuctionId)
    requires from <= |auctions|
    ensures x in Due(auctions, cutoff, from)
            <==> && from < |auctions|
                 && (|| x in Due(auctions, cutoff, from + 1)
                     || (x == from && auctions[from].status == Active && auctions[from].end <= cutoff))
  {
  }

  lemma {:induction false} DueIs(auctions: seq<Auction>, cutoff: Time, from: nat, x: AuctionId)
    requires from <= |auctions|
    ensures x in Due(auctions, cutoff, from)
            <==> from <= x < |auctions| && auctions[x].status == Active && auctions[x].end <= cutoff
    decreases |auctions| - from
  {
    hide Due;
    DueSplits(auctions, cutoff, from, x);
    if from < |auctions| {
      DueIs(auctions, cutoff, from + 1, x);
    }
  }

  /** The ids ascend, from `from` on. */
  predicate Ascends(ids: seq<AuctionId>, from: int) {
    ids == [] || (from <= ids[0] && Ascends(ids[1..], ids[0] + 1))
  }

  lemma {:induction false} AscendsCons(id: AuctionId, ids: seq<AuctionId>)
    requires Ascends(ids, id + 1)
    ensures Ascends([id] + ids, id) && Ascends([] + ids, id)
  {
    assert [] + ids == ids && ([id] + ids)[1..] == ids;
  }

  /** The sweep goes through its list in id order, each auction once. */
  lemma {:induction false} DueAscends(auctions: seq<Auction>, cutoff: Time, from: nat)
    requires from <= |auctions|
    ensures Ascends(Due(auctions, cutoff, from), from)
    decreases |auctions| - from
  {
    hide Ascends;
    if from < |auctions| {
      DueAscends(auctions, cutoff, from + 1);
      AscendsCons(from, Due(auctions, cutoff, from + 1));
    } else {
      NoneAscend(from);
    }
  }

  lemma {:induction false} NoneAscend(from: int)
    ensures Ascends([], from)
  {
  }

  /** One Tick: an auction not due is untouched; a due one is untouched or settled as a whole, item and
      gold included. */
  lemma TickSettlesOrLeaves(s: State, cutoff: Time, clock: AuctionId -> Readings, x: AuctionId)
    requires Sound(s) && Has(s.auctions, x)
    ensures var s' := Tick(s, cutoff, clock);
            && Sound(s')
            && (|| Untouched(s, s', x)
                || (&& s.auctions[x].status == Active && s.auctions[x].end <= cutoff
                    && ClosedBetween(s, s', x) && HandedOver(s, s', x)))
  {
    SweepSettlesOrLeaves(s, Due(s.auctions, cutoff, 0), clock, x);
    DueIs(s.auctions, cutoff, 0, x);
    RunKeepsSound(s, SettleOps(Due(s.auctions, cutoff, 0), clock));
  }

  // ---- Progress of the sweep -------------------------------------------------------------

  /** On none of the days the sweep reads has any guild spent anything yet. */
  predicate NothingSpent(s: State, clock: AuctionId -> Readings, ids: seq<AuctionId>) {
    forall g, i :: 0 <= g < |s.pouches| && 0 <= i < |ids| ==>
                     Refreshed(s.pouches[g], UtcDay(clock(ids[i]).at)).spent == 0
  }

  /** Some auction of the list is settled: the first one that has ended, unless an earlier one was. */
  lemma {:induction false} SweepSettlesOne(s: State, ids: seq<AuctionId>, clock: AuctionId -> Readings, a: AuctionId)
    returns (x: AuctionId)
    requires Sound(s) && Gold(s.pouches) <= MAX_INT32 && NothingSpent(s, clock, ids)
    requires a in ids && Ended(s, a, clock(a).now)
    ensures x in ids && Has(s.auctions, x) && s.auctions[x].status == Active
    ensures var s' := Run(s, SettleOps(ids, clock)); Has(s'.auctions, x) && s'.auctions[x].status == Expired
    decreases |ids|
  {
    x := ids[0];
    var op := SettleAuction(x, clock(x).now, clock(x).at);
    var rest := SettleOps(ids[1..], clock);
    assert SettleOps(ids, clock) == [op] + rest && ([op] + rest)[1..] == rest;
    SettleAcceptedIff(s, op);
    if Exec(s, op).Ok? {
      StepKeepsSound(s, op);
      SettledIsClosed(s, op, x);
      RunProgresses(Step(s, op), rest, x);
    } else {
      if a == x {
        FreshLimitCovers(s, ids, clock, op);
      }
      assert a in ids[1..] && NothingSpent(s, clock, ids[1..]) by {
        assert forall i :: 0 <= i < |ids[1..]| ==> ids[1..][i] == ids[i + 1];
      }
      x := SweepSettlesOne(s, ids[1..], clock, a);
    }
  }

  lemma FreshLimitCovers(s: State, ids: seq<AuctionId>, clock: AuctionId -> Readings, op: Op)
    requires Sound(s) && Gold(s.pouches) <= MAX_INT32 && NothingSpent(s, clock, ids)
    requires ids != [] && op == SettleAuction(ids[0], clock(ids[0]).now, clock(ids[0]).at)
    requires Ended(s, op.auction, op.now)
    ensures Exec(s, op).Ok?
  {
    OnlyTheLimitBlocksSettlement(s, op);
    if Last(s, op.auction).Some? {
      assert BidRowOk(s, s.bids[Last(s, op.auction).value]);
    }
  }

  lemma DueLength(auctions: seq<Auction>, cutoff: Time, from: nat)
    requires from <= |auctions|
    ensures |Due(auctions, cutoff, from)|
            == if from == |auctions| then 0
               else |Due(auctions, cutoff, from + 1)|
                    + if auctions[from].status == Active && auctions[from].end <= cutoff then 1 else 0
  {
  }

  /** If rows only ever expire, fewer auctions are due; strictly fewer once a due one expired. */
  lemma {:induction false} ExpiryShortensDue(before: seq<Auction>, after: seq<Auction>, cutoff: Time, from: nat,
        x: AuctionId)
    requires from <= |before| == |after|
    requires forall i :: 0 <= i < |before| ==> after[i] == before[i] || after[i] == before[i].(status := Expired)
    ensures |Due(after, cutoff, from)| <= |Due(before, cutoff, from)|
    ensures from <= x < |before| && before[x].status == Active && before[x].end <= cutoff
            && after[x].status == Expired ==>
              |Due(after, cutoff, from)| < |Due(before, cutoff, from)|
    decreases |before| - from
  {
    hide Due;
    DueLength(before, cutoff, from);
    DueLength(after, cutoff, from);
    if from < |before| {
      ExpiryShortensDue(before, after, cutoff, from + 1, x);
      assert after[from] == before[from] || after[from] == before[from].(status := Expired);
    }
  }

  lemma {:induction false} SweepKeepsAuctionCount(s: State, ids: seq<AuctionId>, clock: AuctionId -> Readings)
    requires Sound(s)
    ensures |Run(s, SettleOps(ids, clock)).auctions| == |s.auctions|
    decreases |ids|
  {
    if ids != [] {
      var op := SettleAuction(ids[0], clock(ids[0]).now, clock(ids[0]).at);
      var rest := SettleOps(ids[1..], clock);
      assert SettleOps(ids, clock) == [op] + rest && ([op] + rest)[1..] == rest;
      StepKeepsSound(s, op);
      SettleAcceptedIff(s, op);
      hide Sound;
      SweepKeepsAuctionCount(Step(s, op), ids[1..], clock);
    }
  }

  /** One Tick only expires auctions. */
  lemma TickExpires(s: State, cutoff: Time, clock: AuctionId -> Readings)
    requires Sound(s)
    ensures var s' := Tick(s, cutoff, clock);
            && |s'.auctions| == |s.auctions|
            && forall i :: 0 <= i < |s.auctions| ==>
                             s'.auctions[i] == s.auctions[i] || s'.auctions[i] == s.auctions[i].(status := Expired)
  {
    var ids := Due(s.auctions, cutoff, 0);
    var s' := Tick(s, cutoff, clock);
    SweepKeepsAuctionCount(s, ids, clock);
    forall i | 0 <= i < |s.auctions|
      ensures s'.auctions[i] == s.auctions[i] || s'.auctions[i] == s.auctions[i].(status := Expired)
    {
      SweepClosesOrLeaves(s, ids, clock, i);
    }
  }

  /** A Tick on days when nobody has spent yet strictly shortens the list of due auctions as soon as one
      of them has ended on its own clock reading, and so any longer list of auctions due later. */
  lemma {:induction false} TickMakesProgress(s: State, cutoff: Time, clock: AuctionId -> Readings, a: AuctionId)
    requires Sound(s) && Gold(s.pouches) <= MAX_INT32
    requires NothingSpent(s, clock, Due(s.auctions, cutoff, 0))
    requires Ended(s, a, clock(a).now) && s.auctions[a].end <= cutoff
    ensures forall horizon :: cutoff <= horizon ==>
                                |Due(Tick(s, cutoff, clock).auctions, horizon, 0)| < |Due(s.auctions, horizon, 0)|
  {
    var ids := Due(s.auctions, cutoff, 0);
    var s' := Tick(s, cutoff, clock);
    DueIs(s.auctions, cutoff, 0, a);
    var x := SweepSettlesOne(s, ids, clock, a);
    DueIs(s.auctions, cutoff, 0, x);
    TickExpires(s, cutoff, clock);
    hide Sound, Due;
    forall horizon | cutoff <= horizon ensures |Due(s'.auctions, horizon, 0)| < |Due(s.auctions, horizon, 0)| {
      ExpiryShortensDue(s.auctions, s'.auctions, horizon, 0, x);
    }
  }
}
