/** The life of one auction through any run: four ways a step can touch it, and what follows. */
module Lifecycle {
  import opened Tables
  import opened Operations
  import opened Sums
  import opened Bidding
  import opened Holdings
  import opened Settlement
  import opened Sales
  import opened Market

  // ---- Four ways to touch an auction -----------------------------------------------------

  /** The table keeps all rows, each on its auction and by its bidder, and the rows of auction `a` exactly. */
  ghost predicate SameBidsOn(bids: seq<Bid>, bids': seq<Bid>, a: AuctionId) {
    && |bids| <= |bids'|
    && (forall i :: 0 <= i < |bids| ==> bids'[i] == bids[i].(status := bids'[i].status))
    && (forall i :: 0 <= i < |bids| && bids[i].auction == a ==> bids'[i] == bids[i])
    && (forall i :: |bids| <= i < |bids'| ==> bids'[i].auction != a)
  }

  ghost predicate Untouched(s: State, s': State, a: AuctionId)
    requires Has(s.auctions, a)
  {
    Has(s'.auctions, a) && s'.auctions[a] == s.auctions[a] && SameBidsOn(s.bids, s'.bids, a)
  }

  ghost predicate BidPlacedOn(s: State, s': State, op: Op, a: AuctionId) {
    && op.PlaceBid? && LiveOn(s, a, op.item) && op.now <= s.auctions[a].end
    && MeetsFloor(s, a, op.amount) && Affords(s, op.guild, op.amount, op.at)
    && s' == Placed(s, op, a)
  }

  ghost predicate BidCancelledOn(s: State, s': State, op: Op, a: AuctionId) {
    && op.CancelBid? && Has(s.bids, op.bid) && s.bids[op.bid].auction == a && LiveOn(s, a, op.item)
    && s.bids[op.bid].status == BidActive && !IsLast(s.bids, op.bid)
    && Has(s.pouches, s.bids[op.bid].guild)
    && s' == Released(s, op.bid, BidCancelled)
  }

  /** The auction expired: its last bid, if it had one, WON and its other live bids are LOST. */
  ghost predicate ClosedOn(s: State, s': State, a: AuctionId) {
    && Has(s.auctions, a) && s.auctions[a].status == Active
    && |s'.auctions| == |s.auctions| && s'.auctions[a] == s.auctions[a].(status := Expired)
    && |s'.bids| == |s.bids|
    && forall i :: 0 <= i < |s.bids| ==> s'.bids[i] == Closed(s.bids[i], a, Last(s, a) == Some(i))
  }

  function Closed(b: Bid, a: AuctionId, isWinner: bool): Bid {
    if b.auction != a then b
    else if isWinner then b.(status := BidWon)
    else if b.status == BidActive then b.(status := BidLost)
    else b
  }

  lemma WonByIsClosed(s: State, s': State, a: AuctionId, w: BidId, at: Time, x: AuctionId)
    requires Has(s.auctions, a) && s.auctions[a].status == Active && Last(s, a) == Some(w)
    requires WonBy(s, s', a, w, at)
    requires Has(s.auctions, x)
    ensures ClosedOn(s, s', a)
    ensures x != a ==> Untouched(s, s', x)
  {
    var bids := s.bids[w := s.bids[w].(status := BidWon)];
    forall i | 0 <= i < |s.bids| ensures s'.bids[i] == Closed(s.bids[i], a, Last(s, a) == Some(i)) {
      assert s'.bids[i] == if Loses(bids, a, w, i) then bids[i].(status := BidLost) else bids[i];
    }
  }

  lemma SettledIsClosed(s: State, op: Op, x: AuctionId)
    requires Sound(s) && op.SettleAuction? && Exec(s, op).Ok? && Has(s.auctions, x)
    ensures ClosedOn(s, Exec(s, op).value, op.auction)
    ensures x != op.auction ==> Untouched(s, Exec(s, op).value, x)
  {
    SettleAcceptedIff(s, op);
    hide Sound, Exec, WonBy, Untouched;
    match Last(s, op.auction)
    case None =>
      UnsoldIsClosed(s, op.auction, x);
    case Some(w) =>
      WonByIsClosed(s, Exec(s, op).value, op.auction, w, op.at, x);
  }

  lemma UnsoldIsClosed(s: State, a: AuctionId, x: AuctionId)
    requires Has(s.auctions, a) && s.auctions[a].status == Active && Last(s, a).None? && Has(s.auctions, x)
    ensures ClosedOn(s, ExpiredAt(s, a), a)
    ensures x != a ==> Untouched(s, ExpiredAt(s, a), x)
  {
  }

  lemma CreationLeavesAuctions(s: State, op: Op, a: AuctionId)
    requires Has(s.auctions, a) && (op.CreateItem? || op.CreateAuction?)
    ensures Untouched(s, Step(s, op), a)
  {
    if Exec(s, op).Ok? {
      if op.CreateItem? {
        CreateItemRuns(s, op);
      } else {
        CreateAuctionRuns(s, op);
      }
    }
  }

  lemma PurchaseLeavesAuctions(s: State, op: Op, a: AuctionId)
    requires Sound(s) && Has(s.auctions, a) && op.Purchase?
    ensures Untouched(s, Step(s, op), a)
  {
    hide Sound;
    if Exec(s, op).Ok? {
      PurchaseAcceptedIff(s, op, PreRead(s, op).value);
      hide Exec, CanBuy, PouchesReady;
    }
  }

  lemma BidTouches(s: State, op: Op, a: AuctionId)
    requires Sound(s) && Has(s.auctions, a) && op.PlaceBid?
    ensures Untouched(s, Step(s, op), a) || BidPlacedOn(s, Step(s, op), op, a)
  {
    hide Sound, Exec, Affords, MeetsFloor;
    if Exec(s, op).Ok? {
      var x := AcceptedBidHasAuction(s, op);
      BidAcceptedIff(s, op, x);
    }
  }

  lemma CancelTouches(s: State, op: Op, a: AuctionId)
    requires Sound(s) && Has(s.auctions, a) && op.CancelBid?
    ensures Untouched(s, Step(s, op), a) || BidCancelledOn(s, Step(s, op), op, a)
  {
    CancelAcceptedIff(s, op);
    hide Sound, Exec;
  }

  lemma SettleTouches(s: State, op: Op, a: AuctionId)
    requires Sound(s) && Has(s.auctions, a) && op.SettleAuction?
    ensures || Untouched(s, Step(s, op), a)
            || (op.auction == a && Ended(s, a, op.now) && ClosedOn(s, Step(s, op), a))
  {
    SettleAcceptedIff(s, op);
    if Exec(s, op).Ok? {
      SettledIsClosed(s, op, a);
    }
    hide Sound, Exec;
  }

  /** What any operation, accepted or refused, can do to auction `a` and its bids. */
  lemma AuctionStep(s: State, op: Op, a: AuctionId)
    requires Sound(s) && Has(s.auctions, a)
    ensures var s' := Step(s, op);
            || Untouched(s, s', a)
            || BidPlacedOn(s, s', op, a)
            || BidCancelledOn(s, s', op, a)
            || (op.SettleAuction? && op.auction == a && Ended(s, a, op.now) && ClosedOn(s, s', a))
  {
    hide *;
    match op
    case CreateItem(_, _, _, _, _) => CreationLeavesAuctions(s, op, a);
    case CreateAuction(_, _, _, _, _) => CreationLeavesAuctions(s, op, a);
    case PlaceBid(_, _, _, _, _) => BidTouches(s, op, a);
    case CancelBid(_, _, _) => CancelTouches(s, op, a);
    case SettleAuction(_, _, _) => SettleTouches(s, op, a);
    case Purchase(_, _, _, _, _) => PurchaseLeavesAuctions(s, op, a);
  }

  // ---- Totals of an auction ---------------------------------------------------------------

  /** What an auction's bids come to: while ACTIVE only live ones count, once EXPIRED only the winner. */
  lemma AuctionTotals(s: State, a: AuctionId)
    requires Sound(s) && Has(s.auctions, a)
    ensures s.auctions[a].status == Active ==> Bids(s.bids, BidsOfAuction(a), BidWon) == 0
    ensures s.auctions[a].status == Expired ==>
              && Bids(s.bids, BidsOfAuction(a), BidActive) == 0
              && Bids(s.bids, BidsOfAuction(a), BidWon)
                 == if Last(s, a).Some? then s.bids[Last(s, a).value].amount else 0
  {
    hide Books, Owned;
    forall i | 0 <= i < |s.bids| && s.bids[i].auction == a
      ensures Stands(s, i) && (IsLast(s.bids, i) <==> Last(s, a) == Some(i))
    {
      LastIsLast(s.bids, i);
    }
    hide Sound, IsLast, LastBid;
    if s.auctions[a].status == Active {
      BidsNone(s.bids, BidsOfAuction(a), BidWon);
    } else {
      BidsNone(s.bids, BidsOfAuction(a), BidActive);
      if Last(s, a).Some? {
        assert IsLast(s.bids, Last(s, a).value);
        BidsSingle(s.bids, Last(s, a).value, BidsOfAuction(a), BidWon);
      } else {
        BidsNone(s.bids, BidsOfAuction(a), BidWon);
      }
    }
  }

  // ---- Monotone facts --------------------------------------------------------------------

  /** What no step takes back: end times only grow, EXPIRED stays, a bid's row stays but for its
      status, and a status once final stays. */
  ghost predicate Progressed(s: State, s': State, a: AuctionId)
    requires Has(s.auctions, a)
  {
    && Has(s'.auctions, a) && |s.bids| <= |s'.bids|
    && s.auctions[a].end <= s'.auctions[a].end
    && s'.auctions[a] == s.auctions[a].(status := s'.auctions[a].status, end := s'.auctions[a].end)
    && (s.auctions[a].status == Expired ==> s'.auctions[a] == s.auctions[a])
    && (forall i :: 0 <= i < |s.bids| ==> s'.bids[i] == s.bids[i].(status := s'.bids[i].status))
    && (forall i :: 0 <= i < |s.bids| && s.bids[i].auction == a && s.bids[i].status != BidActive ==>
                      s'.bids[i] == s.bids[i])
    && (s.auctions[a].status == Expired ==> forall i :: |s.bids| <= i < |s'.bids| ==> s'.bids[i].auction != a)
  }

  lemma UntouchedProgresses(s: State, s': State, a: AuctionId)
    requires Has(s.auctions, a) && Untouched(s, s', a)
    ensures Progressed(s, s', a)
  {
  }

  lemma PlacedProgresses(s: State, s': State, op: Op, a: AuctionId)
    requires Has(s.auctions, a) && BidPlacedOn(s, s', op, a)
    ensures Progressed(s, s', a)
  {
  }

  lemma CancelledProgresses(s: State, s': State, op: Op, a: AuctionId)
    requires Has(s.auctions, a) && BidCancelledOn(s, s', op, a)
    ensures Progressed(s, s', a)
  {
  }

  lemma ClosedProgresses(s: State, s': State, a: AuctionId)
    requires Sound(s) && Has(s.auctions, a) && ClosedOn(s, s', a)
    ensures Progressed(s, s', a)
  {
    if Last(s, a).Some? {
      assert Stands(s, Last(s, a).value) && IsLast(s.bids, Last(s, a).value);
    }
    hide Sound, IsLast;
  }

  lemma StepProgresses(s: State, op: Op, a: AuctionId)
    requires Sound(s) && Has(s.auctions, a)
    ensures Progressed(s, Step(s, op), a)
  {
    hide *;
    var s' := Step(s, op);
    AuctionStep(s, op, a);
    if Untouched(s, s', a) {
      UntouchedProgresses(s, s', a);
    } else if BidPlacedOn(s, s', op, a) {
      PlacedProgresses(s, s', op, a);
    } else if BidCancelledOn(s, s', op, a) {
      CancelledProgresses(s, s', op, a);
    } else {
      ClosedProgresses(s, s', a);
    }
  }

  lemma ProgressedTrans(s: State, s1: State, s2: State, a: AuctionId)
    requires Has(s.auctions, a) && Progressed(s, s1, a) && Progressed(s1, s2, a)
    ensures Progressed(s, s2, a)
  {
  }

  /** Auction and bid statuses never leave a final value and end times never decrease, over any run. */
  lemma {:induction false} RunProgresses(s: State, ops: seq<Op>, a: AuctionId)
    requires Sound(s) && Has(s.auctions, a)
    ensures Progressed(s, Run(s, ops), a)
    decreases |ops|
  {
    hide Sound;
    if ops != [] {
      var s1 := Step(s, ops[0]);
      StepKeepsSound(s, ops[0]);
      StepProgresses(s, ops[0], a);
      RunProgresses(s1, ops[1..], a);
      ProgressedTrans(s, s1, Run(s, ops), a);
    }
  }

  // ---- Time to answer a bid --------------------------------------------------------------

  /** Whatever happens after an accepted bid, no settlement of its auction can commit within five
      minutes of the time the bid was accepted. */
  lemma {:induction false} AcceptedBidLeavesFiveMinutes(s: State, bid: Op, a: AuctionId, ops: seq<Op>, settle: Op)
    requires Sound(s) && bid.PlaceBid? && LiveOn(s, a, bid.item) && Exec(s, bid).Ok?
    requires settle.SettleAuction? && settle.auction == a
    requires Exec(Run(Step(s, bid), ops), settle).Ok?
    ensures settle.now > bid.now + 300_000_000_000
  {
    BidAcceptedIff(s, bid, a);
    StepKeepsSound(s, bid);
    RunKeepsSound(Step(s, bid), ops);
    RunProgresses(Step(s, bid), ops, a);
    SettleAcceptedIff(Run(Step(s, bid), ops), settle);
  }

  /** No statement fails the way the eligibility check of a settlement does. */
  lemma {:induction false} StatementsAreEligible(s: State, acts: seq<Action>)
    ensures RunActions(s, acts) != Err(NotEligible)
    decreases |acts|
  {
    if acts != [] && Perform(s, acts[0]).Ok? {
      StatementsAreEligible(Perform(s, acts[0]).value, acts[1..]);
    }
  }

  /** At any one clock reading a live auction is open to bids or ripe for settlement: never both,
      never neither. */
  lemma BiddableXorSettleable(s: State, bid: Op, settle: Op, a: AuctionId)
    requires bid.PlaceBid? && Sound(s) && LiveOn(s, a, bid.item)
    requires bid.amount > 0 && bid.guild != s.auctions[a].owner
    requires settle.SettleAuction? && settle.auction == a && settle.now == bid.now
    ensures Exec(s, bid) == Err(AuctionExpired) <==> Exec(s, settle) != Err(NotEligible)
    ensures !(Exec(s, bid).Ok? && Exec(s, settle).Ok?)
  {
    ActiveAuctionIsUnique(s, a);
    hide Sound, RunActions, MeetsFloor, Affords;
    BidAcceptedIff(s, bid, a);
    if PlanSettle(s, settle, a).Ok? {
      StatementsAreEligible(s, PlanSettle(s, settle, a).value);
    }
    if PlanBid(s, bid, a).Ok? {
      StatementsAreUnexpired(s, PlanBid(s, bid, a).value);
    }
  }

  lemma {:induction false} StatementsAreUnexpired(s: State, acts: seq<Action>)
    ensures RunActions(s, acts) != Err(AuctionExpired)
    decreases |acts|
  {
    if acts != [] && Perform(s, acts[0]).Ok? {
      StatementsAreUnexpired(Perform(s, acts[0]).value, acts[1..]);
    }
  }

  // ---- The winner is frozen --------------------------------------------------------------

  /** Every bid on the item in the run reads a clock past `t`. */
  predicate BidsReadAfter(ops: seq<Op>, item: ItemId, t: Time) {
    forall i :: 0 <= i < |ops| && ops[i].PlaceBid? && ops[i].item == item ==> t < ops[i].now
  }

  /** Auction `a` still has last bid `w`, unchanged but for its status, which is live while the
      auction is ACTIVE and WON once it is EXPIRED; and the end time has not moved. */
  ghost predicate WinnerIs(s: State, s': State, a: AuctionId, w: BidId)
    requires Has(s.auctions, a) && Has(s.bids, w)
  {
    && Has(s'.auctions, a) && s'.auctions[a] == s.auctions[a].(status := s'.auctions[a].status)
    && Last(s', a) == Some(w)
    && s'.bids[w] == s.bids[w].(status := if s'.auctions[a].status == Active then BidActive else BidWon)
  }

  lemma LastSurvivesStatus(s: State, s': State, a: AuctionId)
    requires |s.bids| == |s'.bids|
    requires forall i :: 0 <= i < |s.bids| ==> s'.bids[i].auction == s.bids[i].auction
    ensures Last(s', a) == Last(s, a)
  {
  }

  lemma UntouchedKeepsWinner(s0: State, s: State, s': State, a: AuctionId, w: BidId)
    requires Has(s0.auctions, a) && Has(s0.bids, w) && WinnerIs(s0, s, a, w) && Untouched(s, s', a)
    ensures WinnerIs(s0, s', a, w)
  {
  }

  lemma CancelledKeepsWinner(s0: State, s: State, s': State, op: Op, a: AuctionId, w: BidId)
    requires Has(s0.auctions, a) && Has(s0.bids, w) && WinnerIs(s0, s, a, w) && BidCancelledOn(s, s', op, a)
    ensures WinnerIs(s0, s', a, w)
  {
    LastSurvivesStatus(s, s', a);
    assert IsLast(s.bids, w);
  }

  lemma ClosedKeepsWinner(s0: State, s: State, s': State, a: AuctionId, w: BidId)
    requires Has(s0.auctions, a) && Has(s0.bids, w) && WinnerIs(s0, s, a, w) && ClosedOn(s, s', a)
    ensures WinnerIs(s0, s', a, w)
  {
  }

  lemma StepKeepsWinner(s0: State, s: State, op: Op, a: AuctionId, w: BidId)
    requires Has(s0.auctions, a) && Has(s0.bids, w)
    requires Sound(s) && WinnerIs(s0, s, a, w)
    requires op.PlaceBid? && op.item == s0.auctions[a].item ==> s0.auctions[a].end < op.now
    ensures WinnerIs(s0, Step(s, op), a, w)
  {
    var s' := Step(s, op);
    AuctionStep(s, op, a);
    assert !BidPlacedOn(s, s', op, a) by {
      hide Sound, Step;
    }
    hide *;
    if Untouched(s, s', a) {
      UntouchedKeepsWinner(s0, s, s', a, w);
    } else if BidCancelledOn(s, s', op, a) {
      CancelledKeepsWinner(s0, s, s', op, a, w);
    } else {
      ClosedKeepsWinner(s0, s, s', a, w);
    }
  }

  lemma {:induction false} RunKeepsWinner(s0: State, s: State, ops: seq<Op>, a: AuctionId, w: BidId)
    requires Has(s0.auctions, a) && Has(s0.bids, w)
    requires Sound(s) && WinnerIs(s0, s, a, w)
    requires BidsReadAfter(ops, s0.auctions[a].item, s0.auctions[a].end)
    ensures WinnerIs(s0, Run(s, ops), a, w)
    decreases |ops|
  {
    hide Sound, WinnerIs;
    if ops != [] {
      StepKeepsSound(s, ops[0]);
      StepKeepsWinner(s0, s, ops[0], a, w);
      RunKeepsWinner(s0, Step(s, ops[0]), ops[1..], a, w);
    }
  }

  /** Once the auction's clock has passed its end time, no run changes which bid was accepted last,
      its bidder or its amount: the auction stays as it is, or it is EXPIRED with exactly that bid WON. */
  lemma {:induction false} EndedWinnerIsFrozen(s: State, ops: seq<Op>, a: AuctionId)
    requires Sound(s) && Has(s.auctions, a) && Last(s, a).Some?
    requires BidsReadAfter(ops, s.auctions[a].item, s.auctions[a].end)
    ensures WinnerIs(s, Run(s, ops), a, Last(s, a).value)
  {
    assert Stands(s, Last(s, a).value) && IsLast(s.bids, Last(s, a).value);
    RunKeepsWinner(s, s, ops, a, Last(s, a).value);
  }
}
