/** Why no auction goes on forever: the 5% ladder multiplies, daily limits fit a 32-bit column, and
    every extension needs an accepted bid. */
module Bounds {
  import opened Tables
  import opened GoldPouch
  import opened Operations
  import opened Bidding
  import opened Sales
  import opened Market
  import opened Lifecycle

  // ---- Powers ----------------------------------------------------------------------------

  function Pow(b: nat, n: nat): (p: nat)
    ensures b > 0 ==> p > 0
  {
    if n == 0 then 1 else b * Pow(b, n - 1)
  }

  lemma PowStep(b: nat, n: nat)
    ensures Pow(b, n + 1) == b * Pow(b, n)
  {
  }

  lemma PowAddStep(b: nat, m: nat, n: nat)
    requires Pow(b, m + n) == Pow(b, m) * Pow(b, n)
    ensures Pow(b, (m + n) + 1) == Pow(b, m + 1) * Pow(b, n)
  {
    hide Pow;
    PowStep(b, m + n);
    PowStep(b, m);
    assert b * (Pow(b, m) * Pow(b, n)) == (b * Pow(b, m)) * Pow(b, n);
  }

  lemma {:induction false} PowAdd(b: nat, m: nat, n: nat)
    ensures Pow(b, m + n) == Pow(b, m) * Pow(b, n)
  {
    if m > 0 {
      PowAdd(b, m - 1, n);
      PowAddStep(b, m - 1, n);
    }
  }

  /** Fifteen steps of 5% more than double an amount. */
  lemma FifteenStepsDouble()
    ensures 2 * Pow(100, 15) <= Pow(105, 15)
  {
    PowAdd(105, 1, 1);
    PowAdd(105, 2, 1);
    PowAdd(105, 3, 2);
    PowAdd(105, 5, 5);
    PowAdd(105, 10, 5);
    PowAdd(100, 1, 1);
    PowAdd(100, 2, 1);
    PowAdd(100, 3, 2);
    PowAdd(100, 5, 5);
    PowAdd(100, 10, 5);
    assert Pow(105, 1) == 105 && Pow(100, 1) == 100;
    assert Pow(105, 5) == 12762815625 && Pow(100, 5) == 10000000000;
  }

  lemma DoubleAgain(p: nat, x: nat, y: nat, u: nat, v: nat)
    requires 2 * x <= y && p * u <= v
    ensures (2 * p) * (x * u) <= y * v
  {
  }

  lemma DoubleStep(k: nat)
    requires Pow(2, k) * Pow(100, 15 * k) <= Pow(105, 15 * k)
    ensures Pow(2, k + 1) * Pow(100, 15 + 15 * k) <= Pow(105, 15 + 15 * k)
  {
    hide Pow;
    FifteenStepsDouble();
    PowAdd(100, 15, 15 * k);
    PowAdd(105, 15, 15 * k);
    PowStep(2, k);
    DoubleAgain(Pow(2, k), Pow(100, 15), Pow(105, 15), Pow(100, 15 * k), Pow(105, 15 * k));
  }

  lemma {:induction false} ManyStepsDouble(k: nat)
    ensures Pow(2, k) * Pow(100, 15 * k) <= Pow(105, 15 * k)
  {
    if k > 0 {
      ManyStepsDouble(k - 1);
      DoubleStep(k - 1);
      assert 15 + 15 * (k - 1) == 15 * k;
    }
  }

  const MAX_BIDS: nat := 465

  lemma Pow2Of31()
    ensures Pow(2, 31) == 0x8000_0000
  {
    PowAdd(2, 1, 1);
    PowAdd(2, 2, 2);
    PowAdd(2, 4, 4);
    PowAdd(2, 8, 8);
    PowAdd(2, 16, 8);
    PowAdd(2, 24, 4);
    PowAdd(2, 28, 2);
    PowAdd(2, 30, 1);
    assert Pow(2, 1) == 2;
  }

  /** A climb of n steps of 5% from at least 1 that still fits a 32-bit column has n < 465. */
  lemma {:induction false} ClimbIsShort(n: nat, amount: int)
    requires amount <= MAX_INT32
    requires Pow(105, n) <= Pow(100, n) * amount
    ensures n < MAX_BIDS
  {
    hide Pow;
    if n >= MAX_BIDS {
      var r := n - MAX_BIDS;
      assert Pow(100, n) > 0;
      ManyStepsDouble(31);
      Pow2Of31();
      PowAdd(105, MAX_BIDS, r);
      PowAdd(100, MAX_BIDS, r);
      PowMono(r);
      ClimbTooFar(Pow(100, MAX_BIDS), Pow(105, MAX_BIDS), Pow(100, r), Pow(105, r), amount);
    }
  }

  lemma ClimbTooFar(x: nat, y: nat, u: nat, v: nat, amount: int)
    requires 0x8000_0000 * x <= y && u <= v && x * u > 0 && amount <= MAX_INT32
    ensures (x * u) * amount < y * v
  {
  }

  lemma {:induction false} PowMono(n: nat)
    ensures Pow(100, n) <= Pow(105, n)
  {
    if n > 0 {
      PowMono(n - 1);
    }
  }

  // ---- The ladder ------------------------------------------------------------------------

  /** How many bids were ever accepted on the auction, among the first `n` rows. */
  function CountBids(bids: seq<Bid>, a: AuctionId, n: nat): nat
    requires n <= |bids|
  {
    if n == 0 then 0 else CountBids(bids, a, n - 1) + if bids[n - 1].auction == a then 1 else 0
  }

  function Accepted(s: State, a: AuctionId): nat {
    CountBids(s.bids, a, |s.bids|)
  }

  lemma LadderStep(p105: nat, p100: nat, first: int, x: int, y: int)
    requires p105 * first <= p100 * x && 105 * x <= 100 * y
    ensures (105 * p105) * first <= (100 * p100) * y
  {
  }

  /** If k bids were accepted on the auction after bid `i`, cancelled ones included, then
      100^k times the last amount is at least 105^k times the amount of `i`. */
  lemma {:induction false} LadderClimbs(bids: seq<Bid>, a: AuctionId, i: BidId, n: nat)
    requires 0 <= i < n <= |bids| && bids[i].auction == a && Ladder(bids)
    ensures LastBid(bids, a, n).Some? && CountBids(bids, a, i + 1) <= CountBids(bids, a, n)
    ensures var k := CountBids(bids, a, n) - CountBids(bids, a, i + 1);
            var last := bids[LastBid(bids, a, n).value].amount;
            Pow(105, k) * bids[i].amount <= Pow(100, k) * last
    decreases n
  {
    if i < n - 1 {
      LadderClimbs(bids, a, i, n - 1);
      if bids[n - 1].auction == a {
        var k := CountBids(bids, a, n - 1) - CountBids(bids, a, i + 1);
        var before := LastBid(bids, a, n - 1).value;
        PowStep(105, k);
        PowStep(100, k);
        hide Pow, Ladder;
        LadderStep(Pow(105, k), Pow(100, k), bids[i].amount, bids[before].amount, bids[n - 1].amount);
      }
    }
  }

  /** The first bid on an auction. */
  lemma {:induction false} FirstBid(bids: seq<Bid>, a: AuctionId, n: nat) returns (i: BidId)
    requires n <= |bids| && CountBids(bids, a, n) > 0
    ensures 0 <= i < n && bids[i].auction == a && CountBids(bids, a, i + 1) == 1
  {
    if CountBids(bids, a, n - 1) == 0 {
      i := n - 1;
    } else {
      i := FirstBid(bids, a, n - 1);
    }
  }

  /** No auction ever accepts more than 465 bids. */
  lemma BidsAreBounded(s: State, a: AuctionId)
    requires Sound(s)
    ensures Accepted(s, a) <= MAX_BIDS
  {
    forall i | 0 <= i < |s.bids| ensures 0 < s.bids[i].amount <= MAX_INT32 {
      assert BidRowOk(s, s.bids[i]) && PouchRowOk(s.pouches[s.bids[i].guild]);
    }
    hide Sound;
    LadderIsShort(s.bids, a);
  }

  lemma {:induction false} LadderIsShort(bids: seq<Bid>, a: AuctionId)
    requires Ladder(bids) && forall i :: 0 <= i < |bids| ==> 0 < bids[i].amount <= MAX_INT32
    ensures CountBids(bids, a, |bids|) <= MAX_BIDS
  {
    hide Pow, Ladder;
    var n := CountBids(bids, a, |bids|);
    if n > 0 {
      var first := FirstBid(bids, a, |bids|);
      LadderClimbs(bids, a, first, |bids|);
      StartsAtOne(Pow(105, n - 1), bids[first].amount);
      ClimbIsShort(n - 1, bids[LastBid(bids, a, |bids|).value].amount);
    }
  }

  lemma StartsAtOne(p: nat, first: int)
    requires first > 0
    ensures p <= p * first
  {
  }

  // ---- Extensions ------------------------------------------------------------------------

  /** Each auction's end time is its original one plus at most five minutes per accepted bid. */
  ghost predicate Extended(s: State) {
    && |s.openingEnd| == |s.auctions|
    && forall a :: 0 <= a < |s.auctions| ==> ExtendedBy(s, a)
  }

  ghost predicate ExtendedBy(s: State, a: AuctionId)
    requires Has(s.auctions, a) && Has(s.openingEnd, a)
  {
    s.openingEnd[a] <= s.auctions[a].end <= s.openingEnd[a] + BID_EXTENSION_AMOUNT * Accepted(s, a)
  }

  lemma {:induction false} CountAgrees(bids: seq<Bid>, bids': seq<Bid>, a: AuctionId, n: nat)
    requires n <= |bids| && n <= |bids'|
    requires forall i :: 0 <= i < n ==> bids[i].auction == bids'[i].auction
    ensures CountBids(bids, a, n) == CountBids(bids', a, n)
  {
    if n > 0 {
      CountAgrees(bids, bids', a, n - 1);
    }
  }

  /** Rows added for other auctions do not count. */
  lemma {:induction false} CountSkips(bids: seq<Bid>, a: AuctionId, m: nat, n: nat)
    requires m <= n <= |bids|
    requires forall i :: m <= i < n ==> bids[i].auction != a
    ensures CountBids(bids, a, n) == CountBids(bids, a, m)
  {
    if m < n {
      CountSkips(bids, a, m, n - 1);
    }
  }

  lemma OpeningEndsKept(s: State, op: Op)
    requires Sound(s) && |s.openingEnd| == |s.auctions|
    ensures var s' := Step(s, op);
            && |s'.openingEnd| == |s'.auctions|
            && s.openingEnd <= s'.openingEnd
            && |s.auctions| <= |s'.auctions| <= |s.auctions| + 1
            && (forall a :: |s.auctions| <= a < |s'.auctions| ==>
                              s'.openingEnd[a] == s'.auctions[a].end && s'.bids == s.bids)
  {
    hide Sound, RunActions, Effects, Moved;
    if Exec(s, op).Ok? {
      match op
      case CreateItem(_, _, _, _, _) => CreateItemRuns(s, op);
      case CreateAuction(_, _, _, _, _) => CreateAuctionRuns(s, op);
      case PlaceBid(_, _, _, _, _) => BidAcceptedIff(s, op, PreRead(s, op).value);
      case CancelBid(_, _, _) => CancelAcceptedIff(s, op);
      case SettleAuction(_, _, _) => SettleAcceptedIff(s, op);
      case Purchase(_, _, _, _, _) => PurchaseAcceptedIff(s, op, PreRead(s, op).value);
    }
  }

  /** Rows of other auctions, and changes of status, do not count. */
  lemma CountUnchanged(s: State, s': State, a: AuctionId)
    requires |s.bids| <= |s'.bids|
    requires forall i :: 0 <= i < |s.bids| ==> s'.bids[i].auction == s.bids[i].auction
    requires forall i :: |s.bids| <= i < |s'.bids| ==> s'.bids[i].auction != a
    ensures Accepted(s', a) == Accepted(s, a)
  {
    CountAgrees(s.bids, s'.bids, a, |s.bids|);
    CountSkips(s'.bids, a, |s.bids|, |s'.bids|);
  }

  lemma PlacedExtends(s: State, s': State, op: Op, a: AuctionId)
    requires BidPlacedOn(s, s', op, a) && Has(s.openingEnd, a) && ExtendedBy(s, a)
    ensures Has(s'.auctions, a) && s'.openingEnd == s.openingEnd && ExtendedBy(s', a)
  {
    hide MeetsFloor, Moved;
    CountAgrees(s.bids, s'.bids, a, |s.bids|);
    assert Accepted(s', a) == Accepted(s, a) + 1;
  }

  lemma OtherwiseExtends(s: State, s': State, op: Op, a: AuctionId)
    requires Has(s.auctions, a) && Has(s.openingEnd, a) && ExtendedBy(s, a)
    requires s.openingEnd <= s'.openingEnd
    requires Untouched(s, s', a) || BidCancelledOn(s, s', op, a) || ClosedOn(s, s', a)
    ensures Has(s'.auctions, a) && ExtendedBy(s', a)
  {
    hide IsLast, Last, Accepted;
    assert |s.bids| <= |s'.bids|;
    forall i | 0 <= i < |s.bids| ensures s'.bids[i].auction == s.bids[i].auction {
    }
    CountUnchanged(s, s', a);
  }

  lemma StepExtends(s: State, op: Op, a: AuctionId)
    requires Sound(s) && |s.openingEnd| == |s.auctions| && Has(s.auctions, a) && ExtendedBy(s, a)
    ensures var s' := Step(s, op);
            Has(s'.auctions, a) && Has(s'.openingEnd, a) && ExtendedBy(s', a)
  {
    var s' := Step(s, op);
    OpeningEndsKept(s, op);
    AuctionStep(s, op, a);
    hide Sound, Step, ExtendedBy, Untouched, BidPlacedOn, BidCancelledOn, ClosedOn;
    if BidPlacedOn(s, s', op, a) {
      PlacedExtends(s, s', op, a);
    } else {
      OtherwiseExtends(s, s', op, a);
    }
  }

  lemma StepKeepsExtended(s: State, op: Op)
    requires Sound(s) && Extended(s)
    ensures Extended(Step(s, op))
  {
    hide Sound, Step, Accepted;
    var s' := Step(s, op);
    OpeningEndsKept(s, op);
    forall a | 0 <= a < |s'.auctions| ensures ExtendedBy(s', a) {
      if a < |s.auctions| {
        StepExtends(s, op, a);
      }
    }
  }

  lemma {:induction false} RunKeepsExtended(s: State, ops: seq<Op>)
    requires Sound(s) && Extended(s)
    ensures Extended(Run(s, ops))
    decreases |ops|
  {
    hide Sound, Extended;
    if ops != [] {
      StepKeepsSound(s, ops[0]);
      StepKeepsExtended(s, ops[0]);
      RunKeepsExtended(Step(s, ops[0]), ops[1..]);
    }
  }

  /** In any reachable state no auction ends later than its original end plus 465 times five minutes. */
  lemma {:induction false} ExtensionsAreBounded(s: State, ops: seq<Op>, a: AuctionId)
    requires Seeded(s) && Has(Run(s, ops).auctions, a)
    ensures var s' := Run(s, ops);
            && |s'.openingEnd| == |s'.auctions|
            && s'.auctions[a].end <= s'.openingEnd[a] + 465 * 300_000_000_000
  {
    SeededIsSound(s);
    RunKeepsSound(s, ops);
    RunKeepsExtended(s, ops);
    var s' := Run(s, ops);
    BidsAreBounded(s', a);
    assert ExtendedBy(s', a);
    hide Sound, Run, Accepted;
    assert BID_EXTENSION_AMOUNT * Accepted(s', a) <= FIVE_MINUTES * MAX_BIDS;
  }
}
