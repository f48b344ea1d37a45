/** What a single Tick settles when all its settlements fall on one UTC day: every ended auction, except
    those whose winner has no room left under its daily limit once the Tick is over. */
module OneDay {
  import opened Tables
  import opened GoldPouch
  import opened Operations
  import opened Sums
  import opened Ledger
  import opened Bidding
  import opened Settlement
  import opened Market
  import opened Lifecycle
  import opened Sweep
  import opened Clocks

  // ---- Spending on a day only grows ------------------------------------------------------

  /** What the guild has spent on the day, as the lazy reset counts it. */
  function SpentOn(p: Pouch, day: int): int {
    Refreshed(p, day).spent
  }

  /** Every clock the statements read for the guild shows this day. */
  predicate DaysAre(acts: seq<Action>, g: GuildId, day: int) {
    forall i :: 0 <= i < |acts| && Clocked(acts[i], g) ==> DayOf(acts[i].move) == Some(day)
  }

  /** The pouch keeps its limit and has spent no less on the day. */
  predicate SpentMore(s: State, s': State, g: GuildId, day: int)
    requires Has(s.pouches, g)
  {
    && Has(s'.pouches, g) && s'.pouches[g].limit == s.pouches[g].limit
    && SpentOn(s.pouches[g], day) <= SpentOn(s'.pouches[g], day)
  }

  lemma PerformSpends(s: State, act: Action, g: GuildId, day: int)
    requires Perform(s, act).Ok? && Has(s.pouches, g) && (Clocked(act, g) ==> DayOf(act.move) == Some(day))
    ensures SpentMore(s, Perform(s, act).value, g, day)
  {
    if act.Pay? {
      PerformPay(s, act);
    } else {
      OnlyPayTouchesLedger(s, act);
    }
    hide Perform, UtcDay;
  }

  lemma {:induction false} RunSpends(s: State, acts: seq<Action>, g: GuildId, day: int)
    requires RunActions(s, acts).Ok? && Has(s.pouches, g) && DaysAre(acts, g, day)
    ensures SpentMore(s, RunActions(s, acts).value, g, day)
    decreases |acts|
  {
    hide Perform, SpentOn;
    if acts != [] {
      PerformSpends(s, acts[0], g, day);
      assert forall i :: 0 <= i < |acts[1..]| ==> acts[1..][i] == acts[i + 1];
      RunSpends(Perform(s, acts[0]).value, acts[1..], g, day);
    }
  }

  lemma {:induction false} DaysAtLeast(acts: seq<Action>, day: int, g: GuildId)
    requires DaysFrom(acts, day)
    ensures forall i :: 0 <= i < |acts| && Clocked(acts[i], g) ==> day <= DayOf(acts[i].move).value
    decreases |acts|
  {
    if acts != [] {
      var day' := if acts[0].Pay? && DayOf(acts[0].move).Some? then DayOf(acts[0].move).value else day;
      DaysAtLeast(acts[1..], day', g);
      assert forall i :: 0 < i < |acts| ==> acts[i] == acts[1..][i - 1];
    }
  }

  lemma SettleSpends(s: State, op: Op, g: GuildId, day: int)
    requires op.SettleAuction? && UtcDay(op.at) == day && Has(s.pouches, g)
    ensures SpentMore(s, Step(s, op), g, day)
  {
    hide RunActions, PlanAt;
    if Exec(s, op).Ok? {
      SettlePlanReads(s, op);
      DaysAtLeast(Plan(s, op).value, day, g);
      assert DaysUpTo(Plan(s, op).value, g, LastDay(op));
      RunSpends(s, Plan(s, op).value, g, day);
    }
  }

  predicate AllOn(ids: seq<AuctionId>, clock: AuctionId -> Readings, day: int) {
    forall i :: 0 <= i < |ids| ==> UtcDay(clock(ids[i]).at) == day
  }

  lemma {:induction false} SweepSpends(s: State, ids: seq<AuctionId>, clock: AuctionId -> Readings,
        g: GuildId, day: int)
    requires Has(s.pouches, g) && AllOn(ids, clock, day)
    ensures SpentMore(s, Run(s, SettleOps(ids, clock)), g, day)
    decreases |ids|
  {
    hide Step, SpentOn, UtcDay;
    if ids != [] {
      var op := SettleAuction(ids[0], clock(ids[0]).now, clock(ids[0]).at);
      var rest := SettleOps(ids[1..], clock);
      assert SettleOps(ids, clock) == [op] + rest && ([op] + rest)[1..] == rest;
      SettleSpends(s, op, g, day);
      assert forall i :: 0 <= i < |ids[1..]| ==> ids[1..][i] == ids[i + 1];
      SweepSpends(Step(s, op), ids[1..], clock, g, day);
    }
  }

  // ---- What blocks an auction blocks it to the end of the Tick ----------------------------

  /** The auction has a last bid that its bidder's limit no longer covers. */
  ghost predicate Blocked(s: State, x: AuctionId, at: Time) {
    && Last(s, x).Some?
    && var b := s.bids[Last(s, x).value];
       Has(s.pouches, b.guild) && !LimitCovers(s, b.guild, b.amount, at)
  }

  lemma StaysBlocked(s: State, s': State, x: AuctionId, at: Time)
    requires Has(s.auctions, x) && Untouched(s, s', x) && Blocked(s, x, at)
    requires SpentMore(s, s', s.bids[Last(s, x).value].guild, UtcDay(at))
    ensures Blocked(s', x, at)
  {
    UntouchedLast(s, s', x);
    hide LastBid, UtcDay, Refreshed;
  }

  lemma {:induction false} SweepKeepsBlocked(s: State, ids: seq<AuctionId>, clock: AuctionId -> Readings,
        x: AuctionId, at: Time)
    requires Sound(s) && Has(s.auctions, x) && Blocked(s, x, at) && AllOn(ids, clock, UtcDay(at))
    requires var s' := Run(s, SettleOps(ids, clock)); Has(s'.auctions, x) && s'.auctions[x].status == Active
    ensures Blocked(Run(s, SettleOps(ids, clock)), x, at)
  {
    SweepClosesOrLeaves(s, ids, clock, x);
    SweepSpends(s, ids, clock, s.bids[Last(s, x).value].guild, UtcDay(at));
    hide Sound, Run, SettleOps, UtcDay, Untouched, Blocked, SpentMore;
    StaysBlocked(s, Run(s, SettleOps(ids, clock)), x, at);
  }

  /** A live auction's settlement that is refused although the auction has ended is blocked. */
  lemma RefusedIsBlocked(s: State, op: Op)
    requires Sound(s) && Gold(s.pouches) <= MAX_INT32
    requires op.SettleAuction? && Ended(s, op.auction, op.now) && Exec(s, op).Err?
    ensures Blocked(s, op.auction, op.at)
  {
    OnlyTheLimitBlocksSettlement(s, op);
    assert BidRowOk(s, s.bids[Last(s, op.auction).value]);
    hide Sound, Exec, LastBid;
  }

  lemma StepKeepsGold(s: State, op: Op)
    ensures Gold(Step(s, op).pouches) == Gold(s.pouches)
  {
    RunConservesGold(s, [op]);
    assert [op][1..] == [] && Run(Step(s, op), []) == Step(s, op);
  }

  /** One settlement request of the sweep: if `x` is to stay live to the end, it is untouched. */
  lemma {:induction false} StaysLive(s: State, op: Op, rest: seq<Op>, x: AuctionId)
    requires Sound(s) && op.SettleAuction? && Has(s.auctions, x)
    requires var s' := Run(Step(s, op), rest); Has(s'.auctions, x) && s'.auctions[x].status == Active
    ensures Untouched(s, Step(s, op), x) && !(Exec(s, op).Ok? && op.auction == x)
  {
    StepKeepsSound(s, op);
    SettleTouches(s, op, x);
    if Exec(s, op).Ok? {
      SettledIsClosed(s, op, x);
    }
    assert Has(Step(s, op).auctions, x);
    RunProgresses(Step(s, op), rest, x);
    hide Sound, Exec, Step, Run;
  }

  lemma {:induction false} SweepLeavesBlocked(s: State, ids: seq<AuctionId>, clock: AuctionId -> Readings,
        x: AuctionId)
    requires Sound(s) && Gold(s.pouches) <= MAX_INT32 && AllOn(ids, clock, UtcDay(clock(x).at))
    requires x in ids && Ended(s, x, clock(x).now)
    requires var s' := Run(s, SettleOps(ids, clock)); Has(s'.auctions, x) && s'.auctions[x].status == Active
    ensures Blocked(Run(s, SettleOps(ids, clock)), x, clock(x).at)
    decreases |ids|
  {
    var op := SettleAuction(ids[0], clock(ids[0]).now, clock(ids[0]).at);
    var rest := SettleOps(ids[1..], clock);
    assert SettleOps(ids, clock) == [op] + rest && ([op] + rest)[1..] == rest;
    assert forall i :: 0 <= i < |ids[1..]| ==> ids[1..][i] == ids[i + 1];
    hide Sound, Exec, UtcDay, Blocked, Untouched;
    StaysLive(s, op, rest, x);
    if ids[0] == x {
      RefusedIsBlocked(s, op);
      SweepKeepsBlocked(s, ids[1..], clock, x, clock(x).at);
    } else {
      StepKeepsSound(s, op);
      StepKeepsGold(s, op);
      UntouchedIsEnded(s, Step(s, op), x, clock(x).now);
      SweepLeavesBlocked(Step(s, op), ids[1..], clock, x);
    }
  }

  lemma UntouchedIsEnded(s: State, s': State, x: AuctionId, now: Time)
    requires Ended(s, x, now) && Untouched(s, s', x)
    ensures Ended(s', x, now)
  {
  }

  /** All the readings a Tick's settlements take for pouches are of one UTC day. */
  ghost predicate ReadsOneDay(s: State, clock: AuctionId -> Readings, day: int) {
    forall a :: Has(s.auctions, a) ==> UtcDay(clock(a).at) == day
  }

  /** Every auction that was due, had ended on its own reading, and is still ACTIVE after the Tick has a
      last bid that its bidder's limit does not cover even then. */
  lemma TickLeavesOnlyBlocked(s: State, cutoff: Time, clock: AuctionId -> Readings, day: int, x: AuctionId)
    requires Sound(s) && Gold(s.pouches) <= MAX_INT32 && ReadsOneDay(s, clock, day)
    requires Ended(s, x, clock(x).now) && s.auctions[x].end <= cutoff
    ensures var s' := Tick(s, cutoff, clock);
            && Has(s'.auctions, x)
            && (s'.auctions[x].status == Active ==>
                  && Last(s', x).Some?
                  && var b := s'.bids[Last(s', x).value];
                     Has(s'.pouches, b.guild) && !LimitCovers(s', b.guild, b.amount, clock(x).at))
  {
    var ids := Due(s.auctions, cutoff, 0);
    TickExpires(s, cutoff, clock);
    DueIs(s.auctions, cutoff, 0, x);
    forall i | 0 <= i < |ids| ensures UtcDay(clock(ids[i]).at) == day {
      DueIs(s.auctions, cutoff, 0, ids[i]);
    }
    hide Sound, Due, UtcDay;
    if Tick(s, cutoff, clock).auctions[x].status == Active {
      SweepLeavesBlocked(s, ids, clock, x);
    }
  }

  /** So a Tick after which every guild's limit still covers all it ever bid leaves no ended auction ACTIVE. */
  lemma TickLeavesNone(s: State, cutoff: Time, clock: AuctionId -> Readings, day: int, x: AuctionId)
    requires Sound(s) && Gold(s.pouches) <= MAX_INT32 && ReadsOneDay(s, clock, day)
    requires var s' := Tick(s, cutoff, clock);
             forall a, i :: Last(s', a) == Some(i) ==> LimitCovers(s', s'.bids[i].guild, s'.bids[i].amount, clock(a).at)
    requires Ended(s, x, clock(x).now) && s.auctions[x].end <= cutoff
    ensures var s' := Tick(s, cutoff, clock); Has(s'.auctions, x) && s'.auctions[x].status == Expired
  {
    TickLeavesOnlyBlocked(s, cutoff, clock, day, x);
    hide Sound, Tick, LimitCovers, LastBid;
  }
}
