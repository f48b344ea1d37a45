/** Clock readings over runs: requests whose readings are in order never step a pouch's clock back. */
module Clocks {
  import opened Tables
  import opened GoldPouch
  import opened Operations
  import opened Ledger

  // ---- Statements and the last reset -----------------------------------------------------

  /** The statement reads the clock for the guild's pouch. */
  predicate Clocked(act: Action, g: GuildId) {
    act.Pay? && act.guild == g && DayOf(act.move).Some?
  }

  predicate NeverClocked(acts: seq<Action>, g: GuildId) {
    forall i :: 0 <= i < |acts| ==> !Clocked(acts[i], g)
  }

  /** The days the statements read do not decrease from `day` on. */
  predicate DaysFrom(acts: seq<Action>, day: int) {
    acts == []
    || (if acts[0].Pay? && DayOf(acts[0].move).Some?
        then day <= DayOf(acts[0].move).value && DaysFrom(acts[1..], DayOf(acts[0].move).value)
        else DaysFrom(acts[1..], day))
  }

  /** No statement reads a day after `day` for the guild. */
  predicate DaysUpTo(acts: seq<Action>, g: GuildId, day: int) {
    forall i :: 0 <= i < |acts| && Clocked(acts[i], g) ==> DayOf(acts[i].move).value <= day
  }

  lemma PerformResets(s: State, act: Action, g: GuildId)
    requires Perform(s, act).Ok? && Has(s.pouches, g)
    ensures var s' := Perform(s, act).value;
            && |s'.pouches| == |s.pouches|
            && s'.pouches[g].lastReset == if Clocked(act, g) then DayOf(act.move).value else s.pouches[g].lastReset
  {
    if act.Pay? {
      PerformPay(s, act);
    } else {
      OnlyPayTouchesLedger(s, act);
    }
  }

  /** Statements move a last reset to no day after those they read, and not at all if they read none. */
  lemma {:induction false} RunResets(s: State, acts: seq<Action>, g: GuildId, day: int)
    requires RunActions(s, acts).Ok? && Has(s.pouches, g) && DaysUpTo(acts, g, day)
    ensures var s' := RunActions(s, acts).value;
            && |s'.pouches| == |s.pouches|
            && (s'.pouches[g].lastReset == s.pouches[g].lastReset || s'.pouches[g].lastReset <= day)
            && (NeverClocked(acts, g) ==> s'.pouches[g].lastReset == s.pouches[g].lastReset)
    decreases |acts|
  {
    if acts != [] {
      var s1 := Perform(s, acts[0]).value;
      PerformResets(s, acts[0], g);
      hide Perform;
      assert forall i :: 0 <= i < |acts[1..]| ==> acts[1..][i] == acts[i + 1];
      RunResets(s1, acts[1..], g, day);
    }
  }

  /** Statements whose days do not decrease, from one no earlier than any reset they meet, are timely. */
  lemma {:induction false} OrderedDaysAreTimely(s: State, acts: seq<Action>, day: int)
    requires DaysFrom(acts, day)
    requires forall g, i :: 0 <= g < |s.pouches| && 0 <= i < |acts| && Clocked(acts[i], g) ==>
                              s.pouches[g].lastReset <= day
    ensures TimelyRun(s, acts)
    decreases |acts|
  {
    if acts != [] {
      assert Clocked(acts[0], if acts[0].Pay? then acts[0].guild else 0) ==> Timely(s, acts[0]);
      if Perform(s, acts[0]).Ok? {
        var s1 := Perform(s, acts[0]).value;
        var day' := if acts[0].Pay? && DayOf(acts[0].move).Some? then DayOf(acts[0].move).value else day;
        assert forall i :: 0 <= i < |acts[1..]| ==> acts[1..][i] == acts[i + 1];
        SamePouches(s, acts[0]);
        forall g, i | 0 <= g < |s1.pouches| && 0 <= i < |acts[1..]| && Clocked(acts[1..][i], g)
          ensures s1.pouches[g].lastReset <= day'
        {
          PerformResets(s, acts[0], g);
          assert Clocked(acts[i + 1], g);
        }
        hide Perform;
        OrderedDaysAreTimely(s1, acts[1..], day');
      }
    }
  }

  lemma SamePouches(s: State, act: Action)
    requires Perform(s, act).Ok?
    ensures |Perform(s, act).value.pouches| == |s.pouches|
  {
    if act.Pay? {
      PerformPay(s, act);
    } else {
      OnlyPayTouchesLedger(s, act);
    }
  }

  lemma {:induction false} RunSamePouches(s: State, acts: seq<Action>)
    requires RunActions(s, acts).Ok?
    ensures |RunActions(s, acts).value.pouches| == |s.pouches|
    decreases |acts|
  {
    if acts != [] {
      SamePouches(s, acts[0]);
      hide Perform;
      RunSamePouches(Perform(s, acts[0]).value, acts[1..]);
    }
  }

  // ---- Requests --------------------------------------------------------------------------

  /** The request may read the clock for the guild's pouch.  Any guild may turn out to be the winner of
      an auction. */
  predicate MayRead(op: Op, g: GuildId) {
    match op
    case PlaceBid(_, guild, _, _, _) => guild == g
    case SettleAuction(_, _, _) => true
    case Purchase(_, buyer, _, _, _) => buyer == g
    case _ => false
  }

  predicate Reads(op: Op) {
    op.PlaceBid? || op.SettleAuction? || op.Purchase?
  }

  /** The days of the request's first and last reading of a pouch's clock. */
  function FirstDay(op: Op): int
    requires Reads(op)
  {
    UtcDay(op.at)
  }

  function LastDay(op: Op): int
    requires Reads(op)
  {
    if op.Purchase? then UtcDay(op.paidAt) else UtcDay(op.at)
  }

  /** Readings that may concern the same guild's pouch do not decrease from day to day. */
  ghost predicate ReadingsInOrder(ops: seq<Op>) {
    && (forall i :: 0 <= i < |ops| && Reads(ops[i]) ==> FirstDay(ops[i]) <= LastDay(ops[i]))
    && (forall i, j, g :: 0 <= i < j < |ops| && MayRead(ops[i], g) && MayRead(ops[j], g) ==>
                            LastDay(ops[i]) <= FirstDay(ops[j]))
  }

  /** No reading to come is of a day before the last reset of a pouch it may concern. */
  ghost predicate Awaits(s: State, ops: seq<Op>) {
    forall g, i :: 0 <= g < |s.pouches| && 0 <= i < |ops| && MayRead(ops[i], g) ==>
                     s.pouches[g].lastReset <= FirstDay(ops[i])
  }

  lemma {:induction false} ReleasesNeverClocked(bids: seq<Bid>, a: AuctionId, winner: BidId, from: nat, g: GuildId)
    requires from <= |bids|
    ensures NeverClocked(ReleaseLosers(bids, a, winner, from), g)
    decreases |bids| - from
  {
    if from < |bids| {
      ReleasesNeverClocked(bids, a, winner, from + 1, g);
    }
  }

  lemma {:induction false} UnclockedIsOrdered(acts: seq<Action>, day: int)
    requires forall g :: NeverClocked(acts, g)
    ensures DaysFrom(acts, day)
  {
    if acts != [] {
      assert NeverClocked(acts, if acts[0].Pay? then acts[0].guild else 0);
      forall g ensures NeverClocked(acts[1..], g) {
        assert NeverClocked(acts, g);
        assert forall i :: 0 <= i < |acts[1..]| ==> acts[1..][i] == acts[i + 1];
      }
      UnclockedIsOrdered(acts[1..], day);
    }
  }

  /** A settlement reads one clock, the winner's, first of all. */
  lemma SettlePlanReads(s: State, op: Op)
    requires op.SettleAuction? && Plan(s, op).Ok?
    ensures DaysFrom(Plan(s, op).value, FirstDay(op))
    ensures forall g :: DaysUpTo(Plan(s, op).value, g, LastDay(op))
  {
    var acts := Plan(s, op).value;
    if Highest(s, op.auction).Some? {
      var w := Highest(s, op.auction).value;
      var losers := ReleaseLosers(s.bids, op.auction, w, 0);
      forall g ensures NeverClocked(acts[1..], g) {
        ReleasesNeverClocked(s.bids, op.auction, w, 0, g);
        assert acts[1..] == PayOut(s, op.auction, w, op.at)[1..] + losers
                            + [Do(PutAuction(op.auction, Expired, s.auctions[op.auction].end))];
      }
      forall g ensures DaysUpTo(acts, g, LastDay(op)) {
        assert NeverClocked(acts[1..], g);
        assert forall i :: 0 < i < |acts| ==> acts[i] == acts[1..][i - 1];
      }
      UnclockedIsOrdered(acts[1..], UtcDay(op.at));
    } else {
      UnclockedIsOrdered(acts, UtcDay(op.at));
    }
  }

  /** Every accepted request reads only the clocks it may read, in order, between its two days. */
  lemma PlanReads(s: State, op: Op)
    requires Plan(s, op).Ok?
    ensures Reads(op) ==>
              (FirstDay(op) <= LastDay(op) ==> DaysFrom(Plan(s, op).value, FirstDay(op)))
              && forall g :: FirstDay(op) <= LastDay(op) ==> DaysUpTo(Plan(s, op).value, g, LastDay(op))
    ensures !Reads(op) ==> DaysFrom(Plan(s, op).value, 0)
    ensures forall g :: !MayRead(op, g) ==> NeverClocked(Plan(s, op).value, g)
  {
    var acts := Plan(s, op).value;
    if op.SettleAuction? {
      SettlePlanReads(s, op);
    } else if op.Purchase? {
      UnclockedIsOrdered(acts[2..], LastDay(op));
      assert acts[1..][1..] == acts[2..];
    } else if op.PlaceBid? {
      UnclockedIsOrdered(acts[1..], LastDay(op));
    } else {
      UnclockedIsOrdered(acts, 0);
    }
  }

  /** One request leaves the pouches as ready for the requests after it. */
  lemma {:induction false} StepKeepsAwaits(s: State, ops: seq<Op>)
    requires ops != [] && ReadingsInOrder(ops) && Awaits(s, ops)
    ensures Plan(s, ops[0]).Ok? ==> TimelyRun(s, Plan(s, ops[0]).value)
    ensures ReadingsInOrder(ops[1..]) && Awaits(Step(s, ops[0]), ops[1..])
  {
    hide RunActions, TimelyRun, DaysFrom, UtcDay;
    var op, later, s' := ops[0], ops[1..], Step(s, ops[0]);
    assert forall i :: 0 <= i < |later| ==> later[i] == ops[i + 1];
    if Plan(s, op).Ok? {
      var acts := Plan(s, op).value;
      PlanReads(s, op);
      assert Reads(op) ==> FirstDay(op) <= LastDay(op);
      hide Plan;
      OrderedDaysAreTimely(s, acts, if Reads(op) then FirstDay(op) else 0);
      if Exec(s, op).Ok? {
        forall g, i | 0 <= g < |s.pouches| && 0 <= i < |later| && MayRead(later[i], g)
          ensures Has(s'.pouches, g) && s'.pouches[g].lastReset <= FirstDay(later[i])
        {
          RunResets(s, acts, g, if Reads(op) then LastDay(op) else 0);
        }
        RunSamePouches(s, acts);
      }
    }
  }

  /** Requests whose readings are in order never step a pouch's clock back. */
  lemma {:induction false} OrderedReadingsAreTimely(s: State, ops: seq<Op>)
    requires ReadingsInOrder(ops) && Awaits(s, ops)
    ensures TimelyOps(s, ops)
    decreases |ops|
  {
    if ops != [] {
      StepKeepsAwaits(s, ops);
      hide ReadingsInOrder, Awaits, Step;
      OrderedReadingsAreTimely(Step(s, ops[0]), ops[1..]);
    }
  }
}
