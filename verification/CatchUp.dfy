/** A run of sweeps on days of their own, with nothing else going on, settles every ended auction. */
module CatchUp {
  import opened Tables
  import opened Operations
  import opened Sums
  import opened Market
  import opened Sweep
  import opened Clocks

  /** A Tick: its cutoff, the readings its settlements take, and the UTC day of all of them. */
  datatype DayTick = DayTick(cutoff: Time, clock: AuctionId -> Readings, day: int)

  function Ticks(s: State, ts: seq<DayTick>): State
    decreases |ts|
  {
    if ts == [] then s else Ticks(Tick(s, ts[0].cutoff, ts[0].clock), ts[1..])
  }

  /** Each Tick reads one day for the pouches, a later one than the Tick before, and the first a later
      one than any last reset. */
  ghost predicate OwnDays(s: State, ts: seq<DayTick>) {
    && (forall i, a :: 0 <= i < |ts| && Has(s.auctions, a) ==> UtcDay(ts[i].clock(a).at) == ts[i].day)
    && (forall i, j :: 0 <= i < j < |ts| ==> ts[i].day < ts[j].day)
    && (forall g, i :: 0 <= g < |s.pouches| && 0 <= i < |ts| ==> s.pouches[g].lastReset < ts[i].day)
  }

  predicate IsDue(s: State, a: AuctionId, cutoff: Time) {
    Has(s.auctions, a) && s.auctions[a].status == Active && s.auctions[a].end <= cutoff
  }

  /** Every auction due at the cutoff has ended on the readings of every Tick. */
  ghost predicate EndedThroughout(s: State, ts: seq<DayTick>, cutoff: Time) {
    forall i, a :: 0 <= i < |ts| && IsDue(s, a, cutoff) ==> s.auctions[a].end < ts[i].clock(a).now
  }

  predicate CutoffsWithin(ts: seq<DayTick>, earliest: Time, latest: Time) {
    forall i :: 0 <= i < |ts| ==> earliest <= ts[i].cutoff <= latest
  }

  // ---- One day ---------------------------------------------------------------------------

  lemma SettleResets(s: State, op: Op, g: GuildId, day: int)
    requires op.SettleAuction? && UtcDay(op.at) == day && Has(s.pouches, g)
    ensures var s' := Step(s, op);
            && |s'.pouches| == |s.pouches|
            && (s'.pouches[g].lastReset == s.pouches[g].lastReset || s'.pouches[g].lastReset <= day)
  {
    hide RunActions, PlanAt;
    if Exec(s, op).Ok? {
      SettlePlanReads(s, op);
      assert DaysUpTo(Plan(s, op).value, g, LastDay(op));
      RunResets(s, Plan(s, op).value, g, day);
    }
  }

  lemma {:induction false} SweepResets(s: State, ids: seq<AuctionId>, clock: AuctionId -> Readings,
        g: GuildId, day: int)
    requires Has(s.pouches, g) && forall i :: 0 <= i < |ids| ==> UtcDay(clock(ids[i]).at) == day
    ensures var s' := Run(s, SettleOps(ids, clock));
            && |s'.pouches| == |s.pouches|
            && (s'.pouches[g].lastReset == s.pouches[g].lastReset || s'.pouches[g].lastReset <= day)
    decreases |ids|
  {
    hide Step, UtcDay;
    if ids != [] {
      var op := SettleAuction(ids[0], clock(ids[0]).now, clock(ids[0]).at);
      var rest := SettleOps(ids[1..], clock);
      assert SettleOps(ids, clock) == [op] + rest && ([op] + rest)[1..] == rest;
      SettleResets(s, op, g, day);
      assert forall i :: 0 <= i < |ids[1..]| ==> ids[1..][i] == ids[i + 1];
      SweepResets(Step(s, op), ids[1..], clock, g, day);
    }
  }

  lemma {:induction false} DueExist(s: State, cutoff: Time)
    ensures forall i :: 0 <= i < |Due(s.auctions, cutoff, 0)| ==> Has(s.auctions, Due(s.auctions, cutoff, 0)[i])
  {
    forall i | 0 <= i < |Due(s.auctions, cutoff, 0)| ensures Has(s.auctions, Due(s.auctions, cutoff, 0)[i]) {
      DueIs(s.auctions, cutoff, 0, Due(s.auctions, cutoff, 0)[i]);
    }
  }

  lemma TickKeepsOwnDays(s: State, ts: seq<DayTick>)
    requires Sound(s) && ts != [] && OwnDays(s, ts)
    ensures OwnDays(Tick(s, ts[0].cutoff, ts[0].clock), ts[1..])
  {
    var s' := Tick(s, ts[0].cutoff, ts[0].clock);
    TickExpires(s, ts[0].cutoff, ts[0].clock);
    DueExist(s, ts[0].cutoff);
    hide Sound, Due, UtcDay;
    assert forall i :: 0 <= i < |ts[1..]| ==> ts[1..][i] == ts[i + 1];
    TickKeepsPouches(s, ts[0].cutoff, ts[0].clock);
    forall i, a | 0 <= i < |ts[1..]| && Has(s'.auctions, a) ensures UtcDay(ts[1..][i].clock(a).at) == ts[1..][i].day {
      assert Has(s.auctions, a) && ts[1..][i] == ts[i + 1];
    }
    forall i, j | 0 <= i < j < |ts[1..]| ensures ts[1..][i].day < ts[1..][j].day {
      assert ts[i + 1].day < ts[j + 1].day;
    }
    forall g, i | 0 <= g < |s'.pouches| && 0 <= i < |ts[1..]| ensures s'.pouches[g].lastReset < ts[1..][i].day {
      SweepResets(s, Due(s.auctions, ts[0].cutoff, 0), ts[0].clock, g, ts[0].day);
    }
  }

  lemma TickKeepsPouches(s: State, cutoff: Time, clock: AuctionId -> Readings)
    ensures |Tick(s, cutoff, clock).pouches| == |s.pouches|
  {
    RunKeepsPouches(s, SettleOps(Due(s.auctions, cutoff, 0), clock));
  }

  lemma {:induction false} RunKeepsPouches(s: State, ops: seq<Op>)
    ensures |Run(s, ops).pouches| == |s.pouches|
    decreases |ops|
  {
    hide RunActions, Plan;
    if ops != [] {
      if Exec(s, ops[0]).Ok? {
        RunSamePouches(s, Plan(s, ops[0]).value);
      }
      RunKeepsPouches(Step(s, ops[0]), ops[1..]);
    }
  }

  lemma OwnDayIsFresh(s: State, ts: seq<DayTick>)
    requires ts != [] && OwnDays(s, ts)
    ensures NothingSpent(s, ts[0].clock, Due(s.auctions, ts[0].cutoff, 0))
  {
    DueExist(s, ts[0].cutoff);
    hide Due, UtcDay;
  }

  // ---- All the days ----------------------------------------------------------------------

  lemma {:induction false} NoneDue(auctions: seq<Auction>, cutoff: Time)
    ensures Due(auctions, cutoff, 0) == []
            <==> forall a :: 0 <= a < |auctions| && auctions[a].status == Active ==> cutoff < auctions[a].end
  {
    var due := Due(auctions, cutoff, 0);
    if due != [] {
      DueIs(auctions, cutoff, 0, due[0]);
    } else {
      forall a | 0 <= a < |auctions| && auctions[a].status == Active ensures cutoff < auctions[a].end {
        DueIs(auctions, cutoff, 0, a);
      }
    }
  }

  /** Once no auction is due at a cutoff, Ticks keep it that way. */
  lemma {:induction false} TicksKeepNoneDue(s: State, ts: seq<DayTick>, cutoff: Time)
    requires Sound(s) && Due(s.auctions, cutoff, 0) == []
    ensures Due(Ticks(s, ts).auctions, cutoff, 0) == []
    decreases |ts|
  {
    hide Sound, Due, Tick;
    if ts != [] {
      var s' := Tick(s, ts[0].cutoff, ts[0].clock);
      TickExpires(s, ts[0].cutoff, ts[0].clock);
      TickIsSound(s, ts[0].cutoff, ts[0].clock);
      NoneDue(s.auctions, cutoff);
      NoneDue(s'.auctions, cutoff);
      TicksKeepNoneDue(s', ts[1..], cutoff);
    }
  }

  lemma TickIsSound(s: State, cutoff: Time, clock: AuctionId -> Readings)
    requires Sound(s)
    ensures Sound(Tick(s, cutoff, clock))
    ensures Gold(Tick(s, cutoff, clock).pouches) == Gold(s.pouches)
  {
    hide Sound;
    RunKeepsSound(s, SettleOps(Due(s.auctions, cutoff, 0), clock));
    RunConservesGold(s, SettleOps(Due(s.auctions, cutoff, 0), clock));
  }

  lemma TickKeepsEnded(s: State, ts: seq<DayTick>, cutoff: Time)
    requires Sound(s) && ts != [] && EndedThroughout(s, ts, cutoff)
    ensures EndedThroughout(Tick(s, ts[0].cutoff, ts[0].clock), ts[1..], cutoff)
  {
    TickExpires(s, ts[0].cutoff, ts[0].clock);
    hide Sound, Tick;
    assert forall i :: 0 <= i < |ts[1..]| ==> ts[1..][i] == ts[i + 1];
  }

  /** As many Ticks, each on a day of its own, as there are auctions due by the last cutoff leave none
      unsettled that was due at the first. */
  lemma {:induction false} TicksSettleAll(s: State, ts: seq<DayTick>, earliest: Time, latest: Time)
    requires Sound(s) && Gold(s.pouches) <= MAX_INT32
    requires OwnDays(s, ts) && EndedThroughout(s, ts, earliest) && CutoffsWithin(ts, earliest, latest)
    requires earliest <= latest && |Due(s.auctions, latest, 0)| <= |ts|
    ensures Due(Ticks(s, ts).auctions, earliest, 0) == []
    decreases |ts|
  {
    hide Sound, Due, Tick, OwnDays, EndedThroughout;
    NoneDue(s.auctions, earliest);
    NoneDue(s.auctions, latest);
    if Due(s.auctions, earliest, 0) == [] {
      TicksKeepNoneDue(s, ts, earliest);
    } else if ts != [] {
      OneFewer(s, ts, earliest, latest);
      TickIsSound(s, ts[0].cutoff, ts[0].clock);
      TickKeepsOwnDays(s, ts);
      TickKeepsEnded(s, ts, earliest);
      TicksSettleAll(Tick(s, ts[0].cutoff, ts[0].clock), ts[1..], earliest, latest);
    }
  }

  lemma {:induction false} OneFewer(s: State, ts: seq<DayTick>, earliest: Time, latest: Time)
    requires Sound(s) && Gold(s.pouches) <= MAX_INT32 && ts != []
    requires OwnDays(s, ts) && EndedThroughout(s, ts, earliest) && CutoffsWithin(ts, earliest, latest)
    requires Due(s.auctions, earliest, 0) != []
    ensures |Due(Tick(s, ts[0].cutoff, ts[0].clock).auctions, latest, 0)| < |Due(s.auctions, latest, 0)|
  {
    hide Sound, Due, Tick, OwnDays;
    NoneDue(s.auctions, earliest);
    var a :| 0 <= a < |s.auctions| && s.auctions[a].status == Active && s.auctions[a].end <= earliest;
    OwnDayIsFresh(s, ts);
    TickMakesProgress(s, ts[0].cutoff, ts[0].clock, a);
  }
}
