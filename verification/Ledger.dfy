/** What every single movement of gold keeps, whatever transaction it belongs to: the row
    constraints, the log as a full account of the pouches, the total amount of gold, and (under a
    clock that does not step back) the daily cap. */
module Ledger {
  import opened Tables
  import opened GoldPouch
  import opened Operations
  import opened Sums

  // ---- Running statements ----------------------------------------------------------------

  /** The state a successful movement leaves. */
  function Paid(s: State, act: Action): State
    requires act.Pay? && Has(s.pouches, act.guild)
    requires Moved(s.pouches[act.guild], act.move, act.amount).Ok?
  {
    s.(pouches := s.pouches[act.guild := Moved(s.pouches[act.guild], act.move, act.amount).value],
       log := s.log + [EntryOf(act)])
  }

  predicate IsSettleType(kind: TxType) {
    kind == TxPurchase || kind == TxAuctionWin
  }

  /** Exactly when a movement goes through, and what it does then. */
  lemma PerformPay(s: State, act: Action)
    requires act.Pay?
    ensures Perform(s, act).Ok?
            <==> && act.amount > 0
                 && (act.move.Settle? ==> IsSettleType(act.move.settleType))
                 && Has(s.pouches, act.guild)
                 && Moved(s.pouches[act.guild], act.move, act.amount).Ok?
                 && PouchRowOk(Moved(s.pouches[act.guild], act.move, act.amount).value)
    ensures Perform(s, act).Ok? ==> Perform(s, act).value == Paid(s, act)
  {
    if Effects(s, act).Ok? {
      var p := Moved(s.pouches[act.guild], act.move, act.amount).value;
      ApplyShort(s, PutPouch(act.guild, p), AppendLog(EntryOf(act)));
    }
  }

  lemma PerformDo(s: State, w: RepositoryWrite)
    ensures Perform(s, Do(w)) == if Refusal(s, w).None? then Ok(Apply(s, w)) else Err(Refusal(s, w).value)
  {
    ApplyShort(s, w, w);
  }

  lemma PerformTake(s: State, key: InvKey)
    ensures Perform(s, TakeItem(key))
            == if key in s.inventories then Ok(Apply(s, DropInventory(key))) else Err(NotFound)
  {
    ApplyShort(s, DropInventory(key), DropInventory(key));
  }

  /** Running a list of statements is running its parts one after the other. */
  lemma {:induction false} RunConcat(s: State, xs: seq<Action>, ys: seq<Action>)
    ensures RunActions(s, xs + ys)
            == match RunActions(s, xs) case Err(e) => Err(e) case Ok(s') => RunActions(s', ys)
    decreases |xs|
  {
    if xs == [] {
      assert xs + ys == ys;
    } else {
      assert (xs + ys)[1..] == xs[1..] + ys;
      if Perform(s, xs[0]).Ok? {
        RunConcat(Perform(s, xs[0]).value, xs[1..], ys);
      }
    }
  }

  lemma {:induction false} RunOne(s: State, act: Action)
    ensures RunActions(s, [act]) == Perform(s, act)
  {
  }

  // ---- Accounts --------------------------------------------------------------------------

  /** Gold that entered the guild's pouch, net, according to the log. */
  function TotalFlow(log: seq<LogEntry>, g: GuildId): int {
    Logged(log, LogOfGuild(g), TxCredit)
    - Logged(log, LogOfGuild(g), TxPurchase)
    - Logged(log, LogOfGuild(g), TxAuctionWin)
  }

  /** Gold that entered the guild's reservations, net, according to the log. */
  function ReservedFlow(log: seq<LogEntry>, g: GuildId): int {
    Logged(log, LogOfGuild(g), TxReserve)
    - Logged(log, LogOfGuild(g), TxRelease)
    - Logged(log, LogOfGuild(g), TxPurchase)
    - Logged(log, LogOfGuild(g), TxAuctionWin)
  }

  /** The guild's log, folded over its opening pouch, gives its current pouch. */
  predicate Replays(s: State, g: GuildId)
    requires Has(s.pouches, g) && Has(s.opening, g)
  {
    var p, o := s.pouches[g], s.opening[g];
    && p.limit == o.limit
    && p.total == o.total + TotalFlow(s.log, g)
    && p.reserved == o.reserved + ReservedFlow(s.log, g)
  }

  /** Every pouch satisfies its row constraints and its own daily limit, and replays from the log. */
  ghost predicate Accounts(s: State) {
    && |s.opening| == |s.pouches|
    && forall g :: 0 <= g < |s.pouches| ==>
                     && PouchRowOk(s.pouches[g])
                     && s.pouches[g].spent <= s.pouches[g].limit
                     && Replays(s, g)
  }

  function TotalChange(kind: TxType, amount: int): int {
    match kind
    case TxCredit => amount
    case TxPurchase => -amount
    case TxAuctionWin => -amount
    case _ => 0
  }

  function ReservedChange(kind: TxType, amount: int): int {
    match kind
    case TxReserve => amount
    case TxCredit => 0
    case _ => -amount
  }

  lemma FlowAppend(log: seq<LogEntry>, e: LogEntry, g: GuildId)
    ensures TotalFlow(log + [e], g) == TotalFlow(log, g) + if e.guild == g then TotalChange(e.kind, e.amount) else 0
    ensures ReservedFlow(log + [e], g)
            == ReservedFlow(log, g) + if e.guild == g then ReservedChange(e.kind, e.amount) else 0
  {
    hide Logged;
    LoggedByKind(log, e, LogOfGuild(g));
  }

  /** A movement changes the pouch by what its log row says, and never the limit. */
  lemma MovedChanges(p: Pouch, m: Move, amount: int)
    requires Moved(p, m, amount).Ok?
    requires m.Settle? ==> IsSettleType(m.settleType)
    ensures var p' := Moved(p, m, amount).value;
            && p'.total == p.total + TotalChange(KindOf(m), amount)
            && p'.reserved == p.reserved + ReservedChange(KindOf(m), amount)
            && p'.limit == p.limit
            && (p.spent <= p.limit && 0 <= p.spent && 0 <= p.limit ==> p'.spent <= p'.limit)
  {
  }

  /** The log row written with a movement accounts for exactly that movement. */
  lemma PaidKeepsReplay(s: State, act: Action, g: GuildId)
    requires act.Pay? && Has(s.pouches, act.guild) && Has(s.pouches, g) && Has(s.opening, g)
    requires Moved(s.pouches[act.guild], act.move, act.amount).Ok?
    requires act.move.Settle? ==> IsSettleType(act.move.settleType)
    requires Replays(s, g)
    ensures Replays(Paid(s, act), g)
  {
    FlowAppend(s.log, EntryOf(act), g);
    MovedChanges(s.pouches[act.guild], act.move, act.amount);
  }

  lemma PerformKeepsAccounts(s: State, act: Action)
    requires Accounts(s) && Perform(s, act).Ok?
    ensures Accounts(Perform(s, act).value)
  {
    var s' := Perform(s, act).value;
    if act.Pay? {
      PerformPay(s, act);
      assert s' == Paid(s, act);
      forall g | 0 <= g < |s'.pouches|
        ensures PouchRowOk(s'.pouches[g]) && s'.pouches[g].spent <= s'.pouches[g].limit && Replays(s', g)
      {
        MovedChanges(s.pouches[act.guild], act.move, act.amount);
        PaidKeepsReplay(s, act, g);
      }
    } else {
      OnlyPayTouchesLedger(s, act);
      forall g | 0 <= g < |s'.pouches| ensures Replays(s', g) {
        assert Replays(s, g);
      }
    }
  }

  lemma OnlyPayTouchesLedger(s: State, act: Action)
    requires !act.Pay? && Perform(s, act).Ok?
    ensures var s' := Perform(s, act).value;
            s'.pouches == s.pouches && s'.log == s.log && s'.opening == s.opening
  {
    if act.Do? {
      PerformDo(s, act.write);
    } else {
      PerformTake(s, act.key);
    }
  }

  lemma {:induction false} RunKeepsAccounts(s: State, acts: seq<Action>)
    requires Accounts(s) && RunActions(s, acts).Ok?
    ensures Accounts(RunActions(s, acts).value)
    decreases |acts|
  {
    if acts != [] {
      PerformKeepsAccounts(s, acts[0]);
      RunKeepsAccounts(Perform(s, acts[0]).value, acts[1..]);
    }
  }

  // ---- Conservation ----------------------------------------------------------------------

  /** What a statement adds to the gold in the market. */
  function Net(act: Action): int {
    if act.Pay? && act.move.Settle? then -act.amount
    else if act.Pay? && act.move.Credit? then act.amount
    else 0
  }

  function NetOf(acts: seq<Action>): int {
    if acts == [] then 0 else Net(acts[0]) + NetOf(acts[1..])
  }

  lemma {:induction false} NetConcat(xs: seq<Action>, ys: seq<Action>)
    ensures NetOf(xs + ys) == NetOf(xs) + NetOf(ys)
  {
    if xs == [] {
      assert xs + ys == ys;
    } else {
      assert (xs + ys)[1..] == xs[1..] + ys;
      NetConcat(xs[1..], ys);
    }
  }

  lemma {:induction false} RunMovesGold(s: State, acts: seq<Action>)
    requires RunActions(s, acts).Ok?
    ensures Gold(RunActions(s, acts).value.pouches) == Gold(s.pouches) + NetOf(acts)
    decreases |acts|
  {
    if acts != [] {
      var s' := Perform(s, acts[0]).value;
      if acts[0].Pay? {
        PerformPay(s, acts[0]);
        GoldUpdate(s.pouches, acts[0].guild, s'.pouches[acts[0].guild]);
      } else {
        OnlyPayTouchesLedger(s, acts[0]);
      }
      RunMovesGold(s', acts[1..]);
    }
  }

  lemma {:induction false} ReleasesMoveNoGold(bids: seq<Bid>, a: AuctionId, winner: BidId, from: nat)
    requires from <= |bids|
    ensures NetOf(ReleaseLosers(bids, a, winner, from)) == 0
    decreases |bids| - from
  {
    if from < |bids| {
      ReleasesMoveNoGold(bids, a, winner, from + 1);
      var rest := ReleaseLosers(bids, a, winner, from + 1);
      var b := bids[from];
      var pair := [Pay(Release, b.guild, b.amount, OfAuction(a)), Do(PutBidStatus(a, from, BidLost))];
      NetConcat(pair, rest);
      assert NetOf(pair) == 0 by {
        assert pair[1..][1..] == [];
      }
      assert [] + rest == rest;
    }
  }

  /** No operation's statements create or destroy gold: what the winner or buyer pays, the seller gets. */
  lemma PlansAreBalanced(s: State, op: Op)
    requires Plan(s, op).Ok?
    ensures NetOf(Plan(s, op).value) == 0
  {
    var target := PreRead(s, op).value;
    var acts := Plan(s, op).value;
    if op.SettleAuction? && Highest(s, target).Some? {
      var w := Highest(s, target).value;
      var pay, release := PayOut(s, target, w, op.at), ReleaseLosers(s.bids, target, w, 0);
      var expire := [Do(PutAuction(target, Expired, s.auctions[target].end))];
      NetConcat(pay + release, expire);
      NetConcat(pay, release);
      ReleasesMoveNoGold(s.bids, target, w, 0);
      NetOfShort(pay);
      NetOfShort(expire);
    } else {
      NetOfShort(acts);
    }
  }

  lemma {:induction false} NetOfShort(acts: seq<Action>)
    requires |acts| <= 5
    ensures NetOf(acts)
            == (if |acts| > 0 then Net(acts[0]) else 0) + (if |acts| > 1 then Net(acts[1]) else 0)
               + (if |acts| > 2 then Net(acts[2]) else 0) + (if |acts| > 3 then Net(acts[3]) else 0)
               + (if |acts| > 4 then Net(acts[4]) else 0)
  {
    if |acts| > 0 {
      NetOfShort(acts[1..]);
    }
  }

  lemma ExecConservesGold(s: State, op: Op)
    requires Exec(s, op).Ok?
    ensures Gold(Exec(s, op).value.pouches) == Gold(s.pouches)
  {
    PlansAreBalanced(s, op);
    RunMovesGold(s, Plan(s, op).value);
  }

  // ---- Daily cap -------------------------------------------------------------------------

  /** The clock of the pouch row does not step back: the reading is no earlier than its last reset. */
  predicate Timely(s: State, act: Action) {
    act.Pay? && DayOf(act.move).Some? && Has(s.pouches, act.guild) ==>
      s.pouches[act.guild].lastReset <= DayOf(act.move).value
  }

  predicate TimelyRun(s: State, acts: seq<Action>)
    decreases |acts|
  {
    acts == []
    || (Timely(s, acts[0]) && (Perform(s, acts[0]).Ok? ==> TimelyRun(Perform(s, acts[0]).value, acts[1..])))
  }

  /** No pouch's clock steps back during the run. */
  predicate TimelyOps(s: State, ops: seq<Op>)
    decreases |ops|
  {
    ops == []
    || ((Plan(s, ops[0]).Ok? ==> TimelyRun(s, Plan(s, ops[0]).value)) && TimelyOps(Step(s, ops[0]), ops[1..]))
  }

  /** SpentToday is what was charged on the day of the last reset, nothing is charged later, and no
      day is charged more than the limit. */
  ghost predicate Capped(s: State) {
    forall g :: 0 <= g < |s.pouches| ==> CappedGuild(s, g)
  }

  ghost predicate CappedGuild(s: State, g: GuildId)
    requires Has(s.pouches, g)
  {
    var p := s.pouches[g];
    && Charged(s.log, g, p.lastReset) == p.spent
    && (forall d :: p.lastReset < d ==> Charged(s.log, g, d) == 0)
    && (forall d :: Charged(s.log, g, d) <= p.limit)
  }

  /** How one entry changes a guild's charge on a day. */
  lemma ChargedAppend(log: seq<LogEntry>, e: LogEntry, g: GuildId, day: int)
    ensures Charged(log + [e], g, day)
            == Charged(log, g, day)
               + if e.guild == g && e.day == Some(day) && IsSettleType(e.kind) then e.amount else 0
  {
  }

  lemma PaidKeepsCap(s: State, act: Action, g: GuildId)
    requires act.Pay? && Has(s.pouches, act.guild) && Has(s.pouches, g)
    requires Moved(s.pouches[act.guild], act.move, act.amount).Ok?
    requires act.move.Settle? ==> IsSettleType(act.move.settleType)
    requires Timely(s, act) && act.amount > 0
    requires PouchRowOk(s.pouches[g]) && CappedGuild(s, g)
    ensures CappedGuild(Paid(s, act), g)
  {
    hide UtcDay, Charged;
    var s' := Paid(s, act);
    var e := EntryOf(act);
    forall d ensures Charged(s'.log, g, d)
                     == Charged(s.log, g, d)
                        + if e.guild == g && e.day == Some(d) && IsSettleType(e.kind) then e.amount else 0
    {
      ChargedAppend(s.log, e, g, d);
    }
  }

  lemma {:induction false} RunKeepsCap(s: State, acts: seq<Action>)
    requires Accounts(s) && Capped(s) && TimelyRun(s, acts) && RunActions(s, acts).Ok?
    ensures Capped(RunActions(s, acts).value)
    decreases |acts|
  {
    if acts != [] {
      var s' := Perform(s, acts[0]).value;
      PerformKeepsAccounts(s, acts[0]);
      if acts[0].Pay? {
        PerformPay(s, acts[0]);
        assert s' == Paid(s, acts[0]);
        forall g | 0 <= g < |s'.pouches| ensures CappedGuild(s', g) {
          assert PouchRowOk(s.pouches[g]) && CappedGuild(s, g);
          PaidKeepsCap(s, acts[0], g);
        }
      } else {
        OnlyPayTouchesLedger(s, acts[0]);
        forall g | 0 <= g < |s'.pouches| ensures CappedGuild(s', g) {
          assert CappedGuild(s, g);
        }
      }
      RunKeepsCap(s', acts[1..]);
    }
  }
}
