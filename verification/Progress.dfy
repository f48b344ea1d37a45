/** The machine of interleaved transactions gets somewhere: a transaction whose rows are free can move,
    and one that nobody hinders commits whatever its operation, run alone, would do. */
module Progress {
  import opened Tables
  import opened GoldPouch
  import opened Operations
  import opened Ledger
  import opened Market
  import opened Locking
  import opened Concurrency

  // ---- No transaction is stuck -----------------------------------------------------------

  /** The event is a step of the transaction's own work. */
  predicate Advances(e: Event, t: int) {
    (e.Look? || e.Acquire? || e.Check? || e.Act? || e.Commit?) && e.tx == t
  }

  /** In any system at all, a transaction that is not over and whose wanted rows nobody else has locked
      has a step of its own to take. */
  lemma LiveTransactionCanMove(c: System, t: int)
    requires Has(c.txs, t) && !c.txs[t].phase.Over?
    requires forall l, i :: l in Wanted(c.txs[t]) && 0 <= i < |c.txs| && i != t ==> l !in c.txs[i].held
    ensures exists e :: Advances(e, t) && Enabled(c, e)
  {
    var tx := c.txs[t];
    if !Granted(c.db, tx) {
      var l :| l in Wanted(tx) && Exists(c.db, l) && l !in tx.held;
      assert Advances(Acquire(t, l), t) && Enabled(c, Acquire(t, l));
    } else if tx.phase.Begun? {
      assert Advances(Look(t), t) && Enabled(c, Look(t));
    } else if tx.phase.Chosen? {
      assert Advances(Check(t), t) && Enabled(c, Check(t));
    } else if tx.phase.todo == [] {
      assert Advances(Commit(t), t) && Enabled(c, Commit(t));
    } else {
      assert Advances(Act(t), t) && Enabled(c, Act(t));
    }
  }

  // ---- Footprints ------------------------------------------------------------------------

  /** The rows an operation on the given target locks, as the tables are now. */
  function FootprintAt(s: State, op: Op, target: int): set<Lock> {
    MainLocks(op, target)
    + match PlanAt(s, op, target)
      case Err(_) => {}
      case Ok(acts) => NeedsAll(acts)
  }

  /** The rows a transaction still to be finished locks. */
  function Footprint(s: State, tx: Tx): set<Lock> {
    match tx.phase
    case Begun => (
      match PreRead(s, tx.op)
      case Err(_) => {}
      case Ok(target) => FootprintAt(s, tx.op, target))
    case Chosen(target) => FootprintAt(s, tx.op, target)
    case Checked(row, _) => FootprintAt(s, tx.op, row)
    case Over => {}
  }

  lemma {:induction false} ReleasesTouch(bids: seq<Bid>, a: AuctionId, w: BidId, from: nat)
    requires from <= |bids|
    ensures forall l :: l in NeedsAll(ReleaseLosers(bids, a, w, from)) ==>
                          || l == AuctionLock(a)
                          || exists i :: from <= i < |bids| && bids[i].auction == a && l == PouchLock(bids[i].guild)
    decreases |bids| - from
  {
    if from < |bids| {
      ReleasesTouch(bids, a, w, from + 1);
      var b, rest := bids[from], ReleaseLosers(bids, a, w, from + 1);
      var pay, mark := Pay(Release, b.guild, b.amount, OfAuction(a)), Do(PutBidStatus(a, from, BidLost));
      NeedsOfTwo(pay, mark, rest);
      assert [] + rest == rest;
    }
  }

  lemma {:induction false} NeedsOfTwo(x: Action, y: Action, rest: seq<Action>)
    ensures NeedsAll([x, y] + rest) == Needs(x) + Needs(y) + NeedsAll(rest)
  {
    assert ([x, y] + rest)[1..] == [y] + rest && ([y] + rest)[1..] == rest;
    assert NeedsAll([x, y] + rest) == Needs(x) + NeedsAll([y] + rest);
  }

  /** A bid or cancellation touches its auction and one pouch; so transactions on different auctions by
      different guilds never wait for each other. */
  lemma BiddingFootprint(s: State, op: Op, target: int)
    requires (op.PlaceBid? || op.CancelBid?) && TargetOk(s, op, target)
    ensures FootprintAt(s, op, target) <= {AuctionLock(target), PouchLock(op.guild)}
  {
    if PlanAt(s, op, target).Ok? {
      var acts := PlanAt(s, op, target).value;
      assert acts == [acts[0], acts[1]] + acts[2..];
      NeedsOfTwo(acts[0], acts[1], acts[2..]);
      assert |acts| == 3 ==> acts[2..][1..] == [];
    }
  }

  /** A purchase touches its listing, the item's stock, and two pouches. */
  lemma PurchaseFootprint(s: State, op: Op, target: int)
    requires op.Purchase? && TargetOk(s, op, target)
    ensures FootprintAt(s, op, target)
            <= {ListingLock(target), InventoryLock(op.item), PouchLock(op.buyer), PouchLock(s.listings[target].guild)}
  {
    if PlanAt(s, op, target).Ok? {
      var acts := PlanAt(s, op, target).value;
      assert acts[2..] == [acts[2], acts[3]] + [acts[4]] && [acts[4]][1..] == [];
      assert acts == [acts[0], acts[1]] + acts[2..];
      NeedsOfTwo(acts[0], acts[1], acts[2..]);
      NeedsOfTwo(acts[2], acts[3], [acts[4]]);
      assert NeedsAll([acts[4]]) == Needs(acts[4]) + NeedsAll([]);
    }
  }

  /** A settlement touches its auction, the item, and the pouches of the owner and the bidders. */
  lemma SettleFootprint(s: State, op: Op)
    requires op.SettleAuction? && Has(s.auctions, op.auction)
    ensures forall l :: l in FootprintAt(s, op, op.auction) ==>
                          || l in {AuctionLock(op.auction), InventoryLock(s.auctions[op.auction].item),
                                   PouchLock(s.auctions[op.auction].owner)}
                          || exists i :: 0 <= i < |s.bids| && s.bids[i].auction == op.auction
                                         && l == PouchLock(s.bids[i].guild)
  {
    var a := op.auction;
    if PlanAt(s, op, a).Ok? {
      var expire := Do(PutAuction(a, Expired, s.auctions[a].end));
      assert NeedsAll([expire]) == {AuctionLock(a)} by {
        assert [expire][1..] == [];
      }
      if Highest(s, a).Some? {
        var w := Highest(s, a).value;
        var pay, loop := PayOut(s, a, w, op.at), ReleaseLosers(s.bids, a, w, 0);
        assert PlanAt(s, op, a).value == pay + loop + [expire];
        ReleasesTouch(s.bids, a, w, 0);
        PayOutTouches(s, a, w, op.at);
        hide PlanAt, PayOut, ReleaseLosers, NeedsAll, HighestActive;
        NeedsConcat(pay + loop, [expire]);
        NeedsConcat(pay, loop);
      }
    }
  }

  lemma PayOutTouches(s: State, a: AuctionId, w: BidId, at: Time)
    requires Has(s.auctions, a) && Has(s.bids, w)
    ensures NeedsAll(PayOut(s, a, w, at))
            == {PouchLock(s.bids[w].guild), PouchLock(s.auctions[a].owner), InventoryLock(s.auctions[a].item),
                AuctionLock(a)}
  {
    var pay := PayOut(s, a, w, at);
    assert pay[2..] == [pay[2], pay[3]] + [pay[4]] && [pay[4]][1..] == [];
    assert pay == [pay[0], pay[1]] + pay[2..];
    NeedsOfTwo(pay[0], pay[1], pay[2..]);
    NeedsOfTwo(pay[2], pay[3], [pay[4]]);
    assert NeedsAll([pay[4]]) == Needs(pay[4]) + NeedsAll([]);
  }

  lemma {:induction false} NeedsConcat(xs: seq<Action>, ys: seq<Action>)
    ensures NeedsAll(xs + ys) == NeedsAll(xs) + NeedsAll(ys)
  {
    if xs == [] {
      assert xs + ys == ys;
    } else {
      assert (xs + ys)[1..] == xs[1..] + ys;
      NeedsConcat(xs[1..], ys);
    }
  }

  // ---- An unhindered transaction ends ----------------------------------------------------

  /** No other transaction holds a row this one is going to lock. */
  ghost predicate Unhindered(c: System, t: int) {
    && Has(c.txs, t)
    && forall i :: 0 <= i < |c.txs| && i != t ==> c.txs[i].held !! Footprint(c.db, c.txs[t])
  }

  /** The operation would be accepted now, and the transaction is at work on the row it is about. */
  ghost predicate OnCourse(c: System, t: int)
    requires Has(c.txs, t)
  {
    && Exec(c.db, c.txs[t].op).Ok?
    && match c.txs[t].phase
       case Begun => true
       case Chosen(target) => PreRead(c.db, c.txs[t].op) == Ok(target)
       case Checked(_, _) => true
       case Over => false
  }

  /** Phases, statements and locks still to come. */
  function PhasesLeft(tx: Tx): nat {
    match tx.phase
    case Begun => 3
    case Chosen(_) => 2
    case Checked(_, _) => 1
    case Over => 0
  }

  function StatementsLeft(tx: Tx): nat {
    if tx.phase.Checked? then |tx.phase.todo| else 0
  }

  function LocksLeft(tx: Tx): nat {
    |Wanted(tx) - tx.held|
  }

  predicate Closer(before: Tx, after: Tx) {
    || PhasesLeft(after) < PhasesLeft(before)
    || (PhasesLeft(after) == PhasesLeft(before) && StatementsLeft(after) < StatementsLeft(before))
    || (PhasesLeft(after) == PhasesLeft(before) && StatementsLeft(after) == StatementsLeft(before)
        && LocksLeft(after) < LocksLeft(before))
  }

  /** The step leaves the committed tables alone and the transaction closer to its end, still unhindered,
      and still on course if it was. */
  ghost predicate GoodStep(c: System, e: Event, t: int) {
    && Has(c.txs, t) && Enabled(c, e) && Advances(e, t)
    && var c' := Fire(c, e);
       && c'.db == c.db && c'.commits == c.commits && Has(c'.txs, t)
       && c'.txs[t].op == c.txs[t].op && Closer(c.txs[t], c'.txs[t])
       && Unhindered(c', t) && (OnCourse(c, t) ==> OnCourse(c', t))
  }

  lemma AcquireIsGood(c: System, t: int, l: Lock)
    requires Unhindered(c, t) && l in Footprint(c.db, c.txs[t])
    requires l in Wanted(c.txs[t]) && Exists(c.db, l) && l !in c.txs[t].held
    ensures GoodStep(c, Acquire(t, l), t)
  {
    hide Exec, PreRead, FootprintAt, PlanAt;
    var tx := c.txs[t];
    var tx' := tx.(held := tx.held + {l});
    assert Wanted(tx') - tx'.held == (Wanted(tx) - tx.held) - {l};
  }

  lemma LookIsGood(c: System, t: int)
    requires Unhindered(c, t) && c.txs[t].phase.Begun?
    ensures GoodStep(c, Look(t), t)
  {
    assert Exec(c.db, c.txs[t].op).Ok? ==> PreRead(c.db, c.txs[t].op).Ok?;
    hide PlanAt, RunActions, FootprintAt, PreRead, Exec;
  }

  lemma CheckIsGood(c: System, t: int)
    requires Unhindered(c, t) && c.txs[t].phase.Chosen? && Granted(c.db, c.txs[t])
    ensures GoodStep(c, Check(t), t)
  {
    hide PlanAt, RunActions, PreRead, FootprintAt;
  }

  /** If a list of statements succeeds, so does each of them on the writes of those before it. */
  lemma {:induction false} NextSucceeds(s: State, done: seq<Action>, act: Action, rest: seq<Action>)
    requires RunActions(s, done + ([act] + rest)).Ok? && RunWrites(s, done).Ok?
    ensures Effects(ApplyAll(s, RunWrites(s, done).value), act).Ok?
  {
    RunConcat(s, done, [act] + rest);
    WritesAreTheRun(s, done);
    assert ([act] + rest)[0] == act;
  }

  lemma ActIsGood(c: System, t: int)
    requires Sound(c.db) && Unhindered(c, t) && TxOk(c.db, c.txs[t])
    requires c.txs[t].phase.Checked? && c.txs[t].phase.todo != [] && Granted(c.db, c.txs[t])
    ensures GoodStep(c, Act(t), t)
  {
    hide Sound, PlanAt, RunActions, RunWrites, PreRead, Effects, TargetOk, Keys, NeedsAll, ApplyAll, Needs, FootprintAt;
    var tx := c.txs[t];
    PlanFromTarget(c.db, tx.op, tx.phase.row);
    assert tx.phase.todo == [tx.phase.todo[0]] + tx.phase.todo[1..];
    if Exec(c.db, tx.op).Ok? {
      NextSucceeds(c.db, tx.done, tx.phase.todo[0], tx.phase.todo[1..]);
    }
  }

  /** What a transaction wants next is part of its footprint. */
  lemma WantedIsInFootprint(db: State, tx: Tx)
    requires TxOk(db, tx)
    ensures Wanted(tx) <= Footprint(db, tx)
  {
    if tx.phase.Checked? && tx.phase.todo != [] {
      var todo := tx.phase.todo;
      assert todo == [todo[0]] + todo[1..] && ([todo[0]] + todo[1..])[1..] == todo[1..];
      NeedsConcat(tx.done, todo);
    }
    hide PlanAt, TargetOk, RunWrites, Keys;
  }

  lemma NextStep(s0: State, c: System, t: int) returns (e: Event)
    requires Serial(s0, c) && Unhindered(c, t) && !c.txs[t].phase.Over?
    requires c.txs[t].phase.Checked? ==> c.txs[t].phase.todo != []
    ensures GoodStep(c, e, t)
  {
    var tx := c.txs[t];
    assert TxOk(c.db, tx);
    hide Sound, Run, TxOk, GoodStep, Footprint;
    if !Granted(c.db, tx) {
      var l :| l in Wanted(tx) && Exists(c.db, l) && l !in tx.held;
      WantedIsInFootprint(c.db, tx);
      AcquireIsGood(c, t, l);
      e := Acquire(t, l);
    } else if tx.phase.Begun? {
      LookIsGood(c, t);
      e := Look(t);
    } else if tx.phase.Chosen? {
      CheckIsGood(c, t);
      e := Check(t);
    } else {
      ActIsGood(c, t);
      e := Act(t);
    }
  }

  lemma IsHistoryCons(c: System, e: Event, cs: seq<System>, events: seq<Event>)
    requires IsHistory(cs, events) && Enabled(c, e) && cs[0] == Fire(c, e)
    ensures IsHistory([c] + cs, [e] + events)
  {
    hide Enabled, Fire;
  }

  /** The transaction is over and holds nothing; it committed its operation, applied to the tables `c`
      had, if `committed`, and otherwise left them alone. */
  ghost predicate Finished(c: System, c': System, t: int, committed: bool) {
    && Has(c.txs, t) && Has(c'.txs, t) && c'.txs[t].op == c.txs[t].op
    && c'.txs[t].phase.Over? && c'.txs[t].held == {}
    && if committed
       then
         && Exec(c.db, c.txs[t].op).Ok? && c'.db == Exec(c.db, c.txs[t].op).value
         && c'.commits == c.commits + [c.txs[t].op]
       else c'.db == c.db && c'.commits == c.commits
  }

  /** The events are all the transaction's own. */
  predicate OwnSteps(events: seq<Event>, t: int) {
    forall i :: 0 <= i < |events| ==> Advances(events[i], t)
  }

  /** A history of the transaction's own steps that starts at `c` and ends the transaction. */
  ghost predicate Ending(c: System, t: int, cs: seq<System>, events: seq<Event>, committed: bool) {
    && IsHistory(cs, events) && cs[0] == c && OwnSteps(events, t)
    && Finished(c, cs[|events|], t, committed)
  }

  lemma CommitFires(c: System, t: int)
    requires Has(c.txs, t) && c.txs[t].phase.Checked? && c.txs[t].phase.todo == []
    ensures Enabled(c, Commit(t))
    ensures var c' := Fire(c, Commit(t));
            c'.txs == c.txs[t := Closed(c.txs[t])] && c'.commits == c.commits + [c.txs[t].op]
  {
    hide ApplyAll;
  }

  lemma CommitEnds(s0: State, c: System, t: int)
    requires Serial(s0, c) && Has(c.txs, t) && c.txs[t].phase.Checked? && c.txs[t].phase.todo == []
    ensures Ending(c, t, [c, Fire(c, Commit(t))], [Commit(t)], true)
  {
    hide Serial, Exec, Fire, Enabled;
    CommitFires(c, t);
    CommitKeepsSerial(s0, c, t);
  }

  lemma OverHoldsNothing(s0: State, c: System, t: int)
    requires Serial(s0, c) && Has(c.txs, t) && c.txs[t].phase.Over?
    ensures Ending(c, t, [c], [], false)
  {
    assert TxOk(c.db, c.txs[t]);
    hide Sound, Run, Exec;
  }

  lemma GoodStepThenFinished(c: System, e: Event, t: int, c': System, committed: bool)
    requires GoodStep(c, e, t) && Finished(Fire(c, e), c', t, committed)
    ensures Finished(c, c', t, committed)
  {
    hide Exec, Fire, Enabled, Unhindered, OnCourse;
  }

  lemma Prepend(c: System, e: Event, t: int, cs: seq<System>, events: seq<Event>, committed: bool)
    requires GoodStep(c, e, t) && Ending(Fire(c, e), t, cs, events, committed)
    ensures Ending(c, t, [c] + cs, [e] + events, committed)
  {
    GoodStepThenFinished(c, e, t, cs[|events|], committed);
    IsHistoryCons(c, e, cs, events);
    assert OwnSteps([e] + events, t) by {
      assert forall i :: 0 < i < |[e] + events| ==> ([e] + events)[i] == events[i - 1];
    }
    assert ([c] + cs)[|[e] + events|] == cs[|events|];
    hide Finished, Fire, Enabled, Unhindered, OnCourse, Closer, IsHistory, OwnSteps;
  }

  /** From any system reached so far, a transaction nobody hinders can be brought to its end by its own
      steps alone: to a commit if it is on course, and in any case to one that holds no row. */
  lemma {:induction false} UnhinderedEnds(s0: State, c: System, t: int)
    returns (cs: seq<System>, events: seq<Event>, committed: bool)
    requires Serial(s0, c) && Unhindered(c, t)
    ensures Ending(c, t, cs, events, committed)
    ensures OnCourse(c, t) ==> committed
    decreases PhasesLeft(c.txs[t]), StatementsLeft(c.txs[t]), LocksLeft(c.txs[t])
  {
    assert Has(c.txs, t);
    assert c.txs[t].phase.Over? ==> !OnCourse(c, t);
    hide Serial, OnCourse, Fire, Enabled, Unhindered, PhasesLeft, StatementsLeft, LocksLeft, Ending, Advances;
    if c.txs[t].phase.Over? {
      OverHoldsNothing(s0, c, t);
      cs, events, committed := [c], [], false;
    } else if c.txs[t].phase.Checked? && c.txs[t].phase.todo == [] {
      CommitEnds(s0, c, t);
      cs, events, committed := [c, Fire(c, Commit(t))], [Commit(t)], true;
    } else {
      var e := NextStep(s0, c, t);
      FireKeepsSerial(s0, c, e);
      var cs', events', done := UnhinderedEnds(s0, Fire(c, e), t);
      Prepend(c, e, t, cs', events', done);
      cs, events, committed := [c] + cs', [e] + events', done;
    }
  }

  lemma JustBegun(s: State, op: Op)
    requires Sound(s) && IsInterleaved(op)
    ensures var c := Fire(System(s, [], []), Begin(op));
            && Serial(s, c) && Unhindered(c, 0) && c == System(s, [Tx(op, Begun, {}, [], [])], [])
  {
    assert Serial(s, System(s, [], []));
    BeginKeepsSerial(s, System(s, [], []), op);
    hide Sound, Serial, Footprint;
  }

  /** Every operation that would be accepted can be carried out, read by read, lock by lock and statement
      by statement, to a commit of exactly what it does when run alone. */
  lemma AcceptedOperationCommits(s: State, op: Op) returns (cs: seq<System>, events: seq<Event>)
    requires Sound(s) && IsInterleaved(op) && Exec(s, op).Ok?
    ensures IsHistory(cs, events) && cs[0] == System(s, [], [])
    ensures cs[|events|].commits == [op] && cs[|events|].db == Exec(s, op).value
  {
    var c0 := System(s, [], []);
    JustBegun(s, op);
    hide Sound, Exec, Serial, Unhindered;
    var cs', events', committed := UnhinderedEnds(s, Fire(c0, Begin(op)), 0);
    IsHistoryCons(c0, Begin(op), cs', events');
    cs, events := [c0] + cs', [Begin(op)] + events';
  }

  /** Every operation that would be refused ends too: nothing committed, no row left locked. */
  lemma RefusedOperationEnds(s: State, op: Op) returns (cs: seq<System>, events: seq<Event>)
    requires Sound(s) && IsInterleaved(op) && Exec(s, op).Err?
    ensures IsHistory(cs, events) && cs[0] == System(s, [], [])
    ensures var c := cs[|events|];
            && c.commits == [] && c.db == s && |c.txs| > 0
            && c.txs[0].op == op && c.txs[0].phase.Over? && c.txs[0].held == {}
  {
    var c0 := System(s, [], []);
    JustBegun(s, op);
    hide Sound, Exec, Serial, Unhindered;
    var cs', events', committed := UnhinderedEnds(s, Fire(c0, Begin(op)), 0);
    IsHistoryCons(c0, Begin(op), cs', events');
    cs, events := [c0] + cs', [Begin(op)] + events';
  }
}
