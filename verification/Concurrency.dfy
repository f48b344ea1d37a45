/** Transactions interleaved statement by statement, and why every committed state is the one that
    running the committed transactions alone, in commit order, would give. */
module Concurrency {
  import opened Tables
  import opened Operations
  import opened Holdings
  import opened Sales
  import opened Market
  import opened Lifecycle
  import opened Locking

  // ---- The machine -----------------------------------------------------------------------

  /** How far a transaction has come: begun; unlocked reads done; checks under the locks done, with
      the statements still to execute; or over. */
  datatype Phase = Begun | Chosen(target: int) | Checked(row: int, todo: seq<Action>) | Over

  /** A transaction: the locks it holds, the statements it has executed, and the row values it has
      written, which nobody else sees before it commits. */
  datatype Tx = Tx(op: Op, phase: Phase, held: set<Lock>, done: seq<Action>, writes: seq<Write>)

  /** The committed tables, every transaction begun so far, and the operations committed, in order. */
  datatype System = System(db: State, txs: seq<Tx>, commits: seq<Op>)

  datatype Event =
    | Begin(op: Op)
    | Look(tx: int)                 // the unlocked reads
    | Acquire(tx: int, lock: Lock)   // SELECT ... FOR UPDATE, when the row is free
    | Check(tx: int)                // re-read and check under the locks
    | Act(tx: int)                  // one statement, on the committed tables overlaid with own writes
    | Commit(tx: int)
    | Abort(tx: int)                // a crash, a deadlock victim, a lost connection
    | Whole(op: Op)                 // an item or an auction created, as one atomic step

  predicate IsInterleaved(op: Op) {
    op.PlaceBid? || op.CancelBid? || op.SettleAuction? || op.Purchase?
  }

  function MainLocks(op: Op, target: int): set<Lock> {
    if op.Purchase? then {ListingLock(target), InventoryLock(op.item)} else {AuctionLock(target)}
  }

  /** The locks the transaction's next statement waits for. */
  function Wanted(tx: Tx): set<Lock> {
    match tx.phase
    case Chosen(target) => MainLocks(tx.op, target)
    case Checked(_, todo) => if todo == [] then {} else Needs(todo[0])
    case _ => {}
  }

  predicate Free(txs: seq<Tx>, lock: Lock) {
    forall i :: 0 <= i < |txs| ==> lock !in txs[i].held
  }

  /** The transaction holds every wanted lock whose row exists; FOR UPDATE finds no row to lock otherwise. */
  predicate Granted(db: State, tx: Tx) {
    forall l :: l in Wanted(tx) && Exists(db, l) ==> l in tx.held
  }

  predicate Enabled(c: System, e: Event) {
    match e
    case Begin(op) => IsInterleaved(op)
    case Look(t) => Has(c.txs, t) && c.txs[t].phase.Begun?
    case Acquire(t, l) => Has(c.txs, t) && l in Wanted(c.txs[t]) && Exists(c.db, l) && Free(c.txs, l)
    case Check(t) => Has(c.txs, t) && c.txs[t].phase.Chosen? && Granted(c.db, c.txs[t])
    case Act(t) =>
      Has(c.txs, t) && c.txs[t].phase.Checked? && c.txs[t].phase.todo != [] && Granted(c.db, c.txs[t])
    case Commit(t) => Has(c.txs, t) && c.txs[t].phase.Checked? && c.txs[t].phase.todo == []
    case Abort(t) => Has(c.txs, t) && !c.txs[t].phase.Over?
    case Whole(op) => !IsInterleaved(op) && Exec(c.db, op).Ok?
  }

  /** Rolled back or committed: the locks are released. */
  function Closed(tx: Tx): Tx {
    Tx(tx.op, Over, {}, [], [])
  }

  /** The transaction after its unlocked reads. */
  function Looked(db: State, tx: Tx): Tx {
    match PreRead(db, tx.op)
    case Err(_) => Closed(tx)
    case Ok(target) => tx.(phase := Chosen(target))
  }

  /** The transaction after its checks under the locks. */
  function CheckedTx(db: State, tx: Tx): Tx
    requires tx.phase.Chosen?
  {
    match PlanAt(db, tx.op, tx.phase.target)
    case Err(_) => Closed(tx)
    case Ok(acts) => tx.(phase := Checked(tx.phase.target, acts))
  }

  /** The transaction after its next statement. */
  function Acted(db: State, tx: Tx): Tx
    requires tx.phase.Checked? && tx.phase.todo != []
  {
    var act := tx.phase.todo[0];
    match Effects(ApplyAll(db, tx.writes), act)
    case Err(_) => Closed(tx)
    case Ok(ws) =>
      tx.(phase := Checked(tx.phase.row, tx.phase.todo[1..]), done := tx.done + [act], writes := tx.writes + ws)
  }

  function Fire(c: System, e: Event): System
    requires Enabled(c, e)
  {
    match e
    case Begin(op) => c.(txs := c.txs + [Tx(op, Begun, {}, [], [])])
    case Look(t) => c.(txs := c.txs[t := Looked(c.db, c.txs[t])])
    case Acquire(t, l) => c.(txs := c.txs[t := c.txs[t].(held := c.txs[t].held + {l})])
    case Check(t) => c.(txs := c.txs[t := CheckedTx(c.db, c.txs[t])])
    case Act(t) => c.(txs := c.txs[t := Acted(c.db, c.txs[t])])
    case Commit(t) =>
      System(ApplyAll(c.db, c.txs[t].writes), c.txs[t := Closed(c.txs[t])], c.commits + [c.txs[t].op])
    case Abort(t) => c.(txs := c.txs[t := Closed(c.txs[t])])
    case Whole(op) => c.(db := Exec(c.db, op).value, commits := c.commits + [op])
  }

  /** The systems a sequence of events passes through. */
  ghost predicate IsHistory(cs: seq<System>, events: seq<Event>) {
    && |cs| == |events| + 1
    && forall i :: 0 <= i < |events| ==> Enabled(cs[i], events[i]) && cs[i + 1] == Fire(cs[i], events[i])
  }

  // ---- Checks read only what they lock ---------------------------------------------------

  lemma HighestIsLocal(s: State, s': State, a: AuctionId)
    requires SameBidsOn(s.bids, s'.bids, a)
    ensures Highest(s, a) == Highest(s', a)
  {
  }

  lemma {:induction false} ReleasesAreLocal(bids: seq<Bid>, bids': seq<Bid>, a: AuctionId, w: BidId, from: nat)
    requires SameBidsOn(bids, bids', a) && from <= |bids'|
    ensures ReleaseLosers(bids', a, w, from) == if from <= |bids| then ReleaseLosers(bids, a, w, from) else []
    decreases |bids'| - from
  {
    if from < |bids'| {
      ReleasesAreLocal(bids, bids', a, w, from + 1);
      if from < |bids| {
        assert bids'[from] == bids[from].(status := bids'[from].status);
      }
    }
  }

  /** What the unlocked reads established about the chosen row, as far as it can never change. */
  predicate TargetOk(s: State, op: Op, target: int) {
    match op
    case PlaceBid(item, guild, amount, _, _) =>
      amount > 0 && Has(s.auctions, target) && s.auctions[target].item == item && s.auctions[target].owner != guild
    case CancelBid(_, bid, _) => Has(s.bids, bid) && s.bids[bid].auction == target
    case SettleAuction(a, _, _) => target == a
    case Purchase(item, _, units, _, _) =>
      units > 0 && Has(s.items, item) && s.items[item].rarity != Legendary
      && Has(s.listings, target) && s.listings[target].item == item
    case _ => false
  }

  lemma PreReadTarget(s: State, op: Op)
    requires IsInterleaved(op) && PreRead(s, op).Ok?
    ensures TargetOk(s, op, PreRead(s, op).value)
  {
  }

  /** Reading unlocked at the end of the transaction would have chosen the same row. */
  lemma PlanFromTarget(s: State, op: Op, target: int)
    requires Sound(s) && TargetOk(s, op, target) && PlanAt(s, op, target).Ok?
    ensures Plan(s, op) == PlanAt(s, op, target)
  {
    if op.PlaceBid? {
      ActiveAuctionIsUnique(s, target);
    } else if op.Purchase? {
      ActiveListingIsUnique(s, target);
    }
  }

  lemma AuctionPlansAreLocal(s: State, s': State, op: Op, target: int)
    requires Has(s.auctions, target) && Untouched(s, s', target)
    requires op.PlaceBid? || op.CancelBid? || op.SettleAuction?
    requires TargetOk(s, op, target)
    ensures PlanAt(s, op, target) == PlanAt(s', op, target)
  {
    HighestIsLocal(s, s', target);
    if op.SettleAuction? && Highest(s, target).Some? {
      ReleasesAreLocal(s.bids, s'.bids, target, Highest(s, target).value, 0);
    }
  }

  lemma PurchasePlanIsLocal(s: State, s': State, op: Op, target: int)
    requires op.Purchase? && TargetOk(s, op, target)
    requires Agree(s, s', ListingLock(target)) && Agree(s, s', InventoryLock(op.item))
    ensures PlanAt(s, op, target) == PlanAt(s', op, target)
  {
  }

  /** The rows under these locks exist and are the same in both states. */
  ghost predicate AgreeAll(s: State, s': State, locks: set<Lock>) {
    forall l :: l in locks ==> Exists(s, l) && Agree(s, s', l)
  }

  lemma PlansAreLocal(s: State, s': State, op: Op, target: int)
    requires TargetOk(s, op, target) && AgreeAll(s, s', MainLocks(op, target))
    ensures PlanAt(s, op, target) == PlanAt(s', op, target)
  {
    if op.Purchase? {
      assert ListingLock(target) in MainLocks(op, target) && InventoryLock(op.item) in MainLocks(op, target);
      PurchasePlanIsLocal(s, s', op, target);
    } else {
      assert AuctionLock(target) in MainLocks(op, target);
      AuctionPlansAreLocal(s, s', op, target);
    }
  }

  lemma {:induction false} ReleasesInterleave(bids: seq<Bid>, a: AuctionId, w: BidId, from: nat)
    requires from <= |bids|
    ensures AllInterleaved(ReleaseLosers(bids, a, w, from))
    decreases |bids| - from
  {
    if from < |bids| {
      ReleasesInterleave(bids, a, w, from + 1);
    }
  }

  lemma PlansInterleave(s: State, op: Op, target: int)
    requires IsInterleaved(op) && PlanAt(s, op, target).Ok?
    ensures AllInterleaved(PlanAt(s, op, target).value)
  {
    if op.SettleAuction? && Highest(s, target).Some? {
      ReleasesInterleave(s.bids, target, Highest(s, target).value, 0);
    }
  }

  // ---- What the machine keeps ------------------------------------------------------------

  /** A live transaction's checks, statements and written values are those it would compute now, on
      the committed tables. */
  ghost predicate TxOk(db: State, tx: Tx) {
    && IsInterleaved(tx.op)
    && (forall l :: l in tx.held ==> Exists(db, l))
    && match tx.phase
       case Begun => tx.done == [] && tx.writes == []
       case Over => tx.held == {}
       case Chosen(target) => TargetOk(db, tx.op, target) && tx.done == [] && tx.writes == []
       case Checked(row, todo) =>
         && TargetOk(db, tx.op, row)
         && MainLocks(tx.op, row) <= tx.held
         && PlanAt(db, tx.op, row) == Ok(tx.done + todo)
         && NeedsAll(tx.done) <= tx.held
         && RunWrites(db, tx.done) == Ok(tx.writes)
         && Keys(tx.writes) <= tx.held
  }

  /** No row is locked by two transactions. */
  ghost predicate Exclusive(txs: seq<Tx>) {
    forall i, j :: 0 <= i < j < |txs| ==> txs[i].held !! txs[j].held
  }

  ghost predicate AllOk(c: System) {
    forall i :: 0 <= i < |c.txs| ==> TxOk(c.db, c.txs[i])
  }

  /** The committed tables are those of the committed operations run one at a time, in commit order. */
  ghost predicate Serial(s0: State, c: System) {
    && c.db == Run(s0, c.commits)
    && Sound(c.db)
    && Exclusive(c.txs)
    && AllOk(c)
  }

  // ---- One transaction's own steps -------------------------------------------------------

  /** Checks that pass have found the rows they lock. */
  lemma MainRowsExist(s: State, op: Op, target: int)
    requires TargetOk(s, op, target) && PlanAt(s, op, target).Ok?
    ensures forall l :: l in MainLocks(op, target) ==> Exists(s, l)
  {
  }

  lemma {:induction false} ReleasesLock(s: State, bids: seq<Bid>, a: AuctionId, w: BidId, from: nat)
    requires from <= |bids| && Has(s.auctions, a)
    ensures RowsExist(s, ReleaseLosers(bids, a, w, from))
    decreases |bids| - from
  {
    if from < |bids| {
      ReleasesLock(s, bids, a, w, from + 1);
    }
  }

  /** The rows the statements lock exist, pouches aside. */
  ghost predicate RowsExist(s: State, acts: seq<Action>) {
    forall i, l :: 0 <= i < |acts| && l in Needs(acts[i]) && !l.PouchLock? ==> Exists(s, l)
  }

  lemma PlanRowsExist(s: State, op: Op, target: int)
    requires Auctioned(s) && TargetOk(s, op, target) && PlanAt(s, op, target).Ok?
    ensures RowsExist(s, PlanAt(s, op, target).value)
  {
    if op.SettleAuction? {
      assert AuctionRowOk(s, s.auctions[target]);
      if Highest(s, target).Some? {
        ReleasesLock(s, s.bids, target, Highest(s, target).value, 0);
      }
    }
  }

  lemma {:induction false} SamePouchRows(s: State, ws: seq<Write>)
    ensures |ApplyAll(s, ws).pouches| == |s.pouches|
    decreases |ws|
  {
    if ws != [] {
      SamePouchRows(Apply(s, ws[0]), ws[1..]);
    }
  }

  lemma NeededRowsExist(s: State, view: State, act: Action)
    requires |view.pouches| == |s.pouches| && Effects(view, act).Ok?
    requires forall l :: l in Needs(act) && !l.PouchLock? ==> Exists(s, l)
    ensures forall l :: l in Needs(act) ==> Exists(s, l)
  {
    hide Refusal;
  }

  /** A statement that succeeds has locked its rows. */
  lemma {:induction false} StatementIsLocked(db: State, tx: Tx)
    requires Sound(db) && TxOk(db, tx) && tx.phase.Checked? && tx.phase.todo != [] && Granted(db, tx)
    requires Effects(ApplyAll(db, tx.writes), tx.phase.todo[0]).Ok?
    ensures Needs(tx.phase.todo[0]) <= tx.held
  {
    var act := tx.phase.todo[0];
    assert Auctioned(db);
    hide Sound, Auctioned, PlanAt, TargetOk, RunWrites, ApplyAll, Keys, NeedsAll, MainLocks;
    PlanRowsExist(db, tx.op, tx.phase.row);
    assert (tx.done + tx.phase.todo)[|tx.done|] == act;
    SamePouchRows(db, tx.writes);
    NeededRowsExist(db, ApplyAll(db, tx.writes), act);
  }

  lemma CheckKeepsTxOk(db: State, tx: Tx)
    requires TxOk(db, tx) && tx.phase.Chosen? && Granted(db, tx)
    ensures TxOk(db, CheckedTx(db, tx))
  {
    var r := PlanAt(db, tx.op, tx.phase.target);
    if r.Ok? {
      MainRowsExist(db, tx.op, tx.phase.target);
      assert [] + r.value == r.value;
    }
  }

  lemma {:induction false} NeedsSnoc(acts: seq<Action>, act: Action)
    ensures NeedsAll(acts + [act]) == NeedsAll(acts) + Needs(act)
  {
    if acts == [] {
      assert acts + [act] == [act] && [act][1..] == [];
    } else {
      assert (acts + [act])[1..] == acts[1..] + [act];
      NeedsSnoc(acts[1..], act);
    }
  }

  lemma {:induction false} KeysConcat(xs: seq<Write>, ys: seq<Write>)
    ensures Keys(xs + ys) == Keys(xs) + Keys(ys)
  {
    if xs == [] {
      assert xs + ys == ys;
    } else {
      assert (xs + ys)[1..] == xs[1..] + ys;
      KeysConcat(xs[1..], ys);
    }
  }

  lemma ActKeepsTxOk(db: State, tx: Tx)
    requires Sound(db) && TxOk(db, tx) && tx.phase.Checked? && tx.phase.todo != [] && Granted(db, tx)
    ensures TxOk(db, Acted(db, tx))
  {
    hide Sound, Granted, PlanAt, RunWrites, Effects, Keys, NeedsAll, Needs, TargetOk, ApplyAll, Exists;
    var todo := tx.phase.todo;
    var act := todo[0];
    PlansInterleave(db, tx.op, tx.phase.row);
    assert Interleaved(act) by {
      assert (tx.done + todo)[|tx.done|] == act;
    }
    var view := ApplyAll(db, tx.writes);
    if Effects(view, act).Ok? {
      StatementIsLocked(db, tx);
      var ws := Effects(view, act).value;
      WritesSnoc(db, tx.done, act);
      NeedsSnoc(tx.done, act);
      EffectsInsertNothing(view, act);
      KeysConcat(tx.writes, ws);
      assert tx.done + todo == (tx.done + [act]) + todo[1..];
    }
  }

  // ---- Other transactions' commits -------------------------------------------------------

  /** Rows are never removed from these tables, and these columns never change. */
  ghost predicate Grown(s: State, s': State) {
    && |s.auctions| <= |s'.auctions|
    && (forall a :: 0 <= a < |s.auctions| ==>
                      s'.auctions[a].item == s.auctions[a].item && s'.auctions[a].owner == s.auctions[a].owner)
    && |s.bids| <= |s'.bids|
    && (forall i :: 0 <= i < |s.bids| ==> s'.bids[i].auction == s.bids[i].auction)
    && s.items <= s'.items
    && |s.listings| <= |s'.listings|
    && (forall l :: 0 <= l < |s.listings| ==> s'.listings[l].item == s.listings[l].item)
  }

  lemma ApplyGrows(s: State, w: Write)
    ensures Grown(s, Apply(s, w))
  {
  }

  lemma GrownTrans(s: State, s1: State, s2: State)
    requires Grown(s, s1) && Grown(s1, s2)
    ensures Grown(s, s2)
  {
  }

  lemma {:induction false} ApplyAllGrows(s: State, ws: seq<Write>)
    ensures Grown(s, ApplyAll(s, ws))
    decreases |ws|
  {
    if ws != [] {
      ApplyGrows(s, ws[0]);
      ApplyAllGrows(Apply(s, ws[0]), ws[1..]);
      GrownTrans(s, Apply(s, ws[0]), ApplyAll(s, ws));
    }
  }

  lemma TargetStaysOk(s: State, s': State, op: Op, target: int)
    requires TargetOk(s, op, target) && Grown(s, s')
    ensures TargetOk(s', op, target)
  {
  }

  /** A transaction is as good after a change that leaves alone every row it has locked. */
  lemma TxSurvives(db: State, db': State, tx: Tx)
    requires TxOk(db, tx) && Grown(db, db') && AgreeAll(db, db', tx.held)
    ensures TxOk(db', tx)
  {
    forall l | l in tx.held ensures Exists(db', l) {
      AgreeKeepsExists(db, db', l);
    }
    match tx.phase
    case Begun =>
    case Over =>
    case Chosen(target) =>
      TargetStaysOk(db, db', tx.op, target);
    case Checked(row, todo) =>
      TargetStaysOk(db, db', tx.op, row);
      PlansAreLocal(db, db', tx.op, row);
      PlansInterleave(db, tx.op, row);
      assert AllInterleaved(tx.done) by {
        forall i | 0 <= i < |tx.done| ensures Interleaved(tx.done[i]) {
          assert (tx.done + todo)[i] == tx.done[i];
        }
      }
      WritesAreLocal(db, db', tx.done, tx.held);
  }

  lemma {:induction false} CommitAgrees(db: State, ws: seq<Write>, locks: set<Lock>)
    requires Keys(ws) !! locks && forall l :: l in locks ==> Exists(db, l)
    ensures AgreeAll(db, ApplyAll(db, ws), locks)
  {
    forall l | l in locks ensures Agree(db, ApplyAll(db, ws), l) {
      CommitLeaves(db, ws, l);
    }
  }

  lemma WholeAgrees(db: State, op: Op, l: Lock)
    requires !IsInterleaved(op) && Exec(db, op).Ok? && Exists(db, l)
    ensures Grown(db, Exec(db, op).value) && Agree(db, Exec(db, op).value, l)
  {
    if op.CreateItem? {
      CreateItemRuns(db, op);
    } else {
      CreateAuctionRuns(db, op);
    }
  }

  lemma WholeGrows(db: State, op: Op)
    requires !IsInterleaved(op) && Exec(db, op).Ok?
    ensures Grown(db, Exec(db, op).value)
  {
    if op.CreateItem? {
      CreateItemRuns(db, op);
    } else {
      CreateAuctionRuns(db, op);
    }
  }

  // ---- Commit ----------------------------------------------------------------------------

  lemma {:induction false} RunSnoc(s: State, ops: seq<Op>, op: Op)
    ensures Run(s, ops + [op]) == Step(Run(s, ops), op)
    decreases |ops|
  {
    if ops == [] {
      assert ops + [op] == [op] && [op][1..] == [];
    } else {
      assert (ops + [op])[1..] == ops[1..] + [op];
      RunSnoc(Step(s, ops[0]), ops[1..], op);
    }
  }

  /** A transaction ready to commit writes exactly what its operation, run alone now, would do. */
  lemma {:induction false} CommitIsExec(db: State, tx: Tx)
    requires Sound(db) && TxOk(db, tx) && tx.phase.Checked? && tx.phase.todo == []
    ensures Exec(db, tx.op) == Ok(ApplyAll(db, tx.writes))
  {
    PlanFromTarget(db, tx.op, tx.phase.row);
    assert tx.done + [] == tx.done;
    WritesAreTheRun(db, tx.done);
  }

  // ---- Every event -----------------------------------------------------------------------

  lemma OwnStepKeepsSerial(s0: State, c: System, t: int, tx': Tx)
    requires Serial(s0, c) && Has(c.txs, t) && TxOk(c.db, tx')
    requires tx'.held <= c.txs[t].held
    ensures Serial(s0, c.(txs := c.txs[t := tx']))
  {
    var c' := c.(txs := c.txs[t := tx']);
    hide Sound, Run, TxOk;
    forall i, j | 0 <= i < j < |c'.txs| ensures c'.txs[i].held !! c'.txs[j].held {
      assert c.txs[i].held !! c.txs[j].held;
    }
  }

  lemma BeginKeepsSerial(s0: State, c: System, op: Op)
    requires Serial(s0, c) && IsInterleaved(op)
    ensures Serial(s0, Fire(c, Begin(op)))
  {
    var c' := Fire(c, Begin(op));
    assert TxOk(c.db, Tx(op, Begun, {}, [], []));
    hide Sound, Run, TxOk;
    forall i | 0 <= i < |c'.txs| ensures TxOk(c'.db, c'.txs[i]) {
      assert i < |c.txs| ==> TxOk(c.db, c.txs[i]);
    }
    forall i, j | 0 <= i < j < |c'.txs| ensures c'.txs[i].held !! c'.txs[j].held {
      assert j < |c.txs| ==> c.txs[i].held !! c.txs[j].held;
    }
  }

  lemma AcquireKeepsSerial(s0: State, c: System, t: int, l: Lock)
    requires Serial(s0, c) && Enabled(c, Acquire(t, l))
    ensures Serial(s0, Fire(c, Acquire(t, l)))
  {
    var c' := Fire(c, Acquire(t, l));
    assert TxOk(c.db, c.txs[t]) && TxOk(c.db, c'.txs[t]);
    hide Sound, Run, TxOk;
    forall i, j | 0 <= i < j < |c'.txs| ensures c'.txs[i].held !! c'.txs[j].held {
      assert c.txs[i].held !! c.txs[j].held;
    }
  }

  lemma CommitKeepsOthers(c: System, t: int)
    requires Exclusive(c.txs) && AllOk(c) && Enabled(c, Commit(t))
    ensures AllOk(Fire(c, Commit(t))) && Exclusive(Fire(c, Commit(t)).txs)
  {
    var c' := Fire(c, Commit(t));
    assert TxOk(c.db, c.txs[t]);
    assert TxOk(c'.db, c'.txs[t]);
    assert Keys(c.txs[t].writes) <= c.txs[t].held;
    forall i, j | 0 <= i < j < |c'.txs| ensures c'.txs[i].held !! c'.txs[j].held {
      assert c.txs[i].held !! c.txs[j].held;
    }
    hide TxOk, ApplyAll, Keys;
    forall i | 0 <= i < |c'.txs| ensures TxOk(c'.db, c'.txs[i]) {
      if i != t {
        OtherSurvivesCommit(c, t, i);
      }
    }
  }

  lemma CommitKeepsSerial(s0: State, c: System, t: int)
    requires Serial(s0, c) && Enabled(c, Commit(t))
    ensures Serial(s0, Fire(c, Commit(t)))
    ensures Exec(c.db, c.txs[t].op) == Ok(Fire(c, Commit(t)).db)
  {
    assert TxOk(c.db, c.txs[t]);
    hide Sound, Run, Exec, Exclusive, AllOk, TxOk;
    CommitIsExec(c.db, c.txs[t]);
    StepKeepsSound(c.db, c.txs[t].op);
    RunSnoc(s0, c.commits, c.txs[t].op);
    CommitKeepsOthers(c, t);
  }

  lemma OtherSurvivesCommit(c: System, t: int, i: int)
    requires Exclusive(c.txs) && Has(c.txs, t) && Has(c.txs, i) && i != t
    requires TxOk(c.db, c.txs[i]) && Keys(c.txs[t].writes) <= c.txs[t].held
    ensures TxOk(ApplyAll(c.db, c.txs[t].writes), c.txs[i])
  {
    assert c.txs[if i < t then i else t].held !! c.txs[if i < t then t else i].held;
    CommitAgrees(c.db, c.txs[t].writes, c.txs[i].held);
    ApplyAllGrows(c.db, c.txs[t].writes);
    TxSurvives(c.db, ApplyAll(c.db, c.txs[t].writes), c.txs[i]);
  }

  lemma WholeKeepsSerial(s0: State, c: System, op: Op)
    requires Serial(s0, c) && Enabled(c, Whole(op))
    ensures Serial(s0, Fire(c, Whole(op)))
  {
    var c' := Fire(c, Whole(op));
    StepKeepsSound(c.db, op);
    RunSnoc(s0, c.commits, op);
    WholeGrows(c.db, op);
    forall i | 0 <= i < |c'.txs| ensures TxOk(c'.db, c'.txs[i]) {
      var tx := c.txs[i];
      assert TxOk(c.db, tx);
      forall l | l in tx.held ensures Exists(c.db, l) && Agree(c.db, c'.db, l) {
        WholeAgrees(c.db, op, l);
      }
      TxSurvives(c.db, c'.db, tx);
    }
  }

  /** No event, in any order, disturbs the serial account of the committed tables. */
  lemma FireKeepsSerial(s0: State, c: System, e: Event)
    requires Serial(s0, c) && Enabled(c, e)
    ensures Serial(s0, Fire(c, e))
  {
    hide Serial, Sound, Run, TxOk, PreRead, PlanAt, Effects;
    match e
    case Begin(op) => BeginKeepsSerial(s0, c, op);
    case Acquire(t, l) => AcquireKeepsSerial(s0, c, t, l);
    case Commit(t) => CommitKeepsSerial(s0, c, t);
    case Whole(op) => WholeKeepsSerial(s0, c, op);
    case Look(t) => LookKeepsSerial(s0, c, t);
    case Check(t) => CheckKeepsSerial(s0, c, t);
    case Act(t) => ActKeepsSerial(s0, c, t);
    case Abort(t) => AbortKeepsSerial(s0, c, t);
  }

  lemma LookKeepsSerial(s0: State, c: System, t: int)
    requires Serial(s0, c) && Enabled(c, Look(t))
    ensures Serial(s0, Fire(c, Look(t)))
  {
    assert TxOk(c.db, c.txs[t]);
    if PreRead(c.db, c.txs[t].op).Ok? {
      PreReadTarget(c.db, c.txs[t].op);
    }
    OwnStepKeepsSerial(s0, c, t, Looked(c.db, c.txs[t]));
  }

  lemma CheckKeepsSerial(s0: State, c: System, t: int)
    requires Serial(s0, c) && Enabled(c, Check(t))
    ensures Serial(s0, Fire(c, Check(t)))
  {
    assert TxOk(c.db, c.txs[t]);
    CheckKeepsTxOk(c.db, c.txs[t]);
    OwnStepKeepsSerial(s0, c, t, CheckedTx(c.db, c.txs[t]));
  }

  lemma ActKeepsSerial(s0: State, c: System, t: int)
    requires Serial(s0, c) && Enabled(c, Act(t))
    ensures Serial(s0, Fire(c, Act(t)))
  {
    assert TxOk(c.db, c.txs[t]);
    ActKeepsTxOk(c.db, c.txs[t]);
    OwnStepKeepsSerial(s0, c, t, Acted(c.db, c.txs[t]));
  }

  lemma AbortKeepsSerial(s0: State, c: System, t: int)
    requires Serial(s0, c) && Enabled(c, Abort(t))
    ensures Serial(s0, Fire(c, Abort(t)))
  {
    assert TxOk(c.db, c.txs[t]) && TxOk(c.db, Closed(c.txs[t]));
    OwnStepKeepsSerial(s0, c, t, Closed(c.txs[t]));
  }

  /** Serialisability.  Whatever transactions are begun, however their reads, locks, statements,
      commits and aborts interleave, each committed state is the one that the committed operations,
      run one at a time in commit order, lead to; and it satisfies the global invariant. */
  lemma {:induction false} CommittedStatesAreSerial(s0: State, cs: seq<System>, events: seq<Event>, n: nat)
    requires Sound(s0) && IsHistory(cs, events) && n <= |events|
    requires cs[0] == System(s0, [], [])
    ensures cs[n].db == Run(s0, cs[n].commits) && Sound(cs[n].db)
    ensures Serial(s0, cs[n])
    decreases n
  {
    if n == 0 {
      assert Run(s0, []) == s0;
    } else {
      CommittedStatesAreSerial(s0, cs, events, n - 1);
      hide Sound, Run, Exclusive, AllOk;
      FireKeepsSerial(s0, cs[n - 1], events[n - 1]);
    }
  }

  /** Each commit is the whole operation, accepted, applied to the tables as they were just before it. */
  lemma EachCommitIsOneStep(s0: State, cs: seq<System>, events: seq<Event>, n: nat)
    requires Sound(s0) && IsHistory(cs, events) && n < |events| && events[n].Commit?
    requires cs[0] == System(s0, [], [])
    ensures Exec(cs[n].db, cs[n].txs[events[n].tx].op) == Ok(cs[n + 1].db)
  {
    CommittedStatesAreSerial(s0, cs, events, n);
    CommitKeepsSerial(s0, cs[n], events[n].tx);
  }
}
