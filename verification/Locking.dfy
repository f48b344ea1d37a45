/** Row locks: which rows a statement needs, and why rows somebody holds stay as they are. */
module Locking {
  import opened Tables
  import opened Operations
  import opened Lifecycle

  /** FOR UPDATE row locks.  An auction's lock covers its bids: every writer of a bid takes it first.
      An item has exactly one inventory row, so its lock is named by the item. */
  datatype Lock =
    | PouchLock(guild: GuildId)
    | AuctionLock(auction: AuctionId)
    | ListingLock(listing: ListingId)
    | InventoryLock(item: ItemId)

  predicate Exists(s: State, l: Lock) {
    match l
    case PouchLock(g) => Has(s.pouches, g)
    case AuctionLock(a) => Has(s.auctions, a)
    case ListingLock(i) => Has(s.listings, i)
    case InventoryLock(i) => Has(s.items, i)
  }

  /** The locks that cover the rows a write changes. */
  function Key(w: Write): set<Lock> {
    match w
    case PutPouch(g, _) => {PouchLock(g)}
    case AppendBid(b) => {AuctionLock(b.auction)}
    case PutBidStatus(a, _, _) => {AuctionLock(a)}
    case PutAuction(a, _, _) => {AuctionLock(a)}
    case PutInventory(k, _) => {InventoryLock(k.item)}
    case DropInventory(k) => {InventoryLock(k.item)}
    case PutListing(l, _, _) => {ListingLock(l)}
    case _ => {}
  }

  function Keys(ws: seq<Write>): set<Lock> {
    if ws == [] then {} else Key(ws[0]) + Keys(ws[1..])
  }

  /** The locks a statement runs under. */
  function Needs(act: Action): set<Lock> {
    match act
    case Pay(_, g, _, _) => {PouchLock(g)}
    case TakeItem(k) => {InventoryLock(k.item)}
    case Do(w) => Key(w)
  }

  function NeedsAll(acts: seq<Action>): set<Lock> {
    if acts == [] then {} else Needs(acts[0]) + NeedsAll(acts[1..])
  }

  /** A statement of the four interleaved transactions: it inserts no item, listing or auction. */
  predicate Interleaved(act: Action) {
    act.Do? ==> !act.write.AppendItem? && !act.write.AppendListing? && !act.write.AppendAuction?
  }

  predicate AllInterleaved(acts: seq<Action>) {
    forall i :: 0 <= i < |acts| ==> Interleaved(acts[i])
  }

  predicate SameInventory(m: map<InvKey, int>, m': map<InvKey, int>, item: ItemId) {
    && (forall k :: k in m && k.item == item ==> k in m' && m'[k] == m[k])
    && (forall k :: k in m' && k.item == item ==> k in m)
  }

  /** The rows under the lock are the same in both states. */
  ghost predicate Agree(s: State, s': State, l: Lock)
    requires Exists(s, l)
  {
    match l
    case PouchLock(g) => Has(s'.pouches, g) && s'.pouches[g] == s.pouches[g]
    case AuctionLock(a) => Untouched(s, s', a)
    case ListingLock(i) => Has(s'.listings, i) && s'.listings[i] == s.listings[i]
    case InventoryLock(i) =>
      Has(s'.items, i) && s'.items[i] == s.items[i] && SameInventory(s.inventories, s'.inventories, i)
  }

  // ---- Rows under somebody's lock --------------------------------------------------------

  lemma ApplyLeaves(s: State, w: Write, l: Lock)
    requires Exists(s, l) && l !in Key(w)
    ensures Agree(s, Apply(s, w), l)
  {
  }

  lemma AgreeIsReflexive(s: State, l: Lock)
    requires Exists(s, l)
    ensures Agree(s, s, l)
  {
  }

  lemma AgreeIsTransitive(s: State, s1: State, s2: State, l: Lock)
    requires Exists(s, l) && Agree(s, s1, l) && Exists(s1, l) && Agree(s1, s2, l)
    ensures Agree(s, s2, l)
  {
  }

  /** A commit changes no row whose lock the committing transaction does not hold. */
  lemma {:induction false} CommitLeaves(s: State, ws: seq<Write>, l: Lock)
    requires Exists(s, l) && l !in Keys(ws)
    ensures Exists(ApplyAll(s, ws), l) && Agree(s, ApplyAll(s, ws), l)
    decreases |ws|
  {
    if ws == [] {
      AgreeIsReflexive(s, l);
    } else {
      ApplyLeaves(s, ws[0], l);
      var s1 := Apply(s, ws[0]);
      AgreeKeepsExists(s, s1, l);
      CommitLeaves(s1, ws[1..], l);
      AgreeIsTransitive(s, s1, ApplyAll(s, ws), l);
    }
  }

  lemma AgreeKeepsExists(s: State, s': State, l: Lock)
    requires Exists(s, l) && Agree(s, s', l)
    ensures Exists(s', l)
  {
  }

  // ---- Statements read only what they lock -----------------------------------------------

  /** The pouch, listing and inventory rows under these locks are the same in both states. */
  ghost predicate AgreeOnRows(s: State, s': State, locks: set<Lock>) {
    forall l :: l in locks && !l.AuctionLock? ==> Exists(s, l) && Agree(s, s', l)
  }

  /** A statement computes the same writes in any two states that agree on the rows it locks. */
  lemma EffectsAreLocal(s: State, s': State, act: Action)
    requires Interleaved(act) && AgreeOnRows(s, s', Needs(act))
    ensures Effects(s, act) == Effects(s', act)
  {
  }

  lemma ApplyAgrees(s: State, s': State, w: Write, l: Lock)
    requires !l.AuctionLock? && Exists(s, l) && Agree(s, s', l)
    requires !w.AppendItem? && !w.AppendListing? && !w.AppendAuction?
    ensures Exists(Apply(s, w), l) && Agree(Apply(s, w), Apply(s', w), l)
  {
  }

  predicate NoInserts(ws: seq<Write>) {
    forall i :: 0 <= i < |ws| ==> !ws[i].AppendItem? && !ws[i].AppendListing? && !ws[i].AppendAuction?
  }

  lemma {:induction false} ApplyAllAgrees(s: State, s': State, ws: seq<Write>, locks: set<Lock>)
    requires AgreeOnRows(s, s', locks) && NoInserts(ws)
    ensures AgreeOnRows(ApplyAll(s, ws), ApplyAll(s', ws), locks)
    decreases |ws|
  {
    if ws != [] {
      forall l | l in locks && !l.AuctionLock?
        ensures Exists(Apply(s, ws[0]), l) && Agree(Apply(s, ws[0]), Apply(s', ws[0]), l)
      {
        ApplyAgrees(s, s', ws[0], l);
      }
      hide Agree, Exists, Apply;
      ApplyAllAgrees(Apply(s, ws[0]), Apply(s', ws[0]), ws[1..], locks);
    }
  }

  // ---- Recorded writes -------------------------------------------------------------------

  /** All the writes a list of statements makes, each computed on the writes before it. */
  function RunWrites(s: State, acts: seq<Action>): Result<seq<Write>>
    decreases |acts|
  {
    if acts == [] then Ok([])
    else
      match Effects(s, acts[0])
      case Err(e) => Err(e)
      case Ok(ws) =>
        match RunWrites(ApplyAll(s, ws), acts[1..])
        case Err(e) => Err(e)
        case Ok(rest) => Ok(ws + rest)
  }

  lemma {:induction false} ApplyAllConcat(s: State, xs: seq<Write>, ys: seq<Write>)
    ensures ApplyAll(s, xs + ys) == ApplyAll(ApplyAll(s, xs), ys)
    decreases |xs|
  {
    if xs == [] {
      assert xs + ys == ys;
    } else {
      assert (xs + ys)[1..] == xs[1..] + ys;
      ApplyAllConcat(Apply(s, xs[0]), xs[1..], ys);
    }
  }

  /** Applying the recorded writes is running the statements. */
  lemma {:induction false} WritesAreTheRun(s: State, acts: seq<Action>)
    ensures RunActions(s, acts)
            == match RunWrites(s, acts) case Err(e) => Err(e) case Ok(ws) => Ok(ApplyAll(s, ws))
    decreases |acts|
  {
    if acts != [] && Effects(s, acts[0]).Ok? {
      var ws := Effects(s, acts[0]).value;
      WritesAreTheRun(ApplyAll(s, ws), acts[1..]);
      if RunWrites(ApplyAll(s, ws), acts[1..]).Ok? {
        ApplyAllConcat(s, ws, RunWrites(ApplyAll(s, ws), acts[1..]).value);
      }
    }
  }

  lemma {:induction false} ApplyNothing(s: State)
    ensures ApplyAll(s, []) == s
  {
  }

  lemma {:induction false} WritesSnoc(s: State, acts: seq<Action>, act: Action)
    requires RunWrites(s, acts).Ok?
    requires Effects(ApplyAll(s, RunWrites(s, acts).value), act).Ok?
    ensures RunWrites(s, acts + [act])
            == Ok(RunWrites(s, acts).value + Effects(ApplyAll(s, RunWrites(s, acts).value), act).value)
    decreases |acts|
  {
    hide Effects, Apply, ApplyAll;
    if acts == [] {
      assert ApplyAll(s, []) == s by {
        ApplyNothing(s);
      }
      assert acts + [act] == [act] && [act][1..] == [];
      var ws := Effects(s, act).value;
      assert ws + [] == ws && [] + ws == ws;
    } else {
      assert (acts + [act])[1..] == acts[1..] + [act];
      var ws := Effects(s, acts[0]).value;
      var s1 := ApplyAll(s, ws);
      var rest := RunWrites(s1, acts[1..]).value;
      ApplyAllConcat(s, ws, rest);
      WritesSnoc(s1, acts[1..], act);
      var last := Effects(ApplyAll(s1, rest), act).value;
      assert ws + (rest + last) == (ws + rest) + last;
    }
  }

  lemma EffectsInsertNothing(s: State, act: Action)
    requires Interleaved(act) && Effects(s, act).Ok?
    ensures NoInserts(Effects(s, act).value)
    ensures Keys(Effects(s, act).value) <= Needs(act)
  {
    var ws := Effects(s, act).value;
    KeysShort(ws[0], ws[|ws| - 1]);
    assert |ws| == 1 ==> ws == [ws[0]];
    assert |ws| == 2 ==> ws == [ws[0], ws[1]];
  }

  lemma KeysShort(v: Write, w: Write)
    ensures Keys([v]) == Key(v)
    ensures Keys([v, w]) == Key(v) + Key(w)
  {
    assert [v][1..] == [] && [v, w][1..] == [w] && [w][1..] == [];
    assert Keys([w]) == Key(w) + Keys([w][1..]);
  }

  /** The writes of a transaction's statements so far depend only on rows it has locked. */
  lemma {:induction false} WritesAreLocal(s: State, s': State, acts: seq<Action>, locks: set<Lock>)
    requires AllInterleaved(acts) && NeedsAll(acts) <= locks && AgreeOnRows(s, s', locks)
    ensures RunWrites(s, acts) == RunWrites(s', acts)
    decreases |acts|
  {
    if acts != [] {
      EffectsAreLocal(s, s', acts[0]);
      if Effects(s, acts[0]).Ok? {
        var ws := Effects(s, acts[0]).value;
        EffectsInsertNothing(s, acts[0]);
        ApplyAllAgrees(s, s', ws, locks);
        hide AgreeOnRows, Effects;
        WritesAreLocal(ApplyAll(s, ws), ApplyAll(s', ws), acts[1..], locks);
      }
    }
  }
}
