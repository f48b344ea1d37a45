/** Who holds an item over whole runs: only a settlement with a winner ever hands it over. */
module Possession {
  import opened Tables
  import opened Operations
  import opened Bidding
  import opened Holdings
  import opened Settlement
  import opened Sales
  import opened Market

  predicate Holds(s: State, g: GuildId, item: ItemId) {
    InvKey(g, item) in s.inventories
  }

  /** The guild a committed settlement of an auction of the item awards it to, if anybody bid. */
  function HandedTo(s: State, op: Op, item: ItemId): Option<GuildId> {
    if op.SettleAuction? && Exec(s, op).Ok? && Has(s.auctions, op.auction) && s.auctions[op.auction].item == item
    then
      match Last(s, op.auction)
      case None => None
      case Some(w) => Some(s.bids[w].guild)
    else None
  }

  /** The winner of the last such settlement in a run, if there is one. */
  function LastWinner(s: State, ops: seq<Op>, item: ItemId): Option<GuildId>
    decreases |ops|
  {
    if ops == [] then None
    else
      var later := LastWinner(Step(s, ops[0]), ops[1..], item);
      if later.Some? then later else HandedTo(s, ops[0], item)
  }

  /** A guild holds an item after a step if the step handed it to that guild, or handed it to nobody
      and the guild held it before. */
  predicate HeldAfter(before: bool, handedTo: Option<GuildId>, g: GuildId) {
    match handedTo
    case None => before
    case Some(h) => g == h
  }

  lemma WonByMovesItem(s: State, s': State, a: AuctionId, w: BidId, at: Time, item: ItemId, g: GuildId)
    requires CanWin(s, a, w) && WonBy(s, s', a, w, at)
    ensures s'.items == s.items
    ensures Holds(s', g, item)
            <==> HeldAfter(Holds(s, g, item), if s.auctions[a].item == item then Some(s.bids[w].guild) else None, g)
  {
    WinnerRows(s, a, w);
    assert forall k, k' :: k in s.inventories && k' in s.inventories && k.item == k'.item ==> k == k';
    hide Books, Owned;
  }

  lemma SettleMovesItem(s: State, op: Op, item: ItemId, g: GuildId)
    requires Sound(s) && op.SettleAuction? && Exec(s, op).Ok?
    ensures Exec(s, op).value.items == s.items
    ensures Holds(Exec(s, op).value, g, item) <==> HeldAfter(Holds(s, g, item), HandedTo(s, op, item), g)
  {
    SettleAcceptedIff(s, op);
    if Last(s, op.auction).Some? {
      WonByMovesItem(s, Exec(s, op).value, op.auction, Last(s, op.auction).value, op.at, item, g);
    }
    hide Books, Standing, Owned, WonBy, Exec, Last;
  }

  lemma StepMovesItem(s: State, op: Op, item: ItemId, g: GuildId)
    requires Sound(s) && Has(s.items, item)
    ensures Has(Step(s, op).items, item)
    ensures Holds(Step(s, op), g, item) <==> HeldAfter(Holds(s, g, item), HandedTo(s, op, item), g)
  {
    hide Sound, RunActions, Last;
    if Exec(s, op).Ok? {
      match op
      case CreateItem(_, _, _, _, _) => CreateItemRuns(s, op);
      case CreateAuction(_, _, _, _, _) => CreateAuctionRuns(s, op);
      case PlaceBid(_, _, _, _, _) =>
        var a := AcceptedBidHasAuction(s, op);
        BidAcceptedIff(s, op, a);
      case CancelBid(_, _, _) => CancelAcceptedIff(s, op);
      case SettleAuction(_, _, _) => SettleMovesItem(s, op, item, g);
      case Purchase(_, _, _, _, _) => PurchaseLeavesItems(s, op, item, g);
    }
  }

  lemma PurchaseLeavesItems(s: State, op: Op, item: ItemId, g: GuildId)
    requires Sound(s) && op.Purchase? && Exec(s, op).Ok?
    ensures Exec(s, op).value.items == s.items
    ensures Holds(Exec(s, op).value, g, item) <==> Holds(s, g, item)
  {
    PurchaseAcceptedIff(s, op, PreRead(s, op).value);
    hide Sound, Exec;
  }

  /** Over any run, an item changes hands exactly as its winning settlements say. */
  lemma {:induction false} RunMovesItem(s: State, ops: seq<Op>, item: ItemId, g: GuildId)
    requires Sound(s) && Has(s.items, item)
    ensures Holds(Run(s, ops), g, item) <==> HeldAfter(Holds(s, g, item), LastWinner(s, ops, item), g)
    decreases |ops|
  {
    hide Sound, Step, HandedTo, Holds;
    if ops != [] {
      StepKeepsSound(s, ops[0]);
      StepMovesItem(s, ops[0], item, g);
      RunMovesItem(Step(s, ops[0]), ops[1..], item, g);
    }
  }
}
