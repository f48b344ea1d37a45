/** The services' operations as functions on the committed state.

    An operation first chooses the row it is about (PreRead), then checks everything again on the
    locked rows and settles on the statements to execute (PlanAt), then executes them in order
    (RunActions).  Any refusal leaves the committed state as it was. */
module Operations {
  import opened Tables
  import opened GoldPouch

  // ---- Statements ------------------------------------------------------------------------

  /** A repository write; pouches and the log are written by the pouch service alone. */
  type RepositoryWrite = w: Write | !w.PutPouch? && !w.AppendLog?
    witness DropInventory(InvKey(0, 0))

  /** One call of a transaction body into the pouch service or a repository. */
  datatype Action =
    | Pay(move: Move, guild: GuildId, amount: int, ref: Reference)
    | TakeItem(key: InvKey)          // lock the seller's inventory row and delete it
    | Do(write: RepositoryWrite)

  function EntryOf(act: Action): LogEntry
    requires act.Pay?
  {
    LogEntry(act.guild, KindOf(act.move), act.amount, act.ref, DayOf(act.move))
  }

  /** The rows a statement writes, computed from the rows it reads, or why it fails. */
  function Effects(s: State, act: Action): Result<seq<Write>> {
    match act
    case Pay(move, g, amount, ref) =>
      if amount <= 0 then Err(InvalidAmount)
      else if move.Settle? && move.settleType != TxPurchase && move.settleType != TxAuctionWin
      then Err(InvalidTransactionType)
      else if !Has(s.pouches, g) then Err(NotFound)
      else (
        match Moved(s.pouches[g], move, amount)
        case Err(e) => Err(e)
        case Ok(p) =>
          match Refusal(s, PutPouch(g, p))
          case Some(e) => Err(e)
          case None => Ok([PutPouch(g, p), AppendLog(EntryOf(act))]))
    case TakeItem(k) =>
      if k in s.inventories then Ok([DropInventory(k)]) else Err(NotFound)
    case Do(w) =>
      match Refusal(s, w)
      case Some(e) => Err(e)
      case None => Ok([w])
  }

  function Perform(s: State, act: Action): Result<State> {
    match Effects(s, act)
    case Err(e) => Err(e)
    case Ok(ws) => Ok(ApplyAll(s, ws))
  }

  function RunActions(s: State, acts: seq<Action>): Result<State>
    decreases |acts|
  {
    if acts == [] then Ok(s)
    else
      match Perform(s, acts[0])
      case Err(e) => Err(e)
      case Ok(s') => RunActions(s', acts[1..])
  }

  // ---- Queries ---------------------------------------------------------------------------

  /** GetActiveByItemID on auctions, searching the first `n` rows. */
  function ActiveAuction(auctions: seq<Auction>, item: ItemId, n: nat): (found: Option<AuctionId>)
    requires n <= |auctions|
    ensures found.Some? ==>
              0 <= found.value < n && auctions[found.value].item == item && auctions[found.value].status == Active
    ensures found.None? ==> forall a :: 0 <= a < n && auctions[a].item == item ==> auctions[a].status != Active
  {
    if n == 0 then None
    else if auctions[n - 1].item == item && auctions[n - 1].status == Active then Some(n - 1)
    else ActiveAuction(auctions, item, n - 1)
  }

  /** GetActiveByItemID on listings, searching the first `n` rows. */
  function ActiveListing(listings: seq<Listing>, item: ItemId, n: nat): (found: Option<ListingId>)
    requires n <= |listings|
    ensures found.Some? ==>
              && 0 <= found.value < n
              && listings[found.value].item == item && listings[found.value].status == ListingActive
    ensures found.None? ==> forall l :: 0 <= l < n && listings[l].item == item ==> listings[l].status != ListingActive
  {
    if n == 0 then None
    else if listings[n - 1].item == item && listings[n - 1].status == ListingActive then Some(n - 1)
    else ActiveListing(listings, item, n - 1)
  }

  /** GetHighestActiveByAuctionID, searching the first `n` rows: the ACTIVE bid with the greatest
      amount, the earliest of equals. */
  function HighestActive(bids: seq<Bid>, a: AuctionId, n: nat): (best: Option<BidId>)
    requires n <= |bids|
    ensures best.Some? ==>
              0 <= best.value < n && bids[best.value].auction == a && bids[best.value].status == BidActive
    ensures best.Some? ==>
              forall i :: 0 <= i < n && bids[i].auction == a && bids[i].status == BidActive ==>
                            bids[i].amount <= bids[best.value].amount
                            && (bids[i].amount == bids[best.value].amount ==> best.value <= i)
    ensures best.None? ==> forall i :: 0 <= i < n && bids[i].auction == a ==> bids[i].status != BidActive
  {
    if n == 0 then None
    else
      var best := HighestActive(bids, a, n - 1);
      var b := bids[n - 1];
      if b.auction == a && b.status == BidActive && (best.None? || bids[best.value].amount < b.amount)
      then Some(n - 1)
      else best
  }

  function Highest(s: State, a: AuctionId): Option<BidId> {
    HighestActive(s.bids, a, |s.bids|)
  }

  function CeilDiv(a: int, b: int): int
    requires b > 0
  {
    (a + b - 1) / b
  }

  /** The least amount the next bid must offer: 105% of the highest ACTIVE bid, rounded up, or the
      base price. */
  function MinRequired(s: State, a: AuctionId): int
    requires Has(s.auctions, a)
  {
    match Highest(s, a)
    case Some(h) => CeilDiv(s.bids[h].amount * 105, 100)
    case None => s.auctions[a].basePrice
  }

  // ---- Operations ------------------------------------------------------------------------

  /** A request, with the clock readings its transaction takes (each read after the row lock) and,
      for an auction, the price found in the oracle cache. */
  datatype Op =
    | CreateItem(forger: CharacterId, rarity: Option<Rarity>, price: Option<int>,
                 forGuild: Option<GuildId>, quantity: Option<int>)
    | CreateAuction(item: ItemId, owner: GuildId, seconds: int, cachedPrice: Option<int>, now: Time)
    | PlaceBid(item: ItemId, guild: GuildId, amount: int, now: Time, at: Time)
    | CancelBid(item: ItemId, bid: BidId, guild: GuildId)
    | SettleAuction(auction: AuctionId, now: Time, at: Time)
    | Purchase(item: ItemId, buyer: GuildId, units: int, at: Time, paidAt: Time)

  /** The guild "Vorynthax Guild", seeded first. */
  const DEFAULT_GUILD: GuildId := 0

  /** The unlocked reads: which row the transaction will lock. */
  function PreRead(s: State, op: Op): Result<int> {
    match op
    case PlaceBid(item, guild, amount, _, _) =>
      if amount <= 0 then Err(InvalidAmount)
      else (
        match ActiveAuction(s.auctions, item, |s.auctions|)
        case None => Err(AuctionNotFound)
        case Some(a) => if s.auctions[a].owner == guild then Err(SelfBidNotAllowed) else Ok(a))
    case CancelBid(_, bid, _) =>
      if !Has(s.bids, bid) then Err(BidNotFound) else Ok(s.bids[bid].auction)
    case SettleAuction(a, _, _) => Ok(a)
    case Purchase(item, _, units, _, _) =>
      if units <= 0 then Err(InvalidQuantity)
      else if !Has(s.items, item) then Err(ItemNotFound)
      else if s.items[item].rarity == Legendary then Err(ListingNotActive)
      else (
        match ActiveListing(s.listings, item, |s.listings|)
        case None => Err(ListingNotActive)
        case Some(l) => Ok(l))
    case _ => Ok(0)
  }

  function PlanBid(s: State, op: Op, a: AuctionId): Result<seq<Action>>
    requires op.PlaceBid?
  {
    if !Has(s.auctions, a) then Err(NotFound)
    else
      var auction := s.auctions[a];
      if auction.status != Active then Err(AuctionNotActive)
      else if op.now > auction.end then Err(AuctionExpired)
      else if op.amount < MinRequired(s, a) then Err(BidTooLow)
      else Ok([Pay(Reserve(op.at), op.guild, op.amount, OfAuction(a)),
               Do(AppendBid(Bid(a, op.guild, op.amount, BidActive)))]
              + if auction.end - op.now <= BID_EXTENSION_WINDOW
                then [Do(PutAuction(a, auction.status, auction.end + BID_EXTENSION_AMOUNT))]
                else [])
  }

  function PlanCancel(s: State, op: Op, a: AuctionId): Result<seq<Action>>
    requires op.CancelBid?
  {
    if !Has(s.auctions, a) then Err(AuctionNotFound)
    else if s.auctions[a].item != op.item then Err(BidNotFound)
    else if !Has(s.bids, op.bid) then Err(BidNotFound)
    else
      var bid := s.bids[op.bid];
      if bid.guild != op.guild then Err(NotBidOwner)
      else if s.auctions[a].status != Active then Err(AuctionNotActive)
      else if bid.status != BidActive then Err(BidNotActive)
      else if Highest(s, a) == Some(op.bid) then Err(BidIsHighest)
      else Ok([Pay(Release, bid.guild, bid.amount, OfAuction(a)), Do(PutBidStatus(a, op.bid, BidCancelled))])
  }

  /** The release loop over the bids from `from` on. */
  function ReleaseLosers(bids: seq<Bid>, a: AuctionId, winner: BidId, from: nat): seq<Action>
    requires from <= |bids|
    decreases |bids| - from
  {
    if from == |bids| then []
    else
      var b := bids[from];
      (if b.auction == a && from != winner && b.status == BidActive
       then [Pay(Release, b.guild, b.amount, OfAuction(a)), Do(PutBidStatus(a, from, BidLost))]
       else []) + ReleaseLosers(bids, a, winner, from + 1)
  }

  /** Pay the seller, move the item, mark the winning bid. */
  function PayOut(s: State, a: AuctionId, winner: BidId, at: Time): seq<Action>
    requires Has(s.auctions, a) && Has(s.bids, winner)
  {
    var auction, w := s.auctions[a], s.bids[winner];
    [Pay(Settle(TxAuctionWin, at), w.guild, w.amount, OfAuction(a)),
     Pay(Credit, auction.owner, w.amount, OfAuction(a)),
     TakeItem(InvKey(auction.owner, auction.item)),
     Do(PutInventory(InvKey(w.guild, auction.item), 1)),
     Do(PutBidStatus(a, winner, BidWon))]
  }

  function PlanSettle(s: State, op: Op, a: AuctionId): Result<seq<Action>>
    requires op.SettleAuction?
  {
    if !Has(s.auctions, a) then Err(NotFound)
    else
      var auction := s.auctions[a];
      if auction.status != Active || op.now <= auction.end then Err(NotEligible)
      else
        var expire := [Do(PutAuction(a, Expired, auction.end))];
        match Highest(s, a)
        case None => Ok(expire)
        case Some(w) => Ok(PayOut(s, a, w, op.at) + ReleaseLosers(s.bids, a, w, 0) + expire)
  }

  function PlanPurchase(s: State, op: Op, l: ListingId): Result<seq<Action>>
    requires op.Purchase?
  {
    if !Has(s.listings, l) then Err(NotFound)
    else
      var listing := s.listings[l];
      var key := InvKey(listing.guild, op.item);
      if key !in s.inventories then Err(NotFound)
      else if listing.status != ListingActive then Err(ListingNotActive)
      else if listing.quantity < op.units then Err(InsufficientQuantity)
      else if s.inventories[key] < op.units then Err(InsufficientQuantity)
      else
        var total := listing.basePrice * op.units;
        var left := listing.quantity - op.units;
        Ok([Pay(Reserve(op.at), op.buyer, total, OfListing(l)),
            Pay(Settle(TxPurchase, op.paidAt), op.buyer, total, OfListing(l)),
            Pay(Credit, listing.guild, total, OfListing(l)),
            Do(PutListing(l, left, if left == 0 then ListingExpired else listing.status)),
            Do(PutInventory(key, s.inventories[key] - op.units))])
  }

  function PlanItem(s: State, op: Op): Result<seq<Action>>
    requires op.CreateItem?
  {
    if op.rarity.None? then Err(InvalidRarity)
    else if op.price.None? then Err(MissingPrice)
    else if op.price.value < 0 then Err(InvalidPrice)
    else
      var listable := op.rarity.value != Legendary;
      var price := op.price.value;
      if listable && price == 0 then Err(MissingPrice)
      else if listable && (op.quantity.None? || op.quantity.value <= 0) then Err(MissingQuantity)
      else
        var guild := if op.forGuild.Some? then op.forGuild.value else DEFAULT_GUILD;
        if !Has(s.pouches, guild) then Err(GuildNotFound)
        else
          var item := |s.items|;
          var quantity := if listable then op.quantity.value else 1;
          Ok([Do(AppendItem(Item(op.rarity.value, price, op.forger))), Do(PutInventory(InvKey(guild, item), quantity))]
             + if listable then [Do(AppendListing(Listing(item, guild, quantity, price, ListingActive)))] else [])
  }

  function PlanAuction(s: State, op: Op): Result<seq<Action>>
    requires op.CreateAuction?
  {
    if op.seconds <= 0 then Err(InvalidDuration)
    else if !Has(s.items, op.item) then Err(ItemNotFound)
    else if InvKey(op.owner, op.item) !in s.inventories then Err(NotItemOwner)
    else if s.items[op.item].rarity != Legendary then Err(ItemNotLegendary)
    else
      var basePrice := if op.cachedPrice.Some? then op.cachedPrice.value else s.items[op.item].price;
      var start := TruncateToMicrosecond(op.now);
      Ok([Do(AppendAuction(Auction(op.item, op.owner, Active,
                                   start, start + Wrap64(op.seconds * SECOND), basePrice)))])
  }

  /** The checks under the locks, and the statements that follow. */
  function PlanAt(s: State, op: Op, target: int): Result<seq<Action>> {
    match op
    case CreateItem(_, _, _, _, _) => PlanItem(s, op)
    case CreateAuction(_, _, _, _, _) => PlanAuction(s, op)
    case PlaceBid(_, _, _, _, _) => PlanBid(s, op, target)
    case CancelBid(_, _, _) => PlanCancel(s, op, target)
    case SettleAuction(_, _, _) => PlanSettle(s, op, target)
    case Purchase(_, _, _, _, _) => PlanPurchase(s, op, target)
  }

  function Plan(s: State, op: Op): Result<seq<Action>> {
    match PreRead(s, op)
    case Err(e) => Err(e)
    case Ok(target) => PlanAt(s, op, target)
  }

  /** The whole transaction, alone: the committed state after it, or why it was refused. */
  function Exec(s: State, op: Op): Result<State> {
    match Plan(s, op)
    case Err(e) => Err(e)
    case Ok(acts) => RunActions(s, acts)
  }

  function Step(s: State, op: Op): State {
    match Exec(s, op)
    case Ok(s') => s'
    case Err(_) => s
  }

  function Run(s: State, ops: seq<Op>): State
    decreases |ops|
  {
    if ops == [] then s else Run(Step(s, ops[0]), ops[1..])
  }

  // ---- Sweep -----------------------------------------------------------------------------

  /** The clock readings of one settlement: the auction's, then the winner's pouch's. */
  datatype Readings = Readings(now: Time, at: Time)

  /** ListActiveEndingBefore, over the rows from `from` on. */
  function Due(auctions: seq<Auction>, cutoff: Time, from: nat): seq<AuctionId>
    requires from <= |auctions|
    decreases |auctions| - from
  {
    if from == |auctions| then []
    else
      (if auctions[from].status == Active && auctions[from].end <= cutoff then [from] else [])
      + Due(auctions, cutoff, from + 1)
  }

  /** One settlement transaction for each listed auction. */
  function SettleOps(ids: seq<AuctionId>, clock: AuctionId -> Readings): seq<Op>
    decreases |ids|
  {
    if ids == [] then []
    else [SettleAuction(ids[0], clock(ids[0]).now, clock(ids[0]).at)] + SettleOps(ids[1..], clock)
  }

  function Tick(s: State, cutoff: Time, clock: AuctionId -> Readings): State {
    Run(s, SettleOps(Due(s.auctions, cutoff, 0), clock))
  }
}
