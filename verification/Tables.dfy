/** The rows of the database, the writes a statement makes to them, and the clock.

    A table is the sequence of its rows in insertion order and a row's id is its position, so
    "not found" is an id outside the table.  Inventory rows have a composite key and form a map.
    Guilds are never created or removed by the services, so a guild is its pouch. */
module Tables {

  type GuildId = int
  type ItemId = int
  type AuctionId = int
  type BidId = int
  type ListingId = int
  type CharacterId = int

  datatype Option<+T> = None | Some(value: T)

  datatype Result<+T> = Ok(value: T) | Err(error: Error)

  datatype Error =
    // internal/service/goldpouch_service.go
    | InvalidAmount | InsufficientBalance | InsufficientReserved | DailyLimitExceeded | InvalidTransactionType
    // internal/service/auction_service.go
    | InvalidDuration | NotItemOwner | ItemNotLegendary | AuctionAlreadyExists | AuctionNotFound
    | AuctionNotActive | AuctionExpired | SelfBidNotAllowed | BidTooLow | BidNotFound | NotBidOwner
    | BidNotActive | BidIsHighest
    // internal/service/item_service.go
    | InvalidRarity | InvalidPrice | MissingPrice | MissingQuantity | GuildNotFound | ItemNotFound
    | ListingNotActive | InsufficientQuantity | InvalidQuantity | LegendaryConflict
    // internal/settlement/settlement.go
    | NotEligible
    // the database: no such row, a CHECK or unique constraint, a missing referenced row, a value that no
    // INTEGER column holds
    | NotFound | ConstraintViolation | ForeignKeyViolation | NumericOutOfRange

  /** A row with this id exists. */
  predicate Has<T>(table: seq<T>, id: int) {
    0 <= id < |table|
  }

  // ---- Clock -----------------------------------------------------------------------------

  /** Nanoseconds since the epoch. */
  type Time = int

  const SECOND: int := 1_000_000_000
  const DAY: int := 86_400 * SECOND
  const FIVE_MINUTES: int := 300 * SECOND
  const BID_EXTENSION_WINDOW: int := FIVE_MINUTES
  const BID_EXTENSION_AMOUNT: int := FIVE_MINUTES

  /** The UTC calendar day of a clock reading, as a day number. */
  function UtcDay(t: Time): int {
    t / DAY
  }

  function TruncateToMicrosecond(t: Time): Time {
    t - t % 1000
  }

  // ---- Integer widths --------------------------------------------------------------------

  const MAX_INT32: int := 0x7fff_ffff
  const MIN_INT32: int := -0x8000_0000

  /** The value is representable in a Postgres INTEGER column. */
  predicate FitsInt32(x: int) {
    MIN_INT32 <= x <= MAX_INT32
  }

  /** Two's complement wrap-around of a Go `int`. */
  function Wrap64(x: int): int {
    (x + 0x8000_0000_0000_0000) % 0x1_0000_0000_0000_0000 - 0x8000_0000_0000_0000
  }

  // ---- Rows ------------------------------------------------------------------------------

  datatype Rarity = Common | Rare | Legendary

  datatype Item = Item(rarity: Rarity, price: int, forger: CharacterId)

  /** A gold_pouches row; the usable balance is a generated column. */
  datatype Pouch = Pouch(total: int, reserved: int, limit: int, spent: int, lastReset: int) {
    function Usable(): int {
      total - reserved
    }
  }

  datatype InvKey = InvKey(guild: GuildId, item: ItemId)

  datatype ListingStatus = ListingActive | ListingExpired

  datatype Listing = Listing(item: ItemId, guild: GuildId, quantity: int, basePrice: int, status: ListingStatus)

  datatype AuctionStatus = Active | Expired

  datatype Auction = Auction(item: ItemId, owner: GuildId, status: AuctionStatus,
                             start: Time, end: Time, basePrice: int)

  datatype BidStatus = BidActive | BidCancelled | BidWon | BidLost

  datatype Bid = Bid(auction: AuctionId, guild: GuildId, amount: int, status: BidStatus)

  datatype TxType = TxPurchase | TxReserve | TxRelease | TxCredit | TxAuctionWin

  /** The reference column: "auction:<id>" or "listing:<id>". */
  datatype Reference = OfAuction(auction: AuctionId) | OfListing(listing: ListingId)

  /** A transaction_logs row.  `day` is the UTC day the pouch service read when it wrote the row,
      for the movements that read the clock; it stands in for the created_at column. */
  datatype LogEntry = LogEntry(guild: GuildId, kind: TxType, amount: int, ref: Reference, day: Option<int>)

  /** All committed rows; of the characters table only how many there are.  The last three fields are
      history that no statement reads: the pouches the market opened with, and for each listing
      (auction) the quantity (end time) it was created with. */
  datatype State = State(
    characters: nat,
    pouches: seq<Pouch>,
    items: seq<Item>,
    inventories: map<InvKey, int>,
    listings: seq<Listing>,
    auctions: seq<Auction>,
    bids: seq<Bid>,
    log: seq<LogEntry>,
    opening: seq<Pouch>,
    openingStock: seq<int>,
    openingEnd: seq<Time>)

  // ---- Row constraints -------------------------------------------------------------------

  /** The CHECK constraints and the INTEGER columns of gold_pouches. */
  predicate PouchRowOk(p: Pouch) {
    && 0 <= p.reserved <= p.total <= MAX_INT32
    && 0 <= p.limit <= MAX_INT32
    && 0 <= p.spent <= MAX_INT32
  }

  /** The CHECK constraints and the INTEGER columns of listings. */
  predicate ListingRowOk(l: Listing) {
    && 0 <= l.quantity <= MAX_INT32
    && 0 <= l.basePrice <= MAX_INT32
    && (l.status == ListingActive ==> l.quantity > 0)
  }

  // ---- Writes ----------------------------------------------------------------------------

  /** One INSERT, UPDATE or DELETE, carrying the values written. */
  datatype Write =
    | PutPouch(guild: GuildId, pouch: Pouch)
    | AppendLog(entry: LogEntry)
    | AppendBid(bid: Bid)
    | PutBidStatus(bidAuction: AuctionId, id: BidId, bidStatus: BidStatus)
    | PutAuction(auction: AuctionId, auctionStatus: AuctionStatus, end: Time)
    | AppendAuction(newAuction: Auction)
    | PutInventory(key: InvKey, quantity: int)
    | DropInventory(dropped: InvKey)
    | PutListing(listing: ListingId, left: int, listingStatus: ListingStatus)
    | AppendListing(newListing: Listing)
    | AppendItem(newItem: Item)

  /** The state after a write; an UPDATE that matches no row changes nothing.  A bid is updated by id,
      and `bidAuction` names the parent row whose lock protects it. */
  function Apply(s: State, w: Write): State {
    match w
    case PutPouch(g, p) => if Has(s.pouches, g) then s.(pouches := s.pouches[g := p]) else s
    case AppendLog(e) => s.(log := s.log + [e])
    case AppendBid(b) => s.(bids := s.bids + [b])
    case PutBidStatus(a, i, st) =>
      if Has(s.bids, i) && s.bids[i].auction == a then s.(bids := s.bids[i := s.bids[i].(status := st)]) else s
    case PutAuction(a, st, end) =>
      if Has(s.auctions, a) then s.(auctions := s.auctions[a := s.auctions[a].(status := st, end := end)]) else s
    case AppendAuction(a) => s.(auctions := s.auctions + [a], openingEnd := s.openingEnd + [a.end])
    case PutInventory(k, q) => s.(inventories := s.inventories[k := q])
    case DropInventory(k) => s.(inventories := s.inventories - {k})
    case PutListing(l, q, st) =>
      if Has(s.listings, l) then s.(listings := s.listings[l := s.listings[l].(quantity := q, status := st)]) else s
    case AppendListing(l) => s.(listings := s.listings + [l], openingStock := s.openingStock + [l.quantity])
    case AppendItem(i) => s.(items := s.items + [i])
  }

  function ApplyAll(s: State, ws: seq<Write>): State
    decreases |ws|
  {
    if ws == [] then s else ApplyAll(Apply(s, ws[0]), ws[1..])
  }

  lemma {:induction false} ApplyShort(s: State, v: Write, w: Write)
    ensures ApplyAll(s, [v]) == Apply(s, v)
    ensures ApplyAll(s, [v, w]) == Apply(Apply(s, v), w)
  {
    assert [v][1..] == [];
    assert [v, w][1..] == [w] && [w][1..] == [];
    assert ApplyAll(Apply(s, v), [w]) == ApplyAll(Apply(Apply(s, v), w), [w][1..]);
  }

  /** Another guild holds a row for this item. */
  predicate HeldElsewhere(inventories: map<InvKey, int>, key: InvKey) {
    exists k :: k in inventories && k.item == key.item && k.guild != key.guild
  }

  predicate IsLegendary(s: State, item: ItemId) {
    Has(s.items, item) && s.items[item].rarity == Legendary
  }

  /** The item already has an ACTIVE auction. */
  predicate UnderAuction(auctions: seq<Auction>, item: ItemId) {
    exists a :: 0 <= a < |auctions| && auctions[a].status == Active && auctions[a].item == item
  }

  /** The constraint that makes the database refuse a write, if any: CHECK and partial unique
      constraints, and INTEGER columns. */
  function Refusal(s: State, w: Write): Option<Error> {
    match w
    case PutPouch(_, p) => if PouchRowOk(p) then None else Some(ConstraintViolation)
    case AppendBid(b) => if 0 < b.amount && FitsInt32(b.amount) then None else Some(ConstraintViolation)
    case AppendAuction(a) =>
      if !FitsInt32(a.basePrice) then Some(NumericOutOfRange)
      else if UnderAuction(s.auctions, a.item) || a.end <= a.start || a.basePrice < 0 || !IsLegendary(s, a.item)
      then Some(AuctionAlreadyExists)
      else None
    case PutInventory(k, q) =>
      if !(0 <= q <= MAX_INT32) then Some(NumericOutOfRange)
      else if IsLegendary(s, k.item) && (q != 1 || HeldElsewhere(s.inventories, k)) then Some(LegendaryConflict)
      else None
    case PutListing(l, q, st) =>
      if Has(s.listings, l) && !ListingRowOk(s.listings[l].(quantity := q, status := st))
      then Some(ConstraintViolation) else None
    case AppendListing(l) => if ListingRowOk(l) then None else Some(NumericOutOfRange)
    case AppendItem(i) =>
      if !(0 <= i.price <= MAX_INT32) then Some(NumericOutOfRange)
      else if !(0 <= i.forger < s.characters) then Some(ForeignKeyViolation)
      else None
    case _ => None
  }
}
