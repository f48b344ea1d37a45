/** The money arithmetic in Go's 64-bit `int`, over 32-bit columns: no check or balance ever wraps
    around, because every client amount is compared with a balance or a stock first. */
module Widths {
  import opened Tables
  import opened GoldPouch
  import opened Operations
  import opened Ledger
  import opened Bidding
  import opened Holdings
  import opened Market

  predicate FitsInt64(x: int) {
    -0x8000_0000_0000_0000 <= x < 0x8000_0000_0000_0000
  }

  /** Wrapping always gives a 64-bit value, congruent to the exact one, and equal to it if and only if that
      fits. */
  lemma WrapIsExactIffFits(x: int)
    ensures FitsInt64(Wrap64(x)) && (Wrap64(x) - x) % 0x1_0000_0000_0000_0000 == 0
    ensures Wrap64(x) == x <==> FitsInt64(x)
  {
  }

  function Add64(x: int, y: int): int {
    Wrap64(x + y)
  }

  function Sub64(x: int, y: int): int {
    Wrap64(x - y)
  }

  function Mul64(x: int, y: int): int {
    Wrap64(x * y)
  }

  /** A pouch movement with every addition and subtraction done in 64 bits, in the order of the code. */
  function Moved64(p: Pouch, m: Move, amount: int): Result<Pouch> {
    match m
    case Reserve(at) =>
      if p.Usable() < amount then Err(InsufficientBalance)
      else
        var q := Refreshed(p, UtcDay(at));
        if Add64(q.spent, amount) > q.limit then Err(DailyLimitExceeded)
        else Ok(q.(reserved := Add64(q.reserved, amount)))
    case Release =>
      if p.reserved < amount then Err(InsufficientReserved)
      else Ok(p.(reserved := Sub64(p.reserved, amount)))
    case Settle(_, at) =>
      if p.reserved < amount then Err(InsufficientReserved)
      else
        var q := Refreshed(p, UtcDay(at));
        if Add64(q.spent, amount) > q.limit then Err(DailyLimitExceeded)
        else Ok(q.(total := Sub64(q.total, amount), reserved := Sub64(q.reserved, amount),
                   spent := Add64(q.spent, amount)))
    case Credit => Ok(p.(total := Add64(p.total, amount)))
  }

  lemma SumsFit(p: Pouch, amount: int)
    requires PouchRowOk(p) && 0 < amount <= MAX_INT32
    ensures Add64(p.spent, amount) == p.spent + amount
    ensures Add64(p.reserved, amount) == p.reserved + amount
    ensures Sub64(p.reserved, amount) == p.reserved - amount
    ensures Add64(p.total, amount) == p.total + amount
    ensures Sub64(p.total, amount) == p.total - amount
  {
  }

  /** On any row the database can hold and any positive 64-bit amount, a movement computes what
      unbounded arithmetic would; a credit does for every amount a column can hold. */
  lemma MovementsNeverWrap(p: Pouch, m: Move, amount: int)
    requires PouchRowOk(p) && 0 < amount && FitsInt64(amount)
    requires m.Credit? ==> amount <= MAX_INT32
    ensures Moved64(p, m, amount) == Moved(p, m, amount)
  {
    hide Wrap64;
    if amount <= MAX_INT32 {
      SumsFit(p, amount);
      match m
      case Reserve(at) => SumsFit(Refreshed(p, UtcDay(at)), amount);
      case Settle(_, at) => SumsFit(Refreshed(p, UtcDay(at)), amount);
      case _ =>
    }
  }

  /** Alone, an unguarded credit can wrap: only its callers' checks keep amounts small. */
  lemma UnguardedCreditWraps(p: Pouch)
    requires PouchRowOk(p) && p.total > 0
    ensures Moved64(p, Credit, 0x7fff_ffff_ffff_ffff) != Moved(p, Credit, 0x7fff_ffff_ffff_ffff)
  {
  }

  /** The bid floor in 64 bits. */
  function MinRequired64(s: State, a: AuctionId): int
    requires Has(s.auctions, a)
  {
    match Highest(s, a)
    case Some(h) => Sub64(Add64(Mul64(s.bids[h].amount, 105), 100), 1) / 100
    case None => s.auctions[a].basePrice
  }

  lemma BidFloorNeverWraps(s: State, a: AuctionId)
    requires Sound(s) && Has(s.auctions, a)
    ensures MinRequired64(s, a) == MinRequired(s, a)
  {
    if Highest(s, a).Some? {
      var b := s.bids[Highest(s, a).value];
      assert BidRowOk(s, b);
      assert PouchRowOk(s.pouches[b.guild]);
      hide Sound;
      WrapIsExactIffFits(b.amount * 105);
      WrapIsExactIffFits(b.amount * 105 + 100);
      WrapIsExactIffFits(b.amount * 105 + 100 - 1);
    }
  }

  lemma {:induction false} ProductBounds(x: int, y: nat, bound: int)
    requires 0 <= x <= bound
    ensures 0 <= x * y <= bound * y
    decreases y
  {
  }

  lemma ProductFits(x: int, y: int)
    requires 0 <= x <= MAX_INT32 && 0 <= y <= MAX_INT32
    ensures FitsInt64(x * y)
  {
    ProductBounds(x, y, MAX_INT32);
  }

  /** A purchase that passed its stock checks has a total, and leaves a quantity, that do not wrap,
      whatever 64-bit quantity the client sent. */
  lemma PurchaseNeverWraps(s: State, op: Op, l: ListingId)
    requires Sound(s) && op.Purchase? && FitsInt64(op.units) && op.units > 0
    requires PlanPurchase(s, op, l).Ok?
    ensures var row := s.listings[l];
            && Mul64(row.basePrice, op.units) == row.basePrice * op.units
            && Sub64(row.quantity, op.units) == row.quantity - op.units
  {
    var row := s.listings[l];
    assert ListingOk(s, row, s.openingStock[l]);
    hide Sound;
    ProductFits(row.basePrice, op.units);
    WrapIsExactIffFits(row.basePrice * op.units);
    WrapIsExactIffFits(row.quantity - op.units);
  }

  // ---- Whole operations in 64 bits -------------------------------------------------------

  /** A statement with its movement in 64 bits. */
  function Effects64(s: State, act: Action): Result<seq<Write>> {
    match act
    case Pay(move, g, amount, ref) =>
      if amount <= 0 then Err(InvalidAmount)
      else if move.Settle? && move.settleType != TxPurchase && move.settleType != TxAuctionWin
      then Err(InvalidTransactionType)
      else if !Has(s.pouches, g) then Err(NotFound)
      else (
        match Moved64(s.pouches[g], move, amount)
        case Err(e) => Err(e)
        case Ok(p) =>
          match Refusal(s, PutPouch(g, p))
          case Some(e) => Err(e)
          case None => Ok([PutPouch(g, p), AppendLog(EntryOf(act))]))
    case _ => Effects(s, act)
  }

  function RunActions64(s: State, acts: seq<Action>): Result<State>
    decreases |acts|
  {
    if acts == [] then Ok(s)
    else
      match Effects64(s, acts[0])
      case Err(e) => Err(e)
      case Ok(ws) => RunActions64(ApplyAll(s, ws), acts[1..])
  }

  function PlanBid64(s: State, op: Op, a: AuctionId): Result<seq<Action>>
    requires op.PlaceBid?
  {
    if !Has(s.auctions, a) then Err(NotFound)
    else
      var auction := s.auctions[a];
      if auction.status != Active then Err(AuctionNotActive)
      else if op.now > auction.end then Err(AuctionExpired)
      else if op.amount < MinRequired64(s, a) then Err(BidTooLow)
      else Ok([Pay(Reserve(op.at), op.guild, op.amount, OfAuction(a)),
               Do(AppendBid(Bid(a, op.guild, op.amount, BidActive)))]
              + if auction.end - op.now <= BID_EXTENSION_WINDOW
                then [Do(PutAuction(a, auction.status, auction.end + BID_EXTENSION_AMOUNT))]
                else [])
  }

  function PlanPurchase64(s: State, op: Op, l: ListingId): Result<seq<Action>>
    requires op.Purchase?
  {
    if !Has(s.listings, l) then Err(NotFound)
    else
      var listing := s.listings[l];
      var key := InvKey(listing.guild, op.item);
      if key !in s.inventories then Err(NotFound)
      else if listing.status != ListingActive then Err(ListingNotActive)
      else if listing.quantity < op.units then Err(InsufficientQuantity)
      else if s.inventories[key] < op.units then Err(InsufficientQuantity)
      else
        var total := Mul64(listing.basePrice, op.units);
        var left := Sub64(listing.quantity, op.units);
        Ok([Pay(Reserve(op.at), op.buyer, total, OfListing(l)),
            Pay(Settle(TxPurchase, op.paidAt), op.buyer, total, OfListing(l)),
            Pay(Credit, listing.guild, total, OfListing(l)),
            Do(PutListing(l, left, if left == 0 then ListingExpired else listing.status)),
            Do(PutInventory(key, Sub64(s.inventories[key], op.units)))])
  }

  /** The whole transaction with every sum, difference and product of money or stock in 64 bits. */
  function Exec64(s: State, op: Op): Result<State> {
    match PreRead(s, op)
    case Err(e) => Err(e)
    case Ok(target) =>
      var plan := if op.PlaceBid? then PlanBid64(s, op, target)
                  else if op.Purchase? then PlanPurchase64(s, op, target)
                  else PlanAt(s, op, target);
      match plan
      case Err(e) => Err(e)
      case Ok(acts) => RunActions64(s, acts)
  }

  function Run64(s: State, ops: seq<Op>): State
    decreases |ops|
  {
    if ops == [] then s
    else Run64(match Exec64(s, ops[0]) case Ok(s') => s' case Err(_) => s, ops[1..])
  }

  /** The amount or quantity the client sends is a Go `int`. */
  predicate ClientFits(op: Op) {
    && (op.PlaceBid? ==> FitsInt64(op.amount))
    && (op.Purchase? ==> FitsInt64(op.units))
  }

  ghost predicate PouchRows(s: State) {
    forall g :: 0 <= g < |s.pouches| ==> PouchRowOk(s.pouches[g])
  }

  /** Amounts are 64-bit values, and credited ones 32-bit values. */
  predicate SmallAmounts(acts: seq<Action>) {
    forall i :: 0 <= i < |acts| && acts[i].Pay? ==>
                  FitsInt64(acts[i].amount) && (acts[i].move.Credit? ==> acts[i].amount <= MAX_INT32)
  }

  lemma EffectsNeverWrap(s: State, act: Action)
    requires PouchRows(s) && (act.Pay? ==> FitsInt64(act.amount))
    requires act.Pay? && act.move.Credit? ==> act.amount <= MAX_INT32
    ensures Effects64(s, act) == Effects(s, act)
    ensures Perform(s, act).Ok? ==> PouchRows(Perform(s, act).value)
  {
    if act.Pay? {
      if act.amount > 0 && Has(s.pouches, act.guild) {
        MovementsNeverWrap(s.pouches[act.guild], act.move, act.amount);
      }
      hide Moved, Moved64;
      PerformPay(s, act);
    } else if Perform(s, act).Ok? {
      OnlyPayTouchesLedger(s, act);
    }
  }

  lemma {:induction false} StatementsNeverWrap(s: State, acts: seq<Action>)
    requires PouchRows(s) && SmallAmounts(acts)
    ensures RunActions64(s, acts) == RunActions(s, acts)
    decreases |acts|
  {
    hide Effects, Effects64, PouchRows;
    if acts != [] {
      EffectsNeverWrap(s, acts[0]);
      if Perform(s, acts[0]).Ok? {
        assert forall i :: 0 <= i < |acts[1..]| ==> acts[1..][i] == acts[i + 1];
        StatementsNeverWrap(Perform(s, acts[0]).value, acts[1..]);
      }
    }
  }

  lemma {:induction false} ReleasesAreSmall(bids: seq<Bid>, a: AuctionId, winner: BidId, from: nat)
    requires from <= |bids| && forall i :: 0 <= i < |bids| ==> 0 < bids[i].amount <= MAX_INT32
    ensures SmallAmounts(ReleaseLosers(bids, a, winner, from))
    decreases |bids| - from
  {
    if from < |bids| {
      ReleasesAreSmall(bids, a, winner, from + 1);
    }
  }

  lemma BidsAreSmall(s: State)
    requires Books(s)
    ensures PouchRows(s) && forall i :: 0 <= i < |s.bids| ==> 0 < s.bids[i].amount <= MAX_INT32
  {
    forall i | 0 <= i < |s.bids| ensures 0 < s.bids[i].amount <= MAX_INT32 {
      assert BidRowOk(s, s.bids[i]) && PouchRowOk(s.pouches[s.bids[i].guild]);
    }
  }

  lemma AuctionPlansAreSmall(s: State, op: Op)
    requires !op.Purchase? && ClientFits(op) && Plan(s, op).Ok?
    requires forall i :: 0 <= i < |s.bids| ==> 0 < s.bids[i].amount <= MAX_INT32
    ensures SmallAmounts(Plan(s, op).value)
  {
    if op.SettleAuction? && Highest(s, op.auction).Some? {
      ReleasesAreSmall(s.bids, op.auction, Highest(s, op.auction).value, 0);
    }
  }

  /** After the reservation the total of a purchase is known to fit 32 bits. */
  lemma {:induction false} PurchaseStatementsNeverWrap(s: State, op: Op, l: ListingId)
    requires PouchRows(s) && op.Purchase? && PlanPurchase(s, op, l).Ok?
    requires FitsInt64(s.listings[l].basePrice * op.units)
    ensures RunActions64(s, PlanPurchase(s, op, l).value) == RunActions(s, PlanPurchase(s, op, l).value)
  {
    var acts := PlanPurchase(s, op, l).value;
    EffectsNeverWrap(s, acts[0]);
    if Perform(s, acts[0]).Ok? {
      PerformPay(s, acts[0]);
      assert PouchRowOk(s.pouches[op.buyer]);
      assert SmallAmounts(acts[1..]) by {
        assert acts[1..] == [acts[1], acts[2], acts[3], acts[4]];
      }
      hide PouchRows, PlanPurchase, Perform, Moved;
      StatementsNeverWrap(Perform(s, acts[0]).value, acts[1..]);
    }
  }

  lemma PlansNeverWrap(s: State, op: Op, target: int)
    requires Sound(s) && ClientFits(op) && PreRead(s, op) == Ok(target)
    ensures op.PlaceBid? ==> PlanBid64(s, op, target) == PlanBid(s, op, target)
    ensures op.Purchase? ==> PlanPurchase64(s, op, target) == PlanPurchase(s, op, target)
    ensures op.Purchase? && PlanPurchase(s, op, target).Ok? ==>
              FitsInt64(s.listings[target].basePrice * op.units)
  {
    if op.PlaceBid? {
      BidFloorNeverWraps(s, target);
    } else if op.Purchase? && PlanPurchase(s, op, target).Ok? {
      var row := s.listings[target];
      PurchaseNeverWraps(s, op, target);
      assert ListingOk(s, row, s.openingStock[target]);
      hide Sound;
      ProductFits(row.basePrice, op.units);
      WrapIsExactIffFits(s.inventories[InvKey(row.guild, op.item)] - op.units);
    }
  }

  /** From a sound state no operation's arithmetic wraps, whatever 64-bit amount or quantity the client
      sent: the transaction does in 64 bits exactly what it does in unbounded arithmetic. */
  lemma ExecNeverWraps(s: State, op: Op)
    requires Sound(s) && ClientFits(op)
    ensures Exec64(s, op) == Exec(s, op)
  {
    if PreRead(s, op).Ok? {
      var target := PreRead(s, op).value;
      PlansNeverWrap(s, op, target);
      BidsAreSmall(s);
      hide Sound, PouchRows, RunActions, RunActions64, PlanBid64, PlanPurchase64;
      if Plan(s, op).Ok? {
        if op.Purchase? {
          PurchaseStatementsNeverWrap(s, op, target);
        } else {
          AuctionPlansAreSmall(s, op);
          StatementsNeverWrap(s, Plan(s, op).value);
        }
      }
    }
  }

  /** So neither does that of any run. */
  lemma {:induction false} RunNeverWraps(s: State, ops: seq<Op>)
    requires Sound(s) && forall i :: 0 <= i < |ops| ==> ClientFits(ops[i])
    ensures Run64(s, ops) == Run(s, ops)
    decreases |ops|
  {
    hide Sound, Exec, Exec64, ClientFits;
    if ops != [] {
      ExecNeverWraps(s, ops[0]);
      StepKeepsSound(s, ops[0]);
      assert forall i :: 0 <= i < |ops[1..]| ==> ops[1..][i] == ops[i + 1];
      RunNeverWraps(Step(s, ops[0]), ops[1..]);
    }
  }

  // ---- Durations -------------------------------------------------------------------------

  const LONGEST_SECONDS: int := 9_223_372_036

  /** The last auction row. */
  function Newest(s: State): Auction
    requires s.auctions != []
  {
    s.auctions[|s.auctions| - 1]
  }

  /** An accepted auction ends the requested number of seconds after it starts if and only if the request
      is at most 9223372036 seconds (about 292 years), and otherwise ends earlier than asked. */
  lemma DurationIsHonouredIff(s: State, op: Op)
    requires op.CreateAuction? && Exec(s, op).Ok?
    ensures var s' := Exec(s, op).value;
            && |s'.auctions| == |s.auctions| + 1
            && Newest(s').end - Newest(s').start <= op.seconds * SECOND
            && (Newest(s').end - Newest(s').start == op.seconds * SECOND <==> op.seconds <= LONGEST_SECONDS)
  {
    CreateAuctionAcceptedIff(s, op);
    WrapIsExactIffFits(op.seconds * SECOND);
    hide Wrap64, Exec;
    WrapNeverGrows(op.seconds * SECOND);
  }

  lemma WrapNeverGrows(x: int)
    requires x >= 0
    ensures Wrap64(x) <= x
  {
  }

  /** Nothing but its duration stands in the way of the request. */
  predicate OtherwiseAdmissible(s: State, op: Op)
    requires op.CreateAuction?
  {
    && IsLegendary(s, op.item) && InvKey(op.owner, op.item) in s.inventories
    && !UnderAuction(s.auctions, op.item)
    && 0 <= (if op.cachedPrice.Some? then op.cachedPrice.value else s.items[op.item].price) <= MAX_INT32
  }

  /** A request that is otherwise in order and asks for more than that is refused, as if the auction
      existed already, exactly when its wrapped length is not positive. */
  lemma LongDurationRefusedIff(s: State, op: Op)
    requires op.CreateAuction? && OtherwiseAdmissible(s, op) && op.seconds > LONGEST_SECONDS
    ensures Exec(s, op).Err? <==> Wrap64(op.seconds * SECOND) <= 0
    ensures Exec(s, op).Err? ==> Exec(s, op).error == AuctionAlreadyExists
  {
    CreateAuctionAcceptedIff(s, op);
    if Exec(s, op).Err? {
      RunOne(s, PlanAuction(s, op).value[0]);
      PerformDo(s, PlanAuction(s, op).value[0].write);
    }
  }

  /** Both happen: the first duration past the limit is refused, and 18446744074 seconds are accepted and
      last less than a third of one. */
  lemma LongDurationWraps(s: State, op: Op)
    requires op.CreateAuction? && OtherwiseAdmissible(s, op)
    ensures op.seconds == LONGEST_SECONDS + 1 ==> Exec(s, op) == Err(AuctionAlreadyExists)
    ensures op.seconds == 18_446_744_074 ==>
              && Exec(s, op).Ok? && |Exec(s, op).value.auctions| == |s.auctions| + 1
              && 0 < Newest(Exec(s, op).value).end - Newest(Exec(s, op).value).start < SECOND / 3
  {
    if op.seconds > LONGEST_SECONDS {
      LongDurationRefusedIff(s, op);
      CreateAuctionAcceptedIff(s, op);
      hide Exec, OtherwiseAdmissible;
    }
  }
}
