/** Which answer a request gets.  From sound tables every refusal happens exactly under its own
    condition, stated without the checks' order, and no request gets any other answer. */
module Answers {
  import opened Tables
  import opened GoldPouch
  import opened Operations
  import opened Ledger
  import opened Bidding
  import opened Holdings
  import opened Settlement
  import opened Sales
  import opened Market

  // ---- Wallets ---------------------------------------------------------------------------

  /** The guild's wallet shows enough usable gold for the amount. */
  predicate WalletHolds(s: State, g: GuildId, amount: int) {
    Has(s.pouches, g) && amount <= s.pouches[g].total - s.pouches[g].reserved
  }

  /** The wallet shows room for the amount under the limit of the day. */
  predicate WalletAllows(s: State, g: GuildId, amount: int, at: Time) {
    && Has(s.pouches, g)
    && (if s.pouches[g].lastReset == UtcDay(at) then s.pouches[g].spent else 0) + amount <= s.pouches[g].limit
  }

  lemma AffordsIff(s: State, g: GuildId, amount: int, at: Time)
    requires amount > 0
    ensures Affords(s, g, amount, at) <==> WalletHolds(s, g, amount) && WalletAllows(s, g, amount, at)
  {
  }

  /** Every movement's answer on one row. */
  lemma MovementAnswers(p: Pouch, m: Move, amount: int)
    ensures Moved(p, m, amount) == Err(InsufficientBalance) <==> m.Reserve? && p.total - p.reserved < amount
    ensures Moved(p, m, amount) == Err(InsufficientReserved) <==> (m.Release? || m.Settle?) && p.reserved < amount
    ensures Moved(p, m, amount) == Err(DailyLimitExceeded)
            <==> || (m.Reserve? && amount <= p.total - p.reserved && !DayHasRoom(p, amount, m.reservedAt))
                 || (m.Settle? && amount <= p.reserved && !DayHasRoom(p, amount, m.settledAt))
    ensures Moved(p, m, amount).Err? ==>
              Moved(p, m, amount).error in {InsufficientBalance, InsufficientReserved, DailyLimitExceeded}
  {
    hide UtcDay;
  }

  /** Every answer of the pouch service, asked for any movement of any amount. */
  lemma PaymentAnswers(s: State, act: Action)
    requires act.Pay?
    ensures var r := Perform(s, act);
            var typed := act.move.Settle? ==> act.move.settleType in {TxPurchase, TxAuctionWin};
            var found := act.amount > 0 && typed && Has(s.pouches, act.guild);
            && (r == Err(InvalidAmount) <==> act.amount <= 0)
            && (r == Err(InvalidTransactionType) <==> act.amount > 0 && !typed)
            && (r == Err(NotFound) <==> act.amount > 0 && typed && !Has(s.pouches, act.guild))
            && (found ==>
                  var m := Moved(s.pouches[act.guild], act.move, act.amount);
                  && (m.Err? ==> r == Err(m.error))
                  && (m.Ok? && !PouchRowOk(m.value) ==> r == Err(ConstraintViolation))
                  && (m.Ok? && PouchRowOk(m.value) ==> r.Ok?))
  {
    PerformPay(s, act);
    if act.amount > 0 && Has(s.pouches, act.guild) {
      MovementAnswers(s.pouches[act.guild], act.move, act.amount);
    }
    hide UtcDay, ApplyAll, Moved;
  }

  predicate DayHasRoom(p: Pouch, amount: int, at: Time) {
    (if p.lastReset == UtcDay(at) then p.spent else 0) + amount <= p.limit
  }

  /** The answer of a reservation that the tables refuse. */
  lemma ReserveAnswers(s: State, g: GuildId, amount: int, at: Time, ref: Reference)
    requires Accounts(s) && amount > 0
    ensures var r := Perform(s, Pay(Reserve(at), g, amount, ref));
            && (r == Err(NotFound) <==> !Has(s.pouches, g))
            && (r == Err(InsufficientBalance) <==> Has(s.pouches, g) && !WalletHolds(s, g, amount))
            && (r == Err(DailyLimitExceeded) <==> WalletHolds(s, g, amount) && !WalletAllows(s, g, amount, at))
            && (r.Ok? <==> WalletHolds(s, g, amount) && WalletAllows(s, g, amount, at))
  {
    ReservePerforms(s, g, amount, at, ref);
    AffordsIff(s, g, amount, at);
    if Has(s.pouches, g) {
      MovementAnswers(s.pouches[g], Reserve(at), amount);
      assert PouchRowOk(s.pouches[g]);
    }
    hide Accounts, Moved, UtcDay;
  }

  /** A list of statements gives the answer of its first one, if that is refused. */
  lemma {:induction false} FirstRefusal(s: State, acts: seq<Action>)
    requires acts != [] && Perform(s, acts[0]).Err?
    ensures RunActions(s, acts) == Err(Perform(s, acts[0]).error)
  {
  }

  // ---- Placing a bid ---------------------------------------------------------------------

  predicate NothingLive(s: State, item: ItemId) {
    forall a :: 0 <= a < |s.auctions| ==> !LiveOn(s, a, item)
  }

  /** A bid on an item that is not under auction. */
  lemma BidWithoutAuctionAnswers(s: State, op: Op)
    requires op.PlaceBid? && NothingLive(s, op.item)
    ensures Exec(s, op) == Err(if op.amount <= 0 then InvalidAmount else AuctionNotFound)
  {
    var found := ActiveAuction(s.auctions, op.item, |s.auctions|);
    assert found.Some? ==> LiveOn(s, found.value, op.item);
  }

  /** A bid by a guild other than the seller, of a positive amount. */
  predicate BidAdmitted(s: State, op: Op, a: AuctionId)
    requires op.PlaceBid? && Has(s.auctions, a)
  {
    op.amount > 0 && op.guild != s.auctions[a].owner
  }

  /** A bid on live auction `a`: each refusal exactly when it should be. */
  lemma BidAnswers(s: State, op: Op, a: AuctionId)
    requires op.PlaceBid? && Sound(s) && LiveOn(s, a, op.item)
    ensures var r, row := Exec(s, op), s.auctions[a];
            var inTime := BidAdmitted(s, op, a) && op.now <= row.end;
            var highEnough := inTime && MeetsFloor(s, a, op.amount);
            && (r == Err(InvalidAmount) <==> op.amount <= 0)
            && (r == Err(SelfBidNotAllowed) <==> op.amount > 0 && op.guild == row.owner)
            && (r == Err(AuctionExpired) <==> BidAdmitted(s, op, a) && row.end < op.now)
            && (r == Err(BidTooLow) <==> inTime && !MeetsFloor(s, a, op.amount))
            && (r == Err(NotFound) <==> highEnough && !Has(s.pouches, op.guild))
            && (r == Err(InsufficientBalance)
                <==> highEnough && Has(s.pouches, op.guild) && !WalletHolds(s, op.guild, op.amount))
            && (r == Err(DailyLimitExceeded)
                <==> highEnough && WalletHolds(s, op.guild, op.amount) && !WalletAllows(s, op.guild, op.amount, op.at))
            && (r.Ok? <==> highEnough && WalletHolds(s, op.guild, op.amount)
                           && WalletAllows(s, op.guild, op.amount, op.at))
  {
    ActiveAuctionIsUnique(s, a);
    FloorIsExact(s, a, op.amount);
    BidAcceptedIff(s, op, a);
    if op.amount > 0 {
      AffordsIff(s, op.guild, op.amount, op.at);
      ReserveAnswers(s, op.guild, op.amount, op.at, OfAuction(a));
    }
    hide Sound, MeetsFloor, Affords, WalletHolds, WalletAllows, MinRequired, RunActions, Perform;
    if PlanBid(s, op, a).Ok? {
      var acts := PlanBid(s, op, a).value;
      if Perform(s, acts[0]).Err? {
        FirstRefusal(s, acts);
      }
    }
  }

  // ---- Cancelling a bid ------------------------------------------------------------------

  /** The bid exists and is on an auction of the named item. */
  predicate OnItem(s: State, op: Op)
    requires op.CancelBid?
  {
    && Has(s.bids, op.bid) && Has(s.auctions, s.bids[op.bid].auction)
    && s.auctions[s.bids[op.bid].auction].item == op.item
  }

  /** It is the caller's, and its auction is live. */
  predicate OwnLive(s: State, op: Op)
    requires op.CancelBid?
  {
    OnItem(s, op) && s.bids[op.bid].guild == op.guild && s.auctions[s.bids[op.bid].auction].status == Active
  }

  lemma CancelAnswers(s: State, op: Op)
    requires op.CancelBid? && Sound(s)
    ensures var r := Exec(s, op);
            && (r == Err(BidNotFound) <==> !OnItem(s, op))
            && (r == Err(NotBidOwner) <==> OnItem(s, op) && s.bids[op.bid].guild != op.guild)
            && (r == Err(AuctionNotActive)
                <==> OnItem(s, op) && s.bids[op.bid].guild == op.guild
                     && s.auctions[s.bids[op.bid].auction].status == Expired)
            && (r == Err(BidNotActive) <==> OwnLive(s, op) && s.bids[op.bid].status != BidActive)
            && (r == Err(BidIsHighest)
                <==> OwnLive(s, op) && s.bids[op.bid].status == BidActive && IsLast(s.bids, op.bid))
            && (r.Ok? <==> OwnLive(s, op) && s.bids[op.bid].status == BidActive && !IsLast(s.bids, op.bid))
  {
    CancelAcceptedIff(s, op);
    if Has(s.bids, op.bid) {
      assert BidRowOk(s, s.bids[op.bid]);
      var a := s.bids[op.bid].auction;
      if s.auctions[a].status == Active {
        HighestIsLast(s, a);
        LastIsLast(s.bids, op.bid);
      }
    }
    hide Sound, IsLast, LastBid, HighestActive, RunActions;
  }

  // ---- Settling --------------------------------------------------------------------------

  /** The winner of a settlement that finds the auction ended. */
  predicate Wins(s: State, op: Op, w: BidId)
    requires op.SettleAuction?
  {
    Ended(s, op.auction, op.now) && Last(s, op.auction) == Some(w)
  }

  /** The settlement of an auction that has a last bid. */
  lemma WinnerAnswers(s: State, op: Op, w: BidId)
    requires op.SettleAuction? && Sound(s) && Wins(s, op, w)
    ensures Has(s.pouches, s.auctions[op.auction].owner)
    ensures var r, b := Exec(s, op), s.bids[w];
            var overflows := 2_147_483_647 < s.pouches[s.auctions[op.auction].owner].total + b.amount;
            && (r == Err(DailyLimitExceeded) <==> !WalletAllows(s, b.guild, b.amount, op.at))
            && (r == Err(ConstraintViolation) <==> WalletAllows(s, b.guild, b.amount, op.at) && overflows)
            && (r.Ok? <==> WalletAllows(s, b.guild, b.amount, op.at) && !overflows)
  {
    var a, at := op.auction, op.at;
    LastCanWin(s, a, w);
    hide Sound, CanWin, LastBid, HighestActive, WonBy, PayOut, ReleaseLosers, Perform, Refreshed, UtcDay, RunActions;
    SettleAcceptedIff(s, op);
    PayAnswers(s, a, w, at);
    PayOutStarts(s, a, w, at);
    var acts := PayOut(s, a, w, at) + ReleaseLosers(s.bids, a, w, 0) + [Do(PutAuction(a, Expired, s.auctions[a].end))];
    assert PlanSettle(s, op, a) == Ok(acts);
    hide PlanSettle;
    TwoRefusals(s, acts);
  }

  lemma LastCanWin(s: State, a: AuctionId, w: BidId)
    requires Sound(s) && Has(s.auctions, a) && s.auctions[a].status == Active && Last(s, a) == Some(w)
    ensures CanWin(s, a, w) && Highest(s, a) == Some(w)
  {
    LiveHighestIsLast(s, a);
    hide Books, Standing, Owned;
  }

  lemma PayOutStarts(s: State, a: AuctionId, w: BidId, at: Time)
    requires Has(s.auctions, a) && Has(s.bids, w)
    ensures var pay := PayOut(s, a, w, at);
            |pay| == 5 && pay[0] == WinnerPays(s, a, w, at) && pay[1] == SellerGets(s, a, w)
  {
  }

  /** The first two statements of a payout. */
  lemma PayAnswers(s: State, a: AuctionId, w: BidId, at: Time)
    requires CanWin(s, a, w)
    ensures BidRowOk(s, s.bids[w]) && Has(s.pouches, s.auctions[a].owner)
    ensures LimitCovers(s, s.bids[w].guild, s.bids[w].amount, at)
            <==> WalletAllows(s, s.bids[w].guild, s.bids[w].amount, at)
    ensures var r := Perform(s, WinnerPays(s, a, w, at));
            && (r.Ok? <==> LimitCovers(s, s.bids[w].guild, s.bids[w].amount, at))
            && (r.Err? ==> r.error == DailyLimitExceeded)
            && (r.Ok? ==>
                  var r' := Perform(r.value, SellerGets(s, a, w));
                  && (r'.Ok? <==> CreditFits(s, s.auctions[a].owner, s.bids[w].amount))
                  && (r'.Err? ==> r'.error == ConstraintViolation))
  {
    WinnerRows(s, a, w);
    WinnerPaysIff(s, a, w, at);
    hide Books, Owned;
    MovementAnswers(s.pouches[s.bids[w].guild], Settle(TxAuctionWin, at), s.bids[w].amount);
    if LimitCovers(s, s.bids[w].guild, s.bids[w].amount, at) {
      PerformPay(s, WinnerPays(s, a, w, at));
      SellerGetsIff(s, a, w, at);
    }
  }

  /** If one of the first two statements is refused, that is the answer. */
  lemma {:induction false} TwoRefusals(s: State, acts: seq<Action>)
    requires |acts| >= 2
    ensures Perform(s, acts[0]).Err? ==> RunActions(s, acts) == Err(Perform(s, acts[0]).error)
    ensures Perform(s, acts[0]).Ok? && Perform(Perform(s, acts[0]).value, acts[1]).Err? ==>
              RunActions(s, acts) == Err(Perform(Perform(s, acts[0]).value, acts[1]).error)
  {
    hide Perform;
    if Perform(s, acts[0]).Ok? {
      assert acts[1..][0] == acts[1];
      assert RunActions(s, acts) == RunActions(Perform(s, acts[0]).value, acts[1..]);
    }
  }

  /** Any other settlement request. */
  lemma SettleAnswers(s: State, op: Op)
    requires op.SettleAuction? && Sound(s)
    ensures Exec(s, op) == Err(NotFound) <==> !Has(s.auctions, op.auction)
    ensures Exec(s, op) == Err(NotEligible) <==> Has(s.auctions, op.auction) && !Ended(s, op.auction, op.now)
    ensures Ended(s, op.auction, op.now) && Last(s, op.auction).None? ==> Exec(s, op).Ok?
  {
    SettleAcceptedIff(s, op);
    if Ended(s, op.auction, op.now) && Last(s, op.auction).Some? {
      WinnerAnswers(s, op, Last(s, op.auction).value);
    }
    hide Sound, LastBid, HighestActive, RunActions, LimitCovers;
  }

  // ---- Purchasing ------------------------------------------------------------------------

  predicate NothingListed(s: State, item: ItemId) {
    forall l :: 0 <= l < |s.listings| ==> !LiveListing(s, l, item)
  }

  /** A purchase of an item with no live listing; LEGENDARY items never have one. */
  lemma PurchaseWithoutListingAnswers(s: State, op: Op)
    requires op.Purchase? && Sound(s) && NothingListed(s, op.item)
    ensures Exec(s, op) == Err(if op.units <= 0 then InvalidQuantity
                               else if !Has(s.items, op.item) then ItemNotFound
                               else ListingNotActive)
  {
    var found := ActiveListing(s.listings, op.item, |s.listings|);
    assert found.Some? ==> LiveListing(s, found.value, op.item);
    hide Sound;
  }

  lemma LegendaryIsNotListed(s: State, item: ItemId)
    requires Sound(s) && IsLegendary(s, item)
    ensures NothingListed(s, item)
  {
    forall l | 0 <= l < |s.listings| ensures !LiveListing(s, l, item) {
      assert ListingOk(s, s.listings[l], s.openingStock[l]);
    }
  }

  /** A purchase from live listing `l`. */
  lemma PurchaseAnswers(s: State, op: Op, l: ListingId)
    requires op.Purchase? && Sound(s) && LiveListing(s, l, op.item)
    ensures Has(s.pouches, s.listings[l].guild)
    ensures var r, row := Exec(s, op), s.listings[l];
            var inStock, cost := 0 < op.units <= row.quantity, row.basePrice * op.units;
            var pays := inStock && WalletHolds(s, op.buyer, cost) && WalletAllows(s, op.buyer, cost, op.at);
            var overflows := op.buyer != row.guild && 2_147_483_647 < s.pouches[row.guild].total + cost;
            && (r == Err(InvalidQuantity) <==> op.units <= 0)
            && (r == Err(InsufficientQuantity) <==> row.quantity < op.units)
            && (r == Err(NotFound) <==> inStock && !Has(s.pouches, op.buyer))
            && (r == Err(InsufficientBalance)
                <==> inStock && Has(s.pouches, op.buyer) && !WalletHolds(s, op.buyer, cost))
            && (r == Err(DailyLimitExceeded)
                <==> inStock && WalletHolds(s, op.buyer, cost) && !WalletAllows(s, op.buyer, cost, op.at))
            && (r == Err(ConstraintViolation) <==> pays && overflows)
            && (r.Ok? <==> pays && !overflows)
  {
    ActiveListingIsUnique(s, l);
    assert ListingOk(s, s.listings[l], s.openingStock[l]);
    PurchaseAcceptedIff(s, op, l);
    if 0 < op.units <= s.listings[l].quantity {
      assert CanBuy(s, op, l);
      TotalPositive(s, op, l);
      AffordsIff(s, op.buyer, Total(s, op, l), op.at);
      ReserveAnswers(s, op.buyer, Total(s, op, l), op.at, OfListing(l));
      if Affords(s, op.buyer, Total(s, op, l), op.at) {
        CreditRefused(s, op, l);
      }
      var acts := PlanPurchase(s, op, l).value;
      assert acts[0] == BuyerReserves(s, op, l);
      hide Sound, WalletHolds, WalletAllows, Affords, RunActions, Perform, CanBuy;
      if Perform(s, acts[0]).Err? {
        FirstRefusal(s, acts);
      }
    }
    hide Sound, WalletHolds, WalletAllows, RunActions, Perform;
  }

  /** Once the buyer has paid, only the seller's column can refuse the purchase. */
  lemma {:induction false} CreditRefused(s: State, op: Op, l: ListingId)
    requires CanBuy(s, op, l) && Affords(s, op.buyer, Total(s, op, l), op.at)
    ensures !SaleFits(s, op.buyer, s.listings[l].guild, Total(s, op, l)) ==>
              RunActions(s, PlanPurchase(s, op, l).value) == Err(ConstraintViolation)
  {
    var acts := PlanPurchase(s, op, l).value;
    BuyerSide(s, op, l);
    SellerEarnsIff(s, op, l);
    TotalPositive(s, op, l);
    var front := [BuyerReserves(s, op, l), BuyerPays(s, op, l)];
    assert acts == front + acts[2..] && acts[2..][0] == SellerEarns(s, op, l);
    var paid := Paid(Paid(s, BuyerReserves(s, op, l)), BuyerPays(s, op, l));
    CreditAnswer(paid, SellerEarns(s, op, l));
    hide Books, Owned, CanBuy, PlanPurchase, Perform, Total;
    RunConcat(s, front, acts[2..]);
    if Perform(paid, SellerEarns(s, op, l)).Err? {
      FirstRefusal(paid, acts[2..]);
    }
  }

  lemma CreditAnswer(s: State, act: Action)
    requires act.Pay? && act.move.Credit? && act.amount > 0 && Has(s.pouches, act.guild)
    ensures Perform(s, act).Err? ==> Perform(s, act).error == ConstraintViolation
  {
  }

  // ---- Creating items and auctions -------------------------------------------------------

  /** The request is of a kind and price that can be listed, or needs no listing. */
  predicate Priced(op: Op)
    requires op.CreateItem?
  {
    && op.rarity.Some? && op.price.Some? && op.price.value >= 0
    && (op.rarity != Some(Legendary) ==> op.price.value > 0)
  }

  predicate Stocked(op: Op)
    requires op.CreateItem?
  {
    op.rarity == Some(Legendary) || (op.quantity.Some? && op.quantity.value > 0)
  }

  lemma CreateItemAnswers(s: State, op: Op)
    requires op.CreateItem? && Sound(s)
    ensures var r, g := Exec(s, op), if op.forGuild.Some? then op.forGuild.value else DEFAULT_GUILD;
            var admitted := Priced(op) && Stocked(op) && Has(s.pouches, g);
            && (r == Err(InvalidRarity) <==> op.rarity.None?)
            && (r == Err(MissingPrice)
                <==> op.rarity.Some? && (op.price.None? || (op.rarity != Some(Legendary) && op.price.value == 0)))
            && (r == Err(InvalidPrice) <==> op.rarity.Some? && op.price.Some? && op.price.value < 0)
            && (r == Err(MissingQuantity) <==> Priced(op) && !Stocked(op))
            && (r == Err(GuildNotFound) <==> Priced(op) && Stocked(op) && !Has(s.pouches, g))
            && (r == Err(ForeignKeyViolation)
                <==> admitted && op.price.value <= 2_147_483_647 && !(0 <= op.forger < s.characters))
            && (r == Err(NumericOutOfRange)
                <==> admitted && (|| op.price.value > 2_147_483_647
                                  || (&& 0 <= op.forger < s.characters && op.rarity != Some(Legendary)
                                      && op.quantity.value > 2_147_483_647)))
            && (r.Err? ==> r.error in {InvalidRarity, MissingPrice, InvalidPrice, MissingQuantity, GuildNotFound,
                                       ForeignKeyViolation, NumericOutOfRange})
  {
    CreateItemAcceptedIff(s, op);
    if PlanItem(s, op).Ok? {
      assert forall k :: k in s.inventories ==> InventoryRowOk(s, k, s.inventories[k]);
      hide Sound;
      var acts := PlanItem(s, op).value;
      PerformDo(s, acts[0].write);
      if Perform(s, acts[0]).Ok? {
        PerformDo(Apply(s, acts[0].write), acts[1].write);
      }
      TwoRefusals(s, acts);
    }
  }

  lemma CreateAuctionAnswers(s: State, op: Op)
    requires op.CreateAuction?
    ensures var r := Exec(s, op);
            var held := op.seconds > 0 && Has(s.items, op.item) && InvKey(op.owner, op.item) in s.inventories;
            var price := if op.cachedPrice.Some? then op.cachedPrice.value
                         else if Has(s.items, op.item) then s.items[op.item].price else 0;
            && (r == Err(InvalidDuration) <==> op.seconds <= 0)
            && (r == Err(ItemNotFound) <==> op.seconds > 0 && !Has(s.items, op.item))
            && (r == Err(NotItemOwner)
                <==> op.seconds > 0 && Has(s.items, op.item) && InvKey(op.owner, op.item) !in s.inventories)
            && (r == Err(ItemNotLegendary) <==> held && !IsLegendary(s, op.item))
            && (r == Err(NumericOutOfRange)
                <==> held && IsLegendary(s, op.item) && !(-2_147_483_648 <= price <= 2_147_483_647))
            && (r == Err(AuctionAlreadyExists)
                <==> && held && IsLegendary(s, op.item) && -2_147_483_648 <= price <= 2_147_483_647
                     && (UnderAuction(s.auctions, op.item) || price < 0 || Wrap64(op.seconds * 1_000_000_000) <= 0))
            && (r.Err? ==> r.error in {InvalidDuration, ItemNotFound, NotItemOwner, ItemNotLegendary,
                                       NumericOutOfRange, AuctionAlreadyExists})
  {
    hide Wrap64;
    if PlanAuction(s, op).Ok? {
      var acts := PlanAuction(s, op).value;
      RunOne(s, acts[0]);
      PerformDo(s, acts[0].write);
    }
  }
}
