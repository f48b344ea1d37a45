/** What each movement of the escrow ledger does to one pouch row
    (internal/service/goldpouch_service.go), and the wallet view of it
    (internal/service/wallet_service.go). */
module GoldPouch {
  import opened Tables

  /** A movement, with the clock reading it takes. */
  datatype Move =
    | Reserve(reservedAt: Time)
    | Release
    | Settle(settleType: TxType, settledAt: Time)
    | Credit

  function KindOf(m: Move): TxType {
    match m
    case Reserve(_) => TxReserve
    case Release => TxRelease
    case Settle(kind, _) => kind
    case Credit => TxCredit
  }

  function DayOf(m: Move): Option<int> {
    match m
    case Reserve(at) => Some(UtcDay(at))
    case Settle(_, at) => Some(UtcDay(at))
    case _ => None
  }

  /** The lazy daily reset. */
  function Refreshed(p: Pouch, day: int): Pouch {
    if p.lastReset != day then p.(spent := 0, lastReset := day) else p
  }

  /** The row a movement leaves behind, or the reason it is refused. */
  function Moved(p: Pouch, m: Move, amount: int): Result<Pouch> {
    match m
    case Reserve(at) =>
      if p.Usable() < amount then Err(InsufficientBalance)
      else
        var q := Refreshed(p, UtcDay(at));
        if q.spent + amount > q.limit then Err(DailyLimitExceeded)
        else Ok(q.(reserved := q.reserved + amount))
    case Release =>
      if p.reserved < amount then Err(InsufficientReserved)
      else Ok(p.(reserved := p.reserved - amount))
    case Settle(_, at) =>
      if p.reserved < amount then Err(InsufficientReserved)
      else
        var q := Refreshed(p, UtcDay(at));
        if q.spent + amount > q.limit then Err(DailyLimitExceeded)
        else Ok(q.(total := q.total - amount, reserved := q.reserved - amount, spent := q.spent + amount))
    case Credit => Ok(p.(total := p.total + amount))
  }

  predicate InDay(t: Time, k: int) {
    k * 86_400_000_000_000 <= t < (k + 1) * 86_400_000_000_000
  }

  /** Two readings are of the same UTC day if and only if they lie in one block of 24 hours, counted in
      nanoseconds from the epoch. */
  lemma SameUtcDayIff(t: Time, u: Time)
    ensures UtcDay(t) == UtcDay(u) <==> exists k :: InDay(t, k) && InDay(u, k)
  {
    assert InDay(t, UtcDay(t)) && InDay(u, UtcDay(u));
  }

  // ---- Wallet ----------------------------------------------------------------------------

  datatype WalletView = WalletView(guild: GuildId, total: int, reserved: int, usable: int, limit: int, spentToday: int)

  function GetWallet(pouches: seq<Pouch>, g: GuildId, now: Time): Result<WalletView> {
    if !Has(pouches, g) then Err(GuildNotFound)
    else
      var p := pouches[g];
      var spentToday := if p.lastReset != UtcDay(now) then 0 else p.spent;
      Ok(WalletView(g, p.total, p.reserved, p.Usable(), p.limit, spentToday))
  }

  /** What the wallet displays decides exactly whether a reservation is accepted that day. */
  lemma ReserveAcceptedIffWalletAffords(pouches: seq<Pouch>, g: GuildId, amount: int, at: Time)
    requires Has(pouches, g)
    ensures var view := GetWallet(pouches, g, at).value;
            Moved(pouches[g], Reserve(at), amount).Ok?
            <==> amount <= view.usable && view.spentToday + amount <= view.limit
  {
  }

  /** A settlement of the same amount right after a reservation never fails, whatever the day it
      is read on, and together they take exactly the amount out of the total. */
  lemma SettleAfterReserveSucceeds(p: Pouch, amount: int, at: Time, kind: TxType, at': Time)
    requires PouchRowOk(p) && amount > 0
    requires Moved(p, Reserve(at), amount).Ok?
    ensures var held := Moved(p, Reserve(at), amount).value;
            var paid := Moved(held, Settle(kind, at'), amount);
            && PouchRowOk(held)
            && paid.Ok? && PouchRowOk(paid.value)
            && paid.value.total == p.total - amount
            && paid.value.reserved == p.reserved
            && paid.value.limit == p.limit
            && paid.value.lastReset == UtcDay(at')
            && paid.value.spent == amount + GetWallet([held], 0, at').value.spentToday
  {
  }

  /** The daily cap needs a clock that does not step back: a charge dated a day earlier in between
      lets a limit of 10 be charged twice on day 1. */
  lemma SteppingBackEvadesTheLimit()
    ensures var p := Pouch(100, 30, 10, 0, 1);
            var first := Moved(p, Settle(TxPurchase, DAY), 10);
            && first.Ok?
            && Moved(first.value, Settle(TxPurchase, DAY), 10) == Err(DailyLimitExceeded)
            && var between := Moved(first.value, Settle(TxPurchase, 0), 10);
               between.Ok? && Moved(between.value, Settle(TxPurchase, DAY), 10).Ok?
  {
  }

  /** A release undoes a reservation, up to the daily reset the reservation may have written. */
  lemma ReleaseUndoesReserve(p: Pouch, amount: int, at: Time)
    requires Moved(p, Reserve(at), amount).Ok?
    requires 0 <= p.reserved
    ensures Moved(Moved(p, Reserve(at), amount).value, Release, amount) == Ok(Refreshed(p, UtcDay(at)))
  {
  }
}
