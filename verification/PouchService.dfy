/** The escrow ledger, updating the pouch and log tables in place
    (internal/service/goldpouch_service.go). */
module PouchService {
  import opened Tables
  import opened GoldPouch
  import opened Operations
  import opened Ledger
  import opened Database

  /** The outcome of a statement: done, or refused with nothing changed. */
  ghost predicate Outcome(before: State, act: Action, err: Option<Error>, after: State) {
    var r := Perform(before, act);
    if r.Ok? then err.None? && after == r.value else err == Some(r.error) && after == before
  }

  class GoldPouchService {
    const db: Database

    constructor (db: Database)
      ensures this.db == db
    {
      this.db := db;
    }

    /** Hold `amount` of the guild's usable gold. */
    method Reserve(guild: GuildId, amount: int, ref: Reference, at: Time) returns (err: Option<Error>)
      modifies db`pouches, db`log
      ensures Outcome(old(db.Contents()), Pay(Move.Reserve(at), guild, amount, ref), err, db.Contents())
    {
      PerformPay(db.Contents(), Pay(Move.Reserve(at), guild, amount, ref));
      if amount <= 0 {
        return Some(InvalidAmount);
      }
      if !Has(db.pouches, guild) {
        return Some(NotFound);
      }
      var gp := db.pouches[guild];
      if gp.Usable() < amount {
        return Some(InsufficientBalance);
      }
      var today := UtcDay(at);
      if gp.lastReset != today {
        gp := gp.(spent := 0, lastReset := today);
      }
      if gp.spent + amount > gp.limit {
        return Some(DailyLimitExceeded);
      }
      gp := gp.(reserved := gp.reserved + amount);
      err := db.UpdatePouch(guild, gp);
      if err.None? {
        WriteLog(guild, TxReserve, amount, ref, Some(today));
      }
    }

    /** Let go of `amount` of the guild's reserved gold. */
    method Release(guild: GuildId, amount: int, ref: Reference) returns (err: Option<Error>)
      modifies db`pouches, db`log
      ensures Outcome(old(db.Contents()), Pay(Move.Release, guild, amount, ref), err, db.Contents())
    {
      PerformPay(db.Contents(), Pay(Move.Release, guild, amount, ref));
      if amount <= 0 {
        return Some(InvalidAmount);
      }
      if !Has(db.pouches, guild) {
        return Some(NotFound);
      }
      var gp := db.pouches[guild];
      if gp.reserved < amount {
        return Some(InsufficientReserved);
      }
      gp := gp.(reserved := gp.reserved - amount);
      err := db.UpdatePouch(guild, gp);
      if err.None? {
        WriteLog(guild, TxRelease, amount, ref, None);
      }
    }

    /** Spend `amount` of the guild's reserved gold, within its daily limit. */
    method Settle(guild: GuildId, amount: int, kind: TxType, ref: Reference, at: Time) returns (err: Option<Error>)
      modifies db`pouches, db`log
      ensures Outcome(old(db.Contents()), Pay(Move.Settle(kind, at), guild, amount, ref), err, db.Contents())
    {
      PerformPay(db.Contents(), Pay(Move.Settle(kind, at), guild, amount, ref));
      if amount <= 0 {
        return Some(InvalidAmount);
      }
      if kind != TxPurchase && kind != TxAuctionWin {
        return Some(InvalidTransactionType);
      }
      if !Has(db.pouches, guild) {
        return Some(NotFound);
      }
      var gp := db.pouches[guild];
      if gp.reserved < amount {
        return Some(InsufficientReserved);
      }
      var today := UtcDay(at);
      if gp.lastReset != today {
        gp := gp.(spent := 0, lastReset := today);
      }
      if gp.spent + amount > gp.limit {
        return Some(DailyLimitExceeded);
      }
      gp := gp.(total := gp.total - amount);
      gp := gp.(reserved := gp.reserved - amount);
      gp := gp.(spent := gp.spent + amount);
      err := db.UpdatePouch(guild, gp);
      if err.None? {
        WriteLog(guild, kind, amount, ref, Some(today));
      }
    }

    /** Add `amount` to the guild's gold. */
    method Credit(guild: GuildId, amount: int, ref: Reference) returns (err: Option<Error>)
      modifies db`pouches, db`log
      ensures Outcome(old(db.Contents()), Pay(Move.Credit, guild, amount, ref), err, db.Contents())
    {
      PerformPay(db.Contents(), Pay(Move.Credit, guild, amount, ref));
      if amount <= 0 {
        return Some(InvalidAmount);
      }
      if !Has(db.pouches, guild) {
        return Some(NotFound);
      }
      var gp := db.pouches[guild];
      gp := gp.(total := gp.total + amount);
      err := db.UpdatePouch(guild, gp);
      if err.None? {
        WriteLog(guild, TxCredit, amount, ref, None);
      }
    }

    method WriteLog(guild: GuildId, kind: TxType, amount: int, ref: Reference, day: Option<int>)
      modifies db`log
      ensures db.Contents() == Apply(old(db.Contents()), AppendLog(LogEntry(guild, kind, amount, ref, day)))
    {
      db.CreateLog(LogEntry(guild, kind, amount, ref, day));
    }
  }
}
