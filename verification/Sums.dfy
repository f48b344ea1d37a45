/** Sums over the pouch, bid and log tables, and how each write changes them. */
module Sums {
  import opened Tables

  /** Which rows a sum ranges over. */
  datatype BidsOf = BidsOfGuild(guild: GuildId) | BidsOfAuction(auction: AuctionId)

  datatype LogOf =
    | LogOfGuild(guild: GuildId)
    | LogOfRef(ref: Reference)
    | ChargedTo(payer: GuildId, day: int)   // settlements of one guild on one UTC day

  predicate Selects(sel: BidsOf, b: Bid) {
    match sel
    case BidsOfGuild(g) => b.guild == g
    case BidsOfAuction(a) => b.auction == a
  }

  predicate Matches(sel: LogOf, e: LogEntry) {
    match sel
    case LogOfGuild(g) => e.guild == g
    case LogOfRef(r) => e.ref == r
    case ChargedTo(g, d) => e.guild == g && e.day == Some(d)
  }

  function Share(b: Bid, sel: BidsOf, st: BidStatus): int {
    if Selects(sel, b) && b.status == st then b.amount else 0
  }

  /** The total amount of the selected bids that have the given status. */
  function Bids(bids: seq<Bid>, sel: BidsOf, st: BidStatus): int {
    if bids == [] then 0
    else Bids(bids[..|bids| - 1], sel, st) + Share(bids[|bids| - 1], sel, st)
  }

  function EntryShare(e: LogEntry, sel: LogOf, kind: TxType): int {
    if Matches(sel, e) && e.kind == kind then e.amount else 0
  }

  /** The total amount of the selected log rows of one type. */
  function Logged(log: seq<LogEntry>, sel: LogOf, kind: TxType): int {
    if log == [] then 0
    else Logged(log[..|log| - 1], sel, kind) + EntryShare(log[|log| - 1], sel, kind)
  }

  /** What settlements charged the guild on one UTC day. */
  function Charged(log: seq<LogEntry>, g: GuildId, day: int): int {
    Logged(log, ChargedTo(g, day), TxPurchase) + Logged(log, ChargedTo(g, day), TxAuctionWin)
  }

  /** All the gold in the market. */
  function Gold(pouches: seq<Pouch>): int {
    if pouches == [] then 0
    else Gold(pouches[..|pouches| - 1]) + pouches[|pouches| - 1].total
  }

  // ---- Changes ---------------------------------------------------------------------------

  lemma {:induction false} BidsAppend(bids: seq<Bid>, b: Bid, sel: BidsOf, st: BidStatus)
    ensures Bids(bids + [b], sel, st) == Bids(bids, sel, st) + Share(b, sel, st)
  {
  }

  lemma {:induction false} BidsUpdate(bids: seq<Bid>, i: nat, b: Bid, sel: BidsOf, st: BidStatus)
    requires i < |bids|
    ensures Bids(bids[i := b], sel, st) == Bids(bids, sel, st) - Share(bids[i], sel, st) + Share(b, sel, st)
  {
    var n := |bids| - 1;
    if i == n {
      assert bids[i := b][..n] == bids[..n];
    } else {
      BidsUpdate(bids[..n], i, b, sel, st);
      assert bids[i := b][..n] == bids[..n][i := b];
    }
  }

  /** A sum of positive amounts covers each of its terms. */
  lemma {:induction false} BidsCover(bids: seq<Bid>, i: nat, sel: BidsOf)
    requires i < |bids| && Selects(sel, bids[i]) && bids[i].status == BidActive
    requires forall j :: 0 <= j < |bids| ==> bids[j].amount > 0
    ensures bids[i].amount <= Bids(bids, sel, BidActive)
  {
    var n := |bids| - 1;
    if i == n {
      BidsNonNegative(bids[..n], sel);
    } else {
      BidsCover(bids[..n], i, sel);
    }
  }

  lemma {:induction false} BidsNonNegative(bids: seq<Bid>, sel: BidsOf)
    requires forall j :: 0 <= j < |bids| ==> bids[j].amount > 0
    ensures 0 <= Bids(bids, sel, BidActive)
  {
    if bids != [] {
      BidsNonNegative(bids[..|bids| - 1], sel);
    }
  }

  /** When at most one selected bid has the status, the sum is that bid's amount. */
  lemma {:induction false} BidsSingle(bids: seq<Bid>, i: nat, sel: BidsOf, st: BidStatus)
    requires i < |bids|
    requires forall j :: 0 <= j < |bids| && j != i && Selects(sel, bids[j]) ==> bids[j].status != st
    ensures Bids(bids, sel, st) == Share(bids[i], sel, st)
  {
    var n := |bids| - 1;
    if i == n {
      BidsNone(bids[..n], sel, st);
    } else {
      BidsSingle(bids[..n], i, sel, st);
    }
  }

  lemma {:induction false} BidsNone(bids: seq<Bid>, sel: BidsOf, st: BidStatus)
    requires forall j :: 0 <= j < |bids| && Selects(sel, bids[j]) ==> bids[j].status != st
    ensures Bids(bids, sel, st) == 0
  {
    if bids != [] {
      BidsNone(bids[..|bids| - 1], sel, st);
    }
  }

  /** Appending one entry changes only the total of its own type. */
  lemma LoggedByKind(log: seq<LogEntry>, e: LogEntry, sel: LogOf)
    ensures forall kind :: Logged(log + [e], sel, kind) == Logged(log, sel, kind) + EntryShare(e, sel, kind)
  {
  }

  lemma {:induction false} GoldUpdate(pouches: seq<Pouch>, g: nat, p: Pouch)
    requires g < |pouches|
    ensures Gold(pouches[g := p]) == Gold(pouches) - pouches[g].total + p.total
  {
    var n := |pouches| - 1;
    if g == n {
      assert pouches[g := p][..n] == pouches[..n];
    } else {
      GoldUpdate(pouches[..n], g, p);
      assert pouches[g := p][..n] == pouches[..n][g := p];
    }
  }

  /** No single pouch holds more than all the gold. */
  lemma {:induction false} GoldCovers(pouches: seq<Pouch>, g: nat)
    requires g < |pouches|
    requires forall h :: 0 <= h < |pouches| ==> pouches[h].total >= 0
    ensures 0 <= pouches[g].total <= Gold(pouches)
  {
    var n := |pouches| - 1;
    if g < n {
      GoldCovers(pouches[..n], g);
    } else if n > 0 {
      GoldCovers(pouches[..n], 0);
    }
  }
}
