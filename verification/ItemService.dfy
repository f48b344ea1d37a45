/** Creating items and buying from listings, step by step on the tables
    (internal/service/item_service.go). */
module ItemService {
  import opened Tables
  import opened GoldPouch
  import opened Operations
  import opened Ledger
  import opened Database
  import opened PouchService
  import opened AuctionService

  class ItemService {
    const db: Database
    const goldPouches: GoldPouchService

    constructor (db: Database, goldPouches: GoldPouchService)
      requires goldPouches.db == db
      ensures this.db == db && this.goldPouches == goldPouches
    {
      this.db := db;
      this.goldPouches := goldPouches;
    }

    method PurchaseItem(item: ItemId, buyer: GuildId, quantity: int, at: Time, paidAt: Time)
      returns (err: Option<Error>)
      requires goldPouches.db == db
      modifies db
      ensures TxOutcome(old(db.Contents()), Op.Purchase(item, buyer, quantity, at, paidAt), err, db.Contents())
      ensures old(db.Valid()) ==> db.Valid()
    {
      ghost var before := db.Contents();
      if quantity <= 0 {
        return Some(InvalidQuantity);
      }
      var saved := db.Contents();
      err := PurchaseInTx(item, buyer, quantity, at, paidAt);
      if err.Some? {
        db.Rollback(saved);
      }
      OutcomeKeepsSound(before, Op.Purchase(item, buyer, quantity, at, paidAt), err, db.Contents());
    }

    method PurchaseInTx(item: ItemId, buyer: GuildId, quantity: int, at: Time, paidAt: Time)
      returns (err: Option<Error>)
      requires goldPouches.db == db && quantity > 0
      modifies db
      ensures BodyOutcome(Exec(old(db.Contents()), Op.Purchase(item, buyer, quantity, at, paidAt)), err, db.Contents())
    {
      ghost var s0 := db.Contents();
      ghost var op := Op.Purchase(item, buyer, quantity, at, paidAt);
      if !Has(db.items, item) {
        return Some(ItemNotFound);
      }
      if db.items[item].rarity == Legendary {
        return Some(ListingNotActive);
      }
      var found := ActiveListing(db.listings, item, |db.listings|);
      if found.None? {
        return Some(ListingNotActive);
      }
      var id := found.value;
      var listing := db.listings[id];
      var key := InvKey(listing.guild, item);
      if key !in db.inventories {
        return Some(NotFound);
      }
      var stock := db.inventories[key];
      if listing.status != ListingActive {
        return Some(ListingNotActive);
      }
      if listing.quantity < quantity {
        return Some(InsufficientQuantity);
      }
      if stock < quantity {
        return Some(InsufficientQuantity);
      }
      assert Plan(s0, op).Ok? && Plan(s0, op) == PlanPurchase(s0, op, id);
      err := PayAndTakeStock(id, item, buyer, quantity, at, paidAt);
    }

    /** The second half of a purchase: the checks have passed on the locked rows. */
    method PayAndTakeStock(id: ListingId, item: ItemId, buyer: GuildId, quantity: int, at: Time, paidAt: Time)
      returns (err: Option<Error>)
      requires goldPouches.db == db
      requires PlanPurchase(db.Contents(), Op.Purchase(item, buyer, quantity, at, paidAt), id).Ok?
      modifies db
      ensures BodyOutcome(RunActions(old(db.Contents()),
                                     old(PlanPurchase(db.Contents(), Op.Purchase(item, buyer, quantity, at, paidAt),
                                                      id)).value),
                          err, db.Contents())
    {
      hide RunActions, Perform, Apply, Refusal;
      ghost var s0 := db.Contents();
      var listing := db.listings[id];
      var key := InvKey(listing.guild, item);
      var stock := db.inventories[key];
      var total := listing.basePrice * quantity;
      var newQuantity := listing.quantity - quantity;
      var newStatus := listing.status;
      if newQuantity == 0 {
        newStatus := ListingExpired;
      }
      ghost var reserve := Pay(Move.Reserve(at), buyer, total, OfListing(id));
      ghost var settle := Pay(Move.Settle(TxPurchase, paidAt), buyer, total, OfListing(id));
      ghost var credit := Pay(Move.Credit, listing.guild, total, OfListing(id));
      ghost var list := Do(PutListing(id, newQuantity, newStatus));
      ghost var store := Do(PutInventory(key, stock - quantity));
      assert [reserve] + ([settle] + ([credit] + ([list] + [store]))) == [reserve, settle, credit, list, store];
      assert PlanPurchase(s0, Op.Purchase(item, buyer, quantity, at, paidAt), id)
             == Ok([reserve, settle, credit, list, store]);
      RunCons(s0, reserve, [settle] + ([credit] + ([list] + [store])));
      hide PlanPurchase;

      err := goldPouches.Reserve(buyer, total, OfListing(id), at);
      if err.Some? {
        return;
      }
      RunCons(db.Contents(), settle, [credit] + ([list] + [store]));
      err := goldPouches.Settle(buyer, total, TxPurchase, OfListing(id), paidAt);
      if err.Some? {
        return;
      }
      RunCons(db.Contents(), credit, [list] + [store]);
      err := goldPouches.Credit(listing.guild, total, OfListing(id));
      if err.Some? {
        return;
      }
      RunCons(db.Contents(), list, [store]);
      PerformDo(db.Contents(), PutListing(id, newQuantity, newStatus));
      err := db.UpdateListing(id, newQuantity, newStatus);
      if err.Some? {
        return;
      }
      RunOne(db.Contents(), store);
      PerformDo(db.Contents(), PutInventory(key, stock - quantity));
      err := db.UpsertInventory(key, stock - quantity);
    }

    method CreateItem(forger: CharacterId, rarity: Option<Rarity>, price: Option<int>,
        forGuild: Option<GuildId>, quantity: Option<int>)
      returns (err: Option<Error>)
      modifies db
      ensures TxOutcome(old(db.Contents()), Op.CreateItem(forger, rarity, price, forGuild, quantity),
                        err, db.Contents())
      ensures old(db.Valid()) ==> db.Valid()
    {
      ghost var before := db.Contents();
      var saved := db.Contents();
      err := CreateItemInTx(forger, rarity, price, forGuild, quantity);
      if err.Some? {
        db.Rollback(saved);
      }
      OutcomeKeepsSound(before, Op.CreateItem(forger, rarity, price, forGuild, quantity), err, db.Contents());
    }

    method CreateItemInTx(forger: CharacterId, rarity: Option<Rarity>, price: Option<int>,
        forGuild: Option<GuildId>, quantity: Option<int>)
      returns (err: Option<Error>)
      modifies db
      ensures BodyOutcome(Exec(old(db.Contents()), Op.CreateItem(forger, rarity, price, forGuild, quantity)),
                          err, db.Contents())
    {
      ghost var s0 := db.Contents();
      ghost var op := Op.CreateItem(forger, rarity, price, forGuild, quantity);
      if rarity.None? {
        return Some(InvalidRarity);
      }
      var isListable := rarity.value != Legendary;
      if price.None? {
        return Some(MissingPrice);
      }
      if price.value < 0 {
        return Some(InvalidPrice);
      }
      if isListable && price.value == 0 {
        return Some(MissingPrice);
      }
      if isListable && (quantity.None? || quantity.value <= 0) {
        return Some(MissingQuantity);
      }
      var guild := if forGuild.Some? then forGuild.value else DEFAULT_GUILD;
      if !Has(db.pouches, guild) {
        return Some(GuildNotFound);
      }
      var item := |db.items|;
      var invQuantity := 1;
      if isListable {
        invQuantity := quantity.value;
      }
      ghost var insert := Do(AppendItem(Item(rarity.value, price.value, forger)));
      ghost var store := Do(PutInventory(InvKey(guild, item), invQuantity));
      ghost var list := Plan(s0, op).value[2..];
      assert Plan(s0, op).value == [insert] + ([store] + list);
      RunCons(s0, insert, [store] + list);
      PerformDo(s0, AppendItem(Item(rarity.value, price.value, forger)));

      err := db.CreateItem(Item(rarity.value, price.value, forger));
      if err.Some? {
        return;
      }
      RunCons(db.Contents(), store, list);
      PerformDo(db.Contents(), PutInventory(InvKey(guild, item), invQuantity));
      err := db.UpsertInventory(InvKey(guild, item), invQuantity);
      if err.Some? {
        return;
      }
      if isListable {
        var row := Listing(item, guild, invQuantity, price.value, ListingActive);
        assert list == [Do(AppendListing(row))];
        RunOne(db.Contents(), Do(AppendListing(row)));
        PerformDo(db.Contents(), AppendListing(row));
        err := db.CreateListing(row);
      } else {
        assert list == [];
        RunNone(db.Contents());
      }
    }
  }
}
