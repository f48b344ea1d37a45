# DragonMarket: gold, auctions and ownership

This project models the part of DragonMarket that moves gold and items: the escrow ledger of gold
pouches, the auction house with its bid ladder and closing sweep, fixed-price purchases, and the
wallet view. It proves what these promise together, over every run of operations and over every
interleaving of their transactions.

`dafny verify dfyconfig.toml` checks all of it. No lemma relies on Dafny's automatic induction: every
induction is written out, and a lemma for which Dafny would add one carries `{:induction false}`.

## How the model is laid out

**Tables.** `Tables` holds the rows, the row constraints of the migrations, and the single writes a
statement makes. A table is the sequence of its rows and an id is a position; inventories have a
composite key and form a map. Every column the money path reads is there. A guild is its pouch, and
of the characters only their number matters.

**Functions on states.** `GoldPouch` says what each movement (reserve, release, settle, credit) does
to one pouch, with the lazy daily reset. `Operations` says what each request does to the committed
tables: `PreRead` chooses the row with unlocked reads, `PlanAt` re-checks on the locked rows and
settles on the statements, `RunActions` executes them in order, and `Exec` is the whole
transaction, whose refusal leaves the tables as they were. `Run` is any list of operations, accepted
or refused; `Tick` is one sweep. Clock readings and the cached oracle price are arguments: an
operation carries the readings its transaction takes, each after the row lock it follows.

**Classes in the form of the program.** `Database` holds the tables as fields updated in place, with
the repositories' statements, the listing loops and rollback. `GoldPouchService`, `AuctionService`,
`ItemService` and `Settler` are the services step by step, with their loops. Each public method is
proved to do exactly what `Exec` says (`TxOutcome`), all or nothing, and to keep the global
invariant `Sound`.

**The invariant.** `Sound` = `Books` (row constraints and log replay; bids within limits; the 5%
ladder; escrow; per-auction reconciliation) + `Standing` (where a bid may stand given its auction) +
`Owned` (one holder per item, sellers hold what they auction, stock in lock-step). `Ledger` proves
what single movements keep, `Bidding`, `Settlement` and `Sales` what each operation keeps, `Market`
puts them together and states exactly when each operation is accepted. `Outcomes` says in the request's
terms what is left behind, and `Answers` which refusal each request gets.

**Runs.** `Lifecycle` follows one auction through any run, `Bounds` shows it ends, `Possession` follows
an item, `Clocks` the readings of a pouch's clock, `Sweep` treats the closing sweep, `OneDay` what a
single one leaves unsettled and `CatchUp` several of them. `Theorems` states the promises for every
state reachable from a seeded market, and `Traces` holds short concrete runs that show which
conditions cannot be dropped.

**Interleavings.** `Locking` and `Concurrency` split bidding, cancelling, settling and purchasing into
unlocked reads, row locks, checks, single statements, commit and abort, in any interleaving, and
prove that every committed state is the one the committed operations would give one at a time.
`Progress` proves that the machine gets somewhere: what would be accepted can be committed, what would
be refused ends, and only a row somebody else holds makes a transaction wait.
A transaction's writes are recorded as values when its statement executes, so a lost update would
show.

**Widths.** `Widths` redoes whole operations in wrapping 64-bit integers and shows where they agree.

## What to know about the code

- The comment on `CreateAuction` (internal/service/auction_service.go:135-140) says a unique violation
  becomes "already exists". `isConflictErr` (internal/service/item_service.go:396-405) also maps CHECK
  violations, so a negative cached price or a duration that wraps to a non-positive one gives the
  same error. The model follows the code (`Tables.Refusal`).
- The comment on `CancelBid` (internal/service/auction_service.go:372-374) calls it the only mutator of a
  bid's status. The sweep changes it too, under the same auction lock; the model has both.
- A bid cannot be withdrawn while it is the highest, so "highest ACTIVE" and "accepted last" are the
  same bid, and ties cannot occur (`Bidding.HighestIsLast`).
- Durations above 9223372036 seconds wrap around: the request is refused as if the auction existed
  already when the wrapped length is not positive, and otherwise accepted and not honoured
  (`Widths.DurationIsHonouredIff`, `Widths.LongDurationRefusedIff`).
- An auction created from an ownership read made before another auction of the item settled names a
  guild that no longer holds it (`Theorems.LateInsertIsOwnedIff`, with a reachable run in
  `Traces.LateInsertCanBreakOwnership`).

## Model

| member | source | states |
|---|---|---|
| Theorems.ReachableIsSound | internal/service/auction_service.go:335-345 | the global invariant holds after any run of any operations, accepted or refused, from a seeded market |
| Theorems.ReservedGoldIsLiveBids | internal/service/auction_service.go:335-345 | in every reachable state a guild's reserved balance is the sum of its ACTIVE bids over all auctions, and every ACTIVE bid is on an ACTIVE auction |
| Theorems.LogReplaysToBalances | internal/service/goldpouch_service.go:113-123 | folding a guild's log over its seeded pouch gives its total and its reserved balance; limits never change |
| Theorems.LogReconcilesPerAuction | internal/settlement/settlement.go:89-148 | under "auction:id": ACTIVE holds its live bids in escrow and paid nothing; EXPIRED has RESERVE = RELEASE + AUCTION_WIN and CREDIT = AUCTION_WIN = the winning amount, or 0 |
| Lifecycle.AuctionTotals | internal/settlement/settlement.go:135-155 | an EXPIRED auction has no live gold and its WON total is the last accepted bid's amount |
| Theorems.DailyLimitHolds | internal/service/goldpouch_service.go:104-115 | if no pouch's clock steps back over its last reset: on every UTC day settlements charge a guild at most its limit, and SpentToday is what was charged on the day of the last reset, though reservations reset it too |
| Theorems.DailyLimitHoldsInOrder | internal/service/goldpouch_service.go:44-51 | the same, assuming only that the requests' clock readings that may concern one guild do not decrease from day to day and none is before the day its pouch was seeded with |
| Clocks.OrderedReadingsAreTimely | internal/service/goldpouch_service.go:104-108 | requests with such readings never step a pouch's clock back, whatever they turn out to do |
| Clocks.PlanReads | internal/service/item_service.go:314-319 | an accepted request reads the clock only for the guilds it may charge, in order, between its two readings |
| Clocks.RunResets | internal/service/goldpouch_service.go:44-48 | statements move a last reset to no day after those they read, and not at all for a guild whose clock they do not read |
| Theorems.GoldIsConserved | internal/settlement/settlement.go:117-122 | total gold never changes, and 0 <= reserved <= total <= all the opening gold, so balances fit a 32-bit column whenever that does |
| Theorems.LegendaryHasOneOwner | internal/settlement/settlement.go:124-133 | every LEGENDARY item has exactly one inventory row, quantity 1; the owner named by its ACTIVE auction, of which there is at most one, holds it |
| Theorems.InsertedAuctionIsOwnedIff | internal/service/auction_service.go:165-190 | an admitted auction row keeps the ownership rule if and only if its owner holds the item when the row is inserted |
| Theorems.LateInsertIsOwnedIff | internal/service/auction_service.go:165-190 | whatever commits between the unlocked ownership read and the insert: an admitted row keeps the tables sound if and only if no settlement in between awarded the item, or the last that did awarded it back to the owner |
| Theorems.SettlementBetweenReadAndInsert | internal/service/auction_service.go:165-190 | after a settlement to a winner the database does admit a second auction of the item for the guild that lost it, and ownership is broken |
| Traces.LateInsertCanBreakOwnership | internal/service/auction_service.go:165-190 | a concrete run from a seeded market reaches that: open, bid 10, settle at 2000 seconds, late insert |
| Possession.RunMovesItem | internal/settlement/settlement.go:124-133 | over any run an item is held by the winner of the last settlement that awarded it, or, if none did, by whoever held it before |
| Possession.StepMovesItem | internal/settlement/settlement.go:124-133 | no operation but a settlement with a winner moves an item |
| Theorems.StockStaysInStep | internal/service/item_service.go:324-337 | for every listing: remaining equals the seller's stock, ACTIVE exactly while positive, logged PURCHASE = base price times units sold = seller CREDIT |
| Theorems.ExpiredAuctionIsClosed | internal/settlement/settlement.go:135-155 | in an EXPIRED auction the last accepted bid is the only WON one and all others are CANCELLED or LOST |
| Concurrency.CommittedStatesAreSerial | internal/service/auction_service.go:296-366 | serialisability: for every interleaving of reads, locks, checks, statements, commits and aborts, each committed state is the committed operations in commit order, one at a time, and satisfies the invariant |
| Concurrency.EachCommitIsOneStep | internal/settlement/settlement.go:79-113 | a commit changes the tables exactly as its whole operation, accepted, run alone just then |
| Progress.AcceptedOperationCommits | internal/service/auction_service.go:296-366 | every bid, cancellation, settlement or purchase that would be accepted has an interleaving, read by read, lock by lock and statement by statement, that commits exactly what it does when run alone |
| Progress.RefusedOperationEnds | internal/settlement/settlement.go:72-87 | every one that would be refused has one that ends it with nothing committed and no row left locked |
| Progress.UnhinderedEnds | internal/service/auction_service.go:391-458 | from any system reached, among any other open transactions, one whose rows nobody else holds can be brought to its end by its own steps, and to its commit if its operation would be accepted on the row it chose |
| Progress.LiveTransactionCanMove | internal/service/item_service.go:283-299 | in any system, an open transaction whose next rows no other transaction holds has a step of its own other than an abort |
| Progress.BiddingFootprint | internal/service/auction_service.go:308-345 | a bid or cancellation locks at most its auction and its guild's pouch |
| Progress.PurchaseFootprint | internal/service/item_service.go:292-322 | a purchase locks at most its listing, the item's stock and the two pouches |
| Progress.SettleFootprint | internal/settlement/settlement.go:79-155 | a settlement locks at most its auction, the item, and the pouches of the owner and the bidders |
| Concurrency.FireKeepsSerial | internal/service/item_service.go:275-342 | no single event disturbs the serial account, mutual exclusion of row locks, or what live transactions have read and written |
| Concurrency.CommitIsExec | internal/service/auction_service.go:391-458 | a transaction ready to commit has recorded exactly the writes of its operation run alone on the present tables, unlocked reads included |
| Concurrency.PlansAreLocal | internal/service/auction_service.go:308-333 | the checks under the locks give the same verdict and statements in any two states that agree on the locked rows |
| Concurrency.PlanFromTarget | internal/service/item_service.go:275-301 | when the re-check on the locked row passes, the unlocked search would choose the same row now |
| Locking.EffectsAreLocal | internal/service/goldpouch_service.go:36-56 | a statement computes the same row values, or the same error, in any two states that agree on the rows it locks |
| Locking.WritesAreLocal | internal/settlement/settlement.go:116-157 | all writes of a transaction so far depend only on rows it holds |
| Locking.WritesAreTheRun | internal/settlement/settlement.go:104-112 | applying the recorded row values at commit is running the statements |
| Locking.CommitLeaves | internal/service/item_service.go:283-299 | a commit changes no row whose lock the transaction does not hold |
| Lifecycle.EndedWinnerIsFrozen | internal/settlement/settlement.go:84-94 | once the clock has passed the end time, no run changes the last accepted bid, its bidder or amount: it stays live until the auction is EXPIRED with exactly that bid WON |
| Lifecycle.AcceptedBidLeavesFiveMinutes | internal/service/auction_service.go:353-358 | whatever follows an accepted bid, no settlement of its auction commits within five minutes of it |
| Lifecycle.BiddableXorSettleable | internal/service/auction_service.go:316-319 | at any one clock reading a live auction is open to bids or ripe for settlement, never both and never neither |
| Lifecycle.RunProgresses | internal/service/auction_service.go:425-430 | over any run end times never decrease and no auction or bid status leaves a final value |
| Lifecycle.AuctionStep | internal/settlement/settlement.go:84-107 | any operation leaves an auction and its bids alone, places one bid, cancels one overtaken bid, or closes it as a whole |
| Lifecycle.SettledIsClosed | internal/settlement/settlement.go:135-155 | a settlement closes exactly its own auction: last bid WON, other live ones LOST, other auctions untouched |
| Lifecycle.SettleTouches | internal/settlement/settlement.go:84-87 | a settlement request, accepted or not, leaves an auction untouched or closes it, and the latter only when it has ended |
| Bounds.ExtensionsAreBounded | internal/service/auction_service.go:353-358 | no auction ever ends later than its original end plus 465 times five minutes |
| Bounds.BidsAreBounded | internal/service/auction_service.go:321-333 | no auction ever accepts more than 465 bids, cancelled ones included |
| Bounds.LadderClimbs | internal/service/auction_service.go:325 | if k bids were accepted after bid i then 100^k times the last amount is at least 105^k times the amount of i |
| Bounds.ClimbIsShort | internal/service/goldpouch_service.go:49-51 | a 5% climb from 1 that stays within a 32-bit limit has fewer than 465 steps |
| Bounds.RunKeepsExtended | internal/service/auction_service.go:350-358 | an end time is its original one plus at most five minutes per accepted bid, over any run |
| Sweep.TickMakesProgress | internal/settlement/settlement.go:49-65 | if all gold fits a 32-bit column, a Tick on days on which no guild has spent anything yet strictly shortens the list of due auctions as soon as one has ended |
| CatchUp.TicksSettleAll | internal/settlement/settlement.go:49-65 | under the same gold bound, as many Ticks, each on a UTC day of its own and with nothing else going on, as auctions are due by the last cutoff leave none unsettled that was due at the first |
| CatchUp.SweepResets | internal/service/goldpouch_service.go:104-108 | a sweep that reads one UTC day leaves each pouch's last reset as it was or no later than that day |
| OneDay.TickLeavesOnlyBlocked | internal/settlement/settlement.go:56-64 | if all gold fits a 32-bit column and a Tick's settlements fall on one UTC day, every auction that was due and had ended and is still ACTIVE after it has a last bid its bidder's limit does not cover even then |
| OneDay.TickLeavesNone | internal/settlement/settlement.go:56-64 | so a Tick after which all limits still cover the last bids has settled every ended auction that was due |
| Sweep.DueAscends | internal/repository/auction.go:93 | the sweep goes through its list in id order, each auction once |
| Sweep.OnlyTheLimitBlocksSettlement | internal/settlement/settlement.go:79-113 | if all gold fits a 32-bit column, settling an ended auction fails if and only if its winner's daily limit is used up |
| Traces.OverflowBlocksSettlement | internal/service/goldpouch_service.go:136-139 | without that bound it is false: a concrete run from a seeded market in which the limit covers the winning bid and the seller's column still blocks the settlement |
| Sweep.OnlyTheWalletBlocksPurchase | internal/service/item_service.go:301-322 | if all gold fits a 32-bit column, a purchase within the stock is accepted if and only if the buyer's wallet affords it |
| Sweep.SweepSettlesOrLeaves | internal/settlement/settlement.go:56-64 | whatever the other settlements of a sweep do, each auction ends up untouched, or listed and settled as a whole: row, bids, the item with the last bidder and not the owner, and exactly that amount taken and credited; or, with no bid, the item with the owner and no gold moved |
| Sweep.SweepAwards | internal/settlement/settlement.go:124-133 | if a sweep closes an auction, the last settlement of its item in the sweep is that auction's |
| Sweep.TickSettlesOrLeaves | internal/settlement/settlement.go:49-65 | one Tick keeps the invariant and touches only due auctions, each as a whole, item and gold included, or not at all |
| Sweep.DueIs | internal/repository/auction.go:91-96 | the sweep's list is exactly the ACTIVE auctions whose end time is at most the cutoff |
| Sweep.ExpiryShortensDue | internal/repository/auction.go:91-96 | expiring rows never lengthens that list and expiring a due one shortens it |
| Sweep.RunConservesGold | internal/service/goldpouch_service.go:113-137 | no run creates or destroys gold, from any state |
| Sweep.CreditNeverOverflows | internal/service/goldpouch_service.go:136-137 | if all the gold fits one 32-bit column, a credit paid by another guild's pouch never overflows |
| Market.SeededIsSound | migrations/000011_seed_data.up.sql:82-192 | a freshly seeded market satisfies the invariant |
| Market.StepKeepsSound | internal/service/item_service.go:314-337 | every operation keeps the invariant |
| Market.RunKeepsSound | internal/service/auction_service.go:280-459 | so does every run of operations |
| Market.BidAcceptedIff | internal/service/auction_service.go:280-345 | a bid on a live auction is accepted if and only if it is not the seller's, in time, at the floor of the last accepted bid, and affordable |
| Market.AcceptedBidEffects | internal/service/auction_service.go:335-358 | an accepted bid reserves its amount, becomes the last and highest, moves the end by 300 000 000 000 ns exactly when it came in the last 300 000 000 000, writes one log row, and changes nothing else but the lazy reset |
| Market.FloorIsExact | internal/service/auction_service.go:321-333 | the computed minimum admits exactly the amounts at least 5% above the last accepted bid, or at least the base price |
| Market.CancelAcceptedIff | internal/service/auction_service.go:391-450 | a bid can be cancelled if and only if its bidder asks, for its item, while it is live and a later bid was accepted |
| Outcomes.CancelledEffects | internal/service/auction_service.go:444-452 | what an accepted cancellation changes: one status, one reservation, one log row, and nothing else |
| Answers.CancelAnswers | internal/service/auction_service.go:391-442 | each refusal of a cancellation exactly under its own condition; "highest" if and only if it is the caller's live bid on a live auction of the item and the one accepted last |
| Answers.BidAnswers | internal/service/auction_service.go:280-338 | each refusal of a bid on a live auction exactly under its own condition, wallet and daily limit included |
| Answers.BidWithoutAuctionAnswers | internal/service/auction_service.go:281-302 | the answer to a bid on an item that is not under auction |
| Answers.SettleAnswers | internal/settlement/settlement.go:79-107 | a settlement is refused as unknown, or as not eligible, exactly when it is, and an auction nobody bid on settles |
| Answers.WinnerAnswers | internal/settlement/settlement.go:117-122 | with a last bid: refused for the daily limit, or for the seller's column, exactly when those are the obstacle |
| Answers.PurchaseAnswers | internal/service/item_service.go:248-322 | each refusal of a purchase from a live listing exactly under its own condition |
| Answers.PurchaseWithoutListingAnswers | internal/service/item_service.go:249-281 | the answer to a purchase of an item with no live listing |
| Answers.LegendaryIsNotListed | internal/service/item_service.go:271-273 | a LEGENDARY item never has a live listing |
| Answers.CreateItemAnswers | internal/service/item_service.go:119-205 | each refusal of an item creation exactly under its own condition |
| Answers.CreateAuctionAnswers | internal/service/auction_service.go:141-196 | each refusal of an auction creation exactly under its own condition |
| Answers.PaymentAnswers | internal/service/goldpouch_service.go:31-145 | each refusal of the pouch service, for any movement and amount |
| Answers.MovementAnswers | internal/service/goldpouch_service.go:40-51 | which of the three balance and limit checks refuses a movement |
| Market.SettleAcceptedIff | internal/settlement/settlement.go:84-107 | a settlement commits if and only if the auction has ended and either nobody bid or the winner's limit and the seller's column allow it; and what it then leaves behind |
| Market.PurchaseAcceptedIff | internal/service/item_service.go:248-337 | a purchase commits if and only if the quantity is positive and in stock, the wallet affords the price, and the seller's column holds it |
| Outcomes.PurchaseEffects | internal/service/item_service.go:311-337 | what an accepted purchase moves, row by row: totals, listing, stock and three log rows, and nothing else |
| Market.CreateItemAcceptedIff | internal/service/item_service.go:119-205 | the exact inputs for which an item is created, the existing forger that migration 000004 requires included |
| Outcomes.CreatedItemEffects | internal/service/item_service.go:164-204 | in the request's own terms: the item as asked, one inventory row for the guild named (or the default one) of the quantity asked (1 if LEGENDARY), and unless LEGENDARY one listing by that guild of that quantity at that price; nothing else changes |
| Outcomes.FirstPurchaseCharges | internal/service/item_service.go:311-322 | buying k units of an item just created takes k times the price asked for at its creation from a buyer other than the seller, and pays it to the seller |
| Market.CreateAuctionAcceptedIff | internal/service/auction_service.go:141-196 | the exact inputs for which an auction is created, wrapped durations and cached prices included, and the row it adds |
| Settlement.ReleaseLoop | internal/settlement/settlement.go:144-155 | from good books the release loop never fails: each remaining live bid is marked LOST and released exactly once, one log row each, also when one guild holds several, and the books stay good |
| Settlement.PayOutRuns | internal/settlement/settlement.go:117-138 | the payout succeeds if and only if the winner's limit and the seller's column allow it, and what it leaves |
| Settlement.PaidOutKeepsBooks | internal/settlement/settlement.go:117-138 | escrow, ladder, replay and reconciliation hold again right after the payout |
| Settlement.WinnerSettles | internal/settlement/settlement.go:116-157 | payout, loop and expiry together: statuses, log rows, totals, item and auction row |
| Settlement.WonByStands | internal/settlement/settlement.go:135-155 | afterwards every bid is CANCELLED, LOST or WON, and WON is the bid accepted last |
| Settlement.WonByOwned | internal/settlement/settlement.go:124-133 | delete-then-upsert moves the item's only row from seller to winner and disturbs no other auction or listing |
| Settlement.UnsoldExpires | internal/settlement/settlement.go:97-107 | an auction nobody bid on expires and its owner keeps the item |
| Bidding.HighestIsLast | internal/repository/bid.go:88-101 | while an auction is ACTIVE its highest ACTIVE bid is the one accepted last, exists once any bid was accepted, and beats every other, cancelled ones included |
| Bidding.CeilDivIsLeast | internal/service/auction_service.go:497-499 | the rounded-up quotient is the least integer that times the divisor reaches the dividend |
| Bidding.ReleaseRuns | internal/service/goldpouch_service.go:64-86 | in good books a live bid can always be released |
| Bidding.ReleasedKeepsBooks | internal/service/auction_service.go:444-450 | releasing a live bid and giving it a final status keeps the books |
| Bidding.PlaceBidRuns | internal/service/auction_service.go:335-358 | once the checks passed, only the wallet decides, and the resulting state |
| Bidding.PlacedKeepsLadder | internal/service/auction_service.go:322-333 | an accepted bid is at least 5% above every earlier bid on the auction, cancelled ones included |
| Bidding.PlacedKeepsBooks | internal/service/auction_service.go:335-358 | an accepted bid keeps escrow, ladder, standing, replay and reconciliation |
| Bidding.CancelKeepsBooks | internal/service/auction_service.go:431-450 | so does a cancellation, and it never fails after its checks |
| Bidding.CancelledStands | internal/service/auction_service.go:431-436 | a cancelled bid was overtaken, so the last bid of a live auction stays live |
| Holdings.ActiveAuctionIsUnique | migrations/000008_create_auctions.up.sql:25-28 | the search for an item's live auction finds the only one |
| Holdings.ActiveListingIsUnique | internal/repository/listing.go:67-72 | the search for an item's live listing finds the only one |
| Holdings.BiddingKeepsOwned | internal/service/auction_service.go:353-358 | placing and cancelling bids keeps ownership, stock and sales accounts |
| Sales.PurchaseRuns | internal/service/item_service.go:311-337 | a checked purchase succeeds if and only if the wallet affords it and the seller's column holds it; buying from oneself always fits |
| Sales.BoughtBalances | internal/service/item_service.go:314-322 | a purchase leaves every reserved balance as it was and moves the price from buyer to seller, also when they are the same guild |
| Sales.BoughtKeepsBooks | internal/service/item_service.go:314-322 | a purchase keeps escrow, replay and every auction's reconciliation |
| Sales.BoughtTakings | internal/service/item_service.go:311-322 | its three log rows are booked under its own listing, at price times units, and under no other |
| Sales.BoughtKeepsListed | internal/service/item_service.go:324-337 | listing, stock and logged sales stay in step |
| Sales.CreateItemRuns | internal/service/item_service.go:164-205 | item, inventory row and listing are created together; only an unknown forger, a column, or an item id already held can stop them |
| Sales.CreatedKeepsOwned | internal/service/item_service.go:178-204 | a created item has one holder and, if not LEGENDARY, a listing of the same quantity |
| Sales.OpenedKeepsOwned | internal/service/auction_service.go:165-190 | an admitted auction whose owner holds the item at that moment keeps the ownership rules |
| Ledger.PerformPay | internal/service/goldpouch_service.go:31-145 | exactly when a movement goes through on committed rows, and the pouch and log row it leaves |
| Ledger.MovedChanges | internal/service/goldpouch_service.go:113-115 | a movement changes total and reserved by what its log row's type and amount say, never the limit |
| Ledger.PaidKeepsReplay | internal/service/goldpouch_service.go:120-122 | the log row written with a movement accounts for exactly that movement |
| Ledger.RunKeepsAccounts | internal/service/goldpouch_service.go:53-60 | any list of statements keeps row constraints, spent <= limit and log replay |
| Ledger.RunMovesGold | internal/service/goldpouch_service.go:113-137 | the gold in the market changes by the credits less the settlements of the statements |
| Ledger.PlansAreBalanced | internal/service/item_service.go:317-322 | every operation's settlements equal its credits |
| Ledger.ExecConservesGold | internal/settlement/settlement.go:117-122 | no accepted operation changes the total gold |
| Ledger.RunKeepsCap | internal/service/goldpouch_service.go:104-115 | under a pouch clock that does not step back, statements keep SpentToday equal to the day's charges and every day within the limit |
| GoldPouch.ReserveAcceptedIffWalletAffords | internal/service/wallet_service.go:44-56 | a reservation is accepted if and only if the amount is within the wallet's usable balance and displayed SpentToday + amount is within the limit |
| Theorems.WalletShowsTheBooks | internal/service/wallet_service.go:31-56 | after any run a wallet shows its guild's live bids as reserved, opening gold plus logged movements as total, the difference as usable, the seeded limit, and an unknown guild gets an error |
| Theorems.WalletShowsTodaysCharges | internal/service/wallet_service.go:44-47 | if no pouch's clock stepped back, SpentToday is exactly what settlements charged the guild on the UTC day of the reading |
| GoldPouch.SameUtcDayIff | internal/service/goldpouch_service.go:157-167 | two readings are of the same UTC day if and only if they lie in one block of 86 400 000 000 000 ns from the epoch |
| GoldPouch.SettleAfterReserveSucceeds | internal/service/item_service.go:314-319 | a settlement of the same amount right after a reservation never fails, also across midnight |
| GoldPouch.ReleaseUndoesReserve | internal/service/goldpouch_service.go:73-77 | a release undoes a reservation up to the lazy reset |
| GoldPouch.SteppingBackEvadesTheLimit | internal/service/goldpouch_service.go:104-111 | a clock that steps back a day in between lets a limit be charged twice on one day |
| Widths.MovementsNeverWrap | internal/service/goldpouch_service.go:40-53 | on any row the database can hold and any positive 64-bit amount (for a credit, any 32-bit amount), 64-bit arithmetic in a movement equals unbounded arithmetic |
| Widths.ExecNeverWraps | internal/service/item_service.go:304-324 | from a sound state every transaction with all its sums, differences and products in wrapping 64-bit integers does exactly what it does in unbounded ones, for any 64-bit client amount or quantity; credits included |
| Widths.RunNeverWraps | internal/service/auction_service.go:321-336 | so does every run |
| Widths.WrapIsExactIffFits | internal/service/item_service.go:311 | 64-bit wrapping gives the congruent 64-bit value, equal to the exact one if and only if that fits |
| Widths.UnguardedCreditWraps | internal/service/goldpouch_service.go:136 | a credit alone can wrap, so its callers' checks matter |
| Widths.BidFloorNeverWraps | internal/service/auction_service.go:325 | the 105% floor never wraps |
| Widths.PurchaseNeverWraps | internal/service/item_service.go:304-324 | after the stock checks neither total nor remaining quantity wraps, for any 64-bit quantity |
| Widths.DurationIsHonouredIff | internal/service/auction_service.go:188 | an accepted auction lasts as long as requested if and only if that is at most 9223372036 seconds, and otherwise less |
| Widths.LongDurationRefusedIff | internal/service/auction_service.go:188-193 | a longer request that is otherwise in order is refused, with the error of an existing auction, exactly when its wrapped length is not positive |
| Widths.LongDurationWraps | internal/service/auction_service.go:188-193 | both occur: 9223372037 seconds are refused, 18446744074 seconds are accepted and last less than a third of one |
| Operations.ActiveAuction | internal/repository/auction.go:70-75 | finds an ACTIVE auction of the item if there is one |
| Operations.ActiveListing | internal/repository/listing.go:67-72 | finds an ACTIVE listing of the item if there is one |
| Operations.HighestActive | internal/repository/bid.go:88-101 | finds the ACTIVE bid of greatest amount, the first row of equals, or none if there is none |
| Bidding.TiesNeverDecide | internal/repository/bid.go:93 | any ACTIVE bid that no other exceeds is the one found, so the order among equals never matters |
| Settler.Settler.Tick | internal/settlement/settlement.go:49-65 | the sweep loop does what settling each listed auction in turn does, and keeps the invariant |
| Settler.Settler.SettleAuction | internal/settlement/settlement.go:67-114 | a settlement does exactly what the specification says, or, refused with the same error, leaves the tables unchanged |
| Settler.Settler.SettleInTx | internal/settlement/settlement.go:79-107 | its body ends with the state, or the error, that the specification gives |
| Settler.Settler.SettleWithWinner | internal/settlement/settlement.go:116-157 | payout followed by the loop over the rows read back equals payout followed by releasing each loser |
| Settler.Settler.PayWinner | internal/settlement/settlement.go:117-138 | the five statements of the payout in order |
| Settler.ListedLoop | internal/settlement/settlement.go:140-155 | looping over the auction's rows, listed after the winner was marked, releases the same bids in the same order as the plan |
| AuctionService.AuctionService.PlaceBid | internal/service/auction_service.go:280-366 | a bid does exactly what the specification says or leaves the tables unchanged |
| AuctionService.AuctionService.PlaceBidInTx | internal/service/auction_service.go:296-358 | its body ends with the state, or the error, that the specification gives |
| AuctionService.AuctionService.CancelBid | internal/service/auction_service.go:379-459 | a cancellation does exactly what the specification says or leaves the tables unchanged |
| AuctionService.AuctionService.CancelBidInTx | internal/service/auction_service.go:391-452 | its body ends with the state, or the error, that the specification gives |
| AuctionService.AuctionService.CreateAuction | internal/service/auction_service.go:141-204 | an auction is created as specified or nothing changes |
| ItemService.ItemService.PurchaseItem | internal/service/item_service.go:248-353 | a purchase does exactly what the specification says or leaves the tables unchanged |
| ItemService.ItemService.PurchaseInTx | internal/service/item_service.go:264-337 | its body ends with the state, or the error, that the specification gives |
| ItemService.ItemService.PayAndTakeStock | internal/service/item_service.go:311-337 | its second half: three movements, listing, stock |
| ItemService.ItemService.CreateItem | internal/service/item_service.go:119-217 | an item is created with inventory and listing, or nothing changes |
| ItemService.ItemService.CreateItemInTx | internal/service/item_service.go:164-205 | its body ends with the state, or the error, that the specification gives |
| PouchService.GoldPouchService.Reserve | internal/service/goldpouch_service.go:31-62 | the tables after a reservation, or its error with nothing changed |
| PouchService.GoldPouchService.Release | internal/service/goldpouch_service.go:64-86 | the same for a release |
| PouchService.GoldPouchService.Settle | internal/service/goldpouch_service.go:88-124 | the same for a settlement |
| PouchService.GoldPouchService.Credit | internal/service/goldpouch_service.go:126-145 | the same for a credit |
| PouchService.GoldPouchService.WriteLog | internal/service/goldpouch_service.go:147-155 | one log row appended, nothing else changed |
| Database.Database.constructor | migrations/000011_seed_data.up.sql:82-192 | a seeded database holds the seed and satisfies the invariant |
| Database.Database.Rollback | internal/settlement/settlement.go:72-77 | everything since the snapshot is undone |
| Database.Database.ListBids | internal/repository/bid.go:70-86 | all bids of the auction in id order |
| Database.RowsAreTheAuctions | internal/repository/bid.go:71 | that list has exactly the auction's bids, with ascending ids |
| Database.Database.ListActiveEndingBefore | internal/repository/auction.go:91-96 | the due auctions in id order |
| Database.Database.UpdatePouch | internal/repository/goldpouch.go:76-85 | one pouch replaced, or the constraint that refuses it |
| Database.Database.CreateBid | internal/repository/bid.go:44-58 | one bid appended, or the constraint that refuses it |
| Database.Database.UpdateBid | internal/repository/bid.go:103-106 | only the status of one bid changes |
| Database.Database.UpdateAuction | internal/repository/auction.go:115-121 | only status and end time of one auction change |
| Database.Database.CreateAuction | internal/repository/auction.go:46-60 | one auction appended, or the constraint that refuses it |
| Database.Database.UpsertInventory | internal/repository/inventory.go:104-117 | one inventory row set, or the LEGENDARY constraint that refuses it |
| Database.Database.DeleteInventory | internal/repository/inventory.go:119-122 | one inventory row removed |
| Database.Database.CreateListing | internal/repository/listing.go:43-57 | one listing appended, or the constraint that refuses it |
| Database.Database.UpdateListing | internal/repository/listing.go:101-107 | quantity and status of one listing change, or the constraint that refuses it |
| Database.Database.CreateItem | internal/repository/item.go:37-48 | one item appended, or the column that refuses it |
| Database.Database.CreateLog | internal/repository/transactionlog.go:41-52 | one log row appended |

## Left out

- Concurrency.CommittedStatesAreSerial: items and auctions are created as one atomic step. `CreateAuction` reads ownership without a lock, and `Theorems.LateInsertIsOwnedIff` says exactly what its interleaving can break.
- Concurrency.FireKeepsSerial: which transaction gets a contended lock, waiting queues and deadlock victims are not modelled; a transaction may abort at any moment instead, and `Progress.UnhinderedEnds` speaks of rows nobody else holds. Freedom from deadlock does not hold: two opposite purchases lock the same two pouches in opposite order.
- Concurrency.PlansAreLocal: the loser list of a settlement is computed with the checks, under the auction's lock; the code lists the bids after marking the winner, and `Settler.ListedLoop` shows that gives the same statements.
- Locking.CommitLeaves: bids are guarded by their auction's lock and inventory rows by a lock named after the item (an item has one row); the implicit locks of foreign keys and unique indexes are not modelled.
- Theorems.DailyLimitHolds: needs pouch clocks that do not step back over a pouch's last reset; `GoldPouch.SteppingBackEvadesTheLimit` shows why, and `Theorems.DailyLimitHoldsInOrder` puts the condition on the requests alone.
- Sweep.OnlyTheLimitBlocksSettlement: stated for markets whose gold fits a 32-bit column; `Traces.OverflowBlocksSettlement` shows it false without, and `Market.SettleAcceptedIff` is the unconditional form.
- Sweep.OnlyTheWalletBlocksPurchase: likewise; `Market.PurchaseAcceptedIff` is the unconditional form.
- Sweep.TickMakesProgress: likewise, since a settlement the seller's column blocks makes no progress.
- OneDay.TickLeavesOnlyBlocked: likewise, and stated for settlements read on one UTC day; over midnight a blocked auction's limit may be free again by the end of the Tick.
- CatchUp.TicksSettleAll: likewise; and an auction that comes due between the first and the last cutoff may take its turn first.
- Settler.Settler.Tick: each auction's clock readings are a function of its id, since one sweep settles an id at most once; the log line for a failed settlement and the ticker goroutine are omitted.
- Market.SeededIsSound: describes any seed of the shape the migration inserts, not its particular 30 items and 5 guilds.
- Operations.HighestActive: equal amounts are broken by row order instead of `created_at`; `Bidding.TiesNeverDecide` shows that on one auction amounts never tie.
- Database.Database.UpsertInventory: also stands for the insert and the quantity update of inventory rows, which the services use only when the row is, respectively, absent and present.
- Database.Database.UpdateBid: takes the parent auction's id besides the bid's, to name the lock that protects the row.
- Ids are row positions, so gaps in sequences and ids drawn by transactions that later roll back are not modelled, and log order is commit order.
- A log row's UTC day stands for `created_at`; the database's own clock is not modelled.
- Creating guilds and characters: no service does; a guild's pouch exists from the start, and an item's forger is one of a fixed number of characters.
- The price oracle, its cache and its updates of item prices: the starting price of an auction is any integer the cache may hold, or the item's stored price.
- The buyer of a listing receives no inventory in the code (internal/service/item_service.go:335), so no conservation of purchased units is claimed.
- Timestamps outside the range of a database column, connection and SQL errors, contexts, HTTP handlers, routing and configuration.
- Read-only views (`GetAuction`, `ListActiveAuctions`, `ListItems`, `GetItem`) and their pagination: they would only add easy members.
