# Player ledger and slot spin, modelled in Dafny

This project models the core of a small casino backend. Each player has an
integer balance in a `players` table. A Redis cache sits in front of that
balance for plain reads. Two groups of handlers work on the table:

- the wallet handlers: balance, credit and debit;
- the slot handlers: config and spin, where spin takes a bet, draws three
  reels from a five-symbol alphabet and pays `bet × multiplier` on a
  three-of-a-kind.

The repository implements this core twice, and both versions are modelled so
that they can be compared:

- **The framework controllers** (`WalletController`, `SlotController`). The
  balance read goes through the cache: a hit answers from Redis with source
  `cache`. A miss loads the row, caches it with the TTL (30 by default) and
  answers with source `database`. Credit and debit check the amount and that
  the player exists, refuse a debit larger than the balance, save the row,
  delete the player's cache key and return a receipt. Spin checks the bet
  against `minBet..maxBet`, which come from the environment (1..1000 by
  default). A missing bet defaults to `minBet`.
- **The standalone front script** (`index.php`). It has no cache. The bet
  range is fixed at 1..1000 and a missing bet defaults to 10. An unknown
  player's debit fails with "Insufficient balance". Credit does not check
  that the player exists. Login creates an absent player with role `player`
  and balance 10000.

Layout:

- `ledger.dfy` (module `Ledger`): the shared data model. It holds the player
  rows, the reply records and the failure messages. The `Database` class
  (the players table) and the `Redis` class (the cache) are the two mutable
  stores. It also defines `NonNegative` (no balance below zero) and
  `Coherent` (every cached balance equals the stored one).
- `spin_engine.dfy` (module `SpinEngine`): the alphabet, the three-reel draw
  and the payout table, as pure functions.
- `wallet_controller.dfy`, `slot_controller.dfy`, `front_script.dfy`: one
  module per source file. Each handler is a pure step function over the
  table (and, for the wallet, the cache), with its properties in its
  `ensures`. Each source class is also a Dafny class whose methods do what
  the handler does, statement by statement, against the `Database` and
  `Redis` objects. Each method is proved equal to its step function.
- `sessions.dfy` (module `Sessions`): sequences of requests. It proves the
  invariants that every reachable state keeps. It also shows where coherence
  breaks, and it works through concrete scenarios.

Inputs that the program gets from outside become parameters:

- the random draws (`array_rand`) are a `Picks` value: three indices below 5;
- generated identifiers (`Str::uuid`, `uniqid`) are string parameters;
- environment settings (`WALLET_CACHE_TTL`, `SLOT_MIN_BET`, `SLOT_MAX_BET`)
  are `Option<int>` constructor parameters;
- request fields that may be missing (`amount`, `bet`, `ref`) are `Option`
  values, with the source's defaults applied in the model.

Where the two versions, or one handler and its siblings, behave differently:

- The framework credit and debit delete the player's cache key after saving
  (WalletController.php:103-106). The framework spin saves once after the
  debit, and again after adding the win on a three-of-a-kind; it deletes
  nothing (SlotController.php:56-77). The model follows the
  code: `Sessions.SpinLeavesCachedBalanceStale` shows a read after a spin
  returning the pre-spin balance from the cache, so
  `Sessions.WalletRunKeepsCacheCoherent` holds only for runs without spins.
  The corrected spin is under "## Findings".
- The framework credit rejects an unknown player with "Player not found"
  (WalletController.php:81-88). The front script's credit has no such check
  (index.php:142-157): the `UPDATE` matches no row, the follow-up `SELECT`
  yields `false`, its `['balance']` casts to 0, and the reply is a success
  with balance 0.
- Neither version makes a request atomic: each reads, checks and writes in
  separate statements. The model takes each request as one atomic step (see
  "## Left out").

## Model

| member | source | states |
|---|---|---|
| `Ledger.Delta` | backend/app/Http/Controllers/WalletController.php:113 | the receipt delta is `+amount` for a credit and `-amount` for a debit, so for a positive amount its sign tells which one it was |
| `Ledger.CacheKeyInjective` | backend/app/Http/Controllers/WalletController.php:23 | distinct players have distinct `wallet:balance:` keys, so invalidating one player's entry never touches another's |
| `Ledger.Database.AddToBalance` | backend/index.php:142-143 | `UPDATE ... SET balance = balance + ?` changes only the matched row, and for an absent player changes nothing |
| `Ledger.Redis.SetEx` | backend/app/Http/Controllers/WalletController.php:46 | `Redis::setex` stores the value with its TTL exactly when the TTL is positive; Redis refuses an expiry of 0 or less, and then nothing is stored |
| `Ledger.Database.Find` | backend/app/Http/Controllers/WalletController.php:37 | `Player::where(...)->first()` / `SELECT ... WHERE player_id = ?` yields the stored row exactly when the player is present, and nothing otherwise |
| `Ledger.Database.Save` | backend/app/Http/Controllers/WalletController.php:103 | `save()` of a loaded player replaces that player's row with the modified one and leaves every other row as it was |
| `Ledger.Database.Insert` | backend/index.php:91-92 | the INSERT adds a row for a player the table does not hold yet and changes no other row |
| `Ledger.Redis.Get` | backend/app/Http/Controllers/WalletController.php:24 | `Redis::get` yields the cached value exactly when the key is present, and `null` otherwise |
| `Ledger.Redis.Del` | backend/app/Http/Controllers/WalletController.php:106 | `Redis::del` removes exactly the given key and keeps every other entry |
| `SpinEngine.SymbolsDistinct` | backend/app/Http/Controllers/SlotController.php:59 | the five symbols of the alphabet are pairwise distinct |
| `SpinEngine.Multiplier` | backend/app/Http/Controllers/SlotController.php:68-75 | every multiplier is at least the default 10, and a symbol missing from the table gets exactly 10 |
| `SpinEngine.Draw` | backend/app/Http/Controllers/SlotController.php:59-64 | a spin shows exactly three reels, each a member of the five-symbol alphabet |
| `SpinEngine.DrawReachesEveryOutcome` | backend/app/Http/Controllers/SlotController.php:59-64 | every triple of alphabet symbols, repeats included, is the outcome of some draw |
| `SpinEngine.DrawnSymbolsArePriced` | backend/app/Http/Controllers/SlotController.php:59-75 | every drawn reel has its own entry in the payout table, so the `?? 10` fallback never applies to a real spin |
| `SpinEngine.Payout` | backend/app/Http/Controllers/SlotController.php:66-75 | the win is 0 unless all three reels match, and then `bet × multiplier[reels[0]]`; for a non-negative bet it is non-negative; for a positive bet it is positive exactly on a three-of-a-kind, and then at least `10 × bet` |
| `SpinEngine.PayoutTable` | backend/app/Http/Controllers/SlotController.php:68-74 | three cherries, lemons, grapes, diamonds or sevens pay 10, 15, 20, 50 or 100 times the bet |
| `WalletControllerModel.ReadStep` | backend/app/Http/Controllers/WalletController.php:19-56 | a hit returns the cached value with source `cache` and leaves the cache alone; a miss for a known player with a positive TTL returns the stored balance with source `database` and caches it with the TTL; with a TTL of 0 or less Redis refuses the write and the read fails, cache unchanged; a miss for an unknown player fails with "Player not found" and caches nothing; no other key changes; a coherent cache stays coherent and then the answer always equals the stored balance |
| `WalletControllerModel.UpdateStep` | backend/app/Http/Controllers/WalletController.php:68-118 | fails with "Invalid amount" exactly when the amount (0 if missing) is not positive, with "Player not found" exactly when the player is absent, and with "Insufficient balance" exactly for a debit above the balance; it succeeds exactly when none of these holds; a failure changes neither the table nor the cache; a success moves the balance by exactly the receipt delta (`+amount` or `-amount`), reports the new balance and the caller's ref or else the generated one, removes the player's cache entry only, leaves other players and the role untouched, and keeps balances non-negative and the cache coherent |
| `WalletControllerModel.CreditThenDebitRestores` | backend/app/Http/Controllers/WalletController.php:90-113 | for a known player with a non-negative balance, a credit of `x` followed by a debit of `x` both succeed, their deltas cancel, and the table is exactly as before |
| `WalletControllerModel.ReadAfterUpdateComesFromDatabase` | backend/app/Http/Controllers/WalletController.php:103-106 | after a successful credit or debit the next balance read returns the updated stored balance with source `database` when the TTL is positive, and fails on the refused cache write otherwise |
| `WalletControllerModel.SerializedDebits` | backend/app/Http/Controllers/WalletController.php:90-101 | of `n` debits of `amount` handled one after the other against balance `B >= 0`, exactly `min(n, B / amount)` succeed, and the balance ends at `B - amount × successes >= 0` |
| `WalletControllerModel.WalletController.constructor` | backend/app/Http/Controllers/WalletController.php:14-17 | the cache TTL is `WALLET_CACHE_TTL` when set, else 30 |
| `WalletControllerModel.WalletController.Balance` | backend/app/Http/Controllers/WalletController.php:19-56 | the Redis get, the row lookup and the `setex` (refused for a TTL of 0 or less) leave exactly the reply and Redis contents of `ReadStep` on the cache and table before the call |
| `WalletControllerModel.WalletController.CreditRequest` | backend/app/Http/Controllers/WalletController.php:58-61 | the reply, table and cache are those of a credit `UpdateStep` |
| `WalletControllerModel.WalletController.DebitRequest` | backend/app/Http/Controllers/WalletController.php:63-66 | the reply, table and cache are those of a debit `UpdateStep` |
| `WalletControllerModel.WalletController.UpdateBalance` | backend/app/Http/Controllers/WalletController.php:68-118 | the validation, the save of the modified row, the cache delete and the receipt leave exactly the reply, table and cache of `UpdateStep` |
| `SlotControllerModel.SpinStep` | backend/app/Http/Controllers/SlotController.php:35-90 | with the bet defaulting to `minBet`: fails with the bounds message exactly when the bet is outside `minBet..maxBet`, and with "Insufficient balance" exactly when it is in range but the player is missing or short; it succeeds exactly when the bet is in range and the player is present with at least the bet; a failure changes nothing; a success shows the drawn reels, wins `Payout(reels, bet)`, leaves the balance at `initial − bet + win`, reports that balance, and touches no other player; with `minBet >= 0` no balance goes negative |
| `SlotControllerModel.SpinStepInvalidating` | backend/app/Http/Controllers/SlotController.php:56-77 | the spin with the cache delete credit and debit perform: the same reply and table as `SpinStep`, the player's cache entry removed on success, and a coherent cache kept coherent |
| `SlotControllerModel.NegativeMinBetCanOverdraw` | backend/app/Http/Controllers/SlotController.php:40-76 | with `minBet` set to -1 a bet of -1 on three cherries takes a zero balance to -9, so non-negativity depends on `minBet >= 0` |
| `SlotControllerModel.SlotController.constructor` | backend/app/Http/Controllers/SlotController.php:15-19 | the bounds are `SLOT_MIN_BET` / `SLOT_MAX_BET` when set, else 1 and 1000 |
| `SlotControllerModel.SlotController.Config` | backend/app/Http/Controllers/SlotController.php:21-33 | reports the bounds spin enforces, paylines 5 and reels 3, and five symbols that include every reel a spin can draw and all have a table entry |
| `SlotControllerModel.SlotController.Spin` | backend/app/Http/Controllers/SlotController.php:35-90 | debit-save, draw, and on a three-of-a-kind credit-save leave exactly the reply and table of `SpinStep` |
| `FrontScriptModel.FrontConfig` | backend/index.php:67-79 | fixed bounds 1 and 1000, paylines 5, reels 3, and five symbols that include every drawable reel and all have a table entry |
| `FrontScriptModel.LoginStep` | backend/index.php:81-107 | an absent player is inserted with role `player` and balance 10000; a present player's row is returned unchanged; the reply carries the player's role; balances stay non-negative |
| `FrontScriptModel.LoginIdempotent` | backend/index.php:86-94 | a second login of the same player changes nothing and replies the same |
| `FrontScriptModel.FrontBalance` | backend/index.php:109-126 | a known player's stored balance with source `database`, otherwise "Player not found" |
| `FrontScriptModel.SelectedBalance` | backend/index.php:145-153 | the re-selected balance is the stored one for a present player, and 0 for an absent one, where `fetch` gives `false` and `(int)` of its missing `balance` is 0 |
| `FrontScriptModel.FrontCredit` | backend/index.php:128-160 | fails with "Invalid amount" exactly when the amount (0 if missing) is not positive, changing nothing; otherwise the delta is `+amount`, a known player's balance rises by exactly that amount, and an unknown player gets a success with balance 0 and no row changes |
| `FrontScriptModel.FrontDebit` | backend/index.php:162-204 | fails with "Invalid amount" exactly for a non-positive amount, and with "Insufficient balance" exactly when the player is missing or short; it succeeds exactly for a positive amount by a present player with at least that balance; a failure changes nothing; a success lowers the balance by exactly the amount, with delta `-amount`, and keeps balances non-negative |
| `FrontScriptModel.FrontSpin` | backend/index.php:206-264 | with the bet defaulting to 10: fails with "Invalid bet" exactly outside 1..1000, and with "Insufficient balance" exactly when the player is missing or short, changing nothing; it succeeds exactly for a bet in 1..1000 by a present player with at least the bet; a success leaves the balance at `initial − bet + win`, where the win comes from the same payout table, keeps the role, and reports that balance; no balance goes negative |
| `FrontScriptModel.FrontSpinMatchesController` | backend/index.php:212-247 | for an explicit bet, the front spin and the framework spin under default bounds leave the same table and reply alike, apart from the wording of the out-of-range failure |
| `FrontScriptModel.DefaultBetsDiffer` | backend/index.php:212 | without a bet the front script stakes 10 where the framework controller, with default bounds, stakes 1 |
| `FrontScriptModel.FrontDebitMatchesController` | backend/index.php:176-198 | both debits leave the same table, and reply alike for a known player; for an unknown one the front script says "Insufficient balance" where the framework says "Player not found" |
| `FrontScriptModel.FrontCreditMatchesController` | backend/index.php:142-157 | both credits leave the same table, and reply alike for a known player; for an unknown one the front script reports success with balance 0 where the framework fails |
| `FrontScriptModel.ConfigsAgreeUnderDefaults` | backend/index.php:67-79 | with no bounds in the environment the two config endpoints report the same data |
| `FrontScriptModel.FrontScript.Login` | backend/index.php:81-107 | the select and the conditional insert leave exactly the reply and table of `LoginStep` |
| `FrontScriptModel.FrontScript.Balance` | backend/index.php:109-126 | replies `FrontBalance` of the current table |
| `FrontScriptModel.FrontScript.Credit` | backend/index.php:128-160 | the update and re-select leave exactly the reply and table of `FrontCredit` |
| `FrontScriptModel.FrontScript.Debit` | backend/index.php:162-204 | the select, check, update and re-select leave exactly the reply and table of `FrontDebit` |
| `FrontScriptModel.FrontScript.Spin` | backend/index.php:206-264 | the select, debit update, draw, conditional win update and re-select leave exactly the reply and table of `FrontSpin` |
| `Sessions.RunKeepsBalancesNonNegative` | backend/app/Http/Controllers/WalletController.php:74-103 | with `minBet >= 0`, every sequence of framework balance, credit, debit and spin requests and cache expiries keeps every balance non-negative |
| `Sessions.WalletRunKeepsCacheCoherent` | backend/app/Http/Controllers/WalletController.php:37-106 | every sequence of balance, credit and debit requests and cache expiries keeps each cached balance equal to the stored one |
| `Sessions.SpinLeavesCachedBalanceStale` | backend/app/Http/Controllers/SlotController.php:56-77 | after a cached read and a losing spin of 100, the next read still returns 10000 from the cache while the table holds 9900 |
| `Sessions.InvalidatingRunKeepsCacheCoherent` | backend/app/Http/Controllers/WalletController.php:37-106 | with the invalidating spin, every sequence of balance, credit, debit and spin requests and cache expiries keeps each cached balance equal to the stored one |
| `Sessions.InvalidatingSpinReadsFreshBalance` | backend/app/Http/Controllers/SlotController.php:56-77 | with the invalidating spin, the read after a cached read and a losing spin of 100 returns 9900 from the database |
| `Sessions.FrontRunKeepsBalancesNonNegative` | backend/index.php:128-264 | every sequence of front-script logins and wallet and spin requests keeps every balance non-negative |
| `Sessions.NewPlayerScenario` | backend/index.php:86-247 | a new player logs in with 10000, loses a spin of 100 (9900), then wins 1000 with three cherries on a bet of 100 (10800) |
| `Sessions.DiamondJackpot` | backend/app/Http/Controllers/SlotController.php:66-77 | three diamonds on a bet of 10 win 500, and the balance moves by −10 + 500 |
| `Sessions.OutOfRangeBetsRefused` | backend/app/Http/Controllers/SlotController.php:40-45 | bets of 0 and 1001 fail under the default bounds and leave the table unchanged |

## Findings

| source | as written | input that shows it | evidently intended | confidence | as-written member | corrected member |
|---|---|---|---|---|---|---|
| backend/app/Http/Controllers/SlotController.php:56-77 | spin saves the new balance but never deletes `wallet:balance:{id}` | player at 10000, a balance read (cached 10000), a losing spin of 100, a second read: it returns 10000 from the cache while the table holds 9900 | delete the player's cache key after saving, as credit and debit do (WalletController.php:105-106) | high; not executed | `Sessions.SpinLeavesCachedBalanceStale` | `Sessions.InvalidatingRunKeepsCacheCoherent` |

## Left out

- HTTP plumbing: status codes, JSON encoding, request parsing and the
  `(int)` casts of request fields, and the route table. Requests arrive
  already parsed into typed fields.
- Token handling: the front script's token decode and its `player-001`
  fallback, the token it issues at login, and JWT issuance in
  `AuthController`, which is a call into a foreign library.
- Health and performance probes, the dashboard UI, the WebSocket relay and
  environment configuration files. They are I/O with no ledger logic.
- Randomness and identifiers: the reel draws, the `ref`, the `txId` and the
  `roundId` are inputs. The model says nothing about their distribution or
  uniqueness.
- Cache expiry by wall-clock time. The TTL is stored with each entry.
  Expiry is an eviction that may happen between any two requests
  (`Sessions.CacheExpiry`).
- Concurrency. Both versions read, check and write in separate statements,
  so concurrent requests can interleave. The model takes each request as
  one atomic step. `WalletControllerModel.SerializedDebits` therefore covers
  only requests that run one after another.
- Database failure between a spin's debit and its credit. Each step either
  happens whole or not at all.
- Timestamps (`created_at`, `updated_at`). No handler reads them.
- Player ids are taken as canonical and compared exactly. The source finds
  rows with `WHERE player_id = ?` under the `utf8mb4_unicode_ci` collation,
  which ignores case and trailing spaces, while Redis keys are
  case-sensitive. The model does not capture two spellings of one id
  reaching the same row, nor two cache keys for one row.
- WalletControllerModel.UpdateStep: balances and amounts are unbounded
  integers; PHP's overflow past 64 bits to a float, and the store then
  refusing the value, are not modelled.
- FrontScriptModel.FrontCredit: balances and amounts are unbounded
  integers; a `balance + ?` past the column's range is not modelled.
- SlotControllerModel.SpinStep: balances, bets and wins are unbounded
  integers; 64-bit overflow of `$bet * multiplier` or `balance += $win` is
  not modelled.
- FrontScriptModel.FrontSpin: balances, bets and wins are unbounded
  integers; overflow of the win or the balance update is not modelled.
- SpinEngine.Payout: the win is an unbounded integer; PHP's overflow of
  `$bet * multiplier` to a float is not modelled.
