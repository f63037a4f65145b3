# Crypto arbitrage bot core, modelled in Dafny

This project models the two parts of a Telegram crypto-arbitrage bot that hold
its logic:

- **The arbitrage scanner** (`scanner.py`).
  - `ArbitrageScanner.load_markets` builds, for each of five exchanges, the list of spot USDT symbols to scan. The list is truncated to 50. If anything goes wrong for an exchange, it gets five backup symbols instead.
  - `find_arbitrage` evaluates two built-in test pairs and then the pairs of a small live scan (`_scan_real`).
    - For each pair it takes the cheapest and the dearest numeric price, using a stable sort.
    - It computes a fee-adjusted percentage and a dollar profit.
    - It keeps the pair when both figures clear the caller's thresholds.
    - It returns the best three by percentage.
- **The bot's database** (`database.py`).
  - A `users` table maps a user id to a row (username, JSON settings, subscription days, scan count, last scan).
  - A `payments` table holds payment rows in insertion order.
  - Each SQL statement of the module is either an update of that in-memory state or a pure query over it.

Files:

- `basics.dfy`: `Option`, `Result`, `Min`, and Python-style truncation `Take`.
- `stable_sort.dfy`: Python's stable `sorted` as an insertion sort by a real key.
  - Proved: the result is ordered and a permutation of the input.
  - Proved: elements with equal keys keep their input order.
  - Proved: these facts determine the result uniquely.
  - Proved: the first element is the first minimum and the last element is the last maximum.
- `scanner.dfy`: markets, pairs, the scan loop, the ranking, and the `ArbitrageScanner` class.
- `database.dfy`: settings values, rows, the `Store` class holding both tables, and the queries.

Consequences proved about `find_arbitrage`:

- Every pair built by the live scan carries exactly one price, so it can never yield an opportunity. The result is always that of the two test pairs alone (`Scanner.ArbitrageScanner.FindArbitrage`, `Scanner.LiveScanIrrelevant`).
- The SOL and BNB test pairs make about 1.3 % and 1.0 % after the fee. With any percentage threshold of 3 % or more, which includes the default, the scan returns an empty list (`Scanner.TestPairsBelowThreshold`).

Exchange connectivity, clocks and randomness are inputs:

- an exchange's market listing is a `Listing` value (either a failure or the market records);
- the ticker fetch and the random jitter of the live scan are function parameters;
- the SQL `CURRENT_TIMESTAMP` of `increment_scan_count` is an integer parameter.

## Model

| member | source | states |
|---|---|---|
| Basics.Take | scanner.py:29 | Python's `s[:n]`: a prefix of the input with min(len, n) items (also the slices at scanner.py:76 and scanner.py:81) |
| StableSort.SortSorted | scanner.py:57 | the sort puts prices in ascending order |
| StableSort.SortStable | scanner.py:57 | the sort is stable: for every key, the elements with that key keep their input order |
| StableSort.SortUnique | scanner.py:57 | any ordered sequence with the same groups of equal keys as the input is exactly `Sort`'s result, so the tie-breaking is fully determined |
| StableSort.Sort | scanner.py:57 | the result is a permutation of the input (same length, same multiset) |
| StableSort.SortFirstIsFirstMin | scanner.py:57-58 | `sorted_prices[0]` is the first cheapest entry in insertion order |
| StableSort.SortLastIsLastMax | scanner.py:57-59 | `sorted_prices[-1]` is the last dearest entry in insertion order |
| StableSort.FirstMinIndex | scanner.py:58 | reference definition: no entry is cheaper, and every earlier entry is strictly dearer |
| StableSort.LastMaxIndex | scanner.py:59 | reference definition: no entry is dearer, and every later entry is strictly cheaper |
| Scanner.SpotUsdt | scanner.py:24-28 | definition: the inner loop's symbols in market order, or `None` at the first spot market whose `quote` lookup raises; its properties are stated by `SpotUsdtSpec` and `SpotUsdtFailurePersists` |
| Scanner.SpotUsdtSpec | scanner.py:24-28 | the scan of one exchange's markets fails exactly when some spot market has no quote; otherwise it holds exactly the symbols of the spot USDT markets, at most one per market |
| Scanner.SpotUsdtFailurePersists | scanner.py:22-33 | once reading a quote has raised, later markets cannot undo the fallback |
| Scanner.CollectSpotUsdt | scanner.py:24-28 | the appending loop over the markets computes `SpotUsdt` |
| Scanner.ExchangeSymbols | scanner.py:19-33 | an unreachable exchange, or one with a spot market lacking `quote`, gets exactly the five backup symbols. Otherwise it gets the first min(n, 50) spot USDT symbols in market order. Either way at most 50 symbols, each a backup symbol or a spot USDT market's symbol |
| Scanner.Assign | scanner.py:29 | definition of `self.markets[name] = v` on an insertion-ordered dict: replace in place or append; its properties are stated by `AssignLookup`, `AssignKeys` and `AssignDistinct` |
| Scanner.LoadSymbols | scanner.py:22-33 | the `try`/`except` body for one exchange stores exactly `ExchangeSymbols` of its listing |
| Scanner.AssignLookup | scanner.py:29 | `self.markets[name] = v` maps `name` to `v` and leaves every other key alone |
| Scanner.AssignKeys | scanner.py:29 | the assignment keeps the dict's key order and appends a new key at the end |
| Scanner.AssignDistinct | scanner.py:29 | the assignment never creates a second entry for a key |
| Scanner.Loaded | scanner.py:21-33 | definition: the dict after assigning each exchange's `ExchangeSymbols` in exchange order; its properties are stated by `LoadedLookup`, `LoadedDistinct` and `LoadedKeys` |
| Scanner.LoadedLookup | scanner.py:21-33 | after loading, every exchange maps to the symbols its own listing yields, and other entries are unchanged |
| Scanner.LoadedDistinct | scanner.py:21-33 | loading never creates a second entry for a key |
| Scanner.LoadedKeys | scanner.py:21-33 | loading distinct exchange names into an empty dict creates the entries in exchange order |
| Scanner.ArbitrageScanner.constructor | scanner.py:7-15 | the five exchanges in their table order, and an empty `markets` dict |
| Scanner.ArbitrageScanner.LoadMarkets | scanner.py:17-35 | the loop stores each exchange's symbols; every exchange maps to its own `ExchangeSymbols`; the first load creates the keys in exchange order |
| Scanner.Prices | scanner.py:54 | the numeric entries of a pair in insertion order, never more than the pair has fields |
| Scanner.PricesSpec | scanner.py:54 | the kept entries are exactly the numeric ones |
| Scanner.ProfitPct | scanner.py:61 | definition of the fee-adjusted percentage; defined only for a non-zero buy price (the division at scanner.py:61 raises otherwise) |
| Scanner.ProfitUsd | scanner.py:62 | definition of the dollar profit; defined only for a non-zero buy price; tied to `ProfitPct` by `UsdMatchesPct` |
| Scanner.Capitalize | scanner.py:67-69 | `str.capitalize`: same length, the first character upper-cased, every other one lower-cased |
| Scanner.Judge | scanner.py:60-74 | definition of the verdict on a chosen buy and sell quote; its outcomes are stated by `JudgeOutcomes` |
| Scanner.Evaluate | scanner.py:54-74 | definition of one iteration of the scan loop; its meaning is stated by `EvaluateSpec` and `EvaluateQualifies` |
| Scanner.UsdMatchesPct | scanner.py:61-62 | the dollar profit is the gross percentage applied to the volume, times 0.98 |
| Scanner.EvaluateSpec | scanner.py:54-74 | with fewer than two prices a pair yields nothing. Otherwise buy is the first minimum and sell the last maximum, and buy ≤ sell. The pair fails (division by zero) exactly when the buy price is 0. It yields an opportunity exactly when both figures clear their thresholds |
| Scanner.EvaluateQualifies | scanner.py:56-74 | every opportunity has buy ≤ sell, the two formulas, `volume = min_volume`, both thresholds met, and the pair's symbol |
| Scanner.Gather | scanner.py:45-74 | definition: the opportunities of a run of verdicts in order, or the first failure; its properties are stated by the `Gather*` lemmas |
| Scanner.Collect | scanner.py:45-74 | definition: `Gather` of the verdicts of the pairs; its properties are stated by `CollectSpec` and `CollectIgnoresThinPairs` |
| Scanner.GatherFails | scanner.py:53-74 | the scan loop raises exactly when some pair raises |
| Scanner.GatherMembers | scanner.py:53-74 | a completed loop found exactly the opportunities its pairs yield, at most one per pair |
| Scanner.GatherIgnoresNone | scanner.py:53-56 | pairs that yield nothing do not change the loop's outcome |
| Scanner.GatherFailurePersists | scanner.py:53-74 | once a pair has raised, the outcome is that error |
| Scanner.CollectSpec | scanner.py:53-74 | the scan fails exactly when a pair fails; on success it holds exactly the pairs' opportunities, at most one per pair, each qualifying |
| Scanner.CollectIgnoresThinPairs | scanner.py:54-56 | appending pairs with fewer than two prices never changes the scan |
| Scanner.CollectOpportunities | scanner.py:45-74 | the accumulating loop computes `Collect` and stops at the first failure |
| Scanner.JudgeOutcomes | scanner.py:60-74 | a pair raises exactly when its buy price is 0, and yields an opportunity exactly when the buy price is non-zero and both figures clear their thresholds |
| Scanner.Rank | scanner.py:76 | definition of `sorted(..., reverse=True)[:3]`; its properties are stated by `RankSpec` |
| Scanner.RankSpec | scanner.py:76 | the result has min(n, 3) items in non-increasing percentage order and is a sub-multiset of the input. Nothing dropped beats anything kept. Equal percentages keep scan order |
| Scanner.Arbitrage | scanner.py:44-76 | definition: the scan of a list of pairs, then the ranking; its properties are stated by `ArbitrageSpec` |
| Scanner.ArbitrageSpec | scanner.py:44-76 | the result fails exactly when a pair fails; on success it has at most 3 items, all qualifying, in non-increasing percentage order |
| Scanner.RemoveAll | scanner.py:86 | `symbol.replace('/USDT', '')`: removes every non-overlapping occurrence from left to right, so the result is never longer |
| Scanner.LivePair | scanner.py:82-86 | one live exchange adds at most one pair, with exactly one price |
| Scanner.RealPairsStep | scanner.py:81-86 | each further live exchange appends its own pair, if any, to the pairs of the earlier ones |
| Scanner.RealPairs | scanner.py:78-87 | the live scan yields at most one pair per exchange, each with exactly one price |
| Scanner.ArbitrageScanner.ScanReal | scanner.py:78-87 | the loop over the first two exchanges computes `RealPairs` |
| Scanner.LiveScanIrrelevant | scanner.py:53 | appending the live pairs to the test pairs never changes the result |
| Scanner.SolBelowThreshold | scanner.py:49 | the SOL test pair has three prices, buys on KuCoin at 150.25, sells on Bybit at 152.80, and never clears a 3 % threshold |
| Scanner.BnbBelowThreshold | scanner.py:50 | the BNB test pair has two prices, buys on HTX at 550.40, sells on Gate.io at 558.20, and never clears a 3 % threshold |
| Scanner.TestPairsBelowThreshold | scanner.py:48-53 | with a threshold of 3 % or more, the test pairs yield nothing |
| Scanner.TieBreakExample | scanner.py:57-73 | equal prices: buy is the first exchange listed and sell the last, names capitalized, profit 0 and percentage −0.4 |
| Scanner.ArbitrageScanner.FindArbitrage | scanner.py:44-76 | the result is the ranked scan of the test pairs followed by the live pairs. This equals the result on the test pairs alone. On success it has at most 3 qualifying items in non-increasing order. It is empty at any threshold of 3 % or more |
| Database.DefaultUsername | database.py:59 | the fallback name `User<id>` (also at database.py:76 and database.py:85) starts with `User` and has at least one more character |
| Database.IntToStringRoundTrip | database.py:59 | the decimal rendering of a user id reads back as that id |
| Database.DefaultUsernameInjective | database.py:59 | different users get different `User<id>` names |
| Database.RowFor | database.py:85-98 | the stored JSON map is the settings minus `username`, `subscription_days` and `total_scans`; `last_scan` is reset by the replace |
| Database.IntColumn | database.py:86-87 | definition: the integer stored for `subscription_days` or `total_scans`, 0 when the key is missing and NULL when the value is null; used by `RowFor` |
| Database.View | database.py:57-72 | a read returns the default keys plus the stored ones, a non-empty username, and integer counters |
| Database.NewUserSettings | database.py:75-76 | a new user gets the defaults with `username = 'User<id>'` |
| Database.SaveLoadRoundTrip | database.py:57-72 | reading after saving `s` gives the defaults overridden by `s`. A missing, null or empty username becomes `User<id>`. A missing or null counter reads as 0 |
| Database.FirstReadStable | database.py:73-78 | the row a first read inserts reads back as what the first read returned |
| Database.Store.constructor | database.py:18-47 | `init_db`: both tables start empty and the AUTOINCREMENT counter is 0 |
| Database.Store.SaveUserSettings | database.py:80-101 | the user's row is replaced by `RowFor`; no other row and no payment changes |
| Database.Store.GetUserSettings | database.py:49-78 | an existing user gets `View` of the row and nothing changes. A new user gets `NewUserSettings`, and exactly that row is inserted. Afterwards the user exists and reads back the returned settings |
| Database.AddOrNull | database.py:108 | SQL `c + d`: NULL stays NULL, otherwise the value grows by `d` |
| Database.WithDaysAdded | database.py:107-110 | only the named user's `subscription_days` changes; a missing user creates no row |
| Database.Store.AddSubscriptionDays | database.py:103-113 | the table becomes `WithDaysAdded`; payments are unchanged |
| Database.WithScanCounted | database.py:119-122 | only the named user's `total_scans` (+1) and `last_scan` change |
| Database.Store.IncrementScanCount | database.py:115-125 | the table becomes `WithScanCounted`; payments are unchanged |
| Database.Store.SavePayment | database.py:127-137 | exactly one row is appended, with a fresh increasing id and status `'pending'` by default |
| Database.WithStatus | database.py:162-165 | every row with that `payment_id` gets the new status, and no other row changes |
| Database.Store.UpdatePaymentStatus | database.py:158-168 | the payments become `WithStatus`; users are unchanged |
| Database.FirstMatch | database.py:143-144 | the index of the first row with the given `payment_id`, or the length when none matches |
| Database.PaymentStatus | database.py:139-156 | nothing (the empty dict) exactly when no row matches; otherwise the first row, in insertion order, with that `payment_id` |
| Database.SavedPaymentFound | database.py:127-156 | after a save, the new row is found by its id unless an earlier row has that id; other lookups are unchanged |
| Database.UpdatedStatusFound | database.py:139-168 | after a status update, the lookup finds the same row with the new status; other lookups are unchanged |
| Database.ActiveIds | database.py:174 | exactly the users whose `subscription_days` is non-null and positive |
| Database.ActiveUsersCount | database.py:170-178 | the active count never exceeds the number of users |
| Database.TotalScans | database.py:180-188 | the sum is 0 for an empty table and non-negative when every counter is |
| Database.ScanSum | database.py:184 | definition of `SUM(total_scans)` over a set of rows, taking one row at a time in any order, NULL adding 0; its properties are stated by `ScanSumRemove` and `ScanSumAgree` |
| Database.ScanSumRemove | database.py:184 | `SUM` does not depend on the order of the rows |
| Database.ScanSumAgree | database.py:184 | rows that contribute the same amounts give the same sum |
| Database.AddDaysEffect | database.py:103-113 | adding days changes only that user's membership of the active set. The user is active afterwards exactly when the new count is positive. The scan total is unchanged |
| Database.ScanCountedTotal | database.py:115-125 | counting a scan raises the total by exactly 1, or by 0 when the user is missing or the counter is NULL. The active set is unchanged |
| Database.Limited | database.py:198 | `LIMIT` lets through at most `limit` rows, or all of them for a negative limit |
| Database.Store.GetAllUsers | database.py:190-212 | the appending loop returns the first `Limited(limit, n)` rows in `ORDER BY last_scan DESC` order, one per user, with their raw column values |

## Left out

- `bot.py` (Telegram handlers, scheduling, message sending) and `config.py` (environment variables) are not part of this model.
- Network I/O:
  - ccxt exchange construction, `exchange.load_markets()` and `get_price`/`fetch_ticker` are inputs here. A listing is either `Unreachable` or its market records.
  - The ticker fetch is a function that returns 0 on failure, as `get_price` does.
- The `random.uniform(-1, 2)` jitter of `_scan_real` is an arbitrary function parameter. Its range is not modelled.
- The `print` progress messages of `load_markets` are not modelled.
- `format_signal` is not modelled. It only formats text, using float precision and an external link table.
- Python floats are modelled as exact `real`s. Rounding is not modelled.
  - Python's `isinstance(v, (int, float))` test is modelled as "the field is a number". Booleans counting as integers is not modelled.
- A pair's fields are a sequence of (name, value) entries. Unlike a Python dict, that sequence could repeat a name.
- `Scanner.Capitalize`: `str.capitalize` is modelled on ASCII letters only.
- SQLite mechanics are not modelled:
  - connections, `CREATE TABLE`, and the `init_db()` call at import time;
  - the `created_at` and `subscription_end` columns;
  - JSON encoding, which is taken as a faithful round trip of the settings map;
  - `SELECT *` row order, taken to be insertion order;
  - the order of the keys in the returned settings dictionary.
- `Database.Store.SaveUserSettings`: requires the `username`, `subscription_days` and `total_scans` values to be text or integers (or null). This is a restriction of the model, not of the source, which accepts any value. SQLite's type-affinity conversion of other values is not modelled.
- `Database.Store.GetAllUsers`: takes the row order that `ORDER BY last_scan DESC` produced as an input. That order must list each user once, most recent scan first. The database's choice among rows with equal `last_scan` is not modelled.
- SQLite's 64-bit INTEGER is not modelled: counters, ids and sums are unbounded integers. Python's `sqlite3` raises `OverflowError` for a `user_id` or `days` argument outside 64 bits; the model accepts any integer.
- `Database.AddOrNull`: does not model that `subscription_days + ?` turns into a REAL on 64-bit overflow; the model keeps adding exactly.
- `Database.ScanSum`: does not model that `SUM(total_scans)` raises "integer overflow" past 64 bits; the model returns the exact sum.
- The shallow `DEFAULT_SETTINGS.copy()` (database.py:64 and database.py:75) is not modelled. The returned dict shares the `networks` and `brokers` lists with the module constant, so a caller that edits them in place changes the defaults for later users. Settings here are values, so this aliasing cannot arise.
- `Database.TotalScans` is a specification function, a sum over the rows in any order. It is not an executable query.
