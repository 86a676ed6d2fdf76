# Energy rental bot: a Dafny model of the order pipeline

The system is a Telegram bot that rents TRON "energy" (the resource that pays for smart-contract
calls) to its users. Money comes in as on-chain transfers to the bot's receiving wallets:

- A TRX payment whose amount equals a package price buys a one-off energy rental.
- A USDT payment buys "bishu" credit, a number of per-use energy top-ups.
- Users can also register a wallet for a standing order: smart trusteeship, or a bishu
  package. When a resource check finds the wallet's energy below its threshold, the order is
  flagged for purchase, and the standing-order task buys energy for it.

Energy is bought from supplier platforms in ascending `seq_sn` order. There are four supplier
kinds: nee.cc, RentEnergysBot, own stake and trongas.io. A supplier that fails makes the order task try
the next one. The first success writes a platform-order row and updates the payment or
standing order.

The model has these modules, one per source file or shared concept:

- `Records`: the table rows, the supplier requests and their replies. Amounts of TRX and USDT
  are integers in micro-units (10^-6 of a coin).
- `Store`: the database as a `Db` class whose tables are `seq` fields. Its `UPDATE` and
  `INSERT` methods state the new state in terms of the old one.
- `Sql`: the statement text and parameters built by the generic table model.
- `Queries`: each table-model lookup as a filter over the stored rows.
- `Adapters`: the request each supplier kind sends and how its reply is classified.
- `TrxOrders`: the payment-order task (TRX packages and USDT bishu credit).
- `StandingOrders`: the standing-order purchase task.
- `ResourceCheck`: the wallet-resource check task.
- `Intake`: the chain scanners that record incoming TRX and USDT transfers.
- `Wallets`: the watched receiving wallets.
- `Utils`: address masking and API-key choice.
- `BotSession`: the bot's per-user conversation state, the address-input and bishu
  registration path, and callback routing.

**How the scheduled tasks are specified.** Each scheduled task that changes the database is a method on `Db`. The
method is proved to end in exactly the state a pure specification function gives (for example
`ProcessTrxSpec` or `HandleOrderSpec`). The pipeline's promises are lemmas about those
functions:

- at most one order per payment;
- platforms tried in order, stopping at the first success;
- nothing else in the database changes;
- a transfer whose hash is already stored is never inserted again.

**The outside world.** The clock, the supplier endpoints, the chain's account and transfer
APIs, the process environment and the random choice of an API key are all parameters:

- the clock, the supplier endpoints and the account API are `Adapters.Env`. Own stake is the
  exception: as written it sends its GET request to the bare name `energy_stake_api_url`, which is not a URL,
  so that request never leaves (`Adapters.PlaceAsWritten`);
- the transfer APIs are `Intake.Chain`;
- the process environment is the `getenv` argument of `Utils.RandomApiKey`;
- the random key choice is its `pick` argument.

Every request the pipeline sends to a supplier or chain API is appended to the `sent` log of
the state. Every notification it hands to the message sender is appended to the `notices`
log. That lets the contracts say which requests were made and in which order.

## Model

| member | source | states |
|---|---|---|
| Store.WithTable | energy_rental_bot/tasks/handle_ai_energy_order_task.py:159-164 | replacing the table of one order kind leaves every other table of the state as it was |
| Store.PatchTrade | energy_rental_bot/models/base_model.py:21-26 | an update by id rewrites exactly the trade rows carrying that id and keeps every other row and the row count |
| Store.PatchOrder | energy_rental_bot/models/base_model.py:21-26 | an update by id rewrites exactly the standing-order rows carrying that id and keeps every other row and the row count |
| Store.NextTradeRid | energy_rental_bot/models/base_model.py:28-34 | the auto-increment id of an inserted trade is positive and larger than every stored id |
| Store.NextOrderRid | energy_rental_bot/models/base_model.py:28-34 | the auto-increment id of an inserted standing order is positive and larger than every stored id |
| Store.Db.UpdateTrade | energy_rental_bot/models/base_model.py:21-26 | the trade table is patched by id and nothing else in the database changes |
| Store.Db.InsertTrade | energy_rental_bot/models/base_model.py:28-34 | the row is appended to the trade table and nothing else changes |
| Store.Db.UpdateOrder | energy_rental_bot/models/base_model.py:21-26 | the standing-order table of the kind is patched by id and nothing else changes |
| Store.Db.InsertOrder | energy_rental_bot/models/base_model.py:28-34 | the row is appended to the standing-order table of the kind and nothing else changes |
| Store.Db.InsertPlatformOrder | energy_rental_bot/tasks/handle_energy_order_task.py:281-282 | the row is appended to the platform-order table and nothing else changes |
| Store.Db.Send | energy_rental_bot/utils/energy_utils.py:37-67 | the requests are appended to the log of sent requests and nothing else changes |
| Store.Db.Notify | energy_rental_bot/tasks/handle_ai_energy_order_task.py:188-192 | the notification is appended to the notice log and nothing else changes |
| Sql.SelectById | energy_rental_bot/models/base_model.py:15-19 | the select-by-id statement has exactly one placeholder, bound to the id |
| Sql.FirstOrNone | energy_rental_bot/models/base_model.py:19 | the result is nothing exactly when the query returned no row, and otherwise its first row |
| Sql.UpdateStatement | energy_rental_bot/models/base_model.py:21-26 | the update statement has one placeholder per column plus one for the id; its parameters are the values in column order followed by the id; and its text is `UPDATE <table> SET`, then the `column_i = %s` assignments in column order, then `WHERE rid = %s`, so the i-th assignment and the i-th parameter belong to the same column |
| Sql.UpdateFrames | energy_rental_bot/models/base_model.py:23-25 | the update text splits into its head, the column assignments in column order and its `WHERE` tail |
| Sql.AssignmentsSplit | energy_rental_bot/models/base_model.py:23 | cutting the joined set clause at its commas gives back one `column = %s` assignment per column, in column order |
| Sql.SplitJoin | energy_rental_bot/models/base_model.py:23-31 | joining comma-free parts with ", " and cutting at the commas gives back the parts |
| Sql.InsertStatement | energy_rental_bot/models/base_model.py:28-34 | the insert statement has exactly one placeholder per column and its parameters are the values in column order; its column list is the data's columns in that same order, followed by one `%s` per column |
| Sql.InsertFrames | energy_rental_bot/models/base_model.py:30-33 | the insert text splits into the column list in column order and the list of placeholders, one per column |
| Sql.DeleteStatement | energy_rental_bot/models/base_model.py:36-39 | the delete statement has exactly one placeholder, bound to the id |
| Sql.SetClausePlaceholders | energy_rental_bot/models/base_model.py:23 | the joined `column = %s` list holds exactly one placeholder per column |
| Sql.ColumnListPlaceholders | energy_rental_bot/models/base_model.py:30 | a list of column names holds no placeholder |
| Sql.MarkListPlaceholders | energy_rental_bot/models/base_model.py:31 | the placeholder list of an insert holds exactly as many placeholders as there are columns |
| Sql.PlaceholdersConcat | energy_rental_bot/models/base_model.py:25 | placeholders of joined texts add up unless a `%` at the end of one meets an `s` at the start of the next |
| Queries.InsertBySeq | energy_rental_bot/models/energy_models.py:246 | inserting a platform adds exactly that platform to the list and lengthens it by one |
| Queries.InsertBySeqSorted | energy_rental_bot/models/energy_models.py:246 | inserting into a list sorted by `seq_sn` keeps it sorted |
| Queries.SortBySeq | energy_rental_bot/models/energy_models.py:246 | the result is sorted by ascending `seq_sn` and is a permutation of the input |
| Queries.AvailablePlatformRows | energy_rental_bot/models/energy_models.py:241-250 | the available platforms are exactly the enabled rows whose balance covers the amount, each as often as stored, by ascending `seq_sn`; the list is empty exactly when no row qualifies |
| Queries.AvailablePlatformsAsWritten | energy_rental_bot/models/energy_models.py:241-261 | the lookup as written is never empty: with no qualifying row it returns the stand-in platform |
| Queries.StandInPlatformOffered | energy_rental_bot/models/energy_models.py:252-261 | with no platform stored the lookup as written still offers the stand-in platform |
| Queries.FindPackage | energy_rental_bot/models/energy_models.py:299-307 | the package is nothing exactly when no enabled package of the bot has that price, and otherwise the first such package in the table |
| Queries.PackageByTrxPriceAsWritten | energy_rental_bot/models/energy_models.py:299-315 | the lookup as written returns the matching package, or the stand-in package when none matches |
| Queries.StandInPackageSold | energy_rental_bot/models/energy_models.py:309-315 | a 1 TRX payment with an empty package table is sold 50000 energy by the lookup as written |
| Queries.ExistingHashes | energy_rental_bot/models/energy_models.py:392-400 | an empty hash list asks nothing and finds nothing; at most one hash is returned per stored row |
| Queries.ExistingHashesMembers | energy_rental_bot/models/energy_models.py:392-400 | a hash is returned exactly when it was asked about and is stored |
| Queries.PendingTradeRows | energy_rental_bot/models/energy_models.py:324-340 | the pending trades are exactly the stored rows with process status 1, narrowed by coin and by receiving wallet when given |
| Queries.PendingTransactionsAsWritten | energy_rental_bot/models/energy_models.py:324-355 | the lookup as written is never empty: with nothing pending it returns the stand-in trade |
| Queries.StandInTradeProcessed | energy_rental_bot/models/energy_models.py:342-355 | with nothing pending the lookup as written hands the order task trade 1 as a payment from the receiving wallet itself |
| Queries.NotificationRows | energy_rental_bot/models/energy_models.py:357-368 | the rows to notify are exactly the done trades whose notice flag of the given type is still 'N'; an unknown type takes every done trade |
| Queries.NotificationsAsWritten | energy_rental_bot/models/energy_models.py:357-390 | the lookup as written is never empty: with nothing to notify it returns the stand-in row |
| Queries.PendingOrderRows | energy_rental_bot/models/energy_models.py:61-69 | the pending standing orders are exactly the enabled rows flagged 'Y'; a bishu row must also be below its per-use energy |
| Queries.PendingOrdersAsWritten | energy_rental_bot/models/energy_models.py:61-87 | the lookup as written is never empty: with nothing pending it returns the stand-in order of the kind |
| Queries.StandInOrderDispatched | energy_rental_bot/models/energy_models.py:182-202 | with an empty table the stand-in order of either kind passes the pending test, so the standing-order task would buy energy for it |
| Queries.ResourceCheckRows | energy_rental_bot/models/energy_models.py:148-156 | the rows to check are exactly the enabled, opened rows flagged 'N' |
| Queries.ResourceCheckAsWritten | energy_rental_bot/models/energy_models.py:37-59 | the lookup as written is never empty: with no row it returns the stand-in row of the kind |
| Queries.FindByWallet | energy_rental_bot/models/energy_models.py:15-20 | the row is nothing exactly when no row has that wallet, and otherwise the first row with that wallet |
| Queries.ByWalletAsWritten | energy_rental_bot/models/energy_models.py:15-35 | the lookup as written returns a row for every wallet: the stored one, or a stand-in row with id 1 |
| Queries.BotRows | energy_rental_bot/models/energy_models.py:270-275 | the bots listed are exactly the stored bots with the status asked for |
| Queries.BotListAsWritten | energy_rental_bot/models/energy_models.py:270-283 | the lookup as written is never empty: with no bot of that status it returns the stand-in bot |
| Adapters.RentType | energy_rental_bot/tasks/handle_energy_order_task.py:179 | RentEnergysBot's duration is "day" exactly for one day, "3day" exactly for three days, and "hour" otherwise |
| Adapters.RentAmount | energy_rental_bot/tasks/handle_energy_order_task.py:180 | RentEnergysBot is asked for the amount raised to its 33000 minimum, never less than either |
| Adapters.TrongasRentTime | energy_rental_bot/tasks/handle_energy_order_task.py:233 | trongas.io's rent time is 72 exactly for a three-day package, and 1 otherwise |
| Adapters.RequestFor | energy_rental_bot/tasks/handle_energy_order_task.py:130-246 | a request exists exactly for the four supported kinds; it is an order to the given address for at least the amount, for exactly the amount except on RentEnergysBot |
| Adapters.Classify | energy_rental_bot/tasks/handle_energy_order_task.py:146-262 | a reply counts as success exactly when that supplier's success test holds; the failure messages for no response, an unparsable response and a rejection match each supplier |
| Adapters.Place | energy_rental_bot/tasks/handle_energy_order_task.py:130-144 | an unsupported kind fails with no request sent; a supported kind sends exactly one order for the address and amount and succeeds exactly when the reply is accepted |
| Adapters.StakeUrlHasNoScheme | energy_rental_bot/tasks/handle_energy_order_task.py:213 | the address own stake sends its request to starts with neither "http://" nor "https://" |
| Adapters.PlaceAsWritten | energy_rental_bot/tasks/handle_energy_order_task.py:205-229 | as written, kinds other than own stake place exactly as `Place` does; own stake sends nothing and fails |
| Adapters.StakeNeverPlaced | energy_rental_bot/tasks/handle_energy_order_task.py:205-229 | with a supplier that accepts every delegation, own stake still fails with "API请求失败" as written, while the adapter with a reachable endpoint places the order |
| Adapters.Attempts | energy_rental_bot/tasks/handle_energy_order_task.py:95-96 | there is one attempt per platform of the list |
| Adapters.AttemptAt | energy_rental_bot/tasks/handle_energy_order_task.py:95-96 | attempt i is the call made on platform i |
| Adapters.AttemptsOrderFor | energy_rental_bot/tasks/handle_energy_order_task.py:95-96 | whatever the suppliers reply, every request of the attempts is an order for the payer's address of at least the package's energy |
| TrxOrders.WithStatus | energy_rental_bot/tasks/handle_energy_order_task.py:284-299 | a status update writes status, comment and time, writes the platform and package ids only when given, and keeps every other column |
| TrxOrders.TrxOrderRow | energy_rental_bot/tasks/handle_energy_order_task.py:264-282 | the platform order records the platform, the payer's address, the package's energy and days, source type 2, recovery status 2 exactly for own stake, and the supplier's order number and TRX cost |
| TrxOrders.TrxOrderRowAsWritten | energy_rental_bot/tasks/handle_energy_order_task.py:264-282 | as written the order number and TRX cost are read from the payment, which has neither, so they are always empty and 0 |
| TrxOrders.NeeOrderNumberLost | energy_rental_bot/tasks/handle_energy_order_task.py:272-278 | a nee.cc order accepted under number N1 is recorded with an empty order number as written, and with N1 by the corrected row |
| TrxOrders.FirstPlaced | energy_rental_bot/tasks/handle_energy_order_task.py:95-101 | the first success is a successful attempt preceded only by failures; nothing means every attempt failed |
| TrxOrders.RunTrxAllFail | energy_rental_bot/tasks/handle_energy_order_task.py:95-101 | when every platform fails, the only change is the requests sent; the payment stays pending |
| TrxOrders.RunTrxFirstPlaced | energy_rental_bot/tasks/handle_energy_order_task.py:95-101 | when platform k is the first success, only platforms up to k are contacted and the success is recorded for platform k |
| TrxOrders.NoPackageOutcome | energy_rental_bot/tasks/handle_energy_order_task.py:78-82 | a payment matching no package gets status 7 with its comment, and nothing else changes |
| TrxOrders.NoPlatformOutcome | energy_rental_bot/tasks/handle_energy_order_task.py:84-92 | a payment with a package but no available platform gets status 4 with its comment, and nothing else changes |
| TrxOrders.PlatformLoopOutcome | energy_rental_bot/tasks/handle_energy_order_task.py:94-101 | platforms are tried in order; on the first success exactly one order row is added and the payment gets status 9 with that platform and package; if all fail only the requests change |
| TrxOrders.ProcessTrxFrame | energy_rental_bot/tasks/handle_energy_order_task.py:74-101 | one payment leaves packages, platforms, bots, standing orders and notices alone, and adds at most one order row, keeping the others |
| TrxOrders.ProcessTrx | energy_rental_bot/tasks/handle_energy_order_task.py:74-101 | the step-by-step processing of one TRX payment ends in exactly the state its specification gives |
| TrxOrders.NewBishuRow | energy_rental_bot/tasks/handle_energy_order_task.py:117-126 | a new bishu row is enabled, belongs to the payer and the bot, and holds the USDT paid and the credit it bought (whole USDT, truncated) |
| TrxOrders.ProcessUsdtOutcome | energy_rental_bot/tasks/handle_energy_order_task.py:103-128 | a registered payer's row gains the USDT and the credit, with every other row unchanged; an unregistered payer gets a new row with a fresh id that the wallet lookup then finds; either way the payment gets status 9 |
| TrxOrders.ProcessUsdt | energy_rental_bot/tasks/handle_energy_order_task.py:103-128 | the step-by-step processing of one USDT payment ends in exactly the state its specification gives |
| TrxOrders.ProcessTrxAllOrders | energy_rental_bot/tasks/handle_energy_order_task.py:45-46 | a list of payments adds no more order rows than it has payments, and removes none |
| TrxOrders.ProcessTrxList | energy_rental_bot/tasks/handle_energy_order_task.py:45-46 | the loop over one wallet's pending payments ends in the state of processing them in order |
| TrxOrders.HandleTrxOrders | energy_rental_bot/tasks/handle_energy_order_task.py:32-46 | the TRX pass ends in the state of handling each watched wallet in order |
| TrxOrders.ProcessUsdtList | energy_rental_bot/tasks/handle_energy_order_task.py:61-62 | the loop over one wallet's pending USDT payments ends in the state of processing them in order |
| TrxOrders.HandleUsdtOrders | energy_rental_bot/tasks/handle_energy_order_task.py:48-62 | the USDT pass ends in the state of handling each watched wallet in order, crediting the wallet's bot |
| TrxOrders.ProcessTrxAllKeepsBots | energy_rental_bot/tasks/handle_energy_order_task.py:45-46 | processing TRX payments never changes the bot table |
| TrxOrders.StandInBotWalked | energy_rental_bot/models/energy_models.py:270-283 | with no enabled bot, the order tasks as written walk the stand-in wallet under bot 1; the corrected lookup walks no wallet |
| TrxOrders.HandleTrxKeepsBots | energy_rental_bot/tasks/handle_energy_order_task.py:32-46 | the TRX pass never changes the bot table, so both passes walk the same wallets |
| TrxOrders.Execute | energy_rental_bot/tasks/handle_energy_order_task.py:22-28 | the order task runs the TRX pass, then the USDT pass, over the same watched wallets |
| StandingOrders.StandingOrderRow | energy_rental_bot/tasks/handle_ai_energy_order_task.py:127-145 | the platform order records the platform, the order's wallet, the order's per-kind energy and days, source type 3, recovery status 2 exactly for own stake, and the supplier's order number and TRX cost |
| StandingOrders.StandingAttempts | energy_rental_bot/tasks/handle_ai_energy_order_task.py:90-105 | there is one prospective supplier call per available platform |
| StandingOrders.FirstDelivering | energy_rental_bot/tasks/handle_ai_energy_order_task.py:90-117 | the delivering platform is the first one that has a key and succeeds, every earlier one lacking a key or failing; nothing means none delivered |
| StandingOrders.RunStandingTables | energy_rental_bot/tasks/handle_ai_energy_order_task.py:86-119 | the platform loop touches only the order's own table (plus the order, request and notice logs), keeps its length and ids, and never changes another row |
| StandingOrders.RunStandingSent | energy_rental_bot/tasks/handle_ai_energy_order_task.py:100-105 | the loop only appends requests, and every one is an order for the standing order's wallet of at least its per-kind energy |
| StandingOrders.RunStandingDelivered | energy_rental_bot/tasks/handle_ai_energy_order_task.py:107-117 | when platform k delivers, exactly one order row for platform k and one notice for the order are added; the requests made stop at platform k (`RunStandingCallsDelivered`) |
| StandingOrders.RunStandingCallsDelivered | energy_rental_bot/tasks/handle_ai_energy_order_task.py:90-117 | when platform k delivers, the requests sent are exactly those of the platforms with a key up to and including k, in list order; no platform without a key and none after k is called |
| StandingOrders.RunStandingCallsExhausted | energy_rental_bot/tasks/handle_ai_energy_order_task.py:90-119 | when no platform delivers, the requests sent are exactly those of every platform with a key, in list order |
| StandingOrders.Passed | energy_rental_bot/tasks/handle_ai_energy_order_task.py:90-119 | the platforms passed over are all keyless or failed, and the one after them, if any, delivers |
| StandingOrders.RunStandingComment | energy_rental_bot/tasks/handle_ai_energy_order_task.py:93-119 | the order's row ends with the date-stamped comment of the last platform passed over (the empty-key note or the failure message), or keeps its comment when none was passed |
| StandingOrders.RunStandingDeliveredRow | energy_rental_bot/tasks/handle_ai_energy_order_task.py:147-164 | after a delivery the order's own row is back to 'N', flagged for notice, with one more purchase, the energy added to its total and the purchase time recorded |
| StandingOrders.RunStandingExhausted | energy_rental_bot/tasks/handle_ai_energy_order_task.py:90-119 | when no platform delivers, no order or notice is added and the order's flag is 'B' once any platform had a key; with no key at all nothing is sent and the flag is unchanged; the requests made and the comment left are stated by `RunStandingCallsExhausted` and `RunStandingComment` |
| StandingOrders.RunStandingLogs | energy_rental_bot/tasks/handle_ai_energy_order_task.py:86-119 | the loop adds either nothing or exactly one order row together with exactly one notice for the order |
| StandingOrders.HandleOrderSent | energy_rental_bot/tasks/handle_ai_energy_order_task.py:41-45 | handling one order only appends requests, each an order for that order's wallet of at least its per-kind energy |
| StandingOrders.HandleOrderLogs | energy_rental_bot/tasks/handle_ai_energy_order_task.py:41-45 | handling one order adds either nothing or exactly one order row and one notice |
| StandingOrders.HandleAllNotices | energy_rental_bot/tasks/handle_ai_energy_order_task.py:27-45 | a pass adds as many notices as order rows, at most one per pending order, and removes neither |
| StandingOrders.TryPlatform | energy_rental_bot/tasks/handle_ai_energy_order_task.py:90-119 | one platform's turn either finishes the loop in its specified end state or leaves the remaining platforms to do so |
| StandingOrders.HandleOrder | energy_rental_bot/tasks/handle_ai_energy_order_task.py:32-45 | the step-by-step handling of one standing order ends in exactly the state its specification gives |
| StandingOrders.HandleOrders | energy_rental_bot/tasks/handle_ai_energy_order_task.py:47-65 | a pass over the pending orders of one kind ends in the state of handling them in order |
| StandingOrders.Execute | energy_rental_bot/tasks/handle_ai_energy_order_task.py:20-25 | the standing-order task runs the trusteeship pass, then the bishu pass |
| ResourceCheck.CheckWalletOutcome | energy_rental_bot/tasks/get_ai_trusteeship_wallet_resource_task.py:39-82 | one account query is sent; an unusable reply changes nothing; otherwise only the wallet's own row changes, to the reported bandwidth and energy, and it is flagged 'Y' exactly when energy is below the threshold and it was 'N', or it was already 'Y' |
| ResourceCheck.LowEnergyQueuesPurchase | energy_rental_bot/tasks/get_ai_trusteeship_wallet_resource_task.py:67-74 | a checked idle row becomes a pending order exactly when its energy is below its threshold |
| ResourceCheck.BuyingRowIsOnNoList | energy_rental_bot/tasks/handle_ai_energy_order_task.py:97-98 | a row marked 'B' is neither pending nor due for a resource check |
| ResourceCheck.AccountQueries | energy_rental_bot/tasks/get_ai_trusteeship_wallet_resource_task.py:45-49 | there is one account query per wallet, in list order |
| ResourceCheck.CheckAllQueries | energy_rental_bot/tasks/get_ai_trusteeship_wallet_resource_task.py:21-28 | a pass queries each listed wallet exactly once, in list order |
| ResourceCheck.CheckAllTables | energy_rental_bot/tasks/get_ai_trusteeship_wallet_resource_task.py:21-28 | a pass changes only the checked kind's table and the request log |
| ResourceCheck.StandInCheckRewritesRowOne | energy_rental_bot/models/energy_models.py:37-59 | with only a row 1 stuck at 'B', the pass as written checks the stand-in wallet and overwrites row 1's readings and flags it 'Y' when the reading is below 50000; the corrected pass leaves the table alone |
| ResourceCheck.CheckAllOnceInOrder | energy_rental_bot/tasks/get_ai_trusteeship_wallet_resource_task.py:21-37 | a pass queries each wallet once in order and changes nothing but that kind's table and the log |
| ResourceCheck.CheckWalletResource | energy_rental_bot/tasks/get_ai_trusteeship_wallet_resource_task.py:39-82 | the step-by-step check of one wallet ends in exactly the state its specification gives |
| ResourceCheck.CheckWallets | energy_rental_bot/tasks/get_ai_trusteeship_wallet_resource_task.py:21-37 | the loop over the listed wallets ends in the state of checking them in order |
| ResourceCheck.Execute | energy_rental_bot/tasks/get_ai_trusteeship_wallet_resource_task.py:14-19 | the resource-check task checks the trusteeship wallets, then the bishu wallets |
| Intake.AddAdmittedRows | energy_rental_bot/services/energy_services.py:87-117 | the admitted transfers are appended in order, each with a fresh id, and the stored rows are kept |
| Intake.AddAdmittedCovers | energy_rental_bot/services/energy_services.py:87-94 | every admitted transfer's hash is stored afterwards, and no stored hash is lost |
| Intake.AddAdmittedNew | energy_rental_bot/services/energy_services.py:101-117 | every new row is a pending transfer of the coin to the wallet, carrying the hash and amount of an admitted transfer |
| Intake.AddAdmittedUnique | energy_rental_bot/services/energy_services.py:82-94 | adding distinct transfers that are not yet stored keeps the stored hashes unique |
| Intake.TrxItems | energy_rental_bot/services/energy_services.py:87-92 | a TRX transfer is admitted exactly when its hash is new, it succeeded, it moves at least 1 TRX, and its token is TRX |
| Intake.TrxHashes | energy_rental_bot/services/energy_services.py:82 | the hash list has one entry per transfer, in order |
| Intake.TrxPageRows | energy_rental_bot/services/energy_services.py:53-117 | a page sends one request and only appends pending TRX transfers to the wallet, each of at least 1 TRX with a hash not stored before |
| Intake.TrxPageCovers | energy_rental_bot/services/energy_services.py:87-94 | every admissible transfer of the page is stored afterwards |
| Intake.TrxPageUnique | energy_rental_bot/services/energy_services.py:82-94 | a page whose transfers have distinct hashes keeps the stored hashes unique |
| Intake.TrxPageCount | energy_rental_bot/services/energy_services.py:96-99 | the scan reads at least one page and no more than the bound allows |
| Intake.TrxPageCountFull | energy_rental_bot/services/energy_services.py:96-99 | every page before the last is full and the total says more follow; unless the bound stops it, the last page is not |
| Intake.TrxRequests | energy_rental_bot/services/energy_services.py:53-66 | there is one request per page read |
| Intake.TrxRequestsAt | energy_rental_bot/services/energy_services.py:55-61 | request k asks for 50 transfers from offset (page + k) × 50 |
| Intake.IngestTrxPages | energy_rental_bot/services/energy_services.py:53-99 | the recursive scan amounts to handling the pages it reads one after the other |
| Intake.ApplyTrxPagesSent | energy_rental_bot/services/energy_services.py:53-99 | handling n pages sends exactly the n page requests, in order |
| Intake.IngestTrxRequests | energy_rental_bot/services/energy_services.py:53-99 | the scan sends exactly one request per page it reads, at consecutive offsets |
| Intake.HandleTrxPage | energy_rental_bot/services/energy_services.py:66-99 | one page is handled exactly as specified, and the scan continues exactly when the page is full and the total says more follow |
| Intake.IngestTrx | energy_rental_bot/services/energy_services.py:53-99 | the page loop ends in exactly the state of the recursive scan |
| Intake.UsdtItems | energy_rental_bot/services/energy_services.py:160-162 | a USDT transfer is admitted exactly when its hash is new and its type is a transfer |
| Intake.UsdtHashes | energy_rental_bot/services/energy_services.py:155 | the hash list has one entry per transfer, in order |
| Intake.UsdtRequest | energy_rental_bot/services/energy_services.py:128-136 | the first page is asked for from the wallet's history since the timestamp; a later page follows the link the previous page gave |
| Intake.UsdtPageRows | energy_rental_bot/services/energy_services.py:149-184 | a page sends one request and only appends pending USDT transfers to the wallet, each with a hash not stored before |
| Intake.UsdtPageCovers | energy_rental_bot/services/energy_services.py:155-162 | every admissible transfer of the page is stored afterwards |
| Intake.IngestTrxAddsNew | energy_rental_bot/services/energy_services.py:53-117 | the whole TRX scan only appends pending TRX transfers to the wallet whose hashes were not stored before |
| Intake.RepeatedTransferInsertedTwice | energy_rental_bot/services/energy_services.py:82-94 | an admitted transfer listed twice in one reply is inserted twice, under two different ids |
| Intake.IngestUsdtAddsNew | energy_rental_bot/services/energy_services.py:128-184 | the whole scan only appends pending USDT transfers to the wallet whose hashes were not stored before |
| Intake.HandleUsdtPage | energy_rental_bot/services/energy_services.py:141-166 | one page is handled exactly as specified, and the link it returns is the page's next-page link |
| Intake.UsdtStep | energy_rental_bot/services/energy_services.py:128-166 | one page either ends the scan in its specified end state or leaves the linked page to continue it |
| Intake.IngestUsdt | energy_rental_bot/services/energy_services.py:128-166 | the page loop ends in exactly the state of the recursive scan |
| Wallets.ActiveBots | energy_rental_bot/services/energy_services.py:17-27 | the bots kept are exactly the enabled bots with a 34-character wallet, once per id |
| Wallets.CollectBots | energy_rental_bot/services/energy_services.py:23-25 | collecting rows into the id-keyed dictionary keeps ids unique and adds exactly the qualifying ids |
| Wallets.ByWallet | energy_rental_bot/services/energy_services.py:38 | re-keying by receiving wallet keeps keys unique and covers every wallet; each wallet is filed with the last collected bot receiving there, and the wallets come in the order they first appear |
| Wallets.PutKeySeq | energy_rental_bot/services/energy_services.py:38 | assigning an existing dictionary key keeps the key order; a new key goes last |
| Wallets.WalletsFromOrder | energy_rental_bot/services/energy_services.py:38 | the re-keyed dictionary's keys are the wallets in order of first appearance |
| Wallets.WalletsFromLast | energy_rental_bot/services/energy_services.py:38 | each wallet of the re-keying ends up with the last bot receiving there; every other entry is kept from before |
| Wallets.IdListOf | energy_rental_bot/services/energy_services.py:29-44 | type 1 maps each collected id to its bot's wallet, entry by entry; type 2 keys each collected wallet once, to a collected bot receiving there; type 3 lists exactly the collected bots with status 0 or 2; any other type pairs each collected bot's id with its wallet, entry by entry |
| Wallets.ActiveListKeepsAll | energy_rental_bot/services/energy_services.py:41 | the status test of return type 3 keeps every collected bot |
| Wallets.WatchedWallets | energy_rental_bot/tasks/handle_energy_order_task.py:34-40 | the wallets the order tasks walk are distinct and 34 characters long, and each comes with the id of the last collected enabled bot receiving there; they are walked in the order the wallets first appear among the collected bots |
| Wallets.ActiveBotsKeep | energy_rental_bot/services/energy_services.py:17-27 | with distinct ids, every enabled bot is one of the bots collected |
| Wallets.WalletOfKept | energy_rental_bot/services/energy_services.py:38 | every collected bot's wallet is a key of the wallet-keyed list |
| Wallets.WatchedWalletsCover | energy_rental_bot/tasks/handle_energy_order_task.py:34-40 | with distinct ids, every enabled bot's receiving wallet is among the wallets walked |
| Utils.FormatAddress | energy_rental_bot/utils/energy_utils.py:112-116 | an address of 16 characters or more is shown as its first 8, four stars and its last 8; a shorter one as is |
| Utils.KeyNames | energy_rental_bot/utils/energy_utils.py:73-86 | exactly the two known key types have three configured names each |
| Utils.RandomApiKey | energy_rental_bot/utils/energy_utils.py:70-95 | the key is nothing for an unknown type; otherwise it is a configured, non-empty, non-sample value, and nothing only when none of the three is usable |
| BotSession.IsValidTronAddress | energy_rental_bot/bot/energy_bot.py:1165-1175 | a valid address is 34 characters long, so its masked form is 20 characters starting with 'T' |
| BotSession.Strip | energy_rental_bot/bot/energy_bot.py:965 | the stripped text is a slice of the text with only white space cut at either end, and neither starts nor ends with white space; all white space strips to the empty text |
| BotSession.SetupBishuSpec | energy_rental_bot/bot/energy_bot.py:1095-1143 | an already registered wallet is refused with nothing changed; otherwise exactly one bishu row is added, with the user's id, flag 'N', 1000 uses left and a fresh id, and the reply shows the masked address |
| BotSession.SetupBishuOnce | energy_rental_bot/bot/energy_bot.py:1098-1107 | after a registration the wallet is found, and a second registration of it is refused |
| BotSession.SetupBishuAsWritten | energy_rental_bot/bot/energy_bot.py:1095-1107 | as written every registration is refused, because the wallet lookup always returns a row |
| BotSession.SetupBishuNeverRegisters | energy_rental_bot/bot/energy_bot.py:1098-1107 | with no bishu row stored, a valid address is refused as written and registered by the corrected path |
| BotSession.RemainingBishuMoves | energy_rental_bot/bot/energy_bot.py:1032 | the uses left grow by the credit a USDT payment buys, and shrink by one per standing-order purchase |
| BotSession.AddressInputSpec | energy_rental_bot/bot/energy_bot.py:1070-1093 | an invalid address keeps the state and is answered as invalid; a valid one is dispatched on the pending action and the user's state is cleared, except for the trusteeship action, whose handler is missing |
| BotSession.TextSpec | energy_rental_bot/bot/energy_bot.py:959-990 | a user with no state gets the menu path; a user waiting for an address gets the address path on the stripped text; any other state is ignored; no other user's state changes |
| BotSession.BishuKey | energy_rental_bot/bot/energy_bot.py:445 | a package's button key starts with "buy_" |
| BotSession.PackageRoutes | energy_rental_bot/bot/energy_bot.py:445-446 | there is one route per configured package, keyed by its button key |
| BotSession.NamedRoutes | energy_rental_bot/bot/energy_bot.py:449-463 | there is one route per named key, to the handler of that key |
| BotSession.Lookup | energy_rental_bot/bot/energy_bot.py:466-470 | an unknown key routes to "unknown operation"; a known key routes to the first entry with that key |
| BotSession.NamedKeyIsNoPackageKey | energy_rental_bot/bot/energy_bot.py:443-464 | no named key clashes with a package key |
| BotSession.NamedKeyRoutesIn | energy_rental_bot/bot/energy_bot.py:443-468 | in any table that starts with the configured entries, a named key routes to its own handler |
| BotSession.BishuKeyInjective | energy_rental_bot/bot/energy_bot.py:445 | different packages have different button keys |
| BotSession.PackageKeyRoutesIn | energy_rental_bot/bot/energy_bot.py:443-468 | in any table that starts with the configured entries, a package key routes to buying that package |
| BotSession.PackageKeyRoutes | energy_rental_bot/bot/energy_bot.py:443-468 | a package button buys its own package, as written and corrected |
| BotSession.NamedKeyRoutes | energy_rental_bot/bot/energy_bot.py:443-468 | a named button reaches its own handler, as written and corrected |
| BotSession.RoutingTableEntries | energy_rental_bot/bot/energy_bot.py:443-464 | every entry of the table as written pairs a package's button key with buying that package, or a named key with its own handler |
| BotSession.RouteCallbackAsWritten | energy_rental_bot/bot/energy_bot.py:443-470 | button data is an unknown operation exactly when no key of the table as written matches it; otherwise it gets the route its key stands for |
| BotSession.RouteCallback | energy_rental_bot/bot/energy_bot.py:443-470 | the same for the table that also routes "setup_bishu", whose data then reaches the bishu setup prompt |
| BotSession.UnknownDataRejected | energy_rental_bot/bot/energy_bot.py:466-470 | data matching no button is answered with "unknown operation", as written and corrected |
| BotSession.SetupBishuButtonRouted | energy_rental_bot/bot/energy_bot.py:303 | the "setup_bishu" button is an unknown operation as written and reaches its handler in the corrected table; every other button routes the same way in both |
| BotSession.CallbackStates | energy_rental_bot/bot/energy_bot.py:829-835 | the bishu buttons put the user in the address-waiting state for a bishu setup, "cancel" clears the user's state, and no other user's state changes |
| BotSession.Session.BuyEnergy | energy_rental_bot/bot/energy_bot.py:282-285 | the user now waits for an address to buy energy; no other user's state changes |
| BotSession.Session.SetupBishuPrompt | energy_rental_bot/bot/energy_bot.py:829-835 | the user now waits for an address to set up bishu; no other user's state changes |
| BotSession.Session.Cancel | energy_rental_bot/bot/energy_bot.py:899-903 | the user's state is removed, and a user with no state changes nothing |
| BotSession.Session.Callback | energy_rental_bot/bot/energy_bot.py:431-470 | a button press routes through the corrected table and updates the states as that route requires |
| BotSession.Session.SetupBishu | energy_rental_bot/bot/energy_bot.py:1095-1147 | the registration ends in exactly the state and reply of its specification |
| BotSession.Session.AddressInput | energy_rental_bot/bot/energy_bot.py:1070-1093 | the address input ends in exactly the states, database and reply of its specification |
| BotSession.Session.HandleText | energy_rental_bot/bot/energy_bot.py:959-990 | a text message ends in exactly the states, database and reply of its specification |

## Left out

- HTTP transport, JSON parsing, the nee.cc MD5 signature and URL building are left out. The
  model keeps each request's fields that matter (kind, receiver, amount, duration) and each
  reply's shape (none, unparsable, or parsed answer).
- Telegram message texts, keyboards, the menu handlers, the status and help screens, the admin
  screens and the wallet-status query are left out. They only format text.
- The clock, the network, the process environment and the random choice are parameters.
  `now_date()`, `time.time()` and `thirteen_time()` are `Clock` fields.
- Floats are replaced by integers in micro-units, because `calculate_amount` divides by
  10^6 in floating point. The `int(amount / price)` of the USDT credit is modelled as
  truncating division with price 1 USDT, since the trade row has no `per_bishu_usdt_price`
  column and the default always applies.
- The `API-key` request headers and the `time.sleep(1)` before each account query are left
  out. They do not change the database.
- `Concurrent` runs each callable synchronously and logs any exception. The model calls the
  check directly and does not model exceptions, nor the `try`/`except` of each scheduled task that logs
  and stops a task.
- `RsaServices.private_decrypt` returns its input unchanged, so the model uses the stored key
  as the decrypted key.
- `Intake.IngestTrx`: the scan follows at most `maxPages` pages; the source recurses for as
  long as pages come back full.
- `Intake.IngestUsdt`: the scan follows at most `maxPages` next-page links; the source follows
  them for as long as the API returns one.
- Columns the order tasks never read are left out: `is_notice_admin`, the notice objects and
  the bot usernames.
- `str.strip()` and `str.isalnum()` are modelled on ASCII white space and ASCII letters and
  digits only.
- `_setup_bishu`'s exception path (an insert that raises) and `_setup_trusteeship` are not
  part of this model. The latter is called but not defined in the source; the model answers
  that action with `HandlerMissing`.
- The `poll_group` argument of the platform lookup is ignored by the source's query, and so by
  the model.
- `StandingOrders.StandingAttempts`: the model computes every platform's prospective supplier
  call up front. Only the calls the loop actually makes are appended to the request log.
- `ProcessTrx`, `HandleTrxOrders`, `HandleUsdtOrders`, `HandleOrder`, `HandleOrders`, `CheckWallets`,
  the three `Execute` methods, `Session.SetupBishu` and `Session.Callback` use the corrected
  lookups, the corrected platform-order row, an own-stake endpoint that can be reached and the
  routing table that routes "setup_bishu". As written they differ exactly on the inputs of the
  Findings rows; elsewhere they behave the same.
- `Adapters.Place`: own stake is modelled with a reachable endpoint. As written it sends its GET request to
  `energy_stake_api_url`, a setting name with no scheme, and `send_http_request` swallows the
  error and returns nothing, so own stake always fails (`Adapters.PlaceAsWritten`,
  `Adapters.StakeNeverPlaced`).
- `Intake.NewTrade` writes bot id 0, the table default, because the intake insert names no
  bot (energy_services.py:101-119). The TRX pass looks packages up by the payment's bot id
  (handle_energy_order_task.py:78), so as written a scanned payment matches a package only of a
  bot with id 0, and otherwise gets the built-in package of the first Findings row. The model
  keeps the bot id 0 and the lookup by it, so there such a payment is marked as matching no
  package.
- `Intake.TrxRequest` keeps the page offset and the wallet but not the `start_timestamp` and
  `end_timestamp` of the tronscan query (energy_services.py:58-61). So `Chain.trx` cannot
  depend on them.
- `Sql` is not used by `Store`: the `Db` methods state each update and insert on the tables
  directly. Nothing links a statement built by `Sql` to the table change it stands for.
- `Intake.RepeatedTransferInsertedTwice`: a page checks stored hashes once, before its inserts
  (energy_services.py:82-94, 155-162), so a transfer a reply lists twice is stored twice. The
  hash-uniqueness lemmas only cover hashes stored before the page.
- `_callback_check_bishu_status` is defined twice in the source with the same body
  (energy_bot.py:482, 512); the model has one route for it.
- `check_user_balance` always succeeds in the source. The model's trusteeship balance check is
  likewise always true.

## A standing order no platform serves

An order whose platforms all fail stays flagged 'B' (`handle_ai_energy_order_task.py`, lines
97-98). Such a row is neither pending nor due for a resource check, so it is never retried
(`StandingOrders.RunStandingExhausted`, `ResourceCheck.BuyingRowIsOnNoList`).

## Findings

| source | as written | input that shows it | evidently intended | confidence | as-written member | corrected member |
|---|---|---|---|---|---|---|
| energy_rental_bot/models/energy_models.py:299-315 | the package lookup falls back to a built-in 50000-energy package, so the "no matching package" status 7 can never be written | an empty package table and a 1 TRX payment | an amount matching no package finds nothing | not executed | Queries.PackageByTrxPriceAsWritten | Queries.FindPackage |
| energy_rental_bot/models/energy_models.py:241-261 | the platform lookup falls back to a built-in platform, so the "no available platform" status 4 can never be written | an empty platform table | no qualifying platform gives an empty list | not executed | Queries.StandInPlatformOffered | Queries.AvailablePlatformRows |
| energy_rental_bot/models/energy_models.py:324-355 | with nothing pending, the pending-transaction lookup returns a built-in trade with id 1, which the order task then processes and updates | an empty trade table | nothing pending gives an empty list | not executed | Queries.StandInTradeProcessed | Queries.PendingTradeRows |
| energy_rental_bot/models/energy_models.py:61-87 | with nothing pending, the pending-order lookups return a built-in order that passes the pending test, so the standing-order task buys energy for it; if a supplier delivers, the statistics update then fails on the `total_buy_energy_quantity` the stand-in lacks (handle_ai_energy_order_task.py:149) | an empty bishu table | nothing pending gives an empty list | not executed | Queries.StandInOrderDispatched | Queries.PendingOrderRows |
| energy_rental_bot/bot/energy_bot.py:1098-1107 | the wallet lookup never returns nothing, so every bishu registration is refused as already registered | an empty bishu table and a valid address | an unregistered wallet is registered | not executed | BotSession.SetupBishuNeverRegisters | BotSession.SetupBishuSpec |
| energy_rental_bot/tasks/handle_energy_order_task.py:272-278 | the platform order's supplier order number and TRX cost are read from the payment row instead of the supplier's result, so they are always empty and 0; only own stake reports a cost, and it never succeeds as written, so the lost number is what shows | a nee.cc supplier that accepts the order under number N1 | the order records the supplier's order number and cost | not executed | TrxOrders.NeeOrderNumberLost | TrxOrders.TrxOrderRow |
| energy_rental_bot/tasks/handle_energy_order_task.py:213 | own stake sends its GET request to the setting name `energy_stake_api_url` rather than a URL (also handle_ai_energy_order_task.py:280), so the request fails before it is sent and own stake never delivers | an own-stake platform and a supplier that accepts every delegation | own stake sends its request to its configured endpoint | not executed | Adapters.StakeNeverPlaced | Adapters.Place |
| energy_rental_bot/models/energy_models.py:47-59 | with no enabled, idle row, the resource-check lookups return a stand-in row with id 1 (also lines 158-170), and the check then updates the row with id 1 by the stand-in wallet's reading; a row 1 stuck at 'B' is flagged 'Y' when that reading is below 50000 | a trusteeship table whose only row has id 1 and flag 'B', and a usable reading of the stand-in wallet with 10000 energy | nothing due for a check writes nothing | not executed | ResourceCheck.StandInCheckRewritesRowOne | Queries.ResourceCheckRows |
| energy_rental_bot/models/energy_models.py:270-283 | with no enabled bot, the bot list returns a stand-in bot with id 1 watching the stand-in wallet, so both order passes walk that wallet | a bot table whose only bot is disabled | no enabled bot walks no wallet | not executed | TrxOrders.StandInBotWalked | Wallets.WatchedWallets |
| energy_rental_bot/bot/energy_bot.py:303 | the buy-energy screen offers a "setup_bishu" button that the callback table does not route, so pressing it answers "unknown operation" | the callback data "setup_bishu" | the button opens the bishu setup | not executed | BotSession.SetupBishuButtonRouted | BotSession.RouteCallback |
