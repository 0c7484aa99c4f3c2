# TWS-IBAPI scripts, modelled in Dafny

The repository is a set of Python scripts that talk to the Interactive
Brokers Trader Workstation. Each one subclasses the client library's
`EClient`/`EWrapper` as an `App`. The `App` sends requests, and the
library's callbacks answer them: they append rows to lists, fill
dictionaries, or set `threading.Event` flags that the main thread waits
on. This project models what the scripts compute and in which order
they talk to the gateway:

- **Gateway** (`session.dfy`): the part every `App` repeats.
  - The next-valid-id latch: `reqIds`, `nextValidId`, `start`,
    `wait_for_nextValidId`.
  - One ordered trace of what the `App` does: requests sent, flags
    raised, flags cleared.
  - An Event is a boolean. Whether it is set is a function of the trace
    (`IsSet`), and every `App` keeps each of its flags equal to it
    (`Valid`).
- **AlgoTrade** (`algotrade.dfy`): `AlgoOrderFiller.fill_algo_params`
  and its fourteen fillers. They work on an `Order` object in place, as
  the source does.
- **RequestCallback** and **CallbackOutput** (`request_callback.dfy`,
  `callback_output.dfy`, with `dicts.dfy` for Python's ordered `dict` and
  `text.dfy` for `sorted`).
  - Executions and commission reports are matched by execId.
  - `calculate_callbacks` raises on missing data.
  - The `Callback` record flattens into dictionaries.
- **AccountUpdates** (`request_account_updates.dfy`, with `text.dfy` for
  `split`/`strip`): the managed-accounts parse, the subscribe/unsubscribe
  round per account, and the two row tables.
- **OpenOrders** and **AccountSummary**: the row accumulators of those
  scripts and their end-of-transmission flags.
- **PlaceOrders** (`place_order.dfy`): `get_orders` and the `place_orders`
  loop. The loop fetches a fresh id per pair, stamps the order object with
  the client id and that id, and places it.
- **HistoricalData** (`request_historical_data.dfy`): the stock contract,
  the historical-data request and its end flag.

Several sources exist twice with byte-identical content:

| cited copy | identical copy |
|---|---|
| `algotrade.py` | `place-order/algotrade.py` |
| `place-order/place_order.py` | `place_order/place_order.py` |
| `request_callback.py` | `request_callback/request_callback.py` |
| `request_open_order.py` | `request-open-order/request_open_order.py` |
| `request_account_summary.py` | `request-account-summary/request_account_summary.py` |
| `request_account_updates/request_account_updates.py` | `request-account-updates/request_account_updates.py` |

Each is modelled once, and the table cites the first copy. The id latch
(`start`, `reqIds`, `nextValidId`, `wait_for_nextValidId`) is the same
code, apart from prints and docstrings, in the six scripts that have it:
`place_order`, `request_callback`, `request_open_order`,
`request_account_updates`, `request_account_summary` and
`request_historical_stock_pvdata`. It is modelled once in `Gateway` and
cited from `place-order/place_order.py`.

The code sends the id request before it clears the per-call flag
(`super().reqIds(numIds)` and then `self.nextValidId_ready.clear()`).
The model follows the code: `ReqIds` appends the send, then the clear.

Blocking waits are split at the wait:

- `wait_for_nextValidId` takes the gateway's reply as a parameter.
- The other `wait_for_*` methods are modelled up to the send.
- `wait_for_managedAccounts` and the tail of `wait_for_reqAccountSummary`
  are methods that require their flag to be set.

Lemmas about traces show which flag a wait observes.

## Model

| member | source | states |
|---|---|---|
| Gateway.Session.ReqIds | place-order/place_order.py:39-47 | sends the id request, then clears the per-call id flag; the connection flag, the stored id and every non-latch flag are unchanged |
| Gateway.Session.NextValidId | place-order/place_order.py:49-66 | the first id of a connection only raises the connection flag and is not stored; every later id is stored and raises the per-call flag; no other flag changes |
| Gateway.Session.Start | place-order/place_order.py:33-37 | on a fresh connection the first id raises only the connection flag |
| Gateway.Session.WaitForNextValidId | place-order/place_order.py:68-72 | returns the reply that came back after one id request, leaves it stored and the per-call flag set; the trace grows by exactly request, clear, raise |
| Gateway.IdRoundTripSetsFlag | place-order/place_order.py:68-72 | after a round trip the per-call flag is set whatever it was before, the connection flag is unchanged and the only request added is `reqIds(-1)` |
| Gateway.IsSetLastMention | place-order/place_order.py:29-30 | an Event is in the state the last set or clear of it left, whatever came after |
| Gateway.NeverRaisedIsClear | place-order/place_order.py:29-30 | an Event that nothing set is clear |
| AlgoTrade.Dispatch | algotrade.py:23-52 | the filler an algorithm name selects is the one carrying that name |
| AlgoTrade.DispatchCoversWhitelist | algotrade.py:13-52 | a filler is selected exactly for the whitelisted names other than `''` |
| AlgoTrade.NameWhitelisted | algotrade.py:13-19 | every filler's name is on the whitelist |
| AlgoTrade.DispatchName | algotrade.py:25-52 | each filler is reached by its own name and no other |
| AlgoTrade.StrategyDiffersFromName | algotrade.py:57-159 | six fillers write a strategy other than their name (ArrivalPx, ClosePx, Accumulate/Distribute and three PctVol variants); four fillers write PctVol |
| AlgoTrade.TagCounts | algotrade.py:57-159 | DarkIce appends three tags, PctVol, ArrivalPrice, TWAP and VWAP two, the rest one, in the source's order; no filler repeats a tag |
| AlgoTrade.ApplyIdempotent | algotrade.py:57-159 | filling twice with the same algorithm is filling once, because each filler resets the parameter list |
| AlgoTrade.ApplyForgetsPrevious | algotrade.py:57-159 | a filler's result does not depend on the strategy and parameters the order had before |
| AlgoTrade.EmptyAlgoUnchanged | algotrade.py:23-24 | the name `''` selects nothing and leaves the order as it was |
| AlgoTrade.FillAdaptiveParams | algotrade.py:56-62 | in place: strategy Adaptive, parameters exactly `adaptivePriority=Normal`; returns the same object |
| AlgoTrade.FillPctVolParams | algotrade.py:64-70 | in place: strategy PctVol, parameters `pctVol=0.1`, `noTakeLiq=1` |
| AlgoTrade.FillArrivalPriceParams | algotrade.py:72-78 | in place: strategy ArrivalPx, parameters `maxPctVol=0.1`, `riskAversion=Medium` |
| AlgoTrade.FillClosePriceParams | algotrade.py:80-85 | in place: strategy ClosePx, parameter `startTime=15:00:00 US/Eastern` |
| AlgoTrade.FillMidpriceParams | algotrade.py:87-92 | in place: strategy Midprice, parameter `midOffsetPct=0.5` |
| AlgoTrade.FillDarkIceParams | algotrade.py:94-101 | in place: strategy DarkIce, start and end time and `displaySize=100` |
| AlgoTrade.FillAccumulateDistributeParams | algotrade.py:103-108 | in place: strategy Accumulate/Distribute, parameter `maxPctVol=0.2` |
| AlgoTrade.FillTWAPParams | algotrade.py:110-116 | in place: strategy TWAP, start and end time |
| AlgoTrade.FillPriceVariantPctVolParams | algotrade.py:118-123 | in place: strategy PctVol, parameter `priceVariant=Yes` |
| AlgoTrade.FillSizeVariantPctVolParams | algotrade.py:125-130 | in place: strategy PctVol, parameter `sizeVariant=Yes` |
| AlgoTrade.FillTimeVariantPctVolParams | algotrade.py:132-137 | in place: strategy PctVol, parameter `timeVariant=Yes` |
| AlgoTrade.FillVWAPParams | algotrade.py:139-145 | in place: strategy VWAP, start and end time |
| AlgoTrade.FillBalanceImpactRiskParams | algotrade.py:147-152 | in place: strategy BalanceImpactRisk, parameter `riskTolerance=Low` |
| AlgoTrade.FillMinimiseImpactParams | algotrade.py:154-159 | in place: strategy MinimiseImpact, parameter `urgent=Yes` |
| AlgoTrade.FillAlgoParams | algotrade.py:11-54 | a name off the whitelist raises `InvalidAlgoError` with the name and the options, and leaves the order untouched; a whitelisted name returns the same object, filled by the selected filler or unchanged for `''` |
| Text.Split | request_account_updates/request_account_updates.py:144 | `split(',')` yields at least one piece |
| Text.SplitPieceHasNoSep | request_account_updates/request_account_updates.py:144 | no piece contains the separator |
| Text.JoinSplit | request_account_updates/request_account_updates.py:144 | joining the pieces gives the input back; there is one piece more than there are separators |
| Text.Strip | request_account_updates/request_account_updates.py:144 | `strip()` never lengthens the text |
| Text.StripIsInfix | request_account_updates/request_account_updates.py:144 | the stripped text is the input minus its leading and trailing whitespace: the cut-off parts are all whitespace and the result neither starts nor ends with whitespace; it is empty exactly when the input is all whitespace |
| Text.StripKeeps | request_account_updates/request_account_updates.py:144 | every character of the stripped text occurs in the input |
| Text.StrippedNonEmpty | request_account_updates/request_account_updates.py:144 | the comprehension keeps at most as many entries as there are pieces |
| Text.StrippedNonEmptySound | request_account_updates/request_account_updates.py:144 | every kept entry is non-empty and is the stripped form of some piece |
| Text.StrippedNonEmptyKeeps | request_account_updates/request_account_updates.py:144 | every piece that is not blank is kept, stripped |
| Text.StrippedNonEmptyAppend | request_account_updates/request_account_updates.py:144 | the comprehension preserves order: it distributes over concatenation |
| Text.ParsedIsAccountName | request_account_updates/request_account_updates.py:144 | every parsed account is non-empty with no surrounding whitespace |
| Text.ParseAccountsList | request_account_updates/request_account_updates.py:144 | every account is an account name; there are at most as many accounts as comma pieces |
| Text.ParseAccountsListComplete | request_account_updates/request_account_updates.py:144 | every non-blank comma piece appears, stripped, among the accounts |
| Text.ParseAccountsListSnoc | request_account_updates/request_account_updates.py:144 | appending `,` and one more piece appends that piece's account, or nothing when it is blank |
| Text.ParseAccountsListBlank | request_account_updates/request_account_updates.py:144 | the empty string gives no accounts, and a trailing comma adds none |
| Text.LessIrreflexive | request_callback.py:176 | Python's string order is irreflexive |
| Text.LessTransitive | request_callback.py:176 | Python's string order is transitive |
| Text.LessTotal | request_callback.py:176 | of two different strings one is smaller |
| Text.LessAsymmetric | request_callback.py:176 | Python's string order is asymmetric |
| Text.InsertSorted | request_callback.py:176 | inserting into an ascending list keeps it ascending and adds exactly the new element |
| Text.SortedList | request_callback.py:176 | `sorted` of a set: strictly ascending, exactly the set's elements, as long as the set |
| Text.AscendingUnique | request_callback.py:176 | two strictly ascending lists with the same elements are equal, so `sorted` has one answer |
| Text.Sorted | request_callback.py:176 | the ascending list of a set is ascending and holds exactly the set |
| Text.AscendingSize | request_callback.py:176 | a strictly ascending list has no repeats |
| Text.SortedSize | request_callback.py:176 | `sorted` of a set is as long as the set |
| Dicts.Get | request_callback.py:177-178 | `get` finds a value exactly for the keys present |
| Dicts.GetAt | request_callback.py:282-300 | with distinct keys every entry is what its key looks up |
| Dicts.PutGet | request_callback.py:164 | after `d[k] = v`, `k` gives `v` and every other key what it gave before |
| Dicts.PutKeys | request_callback.py:164 | assigning an existing key keeps the key order; a new key goes last |
| Dicts.PutDistinct | request_callback.py:164 | assignment keeps keys distinct |
| Dicts.MergeGet | request_callback.py:264 | in `{**d, **e}` a key of `e` takes `e`'s value and any other key keeps `d`'s |
| Dicts.MergeKeys | request_callback.py:264 | the merge keeps `d`'s keys in order, adds exactly `e`'s other keys, and keeps keys distinct |
| Dicts.MergeFresh | request_callback.py:282 | a comprehension over distinct keys is its entries in order |
| CallbackOutput.NewCallback | request_callback.py:252-255 | each missing part is replaced by the freshly constructed record, and a given part is kept; `calculate_callbacks` builds its callbacks through it |
| CallbackOutput.ContractEntries | request_callback.py:282 | the keys are `contract_attributes`' display names, in table order |
| CallbackOutput.ExecutionEntries | request_callback.py:291 | the keys are `execution_attributes`' display names, in table order |
| CallbackOutput.CommissionEntries | request_callback.py:300 | the keys are `commissionReport_attributes`' display names, in table order |
| CallbackOutput.ComprehensionGet | request_callback.py:282-300 | a comprehension over distinct keys maps each display key to its attribute's value |
| CallbackOutput.TableKeys | request_callback.py:209-250 | the display names of the three attribute tables, in order |
| CallbackOutput.TablesDistinct | request_callback.py:209-250 | no attribute table repeats a display name |
| CallbackOutput.OutputKeysOfTables | request_callback.py:275-300 | each `output_*` dictionary has its table's keys, distinct and in order |
| CallbackOutput.ContractOutputAt | request_callback.py:275-282 | `output_contract` maps the i-th display name to the contract's i-th attribute |
| CallbackOutput.ExecutionOutputAt | request_callback.py:284-291 | `output_execution` maps the i-th display name to the execution's i-th attribute |
| CallbackOutput.CommissionOutputAt | request_callback.py:293-300 | `output_commission` maps the i-th display name to the report's i-th attribute |
| CallbackOutput.OutputGet | request_callback.py:257-264 | `output` takes each key from the last of execution, contract and commission report that has it |
| CallbackOutput.OutputKeys | request_callback.py:257-264 | `output` starts with the execution's keys in order and holds each key of the three tables once |
| CallbackOutput.OutputExchange | request_callback.py:264 | `output`'s `Exchange` is the contract's, overriding the execution's |
| CallbackOutput.OutputExecId | request_callback.py:264 | `output`'s `ExecId` is the commission report's, overriding the execution's |
| CallbackOutput.OutputCurrency | request_callback.py:264 | `output`'s `Currency` is the commission report's, overriding the contract's |
| CallbackOutput.OutputAccount | request_callback.py:264 | a key only the execution has (`Account`) is the execution's |
| CallbackOutput.OutputExecutionAndContractGet | request_callback.py:266-273 | `output_execution_and_contract` takes each key from the contract if it has it, otherwise from the execution |
| CallbackOutput.ExecutionAndContractExchange | request_callback.py:273 | there `Exchange` is the contract's |
| CallbackOutput.ExecutionAndContractExecId | request_callback.py:273 | there `ExecId` is the execution's |
| CallbackOutput.ExecutionAndContractCurrency | request_callback.py:273 | there `Currency` is the contract's |
| RequestCallback.ExecutionMapDomain | request_callback.py:162-164 | the execution dictionary holds an execId exactly when some entry has it |
| RequestCallback.ExecutionMapLastWins | request_callback.py:162-164 | for a repeated execId the last appended (contract, execution) wins |
| RequestCallback.CommissionMapDomain | request_callback.py:167-169 | the commission dictionary holds an execId exactly when some report has it |
| RequestCallback.CommissionMapLastWins | request_callback.py:167-169 | for a repeated execId the last appended report wins |
| RequestCallback.MatchAll | request_callback.py:175-179 | one tuple per execId, in the order of the ids |
| RequestCallback.MatchingIds | request_callback.py:171-179 | the result's execIds are strictly ascending, hence distinct, and are exactly the execIds of either list |
| RequestCallback.MatchingSize | request_callback.py:171-179 | the result has as many tuples as the union of the two key sets |
| RequestCallback.MatchingExecutionSide | request_callback.py:177 | a tuple's contract and execution are those of the last entry with its execId, or the defaults when there is none |
| RequestCallback.MatchingCommissionSide | request_callback.py:178 | a tuple's commission report is the last one with its execId, or the default when there is none |
| RequestCallback.CallbacksFromSpec | request_callback.py:193-200 | raises exactly when some tuple lacks its contract, then for the first such tuple, naming `contract`; otherwise one callback per tuple, in order, built from its parts |
| RequestCallback.CallbacksFromStep | request_callback.py:195-199 | one loop step either raises for the tuple or appends its callback |
| RequestCallback.CallbacksFromFailureSticks | request_callback.py:195-198 | once the loop has raised, later tuples change nothing |
| RequestCallback.ExecutionOnlyOutput | request_callback.py:177-178 | an execution without a commission report is output with the default report's empty `ExecId` and `Currency` |
| RequestCallback.ExecutionsApp.constructor | request_callback.py:17-32 | empty lists, empty callbacks, all flags clear |
| RequestCallback.ExecutionsApp.WaitForReqExecutions | request_callback.py:84-93 | sends `reqExecutions` with the given id; the flag is not cleared |
| RequestCallback.ExecutionsApp.ExecDetailsEnd | request_callback.py:95-105 | raises the executions flag; nothing else changes |
| RequestCallback.ExecutionsApp.ExecDetails | request_callback.py:107-118 | appends (contract, execution) in arrival order |
| RequestCallback.ExecutionsApp.CommissionReport | request_callback.py:120-129 | appends the report in arrival order |
| RequestCallback.ExecutionsApp.MatchExecutionAndCommission | request_callback.py:151-181 | builds both dictionaries, sorts the union of their keys and returns exactly the matching of the two lists |
| RequestCallback.ExecutionsApp.CalculateCallbacks | request_callback.py:183-202 | returns what the loop yields on the matched tuples; stores the callbacks only on success |
| RequestCallback.BuildCallbacks | request_callback.py:193-199 | the loop over the tuples yields exactly the callbacks or the first error |
| AccountUpdates.AccountValueRow | request_account_updates/request_account_updates.py:90 | four cells, each the argument its header column names (account name first) |
| AccountUpdates.PortfolioRow | request_account_updates/request_account_updates.py:103-116 | seventeen cells, each the contract attribute or argument its header column names |
| AccountUpdates.AccountUpdatesApp.constructor | request_account_updates/request_account_updates.py:18-32 | the two row lists empty, all flags clear; the account list, which the source creates only later, starts empty |
| AccountUpdates.AccountUpdatesApp.ManagedAccounts | request_account_updates/request_account_updates.py:136-146 | stores the parsed account list, then raises the managed-accounts flag |
| AccountUpdates.AccountUpdatesApp.WaitForManagedAccounts | request_account_updates/request_account_updates.py:132-134 | once the flag is set, returns the stored list, every entry an account name |
| AccountUpdates.AccountUpdatesApp.WaitForReqAccountUpdates | request_account_updates/request_account_updates.py:76-80 | clears the flag, then subscribes to the account |
| AccountUpdates.AccountUpdatesApp.UpdateAccountValue | request_account_updates/request_account_updates.py:82-92 | appends the account-value row; nothing else changes |
| AccountUpdates.AccountUpdatesApp.UpdatePortfolio | request_account_updates/request_account_updates.py:94-118 | appends the portfolio row; nothing else changes |
| AccountUpdates.AccountUpdatesApp.AccountDownloadEnd | request_account_updates/request_account_updates.py:120-130 | unsubscribes the same account, then raises the flag |
| AccountUpdates.AccountUpdatesApp.GetUpdateAccountValue | request_account_updates/request_account_updates.py:171-172 | the rows under the four-column header, each row the header's width |
| AccountUpdates.AccountUpdatesApp.GetUpdatePortfolio | request_account_updates/request_account_updates.py:174-176 | the rows under the seventeen-column header, each row the header's width |
| AccountUpdates.SubscriptionFlag | request_account_updates/request_account_updates.py:76-130 | between subscribe and download end the flag stays clear whatever else happens, and the download end sets it |
| AccountUpdates.SubscriptionRequests | request_account_updates/request_account_updates.py:76-130 | one account's round sends the subscribe, whatever came in between, and the unsubscribe for the same account |
| OpenOrders.OpenOrderRow | request_open_order.py:112-118 | nineteen cells, each the order, contract or order-state attribute its header column names (the order id the callback's own) |
| OpenOrders.OrderStatusRow | request_open_order.py:140-142 | eight cells, each the argument its header column names |
| OpenOrders.OrderStatusRowIgnoresDropped | request_open_order.py:140-142 | the parent id, hold reason and cap price do not reach the row |
| OpenOrders.OpenOrdersApp.constructor | request_open_order.py:26-42 | empty records, flag clear |
| OpenOrders.OpenOrdersApp.WaitForReqAllOpenOrders | request_open_order.py:93-99 | sends `reqAllOpenOrders`; the flag is not cleared |
| OpenOrders.OpenOrdersApp.OpenOrder | request_open_order.py:101-120 | appends the open-order row; nothing else changes |
| OpenOrders.OpenOrdersApp.OrderStatus | request_open_order.py:122-144 | appends the order-status row; nothing else changes |
| OpenOrders.OpenOrdersApp.OpenOrderEnd | request_open_order.py:146-153 | raises the flag; the records are unchanged |
| OpenOrders.OpenOrdersApp.GetOpenOrder | request_open_order.py:176-184 | the rows under the nineteen-column header, each row the header's width |
| OpenOrders.OpenOrdersApp.GetOpenOrderStatus | request_open_order.py:186-194 | the rows under the eight-column header, each row the header's width |
| AccountSummary.SummaryRow | request_account_summary.py:122 | four cells, each the argument its header column names |
| AccountSummary.SummaryRowIgnoresReqId | request_account_summary.py:110-124 | the request id does not reach the row |
| AccountSummary.AccountSummaryApp.constructor | request_account_summary.py:27-41 | empty list, empty table under the header, flag clear |
| AccountSummary.AccountSummaryApp.WaitForReqAccountSummary | request_account_summary.py:94-105 | asks for all tags of group `All` under the given id; the flag is not cleared |
| AccountSummary.AccountSummaryApp.CollectAccountSummary | request_account_summary.py:106-108 | once the flag is set, stores and returns the table of exactly the collected rows |
| AccountSummary.AccountSummaryApp.AccountSummary | request_account_summary.py:110-124 | appends the row, whatever the request id |
| AccountSummary.AccountSummaryApp.AccountSummaryEnd | request_account_summary.py:126-135 | raises the flag; the rows are unchanged |
| AccountSummary.SummaryFlagStaysSet | request_account_summary.py:126-135 | nothing this `App` does clears the summary flag, so once set it stays set |
| PlaceOrders.Placement | place-order/place_order.py:79-86 | four steps per pair |
| PlaceOrders.PlacementRequests | place-order/place_order.py:79-86 | pair `i` sends the id request and then its order, under the `i`-th reply, its fields stamped with that id and the client id |
| PlaceOrders.PlacementIds | place-order/place_order.py:79-86 | the order ids placed are exactly the replies, in order, each order carrying its own id and the client id |
| PlaceOrders.StampedSameButIds | place-order/place_order.py:83-84 | placing changes no field of an order but its order id and client id |
| PlaceOrders.Restamp | place-order/place_order.py:83-84 | stamping an order again overwrites the earlier stamp |
| PlaceOrders.StampedLast | place-order/place_order.py:79-84 | after the pairs up to `i`, an order object carries the id of its last placement among them |
| PlaceOrders.StampedLastOccurrence | place-order/place_order.py:79-84 | after the loop, the last pair holding an order object decides its ids |
| PlaceOrders.PlaceOrderApp.constructor | place-order/place_order.py:18-31 | stores the pairs; fresh latch, empty trace |
| PlaceOrders.PlaceOrderApp.PlaceOrders | place-order/place_order.py:74-86 | on a started connection the trace grows by exactly the placement of all pairs, and each order object ends stamped by its last placement |
| PlaceOrders.PlaceOrderApp.PlaceNext | place-order/place_order.py:79-86 | one pass of the loop extends the placement by one pair and restamps exactly the objects of that pair |
| PlaceOrders.PlaceOrderApp.PlaceOne | place-order/place_order.py:81-86 | fetches an id, stamps the order with the client id and that id, and places it under that id |
| PlaceOrders.MakePair | place-order/place_order.py:141-163 | a fresh market order of account `YOUR ACCOUNT` with limit price 0.0 and no algorithm, on the stock contract |
| PlaceOrders.GetOrders | place-order/place_order.py:106-165 | AAPL buy 10, TSLA buy 20 and GOOG sell 30, in that order, on three distinct fresh order objects |
| HistoricalData.HistoricalRequestFields | request_historical_stock_pvdata.py:89-101 | request id 1; the caller's symbol, end date, duration and bar size; STK, USD, SMART, ARCA and otherwise a default contract; TRADES, regular hours, string dates, no updates, no chart options |
| HistoricalData.HistoricalRequestDefaults | request_historical_stock_pvdata.py:78 | without a duration and a bar size the request asks for `1 Y` of `1 day` bars |
| HistoricalData.HistoricalRequestInjective | request_historical_stock_pvdata.py:92-101 | requests for different symbols differ |
| HistoricalData.HistoricalDataApp.constructor | request_historical_stock_pvdata.py:16-26 | fresh latch, flag clear |
| HistoricalData.HistoricalDataApp.RequestHistoricalData | request_historical_stock_pvdata.py:78-102 | builds the contract field by field and sends exactly that request, with duration `1 Y` and bar size `1 day` when the caller gives neither; the flag is not cleared |
| HistoricalData.HistoricalDataApp.HistoricalDataBar | request_historical_stock_pvdata.py:104-113 | a bar changes no state and is not accumulated |
| HistoricalData.HistoricalDataApp.HistoricalDataEnd | request_historical_stock_pvdata.py:115-126 | raises the historical-data flag |

## Left out

- Threads, blocking and timing are not modelled: `Thread(target=self.run)`,
  `Event.wait`, `threading.Lock`, the `threading.Timer` delays of
  `execDetailsEnd` and `openOrderEnd`, and `time.sleep`. An Event is a
  boolean. A delayed set is an immediate raise. A wait is split at the
  point where it blocks, and the trace records the order of events.
- The client library is not modelled. This covers `connect`, `run`,
  `disconnect`, the network sends behind `super().req*` and `placeOrder`,
  and the base-class callbacks. Outbound calls are entries in the trace.
  The client id that `connect` sets is a constructor parameter.
- The library's default `Contract()`, `Execution()`, `CommissionReport()`
  and `Order()` field values are not visible. They are taken as empty
  strings, zeros and an unset quantity and price.
- pandas is not modelled, including `drop_duplicates` in the `__main__`
  blocks. A table is its columns and its rows, and the model proves that
  every row has the header's width.
- Printing is not modelled: `print`, the `error` callbacks (whose
  `reqId != -1` test only gates a print) and the log lines.
- AccountUpdates.AccountUpdatesApp.constructor: `__init__` does not create
  `accountsList`; the attribute first exists when `managedAccounts`
  assigns it. The model starts it as the empty list. No member reads it
  before that assignment, because `WaitForManagedAccounts` requires the
  flag that `ManagedAccounts` raises, so the initial value cannot be
  observed. Reading the attribute before the callback, which would raise
  `AttributeError` in the script, is not modelled.
- Algorithm parameters (`TagValue` values such as `1`, `0.1` and `100`)
  are kept as they are passed to `TagValue`, as integers or decimal text,
  not in the form the library stores them after converting them.
- Floating-point values (prices, PnL, the algorithm tag values 0.1, 0.5
  and 0.2, `lmtPrice` 0.0) are kept as their decimal text and never
  computed with.
- The `__main__` drivers are not modelled as a whole. Their order of
  calls is what the lemmas about traces cover.
- `connection_status` is not modelled: it is assigned and never read.
- `check_connection.py` is not part of this model. It only connects,
  sleeps, prints the connection status and disconnects.
- `request_global_cancel_order.py` is not part of this model. On its
  first `nextValidId` it sends `reqGlobalCancel()` and schedules a
  `Timer` disconnect one second later. It has no latch, no flags and no
  rows.
- `execDetails` can deliver no contract (`None`). That is the only way
  `calculate_callbacks` can raise, because the matcher always supplies
  an execution and a report.
- Python's string `<` is modelled on code points, which is how `sorted`
  orders execIds. Unicode normalisation plays no part.
