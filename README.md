# L3 chain monitor: health check and contract loader

This project models the two parts of the chain monitor that carry logic, and proves what they promise.

**The vital-health check of an L3 chain (`get_l3_vital_health`).**
- It asks the chain's RPC node, in a fixed order, for:
  - whether it is connected, and the latest block;
  - the client version, and the balance of the block's miner (taken to be the sequencer);
  - the chain id, the gas price, the peer count;
  - the newest transactions of the latest block.
- It builds one report from the answers.
- It raises an alert when the block is more than 300 seconds old, and another when the sequencer holds less than 1.0 ETH.
- The overall status is `ALERT` exactly when some alert was raised.
- Each query fails in its own way:
  - A failed connection or latest-block query ends the check with a bare error message.
  - A failed chain-id query escapes as an exception.
  - Every other failed query leaves a marker (`N/A`, `Unknown`, `Error`) in its field, or an empty transaction list.

**The JSON hook of the report writer (`to_serializable`).**
- Decimals become floats.
- Byte strings become lowercase hex.
- Sets become lists.
- Anything else becomes its text.

**The Telegram notifier's credential guard (`send_telegram_alert`).**

**The `load` management command (`Command.handle`).**
- It takes one contract document, already parsed from JSON. It empties the contract, ABI-item and transaction tables.
- It creates:
  - the contract row from the document's top-level keys, with `name` and `symbol` read from the ABI;
  - one ABI-item row per ABI entry;
  - one transaction row per transaction entry that has a hash.
- Transactions are bulk-inserted with conflicts ignored.

**Modelling choices.**
- The node is a value of type `Health.Node` that holds the answer each query gives: `Ok(value)`, or `Err` when the call raises. Queries that take an address or a hash are functions. The current time is a parameter.
- The check appears twice:
  - `Health.VitalHealth` is the specification function.
  - `Health.GetL3VitalHealth` is the imperative procedure in the order `get_l3_vital_health` runs. It appends alerts and collects the recent transactions in a loop. Its contract ties it to the function.
- The loader appears the same way:
  - `Loader.Store` is a class holding the three tables. `Loader.Handle` changes the store in place, stage by stage.
  - `Loader.Load` is the function that says what the tables hold afterwards.
- Parsed JSON is the datatype `ParsedJson.Json`, together with the Python built-ins the loader applies to it: `dict.get`, truthiness, `int()` and `Decimal()`.

Modules: `Wrappers` (Option/Result), `Serialize`, `Health`, `Telegram`, `ParsedJson`, `Loader`.

## Model

| member | source | states |
|---|---|---|
| Serialize.Hex | Monitor_app/tasks.py:34-35 | `bytes.hex()` yields exactly two characters per byte |
| Serialize.HexDigitsAt | Monitor_app/tasks.py:34-35 | every character of the hex text is a lowercase hex digit, and byte `i` is rendered by characters `2i` (high nibble) and `2i+1` (low nibble), with no prefix |
| Serialize.Unhex | Monitor_app/tasks.py:34-35 | a reference inverse of `bytes.hex()` (what `bytes.fromhex` reads; the program itself never decodes hex): one byte per two characters |
| Serialize.UnhexHex | Monitor_app/tasks.py:34-35 | decoding the hex text gives back the original bytes, so the rendering loses nothing |
| Serialize.ToSerializable | Monitor_app/tasks.py:28-40 | a decimal becomes a float carrying its value (rounding to a double is not modelled); bytes become lowercase hex of length 2n that decodes back to them; a set becomes a list of the same length and members; any other object becomes its text |
| Telegram.SendTelegramAlert | Monitor_app/tasks.py:42-62 | with an empty token or chat id, nothing is posted and the result is failure with "Bot Token or Chat ID not provided."; otherwise exactly one POST goes to `https://api.telegram.org/bot<token>/sendMessage` with Markdown parse mode, and success holds iff the POST succeeds, carrying its response or its error |
| Health.StaleBlockAlerts | Monitor_app/tasks.py:86-90 | an alert exists iff the seconds since the block are strictly more than 300, and it carries that number |
| Health.Sequencer | Monitor_app/tasks.py:103-124 | an absent, empty or invalid miner gives `Unknown`/`N/A` and no alert; a raising balance query gives `Error`/`N/A` and no alert; otherwise the miner and its balance are reported, with the critical-balance alert iff the balance is below 1.0 |
| Health.CheckSequencer | Monitor_app/tasks.py:103-124 | the imperative sequencer section produces exactly the fields and alert of `Sequencer` |
| Health.Alerts | Monitor_app/tasks.py:74-124 | at most two alerts, a stale-block alert always before a balance alert; the stale alert is present iff the block is more than 300 s old; a balance alert is present iff a usable miner's balance was fetched and is below 1.0, and it carries the reported balance |
| Health.UsableMiner | Monitor_app/tasks.py:106-107 | a missing or empty miner is never used; a non-empty one is used iff the node accepts it as an address |
| Health.OrNA | Monitor_app/tasks.py:137-138 | a block attribute that is present is reported as its value, an absent one as `N/A` |
| Health.ResultOrNA | Monitor_app/tasks.py:96-101 | a guarded query that answers is reported as its answer, one that raises as `N/A` |
| Health.BlockHashHex | Monitor_app/tasks.py:139 | the block hash becomes lowercase hex of twice its length that decodes back to it; a block without a hash gives the empty text |
| Health.Summarize | Monitor_app/tasks.py:161-167 | a recent-transaction entry has a hash text of twice the hash's length, and the transaction's sender, recipient, value and gas |
| Health.SummaryHash | Monitor_app/tasks.py:162 | the entry's hash text is lowercase hex that decodes back to the transaction's hash |
| Health.RecentHashes | Monitor_app/tasks.py:158-159 | `reversed(txs[-15:])`: min(15, n) hashes, element `i` being the `i`-th newest |
| Health.FetchAll | Monitor_app/tasks.py:159-167 | the fetch fails iff some fetch of a hash raises; otherwise it gives one summary per hash, in order |
| Health.RecentTransactions | Monitor_app/tasks.py:155-171 | if any fetch among the newest 15 raises, the list is empty; if none raises, it has min(15, n) entries; entry `i` summarises the `i`-th newest transaction |
| Health.CollectRecentTransactions | Monitor_app/tasks.py:155-171 | the collecting loop, which drops its partial list when a fetch raises, yields exactly `RecentTransactions` |
| Health.ReportOf | Monitor_app/tasks.py:74-193 | the status is `ALERT` iff the alert list is non-empty; the alerts and sequencer fields are those of the alert and sequencer stages; the URL, chain id, block number and timestamp are copied; client version, gas price and peer count are the node's answer, or `N/A` when that query raises; gas limit and gas used are the block's values, or `N/A` when it lacks them; `transaction_count` is the block's transaction count; `recent_transactions` is the all-or-nothing list of `RecentTransactions`; `gas_fee_metrics` repeats gas limit, gas used and sequencer balance with critical point 1.0; the block hash is `bytes.hex()` of the block's hash (empty when it has none) |
| Health.VitalHealth | Monitor_app/tasks.py:64-195 | no connection gives the single error "Failed to connect to RPC <url>"; a failed latest-block query gives "Could not fetch the latest block."; the check raises iff those succeed and the chain id query fails; otherwise it gives the report `ReportOf` builds from the latest block, the chain id and the time, whose status is `ALERT` iff alerts exist, with at most two alerts, stale before balance |
| Health.GetL3VitalHealth | Monitor_app/tasks.py:64-195 | the step-by-step check returns exactly `VitalHealth` for every node and time |
| ParsedJson.Truncate | Monitor_app/load.py:78-95 | `int()` of a float truncates toward zero |
| ParsedJson.ParseInt | Monitor_app/load.py:78-95 | `int()` of a string accepts exactly an optional sign followed by at least one digit; a negative result needs a leading `-`; a plain digit string reads as its decimal value |
| ParsedJson.ParseIntSigned | Monitor_app/load.py:78-95 | `int("+" + d) == int(d)` is the decimal value of the digits `d`, and `int("-" + d)` is its negation |
| ParsedJson.ParseIntLeadingZero | Monitor_app/load.py:78-95 | a leading zero does not change the value: `int("0" + d) == int(d)` |
| ParsedJson.ParseIntText | Monitor_app/load.py:78-95 | `int(str(n)) == n` for every integer `n` |
| ParsedJson.ParseDecimal | Monitor_app/load.py:40 | `Decimal()` of a string accepts exactly an optional sign followed by digits with at most one point, not empty and not a lone point (`DecimalText`); it reads every integer text as the same number `int()` reads |
| ParsedJson.ParseDecimalSigned | Monitor_app/load.py:40 | a `+` in front of an unsigned text changes nothing; a `-` negates the value; either way the text is accepted iff it is accepted without the sign |
| ParsedJson.ParseDecimalPoint | Monitor_app/load.py:40 | `Decimal(w + "." + f)` for digit strings is the integer `int(w + f)` divided by ten to the number of fraction digits |
| ParsedJson.ParseDecimalText | Monitor_app/load.py:40 | `Decimal(str(n)) == n` for every integer `n` |
| ParsedJson.IntOf | Monitor_app/load.py:78-95 | `int()` of a parsed JSON value: `None`, lists and objects raise; an integer is itself; a bool is 0 or 1; a float truncates; a string is parsed |
| ParsedJson.DecimalOf | Monitor_app/load.py:85 | `Decimal()` of a parsed JSON value: `None`, lists and objects raise; for integers, bools and integer strings it agrees with `int()`; a string is parsed as a decimal |
| ParsedJson.DecimalOfText | Monitor_app/load.py:40 | `Decimal(str(x))`: an integer gives its own value, a string is parsed, and `None`, bools, lists and objects raise |
| Loader.ContractFields | Monitor_app/load.py:27 | the contract's fields are every top-level key except `abi` and `transactions`, with unchanged values |
| Loader.FirstOutputValue | Monitor_app/load.py:30-31 | `item['outputs'][0]['value']` succeeds iff `outputs` is a non-empty list whose first element is an object holding `value`, and then gives that value |
| Loader.Entries | Monitor_app/load.py:53 | `data.get(key, [])`: an absent key gives the empty list; a present key gives its list, and anything but a list fails |
| Loader.LookupOutput | Monitor_app/load.py:30-31 | `None` iff the scan passes every entry; otherwise the `outputs[0].value` of the first entry named `key`; an error when a non-object is met first or that value is missing |
| Loader.ContractOf | Monitor_app/load.py:26-44 | the row's address is the document's `address`; bytecode, creator and creation_tx are copied; `is_contract` defaults to False; `balance_eth` is `Decimal(str(...))` of the stored value, 0 when absent; name and symbol come from the ABI lookup; it fails iff the ABI is not a list, a lookup raises, the address is missing or the balance does not parse |
| Loader.AbiItemOf | Monitor_app/load.py:54-64 | an item exists iff the entry is an object; it is linked to the contract; `type` defaults to `'unknown'`; inputs and outputs default to `[]`; name, state mutability, `constant`, `payable` and `anonymous` are copied |
| Loader.BuildAbiItems | Monitor_app/load.py:52-64 | succeeds iff every entry is an object; then exactly one item per entry, in input order |
| Loader.CollectAbiItems | Monitor_app/load.py:52-64 | the loop appending ABI items produces exactly `BuildAbiItems` |
| Loader.IsErrorFlag | Monitor_app/load.py:94 | an absent `isError` or the text `"0"` gives false, the text `"1"` gives true, and it raises iff `int()` of the value raises |
| Loader.TxRecordOf | Monitor_app/load.py:75-96 | the record carries the entry's hash and the contract; `is_error` holds iff `int(isError)` is not 0, and is false when `isError` is absent; `to`, `input` and `txreceipt_status` take their defaults; block number and confirmations are their `int()`; a record is built iff `hash`, `blockHash`, `from` and `value` are present, every integer field converts, `value` converts with `Decimal()` and `isError` converts (`RowBuilds`); a missing `blockHash`, `from` or `value` fails; `blockHash` and `from` are copied, `value` is `Decimal(value)`, time stamp, nonce, transaction index and the four gas fields are their `int()`, `methodId` and `functionName` are copied or null |
| Loader.HasHash | Monitor_app/load.py:72-73 | an entry is kept only if it is an object holding `hash`; a string hash is kept iff non-empty; a `None`, `False`, `0` or empty hash is skipped |
| Loader.Hashed | Monitor_app/load.py:70-73 | every kept entry has a truthy hash, and every entry with one is kept |
| Loader.HashedPositions | Monitor_app/load.py:70-73 | exactly the positions of the entries with a hash: every listed position has one, every position with one is listed, strictly increasing |
| Loader.HashedInOrder | Monitor_app/load.py:69-73 | the kept entries are the input's entries at those increasing positions, so input order is kept |
| Loader.BuildTransactions | Monitor_app/load.py:69-96 | succeeds iff every entry is an object and every hashed entry builds (`EntriesBuild`); then exactly one record per hashed entry, in order |
| Loader.CollectTransactions | Monitor_app/load.py:69-96 | the loop that skips hashless entries and appends records produces exactly `BuildTransactions` |
| Loader.InsertIgnoringConflicts | Monitor_app/load.py:98 | stored rows are never replaced; every record's hash ends up stored; every new row comes from a record with that hash; among records sharing a new hash, the first wins |
| Loader.FillTables | Monitor_app/load.py:46-98 | the contract table holds just the one contract; every ABI item and transaction is linked to it; each transaction is stored under its own hash; the run loads iff the ABI list and the transaction list both build; the ABI table holds the built items, or none when the ABI raises; a loading run stores the conflict-ignoring insert of the built records and reports one ABI item per entry and one transaction per hashed entry; a failing run stores no transactions |
| Loader.Load | Monitor_app/load.py:13-100 | whatever the tables held before, afterwards they hold only this document's contract and rows linked to it; the run loads iff the document is an object whose contract row, ABI items and transaction rows all build; once the contract builds, the contract table holds exactly that row and the ABI table the built items (none when the ABI raises); a loading run stores the conflict-ignoring insert of the built records and reports one ABI item per entry and one transaction per hashed entry; a failing run stores no transactions; a document that is not an object, or whose contract cannot be built, leaves all three tables empty |
| Loader.Store.DeleteTransactions | Monitor_app/load.py:22 | empties the transaction table and nothing else |
| Loader.Store.DeleteAbiItems | Monitor_app/load.py:23 | empties the ABI-item table and nothing else |
| Loader.Store.DeleteContracts | Monitor_app/load.py:24 | empties the contract table and nothing else |
| Loader.Store.UpdateOrCreateContract | Monitor_app/load.py:33-44 | stores the row under its address, replacing any row there; `created` holds iff the address was new |
| Loader.Store.BulkCreateAbiItems | Monitor_app/load.py:65 | appends the items in order and changes nothing else |
| Loader.Store.BulkCreateTransactions | Monitor_app/load.py:98 | the insert loop leaves exactly `InsertIgnoringConflicts` of the old table; the other tables are unchanged |
| Loader.Handle | Monitor_app/load.py:13-100 | the command's outcome and the store's new contents are exactly `Load` of the document, whatever the store held before |

## Left out

- Network and node access (the Web3 provider, `is_connected`, `get_block`, `get_balance`, `get_transaction`, the Telegram HTTP POST) is not modelled as I/O. Each call is a pre-decided answer in `Health.Node`, or a `post` function parameter.
- Health.Node: balances and the gas price are abstract reals. The conversion from wei with `float(from_wei(...))` is not modelled. So the balance threshold is stated over that real, not over wei, where float rounding near 1 ETH can differ.
- Health.Alerts: an alert carries the elapsed seconds or the balance, not the formatted message text. The f-string formatting is not modelled.
- Health.Block: the block number and timestamp are always present. A block lacking them would raise inside the same `try`, which the model covers as a failed latest-block query. The timestamp stays in integer seconds; the ISO rendering is formatting. `datetime.fromtimestamp` raises for a timestamp past the year 9999 (or before the year 1), inside that same `try`, so the source counts such a block as a failed latest-block query; the model does not, and builds the report from it.
- The clock: `now` is a parameter in seconds since the epoch.
- Placeholder fields: `last_batch_posted_timestamp` and `chain_size_on_disk` are constant strings and are not part of `Health.Report`.
- Serialize.ToSerializable: `float(Decimal)` rounds to the nearest double; the model keeps the decimal's exact value.
- Serialize.ToSerializable: the `HexBytes` branch, whose output depends on the external library's version, is not modelled. The datetime branch is taken as its ISO text already produced.
- Health.BlockHashHex, Health.Summarize: the block and transaction hashes are `HexBytes` values. They are rendered as `bytes.hex()` renders them, without a `0x` prefix, which is what `HexBytes.hex()` gives from hexbytes 1.0 on; earlier versions of that library add the prefix, which the model does not capture.
- Sets: a set is known by its members in iteration order. That order is the one `list(set)` copies.
- Logging, `__main__` (writing the report file, printing it, logging alerts) and the `load` command's file read and stdout messages are I/O and are not modelled.
- Telegram.SendTelegramAlert: a `None` token or chat id is treated like the empty string. The response body is kept as text.
- Loader: the Django ORM is three in-memory tables. Rows are keyed by the JSON value of their address or hash. ABI items have no ids. Field lengths and database constraints beyond the hash's uniqueness are not modelled. A failure part-way leaves what the earlier stages wrote, as the command does without a database transaction.
- Loader.Entries: an `abi` or `transactions` value that is not a list fails. Python would instead iterate a string or a dict without raising on the iteration itself.
- ParsedJson: `int()` and `Decimal()` of a string accept an optional sign, digits and, for `Decimal`, one decimal point. Non-ASCII decimal digits (Python reads `int("٣")` as 3), surrounding whitespace, underscores, exponents, `NaN`/`Infinity` are not modelled.
- ParsedJson.DecimalOf: `Decimal()` also reads a JSON list `[sign, [digits], exponent]` as a number; the model treats every list as raising, as `int()` does. A JSON float stands for the value of its decimal text, which is what `Decimal(str(x))` reads. `Decimal(x)` of the float itself (a transaction `value` stored as a JSON float) is the double's exact binary value, which can differ in far digits (`Decimal(0.1)` is not `Decimal('0.1')`); the model does not capture that difference.
- ParsedJson.IntOf: `int(x)` of a JSON float truncates the double, not its decimal text; the model truncates the value of the text, which can differ for floats too large or too precise for a double.
- Loader.TxRecordOf: `datetime.fromtimestamp` is left out; `timeStamp` is kept as its integer seconds, whose time zone does not matter. That call raises for a time stamp past the year 9999 (or before the year 1), which stops the load; `RowBuilds` accepts such a row and `Load` reports it loaded.
- Monitor_app/api.py, Monitor_app/views.py, Monitor_app/models.py and Monitor_app/serializers.py are request glue and declarative schema, and are not part of this model. The record datatypes follow models.py's field names.
