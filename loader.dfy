/**
 * The `load` management command: it empties the contract, ABI-item and
 * transaction tables, then fills them from one parsed JSON document that
 * describes a single contract, its ABI and its transactions.
 */
module Loader {
  import opened Wrappers
  import opened ParsedJson

  /** A row of the contract table; `address` is its primary key. */
  datatype Contract = Contract(
    address: Json,
    bytecode: Json,
    isContract: Json,
    creator: Json,
    creationTx: Json,
    balanceEth: real,
    name: Json,
    symbol: Json)

  /** A row of the ABI-item table; `contract` is the owning contract's address. */
  datatype AbiItem = AbiItem(
    contract: Json,
    itemType: Json,
    name: Json,
    constant: Json,
    payable: Json,
    stateMutability: Json,
    inputs: Json,
    outputs: Json,
    anonymous: Json)

  /** A row of the transaction table; `hash` is its primary key. */
  datatype TxRecord = TxRecord(
    hash: Json,
    contract: Json,
    blockNumber: int,
    blockHash: Json,
    timestamp: int,
    nonce: int,
    transactionIndex: int,
    fromAddress: Json,
    toAddress: Json,
    value: real,
    gas: int,
    gasPrice: int,
    gasUsed: int,
    cumulativeGasUsed: int,
    inputData: Json,
    methodId: Json,
    functionName: Json,
    txReceiptStatus: Json,
    isError: bool,
    confirmations: int)

  /** How the command ends: the counts it reports, or an exception. */
  datatype LoadOutcome = Loaded(abiItemCount: nat, transactionCount: nat) | Failed

  /** The three tables as one value. */
  datatype Tables = Tables(
    contracts: map<Json, Contract>,
    abiItems: seq<AbiItem>,
    transactions: map<Json, TxRecord>)

  datatype LoadResult = LoadResult(outcome: LoadOutcome, tables: Tables)

  const EmptyTables := Tables(map[], [], map[])

  /** The contract's own fields: every top-level key except `abi` and `transactions`. */
  function ContractFields(data: map<string, Json>): (fields: map<string, Json>)
    ensures fields.Keys == data.Keys - {"abi", "transactions"}
    ensures forall k :: k in fields ==> fields[k] == data[k]
  {
    map k | k in data && k != "abi" && k != "transactions" :: data[k]
  }

  /** `data.get(key, [])` as the list the loader iterates over. */
  function Entries(data: map<string, Json>, key: string): (r: Result<seq<Json>>)
    ensures key !in data ==> r == Ok([])
    ensures key in data ==> (r.Ok? <==> data[key].JArr?)
    ensures key in data && r.Ok? ==> data[key] == JArr(r.value)
  {
    if key !in data then Ok([])
    else match data[key]
      case JArr(items) => Ok(items)
      case _ => Err
  }

  /** An ABI entry whose `name` is the string `key`. */
  predicate IsNamed(entry: Json, key: string) {
    entry.JObj? && Get(entry.fields, "name") == JStr(key)
  }

  /** Every entry before index `i` is an object not named `key`: a scan reaches `i`. */
  predicate ScannedPast(entries: seq<Json>, i: int, key: string)
    requires 0 <= i <= |entries|
  {
    forall j :: 0 <= j < i ==> entries[j].JObj? && !IsNamed(entries[j], key)
  }

  /** The `value` of the first output of an ABI entry; raises when any step of that lookup is missing. */
  function FirstOutputValue(item: map<string, Json>): (r: Result<Json>)
    ensures r.Ok? <==> "outputs" in item && item["outputs"].JArr? && |item["outputs"].items| > 0
                       && item["outputs"].items[0].JObj? && "value" in item["outputs"].items[0].fields
    ensures r.Ok? ==> r.value == item["outputs"].items[0].fields["value"]
  {
    if "outputs" in item && item["outputs"].JArr? && |item["outputs"].items| > 0
       && item["outputs"].items[0].JObj? && "value" in item["outputs"].items[0].fields
    then Ok(item["outputs"].items[0].fields["value"])
    else Err
  }

  function Found(r: Result<Json>): Result<Option<Json>> {
    match r
    case Ok(v) => Ok(Some(v))
    case Err => Err
  }

  /**
   * The lookup of `name` and `symbol`: the first output value of the first entry
   * named `key`, `None` when no entry is, and an exception when the scan meets a
   * non-object first or the match has no such value.
   */
  function LookupOutput(entries: seq<Json>, key: string): (r: Result<Option<Json>>)
    ensures r == Ok(None) <==> ScannedPast(entries, |entries|, key)
    ensures forall i :: 0 <= i < |entries| && ScannedPast(entries, i, key) && IsNamed(entries[i], key) ==>
              r == Found(FirstOutputValue(entries[i].fields))
    ensures forall i :: 0 <= i < |entries| && ScannedPast(entries, i, key) && !entries[i].JObj? ==>
              r == Err
  {
    if entries == [] then Ok(None)
    else if !entries[0].JObj? then Err
    else if IsNamed(entries[0], key) then Found(FirstOutputValue(entries[0].fields))
    else
      var r := LookupOutput(entries[1..], key);
      assert forall i :: 1 <= i <= |entries| ==>
               (ScannedPast(entries, i, key) <==> ScannedPast(entries[1..], i - 1, key));
      r
  }

  function OrNone(o: Option<Json>): Json {
    match o
    case Some(v) => v
    case None => JNull
  }

  /**
   * The contract row built from the document: the address, the defaults for absent
   * fields and the `name`/`symbol` taken from the ABI. Fails where `Command.handle` raises:
   * when the ABI scan raises, `address` is missing or the balance is not a number.
   */
  function ContractOf(data: map<string, Json>): (r: Result<Contract>)
    ensures r.Ok? ==> "address" in data && r.value.address == data["address"]
    ensures r.Ok? ==> r.value.bytecode == Get(data, "bytecode") && r.value.creator == Get(data, "creator")
                      && r.value.creationTx == Get(data, "creation_tx")
    ensures r.Ok? ==> r.value.isContract == GetOr(data, "is_contract", JBool(false))
    ensures r.Ok? ==> Ok(r.value.balanceEth) == DecimalOfText(GetOr(data, "balance_eth", JInt(0)))
    ensures r.Ok? && "balance_eth" !in data ==> r.value.balanceEth == 0.0
    ensures r.Ok? ==> Entries(data, "abi").Ok?
    ensures r.Ok? ==> LookupOutput(Entries(data, "abi").value, "name").Ok?
                      && r.value.name == OrNone(LookupOutput(Entries(data, "abi").value, "name").value)
    ensures r.Ok? ==> LookupOutput(Entries(data, "abi").value, "symbol").Ok?
                      && r.value.symbol == OrNone(LookupOutput(Entries(data, "abi").value, "symbol").value)
    ensures r.Err? <==> Entries(data, "abi").Err?
                        || LookupOutput(Entries(data, "abi").value, "name").Err?
                        || LookupOutput(Entries(data, "abi").value, "symbol").Err?
                        || "address" !in data
                        || DecimalOfText(GetOr(data, "balance_eth", JInt(0))).Err?
  {
    var abi :- Entries(data, "abi");
    var name :- LookupOutput(abi, "name");
    var symbol :- LookupOutput(abi, "symbol");
    var fields := ContractFields(data);
    if "address" !in fields then Err
    else
      var balance :- DecimalOfText(GetOr(fields, "balance_eth", JInt(0)));
      Ok(Contract(
        fields["address"],
        Get(fields, "bytecode"),
        GetOr(fields, "is_contract", JBool(false)),
        Get(fields, "creator"),
        Get(fields, "creation_tx"),
        balance,
        OrNone(name),
        OrNone(symbol)))
  }

  /** One ABI row per entry: `type` defaults to `'unknown'`, `inputs` and `outputs` to `[]`. */
  function AbiItemOf(contract: Json, entry: Json): (r: Result<AbiItem>)
    ensures r.Ok? <==> entry.JObj?
    ensures r.Ok? ==> r.value.contract == contract
    ensures r.Ok? ==> r.value.itemType == GetOr(entry.fields, "type", JStr("unknown"))
    ensures r.Ok? ==> r.value.inputs == GetOr(entry.fields, "inputs", JArr([]))
                      && r.value.outputs == GetOr(entry.fields, "outputs", JArr([]))
    ensures r.Ok? ==> r.value.name == Get(entry.fields, "name")
                      && r.value.stateMutability == Get(entry.fields, "stateMutability")
    ensures r.Ok? ==> r.value.constant == Get(entry.fields, "constant")
                      && r.value.payable == Get(entry.fields, "payable")
                      && r.value.anonymous == Get(entry.fields, "anonymous")
  {
    match entry
    case JObj(f) =>
      Ok(AbiItem(
        contract,
        GetOr(f, "type", JStr("unknown")),
        Get(f, "name"),
        Get(f, "constant"),
        Get(f, "payable"),
        Get(f, "stateMutability"),
        GetOr(f, "inputs", JArr([])),
        GetOr(f, "outputs", JArr([])),
        Get(f, "anonymous")))
    case _ => Err
  }

  /** The ABI rows for `entries`, in order; raises at the first entry that is not an object. */
  function BuildAbiItems(contract: Json, entries: seq<Json>): (r: Result<seq<AbiItem>>)
    ensures r.Ok? <==> forall i :: 0 <= i < |entries| ==> entries[i].JObj?
    ensures r.Ok? ==> |r.value| == |entries|
    ensures r.Ok? ==> forall i :: 0 <= i < |entries| ==> AbiItemOf(contract, entries[i]) == Ok(r.value[i])
  {
    if entries == [] then Ok([])
    else
      var init := entries[..|entries| - 1];
      assert forall i :: 0 <= i < |init| ==> init[i] == entries[i];
      var items :- BuildAbiItems(contract, init);
      var item :- AbiItemOf(contract, entries[|entries| - 1]);
      Ok(items + [item])
  }

  /** A required key (`d[key]`), which raises when absent. */
  function Field(fields: map<string, Json>, key: string): Result<Json> {
    if key in fields then Ok(fields[key]) else Err
  }

  function IntField(fields: map<string, Json>, key: string): Result<int> {
    var v :- Field(fields, key);
    IntOf(v)
  }

  /** The error flag of a transaction entry: `isError` read as an integer, absent meaning 0. */
  function IsErrorFlag(fields: map<string, Json>): (r: Result<bool>)
    ensures "isError" !in fields ==> r == Ok(false)
    ensures Get(fields, "isError") == JStr("0") ==> r == Ok(false)
    ensures Get(fields, "isError") == JStr("1") ==> r == Ok(true)
    ensures r.Err? <==> IntOf(GetOr(fields, "isError", JInt(0))).Err?
  {
    var n :- IntOf(GetOr(fields, "isError", JInt(0)));
    Ok(n != 0)
  }

  /**
   * Every step of building a transaction row succeeds: the required keys are
   * present and every number converts.
   */
  predicate RowBuilds(fields: map<string, Json>) {
    && "hash" in fields && IntField(fields, "blockNumber").Ok? && "blockHash" in fields
    && IntField(fields, "timeStamp").Ok? && IntField(fields, "nonce").Ok?
    && IntField(fields, "transactionIndex").Ok? && "from" in fields
    && "value" in fields && DecimalOf(fields["value"]).Ok?
    && IntField(fields, "gas").Ok? && IntField(fields, "gasPrice").Ok?
    && IntField(fields, "gasUsed").Ok? && IntField(fields, "cumulativeGasUsed").Ok?
    && IsErrorFlag(fields).Ok? && IntField(fields, "confirmations").Ok?
  }

  /** The transaction row for one entry; raises when a required key is missing or a number does not convert. */
  function TxRecordOf(contract: Json, fields: map<string, Json>): (r: Result<TxRecord>)
    ensures r.Ok? ==> "hash" in fields && r.value.hash == fields["hash"] && r.value.contract == contract
    ensures r.Ok? ==> (r.value.isError <==> IntOf(GetOr(fields, "isError", JInt(0))) != Ok(0))
    ensures r.Ok? && "isError" !in fields ==> !r.value.isError
    ensures r.Ok? ==> r.value.toAddress == Get(fields, "to")
                      && r.value.inputData == GetOr(fields, "input", JStr(""))
                      && r.value.txReceiptStatus == GetOr(fields, "txreceipt_status", JStr(""))
    ensures r.Ok? ==> Ok(r.value.blockNumber) == IntField(fields, "blockNumber")
                      && Ok(r.value.confirmations) == IntField(fields, "confirmations")
    ensures "blockHash" !in fields || "from" !in fields || "value" !in fields ==> r.Err?
    ensures r.Ok? <==> RowBuilds(fields)
    ensures r.Ok? ==> r.value.blockHash == fields["blockHash"] && r.value.fromAddress == fields["from"]
                      && Ok(r.value.value) == DecimalOf(fields["value"])
    ensures r.Ok? ==> Ok(r.value.timestamp) == IntField(fields, "timeStamp")
                      && Ok(r.value.nonce) == IntField(fields, "nonce")
                      && Ok(r.value.transactionIndex) == IntField(fields, "transactionIndex")
    ensures r.Ok? ==> Ok(r.value.gas) == IntField(fields, "gas") && Ok(r.value.gasPrice) == IntField(fields, "gasPrice")
                      && Ok(r.value.gasUsed) == IntField(fields, "gasUsed")
                      && Ok(r.value.cumulativeGasUsed) == IntField(fields, "cumulativeGasUsed")
    ensures r.Ok? ==> r.value.methodId == Get(fields, "methodId") && r.value.functionName == Get(fields, "functionName")
  {
    var hash :- Field(fields, "hash");
    var blockNumber :- IntField(fields, "blockNumber");
    var blockHash :- Field(fields, "blockHash");
    var timestamp :- IntField(fields, "timeStamp");
    var nonce :- IntField(fields, "nonce");
    var transactionIndex :- IntField(fields, "transactionIndex");
    var from :- Field(fields, "from");
    var valueJson :- Field(fields, "value");
    var value :- DecimalOf(valueJson);
    var gas :- IntField(fields, "gas");
    var gasPrice :- IntField(fields, "gasPrice");
    var gasUsed :- IntField(fields, "gasUsed");
    var cumulativeGasUsed :- IntField(fields, "cumulativeGasUsed");
    var isError :- IsErrorFlag(fields);
    var confirmations :- IntField(fields, "confirmations");
    Ok(TxRecord(
      hash, contract, blockNumber, blockHash, timestamp, nonce, transactionIndex,
      from, Get(fields, "to"), value, gas, gasPrice, gasUsed, cumulativeGasUsed,
      GetOr(fields, "input", JStr("")), Get(fields, "methodId"), Get(fields, "functionName"),
      GetOr(fields, "txreceipt_status", JStr("")), isError, confirmations))
  }

  /** An entry the transaction loop keeps: an object with a truthy `hash`. */
  predicate HasHash(entry: Json)
    ensures HasHash(entry) ==> entry.JObj? && "hash" in entry.fields
    ensures entry.JObj? && Get(entry.fields, "hash").JStr? ==> (HasHash(entry) <==> Get(entry.fields, "hash").s != "")
    ensures entry.JObj? && Get(entry.fields, "hash") in {JNull, JBool(false), JInt(0), JStr("")} ==> !HasHash(entry)
  {
    entry.JObj? && Truthy(Get(entry.fields, "hash"))
  }

  /** The entries with a hash, in input order. */
  function Hashed(entries: seq<Json>): (kept: seq<Json>)
    ensures |kept| <= |entries|
    ensures forall k :: 0 <= k < |kept| ==> HasHash(kept[k])
    ensures forall i :: 0 <= i < |entries| && HasHash(entries[i]) ==> entries[i] in kept
  {
    if entries == [] then []
    else
      var init, last := entries[..|entries| - 1], entries[|entries| - 1];
      assert forall i :: 0 <= i < |init| ==> init[i] == entries[i];
      Hashed(init) + (if HasHash(last) then [last] else [])
  }

  /** The positions of the entries with a hash, in increasing order. */
  function HashedPositions(entries: seq<Json>): (idx: seq<nat>)
    ensures forall k :: 0 <= k < |idx| ==> idx[k] < |entries| && HasHash(entries[idx[k]])
    ensures forall k, l :: 0 <= k < l < |idx| ==> idx[k] < idx[l]
    ensures forall i :: 0 <= i < |entries| && HasHash(entries[i]) ==> i in idx
  {
    if entries == [] then []
    else
      var init, last := entries[..|entries| - 1], entries[|entries| - 1];
      assert forall i :: 0 <= i < |init| ==> init[i] == entries[i];
      HashedPositions(init) + (if HasHash(last) then [|entries| - 1] else [])
  }

  /** `Hashed` takes its entries from `HashedPositions`: the kept entries stay in input order. */
  lemma {:induction false} HashedInOrder(entries: seq<Json>)
    ensures |Hashed(entries)| == |HashedPositions(entries)|
    ensures forall k :: 0 <= k < |Hashed(entries)| ==> Hashed(entries)[k] == entries[HashedPositions(entries)[k]]
  {
    if entries != [] {
      var init, last := entries[..|entries| - 1], entries[|entries| - 1];
      HashedInOrder(init);
      var kept, idx := Hashed(init), HashedPositions(init);
      var kept', idx' := Hashed(entries), HashedPositions(entries);
      assert kept' == kept + (if HasHash(last) then [last] else []);
      assert idx' == idx + (if HasHash(last) then [|entries| - 1] else []);
      forall k | 0 <= k < |kept'|
        ensures kept'[k] == entries[idx'[k]]
      {
        if k < |kept| {
          assert kept'[k] == kept[k] == init[idx[k]];
          assert idx'[k] == idx[k] < |init|;
        }
      }
    }
  }

  /**
   * The transaction rows for `entries`: entries without a hash are skipped, the
   * others become rows in input order; raises at the first entry that is not an
   * object or whose row cannot be built.
   */
  function BuildTransactions(contract: Json, entries: seq<Json>): (r: Result<seq<TxRecord>>)
    ensures r.Ok? <==> EntriesBuild(contract, entries)
    ensures r.Ok? ==> |r.value| == |Hashed(entries)|
    ensures r.Ok? ==> forall k :: 0 <= k < |r.value| ==> TxRecordOf(contract, Hashed(entries)[k].fields) == Ok(r.value[k])
  {
    if entries == [] then Ok([])
    else
      var sofar := BuildTransactions(contract, entries[..|entries| - 1]);
      AddEntryRows(contract, entries, sofar);
      AddEntry(contract, sofar, entries[|entries| - 1])
  }

  /** One pass of the transaction loop: `entry` after the rows built so far. */
  function AddEntry(contract: Json, sofar: Result<seq<TxRecord>>, entry: Json): Result<seq<TxRecord>> {
    match sofar
    case Err => Err
    case Ok(records) =>
      if !entry.JObj? then Err
      else if !Truthy(Get(entry.fields, "hash")) then Ok(records)
      else
        match TxRecordOf(contract, entry.fields)
        case Err => Err
        case Ok(record) => Ok(records + [record])
  }

  /** Every entry is an object, and the row of every entry with a hash builds. */
  predicate EntriesBuild(contract: Json, entries: seq<Json>) {
    && (forall i :: 0 <= i < |entries| ==> entries[i].JObj?)
    && forall k :: 0 <= k < |Hashed(entries)| ==> TxRecordOf(contract, Hashed(entries)[k].fields).Ok?
  }

  /** What `BuildTransactions` promises about its result `r` for `entries`. */
  predicate RowsFor(contract: Json, entries: seq<Json>, r: Result<seq<TxRecord>>) {
    && (r.Ok? <==> EntriesBuild(contract, entries))
    && (r.Ok? ==> |r.value| == |Hashed(entries)|)
    && (r.Ok? ==> forall k :: 0 <= k < |r.value| ==> TxRecordOf(contract, Hashed(entries)[k].fields) == Ok(r.value[k]))
  }

  /** One more entry keeps `RowsFor`: the loop body preserves what the rows so far promise. */
  lemma AddEntryRows(contract: Json, entries: seq<Json>, sofar: Result<seq<TxRecord>>)
    requires entries != [] && RowsFor(contract, entries[..|entries| - 1], sofar)
    ensures RowsFor(contract, entries, AddEntry(contract, sofar, entries[|entries| - 1]))
  {
    var init, last := entries[..|entries| - 1], entries[|entries| - 1];
    HashedStep(entries);
    if sofar.Err? {
      EarlierFailure(contract, entries);
    } else if !last.JObj? {
      assert !entries[|entries| - 1].JObj?;
    } else if !HasHash(last) {
      SkippedEntry(contract, entries, sofar.value);
    } else if TxRecordOf(contract, last.fields).Err? {
      assert Hashed(entries)[|Hashed(init)|] == last;
    } else {
      AppendedRow(contract, entries, sofar.value, TxRecordOf(contract, last.fields).value);
    }
  }

  /** The kept entries of `entries` are those of its prefix, then its last entry if it has a hash. */
  lemma HashedStep(entries: seq<Json>)
    requires entries != []
    ensures var init, last := entries[..|entries| - 1], entries[|entries| - 1];
      && Hashed(entries) == Hashed(init) + (if HasHash(last) then [last] else [])
      && forall k :: 0 <= k < |Hashed(init)| ==> Hashed(entries)[k] == Hashed(init)[k]
  {
  }

  /** A prefix that does not build leaves the whole list not building. */
  lemma EarlierFailure(contract: Json, entries: seq<Json>)
    requires entries != [] && !EntriesBuild(contract, entries[..|entries| - 1])
    ensures !EntriesBuild(contract, entries)
  {
    var init := entries[..|entries| - 1];
    HashedStep(entries);
    if exists i :: 0 <= i < |init| && !init[i].JObj? {
      var i :| 0 <= i < |init| && !init[i].JObj?;
      assert !entries[i].JObj?;
    } else {
      var k :| 0 <= k < |Hashed(init)| && TxRecordOf(contract, Hashed(init)[k].fields).Err?;
      assert TxRecordOf(contract, Hashed(entries)[k].fields).Err?;
    }
  }

  /** An object without a hash adds no row and changes nothing about whether the rows build. */
  lemma SkippedEntry(contract: Json, entries: seq<Json>, records: seq<TxRecord>)
    requires entries != [] && entries[|entries| - 1].JObj? && !HasHash(entries[|entries| - 1])
    requires RowsFor(contract, entries[..|entries| - 1], Ok(records))
    ensures RowsFor(contract, entries, Ok(records))
  {
    var init := entries[..|entries| - 1];
    HashedStep(entries);
    assert Hashed(entries) == Hashed(init);
    assert forall i :: 0 <= i < |init| ==> init[i] == entries[i];
  }

  /** An object with a hash whose row builds adds that row at the end. */
  lemma AppendedRow(contract: Json, entries: seq<Json>, records: seq<TxRecord>, record: TxRecord)
    requires entries != [] && HasHash(entries[|entries| - 1])
    requires TxRecordOf(contract, entries[|entries| - 1].fields) == Ok(record)
    requires RowsFor(contract, entries[..|entries| - 1], Ok(records))
    ensures RowsFor(contract, entries, Ok(records + [record]))
  {
    var init, last := entries[..|entries| - 1], entries[|entries| - 1];
    HashedStep(entries);
    assert Hashed(entries) == Hashed(init) + [last];
    assert forall i :: 0 <= i < |init| ==> init[i] == entries[i];
    assert Hashed(entries)[|Hashed(init)|] == last;
  }

  /** No record before index `i` has the hash of `records[i]`. */
  predicate FirstWithHash(records: seq<TxRecord>, i: int)
    requires 0 <= i < |records|
  {
    forall j :: 0 <= j < i ==> records[j].hash != records[i].hash
  }

  /**
   * A bulk insert that ignores conflicts: every record's hash ends up stored, a
   * stored row is never replaced, and of several records with one new hash the
   * first is kept.
   */
  function InsertIgnoringConflicts(table: map<Json, TxRecord>, records: seq<TxRecord>): (r: map<Json, TxRecord>)
    decreases |records|
    ensures forall h :: h in table ==> h in r && r[h] == table[h]
    ensures forall i :: 0 <= i < |records| ==> records[i].hash in r
    ensures forall h :: h in r && h !in table ==> exists i :: 0 <= i < |records| && records[i].hash == h && r[h] == records[i]
    ensures forall i :: 0 <= i < |records| && records[i].hash !in table && FirstWithHash(records, i) ==>
              r[records[i].hash] == records[i]
  {
    if records == [] then table
    else
      var first := records[0];
      var next := if first.hash in table then table else table[first.hash := first];
      var r := InsertIgnoringConflicts(next, records[1..]);
      assert forall i :: 1 <= i < |records| ==> records[i] == records[1..][i - 1];
      assert forall i :: 1 <= i < |records| && FirstWithHash(records, i) ==> FirstWithHash(records[1..], i - 1);
      r
  }

  /** Every stage after the contract row succeeds: the ABI rows and the transaction rows all build. */
  predicate RowsBuild(data: map<string, Json>, address: Json) {
    Entries(data, "abi").Ok? && BuildAbiItems(address, Entries(data, "abi").value).Ok?
    && Entries(data, "transactions").Ok? && BuildTransactions(address, Entries(data, "transactions").value).Ok?
  }

  /** The ABI rows stored by a run: all of them when they build, none when one raises. */
  function StoredAbiItems(data: map<string, Json>, address: Json): seq<AbiItem> {
    if Entries(data, "abi").Ok? && BuildAbiItems(address, Entries(data, "abi").value).Ok?
    then BuildAbiItems(address, Entries(data, "abi").value).value
    else []
  }

  /** The tables once the contract row exists: its ABI rows and transactions follow. */
  function FillTables(data: map<string, Json>, contract: Contract): (r: LoadResult)
    ensures r.tables.contracts == map[contract.address := contract]
    ensures forall item :: item in r.tables.abiItems ==> item.contract == contract.address
    ensures forall h :: h in r.tables.transactions ==>
              r.tables.transactions[h].hash == h && r.tables.transactions[h].contract == contract.address
    ensures r.outcome.Loaded? <==> RowsBuild(data, contract.address)
    ensures r.tables.abiItems == StoredAbiItems(data, contract.address)
    ensures r.outcome.Loaded? ==>
              var abi, txs := Entries(data, "abi").value, Entries(data, "transactions").value;
              r.outcome == Loaded(|abi|, |Hashed(txs)|)
              && r.tables.transactions == InsertIgnoringConflicts(map[], BuildTransactions(contract.address, txs).value)
    ensures r.outcome.Failed? ==> r.tables.transactions == map[]
    ensures r.outcome.Loaded? ==> |r.tables.abiItems| == r.outcome.abiItemCount
                                  && |r.tables.transactions| <= r.outcome.transactionCount
  {
    var address := contract.address;
    var contracts := map[address := contract];
    match Entries(data, "abi")
    case Err => LoadResult(Failed, Tables(contracts, [], map[]))
    case Ok(abi) =>
      match BuildAbiItems(address, abi)
      case Err => LoadResult(Failed, Tables(contracts, [], map[]))
      case Ok(items) =>
        AbiItemsLinked(address, abi, items);
        match Entries(data, "transactions")
        case Err => LoadResult(Failed, Tables(contracts, items, map[]))
        case Ok(entries) =>
          match BuildTransactions(address, entries)
          case Err => LoadResult(Failed, Tables(contracts, items, map[]))
          case Ok(records) =>
            TxRecordsLinked(address, entries, records);
            var transactions := InsertIgnoringConflicts(map[], records);
            TableSize(transactions, records);
            LoadResult(Loaded(|items|, |records|), Tables(contracts, items, transactions))
  }

  /** Every ABI row built for a contract points at it. */
  lemma AbiItemsLinked(contract: Json, entries: seq<Json>, items: seq<AbiItem>)
    requires BuildAbiItems(contract, entries) == Ok(items)
    ensures forall item :: item in items ==> item.contract == contract
  {
  }

  /** Every transaction row built for a contract points at it. */
  lemma TxRecordsLinked(contract: Json, entries: seq<Json>, records: seq<TxRecord>)
    requires BuildTransactions(contract, entries) == Ok(records)
    ensures forall k :: 0 <= k < |records| ==> records[k].contract == contract
  {
    forall k | 0 <= k < |records|
      ensures records[k].contract == contract
    {
      assert TxRecordOf(contract, Hashed(entries)[k].fields) == Ok(records[k]);
    }
  }

  /** A table filled from `records` alone holds at most one row per record. */
  lemma TableSize(table: map<Json, TxRecord>, records: seq<TxRecord>)
    requires forall h :: h in table ==> exists i :: 0 <= i < |records| && records[i].hash == h
    ensures |table| <= |records|
  {
    var hashes := set i | 0 <= i < |records| :: records[i].hash;
    assert table.Keys <= hashes;
    SetOfImageSize(records);
    assert |table.Keys| <= |hashes| by {
      SubsetSize(table.Keys, hashes);
    }
  }

  lemma {:induction false} SetOfImageSize(records: seq<TxRecord>)
    ensures |set i | 0 <= i < |records| :: records[i].hash| <= |records|
  {
    if records != [] {
      var init := records[..|records| - 1];
      SetOfImageSize(init);
      var last := records[|records| - 1].hash;
      assert (set i | 0 <= i < |records| :: records[i].hash)
          == (set i | 0 <= i < |init| :: init[i].hash) + {last};
    }
  }

  lemma SubsetSize<T>(a: set<T>, b: set<T>)
    requires a <= b
    ensures |a| <= |b|
  {
    assert b == a + (b - a);
  }

  /**
   * What a run of the command leaves in the tables and how it ends, whatever the
   * tables held before. Each failure leaves what the stages before it stored.
   */
  function Load(data: Json): (r: LoadResult)
    ensures forall a :: a in r.tables.contracts ==> data.JObj? && "address" in data.fields && a == data.fields["address"]
    ensures forall a :: a in r.tables.contracts ==> r.tables.contracts[a].address == a
    ensures forall item :: item in r.tables.abiItems ==> item.contract in r.tables.contracts
    ensures forall h :: h in r.tables.transactions ==>
              r.tables.transactions[h].hash == h && r.tables.transactions[h].contract in r.tables.contracts
    ensures r.outcome.Loaded? ==> data.JObj? && ContractOf(data.fields).Ok?
                                  && r.tables.contracts.Keys == {data.fields["address"]}
    ensures r.outcome.Loaded? ==> |r.tables.abiItems| == r.outcome.abiItemCount
                                  && |r.tables.transactions| <= r.outcome.transactionCount
    ensures !data.JObj? || ContractOf(data.fields).Err? ==> r == LoadResult(Failed, EmptyTables)
    ensures r.outcome.Loaded? <==> data.JObj? && ContractOf(data.fields).Ok? && RowsBuild(data.fields, data.fields["address"])
    ensures data.JObj? && ContractOf(data.fields).Ok? ==>
              var address := data.fields["address"];
              r.tables.contracts == map[address := ContractOf(data.fields).value]
              && r.tables.abiItems == StoredAbiItems(data.fields, address)
    ensures r.outcome.Loaded? ==>
              var address, abi, txs := data.fields["address"], Entries(data.fields, "abi").value, Entries(data.fields, "transactions").value;
              r.outcome == Loaded(|abi|, |Hashed(txs)|)
              && r.tables.transactions == InsertIgnoringConflicts(map[], BuildTransactions(address, txs).value)
    ensures r.outcome.Failed? ==> r.tables.transactions == map[]
  {
    if !data.JObj? then LoadResult(Failed, EmptyTables)
    else
      match ContractOf(data.fields)
      case Err => LoadResult(Failed, EmptyTables)
      case Ok(contract) => FillTables(data.fields, contract)
  }

  /** The database: the three tables the command rewrites. */
  class Store {
    var contracts: map<Json, Contract>
    var abiItems: seq<AbiItem>
    var transactions: map<Json, TxRecord>

    function Contents(): Tables
      reads this
    {
      Tables(contracts, abiItems, transactions)
    }

    constructor ()
      ensures Contents() == EmptyTables
    {
      contracts, abiItems, transactions := map[], [], map[];
    }

    /** `Transaction.objects.all().delete()` */
    method DeleteTransactions()
      modifies this
      ensures Contents() == Tables(old(contracts), old(abiItems), map[])
    {
      transactions := map[];
    }

    /** `AbiItem.objects.all().delete()` */
    method DeleteAbiItems()
      modifies this
      ensures Contents() == Tables(old(contracts), [], old(transactions))
    {
      abiItems := [];
    }

    /** `Contract.objects.all().delete()` */
    method DeleteContracts()
      modifies this
      ensures Contents() == Tables(map[], old(abiItems), old(transactions))
    {
      contracts := map[];
    }

    /** `Contract.objects.update_or_create(address=..., defaults=...)` */
    method UpdateOrCreateContract(contract: Contract) returns (created: bool)
      modifies this
      ensures created <==> contract.address !in old(contracts)
      ensures Contents() == Tables(old(contracts)[contract.address := contract], old(abiItems), old(transactions))
    {
      created := contract.address !in contracts;
      contracts := contracts[contract.address := contract];
    }

    /** `AbiItem.objects.bulk_create(items)`: appended in order. */
    method BulkCreateAbiItems(items: seq<AbiItem>)
      modifies this
      ensures Contents() == Tables(old(contracts), old(abiItems) + items, old(transactions))
    {
      abiItems := abiItems + items;
    }

    /** `Transaction.objects.bulk_create(records, ignore_conflicts=True)`: one row at a time, skipping stored hashes. */
    method BulkCreateTransactions(records: seq<TxRecord>)
      modifies this
      ensures Contents() == Tables(old(contracts), old(abiItems), InsertIgnoringConflicts(old(transactions), records))
    {
      var i := 0;
      while i < |records|
        invariant 0 <= i <= |records|
        invariant contracts == old(contracts) && abiItems == old(abiItems)
        invariant InsertIgnoringConflicts(transactions, records[i..]) == InsertIgnoringConflicts(old(transactions), records)
      {
        assert records[i..][1..] == records[i + 1..];
        if records[i].hash !in transactions {
          transactions := transactions[records[i].hash := records[i]];
        }
        i := i + 1;
      }
    }
  }

  /** The loop that builds `abi_items_to_create`, stopping at the first entry that raises. */
  method CollectAbiItems(address: Json, abi: seq<Json>) returns (r: Result<seq<AbiItem>>)
    ensures r == BuildAbiItems(address, abi)
  {
    var items: seq<AbiItem> := [];
    var i := 0;
    while i < |abi|
      invariant 0 <= i <= |abi|
      invariant |items| == i
      invariant forall k :: 0 <= k < i ==> AbiItemOf(address, abi[k]) == Ok(items[k])
    {
      var item := AbiItemOf(address, abi[i]);
      if item.Err? {
        assert !abi[i].JObj?;
        return Err;
      }
      items := items + [item.value];
      i := i + 1;
    }
    ghost var expected := BuildAbiItems(address, abi);
    assert expected.Ok? by {
      assert forall k :: 0 <= k < |abi| ==> AbiItemOf(address, abi[k]).Ok?;
    }
    assert expected.value == items;
    return Ok(items);
  }

  /** `BuildTransactions` over one more entry: what the loop does with `entries[j]`. */
  lemma BuildTransactionsStep(contract: Json, entries: seq<Json>, j: nat)
    requires j < |entries|
    ensures var entry := entries[j];
            BuildTransactions(contract, entries[..j + 1]) ==
              match BuildTransactions(contract, entries[..j])
              case Err => Err
              case Ok(records) =>
                if !entry.JObj? then Err
                else if !Truthy(Get(entry.fields, "hash")) then Ok(records)
                else match TxRecordOf(contract, entry.fields)
                  case Err => Err
                  case Ok(record) => Ok(records + [record])
  {
    assert entries[..j + 1][..j] == entries[..j];
  }

  /** The loop that builds `transactions_to_create`: entries without a hash are skipped. */
  method CollectTransactions(address: Json, entries: seq<Json>) returns (r: Result<seq<TxRecord>>)
    ensures r == BuildTransactions(address, entries)
  {
    var records: seq<TxRecord> := [];
    var j := 0;
    while j < |entries|
      invariant 0 <= j <= |entries|
      invariant BuildTransactions(address, entries[..j]) == Ok(records)
    {
      var entry := entries[j];
      BuildTransactionsStep(address, entries, j);
      if !entry.JObj? {
        assert !entries[j].JObj?;
        return Err;
      }
      if Truthy(Get(entry.fields, "hash")) {
        var record := TxRecordOf(address, entry.fields);
        if record.Err? {
          assert HasHash(entries[j]);
          var k :| 0 <= k < |Hashed(entries)| && Hashed(entries)[k] == entry;
          assert TxRecordOf(address, Hashed(entries)[k].fields).Err?;
          return Err;
        }
        records := records + [record.value];
      }
      j := j + 1;
    }
    assert entries[..j] == entries;
    return Ok(records);
  }

  /**
   * `Command.handle` on an already parsed document: clear the tables, create the
   * contract, then the ABI items and the transactions. The tables end up as
   * `Load(data)` says, whatever they held before.
   */
  method Handle(store: Store, data: Json) returns (outcome: LoadOutcome)
    modifies store
    ensures outcome == Load(data).outcome
    ensures store.Contents() == Load(data).tables
  {
    store.DeleteTransactions();
    store.DeleteAbiItems();
    store.DeleteContracts();
    if !data.JObj? {
      return Failed;
    }
    var f := data.fields;
    var contract := ContractOf(f);
    if contract.Err? {
      return Failed;
    }
    var address := contract.value.address;
    var _ := store.UpdateOrCreateContract(contract.value);

    var abi := Entries(f, "abi");
    if abi.Err? {
      return Failed;
    }
    var items := CollectAbiItems(address, abi.value);
    if items.Err? {
      return Failed;
    }
    store.BulkCreateAbiItems(items.value);

    var entries := Entries(f, "transactions");
    if entries.Err? {
      return Failed;
    }
    var records := CollectTransactions(address, entries.value);
    if records.Err? {
      return Failed;
    }
    store.BulkCreateTransactions(records.value);
    outcome := Loaded(|items.value|, |records.value|);
  }
}
