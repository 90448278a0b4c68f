/**
 * The vital-health check of an L3 chain: a fixed sequence of node queries whose
 * answers go into one report, two threshold checks that raise alerts, and an
 * overall status derived from the alerts.
 */
module Health {
  import opened Wrappers
  import Serialize

  /** Alert when the latest block is more than this many seconds old. */
  const BlockProductionThresholdSeconds: int := 300
  /** Alert when the sequencer holds less than this many ETH. */
  const CriticalBalanceEth: real := 1.0
  /** How many of the latest block's transactions the report lists. */
  const RecentTransactionLimit: nat := 15

  type Bytes = seq<Serialize.Byte>

  /** A report field that is either a value or one of the markers standing in for it. */
  datatype Field<+T> = Val(value: T) | NA | Unknown | Error

  /** The latest block as the node returns it; absent attributes are `None`. */
  datatype Block = Block(
    number: int,
    timestamp: int,
    hash: Option<Bytes>,
    miner: Option<string>,
    gasLimit: Option<int>,
    gasUsed: Option<int>,
    transactions: seq<Bytes>)

  /** A transaction as the node returns it; `valueEth` is its value already converted to ETH. */
  datatype Transaction = Transaction(
    hash: Bytes,
    sender: string,
    recipient: Option<string>,
    valueEth: real,
    gas: int)

  /**
   * The node behind the RPC endpoint, as the answers it gives: each call either
   * returns a value or raises. Balances and the gas price are already converted
   * to ETH and gwei.
   */
  datatype Node = Node(
    connected: bool,
    latestBlock: Result<Block>,
    clientVersion: Result<string>,
    isAddress: string -> bool,
    balanceEth: string -> Result<real>,
    chainId: Result<int>,
    gasPriceGwei: Result<real>,
    peerCount: Result<int>,
    transaction: Bytes -> Result<Transaction>)

  /** An alert, carrying the number it reports. */
  datatype Alert = StaleBlock(secondsSinceBlock: real) | CriticalBalance(balanceEth: real)

  datatype Status = OK | ALERT

  /** One entry of `recent_transactions`. */
  datatype TxSummary = TxSummary(hash: string, sender: string, recipient: Option<string>, valueEth: real, gas: int)

  datatype GasFeeMetrics = GasFeeMetrics(
    gasLimitPerBlock: Field<int>,
    gasSpentLatestBlock: Field<int>,
    sequencerBalance: Field<real>,
    sequencerBalanceCriticalPoint: real)

  /** The report of a successful check; `blockTimestamp` is in seconds since the epoch. */
  datatype Report = Report(
    rpcUrl: string,
    healthAlerts: seq<Alert>,
    latestBlockNumber: int,
    blockTimestamp: int,
    clientVersion: Field<string>,
    sequencerAddress: Field<string>,
    sequencerBalanceEth: Field<real>,
    chainId: int,
    gasLimit: Field<int>,
    gasUsed: Field<int>,
    blockHash: string,
    transactionCount: nat,
    networkGasPriceGwei: Field<real>,
    peerCount: Field<int>,
    recentTransactions: seq<TxSummary>,
    gasFeeMetrics: GasFeeMetrics,
    overallStatus: Status)

  /** The three ways the check ends: a report, a bare `{"error": ...}`, or an exception. */
  datatype Health = Snapshot(report: Report) | ErrorResult(message: string) | Raised

  function ConnectError(rpcUrl: string): string {
    "Failed to connect to RPC " + rpcUrl
  }

  const LatestBlockError: string := "Could not fetch the latest block."

  /** An attribute the block may lack: its value, or `N/A`. */
  function OrNA<T>(o: Option<T>): (f: Field<T>)
    ensures o.Some? ==> f == Val(o.value)
    ensures o.None? ==> f == NA
  {
    match o
    case Some(v) => Val(v)
    case None => NA
  }

  /** A query guarded by `try`: its answer, or `N/A` when it raises. */
  function ResultOrNA<T>(r: Result<T>): (f: Field<T>)
    ensures r.Ok? ==> f == Val(r.value)
    ensures r.Err? ==> f == NA
  {
    match r
    case Ok(v) => Val(v)
    case Err => NA
  }

  /** The block's hash in lowercase hex, empty when the block has none. */
  function BlockHashHex(block: Block): (s: string)
    ensures var bytes := if block.hash.Some? then block.hash.value else [];
            |s| == 2 * |bytes| && Serialize.IsLowerHex(s) && Serialize.Unhex(s) == Some(bytes)
  {
    var bytes := if block.hash.Some? then block.hash.value else [];
    Serialize.HexDigitsAt(bytes);
    Serialize.UnhexHex(bytes);
    Serialize.Hex(bytes)
  }

  function Min(a: int, b: int): int {
    if a <= b then a else b
  }

  /** The block-age check: an alert when the block is more than the threshold old. */
  function StaleBlockAlerts(now: real, timestamp: int): (alerts: seq<Alert>)
    ensures alerts != [] <==> now - timestamp as real > BlockProductionThresholdSeconds as real
    ensures forall a :: a in alerts ==> a == StaleBlock(now - timestamp as real)
    ensures |alerts| <= 1
  {
    var sinceBlock := now - timestamp as real;
    if sinceBlock > BlockProductionThresholdSeconds as real then [StaleBlock(sinceBlock)] else []
  }

  /** The sequencer fields of the report and the balance alert they raise. */
  datatype SequencerInfo = SequencerInfo(address: Field<string>, balanceEth: Field<real>, alerts: seq<Alert>)

  /** The miner field is present, non-empty and a well-formed address. */
  predicate UsableMiner(node: Node, block: Block)
    ensures block.miner.None? || block.miner.value == "" ==> !UsableMiner(node, block)
    ensures block.miner.Some? && block.miner.value != "" ==> (UsableMiner(node, block) <==> node.isAddress(block.miner.value))
  {
    block.miner.Some? && block.miner.value != "" && node.isAddress(block.miner.value)
  }

  /**
   * The sequencer is taken to be the latest block's miner. Without a usable
   * miner the fields are `Unknown`/`N/A`; when the balance query raises they are
   * `Error`/`N/A`; neither alerts.
   */
  function Sequencer(node: Node, block: Block): (s: SequencerInfo)
    ensures !UsableMiner(node, block) ==> s == SequencerInfo(Unknown, NA, [])
    ensures UsableMiner(node, block) && node.balanceEth(block.miner.value).Err? ==> s == SequencerInfo(Error, NA, [])
    ensures s.address.Val? <==> UsableMiner(node, block) && node.balanceEth(block.miner.value).Ok?
    ensures s.address.Val? ==> s.address.value == block.miner.value
                               && s.balanceEth == Val(node.balanceEth(block.miner.value).value)
    ensures s.alerts != [] <==> s.balanceEth.Val? && s.balanceEth.value < CriticalBalanceEth
    ensures s.alerts != [] ==> s.alerts == [CriticalBalance(s.balanceEth.value)]
  {
    if UsableMiner(node, block) then
      var address := block.miner.value;
      match node.balanceEth(address)
      case Ok(balance) =>
        SequencerInfo(Val(address), Val(balance),
                      if balance < CriticalBalanceEth then [CriticalBalance(balance)] else [])
      case Err => SequencerInfo(Error, NA, [])
    else
      SequencerInfo(Unknown, NA, [])
  }

  /** `s` backwards. */
  function Reverse<T>(s: seq<T>): (r: seq<T>)
    ensures |r| == |s|
    ensures forall i :: 0 <= i < |s| ==> r[i] == s[|s| - 1 - i]
  {
    if s == [] then [] else Reverse(s[1..]) + [s[0]]
  }

  /** `reversed(txs[-15:])`: the last (at most) 15 hashes, newest first. */
  function RecentHashes(txs: seq<Bytes>): (hs: seq<Bytes>)
    ensures |hs| == Min(RecentTransactionLimit, |txs|)
    ensures forall i :: 0 <= i < |hs| ==> hs[i] == txs[|txs| - 1 - i]
  {
    Reverse(txs[|txs| - Min(RecentTransactionLimit, |txs|)..])
  }

  /** One entry of `recent_transactions`: the hash in lowercase hex, then the sender, recipient, value and gas. */
  function Summarize(tx: Transaction): (s: TxSummary)
    ensures |s.hash| == 2 * |tx.hash|
    ensures s.sender == tx.sender && s.recipient == tx.recipient && s.valueEth == tx.valueEth && s.gas == tx.gas
  {
    TxSummary(Serialize.Hex(tx.hash), tx.sender, tx.recipient, tx.valueEth, tx.gas)
  }

  /** The summarised hash is lowercase hex that decodes back to the transaction's hash. */
  lemma SummaryHash(tx: Transaction)
    ensures Serialize.IsLowerHex(Summarize(tx).hash) && Serialize.Unhex(Summarize(tx).hash) == Some(tx.hash)
  {
    Serialize.HexDigitsAt(tx.hash);
    Serialize.UnhexHex(tx.hash);
  }

  /** Fetches every hash in order; one failure spoils the whole list. */
  function FetchAll(node: Node, hashes: seq<Bytes>): (r: Option<seq<TxSummary>>)
    ensures r.None? <==> exists i :: 0 <= i < |hashes| && node.transaction(hashes[i]).Err?
    ensures r.Some? ==> |r.value| == |hashes|
    ensures r.Some? ==> forall i :: 0 <= i < |hashes| ==>
              node.transaction(hashes[i]).Ok? && r.value[i] == Summarize(node.transaction(hashes[i]).value)
  {
    if hashes == [] then Some([])
    else
      match (node.transaction(hashes[0]), FetchAll(node, hashes[1..]))
      case (Ok(tx), Some(rest)) =>
        assert forall i :: 1 <= i < |hashes| ==> hashes[i] == hashes[1..][i - 1];
        Some([Summarize(tx)] + rest)
      case (Err, _) => None
      case (_, None) =>
        var i :| 0 <= i < |hashes[1..]| && node.transaction(hashes[1..][i]).Err?;
        assert node.transaction(hashes[i + 1]).Err?;
        None
  }

  /**
   * `recent_transactions`: the newest (at most) 15 transactions of the latest
   * block, newest first, or nothing at all when any one fetch raises.
   */
  function RecentTransactions(node: Node, block: Block): (txs: seq<TxSummary>)
    ensures var hs := RecentHashes(block.transactions);
            && ((exists i :: 0 <= i < |hs| && node.transaction(hs[i]).Err?) ==> txs == [])
            && ((forall i :: 0 <= i < |hs| ==> node.transaction(hs[i]).Ok?) ==> |txs| == |hs|)
            && forall i :: 0 <= i < |txs| ==>
                 node.transaction(hs[i]).Ok? && txs[i] == Summarize(node.transaction(hs[i]).value)
  {
    match FetchAll(node, RecentHashes(block.transactions))
    case Some(txs) => txs
    case None => []
  }

  /**
   * The alerts of one check, in the order they are detected: the stale-block
   * alert when the block is more than 300 s old, then the balance alert when
   * the sequencer's balance was fetched and is below 1.0 ETH.
   */
  function Alerts(node: Node, block: Block, now: real): (alerts: seq<Alert>)
    ensures |alerts| <= 2
    ensures forall i, j :: 0 <= i < j < |alerts| ==> alerts[i].StaleBlock? && alerts[j].CriticalBalance?
    ensures var sinceBlock := now - block.timestamp as real;
            (StaleBlock(sinceBlock) in alerts <==> sinceBlock > BlockProductionThresholdSeconds as real)
            && forall a :: a in alerts && a.StaleBlock? ==> a.secondsSinceBlock == sinceBlock
    ensures (exists b :: CriticalBalance(b) in alerts)
              <==> UsableMiner(node, block) && node.balanceEth(block.miner.value).Ok?
                   && node.balanceEth(block.miner.value).value < CriticalBalanceEth
    ensures forall a :: a in alerts && a.CriticalBalance? ==> Sequencer(node, block).balanceEth == Val(a.balanceEth)
  {
    StaleBlockAlerts(now, block.timestamp) + Sequencer(node, block).alerts
  }

  /**
   * The check as a function of the node's answers and the current time `now`
   * (seconds since the epoch).
   */
  function VitalHealth(rpcUrl: string, node: Node, now: real): (h: Health)
    ensures !node.connected ==> h == ErrorResult(ConnectError(rpcUrl))
    ensures node.connected && node.latestBlock.Err? ==> h == ErrorResult(LatestBlockError)
    ensures h.Raised? <==> node.connected && node.latestBlock.Ok? && node.chainId.Err?
    ensures h.Snapshot? <==> node.connected && node.latestBlock.Ok? && node.chainId.Ok?
    ensures h.Snapshot? ==> (h.report.overallStatus == ALERT <==> h.report.healthAlerts != [])
    ensures h.Snapshot? ==> |h.report.healthAlerts| <= 2
    ensures h.Snapshot? ==> forall i, j :: 0 <= i < j < |h.report.healthAlerts| ==>
              h.report.healthAlerts[i].StaleBlock? && h.report.healthAlerts[j].CriticalBalance?
    ensures h.Snapshot? ==> h.report == ReportOf(rpcUrl, node, node.latestBlock.value, node.chainId.value, now)
  {
    if !node.connected then ErrorResult(ConnectError(rpcUrl))
    else if node.latestBlock.Err? then ErrorResult(LatestBlockError)
    else
      var block := node.latestBlock.value;
      if node.chainId.Err? then Raised
      else Snapshot(ReportOf(rpcUrl, node, block, node.chainId.value, now))
  }

  /**
   * The report of a check whose connection, latest block and chain id queries
   * succeeded: the alerts, the sequencer fields and the copies of the block's
   * fields, as the check fills them in.
   */
  function ReportOf(rpcUrl: string, node: Node, block: Block, chainId: int, now: real): (report: Report)
    ensures report.overallStatus == ALERT <==> report.healthAlerts != []
    ensures report.healthAlerts == Alerts(node, block, now)
    ensures report.sequencerAddress == Sequencer(node, block).address
            && report.sequencerBalanceEth == Sequencer(node, block).balanceEth
    ensures report.rpcUrl == rpcUrl && report.chainId == chainId
    ensures report.latestBlockNumber == block.number && report.blockTimestamp == block.timestamp
    ensures report.transactionCount == |block.transactions|
    ensures node.clientVersion.Ok? ==> report.clientVersion == Val(node.clientVersion.value)
    ensures node.clientVersion.Err? ==> report.clientVersion == NA
    ensures node.gasPriceGwei.Ok? ==> report.networkGasPriceGwei == Val(node.gasPriceGwei.value)
    ensures node.gasPriceGwei.Err? ==> report.networkGasPriceGwei == NA
    ensures node.peerCount.Ok? ==> report.peerCount == Val(node.peerCount.value)
    ensures node.peerCount.Err? ==> report.peerCount == NA
    ensures block.gasLimit.Some? ==> report.gasLimit == Val(block.gasLimit.value)
    ensures block.gasLimit.None? ==> report.gasLimit == NA
    ensures block.gasUsed.Some? ==> report.gasUsed == Val(block.gasUsed.value)
    ensures block.gasUsed.None? ==> report.gasUsed == NA
    ensures report.gasFeeMetrics == GasFeeMetrics(report.gasLimit, report.gasUsed, report.sequencerBalanceEth, 1.0)
    ensures report.recentTransactions == RecentTransactions(node, block)
    ensures report.blockHash == Serialize.Hex(if block.hash.Some? then block.hash.value else [])
  {
    var sequencer := Sequencer(node, block);
    var alerts := Alerts(node, block, now);
    Report(
      rpcUrl := rpcUrl,
      healthAlerts := alerts,
      latestBlockNumber := block.number,
      blockTimestamp := block.timestamp,
      clientVersion := ResultOrNA(node.clientVersion),
      sequencerAddress := sequencer.address,
      sequencerBalanceEth := sequencer.balanceEth,
      chainId := chainId,
      gasLimit := OrNA(block.gasLimit),
      gasUsed := OrNA(block.gasUsed),
      blockHash := BlockHashHex(block),
      transactionCount := |block.transactions|,
      networkGasPriceGwei := ResultOrNA(node.gasPriceGwei),
      peerCount := ResultOrNA(node.peerCount),
      recentTransactions := RecentTransactions(node, block),
      gasFeeMetrics := GasFeeMetrics(OrNA(block.gasLimit), OrNA(block.gasUsed), sequencer.balanceEth, CriticalBalanceEth),
      overallStatus := if alerts == [] then OK else ALERT)
  }

  /**
   * `get_l3_vital_health` step by step, in the order that Python function runs: the report is
   * built field by field, alerts are appended as they are detected, and the
   * recent transactions are collected in a loop that gives up on the first failure.
   */
  method GetL3VitalHealth(rpcUrl: string, node: Node, now: real) returns (h: Health)
    ensures h == VitalHealth(rpcUrl, node, now)
  {
    if !node.connected {
      return ErrorResult(ConnectError(rpcUrl));
    }
    var alerts: seq<Alert> := [];

    if node.latestBlock.Err? {
      return ErrorResult(LatestBlockError);
    }
    var block := node.latestBlock.value;
    var sinceBlock := now - block.timestamp as real;
    if sinceBlock > BlockProductionThresholdSeconds as real {
      alerts := alerts + [StaleBlock(sinceBlock)];
    }

    var clientVersion: Field<string> := ResultOrNA(node.clientVersion);

    var sequencerAddress, sequencerBalance, balanceAlerts := CheckSequencer(node, block);
    alerts := alerts + balanceAlerts;
    assert alerts == Alerts(node, block, now);

    if node.chainId.Err? {
      return Raised;
    }
    var chainId := node.chainId.value;
    var gasLimit: Field<int> := OrNA(block.gasLimit);
    var gasUsed: Field<int> := OrNA(block.gasUsed);
    var blockHash := BlockHashHex(block);
    var transactionCount := |block.transactions|;
    var gasPrice: Field<real> := ResultOrNA(node.gasPriceGwei);
    var peerCount: Field<int> := ResultOrNA(node.peerCount);

    var recent := CollectRecentTransactions(node, block);

    var gasFeeMetrics := GasFeeMetrics(gasLimit, gasUsed, sequencerBalance, CriticalBalanceEth);
    var status := if alerts == [] then OK else ALERT;
    var report := Report(
      rpcUrl := rpcUrl,
      healthAlerts := alerts,
      latestBlockNumber := block.number,
      blockTimestamp := block.timestamp,
      clientVersion := clientVersion,
      sequencerAddress := sequencerAddress,
      sequencerBalanceEth := sequencerBalance,
      chainId := chainId,
      gasLimit := gasLimit,
      gasUsed := gasUsed,
      blockHash := blockHash,
      transactionCount := transactionCount,
      networkGasPriceGwei := gasPrice,
      peerCount := peerCount,
      recentTransactions := recent,
      gasFeeMetrics := gasFeeMetrics,
      overallStatus := status);
    h := Snapshot(report);
  }

  /**
   * The sequencer section of the check: the miner of the latest block, its
   * balance, and the alert when that balance is critical.
   */
  method CheckSequencer(node: Node, block: Block)
    returns (address: Field<string>, balance: Field<real>, alerts: seq<Alert>)
    ensures SequencerInfo(address, balance, alerts) == Sequencer(node, block)
  {
    alerts := [];
    if block.miner.Some? && block.miner.value != "" && node.isAddress(block.miner.value) {
      var miner := block.miner.value;
      var fetched := node.balanceEth(miner);
      if fetched.Ok? {
        address, balance := Val(miner), Val(fetched.value);
        if fetched.value < CriticalBalanceEth {
          alerts := alerts + [CriticalBalance(fetched.value)];
        }
      } else {
        address, balance := Error, NA;
      }
    } else {
      address, balance := Unknown, NA;
    }
  }

  /**
   * The loop behind `recent_transactions`: fetches the newest 15 hashes from the
   * newest down and drops everything collected once a fetch raises.
   */
  method CollectRecentTransactions(node: Node, block: Block) returns (recent: seq<TxSummary>)
    ensures recent == RecentTransactions(node, block)
  {
    var hashes := RecentHashes(block.transactions);
    var transactions: seq<TxSummary> := [];
    var failed := false;
    for i := 0 to |hashes|
      invariant !failed
      invariant |transactions| == i
      invariant forall k :: 0 <= k < i ==>
                  node.transaction(hashes[k]).Ok? && transactions[k] == Summarize(node.transaction(hashes[k]).value)
    {
      var fetched := node.transaction(hashes[i]);
      if fetched.Err? {
        failed := true;
        break;
      }
      transactions := transactions + [Summarize(fetched.value)];
    }
    if failed {
      recent := [];
    } else {
      recent := transactions;
    }
  }
}
