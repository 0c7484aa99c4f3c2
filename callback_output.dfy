/** The `Callback` record of the executions script: one matched execution,
    its contract and its commission report, flattened into dictionaries
    whose keys are the display names of the attribute tables. */
module CallbackOutput {
  import opened Values
  import opened Records
  import opened Dicts

  datatype Callback = Callback(contract: Contract, execution: Execution, commissionReport: CommissionReport)

  /** `Callback(contract, execution, commissionReport)`: a missing part is
      replaced by the library's freshly constructed record. */
  function NewCallback(c: Option<Contract>, e: Option<Execution>, r: Option<CommissionReport>): (cb: Callback)
    ensures c.Some? ==> cb.contract == c.value
    ensures c.None? ==> cb.contract == DefaultContract
    ensures e.Some? ==> cb.execution == e.value
    ensures e.None? ==> cb.execution == DefaultExecution
    ensures r.Some? ==> cb.commissionReport == r.value
    ensures r.None? ==> cb.commissionReport == DefaultCommissionReport
  {
    Callback(
      match c case Some(x) => x case None => DefaultContract,
      match e case Some(x) => x case None => DefaultExecution,
      match r case Some(x) => x case None => DefaultCommissionReport)
  }

  /** The attributes the tables read, named as in the library. */
  datatype ContractAttr =
    | conId | symbol | secType | lastTradeDateOrContractMonth | strike | right
    | multiplier | exchange | primaryExchange | currency

  datatype ExecutionAttr =
    | execId | time | acctNumber | exchange | side | shares | price | permId
    | clientId | orderId | liquidation | cumQty | avgPrice | orderRef | evRule
    | evMultiplier | modelCode | lastLiquidity

  datatype CommissionAttr =
    | execId | commission | currency | realizedPNL | yield_ | yieldRedemptionDate

  /** An attribute table: pairs of a record attribute and its display key. */
  type Table<A> = seq<(A, string)>

  function DisplayKeys<A>(t: Table<A>): (ks: seq<string>)
    ensures |ks| == |t|
    ensures forall i :: 0 <= i < |t| ==> ks[i] == t[i].1
  {
    seq(|t|, i requires 0 <= i < |t| => t[i].1)
  }

  /** `contract_attributes` */
  const ContractAttributes: Table<ContractAttr> := [
    (conId, "ConId"), (symbol, "Symbol"), (secType, "SecType"),
    (lastTradeDateOrContractMonth, "LastTradeDateOrContractMonth"),
    (strike, "Strike"), (right, "Right"), (multiplier, "Multiplier"),
    (ContractAttr.exchange, "Exchange"), (primaryExchange, "PrimaryExchange"),
    (ContractAttr.currency, "Currency")]

  /** `execution_attributes` */
  const ExecutionAttributes: Table<ExecutionAttr> := [
    (ExecutionAttr.execId, "ExecId"), (time, "Time"), (acctNumber, "Account"),
    (ExecutionAttr.exchange, "Exchange"), (side, "Side"), (shares, "Shares"),
    (price, "Price"), (permId, "PermId"), (clientId, "ClientId"),
    (orderId, "OrderId"), (liquidation, "Liquidation"), (cumQty, "CumQty"),
    (avgPrice, "AvgPrice"), (orderRef, "OrderRef"), (evRule, "EvRule"),
    (evMultiplier, "EvMultiplier"), (modelCode, "ModelCode"),
    (lastLiquidity, "LastLiquidity")]

  /** `commissionReport_attributes` */
  const CommissionReportAttributes: Table<CommissionAttr> := [
    (CommissionAttr.execId, "ExecId"), (commission, "Commission"), (CommissionAttr.currency, "Currency"),
    (realizedPNL, "RealizedPNL"), (yield_, "Yield"),
    (yieldRedemptionDate, "YieldRedemptionDate")]

  /** The value of the contract attribute `a`. */
  function ContractGetattr(c: Contract, a: ContractAttr): Value {
    match a
    case conId => Int(c.conId)
    case symbol => Str(c.symbol)
    case secType => Str(c.secType)
    case lastTradeDateOrContractMonth => Str(c.lastTradeDateOrContractMonth)
    case strike => c.strike
    case right => Str(c.right)
    case multiplier => Str(c.multiplier)
    case exchange => Str(c.exchange)
    case primaryExchange => Str(c.primaryExchange)
    case currency => Str(c.currency)
  }

  /** The value of the execution attribute `a`. */
  function ExecutionGetattr(e: Execution, a: ExecutionAttr): Value {
    match a
    case execId => Str(e.execId)
    case time => Str(e.time)
    case acctNumber => Str(e.acctNumber)
    case exchange => Str(e.exchange)
    case side => Str(e.side)
    case shares => e.shares
    case price => e.price
    case permId => Int(e.permId)
    case clientId => Int(e.clientId)
    case orderId => Int(e.orderId)
    case liquidation => Int(e.liquidation)
    case cumQty => e.cumQty
    case avgPrice => e.avgPrice
    case orderRef => Str(e.orderRef)
    case evRule => Str(e.evRule)
    case evMultiplier => e.evMultiplier
    case modelCode => Str(e.modelCode)
    case lastLiquidity => Int(e.lastLiquidity)
  }

  /** The value of the commission-report attribute `a`. */
  function CommissionGetattr(r: CommissionReport, a: CommissionAttr): Value {
    match a
    case execId => Str(r.execId)
    case commission => r.commission
    case currency => Str(r.currency)
    case realizedPNL => r.realizedPNL
    case yield_ => r.yield_
    case yieldRedemptionDate => Int(r.yieldRedemptionDate)
  }

  /** The entries `(key, getattr(contract, attr))` of the comprehension
      over `contract_attributes`, in table order. */
  function ContractEntries(c: Contract): (d: Dict<Value>)
    ensures Keys(d) == DisplayKeys(ContractAttributes)
  {
    var t := ContractAttributes;
    seq(|t|, i requires 0 <= i < |t| => (t[i].1, ContractGetattr(c, t[i].0)))
  }

  function ExecutionEntries(e: Execution): (d: Dict<Value>)
    ensures Keys(d) == DisplayKeys(ExecutionAttributes)
  {
    var t := ExecutionAttributes;
    seq(|t|, i requires 0 <= i < |t| => (t[i].1, ExecutionGetattr(e, t[i].0)))
  }

  function CommissionEntries(r: CommissionReport): (d: Dict<Value>)
    ensures Keys(d) == DisplayKeys(CommissionReportAttributes)
  {
    var t := CommissionReportAttributes;
    seq(|t|, i requires 0 <= i < |t| => (t[i].1, CommissionGetattr(r, t[i].0)))
  }

  /** `output_contract`: the contract's attributes under their display keys,
      in table order. */
  function OutputContract(cb: Callback): Dict<Value> {
    Merge([], ContractEntries(cb.contract))
  }

  /** `output_execution`: the execution's attributes under their display
      keys, in table order. */
  function OutputExecution(cb: Callback): Dict<Value> {
    Merge([], ExecutionEntries(cb.execution))
  }

  /** `output_commission`: the report's attributes under their
      display keys, in table order. */
  function OutputCommission(cb: Callback): Dict<Value> {
    Merge([], CommissionEntries(cb.commissionReport))
  }

  /** `output`: execution, then contract, then commission report. */
  function Output(cb: Callback): Dict<Value> {
    Merge(Merge(OutputExecution(cb), OutputContract(cb)), OutputCommission(cb))
  }

  /** `output_execution_and_contract` */
  function OutputExecutionAndContract(cb: Callback): Dict<Value> {
    Merge(OutputExecution(cb), OutputContract(cb))
  }

  // ------------------------------------------------------------ properties

  /** A comprehension over distinct keys is its list of entries, and maps
      each key to its entry's value. */
  lemma ComprehensionGet(e: Dict<Value>, i: nat)
    requires Distinct(Keys(e)) && i < |e|
    ensures Merge([], e) == e
    ensures Get(Merge([], e), e[i].0) == Some(e[i].1)
  {
    assert [] + e == e;
    MergeFresh([], e);
    GetAt(e, i);
  }

  lemma TablesDistinct()
    ensures Distinct(DisplayKeys(ContractAttributes))
    ensures Distinct(DisplayKeys(ExecutionAttributes))
    ensures Distinct(DisplayKeys(CommissionReportAttributes))
  {
    TableKeys();
    ContractKeysDistinct();
    ExecutionKeysDistinct();
    CommissionKeysDistinct();
  }

  lemma ContractKeysDistinct() ensures Distinct(ContractKeys) {}
  lemma ExecutionKeysDistinct() ensures Distinct(ExecutionKeys) {}
  lemma CommissionKeysDistinct() ensures Distinct(CommissionKeys) {}

  lemma OutputKeysOfTables(cb: Callback)
    ensures Keys(OutputContract(cb)) == DisplayKeys(ContractAttributes)
    ensures Keys(OutputExecution(cb)) == DisplayKeys(ExecutionAttributes)
    ensures Keys(OutputCommission(cb)) == DisplayKeys(CommissionReportAttributes)
    ensures Distinct(Keys(OutputContract(cb))) && Distinct(Keys(OutputExecution(cb)))
    ensures Distinct(Keys(OutputCommission(cb)))
  {
    TablesDistinct();
    ComprehensionGet(ContractEntries(cb.contract), 0);
    ComprehensionGet(ExecutionEntries(cb.execution), 0);
    ComprehensionGet(CommissionEntries(cb.commissionReport), 0);
  }

  /** `output` takes each key from the last of execution, contract and
      commission report that has it. */
  lemma OutputGet(cb: Callback, k: string)
    ensures Get(Output(cb), k) ==
      if k in DisplayKeys(CommissionReportAttributes) then Get(OutputCommission(cb), k)
      else if k in DisplayKeys(ContractAttributes) then Get(OutputContract(cb), k)
      else Get(OutputExecution(cb), k)
  {
    OutputKeysOfTables(cb);
    MergeGet(Merge(OutputExecution(cb), OutputContract(cb)), OutputCommission(cb), k);
    MergeGet(OutputExecution(cb), OutputContract(cb), k);
  }

  /** The output's keys: the execution's keys first, in table order, and
      then the others; each key of the three tables once. */
  lemma OutputKeys(cb: Callback)
    ensures DisplayKeys(ExecutionAttributes) <= Keys(Output(cb))
    ensures Distinct(Keys(Output(cb)))
    ensures forall k :: k in Keys(Output(cb)) <==>
      k in DisplayKeys(ExecutionAttributes) || k in DisplayKeys(ContractAttributes)
      || k in DisplayKeys(CommissionReportAttributes)
  {
    OutputKeysOfTables(cb);
    MergeKeys(OutputExecution(cb), OutputContract(cb));
    MergeKeys(Merge(OutputExecution(cb), OutputContract(cb)), OutputCommission(cb));
  }

  /** The display keys of the three tables. */
  const ContractKeys: seq<string> := ["ConId", "Symbol", "SecType", "LastTradeDateOrContractMonth",
    "Strike", "Right", "Multiplier", "Exchange", "PrimaryExchange", "Currency"]
  const ExecutionKeys: seq<string> := ["ExecId", "Time", "Account", "Exchange", "Side", "Shares",
    "Price", "PermId", "ClientId", "OrderId", "Liquidation", "CumQty", "AvgPrice", "OrderRef",
    "EvRule", "EvMultiplier", "ModelCode", "LastLiquidity"]
  const CommissionKeys: seq<string> := ["ExecId", "Commission", "Currency", "RealizedPNL", "Yield",
    "YieldRedemptionDate"]

  lemma TableKeys()
    ensures DisplayKeys(ContractAttributes) == ContractKeys
    ensures DisplayKeys(ExecutionAttributes) == ExecutionKeys
    ensures DisplayKeys(CommissionReportAttributes) == CommissionKeys
  {
  }

  /** Looking up the `i`-th key of a table in its own output dictionary. */
  lemma ContractOutputAt(cb: Callback, i: nat)
    requires i < |ContractAttributes|
    ensures Get(OutputContract(cb), ContractKeys[i]) == Some(ContractGetattr(cb.contract, ContractAttributes[i].0))
  {
    TableKeys();
    OutputKeysOfTables(cb);
    ComprehensionGet(ContractEntries(cb.contract), i);
  }

  lemma ExecutionOutputAt(cb: Callback, i: nat)
    requires i < |ExecutionAttributes|
    ensures Get(OutputExecution(cb), ExecutionKeys[i]) == Some(ExecutionGetattr(cb.execution, ExecutionAttributes[i].0))
  {
    TableKeys();
    OutputKeysOfTables(cb);
    ComprehensionGet(ExecutionEntries(cb.execution), i);
  }

  lemma CommissionOutputAt(cb: Callback, i: nat)
    requires i < |CommissionReportAttributes|
    ensures Get(OutputCommission(cb), CommissionKeys[i]) == Some(CommissionGetattr(cb.commissionReport, CommissionReportAttributes[i].0))
  {
    TableKeys();
    OutputKeysOfTables(cb);
    ComprehensionGet(CommissionEntries(cb.commissionReport), i);
  }

  /** In `output`, `Exchange` is the contract's, not the execution's. */
  lemma OutputExchange(cb: Callback)
    ensures Get(Output(cb), "Exchange") == Some(Str(cb.contract.exchange))
  {
    TableKeys();
    OutputGet(cb, "Exchange");
    assert "Exchange" !in CommissionKeys && ContractKeys[7] == "Exchange";
    ContractOutputAt(cb, 7);
  }

  /** In `output`, `ExecId` is the commission report's, not the execution's. */
  lemma OutputExecId(cb: Callback)
    ensures Get(Output(cb), "ExecId") == Some(Str(cb.commissionReport.execId))
  {
    TableKeys();
    OutputGet(cb, "ExecId");
    assert CommissionKeys[0] == "ExecId";
    CommissionOutputAt(cb, 0);
  }

  /** In `output`, `Currency` is the commission report's, not the contract's. */
  lemma OutputCurrency(cb: Callback)
    ensures Get(Output(cb), "Currency") == Some(Str(cb.commissionReport.currency))
  {
    TableKeys();
    OutputGet(cb, "Currency");
    assert CommissionKeys[2] == "Currency";
    CommissionOutputAt(cb, 2);
  }

  /** A key only the execution has, such as `Account`, is the execution's. */
  lemma OutputAccount(cb: Callback)
    ensures Get(Output(cb), "Account") == Some(Str(cb.execution.acctNumber))
  {
    TableKeys();
    OutputGet(cb, "Account");
    assert "Account" !in CommissionKeys && "Account" !in ContractKeys && ExecutionKeys[2] == "Account";
    ExecutionOutputAt(cb, 2);
  }

  /** `output_execution_and_contract` takes each key from the contract if it
      has it, otherwise from the execution. */
  lemma OutputExecutionAndContractGet(cb: Callback, k: string)
    ensures Get(OutputExecutionAndContract(cb), k) ==
      if k in ContractKeys then Get(OutputContract(cb), k) else Get(OutputExecution(cb), k)
  {
    TableKeys();
    OutputKeysOfTables(cb);
    MergeGet(OutputExecution(cb), OutputContract(cb), k);
  }

  /** Without the commission report, `Exchange` is the contract's. */
  lemma ExecutionAndContractExchange(cb: Callback)
    ensures Get(OutputExecutionAndContract(cb), "Exchange") == Some(Str(cb.contract.exchange))
  {
    TableKeys();
    OutputExecutionAndContractGet(cb, "Exchange");
    assert ContractKeys[7] == "Exchange";
    ContractOutputAt(cb, 7);
  }

  /** Without the commission report, `ExecId` is the execution's. */
  lemma ExecutionAndContractExecId(cb: Callback)
    ensures Get(OutputExecutionAndContract(cb), "ExecId") == Some(Str(cb.execution.execId))
  {
    TableKeys();
    OutputExecutionAndContractGet(cb, "ExecId");
    assert "ExecId" !in ContractKeys && ExecutionKeys[0] == "ExecId";
    ExecutionOutputAt(cb, 0);
  }

  /** Without the commission report, `Currency` is the contract's. */
  lemma ExecutionAndContractCurrency(cb: Callback)
    ensures Get(OutputExecutionAndContract(cb), "Currency") == Some(Str(cb.contract.currency))
  {
    TableKeys();
    OutputExecutionAndContractGet(cb, "Currency");
    assert ContractKeys[9] == "Currency";
    ContractOutputAt(cb, 9);
  }
}
