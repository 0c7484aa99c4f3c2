/** The trading library's record types, reduced to the fields the scripts
    read or write. The library itself is not part of this model; the values
    of a freshly constructed record are taken to be empty text and zero. */
module Records {
  import opened Values

  datatype Contract = Contract(
    conId: int,
    symbol: string,
    secType: string,
    lastTradeDateOrContractMonth: string,
    strike: Value,
    right: string,
    multiplier: string,
    exchange: string,
    primaryExchange: string,
    currency: string)

  datatype Execution = Execution(
    execId: string,
    time: string,
    acctNumber: string,
    exchange: string,
    side: string,
    shares: Value,
    price: Value,
    permId: int,
    clientId: int,
    orderId: int,
    liquidation: int,
    cumQty: Value,
    avgPrice: Value,
    orderRef: string,
    evRule: string,
    evMultiplier: Value,
    modelCode: string,
    lastLiquidity: int)

  datatype CommissionReport = CommissionReport(
    execId: string,
    commission: Value,
    currency: string,
    realizedPNL: Value,
    yield_: Value,
    yieldRedemptionDate: int)

  datatype OrderState = OrderState(status: string)

  /** One algorithm parameter of an order. */
  datatype TagValue = TagValue(tag: string, value: Value)

  /** `Contract()` */
  const DefaultContract := Contract(0, "", "", "", Real("0.0"), "", "", "", "", "")

  /** The US stock contract the order and historical-data scripts build
      field by field: `Contract()` with the symbol, security type "STK",
      currency "USD", exchange "SMART" and primary exchange "ARCA". */
  function StockContract(symbol: string): Contract {
    DefaultContract.(symbol := symbol, secType := "STK", currency := "USD", exchange := "SMART", primaryExchange := "ARCA")
  }

  /** `Execution()` */
  const DefaultExecution := Execution("", "", "", "", "", Real("0"), Real("0.0"), 0, 0, 0, 0,
                                      Real("0"), Real("0.0"), "", "", Real("0.0"), "", 0)

  /** `CommissionReport()` */
  const DefaultCommissionReport := CommissionReport("", Real("0.0"), "", Real("0.0"), Real("0.0"), 0)

  /** The fields of an order at one moment, as the library copies them
      when an order is sent. */
  datatype OrderFields = OrderFields(
    orderId: int,
    clientId: int,
    permId: int,
    account: string,
    action: string,
    totalQuantity: Value,
    orderType: string,
    lmtPrice: Value,
    tif: string,
    algoStrategy: string,
    algoParams: Option<seq<TagValue>>)

  /** An order object; the scripts update its fields in place. */
  class Order {
    var orderId: int
    var clientId: int
    var permId: int
    var account: string
    var action: string
    var totalQuantity: Value
    var orderType: string
    var lmtPrice: Value
    var tif: string
    var algoStrategy: string
    var algoParams: Option<seq<TagValue>>

    /** `Order()`: no algorithm, no parameter list, quantities unset. */
    constructor ()
      ensures Fields() == OrderFields(0, 0, 0, "", "", Unset, "", Unset, "", "", None)
    {
      orderId, clientId, permId := 0, 0, 0;
      account, action, orderType, tif := "", "", "", "";
      totalQuantity, lmtPrice := Unset, Unset;
      algoStrategy, algoParams := "", None;
    }

    function Fields(): OrderFields
      reads this
    {
      OrderFields(orderId, clientId, permId, account, action, totalQuantity,
                  orderType, lmtPrice, tif, algoStrategy, algoParams)
    }
  }
}
