/** The open-order script's `App`: it asks for all open orders and collects
    the `openOrder` and `orderStatus` callbacks as rows. */
module OpenOrders {
  import opened Values
  import opened Records
  import opened Gateway

  const OpenOrderHeader: seq<string> := [
    "PermId", "ClientId", "OrderId", "Status", "Account", "Symbol", "SecType", "LastTradeDateOrContractMonth",
    "Strike", "Right", "Multiplier", "Exchange", "PrimaryExchange", "Currency", "Action", "TotalQuantity",
    "OrderType", "LmtPrice", "Tif"]

  const OpenOrderStatusHeader: seq<string> := [
    "PermId", "ClientId", "OrderId", "Status", "Filled", "Remaining", "AvgFillPrice", "LastFillPrice"]

  /** The arguments of one `openOrder` callback. */
  datatype OpenOrderCallback = OpenOrderCallback(orderId: int, contract: Contract, order: OrderFields, orderState: OrderState)

  /** The arguments of one `orderStatus` callback. */
  datatype OrderStatusCallback = OrderStatusCallback(orderId: int, status: string, filled: Value, remaining: Value,
                                     avgFillPrice: Value, permId: int, parentId: int, lastFillPrice: Value,
                                     clientId: int, whyHeld: string, mktCapPrice: Value)

  /** The argument or attribute a column of the open-order table is named
      after: the order id is the callback's own, the status the order
      state's. */
  function OpenOrderField(column: string, u: OpenOrderCallback): Option<Value> {
    match column
    case "PermId" => Some(Int(u.order.permId))
    case "ClientId" => Some(Int(u.order.clientId))
    case "OrderId" => Some(Int(u.orderId))
    case "Status" => Some(Str(u.orderState.status))
    case "Account" => Some(Str(u.order.account))
    case "Symbol" => Some(Str(u.contract.symbol))
    case "SecType" => Some(Str(u.contract.secType))
    case "LastTradeDateOrContractMonth" => Some(Str(u.contract.lastTradeDateOrContractMonth))
    case "Strike" => Some(u.contract.strike)
    case "Right" => Some(Str(u.contract.right))
    case "Multiplier" => Some(Str(u.contract.multiplier))
    case "Exchange" => Some(Str(u.contract.exchange))
    case "PrimaryExchange" => Some(Str(u.contract.primaryExchange))
    case "Currency" => Some(Str(u.contract.currency))
    case "Action" => Some(Str(u.order.action))
    case "TotalQuantity" => Some(u.order.totalQuantity)
    case "OrderType" => Some(Str(u.order.orderType))
    case "LmtPrice" => Some(u.order.lmtPrice)
    case "Tif" => Some(Str(u.order.tif))
    case _ => None
  }

  /** The argument a column of the order-status table is named after. */
  function OrderStatusField(column: string, u: OrderStatusCallback): Option<Value> {
    match column
    case "PermId" => Some(Int(u.permId))
    case "ClientId" => Some(Int(u.clientId))
    case "OrderId" => Some(Int(u.orderId))
    case "Status" => Some(Str(u.status))
    case "Filled" => Some(u.filled)
    case "Remaining" => Some(u.remaining)
    case "AvgFillPrice" => Some(u.avgFillPrice)
    case "LastFillPrice" => Some(u.lastFillPrice)
    case _ => None
  }

  /** The row `openOrder` appends. */
  function OpenOrderRow(u: OpenOrderCallback): (r: Row)
    ensures |r| == |OpenOrderHeader|
    ensures forall i :: 0 <= i < |r| ==> OpenOrderField(OpenOrderHeader[i], u) == Some(r[i])
  {
    var (o, c) := (u.order, u.contract);
    [Int(o.permId), Int(o.clientId), Int(u.orderId), Str(u.orderState.status), Str(o.account),
     Str(c.symbol), Str(c.secType), Str(c.lastTradeDateOrContractMonth), c.strike, Str(c.right),
     Str(c.multiplier), Str(c.exchange), Str(c.primaryExchange), Str(c.currency), Str(o.action),
     o.totalQuantity, Str(o.orderType), o.lmtPrice, Str(o.tif)]
  }

  /** The row `orderStatus` appends; the parent id, the hold reason and the
      cap price are not kept. */
  function OrderStatusRow(u: OrderStatusCallback): (r: Row)
    ensures |r| == |OpenOrderStatusHeader|
    ensures forall i :: 0 <= i < |r| ==> OrderStatusField(OpenOrderStatusHeader[i], u) == Some(r[i])
  {
    [Int(u.permId), Int(u.clientId), Int(u.orderId), Str(u.status), u.filled, u.remaining,
     u.avgFillPrice, u.lastFillPrice]
  }

  /** The dropped arguments leave no trace: two callbacks that differ only
      in them give the same row. */
  lemma OrderStatusRowIgnoresDropped(u: OrderStatusCallback, parentId: int, whyHeld: string, mktCapPrice: Value)
    ensures OrderStatusRow(u.(parentId := parentId, whyHeld := whyHeld, mktCapPrice := mktCapPrice)) == OrderStatusRow(u)
  {
    var v := u.(parentId := parentId, whyHeld := whyHeld, mktCapPrice := mktCapPrice);
    forall i | 0 <= i < |OrderStatusRow(u)| ensures OrderStatusRow(v)[i] == OrderStatusRow(u)[i] {
      assert OrderStatusField(OpenOrderStatusHeader[i], v) == OrderStatusField(OpenOrderStatusHeader[i], u);
    }
  }

  class OpenOrdersApp {
    const session: Session
    var openOrderRecord: seq<Row>
    var orderStatusRecord: seq<Row>
    var reqAllOpenOrdersReady: bool

    ghost predicate Valid()
      reads this, session
    {
      session.Valid()
      && reqAllOpenOrdersReady == IsSet(session.trace, ReqAllOpenOrdersReady)
      && Table(OpenOrderHeader, openOrderRecord).WellFormed()
      && Table(OpenOrderStatusHeader, orderStatusRecord).WellFormed()
    }

    constructor ()
      ensures Valid() && fresh(session)
      ensures session.trace == [] && session.nextOrderId == None
      ensures openOrderRecord == [] && orderStatusRecord == [] && !reqAllOpenOrdersReady
    {
      session := new Session();
      openOrderRecord, orderStatusRecord := [], [];
      reqAllOpenOrdersReady := false;
    }

    /** `wait_for_reqAllOpenOrders`, up to its wait: sends the request; the
        flag is not cleared first. */
    method WaitForReqAllOpenOrders()
      requires Valid()
      modifies session
      ensures Valid()
      ensures session.trace == old(session.trace) + [Sent(ReqAllOpenOrders)]
      ensures session.nextOrderId == old(session.nextOrderId)
    {
      session.Record(Sent(ReqAllOpenOrders));
    }

    /** `openOrder`: appends the row. */
    method OpenOrder(orderId: int, contract: Contract, order: OrderFields, orderState: OrderState)
      requires Valid()
      modifies this
      ensures Valid()
      ensures openOrderRecord == old(openOrderRecord) + [OpenOrderRow(OpenOrderCallback(orderId, contract, order, orderState))]
      ensures orderStatusRecord == old(orderStatusRecord) && reqAllOpenOrdersReady == old(reqAllOpenOrdersReady)
    {
      openOrderRecord := openOrderRecord + [OpenOrderRow(OpenOrderCallback(orderId, contract, order, orderState))];
    }

    /** `orderStatus`: appends the row. */
    method OrderStatus(orderId: int, status: string, filled: Value, remaining: Value, avgFillPrice: Value,
                       permId: int, parentId: int, lastFillPrice: Value, clientId: int, whyHeld: string,
                       mktCapPrice: Value)
      requires Valid()
      modifies this
      ensures Valid()
      ensures orderStatusRecord == old(orderStatusRecord) + [OrderStatusRow(OrderStatusCallback(orderId, status, filled,
        remaining, avgFillPrice, permId, parentId, lastFillPrice, clientId, whyHeld, mktCapPrice))]
      ensures openOrderRecord == old(openOrderRecord) && reqAllOpenOrdersReady == old(reqAllOpenOrdersReady)
    {
      var u := OrderStatusCallback(orderId, status, filled, remaining, avgFillPrice, permId, parentId, lastFillPrice,
                           clientId, whyHeld, mktCapPrice);
      orderStatusRecord := orderStatusRecord + [OrderStatusRow(u)];
    }

    /** `openOrderEnd`: raises the flag (after a grace delay that is not
        modelled). */
    method OpenOrderEnd()
      requires Valid()
      modifies this, session
      ensures Valid() && reqAllOpenOrdersReady
      ensures session.trace == old(session.trace) + [Raised(ReqAllOpenOrdersReady)]
      ensures session.nextOrderId == old(session.nextOrderId)
      ensures openOrderRecord == old(openOrderRecord) && orderStatusRecord == old(orderStatusRecord)
    {
      session.Record(Raised(ReqAllOpenOrdersReady));
      reqAllOpenOrdersReady := true;
    }

    /** `get_openOrder`: the rows under the nineteen-column header. */
    method GetOpenOrder() returns (t: Table)
      requires Valid()
      ensures t.columns == OpenOrderHeader && t.rows == openOrderRecord && t.WellFormed()
    {
      t := Table(OpenOrderHeader, openOrderRecord);
    }

    /** `get_openOrderStatus`: the rows under the eight-column header. */
    method GetOpenOrderStatus() returns (t: Table)
      requires Valid()
      ensures t.columns == OpenOrderStatusHeader && t.rows == orderStatusRecord && t.WellFormed()
    {
      t := Table(OpenOrderStatusHeader, orderStatusRecord);
    }
  }
}
