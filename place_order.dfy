/** The order-placing script: `get_orders` builds the example orders and
    the `App` places each of them under a fresh order id. */
module PlaceOrders {
  import opened Values
  import opened Records
  import opened Gateway
  import opened AlgoTrade

  /** The steps one pass of `place_orders` adds for its `(contract, order)`
      pairs: per pair an id round trip, then the order sent under that id,
      stamped with that id and the client id. */
  function Placement(contracts: seq<Contract>, orders: seq<OrderFields>, ids: seq<int>, clientId: int): (t: seq<Step>)
    requires |contracts| == |orders| == |ids|
    ensures |t| == 4 * |ids|
    decreases |ids|
  {
    if ids == [] then []
    else
      var n := |ids| - 1;
      Placement(contracts[..n], orders[..n], ids[..n], clientId)
        + IdRoundTrip + [Sent(PlaceOrder(ids[n], contracts[n], orders[n].(clientId := clientId, orderId := ids[n])))]
  }

  /** The outbound requests of a placement: for pair `i`, first the id
      request, then the order placed under the id that came back, the order
      carrying that same id and the client id. */
  lemma {:induction false} PlacementRequests(contracts: seq<Contract>, orders: seq<OrderFields>, ids: seq<int>, clientId: int)
    requires |contracts| == |orders| == |ids|
    ensures var rs := Requests(Placement(contracts, orders, ids, clientId));
      |rs| == 2 * |ids|
      && (forall i :: 0 <= i < |ids| ==> rs[2 * i] == ReqIds(-1))
      && (forall i :: 0 <= i < |ids| ==>
            rs[2 * i + 1] == PlaceOrder(ids[i], contracts[i], orders[i].(clientId := clientId, orderId := ids[i])))
    decreases |ids|
  {
    if ids != [] {
      var n := |ids| - 1;
      var (c', o', ids') := (contracts[..n], orders[..n], ids[..n]);
      PlacementRequests(c', o', ids', clientId);
      var p := Placement(c', o', ids', clientId);
      var last := [Sent(PlaceOrder(ids[n], contracts[n], orders[n].(clientId := clientId, orderId := ids[n])))];
      RequestsAppend(p + IdRoundTrip, last);
      IdRoundTripSetsFlag(p);
      assert Requests(last) == [last[0].request] by { assert last[..0] == []; }
      var rs := Requests(Placement(contracts, orders, ids, clientId));
      assert rs == Requests(p) + [ReqIds(-1)] + [last[0].request];
      forall i | 0 <= i < n
        ensures rs[2 * i] == ReqIds(-1)
        ensures rs[2 * i + 1] == PlaceOrder(ids[i], contracts[i], orders[i].(clientId := clientId, orderId := ids[i]))
      {
        assert rs[2 * i] == Requests(p)[2 * i] && rs[2 * i + 1] == Requests(p)[2 * i + 1];
        assert ids'[i] == ids[i] && c'[i] == contracts[i] && o'[i] == orders[i];
      }
    }
  }

  /** The order ids a placement uses are exactly the replies, in order: no
      pair is skipped, none placed twice. */
  lemma PlacementIds(contracts: seq<Contract>, orders: seq<OrderFields>, ids: seq<int>, clientId: int)
    requires |contracts| == |orders| == |ids|
    ensures var rs := Requests(Placement(contracts, orders, ids, clientId));
      |rs| == 2 * |ids|
      && forall i :: 0 <= i < |ids| ==>
           rs[2 * i + 1].PlaceOrder? && rs[2 * i + 1].orderId == ids[i]
           && rs[2 * i + 1].order.orderId == ids[i] && rs[2 * i + 1].order.clientId == clientId
  {
    PlacementRequests(contracts, orders, ids, clientId);
  }

  /** The fields of the orders of the pairs, at one moment. */
  function OrderFieldsOf(pairs: seq<(Contract, Order)>): (fs: seq<OrderFields>)
    reads set i | 0 <= i < |pairs| :: pairs[i].1
    ensures |fs| == |pairs|
    ensures forall i :: 0 <= i < |pairs| ==> fs[i] == pairs[i].1.Fields()
  {
    seq(|pairs|, i reads set i | 0 <= i < |pairs| :: pairs[i].1 requires 0 <= i < |pairs| => pairs[i].1.Fields())
  }

  function ContractsOf(pairs: seq<(Contract, Order)>): (cs: seq<Contract>)
    ensures |cs| == |pairs|
    ensures forall i :: 0 <= i < |pairs| ==> cs[i] == pairs[i].0
  {
    seq(|pairs|, i requires 0 <= i < |pairs| => pairs[i].0)
  }

  /** The steps of the first `i + 1` pairs are those of the first `i`
      followed by pair `i`'s. */
  lemma PlacementSnoc(contracts: seq<Contract>, orders: seq<OrderFields>, ids: seq<int>, clientId: int, i: nat)
    requires |contracts| == |orders| == |ids| && i < |ids|
    ensures Placement(contracts[..i + 1], orders[..i + 1], ids[..i + 1], clientId)
      == Placement(contracts[..i], orders[..i], ids[..i], clientId)
         + IdRoundTrip + [Sent(PlaceOrder(ids[i], contracts[i], orders[i].(clientId := clientId, orderId := ids[i])))]
  {
    assert contracts[..i + 1][..i] == contracts[..i];
    assert orders[..i + 1][..i] == orders[..i];
    assert ids[..i + 1][..i] == ids[..i];
  }

  /** The fields pair `k`'s order object holds once the first `i` pairs are
      placed, having held `f` before: those of `f`, stamped with the client
      id and the id of the last of those pairs that holds the same object,
      if any. */
  function Stamped(pairs: seq<(Contract, Order)>, ids: seq<int>, i: nat, k: nat, f: OrderFields, clientId: int): OrderFields
    requires i <= |pairs| == |ids| && k < |pairs|
    decreases i
  {
    if i == 0 then f
    else if pairs[i - 1].1 == pairs[k].1 then f.(clientId := clientId, orderId := ids[i - 1])
    else Stamped(pairs, ids, i - 1, k, f, clientId)
  }

  /** No later pair holds the same order object as pair `k`. */
  predicate LastOccurrence(pairs: seq<(Contract, Order)>, k: int)
    requires 0 <= k < |pairs|
  {
    forall j :: k < j < |pairs| ==> pairs[j].1 != pairs[k].1
  }

  /** Two order states that differ at most in the order id and client id. */
  predicate SameButIds(a: OrderFields, b: OrderFields) {
    a.(orderId := 0, clientId := 0) == b.(orderId := 0, clientId := 0)
  }

  /** Placing changes no field of an order but its two ids. */
  lemma {:induction false} StampedSameButIds(pairs: seq<(Contract, Order)>, ids: seq<int>, i: nat, k: nat, f: OrderFields, clientId: int)
    requires i <= |pairs| == |ids| && k < |pairs|
    ensures SameButIds(Stamped(pairs, ids, i, k, f, clientId), f)
    decreases i
  {
    if i > 0 && pairs[i - 1].1 != pairs[k].1 {
      StampedSameButIds(pairs, ids, i - 1, k, f, clientId);
    }
  }

  /** Stamping again overwrites the earlier stamps. */
  lemma {:induction false} Restamp(pairs: seq<(Contract, Order)>, ids: seq<int>, i: nat, k: nat, f: OrderFields, clientId: int, id: int)
    requires i <= |pairs| == |ids| && k < |pairs|
    ensures Stamped(pairs, ids, i, k, f, clientId).(clientId := clientId, orderId := id) == f.(clientId := clientId, orderId := id)
    decreases i
  {
    if i > 0 && pairs[i - 1].1 != pairs[k].1 {
      Restamp(pairs, ids, i - 1, k, f, clientId, id);
    }
  }

  /** Once all pairs are placed, an order object placed once, or the last
      time it is placed, carries the client id and the id of that placement;
      an order that was placed carries the client id in any case. */
  lemma {:induction false} StampedLast(pairs: seq<(Contract, Order)>, ids: seq<int>, i: nat, k: nat, f: OrderFields, clientId: int)
    requires k < i <= |pairs| == |ids|
    requires forall j :: k < j < i ==> pairs[j].1 != pairs[k].1
    ensures Stamped(pairs, ids, i, k, f, clientId) == f.(clientId := clientId, orderId := ids[k])
    decreases i
  {
    if i - 1 > k {
      StampedLast(pairs, ids, i - 1, k, f, clientId);
    }
  }

  /** The order of a pair that is the last holder of its object carries the
      id of that pair's placement. */
  lemma StampedLastOccurrence(pairs: seq<(Contract, Order)>, ids: seq<int>, k: nat, f: OrderFields, clientId: int)
    requires |pairs| == |ids| && k < |pairs| && LastOccurrence(pairs, k)
    ensures Stamped(pairs, ids, |pairs|, k, f, clientId) == f.(clientId := clientId, orderId := ids[k])
    ensures SameButIds(Stamped(pairs, ids, |pairs|, k, f, clientId), f)
  {
    StampedLast(pairs, ids, |pairs|, k, f, clientId);
  }

  class PlaceOrderApp {
    const session: Session
    const clientId: int  // the client id the connection was made with
    var orderContractPairList: seq<(Contract, Order)>

    ghost predicate Valid()
      reads this, session
    {
      session.Valid()
    }

    constructor (pairs: seq<(Contract, Order)>, clientId: int)
      ensures Valid() && fresh(session)
      ensures session.trace == [] && session.nextOrderId == None
      ensures orderContractPairList == pairs && this.clientId == clientId
    {
      session := new Session();
      this.clientId := clientId;
      orderContractPairList := pairs;
    }

    ghost function Orders(): set<Order>
      reads this
    {
      set i | 0 <= i < |orderContractPairList| :: orderContractPairList[i].1
    }

    /** `place_orders` on a started connection, the gateway answering the
        `i`-th id request with `replies[i]`. For each pair in turn it fetches
        an id, stamps the order with the client id and that id, and places
        it. An order object appearing more than once keeps the id of its
        last placement. */
    method PlaceOrders(replies: seq<int>)
      requires Valid() && session.firstIdReady
      requires |replies| == |orderContractPairList|
      modifies session, Orders()
      ensures Valid() && session.firstIdReady
      ensures session.trace == old(session.trace)
        + Placement(ContractsOf(orderContractPairList), old(OrderFieldsOf(orderContractPairList)), replies, clientId)
      ensures forall k :: 0 <= k < |orderContractPairList| ==>
        orderContractPairList[k].1.Fields()
        == Stamped(orderContractPairList, replies, |replies|, k, old(orderContractPairList[k].1.Fields()), clientId)
    {
      var pairs := orderContractPairList;
      var n := |pairs|;
      ghost var before := OrderFieldsOf(pairs);
      ghost var trace0 := session.trace;
      var i := 0;
      while i < n
        invariant 0 <= i <= n
        invariant Valid() && session.firstIdReady
        invariant session.trace == trace0 + Placement(ContractsOf(pairs)[..i], before[..i], replies[..i], clientId)
        invariant forall k :: 0 <= k < n ==> pairs[k].1.Fields() == Stamped(pairs, replies, i, k, before[k], clientId)
      {
        PlaceNext(pairs, before, trace0, replies, i);
        i := i + 1;
      }
      assert ContractsOf(pairs)[..n] == ContractsOf(pairs) && before[..n] == before && replies[..n] == replies;
    }

    /** The loop of `place_orders` from pair `i` to pair `i + 1`. */
    method PlaceNext(pairs: seq<(Contract, Order)>, ghost before: seq<OrderFields>, ghost trace0: seq<Step>,
                     replies: seq<int>, i: nat)
      requires Valid() && session.firstIdReady
      requires i < |pairs| == |before| == |replies|
      requires session.trace == trace0 + Placement(ContractsOf(pairs)[..i], before[..i], replies[..i], clientId)
      requires forall k :: 0 <= k < |pairs| ==> pairs[k].1.Fields() == Stamped(pairs, replies, i, k, before[k], clientId)
      modifies session, pairs[i].1
      ensures Valid() && session.firstIdReady
      ensures session.trace == trace0 + Placement(ContractsOf(pairs)[..i + 1], before[..i + 1], replies[..i + 1], clientId)
      ensures forall k :: 0 <= k < |pairs| ==> pairs[k].1.Fields() == Stamped(pairs, replies, i + 1, k, before[k], clientId)
    {
      Restamp(pairs, replies, i, i, before[i], clientId, replies[i]);
      label Before:
      PlaceOne(pairs[i].0, pairs[i].1, replies[i]);
      PlacementSnoc(ContractsOf(pairs), before, replies, clientId, i);
      forall k | 0 <= k < |pairs|
        ensures pairs[k].1.Fields() == Stamped(pairs, replies, i + 1, k, before[k], clientId)
      {
        if pairs[k].1 == pairs[i].1 {
          Restamp(pairs, replies, i, k, before[k], clientId, replies[i]);
        } else {
          assert pairs[k].1.Fields() == old@Before(pairs[k].1.Fields());
        }
      }
    }

    /** One pass of the loop of `place_orders`, the gateway answering with `reply`. */
    method PlaceOne(contract: Contract, order: Order, reply: int)
      requires Valid() && session.firstIdReady
      modifies session, order
      ensures Valid() && session.firstIdReady
      ensures order.Fields() == old(order.Fields()).(clientId := clientId, orderId := reply)
      ensures session.trace == old(session.trace) + IdRoundTrip + [Sent(PlaceOrder(reply, contract, order.Fields()))]
    {
      var nextOrderId := session.WaitForNextValidId(reply);
      order.clientId := clientId;
      order.orderId := nextOrderId;
      session.Record(Sent(PlaceOrder(nextOrderId, contract, order.Fields())));
    }
  }

  /** The algorithm `get_orders` fills its orders with: none. */
  const Algo: string := ""

  /** The order fields of one example order: a market order of the account
      with the limit price zero and no algorithm. */
  function ExampleOrder(action: string, totalQuantity: int): OrderFields {
    OrderFields(0, 0, 0, "YOUR ACCOUNT", action, Int(totalQuantity), "Market", Real("0.0"), "", "", None)
  }

  /** One example order as `get_orders` builds it. */
  method MakePair(symbol: string, action: string, totalQuantity: int) returns (pair: (Contract, Order))
    ensures fresh(pair.1)
    ensures pair.0 == StockContract(symbol) && pair.1.Fields() == ExampleOrder(action, totalQuantity)
  {
    var contract := DefaultContract;
    contract := contract.(symbol := symbol);
    contract := contract.(secType := "STK", currency := "USD", exchange := "SMART", primaryExchange := "ARCA");
    var order := new Order();
    order.account := "YOUR ACCOUNT";
    order.action := action;
    order.totalQuantity := Int(totalQuantity);
    order.orderType := "Market";
    order.lmtPrice := Real("0.0");
    ghost var filled := order.Fields();
    assert ValidAlgos[0] == Algo;
    var r := FillAlgoParams(order, Algo);
    EmptyAlgoUnchanged(filled);
    order := r.value;
    pair := (contract, order);
  }

  /** `get_orders`: AAPL and TSLA bought, GOOG sold, 10, 20 and 30 shares,
      each with its own fresh order object. */
  method GetOrders() returns (pairs: seq<(Contract, Order)>)
    ensures |pairs| == 3
    ensures pairs[0].0 == StockContract("AAPL") && pairs[0].1.Fields() == ExampleOrder("BUY", 10)
    ensures pairs[1].0 == StockContract("TSLA") && pairs[1].1.Fields() == ExampleOrder("BUY", 20)
    ensures pairs[2].0 == StockContract("GOOG") && pairs[2].1.Fields() == ExampleOrder("SELL", 30)
    ensures forall i :: 0 <= i < 3 ==> fresh(pairs[i].1)
    ensures pairs[0].1 != pairs[1].1 && pairs[1].1 != pairs[2].1 && pairs[0].1 != pairs[2].1
  {
    var p0 := MakePair("AAPL", "BUY", 10);
    var p1 := MakePair("TSLA", "BUY", 20);
    var p2 := MakePair("GOOG", "SELL", 30);
    pairs := [p0, p1, p2];
  }
}
