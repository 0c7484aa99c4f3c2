/** The historical-data script's `App`: it asks for the daily trade bars of
    one US stock and waits for the end of the transmission. The bars
    themselves are only printed. */
module HistoricalData {
  import opened Values
  import opened Records
  import opened Gateway

  /** The request id every historical-data request is sent under. */
  const HistoricalReqId: int := 1

  /** One bar of a `historicalData` callback; prices and volume are kept as
      the values they arrive as. */
  datatype Bar = Bar(date: string, open: Value, high: Value, low: Value, close: Value, volume: Value)

  /** The request `request_historical_data` sends: trade bars of regular
      trading hours, dates as strings, no live updates and no chart options;
      one year of daily bars unless the caller says otherwise. */
  function HistoricalRequest(symbol: string, endDate: string, duration: string := "1 Y", barSize: string := "1 day"): Request {
    ReqHistoricalData(HistoricalReqId, StockContract(symbol), endDate, duration, barSize, "TRADES", 1, 1, false, [])
  }

  /** What the request carries: the caller's symbol, end date, duration and
      bar size, on a stock contract of the SMART exchange with ARCA as
      primary exchange, and nothing else of the contract set. */
  lemma HistoricalRequestFields(symbol: string, endDate: string, duration: string, barSize: string)
    ensures var r := HistoricalRequest(symbol, endDate, duration, barSize);
      r.ReqHistoricalData? && r.reqId == 1
      && r.contract.symbol == symbol && r.contract.secType == "STK" && r.contract.currency == "USD"
      && r.contract.exchange == "SMART" && r.contract.primaryExchange == "ARCA"
      && r.contract.(symbol := "", secType := "", currency := "", exchange := "", primaryExchange := "") == DefaultContract
      && r.endDateTime == endDate && r.durationStr == duration && r.barSizeSetting == barSize
      && r.whatToShow == "TRADES" && r.useRTH == 1 && r.formatDate == 1 && !r.keepUpToDate && r.chartOptions == []
  {
  }

  /** Without a duration and a bar size the request asks for one year of
      daily bars. */
  lemma HistoricalRequestDefaults(symbol: string, endDate: string)
    ensures HistoricalRequest(symbol, endDate).durationStr == "1 Y"
    ensures HistoricalRequest(symbol, endDate).barSizeSetting == "1 day"
    ensures HistoricalRequest(symbol, endDate) == HistoricalRequest(symbol, endDate, "1 Y", "1 day")
  {
  }

  /** Requests for different symbols differ: the symbol reaches the gateway. */
  lemma HistoricalRequestInjective(s1: string, s2: string, endDate: string, duration: string, barSize: string)
    requires s1 != s2
    ensures HistoricalRequest(s1, endDate, duration, barSize) != HistoricalRequest(s2, endDate, duration, barSize)
  {
    assert HistoricalRequest(s1, endDate, duration, barSize).contract.symbol == s1;
  }

  class HistoricalDataApp {
    const session: Session
    var historicalDataReady: bool

    ghost predicate Valid()
      reads this, session
    {
      session.Valid() && historicalDataReady == IsSet(session.trace, HistoricalDataReady)
    }

    constructor ()
      ensures Valid() && fresh(session)
      ensures session.trace == [] && session.nextOrderId == None && !historicalDataReady
    {
      session := new Session();
      historicalDataReady := false;
    }

    /** `request_historical_data`, up to its wait: builds the stock contract
        field by field and sends the request; the flag is not cleared first. */
    method RequestHistoricalData(symbol: string, endDate: string, duration: string := "1 Y", barSize: string := "1 day")
      requires Valid()
      modifies session
      ensures Valid()
      ensures session.trace == old(session.trace) + [Sent(HistoricalRequest(symbol, endDate, duration, barSize))]
      ensures session.nextOrderId == old(session.nextOrderId)
    {
      var contract := DefaultContract;
      contract := contract.(symbol := symbol);
      contract := contract.(secType := "STK");
      contract := contract.(currency := "USD");
      contract := contract.(exchange := "SMART");
      contract := contract.(primaryExchange := "ARCA");
      session.Record(Sent(ReqHistoricalData(HistoricalReqId, contract, endDate, duration, barSize, "TRADES", 1, 1, false, [])));
    }

    /** `historicalData`: the bar is only printed; no state changes. */
    method HistoricalDataBar(reqId: int, bar: Bar)
      requires Valid()
      ensures Valid()
    {
    }

    /** `historicalDataEnd`: raises the flag the request waits on. */
    method HistoricalDataEnd(reqId: int, startDate: string, endDate: string)
      requires Valid()
      modifies this, session
      ensures Valid() && historicalDataReady
      ensures session.trace == old(session.trace) + [Raised(HistoricalDataReady)]
      ensures session.nextOrderId == old(session.nextOrderId)
    {
      session.Record(Raised(HistoricalDataReady));
      historicalDataReady := true;
    }
  }
}
