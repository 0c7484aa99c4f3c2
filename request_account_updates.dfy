/** The account-updates script's `App`: it reads the managed accounts,
    subscribes to each account's updates in turn and collects the account
    values and portfolio positions as rows. */
module AccountUpdates {
  import opened Values
  import opened Records
  import opened Gateway
  import opened Text

  const UpdateAccountValueHeader: seq<string> := ["Account", "Key", "Val", "Currency"]

  const UpdatePortfolioHeader: seq<string> := [
    "ConId", "Symbol", "SecType", "LastTradeDateOrContractMonth", "Strike", "Right", "Multiplier", "Exchange",
    "PrimaryExchange", "Currency", "Account", "Position", "MarketPrice", "MarketValue", "AverageCost",
    "UnrealizedPNL", "RealizedPNL"]

  /** The arguments of one `updateAccountValue` callback. */
  datatype AccountValue = AccountValue(key: string, val: string, currency: string, accountName: string)

  /** The arguments of one `updatePortfolio` callback. */
  datatype PortfolioUpdate = PortfolioUpdate(contract: Contract, position: Value, marketPrice: Value,
                                             marketValue: Value, averageCost: Value, unrealizedPNL: Value,
                                             realizedPNL: Value, accountName: string)

  /** The argument a column of the account-value table is named after. */
  function AccountValueField(column: string, u: AccountValue): Option<Value> {
    match column
    case "Account" => Some(Str(u.accountName))
    case "Key" => Some(Str(u.key))
    case "Val" => Some(Str(u.val))
    case "Currency" => Some(Str(u.currency))
    case _ => None
  }

  /** The argument or contract attribute a column of the portfolio table is
      named after. */
  function PortfolioField(column: string, u: PortfolioUpdate): Option<Value> {
    match column
    case "ConId" => Some(Int(u.contract.conId))
    case "Symbol" => Some(Str(u.contract.symbol))
    case "SecType" => Some(Str(u.contract.secType))
    case "LastTradeDateOrContractMonth" => Some(Str(u.contract.lastTradeDateOrContractMonth))
    case "Strike" => Some(u.contract.strike)
    case "Right" => Some(Str(u.contract.right))
    case "Multiplier" => Some(Str(u.contract.multiplier))
    case "Exchange" => Some(Str(u.contract.exchange))
    case "PrimaryExchange" => Some(Str(u.contract.primaryExchange))
    case "Currency" => Some(Str(u.contract.currency))
    case "Account" => Some(Str(u.accountName))
    case "Position" => Some(u.position)
    case "MarketPrice" => Some(u.marketPrice)
    case "MarketValue" => Some(u.marketValue)
    case "AverageCost" => Some(u.averageCost)
    case "UnrealizedPNL" => Some(u.unrealizedPNL)
    case "RealizedPNL" => Some(u.realizedPNL)
    case _ => None
  }

  /** The row `updateAccountValue` appends: the account name first, so that
      the cells follow the header rather than the argument order. */
  function AccountValueRow(u: AccountValue): (r: Row)
    ensures |r| == |UpdateAccountValueHeader|
    ensures forall i :: 0 <= i < |r| ==> AccountValueField(UpdateAccountValueHeader[i], u) == Some(r[i])
  {
    [Str(u.accountName), Str(u.key), Str(u.val), Str(u.currency)]
  }

  /** The row `updatePortfolio` appends: ten contract attributes, then the
      account name and the six position figures. */
  function PortfolioRow(u: PortfolioUpdate): (r: Row)
    ensures |r| == |UpdatePortfolioHeader|
    ensures forall i :: 0 <= i < |r| ==> PortfolioField(UpdatePortfolioHeader[i], u) == Some(r[i])
  {
    var c := u.contract;
    [Int(c.conId), Str(c.symbol), Str(c.secType), Str(c.lastTradeDateOrContractMonth), c.strike, Str(c.right),
     Str(c.multiplier), Str(c.exchange), Str(c.primaryExchange), Str(c.currency), Str(u.accountName),
     u.position, u.marketPrice, u.marketValue, u.averageCost, u.unrealizedPNL, u.realizedPNL]
  }

  class AccountUpdatesApp {
    const session: Session
    var accountsList: seq<string>
    var updateAccountValueList: seq<Row>
    var updatePortfolioList: seq<Row>
    var managedAccountsReady: bool
    var reqAccountUpdatesReady: bool

    ghost predicate Valid()
      reads this, session
    {
      session.Valid()
      && managedAccountsReady == IsSet(session.trace, ManagedAccountsReady)
      && reqAccountUpdatesReady == IsSet(session.trace, ReqAccountUpdatesReady)
      && Table(UpdateAccountValueHeader, updateAccountValueList).WellFormed()
      && Table(UpdatePortfolioHeader, updatePortfolioList).WellFormed()
      && forall i :: 0 <= i < |accountsList| ==> IsAccountName(accountsList[i])
    }

    constructor ()
      ensures Valid() && fresh(session)
      ensures session.trace == [] && session.nextOrderId == None
      ensures accountsList == [] && updateAccountValueList == [] && updatePortfolioList == []
      ensures !managedAccountsReady && !reqAccountUpdatesReady
    {
      session := new Session();
      accountsList := [];
      updateAccountValueList, updatePortfolioList := [], [];
      managedAccountsReady, reqAccountUpdatesReady := false, false;
    }

    /** `managedAccounts`: stores the parsed list, then raises the flag. */
    method ManagedAccounts(accounts: string)
      requires Valid()
      modifies this, session
      ensures Valid() && managedAccountsReady
      ensures accountsList == ParseAccountsList(accounts)
      ensures session.trace == old(session.trace) + [Raised(ManagedAccountsReady)]
      ensures session.nextOrderId == old(session.nextOrderId)
      ensures updateAccountValueList == old(updateAccountValueList) && updatePortfolioList == old(updatePortfolioList)
      ensures reqAccountUpdatesReady == old(reqAccountUpdatesReady)
    {
      accountsList := ParseAccountsList(accounts);
      session.Record(Raised(ManagedAccountsReady));
      managedAccountsReady := true;
    }

    /** `wait_for_managedAccounts`, once the flag is set: the stored list. */
    method WaitForManagedAccounts() returns (accounts: seq<string>)
      requires Valid() && managedAccountsReady
      ensures accounts == accountsList
      ensures forall i :: 0 <= i < |accounts| ==> IsAccountName(accounts[i])
    {
      accounts := accountsList;
    }

    /** `wait_for_reqAccountUpdates`, up to its wait: clears the flag, then
        subscribes to the account. */
    method WaitForReqAccountUpdates(accountName: string)
      requires Valid()
      modifies this, session
      ensures Valid() && !reqAccountUpdatesReady
      ensures session.trace == old(session.trace) + [Cleared(ReqAccountUpdatesReady), Sent(ReqAccountUpdates(true, accountName))]
      ensures session.nextOrderId == old(session.nextOrderId)
      ensures accountsList == old(accountsList) && managedAccountsReady == old(managedAccountsReady)
      ensures updateAccountValueList == old(updateAccountValueList) && updatePortfolioList == old(updatePortfolioList)
    {
      session.Record(Cleared(ReqAccountUpdatesReady));
      reqAccountUpdatesReady := false;
      session.Record(Sent(ReqAccountUpdates(true, accountName)));
    }

    /** `updateAccountValue`: appends the row. */
    method UpdateAccountValue(key: string, val: string, currency: string, accountName: string)
      requires Valid()
      modifies this
      ensures Valid()
      ensures updateAccountValueList == old(updateAccountValueList) + [AccountValueRow(AccountValue(key, val, currency, accountName))]
      ensures updatePortfolioList == old(updatePortfolioList) && accountsList == old(accountsList)
      ensures managedAccountsReady == old(managedAccountsReady) && reqAccountUpdatesReady == old(reqAccountUpdatesReady)
    {
      updateAccountValueList := updateAccountValueList + [AccountValueRow(AccountValue(key, val, currency, accountName))];
    }

    /** `updatePortfolio`: appends the row. */
    method UpdatePortfolio(contract: Contract, position: Value, marketPrice: Value, marketValue: Value,
                           averageCost: Value, unrealizedPNL: Value, realizedPNL: Value, accountName: string)
      requires Valid()
      modifies this
      ensures Valid()
      ensures updatePortfolioList == old(updatePortfolioList)
        + [PortfolioRow(PortfolioUpdate(contract, position, marketPrice, marketValue, averageCost, unrealizedPNL, realizedPNL, accountName))]
      ensures updateAccountValueList == old(updateAccountValueList) && accountsList == old(accountsList)
      ensures managedAccountsReady == old(managedAccountsReady) && reqAccountUpdatesReady == old(reqAccountUpdatesReady)
    {
      var u := PortfolioUpdate(contract, position, marketPrice, marketValue, averageCost, unrealizedPNL, realizedPNL, accountName);
      updatePortfolioList := updatePortfolioList + [PortfolioRow(u)];
    }

    /** `accountDownloadEnd`: unsubscribes from the same account, then
        raises the flag. */
    method AccountDownloadEnd(accountName: string)
      requires Valid()
      modifies this, session
      ensures Valid() && reqAccountUpdatesReady
      ensures session.trace == old(session.trace) + [Sent(ReqAccountUpdates(false, accountName)), Raised(ReqAccountUpdatesReady)]
      ensures session.nextOrderId == old(session.nextOrderId)
      ensures accountsList == old(accountsList) && managedAccountsReady == old(managedAccountsReady)
      ensures updateAccountValueList == old(updateAccountValueList) && updatePortfolioList == old(updatePortfolioList)
    {
      session.Record(Sent(ReqAccountUpdates(false, accountName)));
      session.Record(Raised(ReqAccountUpdatesReady));
      reqAccountUpdatesReady := true;
    }

    /** `get_updateAccountValue`: the rows under the four-column header. */
    method GetUpdateAccountValue() returns (t: Table)
      requires Valid()
      ensures t.columns == UpdateAccountValueHeader && t.rows == updateAccountValueList && t.WellFormed()
    {
      t := Table(UpdateAccountValueHeader, updateAccountValueList);
    }

    /** `get_updatePortfolio`: the rows under the seventeen-column header. */
    method GetUpdatePortfolio() returns (t: Table)
      requires Valid()
      ensures t.columns == UpdatePortfolioHeader && t.rows == updatePortfolioList && t.WellFormed()
    {
      t := Table(UpdatePortfolioHeader, updatePortfolioList);
    }
  }

  /** One account's subscription as the main loop drives it: between the
      subscribe and the download end the flag stays clear whatever else
      happens, and the download end sets it. */
  lemma SubscriptionFlag(t: seq<Step>, accountName: string, middle: seq<Step>)
    requires forall j :: 0 <= j < |middle| ==> !Mentions(middle[j], ReqAccountUpdatesReady)
    ensures var t1 := t + [Cleared(ReqAccountUpdatesReady), Sent(ReqAccountUpdates(true, accountName))] + middle;
      !IsSet(t1, ReqAccountUpdatesReady)
      && IsSet(t1 + [Sent(ReqAccountUpdates(false, accountName)), Raised(ReqAccountUpdatesReady)], ReqAccountUpdatesReady)
  {
    var t1 := t + [Cleared(ReqAccountUpdatesReady), Sent(ReqAccountUpdates(true, accountName))] + middle;
    var k := |t|;
    forall j | k < j < |t1| ensures !Mentions(t1[j], ReqAccountUpdatesReady) {
      if j > k + 1 { assert t1[j] == middle[j - k - 2]; }
    }
    IsSetLastMention(t1, k, ReqAccountUpdatesReady);
    var t2 := t1 + [Sent(ReqAccountUpdates(false, accountName)), Raised(ReqAccountUpdatesReady)];
    IsSetLastMention(t2, |t2| - 1, ReqAccountUpdatesReady);
  }

  /** ... and the requests of the round are the subscribe, whatever was sent
      in between, and the unsubscribe for the same account. */
  lemma SubscriptionRequests(t: seq<Step>, accountName: string, middle: seq<Step>)
    ensures Requests(t + [Cleared(ReqAccountUpdatesReady), Sent(ReqAccountUpdates(true, accountName))] + middle
                     + [Sent(ReqAccountUpdates(false, accountName)), Raised(ReqAccountUpdatesReady)])
         == Requests(t) + [ReqAccountUpdates(true, accountName)] + Requests(middle) + [ReqAccountUpdates(false, accountName)]
  {
    var head := [Cleared(ReqAccountUpdatesReady), Sent(ReqAccountUpdates(true, accountName))];
    var tail := [Sent(ReqAccountUpdates(false, accountName)), Raised(ReqAccountUpdatesReady)];
    RequestsAppend(t + head + middle, tail);
    RequestsAppend(t + head, middle);
    RequestsAppend(t, head);
    RequestsOfSteps(head);
    RequestsOfSteps(tail);
  }
}
