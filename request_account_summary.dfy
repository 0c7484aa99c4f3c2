/** The account-summary script's `App`: it asks for every tag of every
    account and collects the `accountSummary` callbacks as rows. */
module AccountSummary {
  import opened Values
  import opened Gateway

  const AccountSummaryHeader: seq<string> := ["Account", "Tag", "Value", "Currency"]

  /** The arguments of one `accountSummary` callback. */
  datatype SummaryCallback = SummaryCallback(reqId: int, account: string, tag: string, value: string, currency: string)

  /** The argument a column of the summary table is named after. */
  function SummaryField(column: string, u: SummaryCallback): Option<Value> {
    match column
    case "Account" => Some(Str(u.account))
    case "Tag" => Some(Str(u.tag))
    case "Value" => Some(Str(u.value))
    case "Currency" => Some(Str(u.currency))
    case _ => None
  }

  /** The row `accountSummary` appends. */
  function SummaryRow(u: SummaryCallback): (r: Row)
    ensures |r| == |AccountSummaryHeader|
    ensures forall i :: 0 <= i < |r| ==> SummaryField(AccountSummaryHeader[i], u) == Some(r[i])
  {
    [Str(u.account), Str(u.tag), Str(u.value), Str(u.currency)]
  }

  /** The request id plays no part in the row: rows of every request are
      kept alike. */
  lemma SummaryRowIgnoresReqId(u: SummaryCallback, reqId: int)
    ensures SummaryRow(u.(reqId := reqId)) == SummaryRow(u)
  {
    var v := u.(reqId := reqId);
    forall i | 0 <= i < |SummaryRow(u)| ensures SummaryRow(v)[i] == SummaryRow(u)[i] {
      assert SummaryField(AccountSummaryHeader[i], v) == SummaryField(AccountSummaryHeader[i], u);
    }
  }

  class AccountSummaryApp {
    const session: Session
    var accountSummaryList: seq<Row>
    var accountSummaryDf: Table
    var reqAccountSummaryReady: bool

    ghost predicate Valid()
      reads this, session
    {
      session.Valid()
      && reqAccountSummaryReady == IsSet(session.trace, ReqAccountSummaryReady)
      && Table(AccountSummaryHeader, accountSummaryList).WellFormed()
      && accountSummaryDf.columns == AccountSummaryHeader && accountSummaryDf.WellFormed()
    }

    constructor ()
      ensures Valid() && fresh(session)
      ensures session.trace == [] && session.nextOrderId == None
      ensures accountSummaryList == [] && accountSummaryDf == Table(AccountSummaryHeader, [])
      ensures !reqAccountSummaryReady
    {
      session := new Session();
      accountSummaryList := [];
      accountSummaryDf := Table(AccountSummaryHeader, []);
      reqAccountSummaryReady := false;
    }

    /** `wait_for_reqAccountSummary`, up to its wait: asks for all tags of
        the group "All" under `orderId`; the flag is not cleared first. */
    method WaitForReqAccountSummary(orderId: int)
      requires Valid()
      modifies session
      ensures Valid()
      ensures session.trace == old(session.trace) + [Sent(ReqAccountSummary(orderId, "All", AllTags))]
      ensures session.nextOrderId == old(session.nextOrderId)
    {
      session.Record(Sent(ReqAccountSummary(orderId, "All", AllTags)));
    }

    /** The rest of `wait_for_reqAccountSummary`, once the flag is set: the
        table of exactly the collected rows, in arrival order. */
    method CollectAccountSummary() returns (df: Table)
      requires Valid() && reqAccountSummaryReady
      modifies this
      ensures Valid() && reqAccountSummaryReady
      ensures df == accountSummaryDf
      ensures df.columns == AccountSummaryHeader && df.rows == accountSummaryList && df.WellFormed()
      ensures accountSummaryList == old(accountSummaryList)
    {
      accountSummaryDf := Table(AccountSummaryHeader, accountSummaryList);
      df := accountSummaryDf;
    }

    /** `accountSummary`: appends the row, whatever the request id. */
    method AccountSummary(reqId: int, account: string, tag: string, value: string, currency: string)
      requires Valid()
      modifies this
      ensures Valid()
      ensures accountSummaryList == old(accountSummaryList) + [SummaryRow(SummaryCallback(reqId, account, tag, value, currency))]
      ensures accountSummaryDf == old(accountSummaryDf) && reqAccountSummaryReady == old(reqAccountSummaryReady)
    {
      accountSummaryList := accountSummaryList + [SummaryRow(SummaryCallback(reqId, account, tag, value, currency))];
    }

    /** `accountSummaryEnd`: raises the flag, which nothing clears again. */
    method AccountSummaryEnd(reqId: int)
      requires Valid()
      modifies this, session
      ensures Valid() && reqAccountSummaryReady
      ensures session.trace == old(session.trace) + [Raised(ReqAccountSummaryReady)]
      ensures session.nextOrderId == old(session.nextOrderId)
      ensures accountSummaryList == old(accountSummaryList) && accountSummaryDf == old(accountSummaryDf)
    {
      session.Record(Raised(ReqAccountSummaryReady));
      reqAccountSummaryReady := true;
    }
  }

  /** The steps this `App` can add to the trace: its own sends and raises
      and the latch's steps. */
  predicate SummaryAppStep(s: Step) {
    s.Sent? || s == Raised(ReqAccountSummaryReady) || LatchFlag(s.flag)
  }

  /** None of those steps clears the summary flag, so once set it stays
      set for the rest of the run. */
  lemma {:induction false} SummaryFlagStaysSet(t: seq<Step>, u: seq<Step>)
    requires IsSet(t, ReqAccountSummaryReady)
    requires forall j :: 0 <= j < |u| ==> SummaryAppStep(u[j])
    ensures IsSet(t + u, ReqAccountSummaryReady)
    decreases |u|
  {
    if u == [] {
      assert t + u == t;
    } else {
      var u' := u[..|u| - 1];
      assert forall j :: 0 <= j < |u'| ==> u'[j] == u[j];
      SummaryFlagStaysSet(t, u');
      assert t + u == (t + u') + [u[|u| - 1]];
      IsSetAfter(t + u', u[|u| - 1], ReqAccountSummaryReady);
    }
  }
}
