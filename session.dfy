/** What every script's `App` class repeats: the ordered record of what it
    sends to the gateway and of its Event flags, and the next-valid-id latch.
    Threads and blocking are not modelled: an Event is a boolean, a callback
    is a method call, and the trace orders sends and flag changes. */
module Gateway {
  import opened Values
  import opened Records

  /** The tag list `AccountSummaryTags.AllTags`. */
  datatype SummaryTags = AllTags

  /** Outbound calls into the client library. */
  datatype Request =
    | ReqIds(numIds: int)
    | ReqExecutions(reqId: int)  // with the empty `ExecutionFilter()`
    | ReqAccountUpdates(subscribe: bool, accountName: string)
    | ReqAccountSummary(reqId: int, group: string, tags: SummaryTags)
    | ReqAllOpenOrders
    | PlaceOrder(orderId: int, contract: Contract, order: OrderFields)
    | ReqHistoricalData(reqId: int, contract: Contract, endDateTime: string, durationStr: string,
                        barSizeSetting: string, whatToShow: string, useRTH: int, formatDate: int,
                        keepUpToDate: bool, chartOptions: seq<TagValue>)

  /** The `threading.Event` objects of the scripts. */
  datatype Flag =
    | FirstNextValidIdReady
    | NextValidIdReady
    | ReqExecutionsReady
    | ManagedAccountsReady
    | ReqAccountUpdatesReady
    | ReqAllOpenOrdersReady
    | ReqAccountSummaryReady
    | HistoricalDataReady

  /** One observable action of an `App`, in the order it happens. */
  datatype Step = Sent(request: Request) | Raised(flag: Flag) | Cleared(flag: Flag)

  /** The two flags only the latch changes. */
  predicate LatchFlag(f: Flag) {
    f == FirstNextValidIdReady || f == NextValidIdReady
  }

  predicate Mentions(s: Step, f: Flag) {
    !s.Sent? && s.flag == f
  }

  /** Whether Event `f` is set after `trace`, every Event starting cleared. */
  function IsSet(trace: seq<Step>, f: Flag): bool
    decreases |trace|
  {
    if trace == [] then false
    else
      var last := trace[|trace| - 1];
      if last == Raised(f) then true
      else if last == Cleared(f) then false
      else IsSet(trace[..|trace| - 1], f)
  }

  /** The outbound requests of a trace, in order. */
  function Requests(trace: seq<Step>): (rs: seq<Request>)
    ensures |rs| <= |trace|
  {
    if trace == [] then []
    else Requests(trace[..|trace| - 1]) + (if trace[|trace| - 1].Sent? then [trace[|trace| - 1].request] else [])
  }

  lemma {:induction false} IsSetAfter(trace: seq<Step>, s: Step, f: Flag)
    ensures IsSet(trace + [s], f) == (if s == Raised(f) then true else if s == Cleared(f) then false else IsSet(trace, f))
  {
    assert (trace + [s])[..|trace|] == trace;
  }

  /** The flag's state is that of the last step mentioning it. */
  lemma {:induction false} IsSetLastMention(trace: seq<Step>, k: nat, f: Flag)
    requires k < |trace| && Mentions(trace[k], f)
    requires forall j :: k < j < |trace| ==> !Mentions(trace[j], f)
    ensures IsSet(trace, f) == trace[k].Raised?
    decreases |trace|
  {
    var last := trace[|trace| - 1];
    if k < |trace| - 1 {
      assert !Mentions(last, f);
      IsSetLastMention(trace[..|trace| - 1], k, f);
    }
  }

  /** A flag nothing ever raised is clear. */
  lemma {:induction false} NeverRaisedIsClear(trace: seq<Step>, f: Flag)
    requires forall j :: 0 <= j < |trace| ==> trace[j] != Raised(f)
    ensures !IsSet(trace, f)
    decreases |trace|
  {
    if trace != [] {
      NeverRaisedIsClear(trace[..|trace| - 1], f);
    }
  }

  /** Requests only grow, by the requests of the appended steps. */
  lemma {:induction false} RequestsAppend(t: seq<Step>, u: seq<Step>)
    ensures Requests(t + u) == Requests(t) + Requests(u)
    decreases |u|
  {
    if u == [] {
      assert t + u == t;
    } else {
      var u' := u[..|u| - 1];
      assert (t + u)[..|t + u| - 1] == t + u';
      RequestsAppend(t, u');
    }
  }

  /** The requests of two steps are those of the steps that are sends. */
  lemma RequestsOfSteps(u: seq<Step>)
    requires |u| == 2
    ensures Requests(u) == (if u[0].Sent? then [u[0].request] else []) + (if u[1].Sent? then [u[1].request] else [])
  {
    assert u[..1] == [u[0]];
    assert u[..1][..0] == [];
  }

  /** The connection's state that every `App` shares: the next-valid-id
      latch and the ordered trace of sends and flag changes. */
  class Session {
    var nextOrderId: Option<int>
    var firstIdReady: bool  // `first_nextValidId_ready`
    var nextIdReady: bool   // `nextValidId_ready`
    var trace: seq<Step>

    ghost predicate Valid()
      reads this
    {
      firstIdReady == IsSet(trace, FirstNextValidIdReady) && nextIdReady == IsSet(trace, NextValidIdReady)
    }

    constructor ()
      ensures Valid()
      ensures nextOrderId == None && !firstIdReady && !nextIdReady && trace == []
    {
      nextOrderId := None;
      firstIdReady, nextIdReady := false, false;
      trace := [];
    }

    /** `reqIds`: the request is sent first, then the flag is cleared. */
    method ReqIds(numIds: int)
      requires Valid()
      modifies this
      ensures Valid()
      ensures trace == old(trace) + [Sent(Request.ReqIds(numIds)), Cleared(NextValidIdReady)]
      ensures !nextIdReady && firstIdReady == old(firstIdReady) && nextOrderId == old(nextOrderId)
      ensures forall f :: !LatchFlag(f) ==> IsSet(trace, f) == IsSet(old(trace), f)
    {
      Record(Sent(Request.ReqIds(numIds)));
      IsSetAfter(trace, Cleared(NextValidIdReady), FirstNextValidIdReady);
      IsSetAfter(trace, Cleared(NextValidIdReady), NextValidIdReady);
      forall f | !LatchFlag(f) ensures IsSet(trace + [Cleared(NextValidIdReady)], f) == IsSet(trace, f) {
        IsSetAfter(trace, Cleared(NextValidIdReady), f);
      }
      trace := trace + [Cleared(NextValidIdReady)];
      nextIdReady := false;
    }

    /** `nextValidId`: the first id of a connection only confirms the
        connection; every later id is stored and raises the per-call flag. */
    method NextValidId(orderId: int)
      requires Valid()
      modifies this
      ensures Valid()
      ensures firstIdReady
      ensures !old(firstIdReady) ==>
        trace == old(trace) + [Raised(FirstNextValidIdReady)]
        && nextOrderId == old(nextOrderId) && nextIdReady == old(nextIdReady)
      ensures old(firstIdReady) ==>
        trace == old(trace) + [Raised(NextValidIdReady)]
        && nextOrderId == Some(orderId) && nextIdReady
      ensures forall f :: !LatchFlag(f) ==> IsSet(trace, f) == IsSet(old(trace), f)
    {
      var s := if !firstIdReady then Raised(FirstNextValidIdReady) else Raised(NextValidIdReady);
      IsSetAfter(trace, s, FirstNextValidIdReady);
      IsSetAfter(trace, s, NextValidIdReady);
      forall f | !LatchFlag(f) ensures IsSet(trace + [s], f) == IsSet(trace, f) {
        IsSetAfter(trace, s, f);
      }
      if !firstIdReady {
        trace := trace + [s];
        firstIdReady := true;
      } else {
        nextOrderId := Some(orderId);
        trace := trace + [s];
        nextIdReady := true;
      }
    }

    /** `start`: returns once the gateway's unsolicited first id, here
        `firstId`, has arrived; it is not stored. */
    method Start(firstId: int)
      requires Valid() && !firstIdReady
      modifies this
      ensures Valid() && firstIdReady
      ensures trace == old(trace) + [Raised(FirstNextValidIdReady)]
      ensures nextOrderId == old(nextOrderId) && nextIdReady == old(nextIdReady)
      ensures forall f :: !LatchFlag(f) ==> IsSet(trace, f) == IsSet(old(trace), f)
    {
      NextValidId(firstId);
    }

    /** `wait_for_nextValidId` on a started connection, the gateway replying
        with `reply`: asks for one id, takes the reply, returns it. */
    method WaitForNextValidId(reply: int) returns (id: int)
      requires Valid() && firstIdReady
      modifies this
      ensures Valid() && firstIdReady && nextIdReady
      ensures id == reply && nextOrderId == Some(reply)
      ensures trace == old(trace) + IdRoundTrip
      ensures forall f :: !LatchFlag(f) ==> IsSet(trace, f) == IsSet(old(trace), f)
    {
      ReqIds(-1);
      NextValidId(reply);
      id := nextOrderId.value;
    }

    /** Appends a step that does not touch the latch's own flags. */
    method Record(s: Step)
      requires Valid() && (s.Sent? || !LatchFlag(s.flag))
      modifies this
      ensures Valid()
      ensures trace == old(trace) + [s]
      ensures nextOrderId == old(nextOrderId) && firstIdReady == old(firstIdReady) && nextIdReady == old(nextIdReady)
      ensures forall f :: IsSet(trace, f) == if s == Raised(f) then true else if s == Cleared(f) then false else IsSet(old(trace), f)
    {
      forall f ensures IsSet(trace + [s], f) == if s == Raised(f) then true else if s == Cleared(f) then false else IsSet(trace, f) {
        IsSetAfter(trace, s, f);
      }
      trace := trace + [s];
    }
  }

  /** The steps of one `wait_for_nextValidId` answered by `reply`. */
  const IdRoundTrip: seq<Step> := [Sent(Request.ReqIds(-1)), Cleared(NextValidIdReady), Raised(NextValidIdReady)]

  /** After a round trip the per-call flag is set whatever it was before,
      and the id request precedes the clear, which precedes the raise. */
  lemma IdRoundTripSetsFlag(trace: seq<Step>)
    ensures IsSet(trace + IdRoundTrip, NextValidIdReady)
    ensures IsSet(trace + IdRoundTrip, FirstNextValidIdReady) == IsSet(trace, FirstNextValidIdReady)
    ensures Requests(trace + IdRoundTrip) == Requests(trace) + [ReqIds(-1)]
  {
    var t := trace + IdRoundTrip;
    assert t == ((trace + [Sent(ReqIds(-1))]) + [Cleared(NextValidIdReady)]) + [Raised(NextValidIdReady)];
    IsSetAfter(trace, Sent(ReqIds(-1)), FirstNextValidIdReady);
    IsSetAfter(trace + [Sent(ReqIds(-1))], Cleared(NextValidIdReady), FirstNextValidIdReady);
    IsSetAfter((trace + [Sent(ReqIds(-1))]) + [Cleared(NextValidIdReady)], Raised(NextValidIdReady), FirstNextValidIdReady);
    IsSetAfter((trace + [Sent(ReqIds(-1))]) + [Cleared(NextValidIdReady)], Raised(NextValidIdReady), NextValidIdReady);
    RequestsAppend(trace, IdRoundTrip);
  }
}
