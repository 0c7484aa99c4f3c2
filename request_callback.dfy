/** The executions script's `App`: it asks for the executions, collects the
    `execDetails` and `commissionReport` callbacks, joins them on `execId`
    and turns each joined record into a `Callback`. */
module RequestCallback {
  import opened Values
  import opened Records
  import opened Gateway
  import opened Text
  import opened CallbackOutput

  /** One `execDetails` callback: the contract (which the library could in
      principle hand over as `None`) and the execution. */
  datatype ExecEntry = ExecEntry(contract: Option<Contract>, execution: Execution)

  /** One tuple `(execId, contract, execution, commissionReport)` of the
      matcher's result. */
  datatype Matched = Matched(execId: string, contract: Option<Contract>, execution: Execution,
                             commissionReport: CommissionReport)

  /** `ValueError` of `calculate_callbacks`: the execId and the names of the
      missing parts. */
  datatype CallbackError = ValueError(execId: string, missingData: seq<string>)

  // ------------------------------------------------------- the dictionaries

  /** `execution_dict` after the loop over `execution_list`: each assignment
      overwrites the previous one for the same execId. */
  function ExecutionMap(l: seq<ExecEntry>): map<string, ExecEntry>
    decreases |l|
  {
    if l == [] then map[] else ExecutionMap(l[..|l| - 1])[l[|l| - 1].execution.execId := l[|l| - 1]]
  }

  /** `commission_dict` after the loop over `commission_list`. */
  function CommissionMap(l: seq<CommissionReport>): map<string, CommissionReport>
    decreases |l|
  {
    if l == [] then map[] else CommissionMap(l[..|l| - 1])[l[|l| - 1].execId := l[|l| - 1]]
  }

  ghost predicate HasExecution(execs: seq<ExecEntry>, id: string) {
    exists i :: 0 <= i < |execs| && execs[i].execution.execId == id
  }

  ghost predicate HasCommission(comms: seq<CommissionReport>, id: string) {
    exists i :: 0 <= i < |comms| && comms[i].execId == id
  }

  /** `execs[k]` is the last entry with execId `id`. */
  ghost predicate LastExecution(execs: seq<ExecEntry>, k: int, id: string) {
    0 <= k < |execs| && execs[k].execution.execId == id
    && forall j :: k < j < |execs| ==> execs[j].execution.execId != id
  }

  /** `comms[k]` is the last report with execId `id`. */
  ghost predicate LastCommission(comms: seq<CommissionReport>, k: int, id: string) {
    0 <= k < |comms| && comms[k].execId == id
    && forall j :: k < j < |comms| ==> comms[j].execId != id
  }

  /** The execution dictionary holds an execId exactly when some entry has it. */
  lemma {:induction false} ExecutionMapDomain(l: seq<ExecEntry>, id: string)
    ensures id in ExecutionMap(l) <==> HasExecution(l, id)
    decreases |l|
  {
    if l != [] {
      var l' := l[..|l| - 1];
      ExecutionMapDomain(l', id);
      if HasExecution(l', id) {
        var i :| 0 <= i < |l'| && l'[i].execution.execId == id;
        assert l[i] == l'[i];
      }
      if HasExecution(l, id) && l[|l| - 1].execution.execId != id {
        var i :| 0 <= i < |l| && l[i].execution.execId == id;
        assert l'[i] == l[i];
      }
    }
  }

  /** ... and then holds the last such entry. */
  lemma {:induction false} ExecutionMapLastWins(l: seq<ExecEntry>, id: string)
    requires id in ExecutionMap(l)
    ensures exists k :: LastExecution(l, k, id) && ExecutionMap(l)[id] == l[k]
    decreases |l|
  {
    var n := |l| - 1;
    if l[n].execution.execId == id {
      assert LastExecution(l, n, id);
    } else {
      var l' := l[..n];
      ExecutionMapLastWins(l', id);
      var k :| LastExecution(l', k, id) && ExecutionMap(l')[id] == l'[k];
      forall j | k < j < |l| ensures l[j].execution.execId != id {
        if j < n { assert l[j] == l'[j]; }
      }
      assert LastExecution(l, k, id);
    }
  }

  /** The commission dictionary holds an execId exactly when some report has it. */
  lemma {:induction false} CommissionMapDomain(l: seq<CommissionReport>, id: string)
    ensures id in CommissionMap(l) <==> HasCommission(l, id)
    decreases |l|
  {
    if l != [] {
      var l' := l[..|l| - 1];
      CommissionMapDomain(l', id);
      if HasCommission(l', id) {
        var i :| 0 <= i < |l'| && l'[i].execId == id;
        assert l[i] == l'[i];
      }
      if HasCommission(l, id) && l[|l| - 1].execId != id {
        var i :| 0 <= i < |l| && l[i].execId == id;
        assert l'[i] == l[i];
      }
    }
  }

  /** ... and then holds the last such report. */
  lemma {:induction false} CommissionMapLastWins(l: seq<CommissionReport>, id: string)
    requires id in CommissionMap(l)
    ensures exists k :: LastCommission(l, k, id) && CommissionMap(l)[id] == l[k]
    decreases |l|
  {
    var n := |l| - 1;
    if l[n].execId == id {
      assert LastCommission(l, n, id);
    } else {
      var l' := l[..n];
      CommissionMapLastWins(l', id);
      var k :| LastCommission(l', k, id) && CommissionMap(l')[id] == l'[k];
      forall j | k < j < |l| ensures l[j].execId != id {
        if j < n { assert l[j] == l'[j]; }
      }
      assert LastCommission(l, k, id);
    }
  }

  // ----------------------------------------------------------- the matching

  /** The tuple for one execId, the missing side taken from the library's
      freshly constructed records. */
  function MatchFor(id: string, em: map<string, ExecEntry>, cm: map<string, CommissionReport>): Matched {
    var (contract, execution) := if id in em then (em[id].contract, em[id].execution)
                                 else (Some(DefaultContract), DefaultExecution);
    Matched(id, contract, execution, if id in cm then cm[id] else DefaultCommissionReport)
  }

  function MatchAll(ids: seq<string>, em: map<string, ExecEntry>, cm: map<string, CommissionReport>): (r: seq<Matched>)
    ensures |r| == |ids|
    ensures forall i :: 0 <= i < |ids| ==> r[i] == MatchFor(ids[i], em, cm)
  {
    seq(|ids|, i requires 0 <= i < |ids| => MatchFor(ids[i], em, cm))
  }

  lemma MatchAllSnoc(ids: seq<string>, i: nat, em: map<string, ExecEntry>, cm: map<string, CommissionReport>)
    requires i < |ids|
    ensures MatchAll(ids[..i + 1], em, cm) == MatchAll(ids[..i], em, cm) + [MatchFor(ids[i], em, cm)]
  {
  }

  /** What `_match_execution_and_commission` returns for the two lists. */
  ghost function Matching(execs: seq<ExecEntry>, comms: seq<CommissionReport>): seq<Matched> {
    var em := ExecutionMap(execs);
    var cm := CommissionMap(comms);
    MatchAll(Sorted(em.Keys + cm.Keys), em, cm)
  }

  /** The execIds of the result, in result order. */
  function Ids(ms: seq<Matched>): (ids: seq<string>)
    ensures |ids| == |ms|
    ensures forall i :: 0 <= i < |ms| ==> ids[i] == ms[i].execId
  {
    seq(|ms|, i requires 0 <= i < |ms| => ms[i].execId)
  }

  /** The result's execIds are strictly ascending, so without repeats, and
      they are exactly the execIds of either list. */
  lemma MatchingIds(execs: seq<ExecEntry>, comms: seq<CommissionReport>)
    ensures StrictlyAscending(Ids(Matching(execs, comms)))
    ensures forall i, j :: 0 <= i < j < |Matching(execs, comms)| ==>
      Matching(execs, comms)[i].execId != Matching(execs, comms)[j].execId
    ensures forall id :: id in Ids(Matching(execs, comms)) <==> HasExecution(execs, id) || HasCommission(comms, id)
  {
    var em := ExecutionMap(execs);
    var cm := CommissionMap(comms);
    var keys := Sorted(em.Keys + cm.Keys);
    var ms := Matching(execs, comms);
    assert Ids(ms) == keys;
    forall i, j | 0 <= i < j < |ms| ensures ms[i].execId != ms[j].execId {
      assert Less(keys[i], keys[j]);
      if keys[i] == keys[j] { LessIrreflexive(keys[i]); }
    }
    forall id ensures id in Ids(ms) <==> HasExecution(execs, id) || HasCommission(comms, id) {
      ExecutionMapDomain(execs, id);
      CommissionMapDomain(comms, id);
      assert id in Ids(ms) <==> id in Elems(keys);
    }
  }

  /** The result has one tuple per distinct execId of the two lists. */
  lemma MatchingSize(execs: seq<ExecEntry>, comms: seq<CommissionReport>)
    ensures |Matching(execs, comms)| == |ExecutionMap(execs).Keys + CommissionMap(comms).Keys|
    ensures forall id :: id in ExecutionMap(execs).Keys + CommissionMap(comms).Keys <==>
      HasExecution(execs, id) || HasCommission(comms, id)
  {
    var s := ExecutionMap(execs).Keys + CommissionMap(comms).Keys;
    SortedSize(s);
    forall id ensures id in s <==> HasExecution(execs, id) || HasCommission(comms, id) {
      ExecutionMapDomain(execs, id);
      CommissionMapDomain(comms, id);
    }
  }

  /** Each tuple's contract and execution are those of the last
      `execDetails` with its execId, or the defaults when there is none. */
  lemma MatchingExecutionSide(execs: seq<ExecEntry>, comms: seq<CommissionReport>, i: nat)
    requires i < |Matching(execs, comms)|
    ensures var m := Matching(execs, comms)[i];
      (HasExecution(execs, m.execId) ==>
         exists k :: LastExecution(execs, k, m.execId)
           && m.contract == execs[k].contract && m.execution == execs[k].execution)
      && (!HasExecution(execs, m.execId) ==> m.contract == Some(DefaultContract) && m.execution == DefaultExecution)
  {
    var m := Matching(execs, comms)[i];
    ExecutionMapDomain(execs, m.execId);
    if HasExecution(execs, m.execId) {
      ExecutionMapLastWins(execs, m.execId);
    }
  }

  /** Each tuple's commission report is the last one with its execId, or the
      default when there is none. */
  lemma MatchingCommissionSide(execs: seq<ExecEntry>, comms: seq<CommissionReport>, i: nat)
    requires i < |Matching(execs, comms)|
    ensures var m := Matching(execs, comms)[i];
      (HasCommission(comms, m.execId) ==>
         exists k :: LastCommission(comms, k, m.execId) && m.commissionReport == comms[k])
      && (!HasCommission(comms, m.execId) ==> m.commissionReport == DefaultCommissionReport)
  {
    var m := Matching(execs, comms)[i];
    CommissionMapDomain(comms, m.execId);
    if HasCommission(comms, m.execId) {
      CommissionMapLastWins(comms, m.execId);
    }
  }

  // ---------------------------------------------------------- the callbacks

  /** What the loop of `calculate_callbacks` produces from the tuples: the
      first tuple with a `None` part raises, otherwise one `Callback` per
      tuple, in order. */
  function CallbacksFrom(ms: seq<Matched>): Result<seq<Callback>, CallbackError>
    decreases |ms|
  {
    if ms == [] then Success([])
    else
      match CallbacksFrom(ms[..|ms| - 1])
      case Failure(e) => Failure(e)
      case Success(cbs) =>
        var m := ms[|ms| - 1];
        if m.contract.None? then Failure(ValueError(m.execId, ["contract"]))
        else Success(cbs + [NewCallback(Some(m.contract.value), Some(m.execution), Some(m.commissionReport))])
  }

  /** `calculate_callbacks` raises exactly when a tuple lacks its contract,
      and reports the first such tuple; otherwise it returns one callback
      per tuple, in order. */
  lemma {:induction false} CallbacksFromSpec(ms: seq<Matched>)
    ensures CallbacksFrom(ms).Failure? <==> exists i :: 0 <= i < |ms| && ms[i].contract.None?
    ensures CallbacksFrom(ms).Failure? ==>
      exists k :: 0 <= k < |ms| && ms[k].contract.None?
        && (forall j :: 0 <= j < k ==> ms[j].contract.Some?)
        && CallbacksFrom(ms).error == ValueError(ms[k].execId, ["contract"])
    ensures CallbacksFrom(ms).Success? ==> |CallbacksFrom(ms).value| == |ms|
    ensures CallbacksFrom(ms).Success? ==>
      forall i :: 0 <= i < |ms| ==>
        CallbacksFrom(ms).value[i] == Callback(ms[i].contract.value, ms[i].execution, ms[i].commissionReport)
    decreases |ms|
  {
    if ms != [] {
      var ms' := ms[..|ms| - 1];
      CallbacksFromSpec(ms');
      forall i | 0 <= i < |ms'| ensures ms'[i] == ms[i] { }
    }
  }

  /** One step of the loop: the next tuple either raises or adds its callback. */
  lemma CallbacksFromStep(ms: seq<Matched>, i: nat, cbs: seq<Callback>)
    requires i < |ms| && CallbacksFrom(ms[..i]) == Success(cbs)
    ensures CallbacksFrom(ms[..i + 1]) == if ms[i].contract.None? then Failure(ValueError(ms[i].execId, ["contract"]))
      else Success(cbs + [NewCallback(Some(ms[i].contract.value), Some(ms[i].execution), Some(ms[i].commissionReport))])
  {
    assert ms[..i + 1][..i] == ms[..i];
  }

  /** Once a prefix has raised, the whole list raises the same error. */
  lemma {:induction false} CallbacksFromFailureSticks(ms: seq<Matched>, n: nat)
    requires n <= |ms| && CallbacksFrom(ms[..n]).Failure?
    ensures CallbacksFrom(ms) == CallbacksFrom(ms[..n])
    decreases |ms| - n
  {
    if n < |ms| {
      assert ms[..n + 1][..n] == ms[..n];
      CallbacksFromFailureSticks(ms, n + 1);
    } else {
      assert ms[..n] == ms;
    }
  }

  // ---------------------------------------------------------------- the app

  class ExecutionsApp {
    const session: Session
    var executionList: seq<ExecEntry>
    var commissionList: seq<CommissionReport>
    var callbacks: seq<Callback>
    var reqExecutionsReady: bool

    ghost predicate Valid()
      reads this, session
    {
      session.Valid() && reqExecutionsReady == IsSet(session.trace, ReqExecutionsReady)
    }

    constructor ()
      ensures Valid() && fresh(session)
      ensures session.trace == [] && session.nextOrderId == None
      ensures executionList == [] && commissionList == [] && callbacks == [] && !reqExecutionsReady
    {
      session := new Session();
      executionList, commissionList, callbacks := [], [], [];
      reqExecutionsReady := false;
    }

    /** `wait_for_reqExecutions`, up to its wait: sends the request with the
        empty filter. */
    method WaitForReqExecutions(orderId: int)
      requires Valid()
      modifies session
      ensures Valid()
      ensures session.trace == old(session.trace) + [Sent(ReqExecutions(orderId))]
      ensures session.nextOrderId == old(session.nextOrderId)
    {
      session.Record(Sent(ReqExecutions(orderId)));
    }

    /** `execDetailsEnd`: raises the ready flag (after a grace delay that is
        not modelled). */
    method ExecDetailsEnd(reqId: int)
      requires Valid()
      modifies this, session
      ensures Valid() && reqExecutionsReady
      ensures session.trace == old(session.trace) + [Raised(ReqExecutionsReady)]
      ensures session.nextOrderId == old(session.nextOrderId)
      ensures executionList == old(executionList) && commissionList == old(commissionList)
      ensures callbacks == old(callbacks)
    {
      session.Record(Raised(ReqExecutionsReady));
      reqExecutionsReady := true;
    }

    /** `execDetails`: appends the pair, in arrival order. */
    method ExecDetails(reqId: int, contract: Option<Contract>, execution: Execution)
      requires Valid()
      modifies this
      ensures Valid()
      ensures executionList == old(executionList) + [ExecEntry(contract, execution)]
      ensures commissionList == old(commissionList) && callbacks == old(callbacks)
      ensures reqExecutionsReady == old(reqExecutionsReady)
    {
      executionList := executionList + [ExecEntry(contract, execution)];
    }

    /** `commissionReport`: appends the report, in arrival order. */
    method CommissionReport(report: Records.CommissionReport)
      requires Valid()
      modifies this
      ensures Valid()
      ensures commissionList == old(commissionList) + [report]
      ensures executionList == old(executionList) && callbacks == old(callbacks)
      ensures reqExecutionsReady == old(reqExecutionsReady)
    {
      commissionList := commissionList + [report];
    }

    /** `_match_execution_and_commission`: one tuple per execId of either
        list, in ascending execId order. */
    method MatchExecutionAndCommission() returns (result: seq<Matched>)
      ensures result == Matching(executionList, commissionList)
    {
      var executionDict: map<string, ExecEntry> := map[];
      var i := 0;
      while i < |executionList|
        invariant 0 <= i <= |executionList|
        invariant executionDict == ExecutionMap(executionList[..i])
      {
        assert executionList[..i + 1][..i] == executionList[..i];
        executionDict := executionDict[executionList[i].execution.execId := executionList[i]];
        i := i + 1;
      }
      assert executionList[..i] == executionList;

      var commissionDict: map<string, Records.CommissionReport> := map[];
      i := 0;
      while i < |commissionList|
        invariant 0 <= i <= |commissionList|
        invariant commissionDict == CommissionMap(commissionList[..i])
      {
        assert commissionList[..i + 1][..i] == commissionList[..i];
        commissionDict := commissionDict[commissionList[i].execId := commissionList[i]];
        i := i + 1;
      }
      assert commissionList[..i] == commissionList;

      var execIdSet := executionDict.Keys + commissionDict.Keys;
      var ids := SortedList(execIdSet);
      AscendingUnique(ids, Sorted(execIdSet));

      result := [];
      i := 0;
      while i < |ids|
        invariant 0 <= i <= |ids|
        invariant result == MatchAll(ids[..i], executionDict, commissionDict)
      {
        MatchAllSnoc(ids, i, executionDict, commissionDict);
        result := result + [MatchFor(ids[i], executionDict, commissionDict)];
        i := i + 1;
      }
      assert ids[..i] == ids;
    }

    /** `calculate_callbacks`: on success the callbacks are stored and
        returned; on error nothing is stored. */
    method CalculateCallbacks() returns (r: Result<seq<Callback>, CallbackError>)
      requires Valid()
      modifies this
      ensures Valid()
      ensures r == CallbacksFrom(Matching(executionList, commissionList))
      ensures r.Success? ==> callbacks == r.value
      ensures r.Failure? ==> callbacks == old(callbacks)
      ensures executionList == old(executionList) && commissionList == old(commissionList)
      ensures reqExecutionsReady == old(reqExecutionsReady)
    {
      var tuples := MatchExecutionAndCommission();
      r := BuildCallbacks(tuples);
      if r.Success? {
        callbacks := r.value;
      }
    }
  }

  /** The loop of `calculate_callbacks` over the matched tuples. */
  method BuildCallbacks(tuples: seq<Matched>) returns (r: Result<seq<Callback>, CallbackError>)
    ensures r == CallbacksFrom(tuples)
  {
    var cbs: seq<Callback> := [];
    var i := 0;
    while i < |tuples|
      invariant 0 <= i <= |tuples|
      invariant CallbacksFrom(tuples[..i]) == Success(cbs)
    {
      CallbacksFromStep(tuples, i, cbs);
      var m := tuples[i];
      if m.contract.None? {
        CallbacksFromFailureSticks(tuples, i + 1);
        return Failure(ValueError(m.execId, ["contract"]));
      }
      cbs := cbs + [NewCallback(Some(m.contract.value), Some(m.execution), Some(m.commissionReport))];
      i := i + 1;
    }
    assert tuples[..i] == tuples;
    r := Success(cbs);
  }

  /** An execution with no commission report is output with the default
      report's empty `ExecId` and `Currency`, since `output` lets the report
      override the execution on those keys. */
  lemma ExecutionOnlyOutput(execs: seq<ExecEntry>, comms: seq<CommissionReport>, i: nat)
    requires i < |Matching(execs, comms)|
    requires !HasCommission(comms, Matching(execs, comms)[i].execId)
    requires Matching(execs, comms)[i].contract.Some?
    ensures var m := Matching(execs, comms)[i];
      var cb := Callback(m.contract.value, m.execution, m.commissionReport);
      Dicts.Get(Output(cb), "ExecId") == Some(Str("")) && Dicts.Get(Output(cb), "Currency") == Some(Str(""))
  {
    MatchingCommissionSide(execs, comms, i);
    var m := Matching(execs, comms)[i];
    var cb := Callback(m.contract.value, m.execution, m.commissionReport);
    OutputExecId(cb);
    OutputCurrency(cb);
  }
}
