/** The algorithm-parameter filler `AlgoOrderFiller`: checks an algorithm
    name against a whitelist and writes the algorithm's strategy name and
    its fixed parameter list into an order, in place. The filler object
    holds no state, so its operations are module-level methods here. */
module AlgoTrade {
  import opened Values
  import opened Records

  /** `InvalidAlgoError`, with what its message reports: the rejected name
      and the valid options. */
  datatype AlgoError = InvalidAlgoError(algo: string, validOptions: seq<string>)

  /** `valid_algos`, in the order the source lists it. */
  const ValidAlgos: seq<string> := [
    "",
    "PctVol", "Adaptive", "ArrivalPrice", "ClosePrice", "Midprice",
    "DarkIce", "AccumulateDistribute", "TWAP", "PriceVariantPctVol",
    "SizeVariantPctVol", "TimeVariantPctVol", "VWAP", "BalanceImpactRisk",
    "MinimiseImpact"]

  /** The fourteen `Fill*Params` methods. */
  datatype Filler =
    | Adaptive | PctVol | ArrivalPrice | ClosePrice | Midprice | DarkIce
    | AccumulateDistribute | TWAP | PriceVariantPctVol | SizeVariantPctVol
    | TimeVariantPctVol | VWAP | BalanceImpactRisk | MinimiseImpact

  /** The algorithm name that selects a filler. */
  function Name(f: Filler): string {
    match f
    case Adaptive => "Adaptive"
    case PctVol => "PctVol"
    case ArrivalPrice => "ArrivalPrice"
    case ClosePrice => "ClosePrice"
    case Midprice => "Midprice"
    case DarkIce => "DarkIce"
    case AccumulateDistribute => "AccumulateDistribute"
    case TWAP => "TWAP"
    case PriceVariantPctVol => "PriceVariantPctVol"
    case SizeVariantPctVol => "SizeVariantPctVol"
    case TimeVariantPctVol => "TimeVariantPctVol"
    case VWAP => "VWAP"
    case BalanceImpactRisk => "BalanceImpactRisk"
    case MinimiseImpact => "MinimiseImpact"
  }

  /** The `algoStrategy` a filler writes. */
  function StrategyName(f: Filler): string {
    match f
    case Adaptive => "Adaptive"
    case PctVol => "PctVol"
    case ArrivalPrice => "ArrivalPx"
    case ClosePrice => "ClosePx"
    case Midprice => "Midprice"
    case DarkIce => "DarkIce"
    case AccumulateDistribute => "Accumulate/Distribute"
    case TWAP => "TWAP"
    case PriceVariantPctVol => "PctVol"
    case SizeVariantPctVol => "PctVol"
    case TimeVariantPctVol => "PctVol"
    case VWAP => "VWAP"
    case BalanceImpactRisk => "BalanceImpactRisk"
    case MinimiseImpact => "MinimiseImpact"
  }

  const StartTime := TagValue("startTime", Str("09:30:00 US/Eastern"))
  const EndTime := TagValue("endTime", Str("16:00:00 US/Eastern"))

  /** The parameter list a filler writes, in append order. */
  function Params(f: Filler): seq<TagValue> {
    match f
    case Adaptive => [TagValue("adaptivePriority", Str("Normal"))]
    case PctVol => [TagValue("pctVol", Real("0.1")), TagValue("noTakeLiq", Int(1))]
    case ArrivalPrice => [TagValue("maxPctVol", Real("0.1")), TagValue("riskAversion", Str("Medium"))]
    case ClosePrice => [TagValue("startTime", Str("15:00:00 US/Eastern"))]
    case Midprice => [TagValue("midOffsetPct", Real("0.5"))]
    case DarkIce => [StartTime, EndTime, TagValue("displaySize", Int(100))]
    case AccumulateDistribute => [TagValue("maxPctVol", Real("0.2"))]
    case TWAP => [StartTime, EndTime]
    case PriceVariantPctVol => [TagValue("priceVariant", Str("Yes"))]
    case SizeVariantPctVol => [TagValue("sizeVariant", Str("Yes"))]
    case TimeVariantPctVol => [TagValue("timeVariant", Str("Yes"))]
    case VWAP => [StartTime, EndTime]
    case BalanceImpactRisk => [TagValue("riskTolerance", Str("Low"))]
    case MinimiseImpact => [TagValue("urgent", Str("Yes"))]
  }

  function Tags(ps: seq<TagValue>): (tags: seq<string>)
    ensures |tags| == |ps|
    ensures forall i :: 0 <= i < |ps| ==> tags[i] == ps[i].tag
  {
    if ps == [] then [] else [ps[0].tag] + Tags(ps[1..])
  }

  /** The `elif` chain of `fill_algo_params`: the filler a name selects,
      if any. */
  function Dispatch(algo: string): (r: Option<Filler>)
    ensures r.Some? ==> Name(r.value) == algo
  {
    if algo == "" then None
    else if algo == "Adaptive" then Some(Adaptive)
    else if algo == "PctVol" then Some(PctVol)
    else if algo == "ArrivalPrice" then Some(ArrivalPrice)
    else if algo == "ClosePrice" then Some(ClosePrice)
    else if algo == "Midprice" then Some(Midprice)
    else if algo == "DarkIce" then Some(DarkIce)
    else if algo == "AccumulateDistribute" then Some(AccumulateDistribute)
    else if algo == "TWAP" then Some(TWAP)
    else if algo == "PriceVariantPctVol" then Some(PriceVariantPctVol)
    else if algo == "SizeVariantPctVol" then Some(SizeVariantPctVol)
    else if algo == "TimeVariantPctVol" then Some(TimeVariantPctVol)
    else if algo == "VWAP" then Some(VWAP)
    else if algo == "BalanceImpactRisk" then Some(BalanceImpactRisk)
    else if algo == "MinimiseImpact" then Some(MinimiseImpact)
    else None
  }

  /** An order's fields after filling with `d`: only the strategy and the
      parameter list change, and the list is replaced, not extended. */
  function Apply(o: OrderFields, d: Option<Filler>): OrderFields {
    match d
    case None => o
    case Some(f) => o.(algoStrategy := StrategyName(f), algoParams := Some(Params(f)))
  }

  // ------------------------------------------------------------ properties

  /** Every whitelisted name but `''` reaches a filler, and no other name
      does. */
  lemma DispatchCoversWhitelist(algo: string)
    ensures Dispatch(algo).Some? <==> algo in ValidAlgos && algo != ""
  {
    if algo in ValidAlgos && algo != "" {
      var i :| 0 <= i < |ValidAlgos| && ValidAlgos[i] == algo;
      assert 1 <= i;
    }
  }

  /** Each filler's name is on the whitelist. */
  lemma NameWhitelisted(f: Filler)
    ensures Name(f) in ValidAlgos
  {
    var i := match f
      case PctVol => 1 case Adaptive => 2 case ArrivalPrice => 3 case ClosePrice => 4
      case Midprice => 5 case DarkIce => 6 case AccumulateDistribute => 7 case TWAP => 8
      case PriceVariantPctVol => 9 case SizeVariantPctVol => 10 case TimeVariantPctVol => 11
      case VWAP => 12 case BalanceImpactRisk => 13 case MinimiseImpact => 14;
    assert ValidAlgos[i] == Name(f);
  }

  /** Each filler is reached by its own name and by no other name. */
  lemma DispatchName(f: Filler, algo: string)
    ensures Dispatch(algo) == Some(f) <==> algo == Name(f)
  {
  }

  /** The strategy differs from the algorithm's name for exactly six
      fillers: ArrivalPx, ClosePx, Accumulate/Distribute and the three
      variants that all write PctVol. */
  lemma StrategyDiffersFromName(f: Filler)
    ensures StrategyName(f) != Name(f) <==>
      f in {ArrivalPrice, ClosePrice, AccumulateDistribute, PriceVariantPctVol, SizeVariantPctVol, TimeVariantPctVol}
    ensures StrategyName(f) == "PctVol" <==> f in {PctVol, PriceVariantPctVol, SizeVariantPctVol, TimeVariantPctVol}
  {
  }

  /** The tag lists: DarkIce has three tags, PctVol, ArrivalPrice, TWAP and
      VWAP two, every other filler one; no list repeats a tag. */
  lemma TagCounts(f: Filler)
    ensures |Params(f)| == 3 <==> f == DarkIce
    ensures |Params(f)| == 2 <==> f in {PctVol, ArrivalPrice, TWAP, VWAP}
    ensures 1 <= |Params(f)| <= 3
    ensures f == DarkIce ==> Tags(Params(f)) == ["startTime", "endTime", "displaySize"]
    ensures f == PctVol ==> Tags(Params(f)) == ["pctVol", "noTakeLiq"] && Params(f)[1].value == Int(1)
    ensures f == ArrivalPrice ==> Tags(Params(f)) == ["maxPctVol", "riskAversion"]
    ensures f in {TWAP, VWAP} ==> Tags(Params(f)) == ["startTime", "endTime"]
    ensures forall i, j :: 0 <= i < j < |Params(f)| ==> Params(f)[i].tag != Params(f)[j].tag
  {
  }

  /** Filling twice with the same algorithm is filling once. */
  lemma ApplyIdempotent(o: OrderFields, d: Option<Filler>)
    ensures Apply(Apply(o, d), d) == Apply(o, d)
  {
  }

  /** Filling overwrites whatever strategy and parameters were there and
      leaves every other field as it was. */
  lemma ApplyForgetsPrevious(o: OrderFields, o': OrderFields, f: Filler)
    requires o'.(algoStrategy := o.algoStrategy, algoParams := o.algoParams) == o
    ensures Apply(o, Some(f)) == Apply(o', Some(f))
    ensures Apply(o, Some(f)).algoParams == Some(Params(f))
  {
  }

  /** `''` selects no filler, so the order comes back unchanged. */
  lemma EmptyAlgoUnchanged(o: OrderFields)
    ensures Dispatch("") == None && Apply(o, Dispatch("")) == o
  {
  }

  // ----------------------------------------------------------- the fillers

  /** The common shape of every filler: set the strategy, reset the list,
      append the tags one by one. */
  method Fill(order: Order, strategy: string, params: seq<TagValue>)
    modifies order
    ensures order.Fields() == old(order.Fields()).(algoStrategy := strategy, algoParams := Some(params))
  {
    order.algoStrategy := strategy;
    order.algoParams := Some([]);
    var i := 0;
    while i < |params|
      invariant 0 <= i <= |params|
      invariant order.algoParams == Some(params[..i])
      invariant order.Fields() == old(order.Fields()).(algoStrategy := strategy, algoParams := Some(params[..i]))
    {
      order.algoParams := Some(order.algoParams.value + [params[i]]);
      assert params[..i + 1] == params[..i] + [params[i]];
      i := i + 1;
    }
    assert params[..i] == params;
  }

  method FillAdaptiveParams(order: Order) returns (r: Order)
    modifies order
    ensures r == order && order.Fields() == Apply(old(order.Fields()), Some(Adaptive))
  {
    var priority := "Normal";
    Fill(order, "Adaptive", [TagValue("adaptivePriority", Str(priority))]);
    r := order;
  }

  method FillPctVolParams(order: Order) returns (r: Order)
    modifies order
    ensures r == order && order.Fields() == Apply(old(order.Fields()), Some(PctVol))
  {
    Fill(order, "PctVol", [TagValue("pctVol", Real("0.1")), TagValue("noTakeLiq", Int(1))]);
    r := order;
  }

  method FillArrivalPriceParams(order: Order) returns (r: Order)
    modifies order
    ensures r == order && order.Fields() == Apply(old(order.Fields()), Some(ArrivalPrice))
  {
    Fill(order, "ArrivalPx", [TagValue("maxPctVol", Real("0.1")), TagValue("riskAversion", Str("Medium"))]);
    r := order;
  }

  method FillClosePriceParams(order: Order) returns (r: Order)
    modifies order
    ensures r == order && order.Fields() == Apply(old(order.Fields()), Some(ClosePrice))
  {
    Fill(order, "ClosePx", [TagValue("startTime", Str("15:00:00 US/Eastern"))]);
    r := order;
  }

  method FillMidpriceParams(order: Order) returns (r: Order)
    modifies order
    ensures r == order && order.Fields() == Apply(old(order.Fields()), Some(Midprice))
  {
    Fill(order, "Midprice", [TagValue("midOffsetPct", Real("0.5"))]);
    r := order;
  }

  method FillDarkIceParams(order: Order) returns (r: Order)
    modifies order
    ensures r == order && order.Fields() == Apply(old(order.Fields()), Some(DarkIce))
  {
    Fill(order, "DarkIce", [StartTime, EndTime, TagValue("displaySize", Int(100))]);
    r := order;
  }

  method FillAccumulateDistributeParams(order: Order) returns (r: Order)
    modifies order
    ensures r == order && order.Fields() == Apply(old(order.Fields()), Some(AccumulateDistribute))
  {
    Fill(order, "Accumulate/Distribute", [TagValue("maxPctVol", Real("0.2"))]);
    r := order;
  }

  method FillTWAPParams(order: Order) returns (r: Order)
    modifies order
    ensures r == order && order.Fields() == Apply(old(order.Fields()), Some(TWAP))
  {
    Fill(order, "TWAP", [StartTime, EndTime]);
    r := order;
  }

  method FillPriceVariantPctVolParams(order: Order) returns (r: Order)
    modifies order
    ensures r == order && order.Fields() == Apply(old(order.Fields()), Some(PriceVariantPctVol))
  {
    Fill(order, "PctVol", [TagValue("priceVariant", Str("Yes"))]);
    r := order;
  }

  method FillSizeVariantPctVolParams(order: Order) returns (r: Order)
    modifies order
    ensures r == order && order.Fields() == Apply(old(order.Fields()), Some(SizeVariantPctVol))
  {
    Fill(order, "PctVol", [TagValue("sizeVariant", Str("Yes"))]);
    r := order;
  }

  method FillTimeVariantPctVolParams(order: Order) returns (r: Order)
    modifies order
    ensures r == order && order.Fields() == Apply(old(order.Fields()), Some(TimeVariantPctVol))
  {
    Fill(order, "PctVol", [TagValue("timeVariant", Str("Yes"))]);
    r := order;
  }

  method FillVWAPParams(order: Order) returns (r: Order)
    modifies order
    ensures r == order && order.Fields() == Apply(old(order.Fields()), Some(VWAP))
  {
    Fill(order, "VWAP", [StartTime, EndTime]);
    r := order;
  }

  method FillBalanceImpactRiskParams(order: Order) returns (r: Order)
    modifies order
    ensures r == order && order.Fields() == Apply(old(order.Fields()), Some(BalanceImpactRisk))
  {
    Fill(order, "BalanceImpactRisk", [TagValue("riskTolerance", Str("Low"))]);
    r := order;
  }

  method FillMinimiseImpactParams(order: Order) returns (r: Order)
    modifies order
    ensures r == order && order.Fields() == Apply(old(order.Fields()), Some(MinimiseImpact))
  {
    Fill(order, "MinimiseImpact", [TagValue("urgent", Str("Yes"))]);
    r := order;
  }

  /** `fill_algo_params`: a name off the whitelist is an error and the order
      is not touched; otherwise the selected filler, if any, fills the order
      in place and the same order is returned. */
  method FillAlgoParams(order: Order, algo: string) returns (r: Result<Order, AlgoError>)
    modifies order
    ensures algo !in ValidAlgos ==>
      r == Failure(InvalidAlgoError(algo, ValidAlgos)) && order.Fields() == old(order.Fields())
    ensures algo in ValidAlgos ==>
      r == Success(order) && order.Fields() == Apply(old(order.Fields()), Dispatch(algo))
  {
    if algo !in ValidAlgos {
      return Failure(InvalidAlgoError(algo, ValidAlgos));
    }
    var o := order;
    if algo == "" {
    } else if algo == "Adaptive" {
      o := FillAdaptiveParams(order);
    } else if algo == "PctVol" {
      o := FillPctVolParams(order);
    } else if algo == "ArrivalPrice" {
      o := FillArrivalPriceParams(order);
    } else if algo == "ClosePrice" {
      o := FillClosePriceParams(order);
    } else if algo == "Midprice" {
      o := FillMidpriceParams(order);
    } else if algo == "DarkIce" {
      o := FillDarkIceParams(order);
    } else if algo == "AccumulateDistribute" {
      o := FillAccumulateDistributeParams(order);
    } else if algo == "TWAP" {
      o := FillTWAPParams(order);
    } else if algo == "PriceVariantPctVol" {
      o := FillPriceVariantPctVolParams(order);
    } else if algo == "SizeVariantPctVol" {
      o := FillSizeVariantPctVolParams(order);
    } else if algo == "TimeVariantPctVol" {
      o := FillTimeVariantPctVolParams(order);
    } else if algo == "VWAP" {
      o := FillVWAPParams(order);
    } else if algo == "BalanceImpactRisk" {
      o := FillBalanceImpactRiskParams(order);
    } else if algo == "MinimiseImpact" {
      o := FillMinimiseImpactParams(order);
    }
    r := Success(o);
  }
}
