/** current_allocations: the CU entitlement of each worker under one gateway.
    An empty worker list returns at once; otherwise the gateway's strategy is
    resolved, and under the default strategy one query for the first worker is
    replicated to all, while any other strategy is asked once per worker in one
    batch whose answers are paired with the workers by position. */
module Allocations {
  import opened Wrappers
  import opened EthTypes
  import opened Chain
  import opened Client

  /** The workers the computation runs on: the given ones, or a fresh read. */
  function FetchedWorkers(chain: Chain, workers: Option<seq<Worker>>): Result<seq<Worker>, ClientError> {
    match workers
    case Some(ws) => Ok(ws)
    case None => ActiveWorkers(chain)
  }

  /** The requests made to obtain the workers. */
  function FetchCalls(workers: Option<seq<Worker>>): seq<Call> {
    if workers.None? then [ActiveWorkersCall] else []
  }

  /** The chain's answer to a CU query. */
  function CuAnswer(chain: Chain, c: Call): U256
    requires c.ComputationUnitsPerEpoch?
  {
    chain.computationUnits(c.strategy, c.gatewayId, c.workerId)
  }

  method CurrentAllocations(chain: Chain, client: EthersClient, clientId: PeerId, workers: Option<seq<Worker>>)
    returns (r: Result<seq<Allocation>, ClientError>, calls: seq<Call>)
    ensures FetchedWorkers(chain, workers).Err? ==>
              r == Err(FetchedWorkers(chain, workers).error) && calls == FetchCalls(workers)
    ensures FetchedWorkers(chain, workers) == Ok([]) ==>
              r == Ok([]) && calls == FetchCalls(workers)
    ensures FetchedWorkers(chain, workers).Ok? && FetchedWorkers(chain, workers).value != [] ==>
              var ws := FetchedWorkers(chain, workers).value;
              var gatewayId := clientId.bytes;
              var strategy := chain.usedStrategy(gatewayId);
              var resolve := FetchCalls(workers) + [GetUsedStrategy(gatewayId)];
              && (Failure(chain, GetUsedStrategy(gatewayId)).Some? ==>
                    r == Err(Failure(chain, GetUsedStrategy(gatewayId)).value) && calls == resolve)
              && (Failure(chain, GetUsedStrategy(gatewayId)).None? && strategy == client.defaultStrategyAddr ==>
                    var query := ComputationUnitsPerEpoch(strategy, gatewayId, ws[0].onchainId);
                    && calls == resolve + [query]
                    && (Failure(chain, query).Some? ==> r == Err(Failure(chain, query).value))
                    && (Failure(chain, query).None? ==>
                          && r.Ok? && |r.value| == |ws|
                          && forall i :: 0 <= i < |ws| ==>
                               r.value[i] == Allocation(ws[i].peerId, ws[i].onchainId,
                                                        chain.computationUnits(strategy, gatewayId, ws[0].onchainId))))
              && (Failure(chain, GetUsedStrategy(gatewayId)).None? && strategy != client.defaultStrategyAddr ==>
                    && |calls| == |resolve| + 1 && calls[..|resolve|] == resolve
                    && calls[|resolve|].Multicall?
                    && |calls[|resolve|].calls| == |ws|
                    && (forall i :: 0 <= i < |ws| ==>
                          calls[|resolve|].calls[i] == ComputationUnitsPerEpoch(strategy, gatewayId, ws[i].onchainId))
                    && (Failure(chain, calls[|resolve|]).Some? ==> r == Err(Failure(chain, calls[|resolve|]).value))
                    && (Failure(chain, calls[|resolve|]).None? ==>
                          && r.Ok? && |r.value| == |ws|
                          && forall i :: 0 <= i < |ws| ==>
                               r.value[i] == Allocation(ws[i].peerId, ws[i].onchainId,
                                                        chain.computationUnits(strategy, gatewayId, ws[i].onchainId))))
  {
    calls := FetchCalls(workers);
    var ws: seq<Worker>;
    match workers {
      case Some(given) =>
        ws := given;
      case None =>
        var fetched := ActiveWorkers(chain);
        if fetched.Err? {
          r := Err(fetched.error);
          return;
        }
        ws := fetched.value;
    }
    if ws == [] {
      r := Ok([]);
      return;
    }

    var gatewayId := clientId.bytes;
    var resolve := GetUsedStrategy(gatewayId);
    calls := calls + [resolve];
    var f := Failure(chain, resolve);
    if f.Some? {
      r := Err(f.value);
      return;
    }
    var strategyAddr := chain.usedStrategy(gatewayId);

    // The default strategy splits CUs evenly: query the first worker only.
    if strategyAddr == client.defaultStrategyAddr {
      var firstWorkerId := ws[0].onchainId;
      var query := ComputationUnitsPerEpoch(strategyAddr, gatewayId, firstWorkerId);
      calls := calls + [query];
      f := Failure(chain, query);
      if f.Some? {
        r := Err(f.value);
        return;
      }
      var cusPerEpoch := CuAnswer(chain, query);
      r := Ok(seq(|ws|, i requires 0 <= i < |ws| => Allocation(ws[i].peerId, ws[i].onchainId, cusPerEpoch)));
      return;
    }

    var batch: seq<Call> := [];
    var i := 0;
    while i < |ws|
      invariant i <= |ws| && |batch| == i
      invariant forall k :: 0 <= k < i ==> batch[k] == ComputationUnitsPerEpoch(strategyAddr, gatewayId, ws[k].onchainId)
    {
      batch := batch + [ComputationUnitsPerEpoch(strategyAddr, gatewayId, ws[i].onchainId)];
      i := i + 1;
    }
    var multicall := Multicall(batch);
    calls := calls + [multicall];
    f := Failure(chain, multicall);
    if f.Some? {
      r := Err(f.value);
      return;
    }
    var computeUnits := seq(|batch|, k requires 0 <= k < |batch| => CuAnswer(chain, batch[k]));
    r := Ok(seq(|ws|, k requires 0 <= k < |ws| => Allocation(ws[k].peerId, ws[k].onchainId, computeUnits[k])));
  }
}
