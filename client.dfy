/** The value objects of the contract client and its expression-level
    operations: building a worker from its on-chain record, assembling the
    active-worker list, the single-call registry queries, the epoch queries and
    the choice of connections when the client is created. */
module Client {
  import opened Wrappers
  import opened EthTypes
  import opened Chain
  import Cli

  datatype Worker = Worker(
    peerId: PeerId,
    onchainId: U256,
    address: Address,
    bond: U256,
    registeredAt: U128,
    deregisteredAt: Option<U128>)

  datatype Allocation = Allocation(
    workerPeerId: PeerId,
    workerOnchainId: U256,
    computationUnits: U256)

  datatype GatewayCluster = GatewayCluster(
    operatorAddr: Address,
    gatewayIds: seq<PeerId>,
    allocatedComputationUnits: U256)

  /** SystemTime, as whole seconds after UNIX_EPOCH. */
  datatype SystemTime = SinceUnixEpoch(secs: nat)

  /** The client handle: its two connections (by endpoint URL), the resolved
      contract addresses, and the default strategy read once at creation. */
  datatype EthersClient = EthersClient(
    l1Url: string,
    l2Url: string,
    gatewayRegistryAddr: Address,
    networkControllerAddr: Address,
    workerRegistrationAddr: Address,
    allocationsViewerAddr: Address,
    defaultStrategyAddr: Address,
    multicallContractAddr: Option<Address>)

  // Creating the client.

  /** The endpoint used as L1: the L1 URL when one is given, else the main one. */
  function L1Url(args: Cli.RpcArgs): string {
    match args.l1RpcUrl
    case Some(url) => url
    case None => args.rpcUrl
  }

  /** get_client: connect to L2, then to L1 unless the L2 connection is reused,
      then read the default strategy from the gateway registry. */
  function GetClient(chain: Chain, args: Cli.RpcArgs): (r: Result<EthersClient, ClientError>)
    ensures r.Err? <==>
              || Failure(chain, Connect(args.rpcUrl)).Some?
              || (args.l1RpcUrl.Some? && Failure(chain, Connect(args.l1RpcUrl.value)).Some?)
              || Failure(chain, DefaultStrategy).Some?
    ensures r.Ok? ==>
              && r.value.l2Url == args.rpcUrl
              && (args.l1RpcUrl.Some? ==> r.value.l1Url == args.l1RpcUrl.value)
              && (args.l1RpcUrl.None? ==> r.value.l1Url == args.rpcUrl)
              && r.value.defaultStrategyAddr == chain.defaultStrategy
              && r.value.gatewayRegistryAddr == Cli.GatewayRegistryAddr(args)
              && r.value.networkControllerAddr == Cli.NetworkControllerAddr(args)
              && r.value.workerRegistrationAddr == Cli.WorkerRegistrationAddr(args)
              && r.value.allocationsViewerAddr == Cli.AllocationsViewerAddr(args)
              && r.value.multicallContractAddr == Some(Cli.MulticallAddr(args))
  {
    if Failure(chain, Connect(args.rpcUrl)).Some? then Err(Failure(chain, Connect(args.rpcUrl)).value)
    else if args.l1RpcUrl.Some? && Failure(chain, Connect(args.l1RpcUrl.value)).Some? then
      Err(Failure(chain, Connect(args.l1RpcUrl.value)).value)
    else if Failure(chain, DefaultStrategy).Some? then Err(Failure(chain, DefaultStrategy).value)
    else
      Ok(EthersClient(
        L1Url(args), args.rpcUrl,
        Cli.GatewayRegistryAddr(args), Cli.NetworkControllerAddr(args),
        Cli.WorkerRegistrationAddr(args), Cli.AllocationsViewerAddr(args),
        chain.defaultStrategy, Some(Cli.MulticallAddr(args))))
  }

  // Workers.

  /** Worker::new: decode the peer id and turn the on-chain sentinel 0 of
      `deregisteredAt` into None. */
  function NewWorker(decode: Bytes -> Option<PeerId>, raw: RawWorker, onchainId: U256): (r: Result<Worker, ClientError>)
    ensures r.Err? <==> decode(raw.peerId).None?
    ensures r.Err? ==> r.error == InvalidPeerId
    ensures r.Ok? ==>
              && r.value.peerId == decode(raw.peerId).value
              && r.value.onchainId == onchainId
              && r.value.address == raw.creator
              && r.value.bond == raw.bond
              && r.value.registeredAt == raw.registeredAt
              && (r.value.deregisteredAt.None? <==> raw.deregisteredAt == 0)
              && (r.value.deregisteredAt.Some? ==> r.value.deregisteredAt.value == raw.deregisteredAt > 0)
  {
    match decode(raw.peerId)
    case None => Err(InvalidPeerId)
    case Some(peerId) =>
      var deregisteredAt := if raw.deregisteredAt > 0 then Some(raw.deregisteredAt) else None;
      Ok(Worker(peerId, onchainId, raw.creator, raw.bond, raw.registeredAt, deregisteredAt))
  }

  /** The positions of the zipped lists, from `from` on, whose worker decodes,
      in increasing order. */
  function KeptPositions(decode: Bytes -> Option<PeerId>, raws: seq<RawWorker>, ids: seq<U256>, from: nat): (ps: seq<nat>)
    requires from <= Min(|raws|, |ids|)
    ensures forall k :: 0 <= k < |ps| ==> from <= ps[k] < Min(|raws|, |ids|) && decode(raws[ps[k]].peerId).Some?
    ensures forall i :: from <= i < Min(|raws|, |ids|) && decode(raws[i].peerId).Some? ==> i in ps
    ensures forall k, m :: 0 <= k < m < |ps| ==> ps[k] < ps[m]
    decreases Min(|raws|, |ids|) - from
  {
    if from == Min(|raws|, |ids|) then []
    else
      var rest := KeptPositions(decode, raws, ids, from + 1);
      if decode(raws[from].peerId).Some? then [from] + rest else rest
  }

  /** zip(workers, onchain_ids).filter_map(Worker::new), from position `from` on. */
  function AssembleFrom(decode: Bytes -> Option<PeerId>, raws: seq<RawWorker>, ids: seq<U256>, from: nat): seq<Worker>
    requires from <= Min(|raws|, |ids|)
    decreases Min(|raws|, |ids|) - from
  {
    if from == Min(|raws|, |ids|) then []
    else
      match NewWorker(decode, raws[from], ids[from])
      case Ok(w) => [w] + AssembleFrom(decode, raws, ids, from + 1)
      case Err(_) => AssembleFrom(decode, raws, ids, from + 1)
  }

  function AssembleWorkers(decode: Bytes -> Option<PeerId>, raws: seq<RawWorker>, ids: seq<U256>): seq<Worker> {
    AssembleFrom(decode, raws, ids, 0)
  }

  /** The assembled list is, in order, the workers at the kept positions, each
      built with the on-chain id at its own position. */
  lemma {:induction false} AssembleFromAligned(decode: Bytes -> Option<PeerId>, raws: seq<RawWorker>, ids: seq<U256>, from: nat)
    requires from <= Min(|raws|, |ids|)
    ensures var ws, ps := AssembleFrom(decode, raws, ids, from), KeptPositions(decode, raws, ids, from);
            && |ws| == |ps|
            && forall k :: 0 <= k < |ws| ==> Ok(ws[k]) == NewWorker(decode, raws[ps[k]], ids[ps[k]])
    decreases Min(|raws|, |ids|) - from
  {
    if from < Min(|raws|, |ids|) {
      AssembleFromAligned(decode, raws, ids, from + 1);
      var ws', ps' := AssembleFrom(decode, raws, ids, from + 1), KeptPositions(decode, raws, ids, from + 1);
      var head := NewWorker(decode, raws[from], ids[from]);
      if head.Ok? {
        assert AssembleFrom(decode, raws, ids, from) == [head.value] + ws';
        assert KeptPositions(decode, raws, ids, from) == [from] + ps';
        AlignedCons(decode, raws, ids, head.value, from, ws', ps');
      } else {
        assert AssembleFrom(decode, raws, ids, from) == ws';
        assert KeptPositions(decode, raws, ids, from) == ps';
      }
    }
  }

  /** Prepending a worker built at position `p` keeps a list of workers aligned
      with its list of positions. */
  lemma AlignedCons(decode: Bytes -> Option<PeerId>, raws: seq<RawWorker>, ids: seq<U256>,
                    w: Worker, p: nat, ws: seq<Worker>, ps: seq<nat>)
    requires p < |raws| && p < |ids| && NewWorker(decode, raws[p], ids[p]) == Ok(w)
    requires |ws| == |ps|
    requires forall k :: 0 <= k < |ps| ==> ps[k] < |raws| && ps[k] < |ids|
    requires forall k :: 0 <= k < |ws| ==> Ok(ws[k]) == NewWorker(decode, raws[ps[k]], ids[ps[k]])
    ensures |[w] + ws| == |[p] + ps|
    ensures forall k :: 0 <= k < |[w] + ws| ==>
              Ok(([w] + ws)[k]) == NewWorker(decode, raws[([p] + ps)[k]], ids[([p] + ps)[k]])
  {
    forall k | 0 <= k < |[w] + ws|
      ensures Ok(([w] + ws)[k]) == NewWorker(decode, raws[([p] + ps)[k]], ids[([p] + ps)[k]])
    {
      if k > 0 {
        assert ([w] + ws)[k] == ws[k - 1] && ([p] + ps)[k] == ps[k - 1];
      }
    }
  }

  /** active_workers' assembly: the output is the in-order subsequence of the
      zipped lists whose worker decodes, each worker carrying the on-chain id of
      its own position, and it is no longer than the shorter list. */
  lemma AssembleWorkersSpec(decode: Bytes -> Option<PeerId>, raws: seq<RawWorker>, ids: seq<U256>)
    ensures var ws, ps := AssembleWorkers(decode, raws, ids), KeptPositions(decode, raws, ids, 0);
            && |ws| == |ps| <= Min(|raws|, |ids|)
            && (forall k :: 0 <= k < |ws| ==>
                  && Ok(ws[k]) == NewWorker(decode, raws[ps[k]], ids[ps[k]])
                  && ws[k].onchainId == ids[ps[k]])
            && (forall i :: 0 <= i < Min(|raws|, |ids|) ==> (i in ps <==> decode(raws[i].peerId).Some?))
  {
    AssembleFromAligned(decode, raws, ids, 0);
    var ps := KeptPositions(decode, raws, ids, 0);
    StrictlyIncreasingBound(ps, Min(|raws|, |ids|));
  }

  /** A strictly increasing sequence of numbers below n has at most n elements. */
  lemma {:induction false} StrictlyIncreasingBound(ps: seq<nat>, n: nat)
    requires forall k :: 0 <= k < |ps| ==> ps[k] < n
    requires forall k, m :: 0 <= k < m < |ps| ==> ps[k] < ps[m]
    ensures |ps| <= n
  {
    if ps != [] {
      var last := ps[|ps| - 1];
      StrictlyIncreasingBound(ps[..|ps| - 1], last);
    }
  }

  /** The one batch active_workers sends: both listings in one multicall. */
  const ActiveWorkersCall: Call := Multicall([GetActiveWorkers, GetActiveWorkerIds])

  /** active_workers: one batched read of both lists, then the assembly; a
      worker whose peer id does not decode is dropped, never failing the call. */
  function ActiveWorkers(chain: Chain): (r: Result<seq<Worker>, ClientError>)
    ensures r.Err? <==> Failure(chain, ActiveWorkersCall).Some?
    ensures r.Err? ==> r.error == Failure(chain, ActiveWorkersCall).value
    ensures r.Ok? ==> r.value == AssembleWorkers(chain.decode, chain.activeWorkers, chain.activeWorkerIds)
  {
    match Failure(chain, ActiveWorkersCall)
    case Some(e) => Err(e)
    case None => Ok(AssembleWorkers(chain.decode, chain.activeWorkers, chain.activeWorkerIds))
  }

  /** No worker the client reports carries the raw sentinel 0 as its
      deregistration time. */
  lemma ActiveWorkersDeregisteredPositive(chain: Chain, w: Worker)
    requires ActiveWorkers(chain).Ok? && w in ActiveWorkers(chain).value
    ensures w.deregisteredAt.None? || w.deregisteredAt.value > 0
  {
    var ws := ActiveWorkers(chain).value;
    AssembleWorkersSpec(chain.decode, chain.activeWorkers, chain.activeWorkerIds);
    var k :| 0 <= k < |ws| && ws[k] == w;
  }

  // Single-call queries.

  /** worker_id: the registry's on-chain id for a peer (0 when unregistered). */
  function WorkerId(chain: Chain, peerId: PeerId): (r: Result<U256, ClientError>)
    ensures r.Err? <==> Failure(chain, WorkerIds(peerId.bytes)).Some?
    ensures r.Ok? ==> r.value == chain.workerIds(peerId.bytes)
  {
    match Failure(chain, WorkerIds(peerId.bytes))
    case Some(e) => Err(e)
    case None => Ok(chain.workerIds(peerId.bytes))
  }

  /** is_gateway_registered: true exactly when the gateway's operator is set. */
  function IsGatewayRegistered(chain: Chain, peerId: PeerId): (r: Result<bool, ClientError>)
    ensures r.Err? <==> Failure(chain, GetGateway(peerId.bytes)).Some?
    ensures r.Ok? ==> (r.value <==> chain.gatewayOperator(peerId.bytes) != ZERO_ADDRESS)
  {
    match Failure(chain, GetGateway(peerId.bytes))
    case Some(e) => Err(e)
    case None => Ok(chain.gatewayOperator(peerId.bytes) != ZERO_ADDRESS)
  }

  // Epochs.

  /** current_epoch, whose conversion to u32 the source asserts cannot fail. */
  function CurrentEpoch(chain: Chain): (r: Result<U32, ClientError>)
    requires Failure(chain, EpochNumber).None? ==> chain.epochNumber < 0x1_0000_0000
    ensures r.Err? <==> Failure(chain, EpochNumber).Some?
    ensures r.Ok? ==> r.value == chain.epochNumber
  {
    match Failure(chain, EpochNumber)
    case Some(e) => Err(e)
    case None => Ok(chain.epochNumber)
  }

  /** The block at which the current epoch started: the next epoch's first
      block less the epoch length, both in L1 block numbers. */
  function EpochStartBlock(chain: Chain): (b: nat)
    requires chain.nextEpoch >= chain.epochLength
    ensures b + chain.epochLength == chain.nextEpoch
  {
    chain.nextEpoch - chain.epochLength
  }

  /** What current_epoch_start assumes of the controller once both reads
      succeed: the subtraction does not underflow and the block fits u64. */
  predicate EpochStartInRange(chain: Chain) {
    Failure(chain, NextEpoch).None? && Failure(chain, EpochLength).None? ==>
      chain.nextEpoch >= chain.epochLength && chain.nextEpoch - chain.epochLength < TWO_64
  }

  /** current_epoch_start: read nextEpoch, then epochLength, then look the start
      block up on the client's L1 connection. */
  function CurrentEpochStart(chain: Chain, client: EthersClient): (r: Result<SystemTime, ClientError>)
    requires EpochStartInRange(chain)
    ensures Failure(chain, NextEpoch).Some? ==> r == Err(Failure(chain, NextEpoch).value)
    ensures Failure(chain, NextEpoch).None? && Failure(chain, EpochLength).Some? ==>
              r == Err(Failure(chain, EpochLength).value)
    ensures Failure(chain, NextEpoch).None? && Failure(chain, EpochLength).None? ==>
              var block := EpochStartBlock(chain);
              var lookup := GetBlock(client.l1Url, block);
              var blocks := chain.blockTimestamps(client.l1Url);
              && (Failure(chain, lookup).Some? ==> r == Err(Failure(chain, lookup).value))
              && (Failure(chain, lookup).None? && block !in blocks ==> r == Err(BlockNotFound))
              && (Failure(chain, lookup).None? && block in blocks ==> r == Ok(SinceUnixEpoch(blocks[block])))
  {
    if Failure(chain, NextEpoch).Some? then Err(Failure(chain, NextEpoch).value)
    else if Failure(chain, EpochLength).Some? then Err(Failure(chain, EpochLength).value)
    else
      var block := EpochStartBlock(chain);
      var lookup := GetBlock(client.l1Url, block);
      if Failure(chain, lookup).Some? then Err(Failure(chain, lookup).value)
      else if block !in chain.blockTimestamps(client.l1Url) then Err(BlockNotFound)
      else Ok(SinceUnixEpoch(chain.blockTimestamps(client.l1Url)[block]))
  }

  /** The requests current_epoch_start sends, in order, up to the first failure. */
  function EpochStartCalls(chain: Chain, client: EthersClient): (calls: seq<Call>)
    requires EpochStartInRange(chain)
    ensures 1 <= |calls| <= 3 && calls[0] == NextEpoch && (|calls| >= 2 ==> calls[1] == EpochLength)
    ensures |calls| == 3 <==> Failure(chain, NextEpoch).None? && Failure(chain, EpochLength).None?
    ensures |calls| == 3 ==> calls[2] == GetBlock(client.l1Url, chain.nextEpoch - chain.epochLength)
    ensures Failure(chain, NextEpoch).Some? ==> calls == [NextEpoch]
    ensures Failure(chain, NextEpoch).None? && Failure(chain, EpochLength).Some? ==> calls == [NextEpoch, EpochLength]
  {
    if Failure(chain, NextEpoch).Some? then [NextEpoch]
    else if Failure(chain, EpochLength).Some? then [NextEpoch, EpochLength]
    else [NextEpoch, EpochLength, GetBlock(client.l1Url, EpochStartBlock(chain))]
  }

  /** The requests and the result of current_epoch_start agree: every request
      but the last succeeds; a failing last request is the error returned, and
      otherwise all three requests were sent and the result is the lookup's, a
      timestamp or BlockNotFound. So the result is an error other than
      BlockNotFound exactly when the last request fails. */
  lemma EpochStartCallsMatchResult(chain: Chain, client: EthersClient)
    requires EpochStartInRange(chain)
    ensures var calls := EpochStartCalls(chain, client);
            var r := CurrentEpochStart(chain, client);
            var last := calls[|calls| - 1];
            && NoFailure(chain, calls[..|calls| - 1])
            && (Failure(chain, last).Some? ==> r == Err(Failure(chain, last).value))
            && (Failure(chain, last).None? ==> |calls| == 3 && NoFailure(chain, calls))
            && (r.Err? && r.error != BlockNotFound <==> Failure(chain, last).Some?)
  {
  }

  /** The epoch start depends on the L1 endpoint's blocks only: two chains that
      differ in what any other endpoint serves give the same answer. */
  lemma EpochStartReadsL1Only(chain: Chain, other: Chain, client: EthersClient)
    requires EpochStartInRange(chain)
    requires other == chain.(blockTimestamps := other.blockTimestamps)
    requires other.blockTimestamps(client.l1Url) == chain.blockTimestamps(client.l1Url)
    ensures EpochStartInRange(other)
    ensures CurrentEpochStart(other, client) == CurrentEpochStart(chain, client)
  {
  }

  /** When the controller says nextEpoch = 1000 and epochLength = 100, block 900
      is looked up on L1, and its absence is reported as BlockNotFound. */
  lemma EpochStartExample(chain: Chain, client: EthersClient)
    requires chain.nextEpoch == 1000 && chain.epochLength == 100
    requires forall c: Call :: chain.fault(c).None?
    ensures EpochStartInRange(chain)
    ensures EpochStartCalls(chain, client) == [NextEpoch, EpochLength, GetBlock(client.l1Url, 900)]
    ensures 900 !in chain.blockTimestamps(client.l1Url) ==> CurrentEpochStart(chain, client) == Err(BlockNotFound)
  {
  }

  /** Without an L1 URL the epoch start is looked up on the main connection. */
  lemma NoL1UrlReusesMainConnection(chain: Chain, args: Cli.RpcArgs)
    requires GetClient(chain, args).Ok? && args.l1RpcUrl.None?
    ensures GetClient(chain, args).value.l1Url == GetClient(chain, args).value.l2Url == args.rpcUrl
  {
  }
}
