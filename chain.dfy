/** The chain as the contract client sees it: the RPC calls it can issue, the
    state those calls read, and the rules by which a call, a batch of calls or a
    page of a registry listing is answered. Everything the RPC endpoints and the
    contracts would compute is a field of `Chain`, so the client's operations are
    deterministic functions of one `Chain` value. */
module Chain {
  import opened Wrappers
  import opened EthTypes

  /** A worker record as WorkerRegistration.getActiveWorkers returns it. */
  datatype RawWorker = RawWorker(
    creator: Address,
    peerId: Bytes,
    bond: U256,
    registeredAt: U128,
    deregisteredAt: U128)

  /** An allocation record as AllocationsViewer.getAllocations returns it. */
  datatype AllocationRecord = AllocationRecord(
    gatewayId: Bytes,
    allocatedUnits: U256,
    operator: Address)

  /** The listings that are read page by page. */
  datatype PagedListing =
    | ActiveGatewayListing
    | AllocationListing(workerId: U256)

  /** One request sent over an RPC connection. Contract reads go to the L2
      connection; `GetBlock` names the endpoint it is sent to. */
  datatype Call =
    | Connect(url: string)
    | DefaultStrategy
    | EpochNumber
    | NextEpoch
    | EpochLength
    | GetBlock(url: string, number: nat)
    | GetBlockNumber
    | WorkerIds(peerId: Bytes)
    | GetActiveWorkers
    | GetActiveWorkerIds
    | GetGateway(gatewayId: Bytes)
    | GetActiveGateways(block: nat, page: nat, size: nat)
    | GetAllocations(workerId: U256, block: nat, page: nat, size: nat)
    | GetUsedStrategy(gatewayId: Bytes)
    | ComputationUnitsPerEpoch(strategy: Address, gatewayId: Bytes, workerId: U256)
    | Multicall(calls: seq<Call>)

  /** How a single request can fail: the transport, or the contract reverting. */
  datatype CallFailure = Transport | Revert

  datatype ClientError =
    | RpcError
    | ContractError
    | InvalidPeerId
    | BlockNotFound

  datatype Chain = Chain(
    /** Which requests fail, and how. */
    fault: Call -> Option<CallFailure>,
    /** PeerId::from_bytes: a partial decoder. */
    decode: Bytes -> Option<PeerId>,
    /** GatewayRegistry.defaultStrategy. */
    defaultStrategy: Address,
    /** NetworkController.epochNumber, nextEpoch and epochLength. */
    epochNumber: U256,
    nextEpoch: U256,
    epochLength: U256,
    /** The block timestamps each endpoint serves, by endpoint URL. */
    blockTimestamps: string -> map<nat, U64>,
    /** The latest L2 block number. */
    latestBlock: nat,
    /** WorkerRegistration.workerIds. */
    workerIds: Bytes -> U256,
    /** WorkerRegistration.getActiveWorkers and getActiveWorkerIds. */
    activeWorkers: seq<RawWorker>,
    activeWorkerIds: seq<U256>,
    /** The operator field of GatewayRegistry.getGateway. */
    gatewayOperator: Bytes -> Address,
    /** The complete active-gateway listing at a block. */
    activeGatewayIds: nat -> seq<Bytes>,
    /** The complete allocation listing of a worker at a block. */
    allocations: (U256, nat) -> seq<AllocationRecord>,
    /** GatewayRegistry.getUsedStrategy. */
    usedStrategy: Bytes -> Address,
    /** Strategy.computationUnitsPerEpoch at a strategy address. */
    computationUnits: (Address, Bytes, U256) -> U256)

  function ErrorOf(f: CallFailure): ClientError {
    match f
    case Transport => RpcError
    case Revert => ContractError
  }

  /** Whether some sub-call of a batch would fail. */
  function AnySubFault(chain: Chain, calls: seq<Call>): bool {
    if calls == [] then false
    else chain.fault(calls[0]).Some? || AnySubFault(chain, calls[1..])
  }

  /** The error a request yields, if any. A multicall is one eth_call whose
      sub-calls are added with allow_failure = false: it fails with its own
      error when the request itself fails, and is reverted as a whole, a
      contract error, when any of its sub-calls would fail. */
  function Failure(chain: Chain, c: Call): Option<ClientError> {
    match c
    case Multicall(calls) =>
      if chain.fault(c).Some? then Some(ErrorOf(chain.fault(c).value))
      else if AnySubFault(chain, calls) then Some(ContractError)
      else None
    case _ =>
      if chain.fault(c).Some? then Some(ErrorOf(chain.fault(c).value)) else None
  }

  ghost predicate NoFailure(chain: Chain, calls: seq<Call>) {
    forall i :: 0 <= i < |calls| ==> Failure(chain, calls[i]).None?
  }

  /** A batch is all-or-nothing: it succeeds exactly when the batch request and
      every one of its sub-calls succeed; a failing sub-call reverts the whole
      batch, which then reports a contract error. */
  lemma MulticallAllOrNothing(chain: Chain, calls: seq<Call>)
    ensures Failure(chain, Multicall(calls)).None? <==>
              chain.fault(Multicall(calls)).None? && forall i :: 0 <= i < |calls| ==> chain.fault(calls[i]).None?
    ensures chain.fault(Multicall(calls)).Some? ==>
              Failure(chain, Multicall(calls)) == Some(ErrorOf(chain.fault(Multicall(calls)).value))
    ensures chain.fault(Multicall(calls)).None? && (exists i :: 0 <= i < |calls| && chain.fault(calls[i]).Some?) ==>
              Failure(chain, Multicall(calls)) == Some(ContractError)
  {
    AnySubFaultSpec(chain, calls);
  }

  lemma {:induction false} AnySubFaultSpec(chain: Chain, calls: seq<Call>)
    ensures AnySubFault(chain, calls) <==> exists i :: 0 <= i < |calls| && chain.fault(calls[i]).Some?
  {
    if calls != [] {
      AnySubFaultSpec(chain, calls[1..]);
      assert forall i :: 1 <= i < |calls| ==> calls[i] == calls[1..][i - 1];
      if chain.fault(calls[0]).None? && !AnySubFault(chain, calls[1..]) {
        forall i | 0 <= i < |calls| ensures chain.fault(calls[i]).None? {
          if i > 0 {
            assert calls[i] == calls[1..][i - 1];
          }
        }
      }
    }
  }

  /** The first failing request of `calls` fails with `e`: every request
      before it succeeds. */
  ghost predicate FirstFailureIs(chain: Chain, calls: seq<Call>, e: ClientError) {
    exists k :: 0 <= k < |calls| && NoFailure(chain, calls[..k]) && Failure(chain, calls[k]) == Some(e)
  }

  /** The first failure of a sequence of requests is well defined: it names one
      error only, and a sequence with a failing request has one. */
  lemma FirstFailureUnique(chain: Chain, calls: seq<Call>, e1: ClientError, e2: ClientError)
    requires FirstFailureIs(chain, calls, e1) && FirstFailureIs(chain, calls, e2)
    ensures e1 == e2
  {
    var k1 :| 0 <= k1 < |calls| && NoFailure(chain, calls[..k1]) && Failure(chain, calls[k1]) == Some(e1);
    var k2 :| 0 <= k2 < |calls| && NoFailure(chain, calls[..k2]) && Failure(chain, calls[k2]) == Some(e2);
    NoFailureBefore(chain, calls, k2, k1);
    NoFailureBefore(chain, calls, k1, k2);
  }

  lemma NoFailureBefore(chain: Chain, calls: seq<Call>, k: nat, j: nat)
    requires k <= |calls| && NoFailure(chain, calls[..k])
    ensures j < k ==> Failure(chain, calls[j]).None?
  {
    assert j < k ==> calls[..k][j] == calls[j];
  }

  /** A prefix of a plan whose last request fails gives the first failure of
      the plan. */
  lemma FirstFailureOfPrefix(chain: Chain, calls: seq<Call>, plan: seq<Call>)
    requires calls != [] && calls <= plan
    requires NoFailure(chain, calls[..|calls| - 1]) && Failure(chain, calls[|calls| - 1]).Some?
    ensures FirstFailureIs(chain, plan, Failure(chain, calls[|calls| - 1]).value)
  {
    var k := |calls| - 1;
    assert plan[..k] == calls[..k];
    assert plan[k] == calls[k];
  }

  // Pagination: a listing is served in pages of GATEWAYS_PAGE_SIZE entries.

  const PAGE_SIZE: nat := 10000

  function Min(a: nat, b: nat): nat {
    if a <= b then a else b
  }

  /** Page `i` of a listing: entries i*PAGE_SIZE up to (but excluding)
      (i+1)*PAGE_SIZE, cut off at the end of the listing. */
  function Page<T>(l: seq<T>, i: nat): (p: seq<T>)
    ensures |p| <= PAGE_SIZE
    ensures i * PAGE_SIZE <= |l| ==> |p| == Min(PAGE_SIZE, |l| - i * PAGE_SIZE)
    ensures i * PAGE_SIZE <= |l| ==> l[..Min((i + 1) * PAGE_SIZE, |l|)] == l[..i * PAGE_SIZE] + p
  {
    l[Min(i * PAGE_SIZE, |l|)..Min((i + 1) * PAGE_SIZE, |l|)]
  }

  /** How many pages a reader that stops at the first page shorter than
      PAGE_SIZE requests from a listing of `len` entries. */
  function PageCount(len: nat): (n: nat)
    ensures n >= 1
  {
    if len < PAGE_SIZE then 1 else 1 + PageCount(len - PAGE_SIZE)
  }

  /** The stop rule: a page index within the listing is below PageCount, and its
      page is short exactly when it is the last one requested. */
  lemma {:induction false} PageCountStop(len: nat, i: nat)
    requires i * PAGE_SIZE <= len
    ensures i < PageCount(len)
    ensures len < (i + 1) * PAGE_SIZE <==> i == PageCount(len) - 1
  {
    if i > 0 {
      PageCountStop(len - PAGE_SIZE, i - 1);
    }
  }

  /** The last page requested starts within the listing. */
  lemma {:induction false} LastPageInRange(len: nat)
    ensures (PageCount(len) - 1) * PAGE_SIZE <= len < PageCount(len) * PAGE_SIZE
  {
    if len >= PAGE_SIZE {
      LastPageInRange(len - PAGE_SIZE);
    }
  }

  /** Every page but the last one requested is full, and the last one is short. */
  lemma PagesStopAtFirstShortPage<T>(l: seq<T>, i: nat)
    requires i < PageCount(|l|)
    ensures i < PageCount(|l|) - 1 ==> |Page(l, i)| == PAGE_SIZE
    ensures i == PageCount(|l|) - 1 ==> |Page(l, i)| < PAGE_SIZE
  {
    LastPageInRange(|l|);
    assert i * PAGE_SIZE <= (PageCount(|l|) - 1) * PAGE_SIZE;
    PageCountStop(|l|, i);
  }

  /** The request for page `i` of a listing at a block. */
  function PageCall(listing: PagedListing, block: nat, i: nat): Call {
    match listing
    case ActiveGatewayListing => GetActiveGateways(block, i, PAGE_SIZE)
    case AllocationListing(w) => GetAllocations(w, block, i, PAGE_SIZE)
  }

  /** The requests for pages 0, 1, ..., n - 1 of a listing at one block. */
  function PageCalls(listing: PagedListing, block: nat, n: nat): (calls: seq<Call>)
    ensures |calls| == n
    ensures forall i :: 0 <= i < n ==> calls[i] == PageCall(listing, block, i)
  {
    if n == 0 then [] else PageCalls(listing, block, n - 1) + [PageCall(listing, block, n - 1)]
  }

  /** Requesting fewer pages issues a prefix of the requests for more pages. */
  lemma PageCallsPrefix(listing: PagedListing, block: nat, k: nat, n: nat)
    requires k <= n
    ensures PageCalls(listing, block, k) == PageCalls(listing, block, n)[..k]
  {
  }

  /** What a paged reader issues: one block-number request, then the page
      requests of PageCount pages, all at the block that request returned. */
  function PagedPlan(chain: Chain, listing: PagedListing, len: nat): seq<Call> {
    [GetBlockNumber] + PageCalls(listing, chain.latestBlock, PageCount(len))
  }

  /** One step of a paged reader: after the requests for pages 0 .. page - 1,
      the request for `page` extends them within the plan, and completes the
      plan when that page is the last one. */
  lemma PagedStep(chain: Chain, listing: PagedListing, len: nat, page: nat)
    requires page * PAGE_SIZE <= len
    ensures var after := [GetBlockNumber] + PageCalls(listing, chain.latestBlock, page + 1);
            && after == [GetBlockNumber] + PageCalls(listing, chain.latestBlock, page) + [PageCall(listing, chain.latestBlock, page)]
            && after <= PagedPlan(chain, listing, len)
            && (len < (page + 1) * PAGE_SIZE ==> after == PagedPlan(chain, listing, len))
  {
    PageCountStop(len, page);
    PageCallsPrefix(listing, chain.latestBlock, page + 1, PageCount(len));
  }

  /** Reading page `page` after the pages before it extends the prefix read
      so far by one full page, or completes the listing when the page is short. */
  lemma PageExtendsPrefix<T>(l: seq<T>, page: nat)
    requires page * PAGE_SIZE <= |l|
    ensures |Page(l, page)| == PAGE_SIZE ==>
              (page + 1) * PAGE_SIZE <= |l| && l[..page * PAGE_SIZE] + Page(l, page) == l[..(page + 1) * PAGE_SIZE]
    ensures |Page(l, page)| < PAGE_SIZE ==> l[..page * PAGE_SIZE] + Page(l, page) == l
  {
    if |Page(l, page)| < PAGE_SIZE {
      assert l[..Min((page + 1) * PAGE_SIZE, |l|)] == l;
    }
  }

  /** Requests that succeed one by one succeed together. */
  lemma NoFailureSnoc(chain: Chain, calls: seq<Call>, c: Call)
    requires NoFailure(chain, calls) && Failure(chain, c).None?
    ensures NoFailure(chain, calls + [c])
  {
  }

  /** A failing request in a prefix of a plan is a failing request of the plan. */
  lemma FailureInPlan(chain: Chain, calls: seq<Call>, plan: seq<Call>)
    requires calls != [] && calls <= plan && Failure(chain, calls[|calls| - 1]).Some?
    ensures !NoFailure(chain, plan)
  {
    assert plan[|calls| - 1] == calls[|calls| - 1];
  }

  /** Every request of a paged read after the first is pinned to the block the
      first one returned, and the page indices run 0, 1, 2, ... */
  lemma PagedPlanIsPinned(chain: Chain, listing: PagedListing, len: nat, k: nat)
    requires 1 <= k < |PagedPlan(chain, listing, len)|
    ensures PagedPlan(chain, listing, len)[0] == GetBlockNumber
    ensures PagedPlan(chain, listing, len)[k] == PageCall(listing, chain.latestBlock, k - 1)
    ensures PagedPlan(chain, listing, len)[k].block == chain.latestBlock
  {
  }

  /** A listing of 24321 entries is read as pages of 10000, 10000 and 4321
      entries: three page requests after the block-number request. */
  lemma ThreePageListing<T>(l: seq<T>)
    requires |l| == 24321
    ensures PageCount(|l|) == 3
    ensures |Page(l, 0)| == 10000 && |Page(l, 1)| == 10000 && |Page(l, 2)| == 4321
  {
    assert PageCount(4321) == 1;
    assert PageCount(14321) == 2;
  }

  /** A listing whose first page is short is read with exactly one page request. */
  lemma ShortFirstPage<T>(l: seq<T>)
    requires |Page(l, 0)| < PAGE_SIZE
    ensures PageCount(|l|) == 1
  {
  }
}
