# Contract client read model

The contract client of the subsquid network reads the network's registry
contracts: the worker and gateway registries, the network controller, the
allocations viewer and the reward strategies. This project models the client's
read logic against an abstract chain state and proves what each query returns.

- `Chain.Chain` is the abstract chain state. It holds:
  - whether each request fails, as a transport error or a revert;
  - the partial `PeerId` decoder;
  - the registry listings at each block;
  - the strategy's CU function;
  - the block timestamps each endpoint serves.
- Every RPC the client sends is a `Chain.Call` value. The paged readers and
  the allocation query return the requests they made, so request counts, the
  pinned block and "no request at all" can be stated.
- A multicall, sent with `allow_failure = false` on every sub-call, is a single
  `eth_call` that fails as a whole (`Chain.Failure`). A failure of the request
  itself gives its own error. A sub-call that would fail reverts the whole
  call, which is a contract error.

Modules:

- `Cli`: contract-address resolution, an explicit override or else the
  per-network default.
- `Client`: worker construction, active-worker assembly, the single-call
  queries, the epoch queries and client creation.
- `Gateways`: the paged `active_gateways` reader, written as a loop.
- `Clusters`: the paged `gateway_clusters` reader and its insert-or-append
  grouping. The grouping is defined twice: as the client's record-by-record
  fold (`Visit`, `Clustered`) and as an independent, per-operator definition
  (`Grouped`). A lemma proves the two equal.
- `Allocations`: `current_allocations`, with its empty, default-strategy and
  batched paths.
- `Membership`: one tick of `network_nodes_stream`, and a finite run of ticks.

## Model

| member | source | states |
|---|---|---|
| Cli.GatewayRegistryAddr | contract-client/src/cli.rs:27-31 | the explicit gateway-registry override when given, otherwise the selected network's default |
| Cli.WorkerRegistrationAddr | contract-client/src/cli.rs:33-37 | the explicit worker-registration override when given, otherwise the network default |
| Cli.NetworkControllerAddr | contract-client/src/cli.rs:39-43 | the explicit network-controller override when given, otherwise the network default |
| Cli.AllocationsViewerAddr | contract-client/src/cli.rs:45-49 | the explicit allocations-viewer override when given, otherwise the network default |
| Cli.MulticallAddr | contract-client/src/cli.rs:51-55 | the explicit multicall override when given, otherwise the network default |
| Cli.ResolvedIsOverrideOrDefault | contract-client/src/cli.rs:26-56 | for every contract, the resolved address is its override if present, else the default of `args.network` |
| Cli.OverrideIsIndependent | contract-client/src/cli.rs:26-70 | setting or clearing one contract's override leaves the resolved address of every other contract unchanged |
| Cli.MulticallDefaultIsCanonical | contract-client/src/cli.rs:108-113 | both networks default to the canonical multicall address 0xcA11bde05977b3631167028862bE2a173976CA11 |
| Cli.OtherDefaultsDiffer | contract-client/src/cli.rs:80-106 | for the four other contracts, the Tethys and Mainnet defaults are different addresses |
| Chain.MulticallAllOrNothing | contract-client/src/client.rs:216-219 | a batch succeeds iff the batch request and every sub-call succeed; a failing batch request reports its own error, and otherwise a failing sub-call reverts the batch as a ContractError |
| Chain.AnySubFaultSpec | contract-client/src/client.rs:216-219 | the batch sees a failing sub-call exactly when some sub-call in the list fails |
| Chain.FirstFailureUnique | contract-client/src/client.rs:243-257 | a sequence of requests cut short by `?` has one first failure, so the error it reports is determined |
| Chain.PageCountStop | contract-client/src/client.rs:245-258 | every page index within the listing is requested, and a page is shorter than the page size exactly when it is the last one requested |
| Chain.PagesStopAtFirstShortPage | contract-client/src/client.rs:252-257 | every requested page but the last holds exactly 10000 entries, and the last holds fewer |
| Chain.PagedPlanIsPinned | contract-client/src/client.rs:243-250 | a paged read starts with one block-number request; request k reads page k-1, at the block that request returned |
| Chain.ThreePageListing | contract-client/src/client.rs:23 | a listing of 24321 entries is read as pages of 10000, 10000 and 4321 entries, in 3 page requests |
| Chain.ShortFirstPage | contract-client/src/client.rs:255-257 | a listing whose first page is short is read with exactly one page request |
| Client.GetClient | contract-client/src/client.rs:116-166 | fails iff the L2 connect, the L1 connect (when an L1 URL is given) or the default-strategy read fails; on success it uses the L1 URL when given and otherwise the L2 URL, and it resolves every contract address through Cli |
| Client.NoL1UrlReusesMainConnection | contract-client/src/client.rs:118-123 | without an L1 URL, the client's L1 and L2 connections are both the main RPC URL |
| Client.NewWorker | contract-client/src/client.rs:50-61 | fails, with InvalidPeerId, exactly when the peer-id bytes do not decode; otherwise deregisteredAt is None iff the raw value is 0 and is the raw value otherwise, and the id, creator, bond and registration time are copied unchanged |
| Client.KeptPositions | contract-client/src/client.rs:221-231 | lists exactly the zipped positions whose worker decodes, strictly increasing |
| Client.AssembleWorkersSpec | contract-client/src/client.rs:221-231 | the assembled list is, in order, the workers at the positions that decode, each with the on-chain id at its own position, and it is no longer than the shorter input list |
| Client.ActiveWorkers | contract-client/src/client.rs:212-233 | fails iff the one batch of both listings fails; otherwise it returns the assembly, so an undecodable entry never fails the call |
| Client.ActiveWorkersDeregisteredPositive | contract-client/src/client.rs:52 | no reported worker carries the raw sentinel 0 as its deregistration time |
| Client.WorkerId | contract-client/src/client.rs:206-210 | on success, the registry's workerIds entry for the peer's bytes; an error otherwise |
| Client.IsGatewayRegistered | contract-client/src/client.rs:235-240 | on success, true exactly when the gateway's operator is not the zero address |
| Client.CurrentEpoch | contract-client/src/client.rs:179-188 | on success, the controller's epoch number, within u32 |
| Client.EpochStartBlock | contract-client/src/client.rs:193-195 | the start block plus the epoch length is the next epoch's start block |
| Client.CurrentEpochStart | contract-client/src/client.rs:190-204 | reports the nextEpoch error, then the epochLength error; otherwise looks block nextEpoch - epochLength up on the L1 endpoint; a missing block gives BlockNotFound, otherwise the result is UNIX_EPOCH plus that block's timestamp in seconds |
| Client.EpochStartCalls | contract-client/src/client.rs:191-202 | the requests are nextEpoch, then epochLength, then the L1 block lookup of nextEpoch - epochLength; a failing nextEpoch read is the only request, and a failing epochLength read ends the requests after two |
| Client.EpochStartCallsMatchResult | contract-client/src/client.rs:190-204 | every request but the last succeeds; a failing last request's error is the result, and otherwise all three requests were sent; the result is an error other than BlockNotFound exactly when the last request fails |
| Client.EpochStartReadsL1Only | contract-client/src/client.rs:197-202 | the result depends only on the blocks served by the client's L1 endpoint |
| Client.EpochStartExample | contract-client/src/client.rs:190-204 | with nextEpoch 1000 and epochLength 100, block 900 is looked up on L1, and its absence gives BlockNotFound |
| Gateways.DecodeAllSpec | contract-client/src/client.rs:254 | the decoded list holds exactly the peer ids of the ids that decode, and loses nothing when all decode |
| Gateways.DecodeAllConcat | contract-client/src/client.rs:244-254 | decoding page by page and concatenating gives the decoding of the whole listing |
| Gateways.ActiveGateways | contract-client/src/client.rs:242-260 | its requests are a non-empty prefix of the pinned, page-by-page plan; it succeeds iff no planned request fails, then makes exactly the planned requests and returns the ids of the whole listing that decode, in order; on failure every request before the last succeeded and the last one's error is returned |
| Gateways.GatewaysPlanLength | contract-client/src/client.rs:242-260 | with pages of GATEWAYS_PAGE_SIZE = 10000, the plan is one block-number request plus PageCount page requests: 4 requests for 24321 entries, 2 for a listing shorter than one page |
| Clusters.GroupedSkip | contract-client/src/client.rs:328-331 | a record whose gateway id does not decode leaves the clusters unchanged |
| Clusters.GroupedInsert | contract-client/src/client.rs:332-340 | a decodable record of a new operator creates its cluster with that record's CU figure and its one gateway id |
| Clusters.GroupedAppend | contract-client/src/client.rs:332-340 | a decodable record of a known operator appends its gateway id and keeps the cluster's CU figure, never summing it |
| Clusters.ClusteredIsGrouped | contract-client/src/client.rs:327-341 | the client's insert-if-absent-else-append fold over the records equals the per-operator grouping |
| Clusters.FirstAllocatedIsFirst | contract-client/src/client.rs:334-338 | an operator's CU figure is the allocated value of its first decodable record in visit order |
| Clusters.MemberIdsComplete | contract-client/src/client.rs:332-340 | every decodable record's gateway id is listed under its operator |
| Clusters.ClustersPerOperator | contract-client/src/client.rs:317-347 | exactly one cluster per operator owning a decodable record, and each decodable gateway id is in its operator's cluster |
| Clusters.SameOperatorExample | contract-client/src/client.rs:332-340 | two decodable records of one operator give one cluster listing both gateways, with the CU figure of the first |
| Clusters.GatewayClusters | contract-client/src/client.rs:314-348 | the same pinned, stop-on-short-page request plan and error behaviour as active_gateways; on success the clusters of the per-operator grouping of the worker's whole allocation listing |
| Clusters.ReadPage | contract-client/src/client.rs:319-345 | requests the given page at the pinned block and fails with that request's error; on success a full page extends the clusters to the listing up to the next page, and a short page completes the per-operator grouping of the whole listing |
| Clusters.VisitRecord | contract-client/src/client.rs:327-341 | one record's step of the client's fold: skipped when its gateway id does not decode, else inserted into or appended to its operator's cluster |
| Clusters.ClusteredSnoc | contract-client/src/client.rs:327-341 | folding one more record is one more visit, continuing from the clusters built so far |
| Clusters.VisitPage | contract-client/src/client.rs:327-341 | the per-page loop extends the fold by that page's records |
| Allocations.CurrentAllocations | contract-client/src/client.rs:262-312 | returns a worker-fetch error when fetching fails; an empty worker list returns [] without resolving the strategy; the default strategy costs exactly one CU query for the first worker and gives every worker that value; any other strategy sends one batch whose i-th sub-call queries worker i, and allocation i carries worker i's peer id, on-chain id and CU figure |
| Membership.NodesTick | contract-client/src/client.rs:102-113 | when the gateway read fails the tick yields the error of its first failing request and never sends the worker batch; when the worker read fails it yields that error; otherwise it yields exactly the active gateways together with the active workers' peer ids |
| Membership.NodesStream | contract-client/src/client.rs:102-113 | a run over successive chain states yields one item per tick, each as NodesTick states, so an error item does not end the stream |

## Left out

- The transport, the ethers provider and ABI encoding are left out. So are the `method("...")?` ABI lookups, whose only failure is a missing ABI entry. Replies are values of the chain state, and failures are `Chain.Failure`.
- `PeerId::from_bytes` (multihash decoding) is an abstract partial function, `Chain.decode`.
- Building the multicall (`self.multicall()`) can fail on its own, for example on a bad multicall address. That failure is folded into the fault of the batch request.
- Contract addresses do not influence the chain's answers: each contract's state is read directly, whatever address the client holds.
- Async execution, the interval timer, `IntervalStream` and `clone_client` are left out. The infinite stream is modelled as a finite run over given chain states (`Membership.NodesStream`).
- Client.CurrentEpoch: the `expect` on the u32 conversion is a precondition, not a modelled panic.
- Client.CurrentEpochStart: the `expect` on the U256 subtraction and the u64 conversion is a precondition, not a modelled panic. Block timestamps are typed U64, so the `as_u64` overflow panic is excluded, like the other expects.
- Clusters.GatewayClusters: it returns the set of cluster values, not a vector, because HashMap iteration order is unspecified. No information is lost, since each operator has one cluster (`Clusters.ClustersPerOperator`).
- Logging (`log::warn!`, `log::debug!`) is left out.
- The clap argument parsing and the environment-variable reading are left out, including the default `rpc_url`.
- The other crates of the repository (transport builder, bootnode, messages) are not part of this model.
