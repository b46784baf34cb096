/** gateway_clusters: the allocation-viewer listing of one worker is read page
    by page at a pinned block, and its records are grouped by operator with
    "insert if absent, else append": the first record of an operator creates the
    cluster with that record's CU figure, later ones only add their gateway id.
    Records whose gateway id does not decode are skipped. */
module Clusters {
  import opened Wrappers
  import opened EthTypes
  import opened Chain
  import opened Client

  // The grouping, stated record by record.

  /** The operators that own at least one record whose gateway id decodes. */
  function Operators(decode: Bytes -> Option<PeerId>, recs: seq<AllocationRecord>): set<Address> {
    set a | a in recs && decode(a.gatewayId).Some? :: a.operator
  }

  /** The decoded gateway ids of operator `o`'s records, in visit order. */
  function MemberIds(decode: Bytes -> Option<PeerId>, recs: seq<AllocationRecord>, o: Address): seq<PeerId> {
    if recs == [] then []
    else
      var head := if recs[0].operator == o && decode(recs[0].gatewayId).Some?
                  then [decode(recs[0].gatewayId).value] else [];
      head + MemberIds(decode, recs[1..], o)
  }

  /** The CU figure of the first decodable record of operator `o`. */
  function FirstAllocated(decode: Bytes -> Option<PeerId>, recs: seq<AllocationRecord>, o: Address): U256
    requires o in Operators(decode, recs)
  {
    if recs[0].operator == o && decode(recs[0].gatewayId).Some? then recs[0].allocatedUnits
    else
      assert o in Operators(decode, recs[1..]) by {
        var a :| a in recs && decode(a.gatewayId).Some? && a.operator == o;
        assert a != recs[0];
        assert a in recs[1..];
      }
      FirstAllocated(decode, recs[1..], o)
  }

  /** The clusters by operator: one per operator that owns a decodable record,
      listing its gateways in visit order, with its first record's CU figure. */
  function Grouped(decode: Bytes -> Option<PeerId>, recs: seq<AllocationRecord>): map<Address, GatewayCluster> {
    map o | o in Operators(decode, recs) ::
      GatewayCluster(o, MemberIds(decode, recs, o), FirstAllocated(decode, recs, o))
  }

  // How the grouping grows by one record.

  /** The operators of a concatenation are those of its two parts. */
  lemma OperatorsConcat(decode: Bytes -> Option<PeerId>, xs: seq<AllocationRecord>, ys: seq<AllocationRecord>)
    ensures Operators(decode, xs + ys) == Operators(decode, xs) + Operators(decode, ys)
  {
    forall o | o in Operators(decode, xs + ys) ensures o in Operators(decode, xs) + Operators(decode, ys) {
      var b :| b in xs + ys && decode(b.gatewayId).Some? && b.operator == o;
      if b in xs {
        assert o in Operators(decode, xs);
      } else {
        assert b in ys;
      }
    }
    forall o | o in Operators(decode, xs) ensures o in Operators(decode, xs + ys) {
      var b :| b in xs && decode(b.gatewayId).Some? && b.operator == o;
      assert b in xs + ys;
    }
    forall o | o in Operators(decode, ys) ensures o in Operators(decode, xs + ys) {
      var b :| b in ys && decode(b.gatewayId).Some? && b.operator == o;
      assert b in xs + ys;
    }
  }

  lemma OperatorsSnoc(decode: Bytes -> Option<PeerId>, xs: seq<AllocationRecord>, a: AllocationRecord)
    ensures Operators(decode, xs + [a]) ==
              Operators(decode, xs) + (if decode(a.gatewayId).Some? then {a.operator} else {})
  {
    OperatorsConcat(decode, xs, [a]);
    assert Operators(decode, [a]) == (if decode(a.gatewayId).Some? then {a.operator} else {});
  }

  lemma OperatorsTail(decode: Bytes -> Option<PeerId>, recs: seq<AllocationRecord>)
    requires recs != []
    ensures Operators(decode, recs[1..]) <= Operators(decode, recs)
  {
    assert recs == [recs[0]] + recs[1..];
    OperatorsConcat(decode, [recs[0]], recs[1..]);
  }

  lemma {:induction false} MemberIdsSnoc(decode: Bytes -> Option<PeerId>, xs: seq<AllocationRecord>, a: AllocationRecord, o: Address)
    ensures MemberIds(decode, xs + [a], o) ==
              MemberIds(decode, xs, o) +
              (if a.operator == o && decode(a.gatewayId).Some? then [decode(a.gatewayId).value] else [])
  {
    if xs == [] {
      assert MemberIds(decode, [a][1..], o) == [];
    } else {
      var head := if xs[0].operator == o && decode(xs[0].gatewayId).Some?
                  then [decode(xs[0].gatewayId).value] else [];
      var last := if a.operator == o && decode(a.gatewayId).Some? then [decode(a.gatewayId).value] else [];
      assert (xs + [a])[0] == xs[0];
      assert (xs + [a])[1..] == xs[1..] + [a];
      MemberIdsSnoc(decode, xs[1..], a, o);
      assert MemberIds(decode, xs + [a], o) == head + (MemberIds(decode, xs[1..], o) + last);
      assert MemberIds(decode, xs, o) == head + MemberIds(decode, xs[1..], o);
      assert head + (MemberIds(decode, xs[1..], o) + last) == (head + MemberIds(decode, xs[1..], o)) + last;
    }
  }

  lemma {:induction false} FirstAllocatedSnoc(decode: Bytes -> Option<PeerId>, xs: seq<AllocationRecord>, a: AllocationRecord, o: Address)
    requires o in Operators(decode, xs)
    ensures o in Operators(decode, xs + [a])
    ensures FirstAllocated(decode, xs + [a], o) == FirstAllocated(decode, xs, o)
  {
    OperatorsSnoc(decode, xs, a);
    if !(xs[0].operator == o && decode(xs[0].gatewayId).Some?) {
      var b :| b in xs && decode(b.gatewayId).Some? && b.operator == o;
      assert b in xs[1..];
      assert (xs + [a])[1..] == xs[1..] + [a];
      FirstAllocatedSnoc(decode, xs[1..], a, o);
    }
  }

  lemma {:induction false} FirstAllocatedNew(decode: Bytes -> Option<PeerId>, xs: seq<AllocationRecord>, a: AllocationRecord)
    requires a.operator !in Operators(decode, xs) && decode(a.gatewayId).Some?
    ensures a.operator in Operators(decode, xs + [a])
    ensures FirstAllocated(decode, xs + [a], a.operator) == a.allocatedUnits
  {
    OperatorsSnoc(decode, xs, a);
    if xs != [] {
      assert xs[0] in xs;
      OperatorsTail(decode, xs);
      assert (xs + [a])[1..] == xs[1..] + [a];
      FirstAllocatedNew(decode, xs[1..], a);
    }
  }

  /** A record whose gateway id does not decode leaves the clusters as they are. */
  lemma GroupedSkip(decode: Bytes -> Option<PeerId>, xs: seq<AllocationRecord>, a: AllocationRecord)
    requires decode(a.gatewayId).None?
    ensures Grouped(decode, xs + [a]) == Grouped(decode, xs)
  {
    var before, after := Grouped(decode, xs), Grouped(decode, xs + [a]);
    OperatorsSnoc(decode, xs, a);
    forall o | o in after ensures after[o] == before[o] {
      MemberIdsSnoc(decode, xs, a, o);
      FirstAllocatedSnoc(decode, xs, a, o);
    }
  }

  /** A decodable record of a new operator creates its cluster, carrying the
      record's CU figure and its one gateway id. */
  lemma GroupedInsert(decode: Bytes -> Option<PeerId>, xs: seq<AllocationRecord>, a: AllocationRecord)
    requires decode(a.gatewayId).Some? && a.operator !in Grouped(decode, xs)
    ensures Grouped(decode, xs + [a]) ==
              Grouped(decode, xs)[a.operator := GatewayCluster(a.operator, [decode(a.gatewayId).value], a.allocatedUnits)]
  {
    var before, after := Grouped(decode, xs), Grouped(decode, xs + [a]);
    var expected := before[a.operator := GatewayCluster(a.operator, [decode(a.gatewayId).value], a.allocatedUnits)];
    OperatorsSnoc(decode, xs, a);
    forall o | o in after ensures after[o] == expected[o] {
      MemberIdsSnoc(decode, xs, a, o);
      if o == a.operator {
        FirstAllocatedNew(decode, xs, a);
        MemberIdsEmpty(decode, xs, a.operator);
      } else {
        FirstAllocatedSnoc(decode, xs, a, o);
      }
    }
    assert after.Keys == expected.Keys;
  }

  /** A decodable record of a known operator appends its gateway id to that
      operator's cluster and keeps the cluster's CU figure. */
  lemma GroupedAppend(decode: Bytes -> Option<PeerId>, xs: seq<AllocationRecord>, a: AllocationRecord)
    requires decode(a.gatewayId).Some? && a.operator in Grouped(decode, xs)
    ensures var before := Grouped(decode, xs);
            Grouped(decode, xs + [a]) ==
              before[a.operator := before[a.operator].(gatewayIds := before[a.operator].gatewayIds + [decode(a.gatewayId).value])]
  {
    var before, after := Grouped(decode, xs), Grouped(decode, xs + [a]);
    var expected := before[a.operator := before[a.operator].(gatewayIds := before[a.operator].gatewayIds + [decode(a.gatewayId).value])];
    OperatorsSnoc(decode, xs, a);
    forall o | o in after ensures after[o] == expected[o] {
      MemberIdsSnoc(decode, xs, a, o);
      FirstAllocatedSnoc(decode, xs, a, o);
    }
    assert after.Keys == expected.Keys;
  }

  /** An operator without decodable records has no member ids. */
  lemma {:induction false} MemberIdsEmpty(decode: Bytes -> Option<PeerId>, recs: seq<AllocationRecord>, o: Address)
    requires o !in Operators(decode, recs)
    ensures MemberIds(decode, recs, o) == []
  {
    if recs != [] {
      assert recs[0] in recs;
      OperatorsTail(decode, recs);
      MemberIdsEmpty(decode, recs[1..], o);
    }
  }

  // The grouping as the client computes it, record by record.

  /** One step of the client's loop: a record whose gateway id decodes creates
      its operator's cluster with the record's CU figure when absent, and in
      both cases appends the gateway id; any other record is skipped. */
  function Visit(decode: Bytes -> Option<PeerId>, clusters: map<Address, GatewayCluster>, a: AllocationRecord)
    : map<Address, GatewayCluster>
  {
    match decode(a.gatewayId)
    case None => clusters
    case Some(p) =>
      var c := if a.operator in clusters then clusters[a.operator]
               else GatewayCluster(a.operator, [], a.allocatedUnits);
      clusters[a.operator := c.(gatewayIds := c.gatewayIds + [p])]
  }

  /** The client's loop over the records in visit order, from no clusters. */
  function Clustered(decode: Bytes -> Option<PeerId>, recs: seq<AllocationRecord>): map<Address, GatewayCluster> {
    if recs == [] then map[]
    else Visit(decode, Clustered(decode, recs[..|recs| - 1]), recs[|recs| - 1])
  }

  /** The fold grows by one Visit per record. */
  lemma ClusteredSnoc(decode: Bytes -> Option<PeerId>, xs: seq<AllocationRecord>, a: AllocationRecord)
    ensures Clustered(decode, xs + [a]) == Visit(decode, Clustered(decode, xs), a)
  {
    assert (xs + [a])[..|xs|] == xs;
  }

  /** One step of the per-page loop, at position j of the page. */
  lemma ClusteredStep(decode: Bytes -> Option<PeerId>, seen: seq<AllocationRecord>, allocations: seq<AllocationRecord>, j: nat)
    requires j < |allocations|
    ensures Clustered(decode, seen + allocations[..j + 1]) ==
              Visit(decode, Clustered(decode, seen + allocations[..j]), allocations[j])
  {
    assert seen + allocations[..j + 1] == (seen + allocations[..j]) + [allocations[j]];
    ClusteredSnoc(decode, seen + allocations[..j], allocations[j]);
  }

  /** The loop computes the grouping: insert-if-absent-else-append over the
      records yields exactly one cluster per operator with its gateways in visit
      order and its first record's CU figure. */
  lemma {:induction false} ClusteredIsGrouped(decode: Bytes -> Option<PeerId>, recs: seq<AllocationRecord>)
    ensures Clustered(decode, recs) == Grouped(decode, recs)
  {
    if recs == [] {
      assert Operators(decode, recs) == {};
    } else {
      var xs, a := recs[..|recs| - 1], recs[|recs| - 1];
      assert recs == xs + [a];
      ClusteredIsGrouped(decode, xs);
      if decode(a.gatewayId).None? {
        GroupedSkip(decode, xs, a);
      } else if a.operator !in Grouped(decode, xs) {
        GroupedInsert(decode, xs, a);
        assert [] + [decode(a.gatewayId).value] == [decode(a.gatewayId).value];
      } else {
        GroupedAppend(decode, xs, a);
      }
    }
  }

  // Properties of the grouping.

  /** The CU figure of a cluster is that of the first decodable record of its
      operator in visit order; later records never change or add to it. */
  lemma {:induction false} FirstAllocatedIsFirst(decode: Bytes -> Option<PeerId>, recs: seq<AllocationRecord>, i: nat)
    requires i < |recs| && decode(recs[i].gatewayId).Some?
    requires forall j :: 0 <= j < i ==> !(recs[j].operator == recs[i].operator && decode(recs[j].gatewayId).Some?)
    ensures recs[i].operator in Operators(decode, recs)
    ensures FirstAllocated(decode, recs, recs[i].operator) == recs[i].allocatedUnits
  {
    assert recs[i] in recs;
    if i > 0 {
      assert recs[1..][i - 1] == recs[i];
      FirstAllocatedIsFirst(decode, recs[1..], i - 1);
    }
  }

  /** Every decodable record's gateway is listed in its operator's cluster. */
  lemma {:induction false} MemberIdsComplete(decode: Bytes -> Option<PeerId>, recs: seq<AllocationRecord>, i: nat)
    requires i < |recs| && decode(recs[i].gatewayId).Some?
    ensures decode(recs[i].gatewayId).value in MemberIds(decode, recs, recs[i].operator)
  {
    if i > 0 {
      assert recs[1..][i - 1] == recs[i];
      MemberIdsComplete(decode, recs[1..], i - 1);
    }
  }

  /** Exactly one cluster per operator owning a decodable record, each under its
      own operator, holding every decodable gateway id of that operator. */
  lemma ClustersPerOperator(decode: Bytes -> Option<PeerId>, recs: seq<AllocationRecord>)
    ensures (set c | c in Grouped(decode, recs).Values :: c.operatorAddr) == Operators(decode, recs)
    ensures forall c1, c2 :: (c1 in Grouped(decode, recs).Values && c2 in Grouped(decode, recs).Values &&
              c1.operatorAddr == c2.operatorAddr) ==> c1 == c2
    ensures forall i :: 0 <= i < |recs| && decode(recs[i].gatewayId).Some? ==>
              exists c :: c in Grouped(decode, recs).Values && c.operatorAddr == recs[i].operator &&
                decode(recs[i].gatewayId).value in c.gatewayIds
  {
    var g := Grouped(decode, recs);
    forall o | o in Operators(decode, recs) ensures o in (set c | c in g.Values :: c.operatorAddr) {
      assert g[o] in g.Values;
    }
    forall i | 0 <= i < |recs| && decode(recs[i].gatewayId).Some?
      ensures exists c :: c in g.Values && c.operatorAddr == recs[i].operator &&
                decode(recs[i].gatewayId).value in c.gatewayIds
    {
      assert recs[i] in recs;
      MemberIdsComplete(decode, recs, i);
      assert g[recs[i].operator] in g.Values;
    }
  }

  /** Two decodable records of one operator with different gateways give one
      cluster listing both gateways, with the CU figure of the one visited first. */
  lemma SameOperatorExample(decode: Bytes -> Option<PeerId>, a: AllocationRecord, b: AllocationRecord)
    requires a.operator == b.operator && a.gatewayId != b.gatewayId
    requires decode(a.gatewayId).Some? && decode(b.gatewayId).Some?
    ensures Grouped(decode, [a, b]).Keys == {a.operator}
    ensures Grouped(decode, [a, b])[a.operator] ==
              GatewayCluster(a.operator, [decode(a.gatewayId).value, decode(b.gatewayId).value], a.allocatedUnits)
  {
    assert Grouped(decode, []) == map[];
    assert [] + [a] == [a];
    GroupedInsert(decode, [], a);
    assert [a] + [b] == [a, b];
    GroupedAppend(decode, [a], b);
  }

  // The paged reader.

  /** The allocation listing of a worker at the chain's latest block. */
  function Records(chain: Chain, workerId: U256): seq<AllocationRecord> {
    chain.allocations(workerId, chain.latestBlock)
  }

  /** The requests gateway_clusters issues when none of them fails. */
  function ClustersPlan(chain: Chain, workerId: U256): seq<Call> {
    PagedPlan(chain, AllocationListing(workerId), |Records(chain, workerId)|)
  }

  method GatewayClusters(chain: Chain, workerId: U256) returns (r: Result<set<GatewayCluster>, ClientError>, calls: seq<Call>)
    ensures calls != [] && calls <= ClustersPlan(chain, workerId)
    ensures r.Ok? <==> NoFailure(chain, ClustersPlan(chain, workerId))
    ensures r.Ok? ==> calls == ClustersPlan(chain, workerId)
    ensures r.Ok? ==> r.value == Grouped(chain.decode, Records(chain, workerId)).Values
    ensures r.Err? ==>
              && NoFailure(chain, calls[..|calls| - 1])
              && Failure(chain, calls[|calls| - 1]) == Some(r.error)
  {
    calls := [GetBlockNumber];
    var f := Failure(chain, GetBlockNumber);
    if f.Some? {
      r := Err(f.value);
      FailureInPlan(chain, calls, ClustersPlan(chain, workerId));
      return;
    }
    ghost var all := Records(chain, workerId);
    var clusters: map<Address, GatewayCluster> := map[];
    var page: nat := 0;
    while true
      invariant page * PAGE_SIZE <= |all|
      invariant calls == [GetBlockNumber] + PageCalls(AllocationListing(workerId), chain.latestBlock, page)
      invariant NoFailure(chain, calls)
      invariant clusters == Clustered(chain.decode, all[..page * PAGE_SIZE])
      decreases |all| - page * PAGE_SIZE
    {
      PagedStep(chain, AllocationListing(workerId), |all|, page);
      ghost var before := calls;
      var call, full;
      f, call, clusters, full := ReadPage(chain, workerId, page, clusters);
      calls := calls + [call];
      if f.Some? {
        r := Err(f.value);
        FailureInPlan(chain, calls, ClustersPlan(chain, workerId));
        return;
      }
      NoFailureSnoc(chain, before, call);
      if !full {
        r := Ok(clusters.Values);
        return;
      }
      page := page + 1;
    }
  }

  /** One iteration of the page loop: request page `page` at the pinned block
      and, when it succeeds, fold its records into the clusters. */
  method ReadPage(chain: Chain, workerId: U256, page: nat, clusters0: map<Address, GatewayCluster>)
    returns (f: Option<ClientError>, call: Call, clusters: map<Address, GatewayCluster>, full: bool)
    requires page * PAGE_SIZE <= |Records(chain, workerId)|
    requires clusters0 == Clustered(chain.decode, Records(chain, workerId)[..page * PAGE_SIZE])
    ensures call == PageCall(AllocationListing(workerId), chain.latestBlock, page)
    ensures f == Failure(chain, call)
    ensures f.None? && full ==>
              && (page + 1) * PAGE_SIZE <= |Records(chain, workerId)|
              && clusters == Clustered(chain.decode, Records(chain, workerId)[..(page + 1) * PAGE_SIZE])
    ensures f.None? && !full ==>
              && |Records(chain, workerId)| < (page + 1) * PAGE_SIZE
              && clusters == Grouped(chain.decode, Records(chain, workerId))
  {
    call := GetAllocations(workerId, chain.latestBlock, page, PAGE_SIZE);
    f := Failure(chain, call);
    clusters, full := clusters0, false;
    if f.None? {
      var allocations := Page(chain.allocations(workerId, chain.latestBlock), page);
      clusters := VisitPage(chain.decode, clusters0, Records(chain, workerId)[..page * PAGE_SIZE], allocations);
      ClusteredPage(chain.decode, Records(chain, workerId), page);
      full := |allocations| == PAGE_SIZE;
    }
  }

  /** Folding page `page` after the pages before it covers the listing up to
      the next page when the page is full, and the whole listing, grouped,
      when it is short. */
  lemma ClusteredPage(decode: Bytes -> Option<PeerId>, all: seq<AllocationRecord>, page: nat)
    requires page * PAGE_SIZE <= |all|
    ensures var next := Clustered(decode, all[..page * PAGE_SIZE] + Page(all, page));
            && (|Page(all, page)| == PAGE_SIZE ==>
                  (page + 1) * PAGE_SIZE <= |all| && next == Clustered(decode, all[..(page + 1) * PAGE_SIZE]))
            && (|Page(all, page)| < PAGE_SIZE ==> next == Grouped(decode, all))
  {
    PageExtendsPrefix(all, page);
    if |Page(all, page)| < PAGE_SIZE {
      ClusteredIsGrouped(decode, all);
    }
  }

  /** The body of the per-page loop: fold one page's records into the clusters
      built from the records visited before it. */
  method VisitPage(decode: Bytes -> Option<PeerId>, clusters0: map<Address, GatewayCluster>, ghost seen: seq<AllocationRecord>, allocations: seq<AllocationRecord>)
    returns (clusters: map<Address, GatewayCluster>)
    requires clusters0 == Clustered(decode, seen)
    ensures clusters == Clustered(decode, seen + allocations)
  {
    clusters := clusters0;
    var j := 0;
    assert seen + allocations[..0] == seen;
    while j < |allocations|
      invariant j <= |allocations|
      invariant clusters == Clustered(decode, seen + allocations[..j])
    {
      ClusteredStep(decode, seen, allocations, j);
      clusters := VisitRecord(decode, clusters, allocations[j]);
      j := j + 1;
    }
    assert allocations[..j] == allocations;
  }

  /** One record of the per-page loop: skip it when its gateway id does not
      decode; otherwise create its operator's cluster with the record's CU
      figure when absent, then push the gateway id. */
  method VisitRecord(decode: Bytes -> Option<PeerId>, clusters0: map<Address, GatewayCluster>, allocation: AllocationRecord)
    returns (clusters: map<Address, GatewayCluster>)
    ensures clusters == Visit(decode, clusters0, allocation)
  {
    clusters := clusters0;
    var gatewayPeerId := decode(allocation.gatewayId);
    if gatewayPeerId.None? {
      return;
    }
    if allocation.operator !in clusters {
      clusters := clusters[allocation.operator := GatewayCluster(allocation.operator, [], allocation.allocatedUnits)];
    }
    var cluster := clusters[allocation.operator];
    clusters := clusters[allocation.operator := cluster.(gatewayIds := cluster.gatewayIds + [gatewayPeerId.value])];
  }
}
