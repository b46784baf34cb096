/** network_nodes_stream: on every tick the client reads the active gateways,
    then the active workers, and yields the set of all their peer ids, or the
    first error met. Each tick reads the chain afresh and keeps no state. */
module Membership {
  import opened Wrappers
  import opened EthTypes
  import opened Chain
  import opened Client
  import Gateways

  /** What one tick yields on a chain: the error of the first failing request
      of the gateway read, else the error of the worker read, else exactly the
      peer ids of the active gateways together with those of the active
      workers. */
  ghost predicate TickItem(chain: Chain, item: Result<set<PeerId>, ClientError>) {
    && (!NoFailure(chain, Gateways.GatewaysPlan(chain)) ==>
          item.Err? && FirstFailureIs(chain, Gateways.GatewaysPlan(chain), item.error))
    && (NoFailure(chain, Gateways.GatewaysPlan(chain)) && ActiveWorkers(chain).Err? ==>
          item == Err(ActiveWorkers(chain).error))
    && (NoFailure(chain, Gateways.GatewaysPlan(chain)) && ActiveWorkers(chain).Ok? ==>
          && item.Ok?
          && forall p :: p in item.value <==>
               || p in Gateways.DecodeAll(chain.decode, Gateways.Listing(chain))
               || exists w :: w in ActiveWorkers(chain).value && w.peerId == p)
  }

  /** No request of a paged read is a batch. */
  lemma PagedPlanHasNoBatch(chain: Chain, listing: PagedListing, len: nat, calls: seq<Call>)
    requires calls <= PagedPlan(chain, listing, len)
    ensures forall i :: 0 <= i < |calls| ==> !calls[i].Multicall?
  {
    forall i | 0 <= i < |calls| ensures !calls[i].Multicall? {
      if i > 0 {
        PagedPlanIsPinned(chain, listing, len, i);
      }
    }
  }

  /** One tick of the stream. */
  method NodesTick(chain: Chain) returns (r: Result<set<PeerId>, ClientError>, calls: seq<Call>)
    ensures TickItem(chain, r)
    ensures !NoFailure(chain, Gateways.GatewaysPlan(chain)) ==>
              && calls <= Gateways.GatewaysPlan(chain)
              && forall i :: 0 <= i < |calls| ==> !calls[i].Multicall?
    ensures NoFailure(chain, Gateways.GatewaysPlan(chain)) ==>
              calls == Gateways.GatewaysPlan(chain) + [ActiveWorkersCall]
  {
    var gateways;
    gateways, calls := Gateways.ActiveGateways(chain);
    if gateways.Err? {
      r := Err(gateways.error);
      FirstFailureOfPrefix(chain, calls, Gateways.GatewaysPlan(chain));
      PagedPlanHasNoBatch(chain, ActiveGatewayListing, |Gateways.Listing(chain)|, calls);
      return;
    }
    calls := calls + [ActiveWorkersCall];
    var workers := ActiveWorkers(chain);
    if workers.Err? {
      r := Err(workers.error);
      return;
    }
    var nodes := set p | p in gateways.value;
    var ws := workers.value;
    var i := 0;
    while i < |ws|
      invariant i <= |ws|
      invariant forall p :: p in nodes <==> p in gateways.value || exists k :: 0 <= k < i && ws[k].peerId == p
    {
      nodes := nodes + {ws[i].peerId};
      i := i + 1;
    }
    r := Ok(nodes);
  }

  lemma TickItemsSnoc(chains: seq<Chain>, items: seq<Result<set<PeerId>, ClientError>>,
                      item: Result<set<PeerId>, ClientError>)
    requires |items| < |chains|
    requires forall u :: 0 <= u < |items| ==> TickItem(chains[u], items[u])
    requires TickItem(chains[|items|], item)
    ensures forall u :: 0 <= u < |items| + 1 ==> TickItem(chains[u], (items + [item])[u])
  {
    forall u | 0 <= u < |items| + 1 ensures TickItem(chains[u], (items + [item])[u]) {
      if u < |items| {
        assert (items + [item])[u] == items[u];
      } else {
        assert (items + [item])[u] == item;
      }
    }
  }

  /** A run of the stream over the chain states seen at successive ticks: every
      tick yields its own item, and an error item does not end the stream. */
  method NodesStream(chains: seq<Chain>) returns (items: seq<Result<set<PeerId>, ClientError>>)
    ensures |items| == |chains|
    ensures forall t :: 0 <= t < |chains| ==> TickItem(chains[t], items[t])
  {
    items := [];
    var t := 0;
    while t < |chains|
      invariant t <= |chains| && |items| == t
      invariant forall u :: 0 <= u < t ==> TickItem(chains[u], items[u])
    {
      var item, _ := NodesTick(chains[t]);
      TickItemsSnoc(chains, items, item);
      items := items + [item];
      t := t + 1;
    }
  }
}
