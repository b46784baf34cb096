/** active_gateways: the block number is read once, then the gateway registry's
    active listing is read page by page at that block, keeping every id that
    decodes, until the first page shorter than PAGE_SIZE. */
module Gateways {
  import opened Wrappers
  import opened EthTypes
  import opened Chain

  /** ids.filter_map(PeerId::from_bytes): the ids that decode, in order. */
  function DecodeAll(decode: Bytes -> Option<PeerId>, ids: seq<Bytes>): (ps: seq<PeerId>)
    ensures |ps| <= |ids|
  {
    if ids == [] then []
    else
      match decode(ids[0])
      case Some(p) => [p] + DecodeAll(decode, ids[1..])
      case None => DecodeAll(decode, ids[1..])
  }

  /** The decoded list holds exactly the peer ids of the ids that decode, and
      loses nothing when every id decodes. */
  lemma {:induction false} DecodeAllSpec(decode: Bytes -> Option<PeerId>, ids: seq<Bytes>)
    ensures (forall i :: 0 <= i < |ids| ==> decode(ids[i]).Some?) ==> |DecodeAll(decode, ids)| == |ids|
    ensures forall p :: p in DecodeAll(decode, ids) <==> exists i :: 0 <= i < |ids| && decode(ids[i]) == Some(p)
  {
    if ids != [] {
      DecodeAllSpec(decode, ids[1..]);
      assert forall i :: 1 <= i < |ids| ==> ids[i] == ids[1..][i - 1];
      forall p | exists i :: 0 <= i < |ids| && decode(ids[i]) == Some(p)
        ensures p in DecodeAll(decode, ids)
      {
        var i :| 0 <= i < |ids| && decode(ids[i]) == Some(p);
        if i > 0 {
          assert decode(ids[1..][i - 1]) == Some(p);
        }
      }
    }
  }

  /** Decoding a listing page by page gives the same as decoding it whole. */
  lemma {:induction false} DecodeAllConcat(decode: Bytes -> Option<PeerId>, a: seq<Bytes>, b: seq<Bytes>)
    ensures DecodeAll(decode, a + b) == DecodeAll(decode, a) + DecodeAll(decode, b)
  {
    if a == [] {
      assert a + b == b;
    } else {
      assert (a + b)[1..] == a[1..] + b;
      DecodeAllConcat(decode, a[1..], b);
    }
  }

  /** The active-gateway listing at the chain's latest block. */
  function Listing(chain: Chain): seq<Bytes> {
    chain.activeGatewayIds(chain.latestBlock)
  }

  /** The requests active_gateways issues when none of them fails. */
  function GatewaysPlan(chain: Chain): seq<Call> {
    PagedPlan(chain, ActiveGatewayListing, |Listing(chain)|)
  }

  method ActiveGateways(chain: Chain) returns (r: Result<seq<PeerId>, ClientError>, calls: seq<Call>)
    ensures calls != [] && calls <= GatewaysPlan(chain)
    ensures r.Ok? <==> NoFailure(chain, GatewaysPlan(chain))
    ensures r.Ok? ==> calls == GatewaysPlan(chain)
    ensures r.Ok? ==> r.value == DecodeAll(chain.decode, Listing(chain))
    ensures r.Err? ==>
              && NoFailure(chain, calls[..|calls| - 1])
              && Failure(chain, calls[|calls| - 1]) == Some(r.error)
  {
    calls := [GetBlockNumber];
    var f := Failure(chain, GetBlockNumber);
    if f.Some? {
      r := Err(f.value);
      FailureInPlan(chain, calls, GatewaysPlan(chain));
      return;
    }
    var latestBlock := chain.latestBlock;
    ghost var all := chain.activeGatewayIds(latestBlock);
    var activeGateways := [];
    var page: nat := 0;
    while true
      invariant page * PAGE_SIZE <= |all|
      invariant calls == [GetBlockNumber] + PageCalls(ActiveGatewayListing, latestBlock, page)
      invariant NoFailure(chain, calls)
      invariant activeGateways == DecodeAll(chain.decode, all[..page * PAGE_SIZE])
      decreases |all| - page * PAGE_SIZE
    {
      PagedStep(chain, ActiveGatewayListing, |all|, page);
      var call := GetActiveGateways(latestBlock, page, PAGE_SIZE);
      ghost var before := calls;
      calls := calls + [call];
      f := Failure(chain, call);
      if f.Some? {
        r := Err(f.value);
        FailureInPlan(chain, calls, GatewaysPlan(chain));
        return;
      }
      NoFailureSnoc(chain, before, call);
      var gatewayIds := Page(chain.activeGatewayIds(latestBlock), page);
      DecodeAllConcat(chain.decode, all[..page * PAGE_SIZE], gatewayIds);
      activeGateways := activeGateways + DecodeAll(chain.decode, gatewayIds);
      if |gatewayIds| < PAGE_SIZE {
        assert all[..Min((page + 1) * PAGE_SIZE, |all|)] == all;
        r := Ok(activeGateways);
        return;
      }
      page := page + 1;
    }
  }

  /** Page-count facts of the plan: one block-number request, then exactly
      PageCount pages; a 24321-entry listing costs three page requests and a
      listing shorter than one page costs one. */
  lemma GatewaysPlanLength(chain: Chain)
    ensures |GatewaysPlan(chain)| == 1 + PageCount(|Listing(chain)|)
    ensures |Listing(chain)| == 24321 ==> |GatewaysPlan(chain)| == 4
    ensures |Listing(chain)| < PAGE_SIZE ==> |GatewaysPlan(chain)| == 2
  {
    if |Listing(chain)| == 24321 {
      ThreePageListing(Listing(chain));
    }
  }
}
