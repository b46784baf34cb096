/** Contract-address resolution of the command-line arguments: each contract's
    address is the explicit override when one is given, and otherwise the fixed
    default of the selected network. */
module Cli {
  import opened Wrappers
  import opened EthTypes

  datatype Network = Tethys | Mainnet

  /** The five contracts the client talks to. */
  datatype Contract =
    | GatewayRegistry
    | WorkerRegistration
    | NetworkController
    | AllocationsViewer
    | MulticallHelper

  /** The optional per-contract overrides. */
  datatype ContractAddrs = ContractAddrs(
    gatewayRegistryContractAddr: Option<Address>,
    workerRegistrationContractAddr: Option<Address>,
    networkControllerContractAddr: Option<Address>,
    allocationsViewerContractAddr: Option<Address>,
    multicallContractAddr: Option<Address>)

  datatype RpcArgs = RpcArgs(
    rpcUrl: string,
    l1RpcUrl: Option<string>,
    contractAddrs: ContractAddrs,
    network: Network)

  // Per-network defaults.

  function GatewayRegistryDefaultAddr(n: Network): Address {
    match n
    case Tethys => 0xAB46F688AbA4FcD1920F21E9BD16B229316D8b0a
    case Mainnet => 0x8A90A1cE5fa8Cf71De9e6f76B7d3c0B72feB8c4b
  }

  function WorkerRegistrationDefaultAddr(n: Network): Address {
    match n
    case Tethys => 0xCD8e983F8c4202B0085825Cf21833927D1e2b6Dc
    case Mainnet => 0x36E2B147Db67E76aB67a4d07C293670EbeFcAE4E
  }

  function NetworkControllerDefaultAddr(n: Network): Address {
    match n
    case Tethys => 0x68Fc7E375945d8C8dFb0050c337Ff09E962D976D
    case Mainnet => 0x4cf58097D790B193D22ed633bF8b15c9bc4F0da7
  }

  function AllocationsViewerDefaultAddr(n: Network): Address {
    match n
    case Tethys => 0xC0Af6432947db51e0C179050dAF801F19d40D2B7
    case Mainnet => 0x88CE6D8D70df9Fe049315fd9D6c3d59108C15c4C
  }

  function MulticallDefaultAddr(n: Network): Address {
    match n
    case Tethys => 0xcA11bde05977b3631167028862bE2a173976CA11
    case Mainnet => 0xcA11bde05977b3631167028862bE2a173976CA11
  }

  /** The default table, indexed by contract. */
  function DefaultAddr(n: Network, c: Contract): Address {
    match c
    case GatewayRegistry => GatewayRegistryDefaultAddr(n)
    case WorkerRegistration => WorkerRegistrationDefaultAddr(n)
    case NetworkController => NetworkControllerDefaultAddr(n)
    case AllocationsViewer => AllocationsViewerDefaultAddr(n)
    case MulticallHelper => MulticallDefaultAddr(n)
  }

  /** The override field that belongs to a contract. */
  function OverrideOf(addrs: ContractAddrs, c: Contract): Option<Address> {
    match c
    case GatewayRegistry => addrs.gatewayRegistryContractAddr
    case WorkerRegistration => addrs.workerRegistrationContractAddr
    case NetworkController => addrs.networkControllerContractAddr
    case AllocationsViewer => addrs.allocationsViewerContractAddr
    case MulticallHelper => addrs.multicallContractAddr
  }

  /** `addrs` with the override of contract `c` set to `o`, every other field kept. */
  function WithOverride(addrs: ContractAddrs, c: Contract, o: Option<Address>): ContractAddrs {
    match c
    case GatewayRegistry => addrs.(gatewayRegistryContractAddr := o)
    case WorkerRegistration => addrs.(workerRegistrationContractAddr := o)
    case NetworkController => addrs.(networkControllerContractAddr := o)
    case AllocationsViewer => addrs.(allocationsViewerContractAddr := o)
    case MulticallHelper => addrs.(multicallContractAddr := o)
  }

  // The five resolvers of RpcArgs, each an unwrap_or_else over its own field.

  function GatewayRegistryAddr(args: RpcArgs): (a: Address)
    ensures args.contractAddrs.gatewayRegistryContractAddr.Some? ==>
              a == args.contractAddrs.gatewayRegistryContractAddr.value
    ensures args.contractAddrs.gatewayRegistryContractAddr.None? ==>
              a == GatewayRegistryDefaultAddr(args.network)
  {
    match args.contractAddrs.gatewayRegistryContractAddr
    case Some(a) => a
    case None => GatewayRegistryDefaultAddr(args.network)
  }

  function WorkerRegistrationAddr(args: RpcArgs): (a: Address)
    ensures args.contractAddrs.workerRegistrationContractAddr.Some? ==>
              a == args.contractAddrs.workerRegistrationContractAddr.value
    ensures args.contractAddrs.workerRegistrationContractAddr.None? ==>
              a == WorkerRegistrationDefaultAddr(args.network)
  {
    match args.contractAddrs.workerRegistrationContractAddr
    case Some(a) => a
    case None => WorkerRegistrationDefaultAddr(args.network)
  }

  function NetworkControllerAddr(args: RpcArgs): (a: Address)
    ensures args.contractAddrs.networkControllerContractAddr.Some? ==>
              a == args.contractAddrs.networkControllerContractAddr.value
    ensures args.contractAddrs.networkControllerContractAddr.None? ==>
              a == NetworkControllerDefaultAddr(args.network)
  {
    match args.contractAddrs.networkControllerContractAddr
    case Some(a) => a
    case None => NetworkControllerDefaultAddr(args.network)
  }

  function AllocationsViewerAddr(args: RpcArgs): (a: Address)
    ensures args.contractAddrs.allocationsViewerContractAddr.Some? ==>
              a == args.contractAddrs.allocationsViewerContractAddr.value
    ensures args.contractAddrs.allocationsViewerContractAddr.None? ==>
              a == AllocationsViewerDefaultAddr(args.network)
  {
    match args.contractAddrs.allocationsViewerContractAddr
    case Some(a) => a
    case None => AllocationsViewerDefaultAddr(args.network)
  }

  function MulticallAddr(args: RpcArgs): (a: Address)
    ensures args.contractAddrs.multicallContractAddr.Some? ==>
              a == args.contractAddrs.multicallContractAddr.value
    ensures args.contractAddrs.multicallContractAddr.None? ==>
              a == MulticallDefaultAddr(args.network)
  {
    match args.contractAddrs.multicallContractAddr
    case Some(a) => a
    case None => MulticallDefaultAddr(args.network)
  }

  /** The resolver of contract `c`. */
  function ResolvedAddr(args: RpcArgs, c: Contract): Address {
    match c
    case GatewayRegistry => GatewayRegistryAddr(args)
    case WorkerRegistration => WorkerRegistrationAddr(args)
    case NetworkController => NetworkControllerAddr(args)
    case AllocationsViewer => AllocationsViewerAddr(args)
    case MulticallHelper => MulticallAddr(args)
  }

  /** Every resolver is "the override if given, else the network's default". */
  lemma ResolvedIsOverrideOrDefault(args: RpcArgs, c: Contract)
    ensures OverrideOf(args.contractAddrs, c).Some? ==>
              ResolvedAddr(args, c) == OverrideOf(args.contractAddrs, c).value
    ensures OverrideOf(args.contractAddrs, c).None? ==>
              ResolvedAddr(args, c) == DefaultAddr(args.network, c)
  {
  }

  /** Resolution is per contract: changing the override of `c` changes no other
      contract's resolved address, and gives `c` the new override or default. */
  lemma OverrideIsIndependent(args: RpcArgs, c: Contract, o: Option<Address>, d: Contract)
    ensures var args' := args.(contractAddrs := WithOverride(args.contractAddrs, c, o));
            && (d != c ==> ResolvedAddr(args', d) == ResolvedAddr(args, d))
            && ResolvedAddr(args', c) == (if o.Some? then o.value else DefaultAddr(args.network, c))
  {
  }

  /** The multicall helper sits at the same canonical address on both networks. */
  lemma MulticallDefaultIsCanonical()
    ensures MulticallDefaultAddr(Tethys) == MulticallDefaultAddr(Mainnet) == 0xcA11bde05977b3631167028862bE2a173976CA11
  {
  }

  /** Every other contract has distinct defaults on the two networks. */
  lemma OtherDefaultsDiffer(c: Contract)
    requires c != MulticallHelper
    ensures DefaultAddr(Tethys, c) != DefaultAddr(Mainnet, c)
  {
  }
}
