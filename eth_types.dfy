/** The Ethereum and libp2p value types the contract client works with. */
module EthTypes {

  type Bytes = seq<bv8>

  const TWO_64: nat := 0x1_0000_0000_0000_0000
  const TWO_128: nat := 0x1_0000_0000_0000_0000_0000_0000_0000_0000
  const TWO_160: nat := 0x1_0000_0000_0000_0000_0000_0000_0000_0000_0000_0000
  const TWO_256: nat := 0x1_0000_0000_0000_0000_0000_0000_0000_0000_0000_0000_0000_0000_0000_0000_0000_0000_0000_0000

  type U32 = x: nat | x < 0x1_0000_0000
  type U64 = x: nat | x < TWO_64
  type U128 = x: nat | x < TWO_128
  /** Solidity's uint256, as ethers' U256. */
  type U256 = x: nat | x < TWO_256

  /** A 20-byte account or contract address, read as a big-endian number. */
  type Address = a: nat | a < TWO_160

  /** Address::zero(), the registry's "no operator" sentinel. */
  const ZERO_ADDRESS: Address := 0

  /** A transport peer identifier; `bytes` is what PeerId::to_bytes yields. */
  datatype PeerId = PeerId(bytes: Bytes)
}
