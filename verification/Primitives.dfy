/** Values shared by every component of the node. */
module Primitives {

  /** A 256-bit hash. Only equality and the all-zero value matter here. */
  type Hash = nat
  const ZERO_HASH: Hash := 0

  /** The largest block number a `u64` holds. */
  const U64_MAX: nat := 0xFFFF_FFFF_FFFF_FFFF

  newtype Byte = x: int | 0 <= x < 256
  type Bytes = seq<Byte>

  /** The first byte of an encoded L1 message transaction. */
  const L1_MESSAGE_TX_TYPE: Byte := 0x7E

  predicate IsL1Message(tx: Bytes) {
    tx != [] && tx[0] == L1_MESSAGE_TX_TYPE
  }

  /** The L1 messages among a block's transactions, in order. */
  function L1Messages(txs: seq<Bytes>): seq<Bytes> {
    if txs == [] then []
    else (if IsL1Message(txs[0]) then [txs[0]] else []) + L1Messages(txs[1..])
  }

  datatype Option<+T> = None | Some(value: T)

  datatype BlockInfo = BlockInfo(number: nat, hash: Hash)

  datatype BatchInfo = BatchInfo(index: nat, hash: Hash)

  datatype BatchStatus = Committed | Processing | Consolidated | Reverted | Finalized

  /** `saturating_sub(1)` on an unsigned integer. */
  function Pred(n: nat): nat {
    if n == 0 then 0 else n - 1
  }

  function Min(a: nat, b: nat): nat {
    if a <= b then a else b
  }

  function Pow2(n: nat): nat {
    if n == 0 then 1 else 2 * Pow2(n - 1)
  }

  function SaturatingAdd(a: nat, b: nat): nat {
    Min(a + b, U64_MAX)
  }

  /** The sequence in the opposite order. */
  function Reverse<T>(s: seq<T>): (r: seq<T>)
    ensures |r| == |s|
    ensures forall i :: 0 <= i < |s| ==> r[i] == s[|s| - 1 - i]
  {
    if s == [] then [] else Reverse(s[1..]) + [s[0]]
  }
}
