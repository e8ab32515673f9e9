// Content hashes of full token blocks (tr_hash_i64/core/block_pool.py).
// The digest is modelled as an injective constructor of everything that is
// fed to it: the namespace, the previous block's hash and the block's tokens.
module Hashing {
  import opened Prelude

  type Namespace = Option<string>

  datatype Hash = Hash(ns: Namespace, prev: Option<Hash>, tokens: seq<int>)
}
