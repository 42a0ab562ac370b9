/** Partition of routing keys over shards and over lanes.
    The hash itself (FNV-1a, 32 bits) is a parameter: every result holds for any hash. */
module Hashing {

  const TWO_TO_THE_32: int := 0x1_0000_0000

  type Hash32 = x: int | 0 <= x < TWO_TO_THE_32

  type HashFunction = string -> Hash32

  /** The partition responsible for `key` among `count` of them.  A count of at most
      one always selects partition 0. */
  function ShardIndex(hash: HashFunction, key: string, count: int): (index: nat)
    requires count < TWO_TO_THE_32
    ensures 0 < count ==> index < count
  {
    if count <= 1 then 0 else hash(key) % count
  }

  /** The partition is congruent to the hash modulo the number of partitions. */
  lemma ShardIndexIsHash(hash: HashFunction, key: string, count: int) returns (q: nat)
    requires 0 < count < TWO_TO_THE_32
    ensures hash(key) == q * count + ShardIndex(hash, key, count)
  {
    q := hash(key) / count;
  }
}
