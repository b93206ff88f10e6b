/** Vocabulary shared by the storage nodes, the controller and the client. */
module Types {

  newtype byte = x: int | 0 <= x < 256
  type Bytes = seq<byte>

  /** An address is the text "host:port"; the programs only compare addresses and dial them. */
  type Addr = string

  datatype Option<+T> = None | Some(value: T)

  const MAX_REPLICAS := 3
  const UINT64 := 0x1_0000_0000_0000_0000

  datatype RequestType = Replica | Write | Read | Delete

  /** A chunk message, with the raw bytes that follow it on the same connection ([] when none do). */
  datatype ChunkMsg = ChunkMsg(
    kind: RequestType,
    file: string,
    chunk: string,
    replicas: seq<Addr>,
    size: nat,
    checksum: string,
    sender: Addr,
    receiver: Addr,
    data: Bytes)

  /** One entry of a heartbeat: a file and one of its chunks. */
  datatype Key = Key(file: string, chunk: string)

  ghost predicate Injective(hash: Bytes -> string) {
    forall a, b :: hash(a) == hash(b) ==> a == b
  }

  predicate Distinct<T(==)>(s: seq<T>) {
    forall i, j :: 0 <= i < j < |s| ==> s[i] != s[j]
  }

  /** A Go map is ranged over in an arbitrary order: `order` is one of the orders for the set `s`. */
  predicate Enumerates<T(==)>(order: seq<T>, s: set<T>) {
    Distinct(order) && (set x | x in order) == s
  }
}
