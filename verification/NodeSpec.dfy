/** What one storage node does with one message, as a function from its disk to its disk.
    Class StorageNode carries out the same steps on mutable fields. */
module NodeSpec {
  import opened Types
  import opened Records

  /** What a chunk's metadata line was printed from, but for the chunk's name and path. */
  datatype Record = Record(file: string, size: nat, checksum: string)

  datatype Node = Node(data: map<string, Bytes>, meta: map<string, Record>, received: nat)

  /** Work under way: a message on the network, or a handler that found a corrupted chunk and sleeps
      until it looks at the disk again (`original` is where its reply will go). */
  datatype Item =
    | Flight(msg: ChunkMsg)
    | Repair(at: Addr, original: Addr, msg: ChunkMsg)

  datatype Result = Result(node: Node, out: seq<Item>, crashed: bool)

  /** The part of the world a handler needs: its own address, the controller's and the hash. */
  datatype Site = Site(self: Addr, controller: Addr, hash: Bytes -> string)

  /** The bytes a missing chunk file yields are none, and a missing metadata file yields no checksum. */
  function ChunkInfo(n: Node, m: ChunkMsg): ChunkMsg {
    m.(size := if m.chunk in n.data then |n.data[m.chunk]| else 0,
       checksum := if m.chunk in n.meta then ReadsAs(n.meta[m.chunk].checksum) else "")
  }

  /** One copy of `m` per replica, in order, until a replica cannot be dialled. */
  function Forwards(m: ChunkMsg, replicas: seq<Addr>, reach: set<Addr>): (out: seq<Item>)
    ensures |out| <= |replicas|
    ensures forall j :: 0 <= j < |out| ==> out[j] == Flight(m.(receiver := replicas[j])) && replicas[j] in reach
    ensures |out| < |replicas| ==> replicas[|out|] !in reach
  {
    if replicas == [] || replicas[0] !in reach then []
    else [Flight(m.(receiver := replicas[0]))] + Forwards(m, replicas[1..], reach)
  }

  /** As many of the bytes that came as the message announced, or all there are. */
  function SavedBytes(m: ChunkMsg): (saved: Bytes)
    ensures saved <= m.data && |saved| == if m.size <= |m.data| then m.size else |m.data|
  {
    if m.size <= |m.data| then m.data[..m.size] else m.data
  }

  predicate AllIn(replicas: seq<Addr>, reach: set<Addr>) { forall i :: 0 <= i < |replicas| ==> replicas[i] in reach }

  function SaveChunk(at: Site, n: Node, m: ChunkMsg, reach: set<Addr>): Result {
    var saved := SavedBytes(m);
    var n' := Node(n.data[m.chunk := saved],
                   n.meta[m.chunk := Record(m.file, m.size, m.checksum)],
                   (n.received + 1) % UINT64);
    var copy := m.(replicas := [], sender := at.self, size := |saved|, checksum := ReadsAs(m.checksum), data := saved);
    Result(n', Forwards(copy, m.replicas, reach), false)
  }

  /** Removing a file that is not there is fatal; the metadata file is removed first. */
  function DeleteChunk(at: Site, n: Node, m: ChunkMsg, reach: set<Addr>): Result {
    if m.chunk !in n.meta then Result(n, [], true)
    else
      var meta' := n.meta - {m.chunk};
      if m.chunk !in n.data then Result(n.(meta := meta'), [], true)
      else
        var n' := Node(n.data - {m.chunk}, meta', (n.received + UINT64 - 1) % UINT64);
        Result(n', Forwards(m.(replicas := [], sender := at.self), m.replicas, reach), false)
  }

  /** The reply to a read is a write addressed to whoever asked. */
  function Reply(at: Site, m: ChunkMsg, to: Addr, data: Bytes, reach: set<Addr>): seq<Item> {
    if to in reach then [Flight(m.(kind := Write, receiver := to, sender := at.self, data := data))] else []
  }

  /** Ask the controller for replicas and sleep. The request and the sleeping handler share one message:
      its sender is overwritten, but only once the controller has been dialled. */
  function Suspend(at: Site, m: ChunkMsg, original: Addr, reach: set<Addr>): seq<Item> {
    if at.controller in reach then
      var m' := m.(kind := Replica, sender := at.self, receiver := at.controller);
      [Flight(m'), Repair(at.self, original, m')]
    else [Repair(at.self, original, m)]
  }

  /** Answer a read, or look again after sleeping. Validating a chunk file that is not there is fatal.
      If the chunk is still corrupted the next reply goes to the message's sender of that moment, which
      an earlier `Suspend` has replaced by this node itself. */
  function Serve(at: Site, n: Node, m: ChunkMsg, original: Addr, reach: set<Addr>): Result {
    if m.chunk !in n.data then Result(n, [], true)
    else
      var info := ChunkInfo(n, m);
      var data := n.data[m.chunk];
      if at.hash(data) == info.checksum then Result(n, Reply(at, info, original, data, reach), false)
      else Result(n, Suspend(at, info, info.sender, reach), false)
  }

  /** The first listed replica is asked for the chunk; an empty list is an index out of range. */
  function FetchFromReplica(at: Site, n: Node, m: ChunkMsg, reach: set<Addr>): Result {
    if m.replicas == [] then Result(n, [], true)
    else if m.replicas[0] !in reach then Result(n, [], false)
    else Result(n, [Flight(m.(kind := Read, replicas := m.replicas[1..], receiver := m.replicas[0],
                              sender := at.self))], false)
  }

  function Handle(at: Site, n: Node, m: ChunkMsg, reach: set<Addr>): Result {
    match m.kind
    case Replica => FetchFromReplica(at, n, m, reach)
    case Write => SaveChunk(at, n, m, reach)
    case Delete => DeleteChunk(at, n, m, reach)
    case Read => Serve(at, n, m, m.sender, reach)
  }

  /** What a heartbeat lists. */
  function Listing(n: Node): set<Key> {
    set c | c in n.meta :: Key(n.meta[c].file, c)
  }

  // ----- the counter of received chunks -----

  /** The node after handling messages one by one. */
  function HandleAll(at: Site, n: Node, ms: seq<ChunkMsg>, reach: set<Addr>): Node
    decreases |ms|
  {
    if ms == [] then n else HandleAll(at, Handle(at, n, ms[0], reach).node, ms[1..], reach)
  }

  /** None of the messages ends the process. */
  predicate Survives(at: Site, n: Node, ms: seq<ChunkMsg>, reach: set<Addr>)
    decreases |ms|
  {
    ms == [] || (!Handle(at, n, ms[0], reach).crashed && Survives(at, Handle(at, n, ms[0], reach).node, ms[1..], reach))
  }

  function Balance(ms: seq<ChunkMsg>): int {
    if ms == [] then 0
    else Balance(ms[1..]) + (if ms[0].kind == Write then 1 else if ms[0].kind == Delete then -1 else 0)
  }

  lemma ModStep(a: nat, b: int, d: int)
    requires d == 1 || d == 0 || d == -1
    ensures ((a + (if d == -1 then UINT64 - 1 else d)) % UINT64 + b) % UINT64 == (a + d + b) % UINT64
  {}

  /** As long as the node lives its counter is the number of writes less the number of deletes, modulo 2^64. */
  lemma {:induction false} CounterBalances(at: Site, n: Node, ms: seq<ChunkMsg>, reach: set<Addr>)
    requires n.received < UINT64 && Survives(at, n, ms, reach)
    ensures HandleAll(at, n, ms, reach).received == (n.received + Balance(ms)) % UINT64
    decreases |ms|
  {
    if ms != [] {
      CounterBalances(at, Handle(at, n, ms[0], reach).node, ms[1..], reach);
      ModStep(n.received, Balance(ms[1..]), if ms[0].kind == Write then 1 else if ms[0].kind == Delete then -1 else 0);
    }
  }
}
