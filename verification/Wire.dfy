/** Messages as the running programs hold them, and the network they send them on. */
module Wire {
  import opened Types
  import opened NodeSpec

  /** A received chunk message. Handlers change its fields in place, and a handler that sleeps finds it changed. */
  class Message {
    var kind: RequestType
    const file: string
    const chunk: string
    var replicas: seq<Addr>
    var size: nat
    var checksum: string
    var sender: Addr
    var receiver: Addr

    /** The message as it would be sent now, followed by `raw`. */
    function Value(raw: Bytes): ChunkMsg
      reads this
    {
      ChunkMsg(kind, file, chunk, replicas, size, checksum, sender, receiver, raw)
    }

    constructor (m: ChunkMsg)
      ensures Value(m.data) == m
    {
      kind, file, chunk, replicas := m.kind, m.file, m.chunk, m.replicas;
      size, checksum, sender, receiver := m.size, m.checksum, m.sender, m.receiver;
    }
  }

  /** What has been sent, in order. */
  class Network {
    var sent: seq<Item>

    method Send(m: Message, raw: Bytes)
      modifies this
      ensures sent == old(sent) + [Flight(m.Value(raw))]
    {
      sent := sent + [Flight(m.Value(raw))];
    }
  }
}
