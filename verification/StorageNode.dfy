/** One storage node as it runs: two directories of files, a counter, and handlers that overwrite the fields of the
    message they were given. Every handler is proved to do what its function in NodeSpec says. */
module StorageNode {
  import opened Types
  import opened Text
  import opened Records
  import opened NodeSpec
  import opened ChunkRecords
  import opened Wire

  /** The file kept for a record. */
  ghost predicate Recorded(dir: string, c: string, rec: Record, text: string) { text == RecordText(dir, c, rec) }

  lemma RecordedChecksum(dir: string, c: string, rec: Record, text: string)
    requires Recorded(dir, c, rec, text)
    ensures ChecksumOf(text) == ReadsAs(rec.checksum)
  {
    ChecksumReadsAs(rec.file, c, DataPath(dir, c), rec.size, rec.checksum);
  }

  lemma {:induction false} ForwardsAppend(m: ChunkMsg, replicas: seq<Addr>, reach: set<Addr>, i: nat)
    requires i < |replicas| && |Forwards(m, replicas[..i], reach)| == i
    ensures Forwards(m, replicas[..i + 1], reach) ==
            Forwards(m, replicas[..i], reach) + if replicas[i] in reach then [Flight(m.(receiver := replicas[i]))]
              else []
    ensures replicas[i] !in reach ==> Forwards(m, replicas, reach) == Forwards(m, replicas[..i], reach)
  {
    if i > 0 {
      assert replicas[..i][0] in reach;
      assert replicas[..i][1..] == replicas[1..][..i - 1] && replicas[..i + 1][1..] == replicas[1..][..i];
      ForwardsAppend(m, replicas[1..], reach, i - 1);
    }
  }

  class StorageNode {
    const site: Site
    const dir: string
    const net: Network
    var data: map<string, Bytes>        // the files under ChunkData
    var metadata: map<string, string>   // the files under ChunkMetaData, by chunk
    var receivedChunks: nat
    ghost var records: map<string, Record>

    ghost predicate Valid()
      reads this
    {
      && metadata.Keys == records.Keys
      && forall c {:trigger Recorded(dir, c, records[c], metadata[c])} :: c in records ==>
           Recorded(dir, c, records[c], metadata[c])
    }

    ghost function Value(): Node
      reads this
    { Node(data, records, receivedChunks) }

    constructor (site: Site, dir: string, net: Network)
      ensures Valid() && Value() == Node(map[], map[], 0)
      ensures this.site == site && this.dir == dir && this.net == net
    {
      this.site, this.dir, this.net := site, dir, net;
      data, metadata, receivedChunks, records := map[], map[], 0, map[];
    }

    // ----- the disk -----

    method SaveChunkMetadata(m: Message)
      requires Valid()
      modifies this`metadata, this`records
      ensures Valid() && records == old(records)[m.chunk := Record(m.file, m.size, m.checksum)]
    {
      metadata := metadata[m.chunk := ChunkText(m.file, m.chunk, DataPath(dir, m.chunk), m.size, m.checksum)];
      records := records[m.chunk := Record(m.file, m.size, m.checksum)];
    }

    method SaveChunkData(m: Message, raw: Bytes)
      requires Valid()
      modifies this`data
      ensures Valid() && data == old(data)[m.chunk := SavedBytes(m.Value(raw))]
    {
      data := data[m.chunk := if m.size <= |raw| then raw[..m.size] else raw];
    }

    /** A missing file reads as empty. The message takes over the size found and the checksum recorded. */
    method GetChunkInfoFromDisk(m: Message) returns (bytes: Bytes)
      requires Valid()
      modifies m`size, m`checksum
      ensures forall raw :: m.Value(raw) == ChunkInfo(Value(), old(m.Value(raw)))
      ensures bytes == if m.chunk in data then data[m.chunk] else []
    {
      bytes := if m.chunk in data then data[m.chunk] else [];
      var text := if m.chunk in metadata then metadata[m.chunk] else "";
      if m.chunk in records {
        assert Recorded(dir, m.chunk, records[m.chunk], text);
        RecordedChecksum(dir, m.chunk, records[m.chunk], text);
      }
      m.size := |bytes|;
      m.checksum := ChecksumOf(text);
    }

    /** The metadata file is removed first; removing a file that is not there is fatal. */
    method DeleteChunk(m: Message) returns (crashed: bool)
      requires Valid()
      modifies this`data, this`metadata, this`records
      ensures Valid()
      ensures crashed == (m.chunk !in old(records) || m.chunk !in old(data))
      ensures records == if m.chunk in old(records) then old(records) - {m.chunk} else old(records)
      ensures data == if crashed then old(data) else old(data) - {m.chunk}
      ensures metadata == old(metadata) - {m.chunk}
    {
      if m.chunk !in metadata {
        return true;
      }
      metadata := metadata - {m.chunk};
      records := records - {m.chunk};
      if m.chunk !in data {
        return true;
      }
      data := data - {m.chunk};
      crashed := false;
    }

    // ----- writes and deletes, passed on to the replicas -----

    method SendCopy(m: Message, to: Addr, ghost copy: ChunkMsg)
      requires Valid() && m.chunk in data && m.chunk in records && Resembles(m, copy)
      requires copy == ChunkInfo(Value(), copy) && copy.data == data[m.chunk]
      modifies m`receiver, m`size, m`checksum, net
      ensures net.sent == old(net.sent) + [Flight(copy.(receiver := to))] && Resembles(m, copy)
    {
      m.receiver := to;
      var bytes := GetChunkInfoFromDisk(m);
      net.Send(m, bytes);
    }

    /** The message and the copies being sent differ only in what every copy takes from the disk and its destination. */
    ghost predicate Resembles(m: Message, copy: ChunkMsg)
      reads m
    {
      m.Value(copy.data) == copy.(receiver := m.receiver, size := m.size, checksum := m.checksum)
    }

    /** One copy a replica, each read from the disk again, until a replica cannot be dialled. */
    method SendChunkMetadataToReplicas(m: Message, reach: set<Addr>)
      requires Valid() && m.chunk in data && m.chunk in records
      modifies m, net
      ensures net.sent == old(net.sent) +
              Forwards(ChunkInfo(Value(), old(m.Value(data[m.chunk]))).(replicas := [], sender := site.self),
                       old(m.replicas), reach)
    {
      var replicas := m.replicas;
      ghost var copy := ChunkInfo(Value(), m.Value(data[m.chunk])).(replicas := [], sender := site.self);
      m.replicas := [];
      m.sender := site.self;
      var i := 0;
      while i < |replicas|
        invariant 0 <= i <= |replicas| && |Forwards(copy, replicas[..i], reach)| == i
        invariant Resembles(m, copy)
        invariant net.sent == old(net.sent) + Forwards(copy, replicas[..i], reach)
      {
        ForwardsAppend(copy, replicas, reach, i);
        if replicas[i] !in reach {
          return;
        }
        SendCopy(m, replicas[i], copy);
        i := i + 1;
      }
      assert replicas[..i] == replicas;
    }

    method SendDeleteRequestToReplicas(m: Message, reach: set<Addr>)
      modifies m, net
      ensures net.sent == old(net.sent) +
              Forwards(old(m.Value([])).(replicas := [], sender := site.self), old(m.replicas), reach)
    {
      var replicas := m.replicas;
      ghost var copy := m.Value([]).(replicas := [], sender := site.self);
      m.replicas := [];
      m.sender := site.self;
      var i := 0;
      while i < |replicas|
        invariant 0 <= i <= |replicas| && |Forwards(copy, replicas[..i], reach)| == i
        invariant m.Value([]) == copy.(receiver := m.receiver)
        invariant net.sent == old(net.sent) + Forwards(copy, replicas[..i], reach)
      {
        ForwardsAppend(copy, replicas, reach, i);
        if replicas[i] !in reach {
          return;
        }
        m.receiver := replicas[i];
        net.Send(m, []);
        i := i + 1;
      }
      assert replicas[..i] == replicas;
    }

    method SaveChunkInfoToDisk(m: Message, raw: Bytes, reach: set<Addr>)
      requires Valid()
      modifies this, m, net
      ensures Valid()
      ensures var r := SaveChunk(site, old(Value()), old(m.Value(raw)), reach);
              Value() == r.node && net.sent == old(net.sent) + r.out && !r.crashed
      ensures var saved := raw[..if old(m.size) <= |raw| then old(m.size) else |raw|];
              && data == old(data)[m.chunk := saved]
              && records == old(records)[m.chunk := Record(m.file, old(m.size), old(m.checksum))]
              && (AllIn(old(m.replicas), reach) ==> EachSent(old(net.sent), net.sent, old(m.replicas), ChunkMsg(
                    old(m.kind), m.file, m.chunk, [], |saved|, ReadsAs(old(m.checksum)), site.self, site.self, saved)))
    {
      SaveChunkMetadata(m);
      SaveChunkData(m, raw);
      SendChunkMetadataToReplicas(m, reach);
      receivedChunks := (receivedChunks + 1) % UINT64;
      assert raw[..|raw|] == raw;
    }

    /** One message went to each of the replicas, in order, and is `copy` but for its receiver. */
    static ghost predicate EachSent(was: seq<Item>, sent: seq<Item>, replicas: seq<Addr>, copy: ChunkMsg) {
      && |sent| == |was| + |replicas| && was <= sent
      && forall i :: 0 <= i < |replicas| ==> sent[|was| + i] == Flight(copy.(receiver := replicas[i]))
    }

    method DeleteChunkInfoFromDisk(m: Message, reach: set<Addr>) returns (crashed: bool)
      requires Valid()
      modifies this, m, net
      ensures Valid()
      ensures var r := NodeSpec.DeleteChunk(site, old(Value()), old(m.Value([])), reach);
              Value() == r.node && net.sent == old(net.sent) + r.out && crashed == r.crashed
      ensures crashed == (m.chunk !in old(records) || m.chunk !in old(data)) && m.chunk !in metadata
      ensures !crashed ==> data == old(data) - {m.chunk} && metadata == old(metadata) - {m.chunk}
      ensures !crashed && AllIn(old(m.replicas), reach) ==>
                EachSent(old(net.sent), net.sent, old(m.replicas),
                         old(m.Value([])).(replicas := [], sender := site.self))
    {
      crashed := DeleteChunk(m);
      if crashed {
        return;
      }
      SendDeleteRequestToReplicas(m, reach);
      receivedChunks := (receivedChunks + UINT64 - 1) % UINT64;
    }

    // ----- reads and repair -----

    method SendChunkDataToClient(to: Addr, m: Message, bytes: Bytes, reach: set<Addr>)
      modifies m, net
      ensures net.sent == old(net.sent) + Reply(site, old(m.Value([])), to, bytes, reach)
    {
      if to !in reach {
        return;
      }
      m.kind := Write;
      m.receiver := to;
      m.sender := site.self;
      net.Send(m, bytes);
    }

    /** The message keeps its old sender when the controller cannot be dialled. */
    method RequestReplicaInfoFromController(m: Message, reach: set<Addr>)
      modifies m`kind, m`sender, m`receiver, net
      ensures net.sent + [Repair(site.self, old(m.sender), m.Value([]))] ==
              old(net.sent) + Suspend(site, old(m.Value([])), old(m.sender), reach)
    {
      if site.controller !in reach {
        return;
      }
      m.sender := site.self;
      m.receiver := site.controller;
      m.kind := Replica;
      net.Send(m, []);
      assert net.sent + [Repair(site.self, old(m.sender), m.Value([]))] ==
             old(net.sent) + [Flight(m.Value([])), Repair(site.self, old(m.sender), m.Value([]))];
    }

    /** Validate the chunk and answer `original`, or ask for a repair and sleep. The sleeping handler keeps the
        address it will answer, which `asleep` gives, and shares the message with the request it has sent. */
    method ServeOrSleep(m: Message, original: Addr, reach: set<Addr>) returns (crashed: bool, asleep: Option<Addr>)
      requires Valid()
      modifies m, net
      ensures var r := Serve(site, Value(), old(m.Value([])), original, reach);
              && net.sent + Sleeper(m, asleep) == old(net.sent) + r.out && crashed == r.crashed && Value() == r.node
    {
      var bytes := GetChunkInfoFromDisk(m);
      asleep := None;
      if m.chunk !in data {
        return true, None;
      }
      crashed := false;
      if site.hash(data[m.chunk]) == m.checksum {
        SendChunkDataToClient(original, m, bytes, reach);
      } else {
        asleep := Some(m.sender);
        RequestReplicaInfoFromController(m, reach);
      }
    }

    ghost function Sleeper(m: Message, asleep: Option<Addr>): seq<Item>
      reads m
    {
      match asleep
      case Some(original) => [Repair(site.self, original, m.Value([]))]
      case None => []
    }

    method GetChunkInfoAndSendToClient(m: Message, reach: set<Addr>) returns (crashed: bool, asleep: Option<Addr>)
      requires Valid()
      modifies m, net
      ensures var r := Serve(site, Value(), old(m.Value([])), old(m.sender), reach);
              && net.sent + Sleeper(m, asleep) == old(net.sent) + r.out && crashed == r.crashed && Value() == r.node
    {
      crashed, asleep := ServeOrSleep(m, m.sender, reach);
    }

    method RequestDataFromReplicationNode(m: Message, reach: set<Addr>) returns (crashed: bool)
      modifies m, net
      ensures forall n: Node :: var r := FetchFromReplica(site, n, old(m.Value([])), reach);
              net.sent == old(net.sent) + r.out && crashed == r.crashed && r.node == n
      ensures crashed == (old(m.replicas) == [])
      ensures net.sent == old(net.sent) +
              if crashed || old(m.replicas)[0] !in reach then []
              else [Flight(ChunkMsg(Read, m.file, m.chunk, old(m.replicas)[1..], old(m.size), old(m.checksum),
                                    site.self,
                                    old(m.replicas)[0], []))]
    {
      if m.replicas == [] {
        return true;
      }
      crashed := false;
      var replica := m.replicas[0];
      m.replicas := m.replicas[1..];
      if replica !in reach {
        return;
      }
      m.kind := Read;
      m.receiver := replica;
      m.sender := site.self;
      net.Send(m, []);
    }

    /** One message, with the raw bytes that follow it on its connection; only a write's are read. */
    method HandleClientRequest(m: Message, raw: Bytes, reach: set<Addr>) returns (crashed: bool, asleep: Option<Addr>)
      requires Valid()
      modifies this, m, net
      ensures Valid()
      ensures var r := Handle(site, old(Value()), old(m.Value(if m.kind == Write then raw else [])), reach);
              && Value() == r.node && net.sent + Sleeper(m, asleep) == old(net.sent) + r.out && crashed == r.crashed
    {
      crashed, asleep := false, None;
      match m.kind
      case Replica => crashed := RequestDataFromReplicationNode(m, reach);
      case Write => SaveChunkInfoToDisk(m, raw, reach);
      case Delete => crashed := DeleteChunkInfoFromDisk(m, reach);
      case Read => crashed, asleep := GetChunkInfoAndSendToClient(m, reach);
    }

    // ----- heartbeats -----

    static method ParseLines(parse: string -> Option<Entry>, lines: seq<string>) returns (chunks: Option<seq<Entry>>)
      ensures chunks == Each(parse, lines)
    {
      var read := [];
      for i := 0 to |lines|
        invariant Each(parse, lines[..i]) == Some(read)
      {
        EachSnoc(parse, lines[..i], lines[i]);
        assert lines[..i + 1] == lines[..i] + [lines[i]];
        var parsed := parse(lines[i]);
        if parsed.None? {
          EachPrefix(parse, lines, i + 1);
          return None;
        }
        read := read + [parsed.value];
      }
      assert lines[..|lines|] == lines;
      chunks := Some(read);
    }

    /** The first three pieces of every line of one metadata file; None where the node indexes past the pieces of a
        line, or stops because a line does not fit the scanner. */
    static method ReadFile(text: string) returns (chunks: Option<seq<Entry>>)
      ensures chunks == ReadChunkText(text)
    {
      if Scannable(text) {
        chunks := ParseLines(ParseChunk, Lines(text));
      } else {
        chunks := None;
      }
    }

    static method ReadEntry(c: string, text: string) returns (read: Option<seq<Entry>>)
      ensures read == Listed(c, text)
    {
      var entry := MetadataName(c);
      if entry[0] == '.' {
        read := Some([]);
      } else {
        read := ReadFile(text);
      }
    }

    static method ListFiles(order: seq<string>, texts: map<string, string>) returns (chunks: Option<seq<Entry>>)
      requires forall c :: c in order ==> c in texts
      ensures chunks == Heartbeat(order, texts)
    {
      var listed := [];
      for i := 0 to |order|
        invariant Heartbeat(order[..i], texts) == Some(listed)
      {
        assert order[..i + 1][..i] == order[..i];
        var read := ReadEntry(order[i], texts[order[i]]);
        if read.None? {
          HeartbeatEnds(order, texts, i + 1);
          return None;
        }
        listed := listed + read.value;
      }
      assert order[..|order|] == order;
      chunks := Some(listed);
    }

    /** What a heartbeat lists, whatever the names; `order` is how the directory lists the chunks' metadata files. */
    method GetStoredFilesInfo(order: seq<string>) returns (chunks: Option<seq<Entry>>)
      requires Valid() && Enumerates(order, metadata.Keys)
      ensures (forall c :: c in order ==> c in metadata) && chunks == Heartbeat(order, metadata)
      ensures AllLegible(dir, Value()) ==>
                chunks.Some? && Keys(chunks.value) == Listing(Value()) && |chunks.value| == |order|
    {
      assert forall c :: c in order <==> c in set x | x in order;
      if AllLegible(dir, Value()) {
        TextsAreRecords();
        HeartbeatIsListing(dir, Value(), metadata, order);
      }
      chunks := ListFiles(order, metadata);
    }

    lemma TextsAreRecords()
      requires Valid()
      ensures Texts(dir, Value(), metadata)
    {
      forall c | c in records ensures metadata[c] == RecordText(dir, c, records[c]) {
        assert Recorded(dir, c, records[c], metadata[c]);
      }
    }
  }
}
