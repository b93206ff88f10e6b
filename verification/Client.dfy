/** The client as it runs: the globals its commands and replies overwrite, the counters and chunk files of one read, and
    the loops that send, request and merge chunks. Every operation is proved to do what its function in ClientSpec,
    Chunking or Cluster says. */
module Client {
  import opened Types
  import opened Records
  import opened Chunking
  import opened NodeSpec
  import opened ControllerSpec
  import opened ClientSpec
  import opened Cluster
  import opened Wire
  import Float64

  /** The next part the send loop reads, and what it reads after that. */
  lemma NextPart(rest: Bytes, size: nat, count: nat)
    requires count > 0
    ensures var parts := SentParts(rest, size, count);
            parts != [] && parts[0] == (if |rest| < size then rest else rest[..size])
            && parts[1..] == if |rest| < size then [] else SentParts(rest[size..], size, count - 1)
  {}

  /** Up to 2^53 bytes, the chunks sent under the count computed in float64 are exactly the cuts of the file, and put
      together they are the file. */
  lemma UploadLosesNothing(content: Bytes, chunkSize: nat)
    requires |content| <= Float64.P53 && 0 < chunkSize < 0x8000_0000_0000_0000
    ensures var n := Float64.NumberOfChunks(|content|, chunkSize);
            && n >= 0 && SentParts(content, chunkSize, n) == Cuts(content, chunkSize) && |Cuts(content, chunkSize)| == n
            && Concat(SentParts(content, chunkSize, n)) == content
  {
    Float64.ChunkCountExact(|content|, chunkSize);
    SentPartsAreCuts(content, chunkSize);
    CutsConserve(content, chunkSize);
  }

  /** After `sent` parts the loop has `rest` to read, if it goes on at all. */
  predicate Pending(parts: seq<Bytes>, sent: nat, rest: Bytes, size: nat, total: nat, more: bool) {
    && sent <= |parts| && sent <= total
    && parts[sent..] == if more then SentParts(rest, size, total - sent) else []
  }

  /** What the loop reads next. */
  function NextBuffer(rest: Bytes, size: nat): Bytes { if |rest| < size then rest else rest[..size] }

  lemma SentPart(parts: seq<Bytes>, sent: nat, rest: Bytes, size: nat, total: nat)
    requires Pending(parts, sent, rest, size, total, true) && sent < total
    ensures sent < |parts| && parts[sent] == NextBuffer(rest, size)
  {
    NextPart(rest, size, total - sent);
    assert parts[sent..][0] == parts[sent];
  }

  lemma StillPending(parts: seq<Bytes>, sent: nat, rest: Bytes, size: nat, total: nat, rest': Bytes, more: bool)
    requires Pending(parts, sent, rest, size, total, true) && sent < total
    requires rest' == rest[|NextBuffer(rest, size)|..] && more == (|NextBuffer(rest, size)| == size)
    ensures Pending(parts, sent + 1, rest', size, total, more)
  {
    NextPart(rest, size, total - sent);
    assert parts[sent..][1..] == parts[sent + 1..];
  }

  /** The first rows of a list of locations that name a main node. */
  predicate Located(locations: seq<seq<Addr>>, n: nat) {
    n <= |locations| && forall i :: 0 <= i < n ==> locations[i] != []
  }

  lemma LocatedMore(locations: seq<seq<Addr>>, n: nat)
    requires Located(locations, n) && n < |locations| && locations[n] != []
    ensures Located(locations, n + 1)
  {}

  lemma NotLocated(locations: seq<seq<Addr>>, n: nat)
    requires |locations| <= n || locations[n] == []
    ensures !Located(locations, n + 1)
  {}

  /** The message that carries chunk i to the main node of its location. */
  function ChunkTo(cfg: Config, client: Addr, file: string, buffer: Bytes, i: nat, location: seq<Addr>): Item
    requires location != []
  {
    Flight(ChunkMsg(Write, file, ChunkName(file, i), location[1..], |buffer|, cfg.hash(buffer), client, location[0],
                    buffer))
  }

  /** One message a part, each to the main node of its own location. */
  function SentMsgs(cfg: Config, client: Addr, file: string, parts: seq<Bytes>, locations: seq<seq<Addr>>,
                    n: nat): seq<Item>
    requires n <= |parts| && Located(locations, n)
  {
    seq(n, i requires 0 <= i < n => Flight(WriteMsg(cfg, client, file, parts, locations[i], i)))
  }

  /** The first n parts have been sent, each after a dial that came up. */
  ghost predicate SentTo(cfg: Config, client: Addr, file: string, parts: seq<Bytes>, locations: seq<seq<Addr>>,
                         dials: nat -> bool, n: nat, was: seq<Item>, sent: seq<Item>) {
    && n <= |parts| && Located(locations, n) && (forall i :: 0 <= i < n ==> dials(i))
    && sent == was + SentMsgs(cfg, client, file, parts, locations, n)
  }

  /** Sent to the locations the controller hands out, which are all the same, the messages are those of the state
      machine. */
  lemma SentAsPlaced(cfg: Config, client: Addr, file: string, parts: seq<Bytes>, locations: seq<seq<Addr>>,
                     order: seq<Addr>, n: nat)
    requires n <= |parts| && n <= |locations| && order != []
             && forall i :: 0 <= i < |locations| ==> locations[i] == order
    ensures Located(locations, n) && SentMsgs(cfg, client, file, parts, locations, n)
            == WriteMsgs(cfg, client, file, parts, order, n)
  {}

  /** A location table as it is sent: rows no indexed chunk filled are empty. */
  function Padded(table: seq<Location>, total: nat): seq<Location> {
    if |table| < total then table + seq(total - |table|, _ => Location("", [])) else table
  }

  lemma {:induction false} PaddedFirm(table: seq<Location>, total: nat)
    ensures Firm(Padded(table, total)) == Firm(table)
  {
    if table != [] && table[0].replicas != [] {
      PaddedFirm(table[1..], if total > 0 then total - 1 else 0);
      assert Padded(table, total)[1..] == Padded(table[1..], if total > 0 then total - 1 else 0);
    }
  }

  /** Reading the table as it is sent asks for what the state machine asks for, and ends the client where it says so. */
  lemma PaddedReads(client: Addr, file: string, table: seq<Location>, total: nat, asked: nat)
    requires |table| <= total && asked <= Firm(table)
    ensures var rows := Padded(table, total);
            && |rows| == total && asked <= Firm(rows)
            && ReadMsgs(client, file, rows, asked) == ReadMsgs(client, file, table, asked)
            && ((asked == Firm(rows) && Firm(rows) < |rows|) <==> FindsEmptyRow(table, total, asked))
  {
    PaddedFirm(table, total);
  }

  /** The byte counter of a read: a float64 sum. Adding nothing leaves it. */
  function AddedTo(bytes: real, more: nat): real { if more == 0 then bytes else Float64.Round(bytes + more as real) }

  function Whole(bytes: real): nat { if bytes < 0.0 then 0 else bytes.Floor }

  lemma AddedExactly(bytes: nat, more: nat)
    requires bytes + more <= Float64.P53
    ensures AddedTo(bytes as real, more) == (bytes + more) as real
  {
    if more > 0 { Float64.ByteCountExact(bytes, more); }
  }

  class Client {
    const cfg: Config
    const self: Addr
    const net: Network
    const nameAt: string -> string   // the name of a file at a path, without directory and extension
    var filePath: string
    var folderName: string
    var chunksSent: nat
    // one read
    var totalNumberOfChunks: nat
    var fileSize: nat
    var fileChecksum: string
    var chunksReceived: nat
    var receivedBytes: real
    var disk: Folders              // the chunk files in the download directories
    var merged: Option<Kept>       // the merged file, once validated
    var merges: nat
    var crashed: bool

    function Value(): Session
      reads this
    {
      Session(nameAt(filePath), folderName, totalNumberOfChunks, fileSize, fileChecksum, disk,
              chunksReceived, Whole(receivedBytes), merges, merged, crashed)
    }

    /** The byte counter has lost nothing to rounding. */
    ghost predicate Exact()
      reads this
    { receivedBytes == Value().bytes as real }

    constructor (cfg: Config, self: Addr, net: Network, nameAt: string -> string)
      ensures this.cfg == cfg && this.self == self && this.net == net && disk == map[] && !crashed
              && folderName == "root"
      ensures this.nameAt == nameAt && Exact()
    {
      this.cfg, this.self, this.net, this.nameAt := cfg, self, net, nameAt;
      filePath, folderName := "", "root";
      chunksSent, chunksReceived, receivedBytes, merges := 0, 0, 0.0, 0;
      totalNumberOfChunks, fileSize, fileChecksum := 0, 0, "";
      disk, merged, crashed := map[], None, false;
    }

    /** A command keeps what it names in globals: /write a path and perhaps a folder, /delete and /read a path, /ls a
        folder. */
    method SetGlobals(path: Option<string>, folder: Option<string>)
      modifies this`filePath, this`folderName
      ensures Value() == Typed(old(Value()), if path.Some? then Some(nameAt(path.value)) else None, folder)
    {
      if path.Some? { filePath := path.value; }
      if folder.Some? { folderName := folder.value; }
    }

    // ----- writing a file -----

    /** Send the file chunk by chunk to the main node of each location, until one cannot be dialled: `dials(i)` says
        whether the connection for chunk i comes up. A missing or empty location is fatal. */
    method SendFileDataToStorageNodes(file: string, content: Bytes, chunkSize: nat, total: nat,
                                      locations: seq<seq<Addr>>, dials: nat -> bool)
      requires !crashed
      modifies this`chunksSent, this`crashed, net
      ensures var parts := SentParts(content, chunkSize, total);
              && SentTo(cfg, self, file, parts, locations, dials, chunksSent, old(net.sent), net.sent)
              && crashed == (chunksSent < |parts| && !Located(locations, chunksSent + 1))
              && (chunksSent < |parts| && !crashed ==> !dials(chunksSent))
    {
      ghost var parts := SentParts(content, chunkSize, total);
      chunksSent := 0;
      var rest, more, sent := content, true, true;
      assert parts[0..] == parts;
      while more && chunksSent < total
        invariant !crashed && Pending(parts, chunksSent, rest, chunkSize, total, more)
        invariant SentTo(cfg, self, file, parts, locations, dials, chunksSent, old(net.sent), net.sent)
        decreases total - chunksSent
      {
        sent, rest, more := SendNext(file, rest, chunkSize, locations, dials, parts, total, old(net.sent));
        if !sent {
          return;
        }
      }
    }

    /** One round of the loop: read the next chunk and send it, unless its location is missing, which is fatal, or its
        main node cannot be dialled. */
    method SendNext(file: string, rest: Bytes, chunkSize: nat, locations: seq<seq<Addr>>, dials: nat -> bool,
                    ghost parts: seq<Bytes>, ghost total: nat, ghost was: seq<Item>)
      returns (sent: bool, rest': Bytes, more: bool)
      requires !crashed && Pending(parts, chunksSent, rest, chunkSize, total, true) && chunksSent < total
      requires SentTo(cfg, self, file, parts, locations, dials, chunksSent, was, net.sent)
      modifies this`chunksSent, this`crashed, net
      ensures SentTo(cfg, self, file, parts, locations, dials, chunksSent, was, net.sent)
      ensures sent ==>
                !crashed && chunksSent == old(chunksSent) + 1
                && Pending(parts, chunksSent, rest', chunkSize, total, more)
      ensures !sent ==>
                chunksSent < |parts| && crashed == !Located(locations, chunksSent + 1)
                && (crashed || !dials(chunksSent))
    {
      SentPart(parts, chunksSent, rest, chunkSize, total);
      sent, rest', more := false, rest, true;
      if |locations| <= chunksSent || locations[chunksSent] == [] {
        NotLocated(locations, chunksSent);
        crashed := true;
        return;
      }
      LocatedMore(locations, chunksSent);
      if !dials(chunksSent) {
        return;
      }
      var buffer := NextBuffer(rest, chunkSize);
      SendChunk(file, buffer, chunksSent, locations[chunksSent]);
      OneMoreSent(was, file, parts, locations, chunksSent, buffer);
      sent, rest', more := true, rest[|buffer|..], |buffer| == chunkSize;
      StillPending(parts, chunksSent, rest, chunkSize, total, rest', more);
      chunksSent := chunksSent + 1;
    }

    method SendChunk(file: string, buffer: Bytes, i: nat, location: seq<Addr>)
      requires location != []
      modifies net
      ensures net.sent == old(net.sent) + [ChunkTo(cfg, self, file, buffer, i, location)]
    {
      var mainNode, replicas := location[0], location[1..];
      var m := new Message(
        ChunkMsg(Write, file, ChunkName(file, i), replicas, |buffer|, cfg.hash(buffer), self, mainNode, []));
      net.Send(m, buffer);
    }

    lemma OneMoreSent(sent: seq<Item>, file: string, parts: seq<Bytes>, locations: seq<seq<Addr>>, i: nat,
                      buffer: Bytes)
      requires i < |parts| && parts[i] == buffer && Located(locations, i) && Located(locations, i + 1)
      ensures sent + SentMsgs(cfg, self, file, parts, locations, i + 1) ==
              sent + SentMsgs(cfg, self, file, parts, locations, i)
                + [ChunkTo(cfg, self, file, buffer, i, locations[i])]
    {
      var first, chunk := SentMsgs(cfg, self, file, parts, locations, i),
        ChunkTo(cfg, self, file, buffer, i, locations[i]);
      assert SentMsgs(cfg, self, file, parts, locations, i + 1) == first + [chunk];
      assert sent + (first + [chunk]) == sent + first + [chunk];
    }

    // ----- reading a file back -----

    /** Start over the counters and ask the first holder of every chunk, until one cannot be dialled. A row without a
        holder is fatal. The path stays that of the last command, the folder becomes the file's. */
    method RetrieveChunkDataFromStorageNodes(file: string, folder: string, total: nat, size: nat, checksum: string,
                                             rows: seq<Location>, dials: nat -> bool) returns (asked: nat)
      requires !crashed
      modifies this, net
      ensures asked <= Firm(rows) && net.sent == old(net.sent) + ReadMsgs(self, file, rows, asked)
      ensures asked < Firm(rows) ==> !dials(asked)
      ensures Exact() && Value() == Begin(old(disk), old(Value().filePath), folder, total, size, checksum)
                                    .(crashed := asked == Firm(rows) < |rows|)
      ensures folderName == folder && totalNumberOfChunks == total && fileSize == size && fileChecksum == checksum
      ensures chunksReceived == 0 && receivedBytes == 0.0 && merged == None && filePath == old(filePath)
              && disk == old(disk)
    {
      StartOver(folder, total, size, checksum);
      asked := AskForChunks(file, rows, dials);
    }

    method StartOver(folder: string, total: nat, size: nat, checksum: string)
      requires !crashed
      modifies this
      ensures Value() == Begin(old(disk), old(Value().filePath), folder, total, size, checksum) && Exact() && !crashed
      ensures folderName == folder && chunksReceived == 0 && receivedBytes == 0.0 && filePath == old(filePath)
    {
      totalNumberOfChunks, fileSize, fileChecksum, folderName := total, size, checksum, folder;
      receivedBytes, chunksReceived := 0.0, 0;
      merges, merged := 0, None;
    }

    method AskForChunks(file: string, rows: seq<Location>, dials: nat -> bool) returns (asked: nat)
      requires !crashed
      modifies this`crashed, net
      ensures asked <= Firm(rows) && net.sent == old(net.sent) + ReadMsgs(self, file, rows, asked)
      ensures asked < Firm(rows) ==> !dials(asked)
      ensures crashed == (asked == Firm(rows) < |rows|)
    {
      asked := 0;
      while asked < |rows|
        invariant !crashed && 0 <= asked <= Firm(rows) && net.sent == old(net.sent) + ReadMsgs(self, file, rows, asked)
      {
        if rows[asked].replicas == [] {
          crashed := true;
          return;
        }
        if !dials(asked) {
          return;
        }
        var m := new Message(ReadMsg(self, file, rows[asked]));
        net.Send(m, []);
        asked := asked + 1;
      }
    }

    method SaveFile(name: string, bytes: Bytes)
      modifies this`disk
      ensures disk == SaveIn(old(disk), folderName, name, bytes)
    {
      if folderName !in disk {
        disk := disk[folderName := map[]];
      }
      disk := disk[folderName := disk[folderName][name := bytes]];
    }

    /** A chunk is saved in the current folder and counted; a connection that ends early is fatal after what came has
        been written. */
    method SaveChunkInfoToDisk(m: Message, raw: Bytes)
      modifies this`disk, this`receivedBytes, this`chunksReceived, this`crashed
      ensures if |raw| < m.size
              then crashed && disk == SaveIn(old(disk), folderName, m.chunk, raw) && receivedBytes == old(receivedBytes)
                   && chunksReceived == old(chunksReceived)
              else crashed == old(crashed) && disk == SaveIn(old(disk), folderName, m.chunk, raw[..m.size])
                   && receivedBytes == AddedTo(old(receivedBytes), m.size) && chunksReceived == old(chunksReceived) + 1
    {
      if |raw| < m.size {
        SaveFile(m.chunk, raw);
        crashed := true;
        return;
      }
      SaveFile(m.chunk, raw[..m.size]);
      receivedBytes := AddedTo(receivedBytes, m.size);
      chunksReceived := chunksReceived + 1;
    }

    /** A chunk reply: when its counters say so, the read is complete and the chunks are merged. The float64 counter
        does what an integer would as long as it stays within 2^53. */
    method HandleChunk(m: Message, raw: Bytes)
      modifies this
      ensures old(Exact() && Value().bytes + m.size <= Float64.P53) ==>
              Value() == Accept(cfg.hash, old(Value()), m.Value(raw)) && Exact()
    {
      ghost var within := Exact() && Value().bytes + m.size <= Float64.P53;
      if within { AddedExactly(Value().bytes, m.size); }
      SaveChunkInfoToDisk(m, raw);
      if |raw| < m.size {
        return;
      }
      assert within ==> Exact() && Value() == old(Value()).(disk := disk, bytes := old(Value().bytes)
        + m.size, count := chunksReceived);
      if chunksReceived == totalNumberOfChunks && fileSize == Whole(receivedBytes) {
        MergeChunks();
      }
    }

    /** Append the chunk files of the file at the current path in index order, removing each; keep the result only if
        its checksum is that of the file being read. */
    method MergeChunks()
      modifies this`disk, this`merges, this`merged, this`crashed
      ensures Value() == MergeAll(cfg.hash, old(Value()))
    {
      if folderName !in disk {
        disk := disk[folderName := map[]];
      }
      var content := AppendChunks(nameAt(filePath));
      ghost var files := Files(old(disk), folderName);
      assert disk == old(disk)[folderName := files - Names(nameAt(filePath),
                                                           FirstMissing(files, nameAt(filePath), 0,
                                                               totalNumberOfChunks))];
      assert content == Merge(files, nameAt(filePath), 0, totalNumberOfChunks);
      if content.None? {
        crashed := true;
        return;
      }
      merges := merges + 1;
      merged := if cfg.hash(content.value) == fileChecksum
                then Some(Kept(folderName, nameAt(filePath), content.value)) else None;
    }

    /** The chunk files in the current folder, one after the other; None at the first that is missing. Those appended
        are gone. */
    method AppendChunks(name: string) returns (content: Option<Bytes>)
      requires folderName in disk
      modifies this`disk
      ensures content == Merge(old(disk[folderName]), name, 0, totalNumberOfChunks)
      ensures disk == old(disk)[folderName :=
                        old(disk[folderName]) - Names(name,
                                                      FirstMissing(old(disk[folderName]), name, 0,
                                                                   totalNumberOfChunks))]
    {
      var front: Bytes := [];
      ghost var was := disk[folderName];
      var j := 0;
      assert was - Names(name, 0) == was;
      AppendedNone(was, name, totalNumberOfChunks);
      while j < totalNumberOfChunks
        invariant 0 <= j <= totalNumberOfChunks && disk == old(disk)[folderName := was - Names(name, j)]
        invariant Appended(was, name, j, totalNumberOfChunks, front)
      {
        var chunk := ChunkName(name, j);
        NameIsNew(name, j);
        if chunk !in disk[folderName] {
          AppendedMissing(was, name, j, totalNumberOfChunks, front);
          return None;
        }
        AppendedOne(was, name, j, totalNumberOfChunks, front);
        front := front + disk[folderName][chunk];
        disk := disk[folderName := disk[folderName] - {chunk}];
        OneNameMore(was, name, j);
        j := j + 1;
      }
      AppendedAll(was, name, totalNumberOfChunks, front);
      content := Some(front);
    }
  }

  function Prepended(front: Bytes, rest: Option<Bytes>): Option<Bytes> {
    match rest case None => None case Some(b) => Some(front + b)
  }

  /** The merge has come to chunk j and has `content` so far. */
  predicate Appended(files: map<string, Bytes>, name: string, j: nat, total: nat, content: Bytes) {
    && j <= total && FirstMissing(files, name, 0, total) == FirstMissing(files, name, j, total)
    && Merge(files, name, 0, total) == Prepended(content, Merge(files, name, j, total))
  }

  lemma AppendedNone(files: map<string, Bytes>, name: string, total: nat)
    ensures Appended(files, name, 0, total, [])
  {
    match Merge(files, name, 0, total)
    case None =>
    case Some(b) => assert [] + b == b;
  }

  lemma AppendedOne(files: map<string, Bytes>, name: string, j: nat, total: nat, content: Bytes)
    requires Appended(files, name, j, total, content) && j < total && ChunkName(name, j) in files
    ensures Appended(files, name, j + 1, total, content + files[ChunkName(name, j)])
  {
    match Merge(files, name, j + 1, total)
    case None =>
    case Some(rest) => assert content + (files[ChunkName(name, j)] + rest)
      == (content + files[ChunkName(name, j)]) + rest;
  }

  lemma AppendedAll(files: map<string, Bytes>, name: string, total: nat, content: Bytes)
    requires Appended(files, name, total, total, content)
    ensures Merge(files, name, 0, total) == Some(content) && FirstMissing(files, name, 0, total) == total
  {
    assert content + [] == content;
  }

  lemma AppendedMissing(files: map<string, Bytes>, name: string, j: nat, total: nat, content: Bytes)
    requires Appended(files, name, j, total, content) && j < total && ChunkName(name, j) !in files
    ensures Merge(files, name, 0, total) == None && FirstMissing(files, name, 0, total) == j
  {}

  lemma NameIsNew(name: string, j: nat)
    ensures ChunkName(name, j) !in Names(name, j)
  {
    if i :| 0 <= i < j && ChunkName(name, i) == ChunkName(name, j) { ChunkNameInjective(name, i, name, j); }
  }

  lemma OneNameMore(disk: map<string, Bytes>, name: string, j: nat)
    ensures disk - Names(name, j) - {ChunkName(name, j)} == disk - Names(name, j + 1)
  {
    assert Names(name, j + 1) == Names(name, j) + {ChunkName(name, j)};
  }
}
