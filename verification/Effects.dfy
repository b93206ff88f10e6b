/** What one step does to the whole store, said in terms of the store alone. */
module Effects {
  import opened Types
  import opened Records
  import opened Chunking
  import opened Sets
  import opened Placement
  import opened NodeSpec
  import opened ControllerSpec
  import opened ClientSpec
  import opened Cluster
  import opened Safety

  lemma AllInSkips(replicas: seq<Addr>, reach: set<Addr>)
    requires AllIn(replicas, reach)
    ensures Skipped(replicas, reach) == {}
  {}

  /** A handler that misses nobody changes its node and the messages under way. */
  lemma Handling(cfg: Config, s: State, id: nat, reach: set<Addr>, node: Node, out: seq<Item>)
    requires CanDeliver(cfg, s, id)
    requires var m := s.items[id].msg;
             && Handle(SiteOf(cfg, m.receiver), s.nodes[m.receiver], m, reach) == Result(node, out, false)
             && Misses(cfg, s.nodes[m.receiver], m, reach) == {} && Spared(s.nodes[m.receiver], m, reach) == {}
    ensures var m := s.items[id].msg;
            AfterDeliver(cfg, s, id, reach) == s.(
              items := Added(s.items - {id}, s.next, out), next := s.next + |out|, nodes := s.nodes[m.receiver := node],
              tainted := if m.kind == Write then s.tainted - {(m.receiver, m.chunk)} else s.tainted)
  {}

  /** The same for a handler that leaves its node alone. */
  lemma PassingOn(cfg: Config, s: State, id: nat, reach: set<Addr>, out: seq<Item>)
    requires CanDeliver(cfg, s, id) && s.items[id].msg.kind != Write
    requires var m := s.items[id].msg;
             && Handle(SiteOf(cfg, m.receiver), s.nodes[m.receiver], m, reach)
               == Result(s.nodes[m.receiver], out, false)
             && Misses(cfg, s.nodes[m.receiver], m, reach) == {} && Spared(s.nodes[m.receiver], m, reach) == {}
    ensures AfterDeliver(cfg, s, id, reach) == s.(items := Added(s.items - {id}, s.next, out), next := s.next + |out|)
  {
    var m := s.items[id].msg;
    Handling(cfg, s, id, reach, s.nodes[m.receiver], out);
    assert s.nodes[m.receiver := s.nodes[m.receiver]] == s.nodes;
  }

  // ----- a write -----

  /** The message carries bytes with their size and checksum, as every write in a reachable state does. */
  predicate Whole(cfg: Config, m: ChunkMsg) { m.kind == Write && m.size == |m.data| && m.checksum == cfg.hash(m.data) }

  /** A write reaches a node that can dial all its replicas: the node has the chunk and its record, each replica is sent
      the chunk with its checksum and no list of its own, and nothing else changes. */
  lemma WriteIsForwarded(cfg: Config, s: State, id: nat, reach: set<Addr>)
    requires ConfigOk(cfg) && CanDeliver(cfg, s, id) && Whole(cfg, s.items[id].msg)
    requires AllIn(s.items[id].msg.replicas, reach)
    ensures var m := s.items[id].msg;
            var n := s.nodes[m.receiver];
            AfterDeliver(cfg, s, id, reach) == s.(
              items := Added(s.items - {id}, s.next, Copies(cfg, m)), next := s.next + |m.replicas|,
              nodes := s.nodes[m.receiver := Node(n.data[m.chunk := m.data],
                                                  n.meta[m.chunk := Record(m.file, |m.data|, cfg.hash(m.data))],
                                                  (n.received + 1) % UINT64)],
              tainted := s.tainted - {(m.receiver, m.chunk)})
  {
    var m := s.items[id].msg;
    AllInSkips(m.replicas, reach);
    Saves(cfg, s.nodes[m.receiver], m, reach);
    Handling(cfg, s, id, reach, WithChunk(cfg, s.nodes[m.receiver], m), Copies(cfg, m));
  }

  function WithChunk(cfg: Config, n: Node, m: ChunkMsg): Node {
    Node(n.data[m.chunk := m.data], n.meta[m.chunk := Record(m.file, |m.data|, cfg.hash(m.data))],
         (n.received + 1) % UINT64)
  }

  lemma Saves(cfg: Config, n: Node, m: ChunkMsg, reach: set<Addr>)
    requires ConfigOk(cfg) && Whole(cfg, m) && AllIn(m.replicas, reach)
    ensures Handle(SiteOf(cfg, m.receiver), n, m, reach) == Result(WithChunk(cfg, n, m), Copies(cfg, m), false)
  {
    HashReadsAsIs(cfg, m.data);
    assert SavedBytes(m) == m.data;
    assert Handle(SiteOf(cfg, m.receiver), n, m, reach).out == Copies(cfg, m);
  }

  /** The chunk as each replica of a write is sent it. */
  function Copies(cfg: Config, m: ChunkMsg): seq<Item> {
    seq(|m.replicas|, i requires 0 <= i < |m.replicas| =>
      Flight(ChunkMsg(Write, m.file, m.chunk, [], |m.data|, cfg.hash(m.data), m.receiver, m.replicas[i], m.data)))
  }

  // ----- a request for replicas, and a repair -----

  /** A node that is told replicas asks the first for the chunk and names it the others. */
  lemma ReplicaIsAsked(cfg: Config, s: State, id: nat, reach: set<Addr>)
    requires CanDeliver(cfg, s, id) && s.items[id].msg.kind == Replica
    requires s.items[id].msg.replicas != [] && s.items[id].msg.replicas[0] in reach
    ensures var m := s.items[id].msg;
            AfterDeliver(cfg, s, id, reach) == s.(
              items := (s.items - {id})[s.next := Flight(ChunkMsg(
                Read, m.file, m.chunk, m.replicas[1..], m.size, m.checksum, m.receiver, m.replicas[0], m.data))],
              next := s.next + 1)
  {
    var m, t := s.items[id].msg, AfterDeliver(cfg, s, id, reach);
    var out := Handle(SiteOf(cfg, m.receiver), s.nodes[m.receiver], m, reach).out;
    assert out == [Flight(ChunkMsg(
      Read, m.file, m.chunk, m.replicas[1..], m.size, m.checksum, m.receiver, m.replicas[0], m.data))];
    PassingOn(cfg, s, id, reach, out);
    AddedOne(s.items - {id}, s.next, out[0]);
  }

  lemma AddedOne(items: map<nat, Item>, next: nat, item: Item)
    requires forall id :: id in items ==> id < next
    ensures Added(items, next, [item]) == items[next := item]
  {
    var r := Added(items, next, [item]);
    assert r[next + 0] == item;
    assert r.Keys == items.Keys + {next};
  }

  lemma AddedTwo(items: map<nat, Item>, next: nat, x: Item, y: Item)
    requires forall id :: id in items ==> id < next
    ensures Added(items, next, [x, y]) == items[next := x][next + 1 := y]
  {
    var r := Added(items, next, [x, y]);
    assert r[next + 0] == x && r[next + 1] == y;
    assert r.Keys == items.Keys + {next, next + 1};
  }

  lemma AddedNone(items: map<nat, Item>, next: nat)
    requires forall id :: id in items ==> id < next
    ensures Added(items, next, []) == items
  {}

  /** A read of a valid copy by somebody who can be dialled is answered with the chunk. */
  lemma ReadIsAnswered(cfg: Config, s: State, id: nat, reach: set<Addr>)
    requires CanDeliver(cfg, s, id) && s.items[id].msg.kind == Read
    requires Validates(cfg.hash, s.nodes[s.items[id].msg.receiver], s.items[id].msg.chunk)
    requires s.items[id].msg.sender in reach
    ensures var m := s.items[id].msg;
            var data := s.nodes[m.receiver].data[m.chunk];
            AfterDeliver(cfg, s, id, reach) == s.(
              items := (s.items - {id})[s.next := Flight(ChunkMsg(
                Write, m.file, m.chunk, m.replicas, |data|, cfg.hash(data), m.receiver, m.sender, data))],
              next := s.next + 1)
  {
    var m := s.items[id].msg;
    var out := Handle(SiteOf(cfg, m.receiver), s.nodes[m.receiver], m, reach).out;
    ServeAnswers(cfg, s.nodes[m.receiver], m.receiver, m, m.sender, reach);
    PassingOn(cfg, s, id, reach, out);
    AddedOne(s.items - {id}, s.next, out[0]);
  }

  lemma ServeAnswers(cfg: Config, n: Node, at: Addr, m: ChunkMsg, asker: Addr, reach: set<Addr>)
    requires Validates(cfg.hash, n, m.chunk) && asker in reach
    ensures var data := n.data[m.chunk];
            Serve(SiteOf(cfg, at), n, m, asker, reach) == Result(n, [Flight(ChunkMsg(
              Write, m.file, m.chunk, m.replicas, |data|, cfg.hash(data), at, asker, data))], false)
  {}

  /** A sleeping handler that finds its copy valid again answers whoever it was to answer. */
  lemma SleeperAnswers(cfg: Config, s: State, id: nat, reach: set<Addr>)
    requires CanWake(cfg, s, id) && Validates(cfg.hash, s.nodes[s.items[id].at], s.items[id].msg.chunk)
    requires s.items[id].original in reach
    ensures var m, at := s.items[id].msg, s.items[id].at;
            var data := s.nodes[at].data[m.chunk];
            AfterWake(cfg, s, id, reach) == s.(
              items := (s.items - {id})[s.next := Flight(ChunkMsg(
                Write, m.file, m.chunk, m.replicas, |data|, cfg.hash(data), at, s.items[id].original, data))],
              next := s.next + 1)
  {
    var item := s.items[id];
    ServeAnswers(cfg, s.nodes[item.at], item.at, item.msg, item.original, reach);
    var out := Serve(SiteOf(cfg, item.at), s.nodes[item.at], item.msg, item.original, reach).out;
    AddedOne(s.items - {id}, s.next, out[0]);
  }

  /** What a handler knows of the chunk it found corrupted: what the message said, with the size on disk and the
      checksum recorded. */
  function Inspected(n: Node, m: ChunkMsg): ChunkMsg
    requires m.chunk in n.data && m.chunk in n.meta
  {
    m.(size := |n.data[m.chunk]|, checksum := ReadsAs(n.meta[m.chunk].checksum))
  }

  /** A read of a corrupted copy sends nobody any bytes: the node asks the controller, if it can be dialled, and a
      handler that will answer whoever asked goes to sleep. */
  lemma CorruptionIsReported(cfg: Config, s: State, id: nat, reach: set<Addr>)
    requires CanDeliver(cfg, s, id) && s.items[id].msg.kind == Read
    requires var m := s.items[id].msg;
             m.chunk in s.nodes[m.receiver].data && m.chunk in s.nodes[m.receiver].meta
             && !Validates(cfg.hash, s.nodes[m.receiver], m.chunk)
    ensures var m, t := s.items[id].msg, AfterDeliver(cfg, s, id, reach);
            var found := Inspected(s.nodes[m.receiver], m);
            var request := found.(kind := Replica, sender := m.receiver, receiver := cfg.controller);
            t == if cfg.controller in reach
                 then s.(items := (s.items - {id})[s.next := Flight(request)]
                                                  [s.next + 1 := Repair(m.receiver, m.sender, request)],
                         next := s.next + 2)
                 else s.(items := (s.items - {id})[s.next := Repair(m.receiver, m.sender, found)], next := s.next + 1)
  {
    var m := s.items[id].msg;
    var n := s.nodes[m.receiver];
    var found := Inspected(n, m);
    var request := found.(kind := Replica, sender := m.receiver, receiver := cfg.controller);
    var out := Handle(SiteOf(cfg, m.receiver), n, m, reach).out;
    PassingOn(cfg, s, id, reach, out);
    if cfg.controller in reach {
      assert out == [Flight(request), Repair(m.receiver, m.sender, request)];
      AddedTwo(s.items - {id}, s.next, out[0], out[1]);
    } else {
      assert out == [Repair(m.receiver, m.sender, found)];
      AddedOne(s.items - {id}, s.next, out[0]);
    }
  }

  /** A node that asked for replicas and can be dialled is told every other indexed holder, each once. */
  lemma HoldersAreTold(cfg: Config, s: State, id: nat, order: seq<Addr>, reach: set<Addr>)
    requires CanAnswer(cfg, s, id, order) && s.items[id].msg.kind == Replica && s.items[id].msg.sender in reach
    ensures var m, t := s.items[id].msg, AfterAnswer(cfg, s, id, order, reach);
            && t.next == s.next + 1 && s.next in t.items && t.items[s.next].Flight?
            && (var answer := t.items[s.next].msg;
                && answer.kind == Replica && answer.file == m.file && answer.chunk == m.chunk
                && answer.receiver == m.sender && answer.sender == cfg.controller
                && Distinct(answer.replicas)
                && forall a :: a in answer.replicas <==> a in Holders(s.index, Key(m.file, m.chunk)) && a != m.sender)
            && t.items == (s.items - {id})[s.next := t.items[s.next]]
  {
    var m, t := s.items[id].msg, AfterAnswer(cfg, s, id, order, reach);
    EnumeratesAll(order, Holders(s.index, Key(m.file, m.chunk)) - {m.sender});
    AddedOne(s.items - {id}, s.next, AnswerItems(cfg, m, order, reach)[0]);
  }

  // ----- a delete -----

  /** A request to delete that finds the chunk takes both its files away and nothing else, and with every replica
      dialled each is sent the request with no list of its own. */
  lemma DeleteTakesAway(cfg: Config, s: State, id: nat, reach: set<Addr>)
    requires CanDeliver(cfg, s, id) && s.items[id].msg.kind == Delete && AllIn(s.items[id].msg.replicas, reach)
    requires var m := s.items[id].msg; m.chunk in s.nodes[m.receiver].data && m.chunk in s.nodes[m.receiver].meta
    ensures var m := s.items[id].msg;
            var n := s.nodes[m.receiver];
            AfterDeliver(cfg, s, id, reach) == s.(
              items := Added(s.items - {id}, s.next, Orders(m)), next := s.next + |m.replicas|,
              nodes := s.nodes[m.receiver := WithoutChunk(n, m.chunk)])
  {
    var m := s.items[id].msg;
    AllInSkips(m.replicas, reach);
    TakesBoth(cfg, s.nodes[m.receiver], m, reach);
    Handling(cfg, s, id, reach, WithoutChunk(s.nodes[m.receiver], m.chunk), Orders(m));
  }

  /** The node with one chunk less. */
  function WithoutChunk(n: Node, c: string): Node {
    Node(n.data - {c}, n.meta - {c}, (n.received + UINT64 - 1) % UINT64)
  }

  lemma TakesBoth(cfg: Config, n: Node, m: ChunkMsg, reach: set<Addr>)
    requires m.kind == Delete && AllIn(m.replicas, reach) && m.chunk in n.data && m.chunk in n.meta
    ensures Handle(SiteOf(cfg, m.receiver), n, m, reach) == Result(WithoutChunk(n, m.chunk), Orders(m), false)
  {
    assert Handle(SiteOf(cfg, m.receiver), n, m, reach).out == Orders(m);
  }

  /** The request as each replica of a delete is sent it. */
  function Orders(m: ChunkMsg): seq<Item> {
    seq(|m.replicas|, i requires 0 <= i < |m.replicas| =>
      Flight(m.(replicas := [], sender := m.receiver, receiver := m.replicas[i])))
  }

  /** Deleting a file sends each indexed chunk's first node, if it can be dialled, one request that names the chunk's
      other nodes, up to the first chunk without a node. */
  lemma DeleteIsRequested(cfg: Config, s: State, client: Addr, file: string, table: seq<Location>, reach: set<Addr>,
                          i: nat) returns (id: nat)
    requires CanDelete(cfg, s, client, file, table) && i < Firm(table) && table[i].replicas[0] in reach
    ensures id !in s.items && id in AfterDelete(cfg, s, client, file, table, reach).items
    ensures AfterDelete(cfg, s, client, file, table, reach).items[id] == Flight(ChunkMsg(
              Delete, file, table[i].chunk, table[i].replicas[1..], 0, "", cfg.controller, table[i].replicas[0], []))
  {
    DeletePosts(cfg, s, client, file, table, reach);
    id := RowIsPosted(cfg, s.items, s.next, file, table[..Firm(table)], reach, i);
  }

  lemma RowIsPosted(cfg: Config, items: map<nat, Item>, next: nat, file: string, rows: seq<Location>, reach: set<Addr>,
                    i: nat) returns (id: nat)
    requires (forall d :: d in items ==> d < next) && AllHeld(rows) && i < |rows| && rows[i].replicas[0] in reach
    ensures id !in items && id in Added(items, next, DeleteMsgs(cfg, file, rows, reach))
    ensures Added(items, next, DeleteMsgs(cfg, file, rows, reach))[id] == Flight(ChunkMsg(
              Delete, file, rows[i].chunk, rows[i].replicas[1..], 0, "", cfg.controller, rows[i].replicas[0], []))
  {
    var j := DeleteIsSent(cfg, file, rows, reach, i);
    AddedAt(items, next, DeleteMsgs(cfg, file, rows, reach), j);
    id := next + j;
  }

  lemma DeletePosts(cfg: Config, s: State, client: Addr, file: string, table: seq<Location>, reach: set<Addr>)
    requires CanDelete(cfg, s, client, file, table)
    ensures AfterDelete(cfg, s, client, file, table, reach).items
            == Added(s.items, s.next, DeleteMsgs(cfg, file, table[..Firm(table)], reach))
  {}

  lemma AddedAt(items: map<nat, Item>, next: nat, out: seq<Item>, j: nat)
    requires (forall id :: id in items ==> id < next) && j < |out|
    ensures next + j !in items && next + j in Added(items, next, out) && Added(items, next, out)[next + j] == out[j]
  {}

  lemma {:induction false} DeleteIsSent(cfg: Config, file: string, rows: seq<Location>, reach: set<Addr>, i: nat)
    returns (j: nat)
    requires AllHeld(rows) && i < |rows| && rows[i].replicas[0] in reach
    ensures j < |DeleteMsgs(cfg, file, rows, reach)|
    ensures DeleteMsgs(cfg, file, rows, reach)[j] == Flight(ChunkMsg(
              Delete, file, rows[i].chunk, rows[i].replicas[1..], 0, "", cfg.controller, rows[i].replicas[0], []))
  {
    if i == 0 {
      j := 0;
    } else {
      j := DeleteIsSent(cfg, file, rows[1..], reach, i - 1);
      if rows[0].replicas[0] in reach { j := j + 1; }
    }
  }

  /** When every chunk had a node, the index forgets the chunks of the file and nothing else. */
  lemma FileIsForgotten(cfg: Config, s: State, client: Addr, file: string, table: seq<Location>, reach: set<Addr>,
                        k: Key)
    requires CanDelete(cfg, s, client, file, table) && Firm(table) == |table|
    ensures var index := AfterDelete(cfg, s, client, file, table, reach).index;
            && (k in index <==> k in s.index && k.file != file)
            && (k in index ==> index[k] == s.index[k])
  {}

  // ----- what ends a node -----

  /** A handled message ends its node exactly when it is told of replicas and the list is empty, asks for a chunk that
      is not there, or deletes one of which a file is missing. */
  lemma EndsExactly(cfg: Config, s: State, id: nat, reach: set<Addr>)
    requires CanDeliver(cfg, s, id)
    ensures var m := s.items[id].msg;
            var n := s.nodes[m.receiver];
            AfterDeliver(cfg, s, id, reach).down == s.down +
              if (m.kind == Replica && m.replicas == []) || (m.kind == Read && m.chunk !in n.data)
                 || (m.kind == Delete && (m.chunk !in n.data || m.chunk !in n.meta))
              then {m.receiver} else {}
  {}

  // ----- what clients start -----

  /** A client that writes sends each chunk, with its bytes and checksum, to the first node of its placement and names
      it the others. */
  lemma WriteIsSent(cfg: Config, s: State, client: Addr, file: string, folder: string, content: Bytes, chunkSize: nat,
                    picks: seq<Addr>, order: seq<Addr>, sent: nat, i: nat)
    requires CanWrite(cfg, s, client, file, content, chunkSize, picks, order, sent) && i < sent
    ensures var t := AfterWrite(cfg, s, client, file, folder, content, chunkSize, picks, order, sent);
            var part := Cuts(content, chunkSize)[i];
            && t.next == s.next + sent && s.next + i in t.items
            && t.items[s.next + i] == Flight(ChunkMsg(Write, file, ChunkName(file, i), order[1..], |part|,
                                                      cfg.hash(part), client, order[0], part))
  {
    WritePosts(cfg, s, client, file, folder, content, chunkSize, picks, order, sent);
    PartIsPosted(cfg, s, AfterWrite(cfg, s, client, file, folder, content, chunkSize, picks, order, sent), client, file,
                 Cuts(content, chunkSize), order, sent, i);
  }

  lemma PartIsPosted(cfg: Config, s: State, t: State, client: Addr, file: string, parts: seq<Bytes>, order: seq<Addr>,
                     sent: nat, i: nat)
    requires PoolOk(s) && i < sent <= |parts| && order != [] && t.next == s.next + sent
    requires t.items == Added(s.items, s.next, WriteMsgs(cfg, client, file, parts, order, sent))
    ensures t.next == s.next + sent && s.next + i in t.items
    ensures t.items[s.next + i] == Flight(ChunkMsg(Write, file, ChunkName(file, i), order[1..], |parts[i]|,
                                                   cfg.hash(parts[i]), client, order[0], parts[i]))
  {
    AddedAt(s.items, s.next, WriteMsgs(cfg, client, file, parts, order, sent), i);
  }

  lemma WritePosts(cfg: Config, s: State, client: Addr, file: string, folder: string, content: Bytes, chunkSize: nat,
                   picks: seq<Addr>, order: seq<Addr>, sent: nat)
    requires CanWrite(cfg, s, client, file, content, chunkSize, picks, order, sent)
    ensures var t := AfterWrite(cfg, s, client, file, folder, content, chunkSize, picks, order, sent);
            var out := WriteMsgs(cfg, client, file, Cuts(content, chunkSize), order, sent);
            t.items == Added(s.items, s.next, out) && t.next == s.next + sent
  {}

  /** A client that reads asks the first node of each row, in order, for its chunk. */
  lemma ReadIsSent(cfg: Config, s: State, client: Addr, file: string, table: seq<Location>, sent: nat, i: nat)
    requires CanStartRead(cfg, s, client, file, table, sent) && i < sent
    ensures var t := AfterStartRead(cfg, s, client, file, table, sent);
            && t.next == s.next + sent && s.next + i in t.items
            && t.items[s.next + i]
               == Flight(ChunkMsg(Read, file, table[i].chunk, [], 0, "", client, table[i].replicas[0], []))
  {
    var out := ReadMsgs(client, file, table, sent);
    assert AfterStartRead(cfg, s, client, file, table, sent).items[s.next + i] == out[i];
  }

  /** What a client keeps of a read it starts: the file's name and folder, how many chunks and bytes to wait for, the
      checksum to compare, and nothing received. */
  lemma ReadStartsOver(cfg: Config, s: State, client: Addr, file: string, table: seq<Location>, sent: nat)
    requires CanStartRead(cfg, s, client, file, table, sent)
    ensures var f := s.h.files[file];
            var session := AfterStartRead(cfg, s, client, file, table, sent).readers[client].session;
            && session.filePath == file && session.folder == f.folder && session.total == |f.parts|
            && session.fileSize == |f.content| && session.checksum == cfg.hash(f.content)
            && session.count == 0 && session.bytes == 0 && session.merges == 0 && session.kept == None
            && session.disk == (if client in s.readers then s.readers[client].session.disk else map[])
            && (session.crashed <==> sent == Firm(table) < |f.parts|)
  {}

  /** Typing /write, /delete or any other command overwrites the name and the folder it gives, and no more, of what the
      client keeps. */
  lemma CommandsOverwrite(cfg: Config, s: State, step: Step, cl: Addr)
    requires Enabled(cfg, s, step) && (step.WriteFile? || step.DeleteFile? || step.Command?)
    requires cl in s.readers
    ensures var was, now := s.readers[cl].session, Next(cfg, s, step).readers[cl].session;
            var name := if step.client != cl then None
                        else if step.Command? then step.fileName else Some(step.file);
            var folder := if step.client != cl || step.DeleteFile? then None
                          else if step.Command? then step.folderName else Some(step.folder);
            && now.filePath == (if name.Some? then name.value else was.filePath)
            && now.folder == (if folder.Some? then folder.value else was.folder)
            && now == was.(filePath := now.filePath, folder := now.folder)
  {
    match step
    case WriteFile(client, file, folder, _, _, _, _, _) =>
      TypingOverwrites(s.readers, client, Some(file), Some(folder), cl);
    case DeleteFile(client, file, _, _) => TypingOverwrites(s.readers, client, Some(file), None, cl);
    case Command(client, name, folder) => TypingOverwrites(s.readers, client, name, folder, cl);
  }

  lemma TypingOverwrites(readers: map<Addr, Reader>, client: Addr, name: Option<string>, folder: Option<string>,
                         cl: Addr)
    requires cl in readers
    ensures var was, now := readers[cl].session, AfterTyping(readers, client, name, folder)[cl].session;
            && now.filePath == (if client == cl && name.Some? then name.value else was.filePath)
            && now.folder == (if client == cl && folder.Some? then folder.value else was.folder)
            && now == was.(filePath := now.filePath, folder := now.folder)
  {}

  // ----- what the controller does -----

  /** A replacement asks the new node, if it can be dialled, to fetch the chunk from the survivors, each named once; the
      failed node leaves the chunk's holders, and no other holder of any chunk does. */
  lemma ReplacementIsAsked(cfg: Config, s: State, failed: Addr, k: Key, picks: seq<Addr>, order: seq<Addr>,
                           reach: set<Addr>)
    requires CanReplace(s, failed, k, picks, order)
    ensures var t := AfterReplace(cfg, s, failed, k, picks, order, reach);
            var n := Replacement(s.active.Keys, failed, Survivors(s, failed, k), picks).node;
            && (forall l :: Holders(t.index, l) == Holders(s.index, l) - if l == k then {failed} else {})
            && t.items == (if n in reach then s.items[s.next := Flight(ChunkMsg(
                             Replica, k.file, k.chunk, order, 0, "", cfg.controller, n, []))] else s.items)
            && Distinct(order) && (forall a :: a in order <==> a in Holders(s.index, k) && a != failed)
  {
    EnumeratesAll(order, Survivors(s, failed, k));
    ReplacePosts(cfg, s, failed, k, picks, order, reach);
  }

  lemma ReplacePosts(cfg: Config, s: State, failed: Addr, k: Key, picks: seq<Addr>, order: seq<Addr>, reach: set<Addr>)
    requires CanReplace(s, failed, k, picks, order)
    ensures var t := AfterReplace(cfg, s, failed, k, picks, order, reach);
            var n := Replacement(s.active.Keys, failed, Survivors(s, failed, k), picks).node;
            t.items == if n in reach
                       then s.items[s.next := Flight(ChunkMsg(
                         Replica, k.file, k.chunk, order, 0, "", cfg.controller, n, []))]
                       else s.items
  {
    var n := Replacement(s.active.Keys, failed, Survivors(s, failed, k), picks).node;
    if n in reach {
      AddedOne(s.items, s.next, ReplicaItems(cfg, k, order, n, reach)[0]);
    } else {
      AddedNone(s.items, s.next);
    }
  }

  /** Taking in a heartbeat adds its sender to the holders of every chunk it lists, and takes no holder away. */
  lemma HeartbeatIsIndexed(s: State, a: Addr, k: Key)
    requires CanTakeBeat(s, a)
    ensures var t := AfterTakeBeat(s, a);
            && Holders(t.index, k) == Holders(s.index, k) + (if k in s.beats[a][0] then {a} else {})
            && t.active == s.active[a := s.beats[a][0]] && t.beats[a] == s.beats[a][1..]
  {}

  /** A heartbeat lists each chunk the node has a record of under the file of the record. */
  lemma HeartbeatLists(s: State, a: Addr, k: Key)
    requires CanBeat(s, a)
    ensures var beats := AfterBeat(s, a).beats[a];
            && |beats| == |s.beats[a]| + 1 && beats[..|s.beats[a]|] == s.beats[a]
            && (k in beats[|beats| - 1] <==> k.chunk in s.nodes[a].meta && s.nodes[a].meta[k.chunk].file == k.file)
  {}

  // ----- what a client does with a chunk -----

  /** The file of that name in a download folder. */
  function OnDisk(s: Session, folder: string, name: string): Option<Bytes> {
    if name in Files(s.disk, folder) then Some(Files(s.disk, folder)[name]) else None
  }

  /** A complete chunk is saved in the client's current folder and counted; when both counters are complete the merge
      follows. */
  lemma ChunkIsSaved(hash: Bytes -> string, s: Session, m: ChunkMsg, folder: string, name: string)
    requires m.size <= |m.data| && !(s.count + 1 == s.total && s.bytes + m.size == s.fileSize)
    ensures var t := Accept(hash, s, m);
            && t == s.(count := s.count + 1, bytes := s.bytes + m.size, disk := t.disk)
            && OnDisk(t, folder, name) == if folder == s.folder && name == m.chunk then Some(m.data[..m.size])
                                          else OnDisk(s, folder, name)
  {}

  /** A chunk that ends early is saved as far as it came, and ends the client before anything is counted. */
  lemma ShortChunkEnds(hash: Bytes -> string, s: Session, m: ChunkMsg, folder: string, name: string)
    requires |m.data| < m.size
    ensures var t := Accept(hash, s, m);
            && t == s.(crashed := true, disk := t.disk)
            && OnDisk(t, folder, name) == if folder == s.folder && name == m.chunk then Some(m.data)
                                          else OnDisk(s, folder, name)
  {}

  /** A merge takes the chunk files it appended, and no others, off the disk. */
  lemma MergeTakesItsFiles(hash: Bytes -> string, s: Session, folder: string, name: string)
    requires Merge(Files(s.disk, s.folder), s.filePath, 0, s.total).Some?
    ensures var t := MergeAll(hash, s);
            && t == s.(disk := t.disk, merges := s.merges + 1, kept := t.kept)
            && OnDisk(t, folder, name) == if folder == s.folder && name in Names(s.filePath, s.total) then None
                                          else OnDisk(s, folder, name)
  {
    MergesAll(Files(s.disk, s.folder), s.filePath, 0, s.total);
  }

  // ----- what a restart and a death mean -----

  /** After a restart the controller knows no chunk of any file: until a heartbeat comes, a location table has no filled
      row, and a client that reads a file with chunks ends. */
  lemma RestartFindsNothing(cfg: Config, s: State, client: Addr, file: string, table: seq<Location>, sent: nat)
    ensures var t := Next(cfg, s, Restart);
            && t.h == s.h && t.nodes == s.nodes && t.items == s.items
            && (CanStartRead(cfg, t, client, file, table, sent) ==>
                  table == [] && sent == 0
                  && (s.h.files[file].parts != [] ==>
                        AfterStartRead(cfg, t, client, file, table, sent).readers[client].session.crashed))
  {
    var t := Next(cfg, s, Restart);
    if CanStartRead(cfg, t, client, file, table, sent) { NothingIsListed(table, file); }
  }

  lemma NothingIsListed(table: seq<Location>, file: string)
    requires Lists(table, map[], file)
    ensures table == []
  {
    if table != [] { FirstIsIndexed(table, map[], file); }
  }

  lemma FirstIsIndexed(table: seq<Location>, index: Index, file: string)
    requires Lists(table, index, file) && table != []
    ensures Key(file, table[0].chunk) in index
  {}

  /** A node that is down handles nothing more: only decay changes its disk. */
  lemma StepLeavesDead(cfg: Config, s: State, step: Step, a: Addr)
    requires Enabled(cfg, s, step) && a in s.down && a in s.nodes && !(step.Corrupt? && step.node == a)
    ensures var t := Next(cfg, s, step); a in t.down && a in t.nodes && t.nodes[a] == s.nodes[a]
  {
    if step.Deliver? {
      assert s.items[step.id].msg.receiver != a;
    }
  }

  /** The same of every run, from the step in which the node goes down on. */
  lemma {:induction false} DeadDisksStay(cfg: Config, s: State, steps: seq<Step>, t: State, a: Addr)
    requires a in s.nodes && Run(cfg, s, [GoDown(a)] + steps, t)
    requires forall i :: 0 <= i < |steps| ==> !(steps[i].Corrupt? && steps[i].node == a)
    ensures a in t.down && a in t.nodes && t.nodes[a] == s.nodes[a]
  {
    assert ([GoDown(a)] + steps)[1..] == steps;
    RunLeavesDead(cfg, Next(cfg, s, GoDown(a)), steps, t, a);
  }

  lemma {:induction false} RunLeavesDead(cfg: Config, s: State, steps: seq<Step>, t: State, a: Addr)
    requires a in s.down && a in s.nodes && Run(cfg, s, steps, t)
    requires forall i :: 0 <= i < |steps| ==> !(steps[i].Corrupt? && steps[i].node == a)
    ensures a in t.down && a in t.nodes && t.nodes[a] == s.nodes[a]
    decreases |steps|
  {
    if steps != [] {
      StepLeavesDead(cfg, s, steps[0], a);
      RunLeavesDead(cfg, Next(cfg, s, steps[0]), steps[1..], t, a);
    }
  }
}
