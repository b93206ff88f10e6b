/** What every step of the store keeps about its disks, its messages and its index. */
module Safety {
  import opened Types
  import opened Sets
  import opened Records
  import opened Chunking
  import opened NodeSpec
  import opened ControllerSpec
  import opened Cluster

  // ----- the invariant -----

  ghost predicate HistoryOk(cfg: Config, h: History) { PlacedOk(cfg, h) && OriginsOk(h) && FilesOk(h) }

  ghost predicate PlacedOk(cfg: Config, h: History) {
    h.origin.Keys == h.placed.Keys && forall c :: c in h.placed ==> h.placed[c] <= cfg.nodes
  }

  ghost predicate OriginsOk(h: History) { forall c :: c in h.origin ==> ComesFrom(h, c) }

  ghost predicate FilesOk(h: History) {
    && (forall f, i :: f in h.files && 0 <= i < |h.files[f].parts| ==> ChunkName(f, i) in h.origin)
    && (forall f :: f in h.files ==> FileOk(h.files[f]))
  }

  ghost predicate FileOk(f: File) { Concat(f.parts) == f.content && Total(f.parts) == |f.content| }

  ghost predicate ComesFrom(h: History, c: string)
    requires c in h.origin
  {
    var o := h.origin[c];
    o.file in h.files && o.index < |h.files[o.file].parts|
    && c == ChunkName(o.file, o.index) && o.bytes == h.files[o.file].parts[o.index]
  }

  ghost predicate Known(h: History, file: string, chunk: string) {
    chunk in h.origin && chunk in h.placed && h.origin[chunk].file == file
  }

  ghost predicate Placed(h: History, chunk: string, a: Addr) { chunk in h.placed && a in h.placed[chunk] }

  /** A message names a chunk that was cut, lists only nodes it was placed on, and if it carries the chunk it
      carries the bytes the writer cut and their checksum. */
  ghost predicate MsgOk(cfg: Config, h: History, m: ChunkMsg) {
    && Known(h, m.file, m.chunk)
    && (forall i :: 0 <= i < |m.replicas| ==> Placed(h, m.chunk, m.replicas[i]))
    && (m.kind != Write ==> m.data == [])
    && match m.kind
       case Write =>
         && m.data == h.origin[m.chunk].bytes && m.size == |m.data| && m.checksum == cfg.hash(m.data)
         && ((m.receiver in cfg.clients && m.replicas == []) || Placed(h, m.chunk, m.receiver))
       case Read =>
         && Placed(h, m.chunk, m.receiver)
         && ((m.sender in cfg.clients && m.replicas == []) || Placed(h, m.chunk, m.sender))
       case Replica =>
         Placed(h, m.chunk, m.receiver) || (m.receiver == cfg.controller && Placed(h, m.chunk, m.sender))
       case Delete => Placed(h, m.chunk, m.receiver) && m.file in h.deleted
  }

  /** Where a reply may go: to a client, which replicates nothing, or to a node the chunk was placed on. */
  ghost predicate Target(cfg: Config, h: History, m: ChunkMsg, a: Addr) {
    (a in cfg.clients && m.replicas == []) || Placed(h, m.chunk, a)
  }

  ghost predicate ItemOk(cfg: Config, h: History, item: Item) {
    match item
    case Flight(m) => MsgOk(cfg, h, m)
    case Repair(at, original, m) =>
      && Known(h, m.file, m.chunk) && (forall i :: 0 <= i < |m.replicas| ==> Placed(h, m.chunk, m.replicas[i]))
      && Placed(h, m.chunk, at) && Target(cfg, h, m, original) && Target(cfg, h, m, m.sender) && m.data == []
  }

  /** A node stores only chunks placed on it, each with the checksum of what the writer cut. */
  ghost predicate NodeOk(cfg: Config, h: History, a: Addr, n: Node) {
    && n.data.Keys == n.meta.Keys
    && forall c :: c in n.meta ==>
         Known(h, n.meta[c].file, c) && Placed(h, c, a)
         && n.meta[c].checksum == cfg.hash(h.origin[c].bytes) && n.meta[c].size == |h.origin[c].bytes|
  }

  /** Only a corruption since the last write makes stored bytes differ from what the writer cut. */
  ghost predicate CopiesOk(nodes: map<Addr, Node>, h: History, tainted: set<(Addr, string)>) {
    forall a, c :: a in nodes && c in nodes[a].data && c in h.origin && (a, c) !in tainted
      ==> nodes[a].data[c] == h.origin[c].bytes
  }

  ghost predicate AllOk(cfg: Config, h: History, out: seq<Item>) {
    forall j :: 0 <= j < |out| ==> ItemOk(cfg, h, out[j])
  }

  ghost predicate ItemsOk(cfg: Config, h: History, items: map<nat, Item>, next: nat) {
    forall id :: id in items ==> id < next && ItemOk(cfg, h, items[id])
  }

  ghost predicate NodesOk(cfg: Config, h: History, nodes: map<Addr, Node>) {
    nodes.Keys == cfg.nodes && forall a :: a in nodes ==> NodeOk(cfg, h, a, nodes[a])
  }

  ghost predicate StoreOk(cfg: Config, s: State) {
    && HistoryOk(cfg, s.h)
    && ItemsOk(cfg, s.h, s.items, s.next)
    && NodesOk(cfg, s.h, s.nodes)
    && CopiesOk(s.nodes, s.h, s.tainted)
    && s.beats.Keys == cfg.nodes
  }

  // ----- history only grows -----

  ghost predicate Extends(h: History, h': History) {
    && h.origin.Keys <= h'.origin.Keys && (forall c :: c in h.origin ==> h'.origin[c] == h.origin[c])
    && h.placed.Keys <= h'.placed.Keys && (forall c :: c in h.placed ==> h.placed[c] <= h'.placed[c])
    && h.deleted <= h'.deleted
  }

  lemma ItemsStayOk(cfg: Config, h: History, h': History, items: map<nat, Item>, next: nat)
    requires Extends(h, h') && ItemsOk(cfg, h, items, next)
    ensures ItemsOk(cfg, h', items, next)
  {
    forall id | id in items ensures ItemOk(cfg, h', items[id]) {
      var m := items[id].msg;
      assert ItemOk(cfg, h, items[id]);
      assert forall a :: Placed(h, m.chunk, a) ==> Placed(h', m.chunk, a);
    }
  }

  lemma NodesStayOk(cfg: Config, h: History, h': History, nodes: map<Addr, Node>)
    requires Extends(h, h') && NodesOk(cfg, h, nodes)
    ensures NodesOk(cfg, h', nodes)
  {
    forall a | a in nodes ensures NodeOk(cfg, h', a, nodes[a]) {
      assert NodeOk(cfg, h, a, nodes[a]);
    }
  }

  // ----- one handler -----

  /** Checksums survive the text line they are kept on. */
  lemma HashReadsAsIs(cfg: Config, bytes: Bytes)
    requires ConfigOk(cfg)
    ensures ReadsAs(cfg.hash(bytes)) == cfg.hash(bytes)
  {
    assert Plain(cfg.hash(bytes));
    PlainReadsAsIs(cfg.hash(bytes));
  }

  lemma HandleKeeps(cfg: Config, h: History, n: Node, m: ChunkMsg, reach: set<Addr>)
    requires ConfigOk(cfg) && HistoryOk(cfg, h) && MsgOk(cfg, h, m) && m.receiver in cfg.nodes
             && NodeOk(cfg, h, m.receiver, n)
    ensures var r := Handle(SiteOf(cfg, m.receiver), n, m, reach);
            NodeOk(cfg, h, m.receiver, r.node) && AllOk(cfg, h, r.out)
  {
    var at := SiteOf(cfg, m.receiver);
    match m.kind {
      case Write => SaveKeeps(cfg, h, n, m, reach);
      case Delete => RemoveKeeps(cfg, h, n, m, reach);
      case Replica => FetchKeeps(cfg, h, n, m, reach);
      case Read => ServeKeeps(cfg, h, m.receiver, n, m, m.sender, reach);
    }
  }

  lemma RemoveKeeps(cfg: Config, h: History, n: Node, m: ChunkMsg, reach: set<Addr>)
    requires MsgOk(cfg, h, m) && m.kind == Delete && NodeOk(cfg, h, m.receiver, n)
    ensures var r := DeleteChunk(SiteOf(cfg, m.receiver), n, m, reach);
            NodeOk(cfg, h, m.receiver, r.node) && AllOk(cfg, h, r.out)
  {
    var copy := m.(replicas := [], sender := m.receiver);
    var out := Forwards(copy, m.replicas, reach);
    forall j | 0 <= j < |out| ensures ItemOk(cfg, h, out[j]) {
      assert MsgOk(cfg, h, copy.(receiver := m.replicas[j]));
    }
  }

  lemma FetchKeeps(cfg: Config, h: History, n: Node, m: ChunkMsg, reach: set<Addr>)
    requires MsgOk(cfg, h, m) && m.kind == Replica && Placed(h, m.chunk, m.receiver)
    ensures var r := FetchFromReplica(SiteOf(cfg, m.receiver), n, m, reach);
            r.node == n && AllOk(cfg, h, r.out)
  {
    if m.replicas != [] {
      var m' := m.(kind := Read, replicas := m.replicas[1..], receiver := m.replicas[0], sender := m.receiver);
      assert Placed(h, m.chunk, m.replicas[0]);
      assert MsgOk(cfg, h, m');
    }
  }

  lemma SaveKeeps(cfg: Config, h: History, n: Node, m: ChunkMsg, reach: set<Addr>)
    requires ConfigOk(cfg) && HistoryOk(cfg, h) && MsgOk(cfg, h, m) && m.kind == Write
    requires m.receiver in cfg.nodes && NodeOk(cfg, h, m.receiver, n)
    ensures var r := SaveChunk(SiteOf(cfg, m.receiver), n, m, reach);
            NodeOk(cfg, h, m.receiver, r.node) && r.node.data[m.chunk] == h.origin[m.chunk].bytes
            && AllOk(cfg, h, r.out)
  {
    assert SavedBytes(m) == m.data;
    assert Placed(h, m.chunk, m.receiver);
    HashReadsAsIs(cfg, m.data);
    var copy := m.(replicas := [], sender := m.receiver, size := |m.data|, checksum := ReadsAs(m.checksum),
                   data := m.data);
    var out := Forwards(copy, m.replicas, reach);
    forall j | 0 <= j < |out| ensures ItemOk(cfg, h, out[j]) {
      assert Placed(h, m.chunk, m.replicas[j]);
      assert MsgOk(cfg, h, copy.(receiver := m.replicas[j]));
    }
    var r := SaveChunk(SiteOf(cfg, m.receiver), n, m, reach);
    assert NodeOk(cfg, h, m.receiver, r.node);
  }

  lemma ReplyKeeps(cfg: Config, h: History, a: Addr, m: ChunkMsg, to: Addr, data: Bytes, reach: set<Addr>)
    requires Known(h, m.file, m.chunk) && forall i :: 0 <= i < |m.replicas| ==> Placed(h, m.chunk, m.replicas[i])
    requires data == h.origin[m.chunk].bytes && m.size == |data| && m.checksum == cfg.hash(data)
    requires Target(cfg, h, m, to)
    ensures AllOk(cfg, h, Reply(SiteOf(cfg, a), m, to, data, reach))
  {
    assert MsgOk(cfg, h, m.(kind := Write, receiver := to, sender := a, data := data));
  }

  lemma SuspendKeeps(cfg: Config, h: History, a: Addr, m: ChunkMsg, original: Addr, reach: set<Addr>)
    requires Known(h, m.file, m.chunk) && forall i :: 0 <= i < |m.replicas| ==> Placed(h, m.chunk, m.replicas[i])
    requires Placed(h, m.chunk, a) && Target(cfg, h, m, original) && Target(cfg, h, m, m.sender) && m.data == []
    ensures AllOk(cfg, h, Suspend(SiteOf(cfg, a), m, original, reach))
  {
    var m' := m.(kind := Replica, sender := a, receiver := cfg.controller);
    assert MsgOk(cfg, h, m');
    assert ItemOk(cfg, h, Repair(a, original, m'));
    assert ItemOk(cfg, h, Repair(a, original, m));
  }

  /** A node answers a read only with the bytes the writer cut: the stored checksum is theirs and no other bytes hash
      to it. */
  lemma ServeKeeps(cfg: Config, h: History, a: Addr, n: Node, m: ChunkMsg, original: Addr, reach: set<Addr>)
    requires ConfigOk(cfg) && HistoryOk(cfg, h) && NodeOk(cfg, h, a, n)
    requires Known(h, m.file, m.chunk) && forall i :: 0 <= i < |m.replicas| ==> Placed(h, m.chunk, m.replicas[i])
    requires Placed(h, m.chunk, a) && Target(cfg, h, m, original) && Target(cfg, h, m, m.sender) && m.data == []
    ensures var r := Serve(SiteOf(cfg, a), n, m, original, reach);
            r.node == n && AllOk(cfg, h, r.out)
  {
    var r := Serve(SiteOf(cfg, a), n, m, original, reach);
    if m.chunk in n.data {
      var info := ChunkInfo(n, m);
      var data := n.data[m.chunk];
      HashReadsAsIs(cfg, h.origin[m.chunk].bytes);
      assert info.checksum == cfg.hash(h.origin[m.chunk].bytes);
      if cfg.hash(data) == info.checksum {
        ReplyKeeps(cfg, h, a, info, original, data, reach);
        assert r.out == Reply(SiteOf(cfg, a), info, original, data, reach);
      } else {
        SuspendKeeps(cfg, h, a, info, info.sender, reach);
        assert r.out == Suspend(SiteOf(cfg, a), info, info.sender, reach);
      }
    }
  }

  // ----- the index -----

  ghost predicate ListedOk(h: History, a: Addr, files: set<Key>) {
    forall k :: k in files ==> Known(h, k.file, k.chunk) && Placed(h, k.chunk, a)
  }

  /** The nodes a chunk was placed on whose failure has not been handled for it. */
  function Live(h: History, gone: map<string, set<Addr>>, c: string): set<Addr> {
    (if c in h.placed then h.placed[c] else {}) - (if c in gone then gone[c] else {})
  }

  ghost predicate GoneOk(h: History, gone: map<string, set<Addr>>, former: set<Addr>) {
    && gone.Keys == h.placed.Keys
    && (forall c :: c in gone ==> gone[c] <= former)
    && (forall c :: c in h.placed ==> |Live(h, gone, c)| <= MAX_REPLICAS)
  }

  ghost predicate EntriesOk(h: History, gone: map<string, set<Addr>>, index: Index) {
    forall k :: k in index ==> Known(h, k.file, k.chunk) && index[k] <= Live(h, gone, k.chunk)
  }

  ghost predicate ActiveOk(cfg: Config, h: History, former: set<Addr>, active: map<Addr, set<Key>>) {
    forall a :: a in active ==> a in cfg.nodes && a !in former && ListedOk(h, a, active[a])
  }

  ghost predicate ExpiredOk(h: History, gone: map<string, set<Addr>>, former: set<Addr>, expired: map<Addr, set<Key>>) {
    && (forall a :: a in expired ==> a in former && ListedOk(h, a, expired[a]))
    && (forall a, k :: a in expired && k in expired[a] ==> a in Live(h, gone, k.chunk))
  }

  ghost predicate BeatsOk(h: History, beats: map<Addr, seq<set<Key>>>) {
    forall a, i :: a in beats && 0 <= i < |beats[a]| ==> ListedOk(h, a, beats[a][i])
  }

  ghost predicate IndexOk(cfg: Config, s: State) {
    && GoneOk(s.h, s.gone, s.former)
    && EntriesOk(s.h, s.gone, s.index)
    && ActiveOk(cfg, s.h, s.former, s.active)
    && ExpiredOk(s.h, s.gone, s.former, s.expired)
    && BeatsOk(s.h, s.beats)
  }

  ghost predicate Inv(cfg: Config, s: State) { StoreOk(cfg, s) && IndexOk(cfg, s) }

  lemma KeyOfChunk(h: History, k: Key, l: Key)
    requires Known(h, k.file, k.chunk) && Known(h, l.file, l.chunk) && k.chunk == l.chunk
    ensures k == l
  {}

  predicate SameIndex(s: State, t: State) {
    t.h == s.h && t.gone == s.gone && t.index == s.index && t.active == s.active
    && t.expired == s.expired && t.beats == s.beats && t.former == s.former
  }

  predicate SameStore(s: State, t: State) { t.nodes == s.nodes && t.tainted == s.tainted }

  lemma SameHistoryIndex(cfg: Config, s: State, t: State)
    requires IndexOk(cfg, s) && SameIndex(s, t)
    ensures IndexOk(cfg, t)
  {}

  // ----- steps that only handle messages -----

  /** Taking some items and posting sound ones keeps the pool sound. */
  lemma PoolKeeps(cfg: Config, h: History, items: map<nat, Item>, taken: set<nat>, next: nat, out: seq<Item>)
    requires ItemsOk(cfg, h, items, next)
    requires AllOk(cfg, h, out)
    ensures ItemsOk(cfg, h, items - taken, next)
    ensures ItemsOk(cfg, h, Added(items - taken, next, out), next + |out|)
  {
    var items' := Added(items - taken, next, out);
    forall id | id in items' ensures id < next + |out| && ItemOk(cfg, h, items'[id]) {
      if id !in items - taken { assert items'[next + (id - next)] == out[id - next]; }
    }
  }

  lemma NodeKeeps(cfg: Config, h: History, nodes: map<Addr, Node>, a: Addr, n: Node)
    requires NodesOk(cfg, h, nodes) && a in nodes && NodeOk(cfg, h, a, n)
    ensures NodesOk(cfg, h, nodes[a := n])
  {}

  lemma CopiesShrink(nodes: map<Addr, Node>, h: History, tainted: set<(Addr, string)>, a: Addr, n: Node)
    requires CopiesOk(nodes, h, tainted) && a in nodes
    requires forall c :: c in n.data ==> c in nodes[a].data && n.data[c] == nodes[a].data[c]
    ensures CopiesOk(nodes[a := n], h, tainted)
  {}

  lemma CopyWritten(nodes: map<Addr, Node>, h: History, tainted: set<(Addr, string)>, a: Addr, n: Node, c: string)
    requires CopiesOk(nodes, h, tainted) && a in nodes && c in h.origin
    requires n.data == nodes[a].data[c := h.origin[c].bytes]
    ensures CopiesOk(nodes[a := n], h, tainted - {(a, c)})
  {
    forall b, d | b in nodes && d in nodes[a := n][b].data && d in h.origin && (b, d) !in tainted - {(a, c)}
      ensures nodes[a := n][b].data[d] == h.origin[d].bytes
    {
      if (b, d) != (a, c) { assert (b, d) !in tainted; }
    }
  }

  lemma DeliverItems(cfg: Config, s: State, id: nat, reach: set<Addr>)
    requires ConfigOk(cfg) && StoreOk(cfg, s) && CanDeliver(cfg, s, id)
    ensures var t := AfterDeliver(cfg, s, id, reach);
            ItemsOk(cfg, t.h, t.items, t.next) && NodesOk(cfg, t.h, t.nodes)
  {
    var m := s.items[id].msg;
    var r := Handle(SiteOf(cfg, m.receiver), s.nodes[m.receiver], m, reach);
    assert ItemOk(cfg, s.h, s.items[id]);
    HandleKeeps(cfg, s.h, s.nodes[m.receiver], m, reach);
    PoolKeeps(cfg, s.h, s.items, {id}, s.next, r.out);
    NodeKeeps(cfg, s.h, s.nodes, m.receiver, r.node);
  }

  lemma HandleShrinks(at: Site, n: Node, m: ChunkMsg, reach: set<Addr>)
    requires m.kind != Write
    ensures var n' := Handle(at, n, m, reach).node;
            forall c :: c in n'.data ==> c in n.data && n'.data[c] == n.data[c]
  {}

  lemma DeliverCopies(cfg: Config, s: State, id: nat, reach: set<Addr>)
    requires ConfigOk(cfg) && StoreOk(cfg, s) && CanDeliver(cfg, s, id)
    ensures var t := AfterDeliver(cfg, s, id, reach);
            CopiesOk(t.nodes, t.h, t.tainted)
  {
    var m := s.items[id].msg;
    var n := s.nodes[m.receiver];
    var r := Handle(SiteOf(cfg, m.receiver), n, m, reach);
    assert ItemOk(cfg, s.h, s.items[id]);
    if m.kind == Write {
      assert SavedBytes(m) == m.data;
      CopyWritten(s.nodes, s.h, s.tainted, m.receiver, r.node, m.chunk);
    } else {
      HandleShrinks(SiteOf(cfg, m.receiver), n, m, reach);
      CopiesShrink(s.nodes, s.h, s.tainted, m.receiver, r.node);
    }
  }

  lemma DeliverKeeps(cfg: Config, s: State, id: nat, reach: set<Addr>)
    requires ConfigOk(cfg) && Inv(cfg, s) && CanDeliver(cfg, s, id)
    ensures Inv(cfg, AfterDeliver(cfg, s, id, reach))
  {
    DeliverItems(cfg, s, id, reach);
    DeliverCopies(cfg, s, id, reach);
    SameHistoryIndex(cfg, s, AfterDeliver(cfg, s, id, reach));
  }

  /** The only messages addressed to the controller are requests for replicas by a node the chunk was placed on. */
  lemma NodesAreNotController(cfg: Config, h: History, m: ChunkMsg)
    requires ConfigOk(cfg) && HistoryOk(cfg, h) && MsgOk(cfg, h, m) && m.receiver == cfg.controller
    ensures m.kind == Replica && Placed(h, m.chunk, m.sender)
  {
    assert h.placed[m.chunk] <= cfg.nodes;
  }

  lemma HolderPlaced(cfg: Config, s: State, k: Key, a: Addr)
    requires IndexOk(cfg, s) && a in Holders(s.index, k)
    ensures Known(s.h, k.file, k.chunk) && Placed(s.h, k.chunk, a) && a in Live(s.h, s.gone, k.chunk)
  {
    assert s.index[k] <= Live(s.h, s.gone, k.chunk);
  }

  /** Steps that take items, post sound ones and touch nothing else the invariant speaks about. */
  lemma PostKeeps(cfg: Config, s: State, t: State, taken: set<nat>, out: seq<Item>)
    requires Inv(cfg, s) && AllOk(cfg, s.h, out)
    requires PoolOk(s) && Posted(s, t, taken, out)
    ensures Inv(cfg, t)
  {
    PoolKeeps(cfg, s.h, s.items, taken, s.next, out);
  }

  predicate Posted(s: State, t: State, taken: set<nat>, out: seq<Item>)
    requires PoolOk(s)
  {
    t.items == Added(s.items - taken, s.next, out) && t.next == s.next + |out| && SameStore(s, t) && SameIndex(s, t)
  }

  lemma TakeKeeps(cfg: Config, s: State, t: State, id: nat)
    requires Inv(cfg, s) && t.items == s.items - {id} && t.next == s.next && SameStore(s, t) && SameIndex(s, t)
    ensures Inv(cfg, t)
  {
    PoolKeeps(cfg, s.h, s.items, {id}, s.next, []);
  }

  lemma AnswerKeeps(cfg: Config, s: State, id: nat, order: seq<Addr>, reach: set<Addr>)
    requires ConfigOk(cfg) && Inv(cfg, s) && CanAnswer(cfg, s, id, order)
    ensures Inv(cfg, AfterAnswer(cfg, s, id, order, reach))
  {
    assert ItemOk(cfg, s.h, s.items[id]);
    AnswerIsOk(cfg, s, s.items[id].msg, order, reach);
    PostKeeps(cfg, s, AfterAnswer(cfg, s, id, order, reach), {id}, AnswerItems(cfg, s.items[id].msg, order, reach));
  }

  lemma AnswerIsOk(cfg: Config, s: State, m: ChunkMsg, order: seq<Addr>, reach: set<Addr>)
    requires ConfigOk(cfg) && HistoryOk(cfg, s.h) && IndexOk(cfg, s) && MsgOk(cfg, s.h, m)
             && m.receiver == cfg.controller
    requires Enumerates(order, Holders(s.index, Key(m.file, m.chunk)) - {m.sender})
    ensures AllOk(cfg, s.h, AnswerItems(cfg, m, order, reach))
  {
    NodesAreNotController(cfg, s.h, m);
    forall i | 0 <= i < |order| ensures Placed(s.h, m.chunk, order[i]) {
      EnumeratedIn(order, Holders(s.index, Key(m.file, m.chunk)) - {m.sender}, i);
      HolderPlaced(cfg, s, Key(m.file, m.chunk), order[i]);
    }
    AnswerOk(cfg, s.h, m, order, reach);
  }

  lemma AnswerOk(cfg: Config, h: History, m: ChunkMsg, order: seq<Addr>, reach: set<Addr>)
    requires MsgOk(cfg, h, m) && m.kind == Replica && Placed(h, m.chunk, m.sender)
    requires forall i :: 0 <= i < |order| ==> Placed(h, m.chunk, order[i])
    ensures AllOk(cfg, h, AnswerItems(cfg, m, order, reach))
  {}

  lemma WakeKeeps(cfg: Config, s: State, id: nat, reach: set<Addr>)
    requires ConfigOk(cfg) && Inv(cfg, s) && CanWake(cfg, s, id)
    ensures Inv(cfg, AfterWake(cfg, s, id, reach))
  {
    var item := s.items[id];
    var r := Serve(SiteOf(cfg, item.at), s.nodes[item.at], item.msg, item.original, reach);
    assert ItemOk(cfg, s.h, item);
    ServeKeeps(cfg, s.h, item.at, s.nodes[item.at], item.msg, item.original, reach);
    PostKeeps(cfg, s, AfterWake(cfg, s, id, reach), {id}, r.out);
  }

  lemma CopiesCorrupt(nodes: map<Addr, Node>, h: History, tainted: set<(Addr, string)>, a: Addr, n: Node, c: string)
    requires CopiesOk(nodes, h, tainted) && a in nodes
    requires forall d :: d in n.data && d != c ==> d in nodes[a].data && n.data[d] == nodes[a].data[d]
    ensures CopiesOk(nodes[a := n], h, tainted + {(a, c)})
  {
    forall b, d | b in nodes && d in nodes[a := n][b].data && d in h.origin && (b, d) !in tainted + {(a, c)}
      ensures nodes[a := n][b].data[d] == h.origin[d].bytes
    {
      assert (b, d) !in tainted;
    }
  }

  lemma CorruptNode(cfg: Config, h: History, a: Addr, n: Node, chunk: string, bytes: Bytes)
    requires NodeOk(cfg, h, a, n) && chunk in n.data
    ensures NodeOk(cfg, h, a, n.(data := n.data[chunk := bytes]))
  {
    assert n.data[chunk := bytes].Keys == n.data.Keys;
  }

  lemma CorruptNodes(cfg: Config, h: History, nodes: map<Addr, Node>, tainted: set<(Addr, string)>, a: Addr,
                     chunk: string, bytes: Bytes)
    requires NodesOk(cfg, h, nodes) && CopiesOk(nodes, h, tainted) && a in nodes && chunk in nodes[a].data
    ensures var n := nodes[a].(data := nodes[a].data[chunk := bytes]);
            NodesOk(cfg, h, nodes[a := n]) && CopiesOk(nodes[a := n], h, tainted + {(a, chunk)})
  {
    var n := nodes[a].(data := nodes[a].data[chunk := bytes]);
    CorruptNode(cfg, h, a, nodes[a], chunk, bytes);
    NodeKeeps(cfg, h, nodes, a, n);
    CopiesCorrupt(nodes, h, tainted, a, n, chunk);
  }

  lemma CorruptKeeps(cfg: Config, s: State, a: Addr, chunk: string, bytes: Bytes)
    requires Inv(cfg, s) && CanCorrupt(s, a, chunk)
    ensures Inv(cfg, AfterCorrupt(s, a, chunk, bytes))
  {
    CorruptNodes(cfg, s.h, s.nodes, s.tainted, a, chunk, bytes);
    SameHistoryIndex(cfg, s, AfterCorrupt(s, a, chunk, bytes));
  }

  lemma ReadsAreOk(cfg: Config, s: State, client: Addr, file: string, table: seq<Location>, sent: nat)
    requires IndexOk(cfg, s) && client in cfg.clients && Lists(table, s.index, file) && sent <= Firm(table)
    ensures AllOk(cfg, s.h, ReadMsgs(client, file, table, sent))
  {
    forall j | 0 <= j < sent ensures ItemOk(cfg, s.h, ReadMsgs(client, file, table, sent)[j]) {
      var l := table[j];
      EnumeratedIn(l.replicas, s.index[Key(file, l.chunk)], 0);
      HolderPlaced(cfg, s, Key(file, l.chunk), l.replicas[0]);
    }
  }

  lemma StartReadPosted(cfg: Config, s: State, client: Addr, file: string, table: seq<Location>, sent: nat)
    requires CanStartRead(cfg, s, client, file, table, sent)
    ensures Posted(s, AfterStartRead(cfg, s, client, file, table, sent), {}, ReadMsgs(client, file, table, sent))
  {
    assert s.items - {} == s.items;
  }

  lemma StartReadKeeps(cfg: Config, s: State, client: Addr, file: string, table: seq<Location>, sent: nat)
    requires ConfigOk(cfg) && Inv(cfg, s) && CanStartRead(cfg, s, client, file, table, sent)
    ensures Inv(cfg, AfterStartRead(cfg, s, client, file, table, sent))
  {
    StartReadPosted(cfg, s, client, file, table, sent);
    ReadsAreOk(cfg, s, client, file, table, sent);
    PostKeeps(cfg, s, AfterStartRead(cfg, s, client, file, table, sent), {}, ReadMsgs(client, file, table, sent));
  }
}
