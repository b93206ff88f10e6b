/** The whole store as one state machine: the disks of the storage nodes, the controller's index and node table, the
    readers, and the messages and sleeping handlers between them. Every handler run is one step, messages are
    delivered in any order, any dial may fail, stored bytes may rot, nodes may die and the controller may restart.

    `h`, `gone`, `former`, `tainted`, `lost`, `unanswered` and `undeleted` are history: no step consults them except
    to rule out runs in which a file name is used twice or a node the controller gave up reports again. Files are
    written under names every text line and directory can carry, and up to 2^53 bytes long. */
module Cluster {
  import opened Types
  import opened Records
  import opened Chunking
  import opened ChunkRecords
  import opened Placement
  import opened NodeSpec
  import opened ControllerSpec
  import opened ClientSpec
  import Float64
  import Text

  /** `dir` gives each node's storage directory. */
  datatype Config = Config(hash: Bytes -> string, controller: Addr, nodes: set<Addr>, clients: set<Addr>,
                           dir: Addr -> string)

  ghost predicate ConfigOk(cfg: Config) {
    Injective(cfg.hash) && cfg.controller !in cfg.nodes + cfg.clients && cfg.nodes !! cfg.clients && Printable(cfg)
  }

  /** Checksums are hexadecimal and storage directories plain, as far as a text line is concerned. */
  ghost predicate Printable(cfg: Config) {
    && (forall b {:trigger Plain(cfg.hash(b))} :: Plain(cfg.hash(b)))
    && (forall a {:trigger PlainDir(cfg.dir(a))} :: a in cfg.nodes ==> PlainDir(cfg.dir(a)))
  }

  datatype File = File(content: Bytes, parts: seq<Bytes>, folder: string)

  /** What the writer cut: part `index` of `file`. */
  datatype Origin = Origin(file: string, index: nat, bytes: Bytes)

  /** `placed` collects every node a chunk was ever sent to on purpose. */
  datatype History = History(
    files: map<string, File>, origin: map<string, Origin>, placed: map<string, set<Addr>>, deleted: set<string>)

  /** A client's read of `file`: the client's own state, and history. `begun` are the chunk files the read found,
      `arrived` the chunks that have come and `places` the folders they were saved in. `asked`: every chunk asked for
      had a holder. `disturbed`: a command was typed before the read was over. */
  datatype Reader = Reader(session: Session, file: string, begun: Folders, arrived: set<string>,
                           places: map<string, string>, asked: bool, disturbed: bool)

  /** The read is over: the file had chunks and they have all been counted. */
  predicate Done(r: Reader) { r.session.total > 0 && r.session.count == r.session.total }

  datatype State = State(
    nodes: map<Addr, Node>,
    down: set<Addr>,
    index: Index,
    active: map<Addr, set<Key>>,       // a node and what its last heartbeat listed
    expired: map<Addr, set<Key>>,      // nodes declared dead, with the chunks still to be replaced
    beats: map<Addr, seq<set<Key>>>,   // heartbeats on their way, oldest first
    items: map<nat, Item>,
    next: nat,
    readers: map<Addr, Reader>,
    h: History,
    gone: map<string, set<Addr>>,      // chunk -> nodes whose failure has been handled for it
    former: set<Addr>,                 // nodes ever declared dead
    tainted: set<(Addr, string)>,      // copies corrupted since they were last written
    lost: set<(string, Addr)>,         // a chunk and a node that some message or handler would have led to holding it
    unanswered: set<(string, Addr)>,   // a chunk and a node whose request for replicas, or the answer, was lost
    undeleted: set<(string, Addr)>)    // a chunk and a node that some request to delete it would have reached

  datatype Step =
    | WriteFile(client: Addr, file: string, folder: string, content: Bytes, chunkSize: nat,
                picks: seq<Addr>, order: seq<Addr>, sent: nat)
    | StartRead(client: Addr, file: string, table: seq<Location>, sent: nat)
    | Deliver(id: nat, reach: set<Addr>)
    | AnswerReplica(id: nat, order: seq<Addr>, reach: set<Addr>)
    | Receive(id: nat)
    | WakeUp(id: nat, reach: set<Addr>)
    | Drop(id: nat)
    | Corrupt(node: Addr, chunk: string, bytes: Bytes)
    | Beat(node: Addr)
    | TakeBeat(node: Addr)
    | Expire(node: Addr)
    | ReplaceFailed(failed: Addr, key: Key, picks: seq<Addr>, order: seq<Addr>, reach: set<Addr>)
    | GoDown(node: Addr)
    | DeleteFile(client: Addr, file: string, table: seq<Location>, reach: set<Addr>)
    | Command(client: Addr, fileName: Option<string>, folderName: Option<string>)
    | Restart

  // ----- the pool of messages and sleeping handlers -----

  function Added(items: map<nat, Item>, next: nat, out: seq<Item>): (r: map<nat, Item>)
    requires forall id :: id in items ==> id < next
    ensures forall id :: id in r <==> id in items || next <= id < next + |out|
    ensures forall id :: id in items ==> r[id] == items[id]
    ensures forall j :: 0 <= j < |out| ==> r[next + j] == out[j]
  {
    map id: nat | id < next + |out| && (id in items || next <= id) :: if id in items then items[id] else out[id - next]
  }

  predicate PoolOk(s: State) { forall id :: id in s.items ==> id < s.next }

  function Post(s: State, out: seq<Item>): State
    requires PoolOk(s)
  {
    s.(items := Added(s.items, s.next, out), next := s.next + |out|)
  }

  function Take(s: State, id: nat): State { s.(items := s.items - {id}) }

  function SiteOf(cfg: Config, a: Addr): Site { Site(a, cfg.controller, cfg.hash) }

  /** The client an item's outcome will reach, when it is a client. */
  function BoundFor(cfg: Config, item: Item): Option<Addr> {
    match item
    case Repair(_, original, _) => if original in cfg.clients then Some(original) else None
    case Flight(m) =>
      if m.kind == Read && m.sender in cfg.clients then Some(m.sender)
      else if m.kind == Write && m.receiver in cfg.clients then Some(m.receiver)
      else None
  }

  /** The nodes an item leads to holding its chunk, unless something on the way comes to nothing. */
  function LeadsTo(item: Item): set<Addr> {
    match item
    case Repair(_, original, _) => {original}
    case Flight(m) =>
      match m.kind
      case Write => {m.receiver} + (set a | a in m.replicas)
      case Replica => if m.replicas == [] then {} else {m.receiver}
      case Read => {m.sender}
      case Delete => {}
  }

  /** The nodes an item will have delete its chunk, unless something on the way comes to nothing. */
  function Removes(item: Item): set<Addr> {
    if item.Flight? && item.msg.kind == Delete then {item.msg.receiver} + (set a | a in item.msg.replicas) else {}
  }

  function Pairs(c: string, to: set<Addr>): set<(string, Addr)> { set a | a in to :: (c, a) }

  // ----- what a client's commands do -----

  /** A client whose program has ended does nothing more. */
  predicate ClientRuns(s: State, client: Addr) { client in s.readers ==> !s.readers[client].session.crashed }

  function Heard(r: Reader, name: Option<string>, folder: Option<string>): Reader {
    r.(session := Typed(r.session, name, folder), disturbed := r.disturbed || !Done(r))
  }

  /** A command overwrites the globals a read under way depends on. */
  function AfterTyping(readers: map<Addr, Reader>, client: Addr, name: Option<string>,
                       folder: Option<string>): map<Addr, Reader> {
    if client in readers then readers[client := Heard(readers[client], name, folder)] else readers
  }

  // ----- the steps -----

  function WriteMsg(cfg: Config, client: Addr, file: string, parts: seq<Bytes>, order: seq<Addr>, i: nat): ChunkMsg
    requires i < |parts| && |order| > 0
  {
    ChunkMsg(Write, file, ChunkName(file, i), order[1..], |parts[i]|, cfg.hash(parts[i]), client, order[0], parts[i])
  }

  function WriteMsgs(cfg: Config, client: Addr, file: string, parts: seq<Bytes>, order: seq<Addr>, sent: nat): seq<Item>
    requires sent <= |parts| && |order| > 0
  {
    seq(sent, i requires 0 <= i < sent => Flight(WriteMsg(cfg, client, file, parts, order, i)))
  }

  function Register(h: History, file: string, f: File, nodes: set<Addr>): History {
    var names := Names(file, |f.parts|);
    History(h.files[file := f],
            h.origin + OriginsOf(file, f.parts),
            h.placed + (map c | c in names :: nodes),
            h.deleted)
  }

  function OriginsOf(file: string, parts: seq<Bytes>): map<string, Origin> {
    if parts == [] then map[]
    else
      var last := |parts| - 1;
      OriginsOf(file, parts[..last])[ChunkName(file, last) := Origin(file, last, parts[last])]
  }

  /** The names, sizes and directories a file can be written under. */
  ghost predicate Writable(cfg: Config, file: string, content: Bytes, chunkSize: nat) {
    && GoodName(file) && |content| <= Float64.P53 && 0 < chunkSize < 0x8000_0000_0000_0000
    && ShortLines(cfg, file, Cuts(content, chunkSize))
  }

  ghost predicate ShortLines(cfg: Config, file: string, parts: seq<Bytes>) {
    forall i: nat, a {:trigger RecordText(cfg.dir(a), ChunkName(file, i), CutRecord(cfg, file, parts[i]))} ::
      i < |parts| && a in cfg.nodes ==> |RecordText(cfg.dir(a), ChunkName(file, i),
                                                    CutRecord(cfg, file, parts[i]))| <= Text.MAX_LINE
  }

  function CutRecord(cfg: Config, file: string, part: Bytes): Record { Record(file, |part|, cfg.hash(part)) }

  /** The controller accepts a new file and the client sends its chunks, until the main node cannot be dialled. */
  ghost predicate CanWrite(cfg: Config, s: State, client: Addr, file: string, content: Bytes, chunkSize: nat,
                           picks: seq<Addr>, order: seq<Addr>, sent: nat) {
    && PoolOk(s) && client in cfg.clients && ClientRuns(s, client) && file !in s.h.files && chunkSize > 0
    && Writable(cfg, file, content, chunkSize)
    && s.active != map[] && Drawn(picks, s.active.Keys)
    && (var nodes := Place(s.active.Keys, {}, picks); nodes.Some? && Enumerates(order, nodes.value) && order != [])
    && sent <= |Cuts(content, chunkSize)|
  }

  /** The chunks that were not sent, with the nodes they were meant for. */
  function Unsent(file: string, total: nat, sent: nat, order: seq<Addr>): set<(string, Addr)> {
    set i, a | sent <= i < total && a in order :: (ChunkName(file, i), a)
  }

  ghost function AfterWrite(cfg: Config, s: State, client: Addr, file: string, folder: string, content: Bytes,
                            chunkSize: nat,
                            picks: seq<Addr>, order: seq<Addr>, sent: nat): State
    requires CanWrite(cfg, s, client, file, content, chunkSize, picks, order, sent)
  {
    var parts := Cuts(content, chunkSize);
    var names := Names(file, |parts|);
    Post(s, WriteMsgs(cfg, client, file, parts, order, sent)).(
      h := Register(s.h, file, File(content, parts, folder), set a | a in order),
      gone := s.gone + (map c | c in names :: {}),
      lost := s.lost + Unsent(file, |parts|, sent, order),
      readers := AfterTyping(s.readers, client, Some(file), Some(folder)))
  }

  function ReadMsg(client: Addr, file: string, l: Location): ChunkMsg
    requires l.replicas != []
  {
    ChunkMsg(Read, file, l.chunk, [], 0, "", client, l.replicas[0], [])
  }

  /** How many rows at the head of a table have a holder to ask. */
  function Firm(table: seq<Location>): (n: nat)
    ensures n <= |table| && forall i :: 0 <= i < n ==> table[i].replicas != []
    ensures n < |table| ==> table[n].replicas == []
  {
    if table == [] || table[0].replicas == [] then 0
    else
      var n := 1 + Firm(table[1..]);
      assert forall i :: 0 <= i < n ==> table[i].replicas != [] by {
        forall i | 0 < i < n ensures table[i].replicas != [] { assert table[1..][i - 1] == table[i]; }
      }
      n
  }

  predicate AllHeld(table: seq<Location>) { forall i :: 0 <= i < |table| ==> table[i].replicas != [] }

  function ReadMsgs(client: Addr, file: string, table: seq<Location>, sent: nat): seq<Item>
    requires sent <= Firm(table)
  {
    seq(sent, i requires 0 <= i < sent => Flight(ReadMsg(client, file, table[i])))
  }

  /** A client with no read outstanding asks for a file and is sent its location table. */
  ghost predicate CanStartRead(cfg: Config, s: State, client: Addr, file: string, table: seq<Location>, sent: nat) {
    && PoolOk(s) && client in cfg.clients && ClientRuns(s, client) && file in s.h.files && file !in s.h.deleted
    && (forall id :: id in s.items ==> BoundFor(cfg, s.items[id]) != Some(client))
    && Lists(table, s.index, file) && sent <= Firm(table)
  }

  /** The table has a row for every chunk, but rows of chunks the index does not know are empty, as are those of chunks
      without a holder; the client asks one holder a row, until a dial fails, and ends at the first empty row. */
  predicate FindsEmptyRow(table: seq<Location>, total: nat, sent: nat) { sent == Firm(table) && sent < total }

  ghost function AfterStartRead(cfg: Config, s: State, client: Addr, file: string, table: seq<Location>,
                                sent: nat): State
    requires CanStartRead(cfg, s, client, file, table, sent)
  {
    var disk := if client in s.readers then s.readers[client].session.disk else map[];
    var asked := !FindsEmptyRow(table, |s.h.files[file].parts|, sent);
    Post(s, ReadMsgs(client, file, table, sent)).(readers := s.readers[client := NewReader(cfg, s.h.files[file], file,
        disk, asked)])
  }

  function NewReader(cfg: Config, f: File, file: string, disk: Folders, asked: bool): Reader {
    var session := Begin(disk, file, f.folder, |f.parts|, |f.content|, cfg.hash(f.content));
    Reader(session.(crashed := !asked), file, disk, {}, map[], asked, false)
  }

  predicate CanDeliver(cfg: Config, s: State, id: nat) {
    && PoolOk(s) && id in s.items && s.items[id].Flight?
    && s.items[id].msg.receiver in cfg.nodes && s.items[id].msg.receiver in s.nodes
      && s.items[id].msg.receiver !in s.down
  }

  /** The nodes of a list from the first that cannot be dialled. */
  function Skipped(replicas: seq<Addr>, reach: set<Addr>): set<Addr> {
    set i, j | 0 <= j <= i < |replicas| && replicas[j] !in reach :: replicas[i]
  }

  /** The node's copy of the chunk has the checksum its metadata file says; a missing one says nothing. */
  predicate Validates(hash: Bytes -> string, n: Node, c: string) {
    c in n.data && hash(n.data[c]) == if c in n.meta then ReadsAs(n.meta[c].checksum) else ""
  }

  /** Whoever asked for the chunk gets nothing: it is not there, or it is and the asker cannot be dialled. */
  predicate Unserved(hash: Bytes -> string, n: Node, c: string, asker: Addr, reach: set<Addr>) {
    c !in n.data || (Validates(hash, n, c) && asker !in reach)
  }

  /** The nodes a message leads to that do not get what it leads to, because of a dial that fails or a chunk that is not
      there. */
  function Misses(cfg: Config, n: Node, m: ChunkMsg, reach: set<Addr>): set<Addr> {
    match m.kind
    case Write => Skipped(m.replicas, reach)
    case Replica => if m.replicas != [] && m.replicas[0] !in reach then {m.receiver} else {}
    case Read => if Unserved(cfg.hash, n, m.chunk, m.sender, reach) then {m.sender} else {}
    case Delete => {}
  }

  /** The nodes a request to delete does not reach: those behind a failed dial, or all of them if the chunk is not
      there, which ends the node. */
  function Spared(n: Node, m: ChunkMsg, reach: set<Addr>): set<Addr> {
    if m.kind != Delete then {}
    else if m.chunk in n.meta && m.chunk in n.data then Skipped(m.replicas, reach)
    else set a | a in m.replicas
  }

  function AfterDeliver(cfg: Config, s: State, id: nat, reach: set<Addr>): State
    requires CanDeliver(cfg, s, id)
  {
    var m := s.items[id].msg;
    var r := Handle(SiteOf(cfg, m.receiver), s.nodes[m.receiver], m, reach);
    Post(Take(s, id), r.out).(
      nodes := s.nodes[m.receiver := r.node],
      down := if r.crashed then s.down + {m.receiver} else s.down,
      tainted := if m.kind == Write then s.tainted - {(m.receiver, m.chunk)} else s.tainted,
      lost := s.lost + Pairs(m.chunk, Misses(cfg, s.nodes[m.receiver], m, reach)),
      undeleted := s.undeleted + Pairs(m.chunk, Spared(s.nodes[m.receiver], m, reach)))
  }

  /** The controller answers a node's request for replicas with the other indexed holders. */
  predicate CanAnswer(cfg: Config, s: State, id: nat, order: seq<Addr>) {
    && PoolOk(s) && id in s.items && s.items[id].Flight? && s.items[id].msg.receiver == cfg.controller
    && (var m := s.items[id].msg; Enumerates(order, Holders(s.index, Key(m.file, m.chunk)) - {m.sender}))
  }

  function AnswerItems(cfg: Config, m: ChunkMsg, order: seq<Addr>, reach: set<Addr>): seq<Item> {
    if m.sender in reach then [Flight(m.(replicas := order, receiver := m.sender, sender := cfg.controller))] else []
  }

  /** The asker can be dialled, and there is another holder to tell it of. */
  predicate Answerable(s: State, m: ChunkMsg, reach: set<Addr>) {
    m.sender in reach && Holders(s.index, Key(m.file, m.chunk)) - {m.sender} != {}
  }

  function AfterAnswer(cfg: Config, s: State, id: nat, order: seq<Addr>, reach: set<Addr>): State
    requires CanAnswer(cfg, s, id, order)
  {
    var m := s.items[id].msg;
    Post(Take(s, id), AnswerItems(cfg, m, order, reach)).(
      unanswered := if Answerable(s, m, reach) then s.unanswered else s.unanswered + {(m.chunk, m.sender)})
  }

  predicate CanReceive(cfg: Config, s: State, id: nat) {
    && PoolOk(s) && id in s.items && s.items[id].Flight? && s.items[id].msg.kind == Write
    && s.items[id].msg.receiver in cfg.clients && s.items[id].msg.receiver in s.readers
      && ClientRuns(s, s.items[id].msg.receiver)
  }

  function Receiving(hash: Bytes -> string, r: Reader, m: ChunkMsg): Reader {
    r.(session := Accept(hash, r.session, m), arrived := r.arrived + {m.chunk},
       places := r.places[m.chunk := r.session.folder])
  }

  function AfterReceive(cfg: Config, s: State, id: nat): State
    requires CanReceive(cfg, s, id)
  {
    var m := s.items[id].msg;
    Take(s, id).(readers := s.readers[m.receiver := Receiving(cfg.hash, s.readers[m.receiver], m)])
  }

  predicate CanWake(cfg: Config, s: State, id: nat) {
    && PoolOk(s) && id in s.items && s.items[id].Repair?
    && s.items[id].at in s.nodes && s.items[id].at in cfg.nodes && s.items[id].at !in s.down
  }

  /** Whoever the sleeping handler was to answer gets nothing, or the handler goes back to sleep with another address to
      answer. */
  predicate Forsakes(cfg: Config, n: Node, item: Item, reach: set<Addr>)
    requires item.Repair?
  {
    || Unserved(cfg.hash, n, item.msg.chunk, item.original, reach)
    || (!Validates(cfg.hash, n, item.msg.chunk) && item.msg.sender != item.original)
  }

  function AfterWake(cfg: Config, s: State, id: nat, reach: set<Addr>): State
    requires CanWake(cfg, s, id)
  {
    var item := s.items[id];
    var r := Serve(SiteOf(cfg, item.at), s.nodes[item.at], item.msg, item.original, reach);
    Post(Take(s, id), r.out).(
      down := if r.crashed then s.down + {item.at} else s.down,
      lost := if Forsakes(cfg, s.nodes[item.at], item, reach) then s.lost + {(item.msg.chunk, item.original)}
              else s.lost)
  }

  /** The node that has asked the controller for the replicas of a chunk. */
  function Asker(cfg: Config, item: Item): set<Addr> {
    if item.Flight? && item.msg.kind == Replica && item.msg.receiver == cfg.controller then {item.msg.sender} else {}
  }

  function AfterDrop(cfg: Config, s: State, id: nat): State
    requires id in s.items
  {
    var item := s.items[id];
    Take(s, id).(lost := s.lost + Pairs(item.msg.chunk, LeadsTo(item)),
                 unanswered := s.unanswered + Pairs(item.msg.chunk, Asker(cfg, item)),
                 undeleted := s.undeleted + Pairs(item.msg.chunk, Removes(item)))
  }

  predicate CanCorrupt(s: State, a: Addr, chunk: string) { a in s.nodes && chunk in s.nodes[a].data }

  function AfterCorrupt(s: State, a: Addr, chunk: string, bytes: Bytes): State
    requires CanCorrupt(s, a, chunk)
  {
    var n := s.nodes[a];
    s.(nodes := s.nodes[a := n.(data := n.data[chunk := bytes])], tainted := s.tainted + {(a, chunk)})
  }

  predicate CanBeat(s: State, a: Addr) { a in s.nodes && a !in s.down && a in s.beats }

  function AfterBeat(s: State, a: Addr): State
    requires CanBeat(s, a)
  {
    s.(beats := s.beats[a := s.beats[a] + [Listing(s.nodes[a])]])
  }

  predicate CanTakeBeat(s: State, a: Addr) { a in s.beats && s.beats[a] != [] && a !in s.former }

  function AfterTakeBeat(s: State, a: Addr): State
    requires CanTakeBeat(s, a)
  {
    var files := s.beats[a][0];
    s.(index := Report(s.index, a, files), active := s.active[a := files], beats := s.beats[a := s.beats[a][1..]])
  }

  function AfterExpire(s: State, a: Addr): State
    requires a in s.active
  {
    s.(active := s.active - {a}, expired := s.expired[a := s.active[a]], former := s.former + {a})
  }

  function Survivors(s: State, failed: Addr, k: Key): set<Addr> { Holders(s.index, k) - {failed} }

  function ReplicaItems(cfg: Config, k: Key, order: seq<Addr>, to: Addr, reach: set<Addr>): seq<Item> {
    if to in reach then [Flight(ReplicaMsg(cfg, k, order, to))] else []
  }

  predicate CanReplace(s: State, failed: Addr, k: Key, picks: seq<Addr>, order: seq<Addr>) {
    && PoolOk(s) && failed in s.expired && k in s.expired[failed] && |s.active| >= MAX_REPLICAS
    && Enumerates(order, Survivors(s, failed, k)) && Drawn(picks, s.active.Keys)
    && Replacement(s.active.Keys, failed, Survivors(s, failed, k), picks).Chosen?
  }

  function Union(m: map<string, set<Addr>>, c: string, a: Addr): map<string, set<Addr>> {
    m[c := (if c in m then m[c] else {}) + {a}]
  }

  function ReplicaMsg(cfg: Config, k: Key, order: seq<Addr>, to: Addr): ChunkMsg {
    ChunkMsg(Replica, k.file, k.chunk, order, 0, "", cfg.controller, to, [])
  }

  function AfterReplace(cfg: Config, s: State, failed: Addr, k: Key, picks: seq<Addr>, order: seq<Addr>,
                        reach: set<Addr>): State
    requires CanReplace(s, failed, k, picks, order)
  {
    var n := Replacement(s.active.Keys, failed, Survivors(s, failed, k), picks).node;
    Post(s, ReplicaItems(cfg, k, order, n, reach)).(
      index := RemoveHolder(s.index, k, failed),
      expired := s.expired[failed := s.expired[failed] - {k}],
      h := s.h.(placed := Union(s.h.placed, k.chunk, n)),
      gone := Union(s.gone, k.chunk, failed),
      lost := if n in reach && Survivors(s, failed, k) != {} then s.lost else s.lost + {(k.chunk, n)})
  }

  function DeleteMsg(cfg: Config, file: string, l: Location): ChunkMsg
    requires l.replicas != []
  {
    ChunkMsg(Delete, file, l.chunk, l.replicas[1..], 0, "", cfg.controller, l.replicas[0], [])
  }

  function DeleteMsgs(cfg: Config, file: string, table: seq<Location>, reach: set<Addr>): seq<Item>
    requires AllHeld(table)
  {
    if table == [] then []
    else
      var rest := DeleteMsgs(cfg, file, table[1..], reach);
      var first := Flight(DeleteMsg(cfg, file, table[0]));
      if table[0].replicas[0] in reach then [first] + rest else rest
  }

  lemma {:induction false} DeletesNameRows(cfg: Config, file: string, table: seq<Location>, reach: set<Addr>, j: nat)
    returns (i: nat)
    requires AllHeld(table) && j < |DeleteMsgs(cfg, file, table, reach)|
    ensures i < |table| && DeleteMsgs(cfg, file, table, reach)[j] == Flight(DeleteMsg(cfg, file, table[i]))
  {
    var sent := if table[0].replicas[0] in reach then 1 else 0;
    if j < sent {
      i := 0;
    } else {
      i := DeletesNameRows(cfg, file, table[1..], reach, j - sent);
      i := i + 1;
    }
  }

  /** A client's delete of a file the index knows. */
  ghost predicate CanDelete(cfg: Config, s: State, client: Addr, file: string, table: seq<Location>) {
    && PoolOk(s) && client in cfg.clients && ClientRuns(s, client) && file in s.h.files && file !in s.h.deleted
    && Lists(table, s.index, file) && table != []
  }

  /** The nodes of the rows whose first node could not be dialled, and of those the controller did not come to. */
  function Untold(table: seq<Location>, reach: set<Addr>): set<(string, Addr)> {
    set i, a | 0 <= i < |table| && a in table[i].replicas && (Firm(table) <= i || table[i].replicas[0] !in reach)
      :: (table[i].chunk, a)
  }

  /** The requests for the rows before the first one without a holder; at that row the controller ends, and what it knew
      beside its catalogue is gone. A file whose deletion has begun counts as deleted. */
  ghost function AfterDelete(cfg: Config, s: State, client: Addr, file: string, table: seq<Location>,
                             reach: set<Addr>): State
    requires CanDelete(cfg, s, client, file, table)
  {
    var firm := table[..Firm(table)];
    var ends := Firm(table) < |table|;
    Post(s, DeleteMsgs(cfg, file, firm, reach)).(
      index := if ends then map[] else ForgetFile(s.index, file),
      active := if ends then map[] else s.active,
      expired := if ends then map[] else s.expired,
      h := s.h.(deleted := s.h.deleted + {file}),
      undeleted := s.undeleted + Untold(table, reach),
      readers := AfterTyping(s.readers, client, Some(file), None))
  }

  /** The index, the node table and the failures under way are lost; the catalogue comes back from disk. */
  function AfterRestart(s: State): State { s.(index := map[], active := map[], expired := map[]) }

  ghost predicate Enabled(cfg: Config, s: State, step: Step) {
    match step
    case WriteFile(client, file, folder, content, chunkSize, picks, order, sent) =>
      CanWrite(cfg, s, client, file, content, chunkSize, picks, order, sent)
    case StartRead(client, file, table, sent) => CanStartRead(cfg, s, client, file, table, sent)
    case Deliver(id, _) => CanDeliver(cfg, s, id)
    case AnswerReplica(id, order, _) => CanAnswer(cfg, s, id, order)
    case Receive(id) => CanReceive(cfg, s, id)
    case WakeUp(id, _) => CanWake(cfg, s, id)
    case Drop(id) => id in s.items
    case Corrupt(a, chunk, _) => CanCorrupt(s, a, chunk)
    case Beat(a) => CanBeat(s, a)
    case TakeBeat(a) => CanTakeBeat(s, a)
    case Expire(a) => a in s.active
    case ReplaceFailed(failed, k, picks, order, _) => CanReplace(s, failed, k, picks, order)
    case GoDown(a) => a in s.nodes
    case DeleteFile(client, file, table, _) => CanDelete(cfg, s, client, file, table)
    case Command(client, _, _) => client in cfg.clients && ClientRuns(s, client)
    case Restart => true
  }

  ghost function Next(cfg: Config, s: State, step: Step): State
    requires Enabled(cfg, s, step)
  {
    match step
    case WriteFile(client, file, folder, content, chunkSize, picks, order, sent) =>
      AfterWrite(cfg, s, client, file, folder, content, chunkSize, picks, order, sent)
    case StartRead(client, file, table, sent) => AfterStartRead(cfg, s, client, file, table, sent)
    case Deliver(id, reach) => AfterDeliver(cfg, s, id, reach)
    case AnswerReplica(id, order, reach) => AfterAnswer(cfg, s, id, order, reach)
    case Receive(id) => AfterReceive(cfg, s, id)
    case WakeUp(id, reach) => AfterWake(cfg, s, id, reach)
    case Drop(id) => AfterDrop(cfg, s, id)
    case Corrupt(a, chunk, bytes) => AfterCorrupt(s, a, chunk, bytes)
    case Beat(a) => AfterBeat(s, a)
    case TakeBeat(a) => AfterTakeBeat(s, a)
    case Expire(a) => AfterExpire(s, a)
    case ReplaceFailed(failed, k, picks, order, reach) => AfterReplace(cfg, s, failed, k, picks, order, reach)
    case GoDown(a) => s.(down := s.down + {a})
    case DeleteFile(client, file, table, reach) => AfterDelete(cfg, s, client, file, table, reach)
    case Command(client, name, folder) => s.(readers := AfterTyping(s.readers, client, name, folder))
    case Restart => AfterRestart(s)
  }

  function Start(cfg: Config): State {
    State(map a | a in cfg.nodes :: Node(map[], map[], 0), {}, map[], map[], map[],
          map a | a in cfg.nodes :: [], map[], 0, map[],
          History(map[], map[], map[], {}), map[], {}, {}, {}, {}, {})
  }

  /** The states a run of steps goes through from `s`. */
  ghost predicate Run(cfg: Config, s: State, steps: seq<Step>, t: State)
    decreases |steps|
  {
    if steps == [] then s == t
    else Enabled(cfg, s, steps[0]) && Run(cfg, Next(cfg, s, steps[0]), steps[1..], t)
  }

  ghost predicate Reachable(cfg: Config, s: State) { exists steps :: Run(cfg, Start(cfg), steps, s) }
}
