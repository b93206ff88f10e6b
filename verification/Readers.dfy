/** Reading a file back, in every reachable state: what is on its way to each client, and what its read comes to. */
module Readers {
  import opened Types
  import opened Sets
  import opened Records
  import opened Chunking
  import opened Placement
  import opened Reading
  import opened NodeSpec
  import opened ControllerSpec
  import opened ClientSpec
  import opened Cluster
  import opened Safety
  import opened SafetySteps

  // ----- what is on its way to a reader -----

  /** A sleeping handler whose message still names a client answers that client. */
  ghost predicate SenderOk(cfg: Config, item: Item) {
    item.Repair? && item.msg.sender in cfg.clients ==> item.msg.sender == item.original
  }

  ghost predicate Awaited(cfg: Config, readers: map<Addr, Reader>, item: Item) {
    var b := BoundFor(cfg, item);
    b.Some? ==>
      b.value in readers && item.msg.file == readers[b.value].file && item.msg.chunk !in readers[b.value].arrived
  }

  ghost predicate Clash(cfg: Config, x: Item, y: Item) {
    BoundFor(cfg, x).Some? && BoundFor(cfg, x) == BoundFor(cfg, y) && x.msg.chunk == y.msg.chunk
  }

  ghost predicate BoundOk(cfg: Config, items: map<nat, Item>, readers: map<Addr, Reader>) {
    && (forall id :: id in items ==> SenderOk(cfg, items[id]) && Awaited(cfg, readers, items[id]))
    && (forall i, j :: i in items && j in items && Clash(cfg, items[i], items[j]) ==> i == j)
  }

  ghost predicate ReadersOk(cfg: Config, h: History, readers: map<Addr, Reader>) {
    forall cl :: cl in readers ==> ReaderOk(cfg, h, readers[cl])
  }

  ghost predicate ReadInv(cfg: Config, s: State) {
    ReadersOk(cfg, s.h, s.readers) && BoundOk(cfg, s.items, s.readers)
  }

  /** Handlers reach a client only with what came from it, and only once. */
  ghost predicate Continues(cfg: Config, item: Item, out: seq<Item>) {
    && (forall j :: 0 <= j < |out| ==> SenderOk(cfg, out[j]))
    && (forall j :: 0 <= j < |out| && BoundFor(cfg, out[j]).Some? ==>
          j == |out| - 1 && BoundFor(cfg, out[j]) == BoundFor(cfg, item)
          && out[j].msg.chunk == item.msg.chunk && out[j].msg.file == item.msg.file)
  }

  lemma HandleContinues(cfg: Config, h: History, n: Node, m: ChunkMsg, reach: set<Addr>)
    requires ConfigOk(cfg) && HistoryOk(cfg, h) && MsgOk(cfg, h, m) && m.receiver in cfg.nodes
    ensures Continues(cfg, Flight(m), Handle(SiteOf(cfg, m.receiver), n, m, reach).out)
  {
    if m.kind == Write || m.kind == Delete {
      forall j | 0 <= j < |m.replicas| ensures m.replicas[j] !in cfg.clients {
        assert Placed(h, m.chunk, m.replicas[j]);
        assert h.placed[m.chunk] <= cfg.nodes;
      }
    }
  }

  lemma ServeContinues(cfg: Config, n: Node, item: Item, reach: set<Addr>)
    requires ConfigOk(cfg) && item.Repair? && item.at in cfg.nodes && SenderOk(cfg, item)
    ensures Continues(cfg, item, Serve(SiteOf(cfg, item.at), n, item.msg, item.original, reach).out)
  {}

  lemma BoundFollows(cfg: Config, items: map<nat, Item>, readers: map<Addr, Reader>, id: nat, next: nat, out: seq<Item>)
    requires (forall i :: i in items ==> i < next) && id in items
    requires BoundOk(cfg, items, readers) && Continues(cfg, items[id], out)
    ensures BoundOk(cfg, Added(items - {id}, next, out), readers)
  {
    var items' := Added(items - {id}, next, out);
    forall i | i in items' ensures SenderOk(cfg, items'[i]) && Awaited(cfg, readers, items'[i]) {
      if i >= next { assert items'[next + (i - next)] == out[i - next]; }
    }
    forall i, j | i in items' && j in items' && Clash(cfg, items'[i], items'[j]) ensures i == j {
      if i >= next { assert items'[next + (i - next)] == out[i - next]; }
      if j >= next { assert items'[next + (j - next)] == out[j - next]; }
      var i0, j0 := if i >= next then id else i, if j >= next then id else j;
      assert Clash(cfg, items[i0], items[j0]);
    }
  }

  lemma BoundShrinks(cfg: Config, items: map<nat, Item>, readers: map<Addr, Reader>, id: nat)
    requires BoundOk(cfg, items, readers)
    ensures BoundOk(cfg, items - {id}, readers)
  {}

  /** Items that are bound for no client add nothing to what readers wait for. */
  lemma BoundWith(cfg: Config, items: map<nat, Item>, readers: map<Addr, Reader>, next: nat, out: seq<Item>)
    requires forall i :: i in items ==> i < next
    requires BoundOk(cfg, items, readers)
    requires forall j :: 0 <= j < |out| ==> out[j].Flight? && BoundFor(cfg, out[j]) == None
    ensures BoundOk(cfg, Added(items, next, out), readers)
  {
    var items' := Added(items, next, out);
    forall i | i in items' ensures SenderOk(cfg, items'[i]) && Awaited(cfg, readers, items'[i])
      && (i >= next ==> BoundFor(cfg, items'[i]) == None) {
      if i >= next { assert items'[next + (i - next)] == out[i - next]; }
    }
    forall i, j | i in items' && j in items' && Clash(cfg, items'[i], items'[j]) ensures i == j {
      assert i < next && j < next;
      assert Clash(cfg, items[i], items[j]);
    }
  }

  // ----- the steps -----

  lemma ReadersFollow(cfg: Config, h: History, h': History, readers: map<Addr, Reader>)
    requires Extends(h, h') && FilesStay(h, h') && ReadersOk(cfg, h, readers)
    ensures ReadersOk(cfg, h', readers)
  {
    forall cl | cl in readers ensures ReaderOk(cfg, h', readers[cl]) { ReaderFollows(cfg, h, h', readers[cl]); }
  }

  lemma DeliverReads(cfg: Config, s: State, id: nat, reach: set<Addr>)
    requires ConfigOk(cfg) && StoreOk(cfg, s) && ReadInv(cfg, s) && CanDeliver(cfg, s, id)
    ensures ReadInv(cfg, AfterDeliver(cfg, s, id, reach))
  {
    var m := s.items[id].msg;
    assert ItemOk(cfg, s.h, s.items[id]);
    HandleContinues(cfg, s.h, s.nodes[m.receiver], m, reach);
    BoundFollows(cfg, s.items, s.readers, id, s.next, Handle(SiteOf(cfg, m.receiver), s.nodes[m.receiver], m,
                                                             reach).out);
  }

  lemma WakeReads(cfg: Config, s: State, id: nat, reach: set<Addr>)
    requires ConfigOk(cfg) && ReadInv(cfg, s) && CanWake(cfg, s, id)
    ensures ReadInv(cfg, AfterWake(cfg, s, id, reach))
  {
    var item := s.items[id];
    ServeContinues(cfg, s.nodes[item.at], item, reach);
    BoundFollows(cfg, s.items, s.readers, id, s.next,
                 Serve(SiteOf(cfg, item.at), s.nodes[item.at], item.msg, item.original, reach).out);
  }

  lemma AnswerReads(cfg: Config, s: State, id: nat, order: seq<Addr>, reach: set<Addr>)
    requires ConfigOk(cfg) && StoreOk(cfg, s) && ReadInv(cfg, s) && CanAnswer(cfg, s, id, order)
    ensures ReadInv(cfg, AfterAnswer(cfg, s, id, order, reach))
  {
    assert ItemOk(cfg, s.h, s.items[id]);
    NodesAreNotController(cfg, s.h, s.items[id].msg);
    AnswerContinues(cfg, s.h, s.items[id].msg, order, reach);
    BoundFollows(cfg, s.items, s.readers, id, s.next, AnswerItems(cfg, s.items[id].msg, order, reach));
  }

  lemma AnswerContinues(cfg: Config, h: History, m: ChunkMsg, order: seq<Addr>, reach: set<Addr>)
    requires ConfigOk(cfg) && MsgOk(cfg, h, m) && m.receiver == cfg.controller && m.kind == Replica
    ensures Continues(cfg, Flight(m), AnswerItems(cfg, m, order, reach))
  {}

  lemma ReceiveBound(cfg: Config, items: map<nat, Item>, readers: map<Addr, Reader>, id: nat, cl: Addr, r: Reader)
    requires BoundOk(cfg, items, readers) && id in items && cl in readers && BoundFor(cfg, items[id]) == Some(cl)
    requires r.file == readers[cl].file && r.arrived == readers[cl].arrived + {items[id].msg.chunk}
    ensures BoundOk(cfg, items - {id}, readers[cl := r])
  {
    forall i | i in items - {id} ensures Awaited(cfg, readers[cl := r], items[i]) {
      assert Awaited(cfg, readers, items[i]);
      assert !Clash(cfg, items[i], items[id]);
    }
  }

  /** A chunk on its way to a reader is one of the file it reads, and has not arrived yet. */
  lemma Expected(cfg: Config, items: map<nat, Item>, readers: map<Addr, Reader>, id: nat, cl: Addr)
    requires BoundOk(cfg, items, readers) && id in items && cl in readers && BoundFor(cfg, items[id]) == Some(cl)
    ensures items[id].msg.file == readers[cl].file && items[id].msg.chunk !in readers[cl].arrived
  {
    assert Awaited(cfg, readers, items[id]);
  }

  lemma ReceivedReader(cfg: Config, h: History, items: map<nat, Item>, next: nat, readers: map<Addr, Reader>, id: nat,
                       cl: Addr)
    requires ConfigOk(cfg) && HistoryOk(cfg, h) && ItemsOk(cfg, h, items, next) && ReadersOk(cfg, h, readers)
             && BoundOk(cfg, items, readers)
    requires id in items && items[id].Flight? && items[id].msg.kind == Write && cl in readers
             && !readers[cl].session.crashed
    requires BoundFor(cfg, items[id]) == Some(cl)
    ensures Due(cfg, h, readers[cl], items[id].msg) && ReaderOk(cfg, h, Receiving(cfg.hash, readers[cl], items[id].msg))
  {
    assert ItemOk(cfg, h, items[id]);
    assert ReaderOk(cfg, h, readers[cl]);
    Expected(cfg, items, readers, id, cl);
    ReceivingOk(cfg, h, readers[cl], items[id].msg);
  }

  lemma ReceiveReads(cfg: Config, s: State, id: nat)
    requires ConfigOk(cfg) && StoreOk(cfg, s) && ReadInv(cfg, s) && CanReceive(cfg, s, id)
    ensures ReadInv(cfg, AfterReceive(cfg, s, id))
  {
    var cl := s.items[id].msg.receiver;
    var r := Receiving(cfg.hash, s.readers[cl], s.items[id].msg);
    ReceivedReader(cfg, s.h, s.items, s.next, s.readers, id, cl);
    ReceiveBound(cfg, s.items, s.readers, id, cl, r);
    ReadersWith(cfg, s.h, s.readers, cl, r);
  }

  lemma ReadersWith(cfg: Config, h: History, readers: map<Addr, Reader>, cl: Addr, r: Reader)
    requires ReadersOk(cfg, h, readers)
    ensures ReaderOk(cfg, h, r) ==> ReadersOk(cfg, h, readers[cl := r])
  {}

  /** A fresh read: its requests are for different chunks, and nothing else is bound for the client. */
  lemma StartReadReads(cfg: Config, s: State, client: Addr, file: string, table: seq<Location>, sent: nat)
    requires ConfigOk(cfg) && StoreOk(cfg, s) && ReadInv(cfg, s) && CanStartRead(cfg, s, client, file, table, sent)
    ensures ReadInv(cfg, AfterStartRead(cfg, s, client, file, table, sent))
  {
    var disk := if client in s.readers then s.readers[client].session.disk else map[];
    var asked := !FindsEmptyRow(table, |s.h.files[file].parts|, sent);
    var r := NewReader(cfg, s.h.files[file], file, disk, asked);
    BeginOk(cfg, s.h, disk, file, asked);
    ReadersWith(cfg, s.h, s.readers, client, r);
    ReadAsks(cfg, client, file, table, sent);
    StartReadBound(cfg, s.items, s.readers, s.next, client, file, ReadMsgs(client, file, table, sent), r);
  }

  /** What a read asks for: chunks of one file, no two the same. */
  ghost predicate Asks(cfg: Config, out: seq<Item>, client: Addr, file: string) {
    && (forall j :: 0 <= j < |out| ==>
          out[j].Flight? && BoundFor(cfg, out[j]) == Some(client) && out[j].msg.file == file)
    && (forall i, j :: 0 <= i < j < |out| ==> out[i].msg.chunk != out[j].msg.chunk)
  }

  lemma ReadAsks(cfg: Config, client: Addr, file: string, table: seq<Location>, sent: nat)
    requires client in cfg.clients && sent <= Firm(table)
    requires forall i, j :: 0 <= i < j < |table| ==> table[i].chunk != table[j].chunk
    ensures Asks(cfg, ReadMsgs(client, file, table, sent), client, file)
  {}

  lemma StartReadBound(cfg: Config, items: map<nat, Item>, readers: map<Addr, Reader>, next: nat,
                       client: Addr, file: string, out: seq<Item>, r: Reader)
    requires (forall i :: i in items ==> i < next) && BoundOk(cfg, items, readers)
    requires forall id :: id in items ==> BoundFor(cfg, items[id]) != Some(client)
    requires Asks(cfg, out, client, file) && r.file == file && r.arrived == {}
    ensures BoundOk(cfg, Added(items, next, out), readers[client := r])
  {
    var items', readers' := Added(items, next, out), readers[client := r];
    forall i | i in items' ensures SenderOk(cfg, items'[i]) && Awaited(cfg, readers', items'[i]) {
      if i >= next {
        assert items'[next + (i - next)] == out[i - next];
      } else {
        assert SenderOk(cfg, items[i]) && Awaited(cfg, readers, items[i]);
      }
    }
    forall i, j | i in items' && j in items' && Clash(cfg, items'[i], items'[j]) ensures i == j {
      if i >= next { assert items'[next + (i - next)] == out[i - next]; }
      if j >= next { assert items'[next + (j - next)] == out[j - next]; }
      if i < next && j < next { assert Clash(cfg, items[i], items[j]); }
    }
  }

  lemma RegisterReads(cfg: Config, h: History, readers: map<Addr, Reader>, file: string, f: File, nodes: set<Addr>)
    requires HistoryOk(cfg, h) && ReadersOk(cfg, h, readers) && file !in h.files
    ensures ReadersOk(cfg, Register(h, file, f, nodes), readers)
  {
    RegisterExtends(cfg, h, file, f, nodes);
    ReadersFollow(cfg, h, Register(h, file, f, nodes), readers);
  }

  /** A command changes no reader's file and no arrivals. */
  lemma TypingReads(cfg: Config, h: History, items: map<nat, Item>, readers: map<Addr, Reader>, client: Addr,
                    name: Option<string>, folder: Option<string>)
    requires ReadersOk(cfg, h, readers) && BoundOk(cfg, items, readers)
    ensures ReadersOk(cfg, h, AfterTyping(readers, client, name, folder))
    ensures BoundOk(cfg, items, AfterTyping(readers, client, name, folder))
  {
    var readers' := AfterTyping(readers, client, name, folder);
    if client in readers {
      HeardOk(cfg, h, readers[client], name, folder);
      ReadersWith(cfg, h, readers, client, Heard(readers[client], name, folder));
    }
    forall id | id in items ensures Awaited(cfg, readers', items[id]) { assert Awaited(cfg, readers, items[id]); }
  }

  lemma WritesUnbound(cfg: Config, client: Addr, file: string, parts: seq<Bytes>, order: seq<Addr>, sent: nat)
    requires sent <= |parts| && |order| > 0 && order[0] !in cfg.clients
    ensures forall j :: 0 <= j < sent ==>
              var item := WriteMsgs(cfg, client, file, parts, order, sent)[j];
              item.Flight? && BoundFor(cfg, item) == None
  {}

  lemma WriteReads(cfg: Config, s: State, client: Addr, file: string, folder: string, content: Bytes, chunkSize: nat,
                   picks: seq<Addr>, order: seq<Addr>, sent: nat)
    requires ConfigOk(cfg) && Inv(cfg, s) && ReadInv(cfg, s)
    requires CanWrite(cfg, s, client, file, content, chunkSize, picks, order, sent)
    ensures ReadInv(cfg, AfterWrite(cfg, s, client, file, folder, content, chunkSize, picks, order, sent))
  {
    PlaceSize(s.active.Keys, {}, picks);
    MainNodeIsNode(cfg, s, order, Place(s.active.Keys, {}, picks).value);
    WrittenReads(cfg, s.h, s.items, s.next, s.readers, client, file, File(content, Cuts(content, chunkSize), folder),
                 order, sent);
  }

  lemma WrittenReads(cfg: Config, h: History, items: map<nat, Item>, next: nat, readers: map<Addr, Reader>,
                     client: Addr, file: string, f: File, order: seq<Addr>, sent: nat)
    requires (forall i :: i in items ==> i < next) && HistoryOk(cfg, h) && ReadersOk(cfg, h, readers)
             && BoundOk(cfg, items, readers)
    requires file !in h.files && sent <= |f.parts| && order != [] && order[0] !in cfg.clients
    ensures var readers' := AfterTyping(readers, client, Some(file), Some(f.folder));
            && ReadersOk(cfg, Register(h, file, f, set a | a in order), readers')
            && BoundOk(cfg, Added(items, next, WriteMsgs(cfg, client, file, f.parts, order, sent)), readers')
  {
    var out := WriteMsgs(cfg, client, file, f.parts, order, sent);
    WritesUnbound(cfg, client, file, f.parts, order, sent);
    BoundWith(cfg, items, readers, next, out);
    RegisterReads(cfg, h, readers, file, f, set a | a in order);
    TypingReads(cfg, Register(h, file, f, set a | a in order), Added(items, next, out), readers, client, Some(file),
                Some(f.folder));
  }

  lemma MainNodeIsNode(cfg: Config, s: State, order: seq<Addr>, nodes: set<Addr>)
    requires IndexOk(cfg, s) && Enumerates(order, nodes) && nodes <= s.active.Keys && order != []
    ensures order[0] in cfg.nodes
  {
    EnumeratedIn(order, nodes, 0);
    assert order[0] in s.active;
  }

  lemma ReplaceReads(cfg: Config, s: State, failed: Addr, k: Key, picks: seq<Addr>, order: seq<Addr>, reach: set<Addr>)
    requires StoreOk(cfg, s) && ReadInv(cfg, s) && CanReplace(s, failed, k, picks, order) && Known(s.h, k.file, k.chunk)
    ensures ReadInv(cfg, AfterReplace(cfg, s, failed, k, picks, order, reach))
  {
    var n := Replacement(s.active.Keys, failed, Survivors(s, failed, k), picks).node;
    BoundWith(cfg, s.items, s.readers, s.next, ReplicaItems(cfg, k, order, n, reach));
    ReadersFollow(cfg, s.h, ReplacedHistory(s.h, k.chunk, n), s.readers);
  }

  lemma DeleteReads(cfg: Config, s: State, client: Addr, file: string, table: seq<Location>, reach: set<Addr>)
    requires PoolOk(s) && ReadInv(cfg, s) && CanDelete(cfg, s, client, file, table)
    ensures ReadInv(cfg, AfterDelete(cfg, s, client, file, table, reach))
  {
    var out := DeleteMsgs(cfg, file, table[..Firm(table)], reach);
    forall j | 0 <= j < |out| ensures out[j].Flight? && BoundFor(cfg, out[j]) == None {
      var i := DeletesNameRows(cfg, file, table[..Firm(table)], reach, j);
    }
    var h' := s.h.(deleted := s.h.deleted + {file});
    BoundWith(cfg, s.items, s.readers, s.next, out);
    ReadersFollow(cfg, s.h, h', s.readers);
    TypingReads(cfg, h', Added(s.items, s.next, out), s.readers, client, Some(file), None);
  }

  lemma MessageReads(cfg: Config, s: State, step: Step)
    requires ConfigOk(cfg) && StoreOk(cfg, s) && ReadInv(cfg, s) && Enabled(cfg, s, step) && IsMessageStep(step)
    ensures ReadInv(cfg, Next(cfg, s, step))
  {
    match step
    case Deliver(id, reach) => DeliverReads(cfg, s, id, reach);
    case AnswerReplica(id, order, reach) => AnswerReads(cfg, s, id, order, reach);
    case Receive(id) => ReceiveReads(cfg, s, id);
    case WakeUp(id, reach) => WakeReads(cfg, s, id, reach);
    case Drop(id) => BoundShrinks(cfg, s.items, s.readers, id);
  }

  lemma CommandReads(cfg: Config, s: State, step: Step)
    requires PoolOk(s) && ReadInv(cfg, s) && Enabled(cfg, s, step) && (step.DeleteFile? || step.Command?)
    ensures ReadInv(cfg, Next(cfg, s, step))
  {
    match step
    case DeleteFile(client, file, table, reach) => DeleteReads(cfg, s, client, file, table, reach);
    case Command(client, name, folder) => TypingReads(cfg, s.h, s.items, s.readers, client, name, folder);
  }

  lemma FileReads(cfg: Config, s: State, step: Step)
    requires ConfigOk(cfg) && Inv(cfg, s) && ReadInv(cfg, s) && Enabled(cfg, s, step)
             && (step.WriteFile? || step.StartRead?)
    ensures ReadInv(cfg, Next(cfg, s, step))
  {
    match step
    case WriteFile(client, file, folder, content, chunkSize, picks, order, sent) =>
      WriteReads(cfg, s, client, file, folder, content, chunkSize, picks, order, sent);
    case StartRead(client, file, table, sent) => StartReadReads(cfg, s, client, file, table, sent);
  }

  lemma RepairReads(cfg: Config, s: State, step: Step)
    requires Inv(cfg, s) && ReadInv(cfg, s) && Enabled(cfg, s, step) && step.ReplaceFailed?
    ensures ReadInv(cfg, Next(cfg, s, step))
  {
    FewSurvivors(cfg, s, step.failed, step.key);
    ReplaceReads(cfg, s, step.failed, step.key, step.picks, step.order, step.reach);
  }

  predicate SameForReaders(s: State, t: State) { t.h == s.h && t.items == s.items && t.readers == s.readers }

  lemma BeatsLeaveReaders(cfg: Config, s: State, step: Step)
    requires Enabled(cfg, s, step) && IsBeatStep(step)
    ensures SameForReaders(s, Next(cfg, s, step))
  {}

  lemma NodesLeaveReaders(cfg: Config, s: State, step: Step)
    requires Enabled(cfg, s, step) && IsNodeStep(step)
    ensures SameForReaders(s, Next(cfg, s, step))
  {}

  lemma StepReads(cfg: Config, s: State, step: Step)
    requires ConfigOk(cfg) && Inv(cfg, s) && ReadInv(cfg, s) && Enabled(cfg, s, step)
    ensures ReadInv(cfg, Next(cfg, s, step))
  {
    if IsMessageStep(step) {
      MessageReads(cfg, s, step);
    } else if IsNodeStep(step) {
      NodesLeaveReaders(cfg, s, step);
    } else if IsBeatStep(step) {
      BeatsLeaveReaders(cfg, s, step);
    } else if step.ReplaceFailed? {
      RepairReads(cfg, s, step);
    } else if step.DeleteFile? || step.Command? {
      CommandReads(cfg, s, step);
    } else {
      FileReads(cfg, s, step);
    }
  }

  lemma {:induction false} RunReads(cfg: Config, s: State, steps: seq<Step>, t: State)
    requires ConfigOk(cfg) && Inv(cfg, s) && ReadInv(cfg, s) && Run(cfg, s, steps, t)
    ensures Inv(cfg, t) && ReadInv(cfg, t)
    decreases |steps|
  {
    if steps != [] {
      StepKeeps(cfg, s, steps[0]);
      StepReads(cfg, s, steps[0]);
      RunReads(cfg, Next(cfg, s, steps[0]), steps[1..], t);
    }
  }

  lemma ReachableReads(cfg: Config, s: State)
    requires ConfigOk(cfg) && Reachable(cfg, s)
    ensures Inv(cfg, s) && ReadInv(cfg, s)
  {
    StartOk(cfg);
    var steps :| Run(cfg, Start(cfg), steps, s);
    RunReads(cfg, Start(cfg), steps, s);
  }

  // ----- the theorems -----

  ghost predicate ReadsBack(f: File, r: Reader) {
    var s := r.session;
    && !s.crashed && s.count == |r.arrived| && r.arrived <= Names(r.file, |f.parts|) && s.merges <= 1
    && (s.merges == 1 <==> f.parts != [] && r.arrived == Names(r.file, |f.parts|))
    && (s.merges == 1 ==> s.kept == Some(Kept(f.folder, r.file, f.content)) && s.bytes == |f.content|)
    && (s.merges == 0 ==> s.kept == None && (f.parts != [] ==> s.folder == f.folder))
    && r.places.Keys == r.arrived && forall c :: c in r.arrived ==> r.places[c] == f.folder
  }

  lemma ReaderReadsBack(cfg: Config, h: History, r: Reader)
    requires ReaderOk(cfg, h, r) && FileOk(h.files[r.file]) && r.asked && !r.disturbed
    ensures ReadsBack(h.files[r.file], r)
  {
    var f := h.files[r.file];
    NamesSize(r.file, |f.parts|);
    if Done(r) {
      SameSizeSubset(r.arrived, Names(r.file, |f.parts|));
      forall i | 0 <= i < |f.parts| ensures ChunkName(r.file, i) in r.arrived {}
      ArrivedAll(f.parts, r.file, r.arrived, |f.parts|);
      assert f.parts[..|f.parts|] == f.parts;
    }
  }

  /** A read that met no empty row, and during which its client typed no command, never fails; it merges at most once,
      exactly when every chunk of the file has arrived, each once, with all its bytes counted; and then it has kept
      the file written, for every order in which the chunks arrive. */
  lemma ReadBack(cfg: Config, s: State, client: Addr)
    requires ConfigOk(cfg) && Reachable(cfg, s) && client in s.readers
    requires s.readers[client].asked && !s.readers[client].disturbed
    ensures s.readers[client].file in s.h.files
    ensures ReadsBack(s.h.files[s.readers[client].file], s.readers[client])
  {
    ReachableReads(cfg, s);
    assert ReaderOk(cfg, s.h, s.readers[client]);
    assert FileOk(s.h.files[s.readers[client].file]);
    ReaderReadsBack(cfg, s.h, s.readers[client]);
  }

  /** Whatever was typed meanwhile, a file the client keeps is the file that was written. */
  lemma KeepsOnlyTheFile(cfg: Config, s: State, client: Addr)
    requires ConfigOk(cfg) && Reachable(cfg, s) && client in s.readers && s.readers[client].session.kept.Some?
    ensures s.readers[client].file in s.h.files
    ensures s.readers[client].session.kept.value.content == s.h.files[s.readers[client].file].content
  {
    ReachableReads(cfg, s);
    assert ReaderOk(cfg, s.h, s.readers[client]);
  }

  /** When the last chunk arrives, the client fails exactly when a chunk file it then looks for, under the name and in
      the folder of its last command, was neither there before the read nor saved there since. If the commands left
      name and folder as the read set them, it keeps the file written; and if no chunk file was there before, only
      then. */
  lemma LastChunkDecides(cfg: Config, s: State, id: nat)
    requires ConfigOk(cfg) && Reachable(cfg, s) && CanReceive(cfg, s, id)
    requires s.readers[s.items[id].msg.receiver].session.count + 1 == s.readers[s.items[id].msg.receiver].session.total
    ensures var cl := s.items[id].msg.receiver;
            var r, t := s.readers[cl], AfterReceive(cfg, s, id).readers[cl].session;
            && r.file in s.h.files && r.places.Keys == r.arrived
            && (t.crashed <==> Astray(Counted(r, s.items[id].msg)))
            && (Straight(r) ==> !t.crashed && t.kept == KeptHere(s.h, r))
            && (CleanStart(r) ==>
                  (t.crashed <==> !Straight(r)) && (t.kept == KeptHere(s.h, r) <==> Straight(r)))
  {
    ReachableReads(cfg, s);
    var cl := s.items[id].msg.receiver;
    ReceivedReader(cfg, s.h, s.items, s.next, s.readers, id, cl);
    LastChunk(cfg, s.h, s.readers[cl], s.items[id].msg);
  }

  /** No chunk is ever answered twice in one read: at most one request, sleeping handler or reply for it is under way,
      and none once it has arrived. */
  lemma AtMostOneReply(cfg: Config, s: State, client: Addr, i: nat, j: nat)
    requires ConfigOk(cfg) && Reachable(cfg, s) && i in s.items && j in s.items
    requires BoundFor(cfg, s.items[i]) == Some(client) && BoundFor(cfg, s.items[j]) == Some(client)
    requires s.items[i].msg.chunk == s.items[j].msg.chunk
    ensures i == j
    ensures client in s.readers && s.items[i].msg.chunk !in s.readers[client].arrived
  {
    ReachableReads(cfg, s);
    assert Clash(cfg, s.items[i], s.items[j]);
    assert Awaited(cfg, s.readers, s.items[i]);
  }
}
