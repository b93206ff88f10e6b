/** Replication and repair come to their end: what one node is owed about one chunk stays on its way until the node
    holds the chunk, the file is deleted, or some message or handler that would have led there comes to nothing. */
module Quiescence {
  import opened Types
  import opened Records
  import opened Chunking
  import opened Placement
  import opened Sets
  import opened NodeSpec
  import opened Cluster
  import opened Safety
  import opened SafetySteps
  import opened Agreement

  predicate Holds(nodes: map<Addr, Node>, a: Addr, c: string) { a in nodes && c in nodes[a].meta }

  /** The item leads to node `a` holding chunk `c`. */
  predicate Carries(item: Item, c: string, a: Addr) { item.msg.chunk == c && a in LeadsTo(item) }

  ghost predicate Promised(items: map<nat, Item>, c: string, a: Addr) {
    exists id :: id in items && Carries(items[id], c, a)
  }

  ghost predicate Gone(h: History, c: string) { c in h.origin && h.origin[c].file in h.deleted }

  /** Node `a` holds chunk `c`, or it is on its way there, or it was lost on the way, or the file is deleted. */
  ghost predicate Settled(s: State, c: string, a: Addr) {
    Holds(s.nodes, a, c) || Promised(s.items, c, a) || (c, a) in s.lost || Gone(s.h, c)
  }

  ghost predicate KeepsItems(s: State, t: State, taken: set<nat>) {
    forall id :: id in s.items && id !in taken ==> id in t.items && t.items[id] == s.items[id]
  }

  /** A step that takes only the items in `taken` forgets nothing if it settles what those carried and what was held. */
  lemma StaysSettled(s: State, t: State, taken: set<nat>, c: string, a: Addr)
    requires Settled(s, c, a) && s.lost <= t.lost && Extends(s.h, t.h) && KeepsItems(s, t, taken)
    requires Holds(s.nodes, a, c) ==> Settled(t, c, a)
    requires forall id :: id in taken && id in s.items && Carries(s.items[id], c, a) ==> Settled(t, c, a)
    ensures Settled(t, c, a)
  {
    if Promised(s.items, c, a) {
      var id :| id in s.items && Carries(s.items[id], c, a);
      if id !in taken { assert id in t.items && Carries(t.items[id], c, a); }
    }
  }

  lemma PostedIsPromised(items: map<nat, Item>, next: nat, out: seq<Item>, j: nat, c: string, a: Addr)
    requires (forall id :: id in items ==> id < next) && j < |out| && Carries(out[j], c, a)
    ensures Promised(Added(items, next, out), c, a)
  {
    assert Added(items, next, out)[next + j] == out[j];
  }

  ghost predicate Passes(out: seq<Item>, c: string, a: Addr) { exists j :: 0 <= j < |out| && Carries(out[j], c, a) }

  lemma PassedIsPromised(items: map<nat, Item>, next: nat, out: seq<Item>, c: string, a: Addr)
    requires (forall id :: id in items ==> id < next) && Passes(out, c, a)
    ensures Promised(Added(items, next, out), c, a)
  {
    var j :| 0 <= j < |out| && Carries(out[j], c, a);
    PostedIsPromised(items, next, out, j, c, a);
  }

  // ----- handlers settle what they took -----

  /** Whatever a delivered message carried, its handler passes on, makes true, or misses. */
  lemma HandleSettles(cfg: Config, n: Node, m: ChunkMsg, reach: set<Addr>, a: Addr)
    requires Carries(Flight(m), m.chunk, a)
    ensures var r := Handle(SiteOf(cfg, m.receiver), n, m, reach);
            || a in Misses(cfg, n, m, reach)
            || (a == m.receiver && m.chunk in r.node.meta)
            || Passes(r.out, m.chunk, a)
  {
    var r := Handle(SiteOf(cfg, m.receiver), n, m, reach);
    match m.kind
    case Write =>
      if a != m.receiver {
        var i :| 0 <= i < |m.replicas| && m.replicas[i] == a;
        if i < |r.out| { assert Carries(r.out[i], m.chunk, a); }
      }
    case Replica =>
      if r.out != [] { assert Carries(r.out[0], m.chunk, a); }
    case Read =>
      if r.out != [] { assert Carries(r.out[|r.out| - 1], m.chunk, a); }
    case Delete =>
  }

  lemma DeliverSettles(cfg: Config, s: State, id: nat, reach: set<Addr>, c: string, a: Addr)
    requires CanDeliver(cfg, s, id) && Carries(s.items[id], c, a)
    ensures Settled(AfterDeliver(cfg, s, id, reach), c, a)
  {
    var m := s.items[id].msg;
    var r := Handle(SiteOf(cfg, m.receiver), s.nodes[m.receiver], m, reach);
    HandleSettles(cfg, s.nodes[m.receiver], m, reach, a);
    if Passes(r.out, c, a) { PassedIsPromised(s.items - {id}, s.next, r.out, c, a); }
  }

  /** Only a deletion takes a chunk off a disk, and only a chunk of a deleted file. */
  lemma HoldsOn(cfg: Config, h: History, n: Node, m: ChunkMsg, reach: set<Addr>, c: string)
    requires MsgOk(cfg, h, m) && c in n.meta
    ensures c in Handle(SiteOf(cfg, m.receiver), n, m, reach).node.meta || Gone(h, c)
  {}

  lemma DeliverHeld(cfg: Config, s: State, id: nat, reach: set<Addr>, c: string, a: Addr)
    requires CanDeliver(cfg, s, id) && MsgOk(cfg, s.h, s.items[id].msg) && Holds(s.nodes, a, c)
    ensures Holds(AfterDeliver(cfg, s, id, reach).nodes, a, c) || Gone(s.h, c)
  {
    var m := s.items[id].msg;
    if a == m.receiver { HoldsOn(cfg, s.h, s.nodes[m.receiver], m, reach, c); }
  }

  lemma FlightOk(cfg: Config, h: History, items: map<nat, Item>, next: nat, id: nat)
    requires ItemsOk(cfg, h, items, next) && id in items && items[id].Flight?
    ensures MsgOk(cfg, h, items[id].msg)
  {
    assert ItemOk(cfg, h, items[id]);
  }

  ghost predicate Takes(s: State, t: State, id: nat) {
    s.lost <= t.lost && Extends(s.h, t.h) && KeepsItems(s, t, {id})
  }

  lemma TakingStays(s: State, t: State, id: nat, c: string, a: Addr)
    ensures Takes(s, t, id) && Settled(s, c, a) && (Holds(s.nodes, a, c) ==> Settled(t, c, a))
            && (id in s.items && Carries(s.items[id], c, a) ==> Settled(t, c, a))
            ==> Settled(t, c, a)
  {
    if Takes(s, t, id) && Settled(s, c, a) && (Holds(s.nodes, a, c) ==> Settled(t, c, a))
       && (id in s.items && Carries(s.items[id], c, a) ==> Settled(t, c, a)) {
      StaysSettled(s, t, {id}, c, a);
    }
  }

  lemma DeliverTakes(cfg: Config, s: State, id: nat, reach: set<Addr>)
    requires CanDeliver(cfg, s, id)
    ensures Takes(s, AfterDeliver(cfg, s, id, reach), id)
    ensures AfterDeliver(cfg, s, id, reach).h == s.h
  {}

  lemma DeliverStays(cfg: Config, s: State, id: nat, reach: set<Addr>, c: string, a: Addr)
    requires CanDeliver(cfg, s, id) && MsgOk(cfg, s.h, s.items[id].msg) && Settled(s, c, a)
    ensures Settled(AfterDeliver(cfg, s, id, reach), c, a)
  {
    DeliverTakes(cfg, s, id, reach);
    if Holds(s.nodes, a, c) { DeliverHeld(cfg, s, id, reach, c, a); }
    if Carries(s.items[id], c, a) { DeliverSettles(cfg, s, id, reach, c, a); }
    TakingStays(s, AfterDeliver(cfg, s, id, reach), id, c, a);
  }

  lemma ServeSettles(cfg: Config, n: Node, item: Item, reach: set<Addr>, c: string, a: Addr)
    requires item.Repair? && Carries(item, c, a)
    ensures var out := Serve(SiteOf(cfg, item.at), n, item.msg, item.original, reach).out;
            Forsakes(cfg, n, item, reach) || (out != [] && Carries(out[|out| - 1], c, a))
  {}

  lemma WakeSettles(cfg: Config, s: State, id: nat, reach: set<Addr>, c: string, a: Addr)
    requires CanWake(cfg, s, id) && Carries(s.items[id], c, a)
    ensures Settled(AfterWake(cfg, s, id, reach), c, a)
  {
    var item := s.items[id];
    var r := Serve(SiteOf(cfg, item.at), s.nodes[item.at], item.msg, item.original, reach);
    ServeSettles(cfg, s.nodes[item.at], item, reach, c, a);
    if !Forsakes(cfg, s.nodes[item.at], item, reach) {
      PostedIsPromised(s.items - {id}, s.next, r.out, |r.out| - 1, c, a);
    }
  }

  lemma WakeStays(cfg: Config, s: State, id: nat, reach: set<Addr>, c: string, a: Addr)
    requires CanWake(cfg, s, id) && Settled(s, c, a)
    ensures Settled(AfterWake(cfg, s, id, reach), c, a)
  {
    var t := AfterWake(cfg, s, id, reach);
    if Carries(s.items[id], c, a) { WakeSettles(cfg, s, id, reach, c, a); }
    assert KeepsItems(s, t, {id});
    StaysSettled(s, t, {id}, c, a);
  }

  lemma PlacedIsNode(cfg: Config, h: History, c: string, a: Addr)
    requires ConfigOk(cfg) && HistoryOk(cfg, h) && Placed(h, c, a)
    ensures a in cfg.nodes && a !in cfg.clients && a != cfg.controller
  {
    assert h.placed[c] <= cfg.nodes;
  }

  /** Requests to the controller and replies to clients lead to no node. */
  lemma LeadsToNoNode(cfg: Config, h: History, m: ChunkMsg, a: Addr)
    requires ConfigOk(cfg) && HistoryOk(cfg, h) && MsgOk(cfg, h, m) && Placed(h, m.chunk, a)
    requires m.receiver == cfg.controller || (m.kind == Write && m.receiver in cfg.clients)
    ensures a !in LeadsTo(Flight(m))
  {
    PlacedIsNode(cfg, h, m.chunk, a);
    if m.receiver == cfg.controller { NodesAreNotController(cfg, h, m); }
    if Placed(h, m.chunk, m.receiver) { PlacedIsNode(cfg, h, m.chunk, m.receiver); }
  }

  /** A step that takes one item which leads to no node, and leaves the disks alone. */
  ghost predicate Consumes(cfg: Config, s: State, t: State, id: nat) {
    && id in s.items && t.nodes == s.nodes && t.h == s.h && s.lost <= t.lost && KeepsItems(s, t, {id})
    && (forall a :: Placed(s.h, s.items[id].msg.chunk, a) ==> a !in LeadsTo(s.items[id]))
  }

  lemma ConsumingStays(cfg: Config, s: State, t: State, id: nat, c: string, a: Addr)
    ensures Consumes(cfg, s, t, id) && Placed(s.h, c, a) && Settled(s, c, a) ==> Settled(t, c, a)
  {
    if Consumes(cfg, s, t, id) && Placed(s.h, c, a) && Settled(s, c, a) { StaysSettled(s, t, {id}, c, a); }
  }

  lemma LeadsNowhere(cfg: Config, h: History, m: ChunkMsg)
    requires ConfigOk(cfg) && HistoryOk(cfg, h) && MsgOk(cfg, h, m)
    requires m.receiver == cfg.controller || (m.kind == Write && m.receiver in cfg.clients)
    ensures forall a :: Placed(h, m.chunk, a) ==> a !in LeadsTo(Flight(m))
  {
    forall a | Placed(h, m.chunk, a) ensures a !in LeadsTo(Flight(m)) { LeadsToNoNode(cfg, h, m, a); }
  }

  lemma AnswerConsumes(cfg: Config, s: State, id: nat, order: seq<Addr>, reach: set<Addr>)
    requires ConfigOk(cfg) && StoreOk(cfg, s) && CanAnswer(cfg, s, id, order)
    ensures Consumes(cfg, s, AfterAnswer(cfg, s, id, order, reach), id)
  {
    assert ItemOk(cfg, s.h, s.items[id]);
    LeadsNowhere(cfg, s.h, s.items[id].msg);
  }

  lemma ReceiveConsumes(cfg: Config, s: State, id: nat)
    requires ConfigOk(cfg) && StoreOk(cfg, s) && CanReceive(cfg, s, id)
    ensures Consumes(cfg, s, AfterReceive(cfg, s, id), id)
  {
    assert ItemOk(cfg, s.h, s.items[id]);
    LeadsNowhere(cfg, s.h, s.items[id].msg);
  }

  lemma DropStays(cfg: Config, s: State, id: nat, c: string, a: Addr)
    requires id in s.items && Settled(s, c, a)
    ensures Settled(AfterDrop(cfg, s, id), c, a)
  {
    StaysSettled(s, AfterDrop(cfg, s, id), {id}, c, a);
  }

  // ----- every step, every run -----

  lemma ConsumerStays(cfg: Config, s: State, step: Step, c: string, a: Addr)
    requires ConfigOk(cfg) && StoreOk(cfg, s) && Enabled(cfg, s, step) && (step.AnswerReplica? || step.Receive?)
    ensures Placed(s.h, c, a) && Settled(s, c, a) ==> Settled(Next(cfg, s, step), c, a)
  {
    match step
    case AnswerReplica(id, order, reach) =>
      AnswerConsumes(cfg, s, id, order, reach);
      ConsumingStays(cfg, s, AfterAnswer(cfg, s, id, order, reach), id, c, a);
    case Receive(id) =>
      ReceiveConsumes(cfg, s, id);
      ConsumingStays(cfg, s, AfterReceive(cfg, s, id), id, c, a);
  }

  lemma HandlerStays(cfg: Config, s: State, step: Step, c: string, a: Addr)
    requires StoreOk(cfg, s) && Enabled(cfg, s, step) && (step.Deliver? || step.WakeUp? || step.Drop?)
    ensures Settled(s, c, a) ==> Settled(Next(cfg, s, step), c, a)
  {
    if Settled(s, c, a) {
      match step
      case Deliver(id, reach) =>
        FlightOk(cfg, s.h, s.items, s.next, id);
        DeliverStays(cfg, s, id, reach, c, a);
      case WakeUp(id, reach) => WakeStays(cfg, s, id, reach, c, a);
      case Drop(id) => DropStays(cfg, s, id, c, a);
    }
  }

  lemma MessageStays(cfg: Config, s: State, step: Step, c: string, a: Addr)
    requires ConfigOk(cfg) && StoreOk(cfg, s) && Enabled(cfg, s, step) && IsMessageStep(step)
    ensures Placed(s.h, c, a) && Settled(s, c, a) ==> Settled(Next(cfg, s, step), c, a)
  {
    if step.AnswerReplica? || step.Receive? {
      ConsumerStays(cfg, s, step, c, a);
    } else {
      HandlerStays(cfg, s, step, c, a);
    }
  }

  ghost predicate OnlyAdds(s: State, t: State) {
    && s.lost <= t.lost && Extends(s.h, t.h) && KeepsItems(s, t, {})
    && forall a, c :: Holds(s.nodes, a, c) ==> Holds(t.nodes, a, c)
  }

  lemma AddingStays(s: State, t: State, c: string, a: Addr)
    ensures OnlyAdds(s, t) && Settled(s, c, a) ==> Settled(t, c, a)
  {
    if OnlyAdds(s, t) && Settled(s, c, a) { StaysSettled(s, t, {}, c, a); }
  }

  lemma BeatOnlyAdds(cfg: Config, s: State, step: Step)
    requires Enabled(cfg, s, step) && IsBeatStep(step)
    ensures OnlyAdds(s, Next(cfg, s, step))
  {}

  lemma NodeOnlyAdds(cfg: Config, s: State, step: Step)
    requires Enabled(cfg, s, step) && IsNodeStep(step)
    ensures OnlyAdds(s, Next(cfg, s, step))
  {}

  lemma ReadOnlyAdds(cfg: Config, s: State, step: Step)
    requires Enabled(cfg, s, step) && (step.StartRead? || step.Command?)
    ensures OnlyAdds(s, Next(cfg, s, step))
  {}

  lemma WriteOnlyAdds(cfg: Config, s: State, step: Step)
    requires HistoryOk(cfg, s.h) && Enabled(cfg, s, step) && step.WriteFile?
    ensures OnlyAdds(s, Next(cfg, s, step))
  {
    RegisterExtends(cfg, s.h, step.file, File(step.content, Cuts(step.content, step.chunkSize), step.folder),
                    set a | a in step.order);
  }

  lemma ReplaceOnlyAdds(cfg: Config, s: State, step: Step)
    requires Enabled(cfg, s, step) && step.ReplaceFailed?
    ensures OnlyAdds(s, Next(cfg, s, step))
  {}

  lemma DeleteOnlyAdds(cfg: Config, s: State, step: Step)
    requires Enabled(cfg, s, step) && step.DeleteFile?
    ensures OnlyAdds(s, Next(cfg, s, step))
  {}

  lemma OthersOnlyAdd(cfg: Config, s: State, step: Step)
    requires HistoryOk(cfg, s.h) && Enabled(cfg, s, step) && !IsMessageStep(step)
    ensures OnlyAdds(s, Next(cfg, s, step))
  {
    if IsBeatStep(step) {
      BeatOnlyAdds(cfg, s, step);
    } else if IsNodeStep(step) {
      NodeOnlyAdds(cfg, s, step);
    } else if step.WriteFile? {
      WriteOnlyAdds(cfg, s, step);
    } else if step.ReplaceFailed? {
      ReplaceOnlyAdds(cfg, s, step);
    } else if step.DeleteFile? {
      DeleteOnlyAdds(cfg, s, step);
    } else {
      ReadOnlyAdds(cfg, s, step);
    }
  }

  lemma MessageHistory(cfg: Config, s: State, step: Step)
    requires Enabled(cfg, s, step) && IsMessageStep(step)
    ensures Next(cfg, s, step).h == s.h
  {}

  /** History only grows, and nothing settled is forgotten. */
  lemma StepStays(cfg: Config, s: State, step: Step, c: string, a: Addr)
    requires ConfigOk(cfg) && Inv(cfg, s) && Enabled(cfg, s, step) && Placed(s.h, c, a)
    ensures Extends(s.h, Next(cfg, s, step).h)
    ensures Settled(s, c, a) ==> Settled(Next(cfg, s, step), c, a)
  {
    if IsMessageStep(step) {
      MessageHistory(cfg, s, step);
      MessageStays(cfg, s, step, c, a);
    } else {
      OthersOnlyAdd(cfg, s, step);
      AddingStays(s, Next(cfg, s, step), c, a);
    }
  }

  lemma StillPlaced(h: History, h': History, c: string, a: Addr)
    requires Extends(h, h') && Placed(h, c, a)
    ensures Placed(h', c, a)
  {}

  lemma {:induction false} RunStays(cfg: Config, s: State, steps: seq<Step>, t: State, c: string, a: Addr)
    requires ConfigOk(cfg) && Inv(cfg, s) && Run(cfg, s, steps, t) && Placed(s.h, c, a) && Settled(s, c, a)
    ensures Extends(s.h, t.h) && Settled(t, c, a)
    decreases |steps|
  {
    if steps != [] {
      StepKeeps(cfg, s, steps[0]);
      StepStays(cfg, s, steps[0], c, a);
      StillPlaced(s.h, Next(cfg, s, steps[0]).h, c, a);
      RunStays(cfg, Next(cfg, s, steps[0]), steps[1..], t, c, a);
    }
  }

  // ----- the theorems -----

  /** Nothing that leads to `a` holding chunk `c` is under way or was lost, and the file is not deleted. */
  ghost predicate Drained(s: State, c: string, a: Addr) {
    && (forall id :: id in s.items ==> !Carries(s.items[id], c, a))
    && (c, a) !in s.lost && !Gone(s.h, c)
  }

  /** The node holds the chunk with the checksum of `cut`, and the bytes of `cut` unless they were corrupted since. */
  predicate HoldsCut(cfg: Config, s: State, a: Addr, c: string, cut: Bytes) {
    && a in s.nodes && c in s.nodes[a].data && c in s.nodes[a].meta
    && s.nodes[a].meta[c].checksum == cfg.hash(cut)
    && ((a, c) !in s.tainted ==> s.nodes[a].data[c] == cut)
  }

  lemma HeldIsCut(cfg: Config, s: State, c: string, a: Addr)
    requires StoreOk(cfg, s) && Holds(s.nodes, a, c)
    ensures c in s.h.origin && HoldsCut(cfg, s, a, c, s.h.origin[c].bytes)
  {
    assert NodeOk(cfg, s.h, a, s.nodes[a]);
  }

  lemma DrainedHolds(cfg: Config, s: State, c: string, a: Addr)
    requires StoreOk(cfg, s) && Settled(s, c, a) && Drained(s, c, a)
    ensures c in s.h.origin && HoldsCut(cfg, s, a, c, s.h.origin[c].bytes)
  {
    HeldIsCut(cfg, s, c, a);
  }

  lemma WrittenIsSettled(cfg: Config, s: State, client: Addr, file: string, folder: string, content: Bytes,
                         chunkSize: nat,
                         picks: seq<Addr>, order: seq<Addr>, sent: nat, i: nat, a: Addr)
    requires HistoryOk(cfg, s.h) && CanWrite(cfg, s, client, file, content, chunkSize, picks, order, sent)
    requires i < |Cuts(content, chunkSize)| && a in order
    ensures var t := AfterWrite(cfg, s, client, file, folder, content, chunkSize, picks, order, sent);
            var c := ChunkName(file, i);
            Placed(t.h, c, a) && Settled(t, c, a) && c in t.h.origin
              && t.h.origin[c].bytes == Cuts(content, chunkSize)[i]
  {
    var parts := Cuts(content, chunkSize);
    RegisterExtends(cfg, s.h, file, File(content, parts, folder), set b | b in order);
    SentOrUnsent(cfg, s.items, s.next, client, file, parts, order, sent, i, a);
  }

  lemma SentOrUnsent(cfg: Config, items: map<nat, Item>, next: nat, client: Addr, file: string, parts: seq<Bytes>,
                     order: seq<Addr>, sent: nat, i: nat, a: Addr)
    requires (forall id :: id in items ==> id < next) && sent <= |parts| && i < |parts| && a in order
    ensures Promised(Added(items, next, WriteMsgs(cfg, client, file, parts, order, sent)), ChunkName(file, i), a)
            || (ChunkName(file, i), a) in Unsent(file, |parts|, sent, order)
  {
    if i < sent {
      var out := WriteMsgs(cfg, client, file, parts, order, sent);
      assert Carries(out[i], ChunkName(file, i), a);
      PostedIsPromised(items, next, out, i, ChunkName(file, i), a);
    }
  }

  /** After a write, the main node and every listed replica hold each chunk as it was cut, as soon as nothing that leads
      there is under way or was lost. */
  lemma WriteReplicates(cfg: Config, s: State, client: Addr, file: string, folder: string, content: Bytes,
                        chunkSize: nat,
                        picks: seq<Addr>, order: seq<Addr>, sent: nat, steps: seq<Step>, t: State, i: nat, a: Addr)
    requires ConfigOk(cfg) && Reachable(cfg, s)
    requires CanWrite(cfg, s, client, file, content, chunkSize, picks, order, sent)
    requires Run(cfg, AfterWrite(cfg, s, client, file, folder, content, chunkSize, picks, order, sent), steps, t)
    requires i < |Cuts(content, chunkSize)| && a in order && Drained(t, ChunkName(file, i), a)
    ensures HoldsCut(cfg, t, a, ChunkName(file, i), Cuts(content, chunkSize)[i])
  {
    var u := AfterWrite(cfg, s, client, file, folder, content, chunkSize, picks, order, sent);
    ReachableOk(cfg, s);
    WriteKeeps(cfg, s, client, file, folder, content, chunkSize, picks, order, sent);
    WrittenIsSettled(cfg, s, client, file, folder, content, chunkSize, picks, order, sent, i, a);
    RunKeeps(cfg, u, steps, t);
    RunStays(cfg, u, steps, t, ChunkName(file, i), a);
    DrainedHolds(cfg, t, ChunkName(file, i), a);
  }

  /** The state with the records of losses started afresh. */
  function Forgiven(s: State): State { s.(lost := {}, unanswered := {}, undeleted := {}) }

  lemma ForgivenOk(cfg: Config, s: State)
    requires Inv(cfg, s)
    ensures Inv(cfg, Forgiven(s))
  {
    SameHistoryIndex(cfg, s, Forgiven(s));
  }

  /** The state after a failed node was replaced, with losses recorded from then on. */
  function Replaced(cfg: Config, s: State, failed: Addr, k: Key, picks: seq<Addr>, order: seq<Addr>,
                    reach: set<Addr>): State
    requires CanReplace(s, failed, k, picks, order)
  {
    AfterReplace(cfg, Forgiven(s), failed, k, picks, order, reach)
  }

  lemma NewNodeIsSettled(cfg: Config, s: State, failed: Addr, k: Key, picks: seq<Addr>, order: seq<Addr>,
                         reach: set<Addr>)
    requires CanReplace(s, failed, k, picks, order)
    ensures var n, u := Replacement(s.active.Keys, failed, Survivors(s, failed, k), picks).node,
                        Replaced(cfg, s, failed, k, picks, order, reach);
            Placed(u.h, k.chunk, n) && Settled(u, k.chunk, n)
  {
    var n := Replacement(s.active.Keys, failed, Survivors(s, failed, k), picks).node;
    if n in reach && Survivors(s, failed, k) != {} {
      EnumeratesSome(order, Survivors(s, failed, k));
      PostedIsPromised(s.items, s.next, ReplicaItems(cfg, k, order, n, reach), 0, k.chunk, n);
    }
  }

  /** A survivor is indexed, so it was placed on purpose and stores the chunk unless the file is deleted. */
  lemma SurvivorHolds(cfg: Config, s: State, failed: Addr, k: Key, order: seq<Addr>, a: Addr)
    requires ConfigOk(cfg) && Reachable(cfg, s) && Enumerates(order, Survivors(s, failed, k)) && a in order
    ensures Placed(s.h, k.chunk, a) && k.chunk in s.h.origin && s.h.origin[k.chunk].file == k.file
    ensures k.file !in s.h.deleted ==> Holds(s.nodes, a, k.chunk)
  {
    ReachableOk(cfg, s);
    var i :| 0 <= i < |order| && order[i] == a;
    EnumeratedIn(order, Survivors(s, failed, k), i);
    HolderPlaced(cfg, s, k, a);
    if k.file !in s.h.deleted { IndexAgreesWithReports(cfg, s, a, k); }
  }

  lemma ReplacedKeeps(cfg: Config, s: State, failed: Addr, k: Key, picks: seq<Addr>, order: seq<Addr>, reach: set<Addr>)
    requires ConfigOk(cfg) && Inv(cfg, s) && CanReplace(s, failed, k, picks, order)
    ensures Inv(cfg, Replaced(cfg, s, failed, k, picks, order, reach))
  {
    ForgivenOk(cfg, s);
    ReplaceKeeps(cfg, Forgiven(s), failed, k, picks, order, reach);
  }

  lemma ReplacedExtends(cfg: Config, s: State, failed: Addr, k: Key, picks: seq<Addr>, order: seq<Addr>,
                        reach: set<Addr>)
    requires CanReplace(s, failed, k, picks, order)
    ensures var u := Replaced(cfg, s, failed, k, picks, order, reach); u.nodes == s.nodes && Extends(s.h, u.h)
  {}

  /** After a failed node was replaced, the new node holds the chunk as it was cut as soon as nothing that leads there
      is under way or was lost since, whatever was lost before; and every survivor holds it throughout. Both as long
      as the file is not deleted. */
  lemma ReplacementHolds(cfg: Config, s: State, failed: Addr, k: Key, picks: seq<Addr>, order: seq<Addr>,
                         reach: set<Addr>,
                         steps: seq<Step>, t: State, a: Addr)
    requires ConfigOk(cfg) && Reachable(cfg, s) && CanReplace(s, failed, k, picks, order)
    requires Run(cfg, Replaced(cfg, s, failed, k, picks, order, reach), steps, t)
    requires a in order || (a == Replacement(s.active.Keys, failed, Survivors(s, failed, k), picks).node
             && Drained(t, k.chunk, a))
    requires k.file !in t.h.deleted
    ensures k.chunk in s.h.origin && HoldsCut(cfg, t, a, k.chunk, s.h.origin[k.chunk].bytes)
  {
    var u := Replaced(cfg, s, failed, k, picks, order, reach);
    ReachableOk(cfg, s);
    FewSurvivors(cfg, s, failed, k);
    ReplacedKeeps(cfg, s, failed, k, picks, order, reach);
    ReplacedExtends(cfg, s, failed, k, picks, order, reach);
    RunKeeps(cfg, u, steps, t);
    if a in order {
      SurvivorStays(cfg, s, failed, k, order, u, steps, t, a);
      HeldIsCut(cfg, t, k.chunk, a);
    } else {
      NewNodeIsSettled(cfg, s, failed, k, picks, order, reach);
      RunStays(cfg, u, steps, t, k.chunk, a);
      DrainedHolds(cfg, t, k.chunk, a);
    }
  }

  lemma SurvivorStays(cfg: Config, s: State, failed: Addr, k: Key, order: seq<Addr>, u: State, steps: seq<Step>,
                      t: State, a: Addr)
    requires ConfigOk(cfg) && Reachable(cfg, s) && Enumerates(order, Survivors(s, failed, k)) && a in order
    requires Inv(cfg, u) && u.nodes == s.nodes && Extends(s.h, u.h) && Run(cfg, u, steps, t) && k.file !in t.h.deleted
    ensures Extends(u.h, t.h) && Holds(t.nodes, a, k.chunk)
  {
    SurvivorHolds(cfg, s, failed, k, order, a);
    RunHolds(cfg, u, steps, t, k.chunk, a);
  }

  // ----- what is held stays held -----

  lemma HeldStays(cfg: Config, s: State, step: Step, c: string, a: Addr)
    requires Inv(cfg, s) && Enabled(cfg, s, step) && Holds(s.nodes, a, c)
    ensures Holds(Next(cfg, s, step).nodes, a, c) || Gone(s.h, c)
  {
    if step.Deliver? {
      FlightOk(cfg, s.h, s.items, s.next, step.id);
      DeliverHeld(cfg, s, step.id, step.reach, c, a);
    } else if IsMessageStep(step) {
      OtherMessagesLeaveDisks(cfg, s, step);
    } else {
      OthersOnlyAdd(cfg, s, step);
    }
  }

  lemma OtherMessagesLeaveDisks(cfg: Config, s: State, step: Step)
    requires Enabled(cfg, s, step) && IsMessageStep(step) && !step.Deliver?
    ensures Next(cfg, s, step).nodes == s.nodes
  {}

  lemma {:induction false} RunHolds(cfg: Config, s: State, steps: seq<Step>, t: State, c: string, a: Addr)
    requires ConfigOk(cfg) && Inv(cfg, s) && Run(cfg, s, steps, t)
    ensures Extends(s.h, t.h)
    ensures c in s.h.origin && Holds(s.nodes, a, c) ==> Holds(t.nodes, a, c) || Gone(t.h, c)
    decreases |steps|
  {
    if steps != [] {
      StepKeeps(cfg, s, steps[0]);
      StepExtends(cfg, s, steps[0]);
      if Holds(s.nodes, a, c) { HeldStays(cfg, s, steps[0], c, a); }
      RunHolds(cfg, Next(cfg, s, steps[0]), steps[1..], t, c, a);
    }
  }

  lemma StepExtends(cfg: Config, s: State, step: Step)
    requires HistoryOk(cfg, s.h) && Enabled(cfg, s, step)
    ensures Extends(s.h, Next(cfg, s, step).h)
  {
    if IsMessageStep(step) { MessageHistory(cfg, s, step); } else { OthersOnlyAdd(cfg, s, step); }
  }
}
