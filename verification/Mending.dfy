/** Repair makes copies right again: what a request for a chunk leads to is, on every node it names, the bytes the
    writer cut, whatever was on that node before. */
module Mending {
  import opened Types
  import opened Sets
  import opened Placement
  import opened Records
  import opened NodeSpec
  import opened ControllerSpec
  import opened Cluster
  import opened Safety
  import opened SafetySteps
  import opened Quiescence

  /** The item belongs to a repair of chunk `c` on node `n`, and once it has gone all its way node `a` has the right
      bytes: because it gets them, or because it could not have answered otherwise. */
  predicate Mends(item: Item, c: string, n: Addr, a: Addr) {
    item.msg.chunk == c
    && match item
       case Repair(at, original, m) => original == n && (a == n || a == at || a in m.replicas)
       case Flight(m) =>
         match m.kind
         case Write => a == m.receiver || a in m.replicas
         case Replica => m.replicas != [] && m.receiver == n && (a == n || a in m.replicas)
         case Read => m.sender == n && (a == n || a == m.receiver || a in m.replicas)
         case Delete => false
  }

  ghost predicate Mending(items: map<nat, Item>, c: string, n: Addr, a: Addr) {
    exists id :: id in items && Mends(items[id], c, n, a)
  }

  /** The bytes a node has for a chunk are those the writer cut. */
  ghost predicate RightBytes(h: History, n: Node, c: string) {
    c in h.origin && c in n.data && n.data[c] == h.origin[c].bytes
  }

  ghost predicate Right(s: State, c: string, a: Addr) { a in s.nodes && RightBytes(s.h, s.nodes[a], c) }

  /** The copy on `a` is right, or what will make it right is under way, or some of that was lost, or the file is
      deleted. */
  ghost predicate Mended(s: State, c: string, n: Addr, a: Addr) {
    Right(s, c, a) || Mending(s.items, c, n, a) || (c, n) in s.lost || (c, a) in s.lost || Gone(s.h, c)
  }

  /** What mends leads to one of the two nodes. */
  lemma MendsLeads(item: Item, c: string, n: Addr, a: Addr)
    requires Mends(item, c, n, a)
    ensures n in LeadsTo(item) || a in LeadsTo(item)
  {}

  lemma StaysMended(s: State, t: State, taken: set<nat>, c: string, n: Addr, a: Addr)
    requires Mended(s, c, n, a) && s.lost <= t.lost && Extends(s.h, t.h) && KeepsItems(s, t, taken)
    requires Right(s, c, a) ==> Mended(t, c, n, a)
    requires forall id :: id in taken && id in s.items && Mends(s.items[id], c, n, a) ==> Mended(t, c, n, a)
    ensures Mended(t, c, n, a)
  {
    if Mending(s.items, c, n, a) {
      var id :| id in s.items && Mends(s.items[id], c, n, a);
      if id !in taken { assert id in t.items && Mends(t.items[id], c, n, a); }
    }
  }

  ghost predicate Forwarded(out: seq<Item>, c: string, n: Addr, a: Addr) {
    exists j :: 0 <= j < |out| && Mends(out[j], c, n, a)
  }

  lemma ForwardedMends(items: map<nat, Item>, next: nat, out: seq<Item>, c: string, n: Addr, a: Addr)
    requires (forall id :: id in items ==> id < next) && Forwarded(out, c, n, a)
    ensures Mending(Added(items, next, out), c, n, a)
  {
    var j :| 0 <= j < |out| && Mends(out[j], c, n, a);
    assert Added(items, next, out)[next + j] == out[j];
  }

  // ----- handlers -----

  /** A node answers only with the right bytes, so it has them itself. */
  lemma IntactIsRight(cfg: Config, h: History, a: Addr, n: Node, c: string)
    requires ConfigOk(cfg) && NodeOk(cfg, h, a, n) && c in n.data && cfg.hash(n.data[c]) == ReadsAs(n.meta[c].checksum)
    ensures RightBytes(h, n, c)
  {
    assert Known(h, n.meta[c].file, c);
    HashReadsAsIs(cfg, h.origin[c].bytes);
  }

  /** What a handler that reads or repairs chunk `m.chunk` for `n` makes of it. */
  lemma ServeMends(cfg: Config, h: History, node: Node, at: Addr, m: ChunkMsg, original: Addr, reach: set<Addr>,
                   a: Addr)
    requires ConfigOk(cfg) && NodeOk(cfg, h, at, node) && (a == original || a == at || a in m.replicas)
    ensures var out := Serve(SiteOf(cfg, at), node, m, original, reach).out;
            || Unserved(cfg.hash, node, m.chunk, original, reach)
            || (!Validates(cfg.hash, node, m.chunk) && m.sender != original)
            || (a == at && RightBytes(h, node, m.chunk)) || Forwarded(out, m.chunk, original, a)
  {
    var out := Serve(SiteOf(cfg, at), node, m, original, reach).out;
    if !Unserved(cfg.hash, node, m.chunk, original, reach) {
      if cfg.hash(node.data[m.chunk]) == ReadsAs(node.meta[m.chunk].checksum) {
        IntactIsRight(cfg, h, at, node, m.chunk);
        if a != at { assert Mends(out[|out| - 1], m.chunk, original, a); }
      } else if m.sender == original {
        assert Mends(out[|out| - 1], m.chunk, original, a);
      }
    }
  }

  lemma FetchMends(cfg: Config, node: Node, m: ChunkMsg, reach: set<Addr>, n: Addr, a: Addr)
    requires m.kind == Replica && Mends(Flight(m), m.chunk, n, a)
    ensures var out := FetchFromReplica(SiteOf(cfg, m.receiver), node, m, reach).out;
            m.replicas[0] !in reach || Forwarded(out, m.chunk, n, a)
  {
    var out := FetchFromReplica(SiteOf(cfg, m.receiver), node, m, reach).out;
    if m.replicas[0] in reach { assert Mends(out[0], m.chunk, n, a); }
  }

  lemma SaveMends(cfg: Config, h: History, node: Node, m: ChunkMsg, reach: set<Addr>, n: Addr, a: Addr)
    requires MsgOk(cfg, h, m) && m.kind == Write && Mends(Flight(m), m.chunk, n, a)
    ensures var r := SaveChunk(SiteOf(cfg, m.receiver), node, m, reach);
            a in Misses(cfg, node, m, reach) || (a == m.receiver && RightBytes(h, r.node, m.chunk))
              || Forwarded(r.out, m.chunk, n, a)
  {
    var r := SaveChunk(SiteOf(cfg, m.receiver), node, m, reach);
    if a == m.receiver {
      assert SavedBytes(m) == m.data;
    } else {
      var i :| 0 <= i < |m.replicas| && m.replicas[i] == a;
      if i < |r.out| { assert Mends(r.out[i], m.chunk, n, a); }
    }
  }

  /** Whatever mends, its handler passes on or brings to its end, or misses one of the two nodes. */
  lemma HandleMends(cfg: Config, h: History, node: Node, m: ChunkMsg, reach: set<Addr>, n: Addr, a: Addr)
    requires ConfigOk(cfg) && MsgOk(cfg, h, m) && NodeOk(cfg, h, m.receiver, node) && Mends(Flight(m), m.chunk, n, a)
    ensures var r := Handle(SiteOf(cfg, m.receiver), node, m, reach);
            || n in Misses(cfg, node, m, reach) || a in Misses(cfg, node, m, reach)
            || (a == m.receiver && RightBytes(h, r.node, m.chunk)) || Forwarded(r.out, m.chunk, n, a)
  {
    match m.kind
    case Write => SaveMends(cfg, h, node, m, reach, n, a);
    case Replica => FetchMends(cfg, node, m, reach, n, a);
    case Read => ServeMends(cfg, h, node, m.receiver, m, m.sender, reach, a);
    case Delete =>
  }

  /** Writes carry the right bytes, and only a deletion takes a chunk away. */
  lemma HandleLeavesRight(cfg: Config, h: History, node: Node, m: ChunkMsg, reach: set<Addr>, c: string)
    requires MsgOk(cfg, h, m) && RightBytes(h, node, c)
    ensures RightBytes(h, Handle(SiteOf(cfg, m.receiver), node, m, reach).node, c) || Gone(h, c)
  {
    if m.kind == Write { assert SavedBytes(m) == m.data; }
  }

  // ----- steps -----

  /** An item and the node it is at are as the store keeps them. */
  ghost predicate Sound(cfg: Config, s: State, id: nat)
    requires id in s.items
  {
    match s.items[id]
    case Flight(m) => MsgOk(cfg, s.h, m) && (m.receiver in s.nodes
      ==> NodeOk(cfg, s.h, m.receiver, s.nodes[m.receiver]))
    case Repair(at, _, _) => at in s.nodes ==> NodeOk(cfg, s.h, at, s.nodes[at])
  }

  lemma StoreIsSound(cfg: Config, s: State, id: nat)
    requires StoreOk(cfg, s) && id in s.items
    ensures Sound(cfg, s, id)
  {
    assert ItemOk(cfg, s.h, s.items[id]);
  }

  lemma DeliverMends(cfg: Config, s: State, id: nat, reach: set<Addr>, c: string, n: Addr, a: Addr)
    requires ConfigOk(cfg) && CanDeliver(cfg, s, id) && Sound(cfg, s, id) && Mends(s.items[id], c, n, a)
    ensures Mended(AfterDeliver(cfg, s, id, reach), c, n, a)
  {
    var m := s.items[id].msg;
    var r := Handle(SiteOf(cfg, m.receiver), s.nodes[m.receiver], m, reach);
    HandleMends(cfg, s.h, s.nodes[m.receiver], m, reach, n, a);
    if Forwarded(r.out, c, n, a) { ForwardedMends(s.items - {id}, s.next, r.out, c, n, a); }
  }

  lemma DeliverLeavesRight(cfg: Config, s: State, id: nat, reach: set<Addr>, c: string, a: Addr)
    requires CanDeliver(cfg, s, id) && Sound(cfg, s, id) && Right(s, c, a)
    ensures Right(AfterDeliver(cfg, s, id, reach), c, a) || Gone(s.h, c)
  {
    var m := s.items[id].msg;
    if a == m.receiver { HandleLeavesRight(cfg, s.h, s.nodes[a], m, reach, c); }
  }

  lemma DeliverKeepsMended(cfg: Config, s: State, id: nat, reach: set<Addr>, c: string, n: Addr, a: Addr)
    requires ConfigOk(cfg) && CanDeliver(cfg, s, id) && Sound(cfg, s, id) && Mended(s, c, n, a)
    ensures Mended(AfterDeliver(cfg, s, id, reach), c, n, a)
  {
    DeliverTakes(cfg, s, id, reach);
    if Right(s, c, a) { DeliverLeavesRight(cfg, s, id, reach, c, a); }
    if Mends(s.items[id], c, n, a) { DeliverMends(cfg, s, id, reach, c, n, a); }
    StaysMended(s, AfterDeliver(cfg, s, id, reach), {id}, c, n, a);
  }

  function Woken(cfg: Config, s: State, id: nat, reach: set<Addr>): seq<Item>
    requires CanWake(cfg, s, id)
  {
    var item := s.items[id];
    Serve(SiteOf(cfg, item.at), s.nodes[item.at], item.msg, item.original, reach).out
  }

  lemma WakePasses(cfg: Config, s: State, id: nat, reach: set<Addr>, c: string, n: Addr, a: Addr)
    requires CanWake(cfg, s, id)
    ensures Forwarded(Woken(cfg, s, id, reach), c, n, a) ==> Mending(AfterWake(cfg, s, id, reach).items, c, n, a)
  {
    var out := Woken(cfg, s, id, reach);
    if Forwarded(out, c, n, a) { ForwardedMends(s.items - {id}, s.next, out, c, n, a); }
  }

  lemma WakeMends(cfg: Config, s: State, id: nat, reach: set<Addr>, c: string, n: Addr, a: Addr)
    requires ConfigOk(cfg) && CanWake(cfg, s, id) && Sound(cfg, s, id) && Mends(s.items[id], c, n, a)
    ensures Mended(AfterWake(cfg, s, id, reach), c, n, a)
  {
    var item := s.items[id];
    ServeMends(cfg, s.h, s.nodes[item.at], item.at, item.msg, item.original, reach, a);
    WakePasses(cfg, s, id, reach, c, n, a);
  }

  lemma WakeKeepsMended(cfg: Config, s: State, id: nat, reach: set<Addr>, c: string, n: Addr, a: Addr)
    requires ConfigOk(cfg) && CanWake(cfg, s, id) && Sound(cfg, s, id) && Mended(s, c, n, a)
    ensures Mended(AfterWake(cfg, s, id, reach), c, n, a)
  {
    var t := AfterWake(cfg, s, id, reach);
    if Mends(s.items[id], c, n, a) { WakeMends(cfg, s, id, reach, c, n, a); }
    assert KeepsItems(s, t, {id});
    StaysMended(s, t, {id}, c, n, a);
  }

  lemma DropKeepsMended(cfg: Config, s: State, id: nat, c: string, n: Addr, a: Addr)
    requires id in s.items && Mended(s, c, n, a)
    ensures Mended(AfterDrop(cfg, s, id), c, n, a)
  {
    var t := AfterDrop(cfg, s, id);
    assert KeepsItems(s, t, {id});
    assert Right(s, c, a) ==> Right(t, c, a);
    if Mends(s.items[id], c, n, a) {
      MendsLeads(s.items[id], c, n, a);
      assert (c, n) in t.lost || (c, a) in t.lost;
    }
    StaysMended(s, t, {id}, c, n, a);
  }

  lemma ConsumingMended(cfg: Config, s: State, t: State, id: nat, c: string, n: Addr, a: Addr)
    ensures Consumes(cfg, s, t, id) && Placed(s.h, c, n) && Placed(s.h, c, a) && Mended(s, c, n, a)
            ==> Mended(t, c, n, a)
  {
    if Consumes(cfg, s, t, id) && Placed(s.h, c, n) && Placed(s.h, c, a) && Mended(s, c, n, a) {
      if Mends(s.items[id], c, n, a) { MendsLeads(s.items[id], c, n, a); }
      StaysMended(s, t, {id}, c, n, a);
    }
  }

  lemma ConsumerMended(cfg: Config, s: State, step: Step, c: string, n: Addr, a: Addr)
    requires ConfigOk(cfg) && StoreOk(cfg, s) && Enabled(cfg, s, step) && (step.AnswerReplica? || step.Receive?)
    ensures Placed(s.h, c, n) && Placed(s.h, c, a) && Mended(s, c, n, a) ==> Mended(Next(cfg, s, step), c, n, a)
  {
    match step
    case AnswerReplica(id, order, reach) =>
      AnswerConsumes(cfg, s, id, order, reach);
      ConsumingMended(cfg, s, AfterAnswer(cfg, s, id, order, reach), id, c, n, a);
    case Receive(id) =>
      ReceiveConsumes(cfg, s, id);
      ConsumingMended(cfg, s, AfterReceive(cfg, s, id), id, c, n, a);
  }

  lemma HandlerMended(cfg: Config, s: State, step: Step, c: string, n: Addr, a: Addr)
    requires ConfigOk(cfg) && Enabled(cfg, s, step) && (step.Deliver? || step.WakeUp?) && Sound(cfg, s, step.id)
    ensures Mended(s, c, n, a) ==> Mended(Next(cfg, s, step), c, n, a)
  {
    if Mended(s, c, n, a) {
      match step
      case Deliver(id, reach) => DeliverKeepsMended(cfg, s, id, reach, c, n, a);
      case WakeUp(id, reach) => WakeKeepsMended(cfg, s, id, reach, c, n, a);
    }
  }

  /** The step replaces the bytes of one copy by others. */
  predicate Corrupts(step: Step, c: string, a: Addr) { step.Corrupt? && step.node == a && step.chunk == c }

  predicate SameDisks(s: State, t: State) { t.nodes == s.nodes }

  lemma BeatsLeaveDisks(cfg: Config, s: State, step: Step)
    requires Enabled(cfg, s, step) && IsBeatStep(step)
    ensures SameDisks(s, Next(cfg, s, step))
  {}

  lemma RequestsLeaveDisks(cfg: Config, s: State, step: Step)
    requires Enabled(cfg, s, step) && !IsMessageStep(step) && !IsBeatStep(step) && !IsNodeStep(step)
    ensures SameDisks(s, Next(cfg, s, step))
  {}

  lemma NodeStepLeavesBytes(cfg: Config, s: State, step: Step, c: string, a: Addr)
    requires Enabled(cfg, s, step) && IsNodeStep(step) && !Corrupts(step, c, a) && a in s.nodes && c in s.nodes[a].data
    ensures var t := Next(cfg, s, step);
            a in t.nodes && c in t.nodes[a].data && t.nodes[a].data[c] == s.nodes[a].data[c]
  {}

  lemma OthersLeaveRight(cfg: Config, s: State, step: Step, c: string, a: Addr)
    requires Enabled(cfg, s, step) && !IsMessageStep(step) && !Corrupts(step, c, a) && Right(s, c, a)
    requires Extends(s.h, Next(cfg, s, step).h)
    ensures Right(Next(cfg, s, step), c, a)
  {
    if IsBeatStep(step) {
      BeatsLeaveDisks(cfg, s, step);
    } else if IsNodeStep(step) {
      NodeStepLeavesBytes(cfg, s, step, c, a);
    } else {
      RequestsLeaveDisks(cfg, s, step);
    }
  }

  lemma OthersMended(cfg: Config, s: State, step: Step, c: string, n: Addr, a: Addr)
    requires HistoryOk(cfg, s.h) && Enabled(cfg, s, step) && !IsMessageStep(step) && !Corrupts(step, c, a)
    ensures Mended(s, c, n, a) ==> Mended(Next(cfg, s, step), c, n, a)
  {
    OthersOnlyAdd(cfg, s, step);
    if Mended(s, c, n, a) {
      if Right(s, c, a) { OthersLeaveRight(cfg, s, step, c, a); }
      StaysMended(s, Next(cfg, s, step), {}, c, n, a);
    }
  }

  lemma MessageMended(cfg: Config, s: State, step: Step, c: string, n: Addr, a: Addr)
    requires ConfigOk(cfg) && StoreOk(cfg, s) && Enabled(cfg, s, step) && IsMessageStep(step)
    requires Placed(s.h, c, n) && Placed(s.h, c, a)
    ensures Mended(s, c, n, a) ==> Mended(Next(cfg, s, step), c, n, a)
  {
    if step.AnswerReplica? || step.Receive? {
      ConsumerMended(cfg, s, step, c, n, a);
    } else if step.Drop? {
      if Mended(s, c, n, a) { DropKeepsMended(cfg, s, step.id, c, n, a); }
    } else {
      StoreIsSound(cfg, s, step.id);
      HandlerMended(cfg, s, step, c, n, a);
    }
  }

  lemma StepMended(cfg: Config, s: State, step: Step, c: string, n: Addr, a: Addr)
    requires ConfigOk(cfg) && Inv(cfg, s) && Enabled(cfg, s, step) && !Corrupts(step, c, a)
    requires Placed(s.h, c, n) && Placed(s.h, c, a)
    ensures Mended(s, c, n, a) ==> Mended(Next(cfg, s, step), c, n, a)
  {
    if IsMessageStep(step) { MessageMended(cfg, s, step, c, n, a); } else { OthersMended(cfg, s, step, c, n, a); }
  }

  /** No step of the run corrupts the copy on `a`. */
  predicate Spares(steps: seq<Step>, c: string, a: Addr) { forall i :: 0 <= i < |steps| ==> !Corrupts(steps[i], c, a) }

  lemma SparesRest(steps: seq<Step>, c: string, a: Addr)
    requires Spares(steps, c, a) && steps != []
    ensures !Corrupts(steps[0], c, a) && Spares(steps[1..], c, a)
  {}

  /** A sound state in which a repair of chunk `c`, cut as `o` says, is under way or done. */
  ghost predicate Repairing(cfg: Config, s: State, o: Origin, c: string, n: Addr, a: Addr) {
    && Inv(cfg, s) && Placed(s.h, c, n) && Placed(s.h, c, a) && Mended(s, c, n, a)
    && c in s.h.origin && s.h.origin[c] == o
  }

  lemma StepRepairs(cfg: Config, s: State, step: Step, o: Origin, c: string, n: Addr, a: Addr)
    requires ConfigOk(cfg) && Enabled(cfg, s, step) && !Corrupts(step, c, a) && Repairing(cfg, s, o, c, n, a)
    ensures Repairing(cfg, Next(cfg, s, step), o, c, n, a)
  {
    StepKeeps(cfg, s, step);
    StepMended(cfg, s, step, c, n, a);
    StepExtends(cfg, s, step);
    StillPlaced(s.h, Next(cfg, s, step).h, c, n);
    StillPlaced(s.h, Next(cfg, s, step).h, c, a);
  }

  lemma {:induction false} RunRepairs(cfg: Config, s: State, steps: seq<Step>, t: State, o: Origin, c: string, n: Addr,
                                      a: Addr)
    requires ConfigOk(cfg) && Run(cfg, s, steps, t) && Spares(steps, c, a) && Repairing(cfg, s, o, c, n, a)
    ensures Repairing(cfg, t, o, c, n, a)
    decreases |steps|
  {
    if steps != [] {
      SparesRest(steps, c, a);
      StepRepairs(cfg, s, steps[0], o, c, n, a);
      RunRepairs(cfg, Next(cfg, s, steps[0]), steps[1..], t, o, c, n, a);
    }
  }

  // ----- the theorems -----

  /** Nothing of the repair of chunk `c` on `n` that concerns `a` is under way or was lost. */
  ghost predicate Through(s: State, c: string, n: Addr, a: Addr) {
    (forall id :: id in s.items ==> !Mends(s.items[id], c, n, a)) && (c, n) !in s.lost && (c, a) !in s.lost
  }

  /** The node has the bytes cut and their checksum. */
  predicate HasCut(cfg: Config, s: State, a: Addr, c: string, cut: Bytes) {
    && a in s.nodes && c in s.nodes[a].data && c in s.nodes[a].meta
    && s.nodes[a].data[c] == cut && s.nodes[a].meta[c].checksum == cfg.hash(cut)
  }

  lemma ThroughIsRight(cfg: Config, s: State, c: string, n: Addr, a: Addr)
    requires StoreOk(cfg, s) && Mended(s, c, n, a) && Through(s, c, n, a) && !Gone(s.h, c)
    ensures c in s.h.origin && HasCut(cfg, s, a, c, s.h.origin[c].bytes)
  {
    assert NodeOk(cfg, s.h, a, s.nodes[a]);
  }

  lemma ReplacementMends(cfg: Config, s: State, failed: Addr, k: Key, picks: seq<Addr>, order: seq<Addr>,
                         reach: set<Addr>, a: Addr)
    requires CanReplace(s, failed, k, picks, order)
    requires a in order || a == Replacement(s.active.Keys, failed, Survivors(s, failed, k), picks).node
    ensures var n := Replacement(s.active.Keys, failed, Survivors(s, failed, k), picks).node;
            Mended(Replaced(cfg, s, failed, k, picks, order, reach), k.chunk, n, a)
  {
    var n := Replacement(s.active.Keys, failed, Survivors(s, failed, k), picks).node;
    if n in reach && Survivors(s, failed, k) != {} {
      var out := ReplicaItems(cfg, k, order, n, reach);
      EnumeratesSome(order, Survivors(s, failed, k));
      assert Mends(out[0], k.chunk, n, a);
      ForwardedMends(s.items, s.next, out, k.chunk, n, a);
    }
  }

  lemma ReplacedPlaces(cfg: Config, s: State, failed: Addr, k: Key, picks: seq<Addr>, order: seq<Addr>,
                       reach: set<Addr>, a: Addr)
    requires ConfigOk(cfg) && Reachable(cfg, s) && CanReplace(s, failed, k, picks, order)
    requires a in order || a == Replacement(s.active.Keys, failed, Survivors(s, failed, k), picks).node
    ensures var u := Replaced(cfg, s, failed, k, picks, order, reach);
            Extends(s.h, u.h) && Placed(u.h, k.chunk, a)
  {
    ReplacedExtends(cfg, s, failed, k, picks, order, reach);
    if a in order {
      SurvivorHolds(cfg, s, failed, k, order, a);
    } else {
      NewNodeIsSettled(cfg, s, failed, k, picks, order, reach);
    }
  }

  /** After a failed node was replaced, the new node and every survivor have the bytes cut and their checksum, and so
      the same, whatever a survivor's copy was like before: as soon as nothing of the repair that concerns the node is
      under way or was lost since, as long as the file is not deleted and the copy on the node was not corrupted
      since. */
  lemma RepairReplicates(cfg: Config, s: State, failed: Addr, k: Key, picks: seq<Addr>, order: seq<Addr>,
                         reach: set<Addr>,
                         steps: seq<Step>, t: State, a: Addr)
    requires ConfigOk(cfg) && Reachable(cfg, s) && CanReplace(s, failed, k, picks, order)
    requires Run(cfg, Replaced(cfg, s, failed, k, picks, order, reach), steps, t) && Spares(steps, k.chunk, a)
    requires a in order || a == Replacement(s.active.Keys, failed, Survivors(s, failed, k), picks).node
    requires Through(t, k.chunk, Replacement(s.active.Keys, failed, Survivors(s, failed, k), picks).node, a)
    requires k.file !in t.h.deleted
    ensures k.chunk in s.h.origin && HasCut(cfg, t, a, k.chunk, s.h.origin[k.chunk].bytes)
  {
    var n := Replacement(s.active.Keys, failed, Survivors(s, failed, k), picks).node;
    ReplacedRepairs(cfg, s, failed, k, picks, order, reach, a);
    RunRepairs(cfg, Replaced(cfg, s, failed, k, picks, order, reach), steps, t, s.h.origin[k.chunk], k.chunk, n, a);
    ThroughIsRight(cfg, t, k.chunk, n, a);
  }

  lemma ReplacedRepairs(cfg: Config, s: State, failed: Addr, k: Key, picks: seq<Addr>, order: seq<Addr>,
                        reach: set<Addr>,
                        a: Addr)
    requires ConfigOk(cfg) && Reachable(cfg, s) && CanReplace(s, failed, k, picks, order)
    requires a in order || a == Replacement(s.active.Keys, failed, Survivors(s, failed, k), picks).node
    ensures k.chunk in s.h.origin && s.h.origin[k.chunk].file == k.file
    ensures var n := Replacement(s.active.Keys, failed, Survivors(s, failed, k), picks).node;
            Repairing(cfg, Replaced(cfg, s, failed, k, picks, order, reach), s.h.origin[k.chunk], k.chunk, n, a)
  {
    var n := Replacement(s.active.Keys, failed, Survivors(s, failed, k), picks).node;
    ReachableOk(cfg, s);
    FewSurvivors(cfg, s, failed, k);
    ReplacedKeeps(cfg, s, failed, k, picks, order, reach);
    ReplacedPlaces(cfg, s, failed, k, picks, order, reach, a);
    ReplacedPlaces(cfg, s, failed, k, picks, order, reach, n);
    ReplacementMends(cfg, s, failed, k, picks, order, reach, a);
  }

  // ----- a node that repairs its own copy -----

  /** The item is a node's request to the controller for the replicas of a chunk. */
  predicate RequestsReplicas(cfg: Config, item: Item, c: string, r: Addr) {
    item.msg.chunk == c && r in Asker(cfg, item)
  }

  ghost predicate Requested(cfg: Config, items: map<nat, Item>, c: string, r: Addr) {
    exists id :: id in items && RequestsReplicas(cfg, items[id], c, r)
  }

  /** The copy on `r` is right, or a repair that will make it right is under way, or some of that was lost. */
  ghost predicate Healing(cfg: Config, s: State, c: string, r: Addr) {
    Mended(s, c, r, r) || Requested(cfg, s.items, c, r) || (c, r) in s.unanswered
  }

  lemma AnswerHeals(cfg: Config, s: State, id: nat, order: seq<Addr>, reach: set<Addr>, c: string, r: Addr)
    requires CanAnswer(cfg, s, id, order) && RequestsReplicas(cfg, s.items[id], c, r)
    ensures Healing(cfg, AfterAnswer(cfg, s, id, order, reach), c, r)
  {
    var out := AnswerItems(cfg, s.items[id].msg, order, reach);
    var m := s.items[id].msg;
    if Answerable(s, m, reach) {
      EnumeratesSome(order, Holders(s.index, Key(m.file, m.chunk)) - {m.sender});
      assert Mends(out[0], c, r, r);
      ForwardedMends(s.items - {id}, s.next, out, c, r, r);
    }
  }

  /** Nobody but the controller takes a request addressed to it. */
  lemma RequestStays(cfg: Config, s: State, step: Step, c: string, r: Addr, id: nat)
    requires ConfigOk(cfg) && HistoryOk(cfg, s.h) && Enabled(cfg, s, step)
    requires id in s.items && RequestsReplicas(cfg, s.items[id], c, r)
    requires !(step.AnswerReplica? && step.id == id) && !(step.Drop? && step.id == id)
    ensures Requested(cfg, Next(cfg, s, step).items, c, r)
  {
    if IsMessageStep(step) { OtherItemStays(cfg, s, step, id); } else { AnyItemStays(cfg, s, step, id); }
    var items := Next(cfg, s, step).items;
    assert RequestsReplicas(cfg, items[id], c, r);
  }

  lemma AnyItemStays(cfg: Config, s: State, step: Step, id: nat)
    requires HistoryOk(cfg, s.h) && Enabled(cfg, s, step) && !IsMessageStep(step) && id in s.items
    ensures id in Next(cfg, s, step).items && Next(cfg, s, step).items[id] == s.items[id]
  {
    OthersOnlyAdd(cfg, s, step);
  }

  lemma OtherItemStays(cfg: Config, s: State, step: Step, id: nat)
    requires Enabled(cfg, s, step) && IsMessageStep(step) && step.id != id && id in s.items
    ensures id in Next(cfg, s, step).items && Next(cfg, s, step).items[id] == s.items[id]
  {}

  lemma MessageUnanswered(cfg: Config, s: State, step: Step)
    requires Enabled(cfg, s, step) && IsMessageStep(step)
    ensures s.unanswered <= Next(cfg, s, step).unanswered
  {}

  lemma NodeUnanswered(cfg: Config, s: State, step: Step)
    requires Enabled(cfg, s, step) && (IsNodeStep(step) || IsBeatStep(step))
    ensures s.unanswered <= Next(cfg, s, step).unanswered
  {}

  lemma RequestUnanswered(cfg: Config, s: State, step: Step)
    requires Enabled(cfg, s, step) && !IsMessageStep(step) && !IsNodeStep(step) && !IsBeatStep(step)
    ensures s.unanswered <= Next(cfg, s, step).unanswered
  {}

  lemma UnansweredGrows(cfg: Config, s: State, step: Step)
    requires Enabled(cfg, s, step)
    ensures s.unanswered <= Next(cfg, s, step).unanswered
  {
    if IsMessageStep(step) {
      MessageUnanswered(cfg, s, step);
    } else if IsNodeStep(step) || IsBeatStep(step) {
      NodeUnanswered(cfg, s, step);
    } else {
      RequestUnanswered(cfg, s, step);
    }
  }

  lemma RequestedHeals(cfg: Config, s: State, step: Step, c: string, r: Addr)
    requires ConfigOk(cfg) && HistoryOk(cfg, s.h) && Enabled(cfg, s, step)
    ensures Requested(cfg, s.items, c, r) ==> Healing(cfg, Next(cfg, s, step), c, r)
  {
    if id :| id in s.items && RequestsReplicas(cfg, s.items[id], c, r) {
      if step.AnswerReplica? && step.id == id {
        AnswerHeals(cfg, s, id, step.order, step.reach, c, r);
      } else if !(step.Drop? && step.id == id) {
        RequestStays(cfg, s, step, c, r, id);
      }
    }
  }

  /** A sound state in which a node's repair of its own copy, cut as `o` says, is under way or done. */
  ghost predicate SelfRepairing(cfg: Config, s: State, o: Origin, c: string, r: Addr) {
    Inv(cfg, s) && Placed(s.h, c, r) && Healing(cfg, s, c, r) && c in s.h.origin && s.h.origin[c] == o
  }

  lemma StepHeals(cfg: Config, s: State, step: Step, o: Origin, c: string, r: Addr)
    requires ConfigOk(cfg) && Enabled(cfg, s, step) && !Corrupts(step, c, r) && SelfRepairing(cfg, s, o, c, r)
    ensures SelfRepairing(cfg, Next(cfg, s, step), o, c, r)
  {
    StepKeeps(cfg, s, step);
    StepMended(cfg, s, step, c, r, r);
    RequestedHeals(cfg, s, step, c, r);
    UnansweredGrows(cfg, s, step);
    StepExtends(cfg, s, step);
    StillPlaced(s.h, Next(cfg, s, step).h, c, r);
  }

  lemma {:induction false} RunHeals(cfg: Config, s: State, steps: seq<Step>, t: State, o: Origin, c: string, r: Addr)
    requires ConfigOk(cfg) && Run(cfg, s, steps, t) && Spares(steps, c, r) && SelfRepairing(cfg, s, o, c, r)
    ensures SelfRepairing(cfg, t, o, c, r)
    decreases |steps|
  {
    if steps != [] {
      SparesRest(steps, c, r);
      StepHeals(cfg, s, steps[0], o, c, r);
      RunHeals(cfg, Next(cfg, s, steps[0]), steps[1..], t, o, c, r);
    }
  }

  /** Nothing of a repair of the copy on `r` is under way or was lost, from its request for replicas on. */
  ghost predicate Healed(cfg: Config, s: State, c: string, r: Addr) {
    && Through(s, c, r, r) && (c, r) !in s.unanswered
    && forall id :: id in s.items ==> !RequestsReplicas(cfg, s.items[id], c, r)
  }

  lemma RequesterIsPlaced(cfg: Config, h: History, items: map<nat, Item>, next: nat, c: string, r: Addr)
    requires ConfigOk(cfg) && HistoryOk(cfg, h) && ItemsOk(cfg, h, items, next) && Requested(cfg, items, c, r)
    ensures Placed(h, c, r) && c in h.origin
  {
    var id :| id in items && RequestsReplicas(cfg, items[id], c, r);
    assert ItemOk(cfg, h, items[id]);
    NodesAreNotController(cfg, h, items[id].msg);
  }

  /** A node that has asked the controller for the replicas of a chunk has a right copy of it as soon as nothing of
      that repair is under way or was lost since, as long as the file is not deleted and the copy was not corrupted
      again. */
  lemma RequestHeals(cfg: Config, s: State, steps: seq<Step>, t: State, c: string, r: Addr)
    requires ConfigOk(cfg) && Inv(cfg, s) && Requested(cfg, s.items, c, r)
    requires Run(cfg, Forgiven(s), steps, t) && Spares(steps, c, r) && Healed(cfg, t, c, r) && !Gone(t.h, c)
    ensures c in s.h.origin && HasCut(cfg, t, r, c, s.h.origin[c].bytes)
  {
    RequesterIsPlaced(cfg, s.h, s.items, s.next, c, r);
    ForgivenOk(cfg, s);
    RunHeals(cfg, Forgiven(s), steps, t, s.h.origin[c], c, r);
    ThroughIsRight(cfg, t, c, r, r);
  }

  /** A read that finds its chunk corrupted asks the controller for replicas, if it can be dialled. */
  lemma CorruptionAsks(cfg: Config, s: State, id: nat, reach: set<Addr>)
    requires ConfigOk(cfg) && CanDeliver(cfg, s, id) && Sound(cfg, s, id) && s.items[id].msg.kind == Read
    requires s.items[id].msg.chunk in s.nodes[s.items[id].msg.receiver].data && cfg.controller in reach
    requires !Right(s, s.items[id].msg.chunk, s.items[id].msg.receiver)
    ensures Requested(cfg, AfterDeliver(cfg, s, id, reach).items, s.items[id].msg.chunk, s.items[id].msg.receiver)
  {
    var m := s.items[id].msg;
    var n := s.nodes[m.receiver];
    if cfg.hash(n.data[m.chunk]) == ReadsAs(n.meta[m.chunk].checksum) {
      IntactIsRight(cfg, s.h, m.receiver, n, m.chunk);
    }
    var t, out := AfterDeliver(cfg, s, id, reach), Handle(SiteOf(cfg, m.receiver), n, m, reach).out;
    assert |out| == 2 && RequestsReplicas(cfg, out[0], m.chunk, m.receiver);
    assert Added(s.items - {id}, s.next, out)[s.next + 0] == out[0];
    assert t.items[s.next] == out[0];
  }

  /** A corrupted copy that is read is made right again: once a repair that the read started has gone all its way
      without a loss, and the copy was not corrupted again and the file not deleted, the node has the bytes the writer
      cut. */
  lemma ReadHeals(cfg: Config, s: State, id: nat, reach: set<Addr>, steps: seq<Step>, t: State)
    requires ConfigOk(cfg) && Reachable(cfg, s) && CanDeliver(cfg, s, id) && s.items[id].msg.kind == Read
    requires s.items[id].msg.chunk in s.nodes[s.items[id].msg.receiver].data && cfg.controller in reach
    requires !Right(s, s.items[id].msg.chunk, s.items[id].msg.receiver)
    requires Run(cfg, Forgiven(AfterDeliver(cfg, s, id, reach)), steps, t)
    requires Spares(steps, s.items[id].msg.chunk, s.items[id].msg.receiver)
    requires Healed(cfg, t, s.items[id].msg.chunk, s.items[id].msg.receiver) && !Gone(t.h, s.items[id].msg.chunk)
    ensures var c := s.items[id].msg.chunk;
            c in s.h.origin && HasCut(cfg, t, s.items[id].msg.receiver, c, s.h.origin[c].bytes)
  {
    ReachableOk(cfg, s);
    StoreIsSound(cfg, s, id);
    CorruptionAsks(cfg, s, id, reach);
    StepKeeps(cfg, s, Deliver(id, reach));
    RequestHeals(cfg, AfterDeliver(cfg, s, id, reach), steps, t, s.items[id].msg.chunk, s.items[id].msg.receiver);
  }
}
