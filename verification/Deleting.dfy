/** Deletion comes to its end: what a node is to delete stays on its way until the chunk is gone there, or some request
    comes to nothing. */
module Deleting {
  import opened Types
  import opened NodeSpec
  import opened ControllerSpec
  import opened Cluster
  import opened Safety
  import opened SafetySteps
  import opened Quiescence
  import opened Effects

  /** The node has neither of the chunk's files. */
  predicate Without(nodes: map<Addr, Node>, c: string, a: Addr) {
    a in nodes && c !in nodes[a].data && c !in nodes[a].meta
  }

  /** The item is a request that leads to node `a` deleting chunk `c`. */
  predicate Deletes(item: Item, c: string, a: Addr) { item.msg.chunk == c && a in Removes(item) }

  ghost predicate Ordered(items: map<nat, Item>, c: string, a: Addr) {
    exists id :: id in items && Deletes(items[id], c, a)
  }

  /** The chunk is gone from the node, or a request that will take it away is under way, or was lost. */
  ghost predicate Ending(s: State, c: string, a: Addr) {
    Without(s.nodes, c, a) || Ordered(s.items, c, a) || (c, a) in s.undeleted
  }

  lemma StaysEnding(s: State, t: State, taken: set<nat>, c: string, a: Addr)
    requires Ending(s, c, a) && s.undeleted <= t.undeleted && KeepsItems(s, t, taken)
    requires Without(s.nodes, c, a) ==> Without(t.nodes, c, a)
    requires forall id :: id in taken && id in s.items && Deletes(s.items[id], c, a) ==> Ending(t, c, a)
    ensures Ending(t, c, a)
  {
    if Ordered(s.items, c, a) {
      var id :| id in s.items && Deletes(s.items[id], c, a);
      if id !in taken { assert id in t.items && Deletes(t.items[id], c, a); }
    }
  }

  lemma OrderedAt(items: map<nat, Item>, next: nat, out: seq<Item>, j: nat, c: string, a: Addr)
    requires (forall id :: id in items ==> id < next) && j < |out| && Deletes(out[j], c, a)
    ensures Ordered(Added(items, next, out), c, a)
  {
    AddedAt(items, next, out, j);
  }

  // ----- handlers -----

  /** The node handles a message of that kind about the chunk. */
  predicate Handles(s: State, step: Step, kind: RequestType, c: string, a: Addr) {
    step.Deliver? && step.id in s.items && s.items[step.id].Flight?
    && s.items[step.id].msg.kind == kind && s.items[step.id].msg.receiver == a && s.items[step.id].msg.chunk == c
  }

  /** The step gives the node the chunk back: it handles a write of it. */
  predicate Restores(s: State, step: Step, c: string, a: Addr) { Handles(s, step, Write, c, a) }

  /** The node handles a request to delete the chunk. */
  predicate Clears(s: State, step: Step, c: string, a: Addr) { Handles(s, step, Delete, c, a) }

  /** Whoever a delete was to reach is without the chunk once it has been handled, is passed the request, or is
      spared. */
  lemma DeleteReaches(cfg: Config, n: Node, m: ChunkMsg, reach: set<Addr>, a: Addr) returns (j: nat)
    requires m.kind == Delete && a in Removes(Flight(m)) && n.data.Keys == n.meta.Keys
    ensures var r := Handle(SiteOf(cfg, m.receiver), n, m, reach);
            || (a == m.receiver && m.chunk !in r.node.data && m.chunk !in r.node.meta)
            || a in Spared(n, m, reach)
            || (j < |r.out| && Deletes(r.out[j], m.chunk, a))
  {
    j := 0;
    if a != m.receiver {
      j :| 0 <= j < |m.replicas| && m.replicas[j] == a;
    }
  }

  lemma DeliverEnds(cfg: Config, s: State, id: nat, reach: set<Addr>, c: string, a: Addr)
    requires CanDeliver(cfg, s, id) && Deletes(s.items[id], c, a)
    requires s.nodes[s.items[id].msg.receiver].data.Keys == s.nodes[s.items[id].msg.receiver].meta.Keys
    ensures Ending(AfterDeliver(cfg, s, id, reach), c, a)
  {
    var m := s.items[id].msg;
    var r := Handle(SiteOf(cfg, m.receiver), s.nodes[m.receiver], m, reach);
    var j := DeleteReaches(cfg, s.nodes[m.receiver], m, reach, a);
    if j < |r.out| && Deletes(r.out[j], c, a) { OrderedAt(s.items - {id}, s.next, r.out, j, c, a); }
  }

  lemma DeliverLeavesWithout(cfg: Config, s: State, id: nat, reach: set<Addr>, c: string, a: Addr)
    requires CanDeliver(cfg, s, id) && Without(s.nodes, c, a) && !Restores(s, Deliver(id, reach), c, a)
    ensures Without(AfterDeliver(cfg, s, id, reach).nodes, c, a)
  {}

  lemma DeliverTakesOne(cfg: Config, s: State, id: nat, reach: set<Addr>)
    requires CanDeliver(cfg, s, id)
    ensures var t := AfterDeliver(cfg, s, id, reach); s.undeleted <= t.undeleted && KeepsItems(s, t, {id})
  {}

  lemma DeliverStillEnds(cfg: Config, s: State, id: nat, reach: set<Addr>, c: string, a: Addr)
    requires CanDeliver(cfg, s, id) && Ending(s, c, a) && !Restores(s, Deliver(id, reach), c, a)
    requires s.nodes[s.items[id].msg.receiver].data.Keys == s.nodes[s.items[id].msg.receiver].meta.Keys
    ensures Ending(AfterDeliver(cfg, s, id, reach), c, a)
  {
    DeliverTakesOne(cfg, s, id, reach);
    if Without(s.nodes, c, a) { DeliverLeavesWithout(cfg, s, id, reach, c, a); }
    if Deletes(s.items[id], c, a) { DeliverEnds(cfg, s, id, reach, c, a); }
    StaysEnding(s, AfterDeliver(cfg, s, id, reach), {id}, c, a);
  }

  lemma DropStillEnds(cfg: Config, s: State, id: nat, c: string, a: Addr)
    requires id in s.items && Ending(s, c, a)
    ensures Ending(AfterDrop(cfg, s, id), c, a)
  {
    StaysEnding(s, AfterDrop(cfg, s, id), {id}, c, a);
  }

  /** A step that takes an item which deletes nothing, and leaves the disks alone. */
  ghost predicate TakesOther(s: State, t: State, id: nat) {
    id in s.items && Removes(s.items[id]) == {} && t.nodes == s.nodes && s.undeleted <= t.undeleted
      && KeepsItems(s, t, {id})
  }

  lemma OtherHandlers(cfg: Config, s: State, step: Step)
    requires Enabled(cfg, s, step) && (step.WakeUp? || step.Receive?)
    ensures TakesOther(s, Next(cfg, s, step), step.id)
  {}

  lemma AnswerTakesOther(cfg: Config, s: State, step: Step)
    requires Enabled(cfg, s, step) && step.AnswerReplica? && s.items[step.id].msg.kind == Replica
    ensures TakesOther(s, Next(cfg, s, step), step.id)
  {}

  lemma OtherEnds(cfg: Config, s: State, step: Step, c: string, a: Addr)
    requires Enabled(cfg, s, step) && (step.WakeUp? || step.Receive? || step.AnswerReplica?)
    requires step.AnswerReplica? ==> s.items[step.id].msg.kind == Replica
    ensures Ending(s, c, a) ==> Ending(Next(cfg, s, step), c, a)
  {
    if step.AnswerReplica? { AnswerTakesOther(cfg, s, step); } else { OtherHandlers(cfg, s, step); }
    if Ending(s, c, a) { StaysEnding(s, Next(cfg, s, step), {step.id}, c, a); }
  }

  lemma DeliveryEnds(cfg: Config, s: State, step: Step, c: string, a: Addr)
    requires StoreOk(cfg, s) && Enabled(cfg, s, step) && step.Deliver? && !Restores(s, step, c, a)
    ensures Ending(s, c, a) ==> Ending(Next(cfg, s, step), c, a)
  {
    var at := s.items[step.id].msg.receiver;
    assert NodeOk(cfg, s.h, at, s.nodes[at]);
    if Ending(s, c, a) { DeliverStillEnds(cfg, s, step.id, step.reach, c, a); }
  }

  lemma MessageEnds(cfg: Config, s: State, step: Step, c: string, a: Addr)
    requires ConfigOk(cfg) && StoreOk(cfg, s) && Enabled(cfg, s, step) && IsMessageStep(step)
    requires !Restores(s, step, c, a)
    ensures Ending(s, c, a) ==> Ending(Next(cfg, s, step), c, a)
  {
    if step.Deliver? {
      DeliveryEnds(cfg, s, step, c, a);
    } else if step.Drop? {
      if Ending(s, c, a) { DropStillEnds(cfg, s, step.id, c, a); }
    } else {
      if step.AnswerReplica? {
        assert ItemOk(cfg, s.h, s.items[step.id]);
        NodesAreNotController(cfg, s.h, s.items[step.id].msg);
      }
      OtherEnds(cfg, s, step, c, a);
    }
  }

  // ----- steps and runs -----

  ghost predicate OnlyGrows(s: State, t: State, c: string, a: Addr) {
    s.undeleted <= t.undeleted && KeepsItems(s, t, {}) && (Without(s.nodes, c, a) ==> Without(t.nodes, c, a))
  }

  lemma NodesGrow(cfg: Config, s: State, step: Step, c: string, a: Addr)
    requires Enabled(cfg, s, step) && (IsNodeStep(step) || IsBeatStep(step))
    ensures OnlyGrows(s, Next(cfg, s, step), c, a)
  {}

  lemma WritesGrow(cfg: Config, s: State, step: Step, c: string, a: Addr)
    requires Enabled(cfg, s, step) && (step.WriteFile? || step.StartRead?)
    ensures OnlyGrows(s, Next(cfg, s, step), c, a)
  {}

  lemma RequestsGrow(cfg: Config, s: State, step: Step, c: string, a: Addr)
    requires Enabled(cfg, s, step) && (step.DeleteFile? || step.Command? || step.ReplaceFailed?)
    ensures OnlyGrows(s, Next(cfg, s, step), c, a)
  {}

  lemma OthersEnd(cfg: Config, s: State, step: Step, c: string, a: Addr)
    requires Enabled(cfg, s, step) && !IsMessageStep(step)
    ensures Ending(s, c, a) ==> Ending(Next(cfg, s, step), c, a)
  {
    if IsNodeStep(step) || IsBeatStep(step) {
      NodesGrow(cfg, s, step, c, a);
    } else if step.WriteFile? || step.StartRead? {
      WritesGrow(cfg, s, step, c, a);
    } else {
      RequestsGrow(cfg, s, step, c, a);
    }
    if Ending(s, c, a) { StaysEnding(s, Next(cfg, s, step), {}, c, a); }
  }

  lemma RestoringHolds(cfg: Config, s: State, step: Step, c: string, a: Addr)
    requires Enabled(cfg, s, step) && Restores(s, step, c, a)
    ensures Holds(Next(cfg, s, step).nodes, a, c)
  {}

  /** Whether or not it ends the node, a request to delete leaves it without the chunk. */
  lemma DeleteEmpties(at: Site, n: Node, m: ChunkMsg, reach: set<Addr>)
    requires m.kind == Delete && n.data.Keys == n.meta.Keys
    ensures var r := Handle(at, n, m, reach).node; m.chunk !in r.data && m.chunk !in r.meta
  {}

  lemma DeliverEmpties(cfg: Config, s: State, id: nat, reach: set<Addr>)
    requires CanDeliver(cfg, s, id) && s.items[id].msg.kind == Delete
    requires s.nodes[s.items[id].msg.receiver].data.Keys == s.nodes[s.items[id].msg.receiver].meta.Keys
    ensures Without(AfterDeliver(cfg, s, id, reach).nodes, s.items[id].msg.chunk, s.items[id].msg.receiver)
  {
    var m := s.items[id].msg;
    DeleteEmpties(SiteOf(cfg, m.receiver), s.nodes[m.receiver], m, reach);
  }

  lemma ClearingEmpties(cfg: Config, s: State, step: Step, c: string, a: Addr)
    requires StoreOk(cfg, s) && Enabled(cfg, s, step) && Clears(s, step, c, a)
    ensures Without(Next(cfg, s, step).nodes, c, a)
  {
    assert NodeOk(cfg, s.h, a, s.nodes[a]);
    DeliverEmpties(cfg, s, step.id, step.reach);
  }

  lemma DeliveryLeavesHeld(cfg: Config, s: State, step: Step, c: string, a: Addr)
    requires Enabled(cfg, s, step) && step.Deliver? && !Clears(s, step, c, a) && Holds(s.nodes, a, c)
    ensures Holds(Next(cfg, s, step).nodes, a, c)
  {}

  lemma OthersLeaveHeld(cfg: Config, s: State, step: Step, c: string, a: Addr)
    requires HistoryOk(cfg, s.h) && Enabled(cfg, s, step) && !Clears(s, step, c, a) && Holds(s.nodes, a, c)
    ensures Holds(Next(cfg, s, step).nodes, a, c)
  {
    if step.Deliver? {
      DeliveryLeavesHeld(cfg, s, step, c, a);
    } else if IsMessageStep(step) {
      OtherMessagesLeaveDisks(cfg, s, step);
    } else {
      OthersOnlyAdd(cfg, s, step);
    }
  }

  /** Of the writes of the chunk and requests to delete it that the node has handled, the last is a write; `so` says
      so of the time before the step. */
  predicate Rewriting(s: State, step: Step, c: string, a: Addr, so: bool) {
    Restores(s, step, c, a) || (so && !Clears(s, step, c, a))
  }

  /** The same of a whole run. */
  ghost predicate Rewritten(cfg: Config, s: State, steps: seq<Step>, c: string, a: Addr, so: bool)
    decreases |steps|
  {
    if steps == [] then so
    else Enabled(cfg, s, steps[0])
         && Rewritten(cfg, Next(cfg, s, steps[0]), steps[1..], c, a, Rewriting(s, steps[0], c, a, so))
  }

  /** The node holds the chunk, if it was given it back, and else is without it or on its way to be. */
  ghost predicate Turned(s: State, c: string, a: Addr, so: bool) {
    if so then Holds(s.nodes, a, c) else Ending(s, c, a)
  }

  ghost predicate Removing(cfg: Config, s: State, c: string, a: Addr, so: bool) { Inv(cfg, s) && Turned(s, c, a, so) }

  lemma HandlingTurns(cfg: Config, s: State, step: Step, c: string, a: Addr)
    requires StoreOk(cfg, s) && Enabled(cfg, s, step)
    ensures Restores(s, step, c, a) ==> Turned(Next(cfg, s, step), c, a, true)
    ensures Clears(s, step, c, a) ==> Turned(Next(cfg, s, step), c, a, false)
  {
    if Restores(s, step, c, a) { RestoringHolds(cfg, s, step, c, a); }
    if Clears(s, step, c, a) { ClearingEmpties(cfg, s, step, c, a); }
  }

  lemma OthersTurn(cfg: Config, s: State, step: Step, c: string, a: Addr, so: bool)
    requires ConfigOk(cfg) && StoreOk(cfg, s) && Enabled(cfg, s, step)
    requires !Restores(s, step, c, a) && !Clears(s, step, c, a)
    ensures Turned(s, c, a, so) ==> Turned(Next(cfg, s, step), c, a, so)
  {
    if Turned(s, c, a, so) {
      if so {
        OthersLeaveHeld(cfg, s, step, c, a);
      } else if IsMessageStep(step) {
        MessageEnds(cfg, s, step, c, a);
      } else {
        OthersEnd(cfg, s, step, c, a);
      }
    }
  }

  lemma StepTurns(cfg: Config, s: State, step: Step, c: string, a: Addr, so: bool)
    requires ConfigOk(cfg) && StoreOk(cfg, s) && Enabled(cfg, s, step)
    ensures Turned(s, c, a, so) ==> Turned(Next(cfg, s, step), c, a, Rewriting(s, step, c, a, so))
  {
    HandlingTurns(cfg, s, step, c, a);
    if !Restores(s, step, c, a) && !Clears(s, step, c, a) { OthersTurn(cfg, s, step, c, a, so); }
  }

  lemma StepEnds(cfg: Config, s: State, step: Step, c: string, a: Addr, so: bool)
    requires ConfigOk(cfg) && Enabled(cfg, s, step) && Removing(cfg, s, c, a, so)
    ensures Removing(cfg, Next(cfg, s, step), c, a, Rewriting(s, step, c, a, so))
  {
    StepKeeps(cfg, s, step);
    StepTurns(cfg, s, step, c, a, so);
  }

  lemma {:induction false} RunEnds(cfg: Config, s: State, steps: seq<Step>, t: State, c: string, a: Addr, so: bool)
    requires ConfigOk(cfg) && Run(cfg, s, steps, t) && Removing(cfg, s, c, a, so)
    ensures Removing(cfg, t, c, a, Rewritten(cfg, s, steps, c, a, so))
    decreases |steps|
  {
    if steps != [] {
      StepEnds(cfg, s, steps[0], c, a, so);
      RunEnds(cfg, Next(cfg, s, steps[0]), steps[1..], t, c, a, Rewriting(s, steps[0], c, a, so));
    }
  }

  // ----- the theorem -----

  lemma RowIsEnding(cfg: Config, s: State, client: Addr, file: string, table: seq<Location>, reach: set<Addr>, i: nat,
                    a: Addr)
    requires CanDelete(cfg, s, client, file, table) && i < |table| && a in table[i].replicas
    ensures Ending(AfterDelete(cfg, s, client, file, table, reach), table[i].chunk, a)
  {
    if i < Firm(table) && table[i].replicas[0] in reach {
      var id := DeleteIsRequested(cfg, s, client, file, table, reach, i);
      assert Deletes(AfterDelete(cfg, s, client, file, table, reach).items[id], table[i].chunk, a);
    }
  }

  /** After a file was deleted and nothing that is to delete a chunk on a node its table listed is under way or was lost
      since, the node has neither of the chunk's files, exactly if the last it handled about the chunk since was not a
      write. */
  lemma DeleteRemovesExactly(cfg: Config, s: State, client: Addr, file: string, table: seq<Location>, reach: set<Addr>,
                             steps: seq<Step>, t: State, i: nat, a: Addr)
    requires ConfigOk(cfg) && Reachable(cfg, s) && CanDelete(cfg, s, client, file, table)
    requires i < |table| && a in table[i].replicas
    requires Run(cfg, AfterDelete(cfg, Forgiven(s), client, file, table, reach), steps, t)
    requires !Ordered(t.items, table[i].chunk, a) && (table[i].chunk, a) !in t.undeleted
    ensures Without(t.nodes, table[i].chunk, a) <==>
            !Rewritten(cfg, AfterDelete(cfg, Forgiven(s), client, file, table, reach), steps, table[i].chunk, a, false)
  {
    DeletionRemoves(cfg, s, client, file, table, reach, i, a);
    RunEnds(cfg, AfterDelete(cfg, Forgiven(s), client, file, table, reach), steps, t, table[i].chunk, a, false);
  }

  lemma DeletionRemoves(cfg: Config, s: State, client: Addr, file: string, table: seq<Location>, reach: set<Addr>,
                        i: nat,
                        a: Addr)
    requires ConfigOk(cfg) && Reachable(cfg, s) && CanDelete(cfg, s, client, file, table)
    requires i < |table| && a in table[i].replicas
    ensures Removing(cfg, AfterDelete(cfg, Forgiven(s), client, file, table, reach), table[i].chunk, a, false)
  {
    ReachableOk(cfg, s);
    ForgivenOk(cfg, s);
    StepKeeps(cfg, Forgiven(s), DeleteFile(client, file, table, reach));
    RowIsEnding(cfg, Forgiven(s), client, file, table, reach, i, a);
  }
}
