/** Runs in which a file is deleted: one after which no node has its chunk, and one in which a repair that was under way
    brings the chunk back. */
module Erasures {
  import opened Types
  import opened Records
  import opened NodeSpec
  import opened Cluster
  import opened Quiescence
  import opened Deleting
  import opened Effects
  import opened Witness
  import opened Scenarios
  import opened Recoveries

  // ----- requests to delete -----

  function Ordering(cfg: Config, p: Piece, sender: Addr, to: Addr, replicas: seq<Addr>): Item {
    Flight(ChunkMsg(Delete, p.file, p.chunk, replicas, 0, "", sender, to, []))
  }

  function Dropped(p: Piece, s: State, a: Addr): State
    requires a in s.nodes
  {
    s.(nodes := s.nodes[a := WithoutChunk(s.nodes[a], p.chunk)])
  }

  /** A request to delete is under way to a node that is up and has the piece. */
  ghost predicate Due(cfg: Config, s: State, id: nat, p: Piece, sender: Addr, to: Addr, replicas: seq<Addr>) {
    && PoolOk(s) && id in s.items && s.items[id] == Ordering(cfg, p, sender, to, replicas) && Up(cfg, s, to)
    && p.chunk in s.nodes[to].data && p.chunk in s.nodes[to].meta
  }

  lemma LastIsWiped(cfg: Config, s: State, id: nat, p: Piece, sender: Addr, to: Addr)
    requires Due(cfg, s, id, p, sender, to, [])
    ensures CanDeliver(cfg, s, id) && AfterDeliver(cfg, s, id, {}) == Dropped(p, s, to).(items := s.items - {id})
  {
    DeleteTakesAway(cfg, s, id, {});
    AddedNone(s.items - {id}, s.next);
  }

  function WithOrders(cfg: Config, p: Piece, to: Addr, a: Addr, b: Addr, items: map<nat, Item>, next: nat)
    : map<nat, Item>
  {
    items[next := Ordering(cfg, p, to, a, [])][next + 1 := Ordering(cfg, p, to, b, [])]
  }

  lemma TwoAreOrdered(cfg: Config, p: Piece, sender: Addr, to: Addr, a: Addr, b: Addr, items: map<nat, Item>, next: nat)
    requires forall id :: id in items ==> id < next
    ensures Added(items, next, Orders(Ordering(cfg, p, sender, to, [a, b]).msg))
            == WithOrders(cfg, p, to, a, b, items, next)
  {
    var m := Ordering(cfg, p, sender, to, [a, b]).msg;
    assert Orders(m) == [Ordering(cfg, p, to, a, []), Ordering(cfg, p, to, b, [])];
    AddedTwo(items, next, Ordering(cfg, p, to, a, []), Ordering(cfg, p, to, b, []));
  }

  lemma FirstIsWiped(cfg: Config, s: State, id: nat, p: Piece, sender: Addr, to: Addr, a: Addr, b: Addr)
    requires Due(cfg, s, id, p, sender, to, [a, b])
    ensures CanDeliver(cfg, s, id) && AfterDeliver(cfg, s, id, {a, b})
            == Dropped(p, s, to).(items := WithOrders(cfg, p, to, a, b, s.items - {id}, s.next), next := s.next + 2)
  {
    DeleteTakesAway(cfg, s, id, {a, b});
    TwoAreOrdered(cfg, p, sender, to, a, b, s.items - {id}, s.next);
  }

  lemma OneWipes(cfg: Config, u: State, s: State, id: nat, p: Piece, sender: Addr, to: Addr) returns (t: State)
    requires Comes(cfg, u, s) && Due(cfg, s, id, p, sender, to, [])
    ensures Comes(cfg, u, t) && t == Dropped(p, s, to).(items := s.items - {id})
  {
    LastIsWiped(cfg, s, id, p, sender, to);
    DeliverComes(cfg, u, s, id, {});
    t := AfterDeliver(cfg, s, id, {});
  }

  lemma FirstWipes(cfg: Config, u: State, s: State, id: nat, p: Piece, sender: Addr, to: Addr, a: Addr, b: Addr)
    returns (t: State)
    requires Comes(cfg, u, s) && Due(cfg, s, id, p, sender, to, [a, b])
    ensures Comes(cfg, u, t)
    ensures t == Dropped(p, s, to).(items := WithOrders(cfg, p, to, a, b, s.items - {id}, s.next), next := s.next + 2)
  {
    FirstIsWiped(cfg, s, id, p, sender, to, a, b);
    DeliverComes(cfg, u, s, id, {a, b});
    t := AfterDeliver(cfg, s, id, {a, b});
  }

  /** A request to delete with two replicas: all three nodes lose the piece, and nothing of it stays under way. */
  lemma ThreeWipe(cfg: Config, u: State, s: State, id: nat, p: Piece, sender: Addr, to: Addr, a: Addr, b: Addr)
    returns (t: State)
    requires Comes(cfg, u, s) && Due(cfg, s, id, p, sender, to, [a, b]) && to !in {a, b} && a != b
    requires Up(cfg, s, a) && Up(cfg, s, b) && s.nodes[a] == s.nodes[b] == Holding(cfg, p)
    ensures Comes(cfg, u, t)
    ensures t == Dropped(p, Dropped(p, Dropped(p, s, to), a), b).(items := s.items - {id}, next := s.next + 2)
  {
    t := FirstWipes(cfg, u, s, id, p, sender, to, a, b);
    t := TwoWipe(cfg, u, t, s.next, s.next + 1, p, to, a, b);
    assert t.items == s.items - {id};
  }

  lemma TwoWipe(cfg: Config, u: State, s: State, i: nat, j: nat, p: Piece, sender: Addr, a: Addr, b: Addr)
    returns (t: State)
    requires Comes(cfg, u, s) && i != j && a != b
    requires Due(cfg, s, i, p, sender, a, []) && Due(cfg, s, j, p, sender, b, [])
    ensures Comes(cfg, u, t) && t == Dropped(p, Dropped(p, s, a), b).(items := s.items - {i} - {j})
  {
    t := OneWipes(cfg, u, s, i, p, sender, a);
    t := OneWipes(cfg, u, t, j, p, sender, b);
  }

  // ----- a file is deleted -----

  /** The three nodes that are indexed have the piece. */
  ghost predicate Erasable(cfg: Config, s: State, p: Piece, n: Addr, a: Addr, b: Addr) {
    && PoolOk(s) && s.index == map[KeyOf(p) := {n, a, b}] && n !in {a, b} && a != b
    && Up(cfg, s, n) && Up(cfg, s, a) && Up(cfg, s, b) && s.nodes[a] == s.nodes[b] == Holding(cfg, p)
    && p.chunk in s.nodes[n].data && p.chunk in s.nodes[n].meta
  }

  /** A client that runs may delete the file. */
  ghost predicate Deletable(cfg: Config, s: State, p: Piece, cl: Addr) {
    cl in cfg.clients && ClientRuns(s, cl) && p.file in s.h.files && p.file !in s.h.deleted
  }

  lemma MayDelete(cfg: Config, s: State, p: Piece, n: Addr, a: Addr, b: Addr, cl: Addr)
    requires Erasable(cfg, s, p, n, a, b) && Deletable(cfg, s, p, cl)
    ensures CanDelete(cfg, s, cl, p.file, [Row(p, n, a, b)]) && Firm([Row(p, n, a, b)]) == 1
  {
    var table := [Row(p, n, a, b)];
    ThreeEnumerate(n, a, b);
    OneRow(s.index, p.file, table[0]);
    assert table[1..] == [];
  }

  lemma DeletePostsOne(cfg: Config, s: State, p: Piece, n: Addr, a: Addr, b: Addr, cl: Addr)
    requires CanDelete(cfg, s, cl, p.file, [Row(p, n, a, b)]) && Firm([Row(p, n, a, b)]) == 1
    ensures var t := AfterDelete(cfg, s, cl, p.file, [Row(p, n, a, b)], {n});
            && t.items == s.items[s.next := Ordering(cfg, p, cfg.controller, n, [a, b])] && t.next == s.next + 1
            && t.nodes == s.nodes && t.down == s.down && t.undeleted == s.undeleted && p.file in t.h.deleted
  {
    var table, item := [Row(p, n, a, b)], Ordering(cfg, p, cfg.controller, n, [a, b]);
    assert table[..1] == table && table[1..] == [] && [n, a, b][1..] == [a, b];
    assert DeleteMsgs(cfg, p.file, table, {n}) == [item];
    AddedOne(s.items, s.next, item);
  }

  /** After the client's delete the three nodes are told and lose the piece. */
  lemma Erases(cfg: Config, s: State, p: Piece, n: Addr, a: Addr, b: Addr, cl: Addr) returns (t: State)
    requires Erasable(cfg, s, p, n, a, b) && CanDelete(cfg, s, cl, p.file, [Row(p, n, a, b)])
             && Firm([Row(p, n, a, b)]) == 1
    ensures var u := AfterDelete(cfg, s, cl, p.file, [Row(p, n, a, b)], {n});
            && Comes(cfg, u, t) && p.file in t.h.deleted
            && u.nodes == s.nodes && t == u.(nodes := t.nodes, items := s.items, next := s.next + 3)
            && t.nodes == Dropped(p, Dropped(p, Dropped(p, s, n), a), b).nodes && t.undeleted == s.undeleted
  {
    var u := AfterDelete(cfg, s, cl, p.file, [Row(p, n, a, b)], {n});
    DeletePostsOne(cfg, s, p, n, a, b, cl);
    ComesHere(cfg, u);
    t := ThreeWipe(cfg, u, u, s.next, p, cfg.controller, n, a, b);
    TakenBack(s.items, s.next, Ordering(cfg, p, cfg.controller, n, [a, b]));
  }

  lemma TakenBack(items: map<nat, Item>, next: nat, item: Item)
    requires forall id :: id in items ==> id < next
    ensures items[next := item] - {next} == items
  {}

  /** A run after the delete of a file to a state in which nothing of it is under way or lost: none of the three nodes
      that had the chunk has either of its files. */
  lemma DeleteGoesThrough(cfg: Config, n: Addr, a: Addr, b: Addr, d: Addr, cl: Addr, file: string, folder: string,
                          content: Bytes)
    returns (s: State, steps: seq<Step>, t: State)
    requires FourNodes(cfg, n, a, b, d, cl, file, content)
    ensures Reachable(cfg, s) && CanDelete(cfg, s, cl, file, [Row(Single(file, content), n, a, b)])
    ensures Run(cfg, AfterDelete(cfg, Forgiven(s), cl, file, [Row(Single(file, content), n, a, b)], {n}), steps, t)
    ensures forall x :: x in {n, a, b} ==> Erased(s, t, ChunkName(file, 0), x)
  {
    var p := Single(file, content);
    s := FileIsKnown(cfg, n, a, b, d, cl, file, folder, content);
    MayDelete(cfg, s, p, n, a, b, cl);
    t := Erases(cfg, Forgiven(s), p, n, a, b, cl);
    steps :| Run(cfg, AfterDelete(cfg, Forgiven(s), cl, file, [Row(p, n, a, b)], {n}), steps, t) && Tidy(steps);
    forall x | x in {n, a, b} ensures Erased(s, t, p.chunk, x) {
      IsWithout(s, t, p, n, a, b, x);
    }
  }

  /** The node had the chunk and has neither of its files, and nothing that is to delete it there is under way or
      lost. */
  ghost predicate Erased(s: State, t: State, c: string, x: Addr) {
    Holds(s.nodes, x, c) && Without(t.nodes, c, x) && !Ordered(t.items, c, x) && (c, x) !in t.undeleted
  }

  lemma IsWithout(s: State, t: State, p: Piece, n: Addr, a: Addr, b: Addr, x: Addr)
    requires {n, a, b} <= s.nodes.Keys && x in {n, a, b}
    requires t.nodes == Dropped(p, Dropped(p, Dropped(p, s, n), a), b).nodes
    ensures Without(t.nodes, p.chunk, x)
  {}

  // ----- a repair brings a deleted chunk back -----

  /** A run in which a file is deleted while a node repairs its copy of the chunk: all requests to delete are handled,
      and then the node stores the chunk again. */
  lemma RepairUndoesDelete(cfg: Config, n: Addr, a: Addr, b: Addr, d: Addr, cl: Addr, file: string, folder: string,
                           content: Bytes, other: Bytes)
    returns (s: State, t: State)
    requires FourNodes(cfg, n, a, b, d, cl, file, content) && other != content
    ensures var table := [Row(Single(file, content), n, a, b)];
            && Reachable(cfg, s) && CanDelete(cfg, s, cl, file, table)
            && Comes(cfg, AfterDelete(cfg, Forgiven(s), cl, file, table, {n}), t)
            && !Ordered(t.items, table[0].chunk, n) && (table[0].chunk, n) !in t.undeleted
            && file in t.h.deleted && Holds(t.nodes, n, table[0].chunk)
  {
    var p := Single(file, content);
    s := RepairIsUnderWay(cfg, n, a, b, d, cl, file, folder, content, other);
    MayDelete(cfg, s, p, n, a, b, cl);
    t := ComesBack(cfg, s, p, n, a, b, cl);
  }

  /** A write that repairs the node's copy is on its way to it. */
  lemma RepairIsUnderWay(cfg: Config, n: Addr, a: Addr, b: Addr, d: Addr, cl: Addr, file: string, folder: string,
                         content: Bytes, other: Bytes)
    returns (s: State)
    requires FourNodes(cfg, n, a, b, d, cl, file, content) && other != content
    ensures var p := Single(file, content);
            && Reachable(cfg, s) && Erasable(cfg, s, p, n, a, b) && Deletable(cfg, s, p, cl)
            && Arriving(cfg, s, 8, p, a, n, [b]) && forall id :: id in s.items ==> id == 8 || s.items[id].Repair?
  {
    var p := Single(file, content);
    var w := IsAwaited(cfg, n, a, b, d, cl, file, folder, content, other);
    Inspects(cfg, w, p, other, n, a, b, cl);
    DeliverReaches(cfg, w, 3, {cfg.controller});
    var u := AfterDeliver(cfg, w, 3, {cfg.controller});
    s := IsFetched(cfg, u, p, other, n, a, b, cl);
    ComesReaches(cfg, u, s);
  }

  lemma ComesBack(cfg: Config, s: State, p: Piece, n: Addr, a: Addr, b: Addr, cl: Addr) returns (t: State)
    requires Erasable(cfg, s, p, n, a, b) && CanDelete(cfg, s, cl, p.file, [Row(p, n, a, b)])
             && Firm([Row(p, n, a, b)]) == 1
    requires Arriving(cfg, s, 8, p, a, n, [b]) && forall id :: id in s.items ==> id == 8 || s.items[id].Repair?
    ensures Comes(cfg, AfterDelete(cfg, Forgiven(s), cl, p.file, [Row(p, n, a, b)], {n}), t)
    ensures !Ordered(t.items, p.chunk, n) && (p.chunk, n) !in t.undeleted && p.file in t.h.deleted
            && Holds(t.nodes, n, p.chunk)
  {
    var u := AfterDelete(cfg, Forgiven(s), cl, p.file, [Row(p, n, a, b)], {n});
    var e := Erases(cfg, Forgiven(s), p, n, a, b, cl);
    t := StoresAgain(cfg, u, e, p, n, a, b);
  }

  lemma StoresAgain(cfg: Config, u: State, e: State, p: Piece, n: Addr, a: Addr, b: Addr) returns (t: State)
    requires Comes(cfg, u, e) && Arriving(cfg, e, 8, p, a, n, [b]) && Up(cfg, e, b) && (p.chunk, n) !in e.undeleted
    requires (forall id :: id in e.items ==> id == 8 || e.items[id].Repair?) && p.file in e.h.deleted
    ensures Comes(cfg, u, t)
    ensures !Ordered(t.items, p.chunk, n) && (p.chunk, n) !in t.undeleted && p.file in t.h.deleted
            && Holds(t.nodes, n, p.chunk)
  {
    t := TwoCopies(cfg, u, e, 8, p, a, n, b);
  }
}
