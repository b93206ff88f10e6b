/** Runs in which everything goes well, step by step: a chunk goes from node to node, and three nodes come to hold what
    a client wrote. */
module Scenarios {
  import opened Types
  import opened Records
  import opened Placement
  import opened NodeSpec
  import opened Cluster
  import opened Quiescence
  import opened Effects
  import opened Witness

  // ----- runs -----

  ghost predicate Tidy(steps: seq<Step>) { forall i :: 0 <= i < |steps| ==> !steps[i].Corrupt? }

  /** A run that corrupts nothing leads from one state to the other. */
  ghost predicate Comes(cfg: Config, u: State, t: State) { exists steps :: Run(cfg, u, steps, t) && Tidy(steps) }

  lemma ComesHere(cfg: Config, s: State)
    ensures Comes(cfg, s, s)
  {
    assert Run(cfg, s, [], s) && Tidy([]);
  }

  lemma StepComes(cfg: Config, u: State, s: State, step: Step)
    ensures Comes(cfg, u, s) && Enabled(cfg, s, step) && !step.Corrupt? ==> Comes(cfg, u, Next(cfg, s, step))
  {
    if Comes(cfg, u, s) && Enabled(cfg, s, step) && !step.Corrupt? {
      var steps :| Run(cfg, u, steps, s) && Tidy(steps);
      RunSnoc(cfg, u, steps, s, step);
      TidyMore(steps, step);
    }
  }

  lemma TidyMore(steps: seq<Step>, step: Step)
    ensures Tidy(steps) && !step.Corrupt? ==> Tidy(steps + [step])
  {}

  lemma DeliverComes(cfg: Config, u: State, s: State, id: nat, reach: set<Addr>)
    ensures Comes(cfg, u, s) && CanDeliver(cfg, s, id) ==> Comes(cfg, u, AfterDeliver(cfg, s, id, reach))
  { StepComes(cfg, u, s, Deliver(id, reach)); }

  lemma AnswerComes(cfg: Config, u: State, s: State, id: nat, order: seq<Addr>, reach: set<Addr>)
    ensures Comes(cfg, u, s) && CanAnswer(cfg, s, id, order) ==> Comes(cfg, u, AfterAnswer(cfg, s, id, order, reach))
  { StepComes(cfg, u, s, AnswerReplica(id, order, reach)); }

  lemma {:induction false} RunReaches(cfg: Config, u: State, steps: seq<Step>, t: State)
    requires Reachable(cfg, u) && Run(cfg, u, steps, t)
    ensures Reachable(cfg, t)
    decreases |steps|
  {
    if steps != [] {
      ReachableStep(cfg, u, steps[0]);
      RunReaches(cfg, Next(cfg, u, steps[0]), steps[1..], t);
    }
  }

  lemma ComesReaches(cfg: Config, u: State, t: State)
    ensures Reachable(cfg, u) && Comes(cfg, u, t) ==> Reachable(cfg, t)
  {
    if Reachable(cfg, u) && Comes(cfg, u, t) {
      var steps :| Run(cfg, u, steps, t) && Tidy(steps);
      RunReaches(cfg, u, steps, t);
    }
  }

  // ----- one chunk and its copies -----

  /** A chunk cut for `file`. */
  datatype Piece = Piece(file: string, chunk: string, cut: Bytes)

  function Carrying(cfg: Config, p: Piece, sender: Addr, to: Addr, replicas: seq<Addr>): Item {
    Flight(ChunkMsg(Write, p.file, p.chunk, replicas, |p.cut|, cfg.hash(p.cut), sender, to, p.cut))
  }

  /** The node after one more write of the piece. */
  function Storing(cfg: Config, p: Piece, n: Node): Node {
    Node(n.data[p.chunk := p.cut], n.meta[p.chunk := Record(p.file, |p.cut|, cfg.hash(p.cut))],
         (n.received + 1) % UINT64)
  }

  /** The node has stored the piece. */
  function Taken(cfg: Config, p: Piece, s: State, a: Addr): State
    requires a in s.nodes
  {
    s.(nodes := s.nodes[a := Storing(cfg, p, s.nodes[a])], tainted := s.tainted - {(a, p.chunk)})
  }

  predicate Up(cfg: Config, s: State, a: Addr) { a in cfg.nodes && a in s.nodes && a !in s.down }

  /** A write under way to a node that is up. */
  ghost predicate Arriving(cfg: Config, s: State, id: nat, p: Piece, sender: Addr, to: Addr, replicas: seq<Addr>) {
    && ConfigOk(cfg) && PoolOk(s) && id in s.items && s.items[id] == Carrying(cfg, p, sender, to, replicas)
    && Up(cfg, s, to)
  }

  lemma Arrives(cfg: Config, s: State, id: nat, p: Piece, sender: Addr, to: Addr, replicas: seq<Addr>, reach: set<Addr>)
    requires Arriving(cfg, s, id, p, sender, to, replicas) && AllIn(replicas, reach)
    ensures CanDeliver(cfg, s, id) && AfterDeliver(cfg, s, id, reach)
            == Taken(cfg, p, s, to).(items := Added(s.items - {id}, s.next, Copies(cfg, s.items[id].msg)),
                                      next := s.next + |replicas|)
  {
    WriteIsForwarded(cfg, s, id, reach);
  }

  /** A write to the last node of a chain is stored and goes no further. */
  lemma LastCopy(cfg: Config, s: State, id: nat, p: Piece, sender: Addr, to: Addr)
    requires Arriving(cfg, s, id, p, sender, to, [])
    ensures CanDeliver(cfg, s, id) && AfterDeliver(cfg, s, id, {}) == Taken(cfg, p, s, to).(items := s.items - {id})
  {
    Arrives(cfg, s, id, p, sender, to, [], {});
    AddedNone(s.items - {id}, s.next);
  }

  lemma FirstOfTwo(cfg: Config, s: State, id: nat, p: Piece, sender: Addr, to: Addr, a: Addr)
    requires Arriving(cfg, s, id, p, sender, to, [a])
    ensures CanDeliver(cfg, s, id) && AfterDeliver(cfg, s, id, {a}) ==
              Taken(cfg, p, s, to).(items := (s.items - {id})[s.next := Carrying(cfg, p, to, a, [])],
                                    next := s.next + 1)
  {
    Arrives(cfg, s, id, p, sender, to, [a], {a});
    assert Copies(cfg, s.items[id].msg) == [Carrying(cfg, p, to, a, [])];
    AddedOne(s.items - {id}, s.next, Carrying(cfg, p, to, a, []));
  }

  lemma FirstOfThree(cfg: Config, s: State, id: nat, p: Piece, sender: Addr, to: Addr, a: Addr, b: Addr)
    requires Arriving(cfg, s, id, p, sender, to, [a, b])
    ensures CanDeliver(cfg, s, id) && AfterDeliver(cfg, s, id, {a, b}) ==
              Taken(cfg, p, s, to).(items := WithTwo(cfg, p, to, a, b, s.items - {id}, s.next), next := s.next + 2)
  {
    Arrives(cfg, s, id, p, sender, to, [a, b], {a, b});
    TwoGoOut(cfg, p, sender, to, a, b, s.items - {id}, s.next);
  }

  function WithTwo(cfg: Config, p: Piece, to: Addr, a: Addr, b: Addr, items: map<nat, Item>, next: nat)
    : map<nat, Item>
  {
    items[next := Carrying(cfg, p, to, a, [])][next + 1 := Carrying(cfg, p, to, b, [])]
  }

  lemma TwoGoOut(cfg: Config, p: Piece, sender: Addr, to: Addr, a: Addr, b: Addr, items: map<nat, Item>, next: nat)
    requires forall id :: id in items ==> id < next
    ensures Added(items, next, Copies(cfg, Carrying(cfg, p, sender, to, [a, b]).msg))
            == WithTwo(cfg, p, to, a, b, items, next)
  {
    var m := Carrying(cfg, p, sender, to, [a, b]).msg;
    assert Copies(cfg, m) == [Carrying(cfg, p, to, a, []), Carrying(cfg, p, to, b, [])];
    AddedTwo(items, next, Carrying(cfg, p, to, a, []), Carrying(cfg, p, to, b, []));
  }

  /** A write to a node with one replica: both store it, and nothing of it stays under way. */
  lemma TwoCopies(cfg: Config, u: State, s: State, id: nat, p: Piece, sender: Addr, to: Addr, a: Addr)
    returns (t: State)
    requires Comes(cfg, u, s) && Arriving(cfg, s, id, p, sender, to, [a]) && Up(cfg, s, a)
    ensures Comes(cfg, u, t)
    ensures t == Taken(cfg, p, Taken(cfg, p, s, to), a).(items := s.items - {id}, next := s.next + 1)
  {
    FirstOfTwo(cfg, s, id, p, sender, to, a);
    DeliverComes(cfg, u, s, id, {a});
    t := AfterDeliver(cfg, s, id, {a});
    t := OneMore(cfg, u, t, s.next, p, to, a);
    assert t.items == s.items - {id};
  }

  /** A write to the last node of a chain, at the end of a run. */
  lemma OneMore(cfg: Config, u: State, s: State, id: nat, p: Piece, sender: Addr, to: Addr) returns (t: State)
    requires Comes(cfg, u, s) && Arriving(cfg, s, id, p, sender, to, [])
    ensures Comes(cfg, u, t) && t == Taken(cfg, p, s, to).(items := s.items - {id})
  {
    LastCopy(cfg, s, id, p, sender, to);
    DeliverComes(cfg, u, s, id, {});
    t := AfterDeliver(cfg, s, id, {});
  }

  /** A write to a node with two replicas: all three store it, and nothing of it stays under way. */
  lemma ThreeCopies(cfg: Config, u: State, s: State, id: nat, p: Piece, sender: Addr, to: Addr, a: Addr, b: Addr)
    returns (t: State)
    requires Comes(cfg, u, s) && Arriving(cfg, s, id, p, sender, to, [a, b]) && Up(cfg, s, a) && Up(cfg, s, b)
    ensures Comes(cfg, u, t)
    ensures t == Taken(cfg, p, Taken(cfg, p, Taken(cfg, p, s, to), a), b)
                   .(items := s.items - {id}, next := s.next + 2)
  {
    t := SplitsInThree(cfg, u, s, id, p, sender, to, a, b);
    t := TwoMore(cfg, u, t, s.next, s.next + 1, p, to, a, b);
    assert t.items == s.items - {id};
  }

  lemma SplitsInThree(cfg: Config, u: State, s: State, id: nat, p: Piece, sender: Addr, to: Addr, a: Addr, b: Addr)
    returns (t: State)
    requires Comes(cfg, u, s) && Arriving(cfg, s, id, p, sender, to, [a, b])
    ensures Comes(cfg, u, t)
    ensures t == Taken(cfg, p, s, to).(items := WithTwo(cfg, p, to, a, b, s.items - {id}, s.next), next := s.next + 2)
  {
    FirstOfThree(cfg, s, id, p, sender, to, a, b);
    DeliverComes(cfg, u, s, id, {a, b});
    t := AfterDeliver(cfg, s, id, {a, b});
  }

  lemma TwoMore(cfg: Config, u: State, s: State, i: nat, j: nat, p: Piece, sender: Addr, a: Addr, b: Addr)
    returns (t: State)
    requires Comes(cfg, u, s) && Arriving(cfg, s, i, p, sender, a, []) && Arriving(cfg, s, j, p, sender, b, [])
             && i != j
    ensures Comes(cfg, u, t) && t == Taken(cfg, p, Taken(cfg, p, s, a), b).(items := s.items - {i} - {j})
  {
    t := OneMore(cfg, u, s, i, p, sender, a);
    t := OneMore(cfg, u, t, j, p, sender, b);
  }

  // ----- a fetch -----

  /** A node that is up is told of two others, the first of which has the piece. */
  ghost predicate Told(cfg: Config, s: State, id: nat, p: Piece, n: Addr, a: Addr, b: Addr) {
    && ConfigOk(cfg) && PoolOk(s) && id in s.items && s.items[id].Flight? && Up(cfg, s, n) && Up(cfg, s, a)
    && (var m := s.items[id].msg;
        m.kind == Replica && m.file == p.file && m.chunk == p.chunk && m.receiver == n && m.replicas == [a, b])
    && p.chunk in s.nodes[a].data && s.nodes[a].data[p.chunk] == p.cut && Validates(cfg.hash, s.nodes[a], p.chunk)
  }

  function Asking(m: ChunkMsg, n: Addr, a: Addr, b: Addr): Item {
    Flight(ChunkMsg(Read, m.file, m.chunk, [b], m.size, m.checksum, n, a, m.data))
  }

  lemma Asks(cfg: Config, s: State, id: nat, p: Piece, n: Addr, a: Addr, b: Addr)
    requires Told(cfg, s, id, p, n, a, b)
    ensures CanDeliver(cfg, s, id) && AfterDeliver(cfg, s, id, {a})
            == s.(items := (s.items - {id})[s.next := Asking(s.items[id].msg, n, a, b)], next := s.next + 1)
  {
    assert s.items[id].msg.replicas[1..] == [b];
    ReplicaIsAsked(cfg, s, id, {a});
  }

  lemma IsServed(cfg: Config, s: State, id: nat, p: Piece, m: ChunkMsg, n: Addr, a: Addr, b: Addr)
    requires PoolOk(s) && id in s.items && s.items[id] == Asking(m, n, a, b) && Up(cfg, s, a)
    requires m.file == p.file && m.chunk == p.chunk
    requires p.chunk in s.nodes[a].data && s.nodes[a].data[p.chunk] == p.cut && Validates(cfg.hash, s.nodes[a], p.chunk)
    ensures CanDeliver(cfg, s, id) && AfterDeliver(cfg, s, id, {n})
            == s.(items := (s.items - {id})[s.next := Carrying(cfg, p, a, n, [b])], next := s.next + 1)
  {
    ReadIsAnswered(cfg, s, id, {n});
  }

  /** The node asks the one it was told of first, which sends it the piece. */
  lemma Fetches(cfg: Config, u: State, s: State, id: nat, p: Piece, n: Addr, a: Addr, b: Addr) returns (t: State)
    requires Comes(cfg, u, s) && Told(cfg, s, id, p, n, a, b)
    ensures Comes(cfg, u, t)
    ensures t == s.(items := (s.items - {id})[s.next + 1 := Carrying(cfg, p, a, n, [b])], next := s.next + 2)
  {
    Asks(cfg, s, id, p, n, a, b);
    DeliverComes(cfg, u, s, id, {a});
    t := AfterDeliver(cfg, s, id, {a});
    IsServed(cfg, t, s.next, p, s.items[id].msg, n, a, b);
    DeliverComes(cfg, u, t, s.next, {n});
    t := AfterDeliver(cfg, t, s.next, {n});
    assert t.items == (s.items - {id})[s.next + 1 := Carrying(cfg, p, a, n, [b])];
  }

  /** And then it stores the piece and sends it on to the other. */
  lemma FetchesAndShares(cfg: Config, u: State, s: State, id: nat, p: Piece, n: Addr, a: Addr, b: Addr)
    returns (t: State)
    requires Comes(cfg, u, s) && Told(cfg, s, id, p, n, a, b) && Up(cfg, s, b)
    ensures Comes(cfg, u, t)
    ensures t == Taken(cfg, p, Taken(cfg, p, s, n), b).(items := s.items - {id}, next := s.next + 3)
  {
    t := Fetches(cfg, u, s, id, p, n, a, b);
    t := TwoCopies(cfg, u, t, s.next + 1, p, a, n, b);
    assert t.items == s.items - {id};
  }

  // ----- three nodes get a chunk -----

  /** Four nodes, of which `n`, `a` and `b` are to hold a file of one chunk. */
  ghost predicate FourNodes(cfg: Config, n: Addr, a: Addr, b: Addr, d: Addr, cl: Addr, file: string, content: Bytes) {
    Scene(cfg, n, cl, file, content) && {a, b, d} <= cfg.nodes && n !in {a, b, d} && a !in {b, d} && b != d
  }

  function Single(file: string, content: Bytes): Piece { Piece(file, ChunkName(file, 0), content) }

  function Nobody(n: Addr, a: Addr, b: Addr, d: Addr): map<Addr, set<Key>> {
    map[n := {}, a := {}, b := {}, d := {}]
  }

  lemma FourJoin(cfg: Config, n: Addr, a: Addr, b: Addr, d: Addr, cl: Addr, file: string, content: Bytes)
    returns (s: State)
    requires FourNodes(cfg, n, a, b, d, cl, file, content)
    ensures Reachable(cfg, s) && JustStarted(cfg, s) && s.active == Nobody(n, a, b, d)
  {
    StartIsReachable(cfg);
    s := Joins(cfg, Start(cfg), n);
    s := Joins(cfg, s, a);
    s := Joins(cfg, s, b);
    s := Joins(cfg, s, d);
  }

  lemma ThreePicks(n: Addr, a: Addr, b: Addr, active: set<Addr>)
    requires n !in {a, b} && a != b && {n, a, b} <= active && |active| >= 3
    ensures Drawn([n, a, b], active) && Place(active, {}, [n, a, b]) == Some({n, a, b})
            && Enumerates([n, a, b], {n, a, b})
  {
    assert [n, a, b][1..] == [a, b] && [a, b][1..] == [b];
    assert |{} + {n}| == 1 && |{} + {n} + {a}| == 2 && {} + {n} + {a} + {b} == {n, a, b} && |{n, a, b}| == 3;
    assert Place(active, {} + {n} + {a}, [b]) == Some({n, a, b});
    assert Place(active, {} + {n}, [a, b]) == Some({n, a, b});
    assert (set x | x in [n, a, b]) == {n, a, b};
  }

  lemma MayPlace(cfg: Config, s: State, n: Addr, a: Addr, b: Addr, d: Addr, cl: Addr, file: string, content: Bytes)
    requires FourNodes(cfg, n, a, b, d, cl, file, content) && JustStarted(cfg, s) && s.active == Nobody(n, a, b, d)
    ensures CanWrite(cfg, s, cl, file, content, |content|, [n, a, b], [n, a, b], 1)
  {
    OneCut(content);
    assert s.active.Keys == {n, a, b, d};
    ThreePicks(n, a, b, s.active.Keys);
  }

  /** The state after the client has sent the file's only chunk. */
  ghost function Writing(cfg: Config, s: State, n: Addr, a: Addr, b: Addr, cl: Addr, file: string, folder: string,
                         content: Bytes): State
    requires CanWrite(cfg, s, cl, file, content, |content|, [n, a, b], [n, a, b], 1)
  {
    AfterWrite(cfg, s, cl, file, folder, content, |content|, [n, a, b], [n, a, b], 1)
  }

  /** Nothing but the write has happened. */
  ghost predicate Alone(cfg: Config, s: State, active: map<Addr, set<Key>>, file: string, folder: string,
                        content: Bytes) {
    && s.nodes.Keys == cfg.nodes && s.down == {} && s.lost == {} && s.readers == map[] && s.former == {}
    && s.expired == map[] && s.index == map[] && s.active == active && s.beats.Keys == cfg.nodes
    && (forall x :: x in s.beats ==> s.beats[x] == [])
    && s.h.files == map[file := File(content, [content], folder)] && s.h.deleted == {}
  }

  lemma IsOnItsWay(cfg: Config, s: State, n: Addr, a: Addr, b: Addr, d: Addr, cl: Addr, file: string, folder: string,
                   content: Bytes)
    requires FourNodes(cfg, n, a, b, d, cl, file, content) && JustStarted(cfg, s) && s.active == Nobody(n, a, b, d)
    requires CanWrite(cfg, s, cl, file, content, |content|, [n, a, b], [n, a, b], 1)
    ensures var u := Writing(cfg, s, n, a, b, cl, file, folder, content);
            && u.items == map[0 := Carrying(cfg, Single(file, content), cl, n, [a, b])] && u.next == 1
            && u.nodes == s.nodes && Alone(cfg, u, s.active, file, folder, content)
  {
    OneCut(content);
    assert [n, a, b][1..] == [a, b];
    WritePosts(cfg, s, cl, file, folder, content, |content|, [n, a, b], [n, a, b], 1);
    var out := WriteMsgs(cfg, cl, file, [content], [n, a, b], 1);
    assert out == [Carrying(cfg, Single(file, content), cl, n, [a, b])];
    AddedOne(map[], 0, out[0]);
  }

  /** A node with one chunk. */
  function Holding(cfg: Config, p: Piece): Node { Storing(cfg, p, Node(map[], map[], 0)) }

  /** Three nodes have the piece and the others nothing, and nothing is under way. */
  ghost predicate Shared(cfg: Config, s: State, p: Piece, n: Addr, a: Addr, b: Addr) {
    && s.nodes.Keys == cfg.nodes && {n, a, b} <= cfg.nodes && s.items == map[] && s.next == 3
    && (forall x :: x in s.nodes ==> s.nodes[x] == if x in {n, a, b} then Holding(cfg, p) else Node(map[], map[], 0))
  }

  lemma IsShared(cfg: Config, s: State, u: State, p: Piece, n: Addr, a: Addr, b: Addr)
    requires JustStarted(cfg, s) && {n, a, b} <= cfg.nodes && n !in {a, b} && a != b && u.nodes == s.nodes
    ensures var t := Taken(cfg, p, Taken(cfg, p, Taken(cfg, p, u, n), a), b);
            Shared(cfg, t.(items := map[], next := 3), p, n, a, b)
  {}

  /** A client writes a file of one chunk, and three nodes come to hold it. */
  lemma WriteArrives(cfg: Config, n: Addr, a: Addr, b: Addr, d: Addr, cl: Addr, file: string, folder: string,
                     content: Bytes)
    returns (s: State, t: State)
    requires FourNodes(cfg, n, a, b, d, cl, file, content)
    ensures Reachable(cfg, s) && CanWrite(cfg, s, cl, file, content, |content|, [n, a, b], [n, a, b], 1)
    ensures Comes(cfg, Writing(cfg, s, n, a, b, cl, file, folder, content), t) && Reachable(cfg, t)
    ensures Shared(cfg, t, Single(file, content), n, a, b) && Alone(cfg, t, Nobody(n, a, b, d), file, folder, content)
  {
    s := FourJoin(cfg, n, a, b, d, cl, file, content);
    MayPlace(cfg, s, n, a, b, d, cl, file, content);
    WriteReaches(cfg, s, cl, file, folder, content, |content|, [n, a, b], [n, a, b], 1);
    IsOnItsWay(cfg, s, n, a, b, d, cl, file, folder, content);
    t := Spreads(cfg, s, Writing(cfg, s, n, a, b, cl, file, folder, content), n, a, b, cl, file, folder, content);
  }

  lemma Spreads(cfg: Config, s: State, u: State, n: Addr, a: Addr, b: Addr, cl: Addr, file: string, folder: string,
                content: Bytes)
    returns (t: State)
    requires ConfigOk(cfg) && JustStarted(cfg, s) && {n, a, b} <= cfg.nodes && n !in {a, b} && a != b
    requires Reachable(cfg, u) && u.nodes == s.nodes && u.next == 1 && Alone(cfg, u, s.active, file, folder, content)
    requires u.items == map[0 := Carrying(cfg, Single(file, content), cl, n, [a, b])]
    ensures Comes(cfg, u, t) && Reachable(cfg, t)
    ensures Shared(cfg, t, Single(file, content), n, a, b) && Alone(cfg, t, s.active, file, folder, content)
  {
    ComesHere(cfg, u);
    t := ThreeCopies(cfg, u, u, 0, Single(file, content), cl, n, a, b);
    assert u.items - {0} == map[];
    IsShared(cfg, s, u, Single(file, content), n, a, b);
    ComesReaches(cfg, u, t);
  }

  lemma SharedIsHeld(cfg: Config, s: State, file: string, content: Bytes, n: Addr, a: Addr, b: Addr, x: Addr)
    requires Shared(cfg, s, Single(file, content), n, a, b) && s.lost == {} && s.h.deleted == {} && x in {n, a, b}
    ensures Drained(s, ChunkName(file, 0), x) && HoldsCut(cfg, s, x, ChunkName(file, 0), content)
  {}

  /** A run from a client's write to a state in which nothing of it is under way or lost: the three nodes of the
      placement hold the chunk. */
  lemma WriteIsReplicated(cfg: Config, n: Addr, a: Addr, b: Addr, d: Addr, cl: Addr, file: string, folder: string,
                          content: Bytes)
    returns (s: State, steps: seq<Step>, t: State)
    requires FourNodes(cfg, n, a, b, d, cl, file, content)
    ensures Reachable(cfg, s) && CanWrite(cfg, s, cl, file, content, |content|, [n, a, b], [n, a, b], 1)
    ensures Run(cfg, AfterWrite(cfg, s, cl, file, folder, content, |content|, [n, a, b], [n, a, b], 1), steps, t)
    ensures forall x :: x in {n, a, b} ==>
              Drained(t, ChunkName(file, 0), x) && HoldsCut(cfg, t, x, ChunkName(file, 0), content)
  {
    s, t := WriteArrives(cfg, n, a, b, d, cl, file, folder, content);
    steps :| Run(cfg, Writing(cfg, s, n, a, b, cl, file, folder, content), steps, t) && Tidy(steps);
    forall x | x in {n, a, b}
      ensures Drained(t, ChunkName(file, 0), x) && HoldsCut(cfg, t, x, ChunkName(file, 0), content)
    {
      SharedIsHeld(cfg, t, file, content, n, a, b, x);
    }
  }
}
