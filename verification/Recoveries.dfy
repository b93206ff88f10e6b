/** Runs in which what went wrong is put right: a failed node is replaced, and a corrupted copy is repaired. */
module Recoveries {
  import opened Types
  import opened Records
  import opened Placement
  import opened NodeSpec
  import opened ControllerSpec
  import opened ClientSpec
  import opened Cluster
  import opened Safety
  import opened Quiescence
  import opened Mending
  import opened Effects
  import opened Readers
  import opened Witness
  import opened Scenarios

  // ----- three nodes have reported the chunk -----

  /** Nothing is down, in a client's hands, expired or deleted. */
  ghost predicate Quiet(cfg: Config, s: State, file: string, folder: string, content: Bytes) {
    && s.down == {} && s.readers == map[] && s.former == {} && s.expired == map[]
    && s.h.files == map[file := File(content, [content], folder)] && s.h.deleted == {}
  }

  function KeyOf(p: Piece): Key { Key(p.file, p.chunk) }

  /** Four nodes are active, and three of them are indexed under the chunk. */
  ghost predicate Known(s: State, p: Piece, n: Addr, a: Addr, b: Addr, d: Addr) {
    && s.index == map[KeyOf(p) := {n, a, b}]
    && s.active == map[n := {KeyOf(p)}, a := {KeyOf(p)}, b := {KeyOf(p)}, d := {}]
  }

  /** Three nodes have the piece and can be heard. */
  ghost predicate Heard(cfg: Config, s: State, p: Piece, n: Addr, a: Addr, b: Addr) {
    && Reachable(cfg, s) && Shared(cfg, s, p, n, a, b) && s.down == {} && s.former == {}
    && forall x :: x in {n, a, b} ==> x in s.beats && s.beats[x] == []
  }

  lemma ReportsOne(cfg: Config, s: State, p: Piece, n: Addr, a: Addr, b: Addr, x: Addr) returns (t: State)
    requires Heard(cfg, s, p, n, a, b) && x in {n, a, b}
    ensures Heard(cfg, t, p, n, a, b)
    ensures t == s.(index := Report(s.index, x, {KeyOf(p)}), active := s.active[x := {KeyOf(p)}])
  {
    ListingOf(s.nodes[x], p.chunk, Record(p.file, |p.cut|, cfg.hash(p.cut)));
    t := Reports(cfg, s, x);
  }

  lemma ReportAgain(k: Key, had: set<Addr>, x: Addr)
    ensures Report(map[k := had], x, {k}) == map[k := had + {x}]
  {
    var index := Report(map[k := had], x, {k});
    assert index.Keys == {k} && index[k] == had + {x};
  }

  lemma ReportThree(k: Key, n: Addr, a: Addr, b: Addr)
    ensures Report(Report(Report(map[], n, {k}), a, {k}), b, {k}) == map[k := {n, a, b}]
  {
    ReportFirst(n, k);
    ReportAgain(k, {n}, a);
    ReportAgain(k, {n} + {a}, b);
    assert {n} + {a} + {b} == {n, a, b};
  }

  lemma ThreeReport(cfg: Config, s: State, p: Piece, n: Addr, a: Addr, b: Addr, d: Addr) returns (t: State)
    requires Heard(cfg, s, p, n, a, b) && n !in {a, b, d} && a !in {b, d} && b != d
    requires s.index == map[] && s.active == Nobody(n, a, b, d)
    ensures Heard(cfg, t, p, n, a, b) && Known(t, p, n, a, b, d)
    ensures t == s.(index := t.index, active := t.active)
  {
    t := AllReport(cfg, s, p, n, a, b);
    ReportThree(KeyOf(p), n, a, b);
    AllActive({KeyOf(p)}, n, a, b, d);
  }

  lemma AllActive(keys: set<Key>, n: Addr, a: Addr, b: Addr, d: Addr)
    requires n !in {a, b, d} && a !in {b, d} && b != d
    ensures Nobody(n, a, b, d)[n := keys][a := keys][b := keys] == map[n := keys, a := keys, b := keys, d := {}]
  {}

  lemma AllReport(cfg: Config, s: State, p: Piece, n: Addr, a: Addr, b: Addr) returns (t: State)
    requires Heard(cfg, s, p, n, a, b)
    ensures Heard(cfg, t, p, n, a, b)
    ensures var k := KeyOf(p);
            t == s.(index := Report(Report(Report(s.index, n, {k}), a, {k}), b, {k}),
                    active := s.active[n := {k}][a := {k}][b := {k}])
  {
    t := ReportsOne(cfg, s, p, n, a, b, n);
    t := ReportsOne(cfg, t, p, n, a, b, a);
    t := ReportsOne(cfg, t, p, n, a, b, b);
  }

  /** The piece is stored by three nodes that have reported it, and nothing is under way. */
  lemma FileIsKnown(cfg: Config, n: Addr, a: Addr, b: Addr, d: Addr, cl: Addr, file: string, folder: string,
                    content: Bytes)
    returns (s: State)
    requires FourNodes(cfg, n, a, b, d, cl, file, content)
    ensures Reachable(cfg, s) && Shared(cfg, s, Single(file, content), n, a, b) && Quiet(cfg, s, file, folder, content)
    ensures Known(s, Single(file, content), n, a, b, d)
  {
    var s0, t := WriteArrives(cfg, n, a, b, d, cl, file, folder, content);
    s := ThreeReport(cfg, t, Single(file, content), n, a, b, d);
  }

  // ----- a replacement -----

  lemma DrawsFourth(n: Addr, a: Addr, b: Addr, d: Addr)
    requires n !in {a, b, d} && a !in {b, d} && b != d
    ensures Drawn([d], {a, b, d}) && Replacement({a, b, d}, n, {a, b}, [d]) == Chosen(d) && Enumerates([a, b], {a, b})
  {
    assert {a, b} + {d} == {a, b, d} && |{a, b, d}| == 3;
    assert (set x | x in [a, b]) == {a, b};
  }

  /** The controller has given up `n`. */
  ghost predicate GivenUp(s: State, p: Piece, n: Addr, a: Addr, b: Addr, d: Addr) {
    && PoolOk(s) && s.index == map[KeyOf(p) := {n, a, b}] && s.expired == map[n := {KeyOf(p)}]
    && s.active == map[a := {KeyOf(p)}, b := {KeyOf(p)}, d := {}]
  }

  lemma MayReplaceFirst(s: State, p: Piece, n: Addr, a: Addr, b: Addr, d: Addr)
    requires GivenUp(s, p, n, a, b, d) && n !in {a, b, d} && a !in {b, d} && b != d
    ensures CanReplace(s, n, KeyOf(p), [d], [a, b])
    ensures Survivors(s, n, KeyOf(p)) == {a, b}
    ensures Replacement(s.active.Keys, n, Survivors(s, n, KeyOf(p)), [d]) == Chosen(d)
  {
    assert s.active.Keys == {a, b, d} && |s.active| == |s.active.Keys|;
    assert Survivors(s, n, KeyOf(p)) == {a, b};
    DrawsFourth(n, a, b, d);
  }

  lemma Expires(cfg: Config, s: State, p: Piece, n: Addr, a: Addr, b: Addr, d: Addr) returns (t: State)
    requires Reachable(cfg, s) && Shared(cfg, s, p, n, a, b) && Known(s, p, n, a, b, d) && s.expired == map[]
    requires n !in {a, b, d} && a !in {b, d} && b != d
    ensures Reachable(cfg, t) && GivenUp(t, p, n, a, b, d) && Shared(cfg, t, p, n, a, b) && t.down == s.down
  {
    ExpireReaches(cfg, s, n);
    t := AfterExpire(s, n);
    assert t.active == map[a := {KeyOf(p)}, b := {KeyOf(p)}, d := {}];
  }

  lemma NewNodeIsTold(cfg: Config, s: State, u: State, p: Piece, n: Addr, a: Addr, b: Addr, d: Addr)
    requires ConfigOk(cfg) && {n, a, b, d} <= cfg.nodes && Shared(cfg, s, p, n, a, b)
    requires u.nodes == s.nodes && u.down == {} && u.next == 4
    requires u.items == map[3 := Flight(ReplicaMsg(cfg, KeyOf(p), [a, b], d))]
    ensures Told(cfg, u, 3, p, d, a, b)
  {
    HoldingValidates(cfg, p);
  }

  lemma NewNodeIsSent(cfg: Config, s: State, p: Piece, n: Addr, a: Addr, b: Addr, d: Addr)
    requires n !in {a, b, d} && a !in {b, d} && b != d && GivenUp(s, p, n, a, b, d) && s.items == map[] && s.next == 3
    requires CanReplace(s, n, KeyOf(p), [d], [a, b])
    ensures var u := Replaced(cfg, s, n, KeyOf(p), [d], [a, b], {d});
            && u.items == map[3 := Flight(ReplicaMsg(cfg, KeyOf(p), [a, b], d))] && u.next == 4
            && u.nodes == s.nodes && u.lost == {} && u.down == s.down
  {
    MayReplaceFirst(s, p, n, a, b, d);
    ReplacementIsAsked(cfg, Forgiven(s), n, KeyOf(p), [d], [a, b], {d});
  }

  lemma HoldingValidates(cfg: Config, p: Piece)
    requires ConfigOk(cfg)
    ensures Validates(cfg.hash, Holding(cfg, p), p.chunk)
  {
    HashReadsAsIs(cfg, p.cut);
  }

  /** A run from the replacement of a failed node to a state in which nothing of the repair is under way or lost: the
      new node and the survivors have the chunk. */
  lemma ReplacementArrives(cfg: Config, n: Addr, a: Addr, b: Addr, d: Addr, cl: Addr, file: string, folder: string,
                           content: Bytes)
    returns (s: State, steps: seq<Step>, t: State)
    requires FourNodes(cfg, n, a, b, d, cl, file, content)
    ensures Reachable(cfg, s) && CanReplace(s, n, Key(file, ChunkName(file, 0)), [d], [a, b])
    ensures Replacement(s.active.Keys, n, Survivors(s, n, Key(file, ChunkName(file, 0))), [d]) == Chosen(d)
    ensures Run(cfg, Replaced(cfg, s, n, Key(file, ChunkName(file, 0)), [d], [a, b], {d}), steps, t)
    ensures forall x :: x in {d, a, b} ==> Arrived(cfg, s, steps, t, ChunkName(file, 0), d, x, content)
  {
    var s0 := FileIsKnown(cfg, n, a, b, d, cl, file, folder, content);
    s := Expires(cfg, s0, Single(file, content), n, a, b, d);
    MayReplaceFirst(s, Single(file, content), n, a, b, d);
    steps, t := ReplacementGoesThrough(cfg, s, Single(file, content), n, a, b, d);
  }

  lemma ReplacementGoesThrough(cfg: Config, s: State, p: Piece, n: Addr, a: Addr, b: Addr, d: Addr)
    returns (steps: seq<Step>, t: State)
    requires ConfigOk(cfg) && {n, a, b, d} <= cfg.nodes && n !in {a, b, d} && a !in {b, d} && b != d
    requires GivenUp(s, p, n, a, b, d) && Shared(cfg, s, p, n, a, b) && s.down == {}
    requires CanReplace(s, n, KeyOf(p), [d], [a, b])
    ensures Run(cfg, Replaced(cfg, s, n, KeyOf(p), [d], [a, b], {d}), steps, t)
    ensures forall x :: x in {d, a, b} ==> Arrived(cfg, s, steps, t, p.chunk, d, x, p.cut)
  {
    var u := Replaced(cfg, s, n, KeyOf(p), [d], [a, b], {d});
    NewNodeIsSent(cfg, s, p, n, a, b, d);
    steps, t := GetsTheChunk(cfg, s, u, p, n, a, b, d);
  }

  /** The new node did not have the chunk, and the node has it after a run that spares it. */
  ghost predicate Arrived(cfg: Config, s: State, steps: seq<Step>, t: State, c: string, n: Addr, x: Addr, cut: Bytes) {
    !Holds(s.nodes, n, c) && Spares(steps, c, x) && Through(t, c, n, x) && HasCut(cfg, t, x, c, cut)
  }

  lemma GetsTheChunk(cfg: Config, s: State, u: State, p: Piece, n: Addr, a: Addr, b: Addr, d: Addr)
    returns (steps: seq<Step>, t: State)
    requires ConfigOk(cfg) && {n, a, b, d} <= cfg.nodes && Shared(cfg, s, p, n, a, b) && d !in {n, a, b} && a != b
    requires u.nodes == s.nodes && u.down == {} && u.lost == {} && u.next == 4
    requires u.items == map[3 := Flight(ReplicaMsg(cfg, KeyOf(p), [a, b], d))]
    ensures Run(cfg, u, steps, t)
    ensures forall x :: x in {d, a, b} ==> Arrived(cfg, s, steps, t, p.chunk, d, x, p.cut)
  {
    NewNodeIsTold(cfg, s, u, p, n, a, b, d);
    ComesHere(cfg, u);
    t := FetchesAndShares(cfg, u, u, 3, p, d, a, b);
    steps :| Run(cfg, u, steps, t) && Tidy(steps);
    assert u.items - {3} == map[];
    forall x | x in {d, a, b} ensures Arrived(cfg, s, steps, t, p.chunk, d, x, p.cut) {
      HasArrived(cfg, s, u, steps, t, p, n, a, b, d, x);
    }
  }

  lemma HasArrived(cfg: Config, s: State, u: State, steps: seq<Step>, t: State, p: Piece, n: Addr, a: Addr, b: Addr,
                   d: Addr, x: Addr)
    requires Shared(cfg, s, p, n, a, b) && d in cfg.nodes && d !in {n, a, b} && u.nodes == s.nodes && u.lost == {}
    requires t == Taken(cfg, p, Taken(cfg, p, u, d), b).(items := map[], next := t.next)
    requires Tidy(steps) && x in {d, a, b}
    ensures Arrived(cfg, s, steps, t, p.chunk, d, x, p.cut)
  {}

  // ----- a repair -----

  /** The first of three copies has been overwritten, and nothing is under way. */
  ghost predicate Spoilt(cfg: Config, s: State, p: Piece, other: Bytes, n: Addr, a: Addr, b: Addr) {
    && s.nodes.Keys == cfg.nodes && {n, a, b} <= cfg.nodes && s.items == map[] && s.next == 3 && s.down == {}
    && s.nodes[n] == Holding(cfg, p).(data := map[p.chunk := other])
    && s.nodes[a] == Holding(cfg, p) && s.nodes[b] == Holding(cfg, p)
  }

  lemma CorruptReaches(cfg: Config, s: State, a: Addr, c: string, bytes: Bytes)
    ensures Reachable(cfg, s) && CanCorrupt(s, a, c) ==> Reachable(cfg, AfterCorrupt(s, a, c, bytes))
  { ReachableStep(cfg, s, Corrupt(a, c, bytes)); }

  lemma IsSpoilt(cfg: Config, s: State, p: Piece, other: Bytes, n: Addr, a: Addr, b: Addr) returns (t: State)
    requires Reachable(cfg, s) && Shared(cfg, s, p, n, a, b) && n !in {a, b} && s.down == {}
    ensures Reachable(cfg, t) && Spoilt(cfg, t, p, other, n, a, b)
    ensures t == s.(nodes := t.nodes, tainted := t.tainted)
  {
    CorruptReaches(cfg, s, n, p.chunk, other);
    t := AfterCorrupt(s, n, p.chunk, other);
    assert map[p.chunk := p.cut][p.chunk := other] == map[p.chunk := other];
  }

  function Row(p: Piece, n: Addr, a: Addr, b: Addr): Location { Location(p.chunk, [n, a, b]) }

  lemma ThreeEnumerate(n: Addr, a: Addr, b: Addr)
    requires n !in {a, b} && a != b
    ensures Enumerates([n, a, b], {n, a, b})
  {
    assert (set x | x in [n, a, b]) == {n, a, b};
  }

  function Reading(cfg: Config, content: Bytes, folder: string, file: string): Reader {
    NewReader(cfg, File(content, [content], folder), file, map[], true)
  }

  /** The client asks the first holder. */
  lemma IsAskedFor(cfg: Config, s: State, p: Piece, n: Addr, a: Addr, b: Addr, cl: Addr, folder: string)
    returns (t: State)
    requires Reachable(cfg, s) && n !in {a, b} && a != b && s.items == map[] && s.next == 3 && s.readers == map[]
    requires s.index == map[KeyOf(p) := {n, a, b}] && cl in cfg.clients
    requires s.h.files == map[p.file := File(p.cut, [p.cut], folder)] && s.h.deleted == {}
    ensures Reachable(cfg, t)
    ensures t == s.(items := map[3 := Flight(ReadMsg(cl, p.file, Row(p, n, a, b)))], next := 4,
                    readers := map[cl := Reading(cfg, p.cut, folder, p.file)])
  {
    var table := [Row(p, n, a, b)];
    ThreeEnumerate(n, a, b);
    OneRow(s.index, p.file, table[0]);
    assert Firm(table) == 1 by { assert table[1..] == []; }
    StartReadReaches(cfg, s, cl, p.file, table, 1);
    t := AfterStartRead(cfg, s, cl, p.file, table, 1);
    assert ReadMsgs(cl, p.file, table, 1) == [Flight(ReadMsg(cl, p.file, table[0]))];
    AddedOne(map[], 3, Flight(ReadMsg(cl, p.file, table[0])));
  }

  /** What the node with the corrupted copy asks the controller. */
  function Request(cfg: Config, p: Piece, other: Bytes, n: Addr): ChunkMsg {
    ChunkMsg(Replica, p.file, p.chunk, [], |other|, cfg.hash(p.cut), n, cfg.controller, [])
  }

  lemma HoldingFails(cfg: Config, p: Piece, other: Bytes, n: Node)
    requires ConfigOk(cfg) && other != p.cut && n == Holding(cfg, p).(data := map[p.chunk := other])
    ensures !Validates(cfg.hash, n, p.chunk) && ReadsAs(n.meta[p.chunk].checksum) == cfg.hash(p.cut)
  {
    HashReadsAsIs(cfg, p.cut);
  }

  /** A client's read of the corrupted copy is under way. */
  ghost predicate Awaited(cfg: Config, s: State, p: Piece, other: Bytes, n: Addr, a: Addr, b: Addr, cl: Addr) {
    && ConfigOk(cfg) && other != p.cut && PoolOk(s) && s.next == 4 && Up(cfg, s, n)
    && s.items == map[3 := Flight(ReadMsg(cl, p.file, Row(p, n, a, b)))]
    && s.nodes[n] == Holding(cfg, p).(data := map[p.chunk := other])
  }

  lemma Inspects(cfg: Config, s: State, p: Piece, other: Bytes, n: Addr, a: Addr, b: Addr, cl: Addr)
    requires Awaited(cfg, s, p, other, n, a, b, cl)
    ensures CanDeliver(cfg, s, 3) && AfterDeliver(cfg, s, 3, {cfg.controller})
            == s.(items := map[4 := Flight(Request(cfg, p, other, n)), 5 := Repair(n, cl, Request(cfg, p, other, n))],
                  next := 6)
  {
    HoldingFails(cfg, p, other, s.nodes[n]);
    CorruptionIsReported(cfg, s, 3, {cfg.controller});
  }

  function Sleeper(cfg: Config, p: Piece, other: Bytes, n: Addr, cl: Addr): Item {
    Repair(n, cl, Request(cfg, p, other, n))
  }

  /** The node has asked the controller and its handler sleeps. */
  ghost predicate Reported(cfg: Config, s: State, p: Piece, other: Bytes, n: Addr, a: Addr, b: Addr, cl: Addr) {
    && ConfigOk(cfg) && PoolOk(s) && s.next == 6 && s.index == map[KeyOf(p) := {n, a, b}] && n !in {a, b} && a != b
    && s.items == map[4 := Flight(Request(cfg, p, other, n)), 5 := Sleeper(cfg, p, other, n, cl)]
  }

  function Answer(cfg: Config, p: Piece, other: Bytes, n: Addr, a: Addr, b: Addr): ChunkMsg {
    ChunkMsg(Replica, p.file, p.chunk, [a, b], |other|, cfg.hash(p.cut), cfg.controller, n, [])
  }

  lemma IsAnsweredWithHolders(cfg: Config, s: State, p: Piece, other: Bytes, n: Addr, a: Addr, b: Addr, cl: Addr)
    requires Reported(cfg, s, p, other, n, a, b, cl)
    ensures CanAnswer(cfg, s, 4, [a, b]) && AfterAnswer(cfg, s, 4, [a, b], {n})
            == s.(items := map[5 := Sleeper(cfg, p, other, n, cl), 6 := Flight(Answer(cfg, p, other, n, a, b))],
                  next := 7)
  {
    OthersEnumerate(n, a, b);
    AnswerPosts(cfg, s, 4, [a, b], {n});
    assert s.items - {4} == map[5 := Sleeper(cfg, p, other, n, cl)];
  }

  lemma AnswerPosts(cfg: Config, s: State, id: nat, order: seq<Addr>, reach: set<Addr>)
    requires CanAnswer(cfg, s, id, order) && Answerable(s, s.items[id].msg, reach)
    ensures var m := s.items[id].msg;
            AfterAnswer(cfg, s, id, order, reach) == s.(
              items := (s.items - {id})[s.next := Flight(m.(replicas := order, receiver := m.sender,
                                                            sender := cfg.controller))],
              next := s.next + 1)
  {
    AddedOne(s.items - {id}, s.next, AnswerItems(cfg, s.items[id].msg, order, reach)[0]);
  }

  lemma OthersEnumerate(n: Addr, a: Addr, b: Addr)
    requires n !in {a, b} && a != b
    ensures Enumerates([a, b], {n, a, b} - {n}) && a in {n, a, b} - {n}
  {
    assert {n, a, b} - {n} == {a, b};
    assert (set x | x in [a, b]) == {a, b};
  }

  /** The controller names the other holders, the first sends the node the chunk, and the handler still sleeps. */
  lemma IsFetched(cfg: Config, u: State, p: Piece, other: Bytes, n: Addr, a: Addr, b: Addr, cl: Addr) returns (t: State)
    requires Reported(cfg, u, p, other, n, a, b, cl) && Up(cfg, u, n) && Up(cfg, u, a) && u.nodes[a] == Holding(cfg, p)
    ensures Comes(cfg, u, t)
    ensures t == u.(items := map[5 := Sleeper(cfg, p, other, n, cl), 8 := Carrying(cfg, p, a, n, [b])], next := 9)
  {
    ComesHere(cfg, u);
    IsAnsweredWithHolders(cfg, u, p, other, n, a, b, cl);
    AnswerComes(cfg, u, u, 4, [a, b], {n});
    t := AfterAnswer(cfg, u, 4, [a, b], {n});
    HoldingValidates(cfg, p);
    t := Fetches(cfg, u, t, 6, p, n, a, b);
  }

  /** And the node and the third one store it. */
  lemma IsMended(cfg: Config, u: State, p: Piece, other: Bytes, n: Addr, a: Addr, b: Addr, cl: Addr) returns (t: State)
    requires Reported(cfg, u, p, other, n, a, b, cl) && Up(cfg, u, n) && Up(cfg, u, a) && Up(cfg, u, b)
             && u.nodes[a] == Holding(cfg, p)
    ensures Comes(cfg, u, t)
    ensures t == Taken(cfg, p, Taken(cfg, p, u, n), b).(items := map[5 := Sleeper(cfg, p, other, n, cl)], next := 10)
  {
    t := IsFetched(cfg, u, p, other, n, a, b, cl);
    t := TwoCopies(cfg, u, t, 8, p, a, n, b);
  }

  /** Three nodes hold the chunk, one has a corrupted copy, and a client's read of it is under way. */
  lemma IsAwaited(cfg: Config, n: Addr, a: Addr, b: Addr, d: Addr, cl: Addr, file: string, folder: string,
                  content: Bytes, other: Bytes)
    returns (s: State)
    requires FourNodes(cfg, n, a, b, d, cl, file, content) && other != content
    ensures Reachable(cfg, s) && Awaited(cfg, s, Single(file, content), other, n, a, b, cl)
    ensures s.index == map[KeyOf(Single(file, content)) := {n, a, b}] && s.down == {} && s.nodes.Keys == cfg.nodes
    ensures s.nodes[a] == s.nodes[b] == Holding(cfg, Single(file, content))
    ensures s.readers == map[cl := Reading(cfg, content, folder, file)]
    ensures s.h.files == map[file := File(content, [content], folder)] && s.h.deleted == {}
  {
    var p := Single(file, content);
    s := FileIsKnown(cfg, n, a, b, d, cl, file, folder, content);
    s := IsSpoilt(cfg, s, p, other, n, a, b);
    s := IsAskedFor(cfg, s, p, n, a, b, cl, folder);
  }

  /** A run from the read of a corrupted copy to a state in which nothing of the repair is under way or lost: the node
      has the chunk. */
  lemma CorruptionHeals(cfg: Config, n: Addr, a: Addr, b: Addr, d: Addr, cl: Addr, file: string, folder: string,
                        content: Bytes, other: Bytes)
    returns (s: State, steps: seq<Step>, t: State)
    requires FourNodes(cfg, n, a, b, d, cl, file, content) && other != content
    ensures Reachable(cfg, s) && Awaited(cfg, s, Single(file, content), other, n, a, b, cl) && CanDeliver(cfg, s, 3)
    ensures Run(cfg, Forgiven(AfterDeliver(cfg, s, 3, {cfg.controller})), steps, t)
    ensures Spares(steps, ChunkName(file, 0), n) && Healed(cfg, t, ChunkName(file, 0), n)
    ensures HasCut(cfg, t, n, ChunkName(file, 0), content)
  {
    var p := Single(file, content);
    s := IsAwaited(cfg, n, a, b, d, cl, file, folder, content, other);
    Inspects(cfg, s, p, other, n, a, b, cl);
    var u := Forgiven(AfterDeliver(cfg, s, 3, {cfg.controller}));
    t := IsMended(cfg, u, p, other, n, a, b, cl);
    steps :| Run(cfg, u, steps, t) && Tidy(steps);
    IsHealed(cfg, u, t, p, other, n, b, cl);
  }

  lemma IsHealed(cfg: Config, u: State, t: State, p: Piece, other: Bytes, n: Addr, b: Addr, cl: Addr)
    requires n in u.nodes && b in u.nodes && n != b && n != cl && u.lost == {} && u.unanswered == {}
    requires t == Taken(cfg, p, Taken(cfg, p, u, n), b).(items := map[5 := Sleeper(cfg, p, other, n, cl)], next := 10)
    ensures Healed(cfg, t, p.chunk, n) && HasCut(cfg, t, n, p.chunk, p.cut)
  {}

  // ----- the reader who met the corrupted copy -----

  /** The sleeping handler finds the copy mended, and its reply is on its way to the client. */
  lemma Replies(cfg: Config, s: State, p: Piece, other: Bytes, n: Addr, cl: Addr)
    requires ConfigOk(cfg) && PoolOk(s) && Up(cfg, s, n) && s.next == 10
    requires s.items == map[5 := Sleeper(cfg, p, other, n, cl)]
    requires p.chunk in s.nodes[n].data && s.nodes[n].data[p.chunk] == p.cut
    requires p.chunk in s.nodes[n].meta && s.nodes[n].meta[p.chunk].checksum == cfg.hash(p.cut)
    ensures CanWake(cfg, s, 5)
    ensures AfterWake(cfg, s, 5, {cl}) == s.(items := map[10 := Carrying(cfg, p, n, cl, [])], next := 11)
  {
    HashReadsAsIs(cfg, p.cut);
    SleeperAnswers(cfg, s, 5, {cl});
  }

  lemma WakeComes(cfg: Config, u: State, s: State, id: nat, reach: set<Addr>)
    ensures Comes(cfg, u, s) && CanWake(cfg, s, id) ==> Comes(cfg, u, AfterWake(cfg, s, id, reach))
  { StepComes(cfg, u, s, WakeUp(id, reach)); }

  lemma {:induction false} ComesOn(cfg: Config, s: State, u: State, t: State)
    ensures Comes(cfg, s, u) && Comes(cfg, u, t) ==> Comes(cfg, s, t)
  {
    if Comes(cfg, s, u) && Comes(cfg, u, t) {
      var first :| Run(cfg, s, first, u) && Tidy(first);
      var second :| Run(cfg, u, second, t) && Tidy(second);
      RunsJoin(cfg, s, first, u, second, t);
      assert Tidy(first + second);
    }
  }

  lemma {:induction false} RunsJoin(cfg: Config, s: State, first: seq<Step>, u: State, second: seq<Step>, t: State)
    requires Run(cfg, s, first, u) && Run(cfg, u, second, t)
    ensures Run(cfg, s, first + second, t)
    decreases |first|
  {
    if first == [] {
      assert first + second == second;
    } else {
      RunsJoin(cfg, Next(cfg, s, first[0]), first[1..], u, second, t);
      assert first + second == [first[0]] + (first[1..] + second);
      RunCons(cfg, s, first[0], first[1..] + second, t);
    }
  }

  lemma WaitsForRepair(cfg: Config, s: State, p: Piece, other: Bytes, n: Addr, a: Addr, b: Addr, cl: Addr)
    returns (t: State)
    requires Awaited(cfg, s, p, other, n, a, b, cl) && Up(cfg, s, a) && Up(cfg, s, b) && n !in {a, b} && a != b
    requires s.index == map[KeyOf(p) := {n, a, b}] && s.nodes[a] == Holding(cfg, p)
    ensures Comes(cfg, s, t) && t.items == map[10 := Carrying(cfg, p, n, cl, [])] && t.next == 11
    ensures t.readers == s.readers && t.h == s.h
  {
    Inspects(cfg, s, p, other, n, a, b, cl);
    ComesHere(cfg, s);
    DeliverComes(cfg, s, s, 3, {cfg.controller});
    var u := AfterDeliver(cfg, s, 3, {cfg.controller});
    t := IsMended(cfg, u, p, other, n, a, b, cl);
    ComesOn(cfg, s, u, t);
    Replies(cfg, t, p, other, n, cl);
    WakeComes(cfg, s, t, 5, {cl});
    t := AfterWake(cfg, t, 5, {cl});
  }

  lemma KeepsIt(cfg: Config, s: State, p: Piece, n: Addr, cl: Addr, folder: string)
    requires ConfigOk(cfg) && Reachable(cfg, s) && cl in cfg.clients && p.chunk == ChunkName(p.file, 0)
    requires s.items == map[10 := Carrying(cfg, p, n, cl, [])] && s.next == 11
    requires s.readers == map[cl := Reading(cfg, p.cut, folder, p.file)]
    requires s.h.files == map[p.file := File(p.cut, [p.cut], folder)]
    ensures CanReceive(cfg, s, 10)
            && AfterReceive(cfg, s, 10).readers[cl].session.kept == Some(Kept(folder, p.file, p.cut))
  {
    LastChunkDecides(cfg, s, 10);
  }

  /** A run in which a client reads a chunk whose copy is corrupted, waits for the repair, and keeps the file as it was
      written. */
  lemma CorruptedReadSucceeds(cfg: Config, n: Addr, a: Addr, b: Addr, d: Addr, cl: Addr, file: string, folder: string,
                              content: Bytes, other: Bytes)
    returns (s: State, t: State, id: nat)
    requires FourNodes(cfg, n, a, b, d, cl, file, content) && other != content
    ensures Reachable(cfg, s) && Awaited(cfg, s, Single(file, content), other, n, a, b, cl)
    ensures Comes(cfg, s, t) && CanReceive(cfg, t, id) && t.items[id].msg.receiver == cl
    ensures AfterReceive(cfg, t, id).readers[cl].session.kept == Some(Kept(folder, file, content))
  {
    var p := Single(file, content);
    s := IsAwaited(cfg, n, a, b, d, cl, file, folder, content, other);
    t := WaitsForRepair(cfg, s, p, other, n, a, b, cl);
    ComesReaches(cfg, s, t);
    id := 10;
    KeepsIt(cfg, t, p, n, cl, folder);
  }
}
