/** Runs of the store, step by step. A file written while one node was active loses its only holder when that node
    dies, so its location table has an empty row; and a command typed during a read makes the client fail. */
module Witness {
  import opened Types
  import opened Records
  import opened Chunking
  import opened Placement
  import opened NodeSpec
  import opened ControllerSpec
  import opened ClientSpec
  import opened Cluster
  import opened Safety
  import opened Reading
  import opened Readers

  // ----- reachable states are closed under steps -----

  lemma RunCons(cfg: Config, s: State, step: Step, rest: seq<Step>, t: State)
    ensures Enabled(cfg, s, step) && Run(cfg, Next(cfg, s, step), rest, t) ==> Run(cfg, s, [step] + rest, t)
  {
    assert ([step] + rest)[0] == step && ([step] + rest)[1..] == rest;
  }

  lemma {:induction false} RunSnoc(cfg: Config, s: State, steps: seq<Step>, t: State, step: Step)
    requires Run(cfg, s, steps, t)
    ensures Enabled(cfg, t, step) ==> Run(cfg, s, steps + [step], Next(cfg, t, step))
    decreases |steps|
  {
    if steps == [] {
      assert [step] + [] == [] + [step];
      RunCons(cfg, s, step, [], if Enabled(cfg, t, step) then Next(cfg, t, step) else t);
    } else {
      RunSnoc(cfg, Next(cfg, s, steps[0]), steps[1..], t, step);
      assert steps + [step] == [steps[0]] + (steps[1..] + [step]);
      RunCons(cfg, s, steps[0], steps[1..] + [step], if Enabled(cfg, t, step) then Next(cfg, t, step) else t);
    }
  }

  lemma ReachableStep(cfg: Config, s: State, step: Step)
    ensures Reachable(cfg, s) && Enabled(cfg, s, step) ==> Reachable(cfg, Next(cfg, s, step))
  {
    if Reachable(cfg, s) && Enabled(cfg, s, step) {
      var steps :| Run(cfg, Start(cfg), steps, s);
      RunSnoc(cfg, Start(cfg), steps, s, step);
    }
  }

  lemma StartIsReachable(cfg: Config)
    ensures Reachable(cfg, Start(cfg))
  {
    assert Run(cfg, Start(cfg), [], Start(cfg));
  }

  lemma BeatReaches(cfg: Config, s: State, a: Addr)
    ensures Reachable(cfg, s) && CanBeat(s, a) ==> Reachable(cfg, AfterBeat(s, a))
  { ReachableStep(cfg, s, Beat(a)); }

  lemma TakeBeatReaches(cfg: Config, s: State, a: Addr)
    ensures Reachable(cfg, s) && CanTakeBeat(s, a) ==> Reachable(cfg, AfterTakeBeat(s, a))
  { ReachableStep(cfg, s, TakeBeat(a)); }

  lemma WriteReaches(cfg: Config, s: State, client: Addr, file: string, folder: string, content: Bytes, chunkSize: nat,
                     picks: seq<Addr>, order: seq<Addr>, sent: nat)
    ensures Reachable(cfg, s) && CanWrite(cfg, s, client, file, content, chunkSize, picks, order, sent)
            ==> Reachable(cfg, AfterWrite(cfg, s, client, file, folder, content, chunkSize, picks, order, sent))
  { ReachableStep(cfg, s, WriteFile(client, file, folder, content, chunkSize, picks, order, sent)); }

  lemma DeliverReaches(cfg: Config, s: State, id: nat, reach: set<Addr>)
    ensures Reachable(cfg, s) && CanDeliver(cfg, s, id) ==> Reachable(cfg, AfterDeliver(cfg, s, id, reach))
  { ReachableStep(cfg, s, Deliver(id, reach)); }

  lemma ExpireReaches(cfg: Config, s: State, a: Addr)
    ensures Reachable(cfg, s) && a in s.active ==> Reachable(cfg, AfterExpire(s, a))
  { ReachableStep(cfg, s, Expire(a)); }

  lemma ReplaceReaches(cfg: Config, s: State, failed: Addr, k: Key, picks: seq<Addr>, order: seq<Addr>,
                       reach: set<Addr>)
    ensures Reachable(cfg, s) && CanReplace(s, failed, k, picks, order)
            ==> Reachable(cfg, AfterReplace(cfg, s, failed, k, picks, order, reach))
  {
    ReachableStep(cfg, s, ReplaceFailed(failed, k, picks, order, reach));
    ReplacingIsAStep(cfg, s, failed, k, picks, order, reach);
  }

  lemma ReplacingIsAStep(cfg: Config, s: State, failed: Addr, k: Key, picks: seq<Addr>, order: seq<Addr>,
                         reach: set<Addr>)
    ensures var step := ReplaceFailed(failed, k, picks, order, reach);
            CanReplace(s, failed, k, picks, order)
            ==> Enabled(cfg, s, step) && Next(cfg, s, step) == AfterReplace(cfg, s, failed, k, picks, order, reach)
  {}

  lemma StartReadReaches(cfg: Config, s: State, client: Addr, file: string, table: seq<Location>, sent: nat)
    ensures Reachable(cfg, s) && CanStartRead(cfg, s, client, file, table, sent)
            ==> Reachable(cfg, AfterStartRead(cfg, s, client, file, table, sent))
  { ReachableStep(cfg, s, StartRead(client, file, table, sent)); }

  function AfterCommand(s: State, client: Addr, name: Option<string>, folder: Option<string>): State {
    s.(readers := AfterTyping(s.readers, client, name, folder))
  }

  lemma CommandReaches(cfg: Config, s: State, client: Addr, name: Option<string>, folder: Option<string>)
    ensures Reachable(cfg, s) && client in cfg.clients && ClientRuns(s, client)
            ==> Reachable(cfg, AfterCommand(s, client, name, folder))
  { ReachableStep(cfg, s, Command(client, name, folder)); }

  // ----- one file, one chunk, one node -----

  /** A file of one chunk that may be written, by client `cl`. */
  ghost predicate Scene(cfg: Config, n: Addr, cl: Addr, file: string, content: Bytes) {
    ConfigOk(cfg) && n in cfg.nodes && cl in cfg.clients && content != [] && Writable(cfg, file, content, |content|)
  }

  /** Some nodes have reported nothing and nothing else has happened. */
  ghost predicate JustStarted(cfg: Config, s: State) {
    && s.nodes.Keys == cfg.nodes && (forall a :: a in s.nodes ==> s.nodes[a] == Node(map[], map[], 0)) && s.down == {}
    && s.items == map[] && s.next == 0 && s.readers == map[] && s.former == {} && s.expired == map[] && s.index == map[]
    && s.h == History(map[], map[], map[], {}) && s.lost == {} && s.beats.Keys == cfg.nodes
      && (forall a :: a in s.beats ==> s.beats[a] == [])
  }

  lemma ListingOf(n: Node, c: string, rec: Record)
    requires n.meta == map[c := rec]
    ensures Listing(n) == {Key(rec.file, c)}
  {
    assert c in n.meta && n.meta[c] == rec;
  }

  /** A node sends a heartbeat and the controller takes it in. */
  lemma Reports(cfg: Config, s: State, a: Addr) returns (t: State)
    requires Reachable(cfg, s) && a in s.nodes && a !in s.down && a in s.beats && s.beats[a] == [] && a !in s.former
    ensures Reachable(cfg, t)
    ensures t == s.(index := Report(s.index, a, Listing(s.nodes[a])), active := s.active[a := Listing(s.nodes[a])])
  {
    BeatReaches(cfg, s, a);
    var b := AfterBeat(s, a);
    TakeBeatReaches(cfg, b, a);
    t := AfterTakeBeat(b, a);
    assert b.beats[a] == [Listing(s.nodes[a])] && b.beats[a][1..] == [];
    assert t.beats == s.beats;
  }

  /** A node without chunks joins. */
  lemma Joins(cfg: Config, s: State, a: Addr) returns (t: State)
    requires Reachable(cfg, s) && JustStarted(cfg, s) && a in cfg.nodes
    ensures Reachable(cfg, t) && JustStarted(cfg, t) && t.active == s.active[a := {}]
  {
    assert Listing(s.nodes[a]) == {};
    ReportNothing(s.index, a);
    t := Reports(cfg, s, a);
  }

  lemma OneCut(content: Bytes)
    requires content != []
    ensures Cuts(content, |content|) == [content]
  {}

  /** The file is on its way to the only active node. */
  ghost predicate Sent(cfg: Config, s: State, n: Addr, cl: Addr, file: string, folder: string, content: Bytes) {
    && s.nodes.Keys == cfg.nodes && (forall a :: a in s.nodes ==> s.nodes[a] == Node(map[], map[], 0)) && s.down == {}
    && s.items == map[0 := Flight(WriteMsg(cfg, cl, file, [content], [n], 0))] && s.next == 1
    && s.readers == map[] && s.former == {} && s.expired == map[] && s.index == map[] && s.active == map[n := {}]
    && s.h.files == map[file := File(content, [content], folder)] && s.h.deleted == {}
    && s.beats.Keys == cfg.nodes && (forall a :: a in s.beats ==> s.beats[a] == [])
  }

  lemma MaySend(cfg: Config, s: State, n: Addr, cl: Addr, file: string, content: Bytes)
    requires Scene(cfg, n, cl, file, content) && JustStarted(cfg, s) && s.active == map[n := {}]
    ensures CanWrite(cfg, s, cl, file, content, |content|, [n], [n], 1)
  {
    OneCut(content);
    OnePick(n);
    assert s.active.Keys == {n};
  }

  lemma Sending(cfg: Config, s: State, n: Addr, cl: Addr, file: string, folder: string, content: Bytes)
    requires content != [] && JustStarted(cfg, s) && s.active == map[n := {}]
    requires CanWrite(cfg, s, cl, file, content, |content|, [n], [n], 1)
    ensures Sent(cfg, AfterWrite(cfg, s, cl, file, folder, content, |content|, [n], [n], 1), n, cl, file, folder,
                 content)
  {
    OneCut(content);
    OneWrite(cfg, cl, file, content, n);
  }

  lemma IsSent(cfg: Config, s: State, n: Addr, cl: Addr, file: string, folder: string, content: Bytes)
    returns (t: State)
    requires Scene(cfg, n, cl, file, content) && Reachable(cfg, s) && JustStarted(cfg, s) && s.active == map[n := {}]
    ensures Reachable(cfg, t) && Sent(cfg, t, n, cl, file, folder, content)
  {
    MaySend(cfg, s, n, cl, file, content);
    WriteReaches(cfg, s, cl, file, folder, content, |content|, [n], [n], 1);
    Sending(cfg, s, n, cl, file, folder, content);
    t := AfterWrite(cfg, s, cl, file, folder, content, |content|, [n], [n], 1);
  }

  lemma OnePick(n: Addr)
    ensures Drawn([n], {n}) && Place({n}, {}, [n]) == Some({n}) && Enumerates([n], {n})
  {
    assert {} + {n} == {n};
    assert (set x | x in [n]) == {n};
  }

  lemma OneWrite(cfg: Config, cl: Addr, file: string, content: Bytes, n: Addr)
    ensures Added(map[], 0, WriteMsgs(cfg, cl, file, [content], [n], 1))
            == map[0 := Flight(WriteMsg(cfg, cl, file, [content], [n], 0))]
  {
    var out := WriteMsgs(cfg, cl, file, [content], [n], 1);
    var items := Added(map[], 0, out);
    assert out[0] == Flight(WriteMsg(cfg, cl, file, [content], [n], 0));
    assert items[0 + 0] == out[0];
    assert items.Keys == {0};
  }

  /** The node stores the chunk, and nothing is under way. */
  ghost predicate Stored(cfg: Config, s: State, n: Addr, file: string, folder: string, content: Bytes) {
    && s.nodes.Keys == cfg.nodes && s.down == {} && s.items == map[] && s.next == 1
    && (forall a :: a in s.nodes && a != n ==> s.nodes[a] == Node(map[], map[], 0))
    && n in s.nodes && s.nodes[n].data == map[ChunkName(file, 0) := content]
    && s.nodes[n].meta == map[ChunkName(file, 0) := Record(file, |content|, cfg.hash(content))]
    && s.readers == map[] && s.former == {} && s.expired == map[]
    && s.h.files == map[file := File(content, [content], folder)] && s.h.deleted == {}
    && s.beats.Keys == cfg.nodes && (forall a :: a in s.beats ==> s.beats[a] == [])
  }

  lemma IsStored(cfg: Config, s: State, n: Addr, cl: Addr, file: string, folder: string, content: Bytes)
    returns (t: State)
    requires Scene(cfg, n, cl, file, content) && Reachable(cfg, s) && Sent(cfg, s, n, cl, file, folder, content)
    ensures Reachable(cfg, t) && Stored(cfg, t, n, file, folder, content) && t.index == map[]
            && t.active == map[n := {}]
  {
    DeliverReaches(cfg, s, 0, {});
    t := AfterDeliver(cfg, s, 0, {});
    var m := s.items[0].msg;
    assert SavedBytes(m) == content;
    assert [n][1..] == [];
    assert Handle(SiteOf(cfg, n), s.nodes[n], m, {}).out == [];
    assert t.items == Added(s.items - {0}, 1, []);
  }

  /** The node has reported the chunk. */
  lemma IsReported(cfg: Config, s: State, n: Addr, file: string, folder: string, content: Bytes) returns (t: State)
    requires Reachable(cfg, s) && Stored(cfg, s, n, file, folder, content) && s.index == map[]
             && s.active == map[n := {}]
    ensures Reachable(cfg, t) && Stored(cfg, t, n, file, folder, content)
    ensures t.index == map[Key(file, ChunkName(file, 0)) := {n}]
            && t.active == map[n := {Key(file, ChunkName(file, 0))}]
  {
    var k := Key(file, ChunkName(file, 0));
    ListingOf(s.nodes[n], ChunkName(file, 0), Record(file, |content|, cfg.hash(content)));
    ReportFirst(n, k);
    t := Reports(cfg, s, n);
  }

  lemma FileIsReported(cfg: Config, n: Addr, cl: Addr, file: string, folder: string, content: Bytes) returns (s: State)
    requires Scene(cfg, n, cl, file, content)
    ensures Reachable(cfg, s) && Stored(cfg, s, n, file, folder, content)
    ensures s.index == map[Key(file, ChunkName(file, 0)) := {n}]
            && s.active == map[n := {Key(file, ChunkName(file, 0))}]
  {
    StartIsReachable(cfg);
    s := Joins(cfg, Start(cfg), n);
    s := IsSent(cfg, s, n, cl, file, folder, content);
    s := IsStored(cfg, s, n, cl, file, folder, content);
    s := IsReported(cfg, s, n, file, folder, content);
  }

  // ----- a chunk without a holder -----

  lemma JoinsLater(cfg: Config, s: State, n: Addr, a: Addr, file: string, folder: string, content: Bytes)
    returns (t: State)
    requires Reachable(cfg, s) && Stored(cfg, s, n, file, folder, content) && a in cfg.nodes && a != n
    ensures Reachable(cfg, t) && Stored(cfg, t, n, file, folder, content) && t.index == s.index
            && t.active == s.active[a := {}]
  {
    assert Listing(s.nodes[a]) == {};
    ReportNothing(s.index, a);
    t := Reports(cfg, s, a);
  }

  lemma ThreeJoin(cfg: Config, s: State, n: Addr, a: Addr, b: Addr, c: Addr, file: string, folder: string,
                  content: Bytes)
    returns (t: State)
    requires Reachable(cfg, s) && Stored(cfg, s, n, file, folder, content) && {a, b, c} <= cfg.nodes && n !in {a, b, c}
    ensures Reachable(cfg, t) && Stored(cfg, t, n, file, folder, content) && t.index == s.index
    ensures t.active == s.active[a := {}][b := {}][c := {}]
  {
    t := JoinsLater(cfg, s, n, a, file, folder, content);
    t := JoinsLater(cfg, t, n, b, file, folder, content);
    t := JoinsLater(cfg, t, n, c, file, folder, content);
  }

  /** The only holder of a file dies while three empty nodes are active. */
  lemma LosesItsHolder(cfg: Config, s: State, n: Addr, a: Addr, b: Addr, c: Addr, file: string, folder: string,
                       content: Bytes)
    returns (t: State)
    requires Reachable(cfg, s) && Stored(cfg, s, n, file, folder, content) && a != b && a != c && b != c
             && n !in {a, b, c}
    requires s.index == map[Key(file, ChunkName(file, 0)) := {n}]
    requires s.active == map[n := {Key(file, ChunkName(file, 0))}, a := {}, b := {}, c := {}]
    ensures Reachable(cfg, t) && t.index == map[Key(file, ChunkName(file, 0)) := {}]
    ensures t.h.files == s.h.files && t.h.deleted == {} && t.readers == map[] && t.items == map[] && t.next == 1
  {
    var k := Key(file, ChunkName(file, 0));
    ExpireReaches(cfg, s, n);
    var e := AfterExpire(s, n);
    assert e.active == map[a := {}, b := {}, c := {}];
    t := Replaces(cfg, e, n, k, a, b, c);
  }

  /** Replacing the only holder of a chunk, with three others active, none of which can be dialled. */
  lemma Replaces(cfg: Config, s: State, n: Addr, k: Key, a: Addr, b: Addr, c: Addr) returns (t: State)
    requires Reachable(cfg, s) && PoolOk(s) && n in s.expired && k in s.expired[n] && s.index == map[k := {n}]
    requires a != b && a != c && b != c && n !in {a, b, c} && s.active == map[a := {}, b := {}, c := {}]
    ensures Reachable(cfg, t) && t.index == map[k := {}]
    ensures t.h.files == s.h.files && t.h.deleted == s.h.deleted && t.readers == s.readers && t.items == s.items
            && t.next == s.next
  {
    MayReplace(s, n, k, a, b, c);
    ReplaceReaches(cfg, s, n, k, [a, b, c], [], {});
    t := AfterReplace(cfg, s, n, k, [a, b, c], [], {});
    ReplacingPosts(cfg, s, n, k, [a, b, c]);
    ReplacingKeeps(cfg, s, n, k, [a, b, c]);
  }

  lemma ReplacingPosts(cfg: Config, s: State, n: Addr, k: Key, picks: seq<Addr>)
    ensures CanReplace(s, n, k, picks, []) ==>
              var t := AfterReplace(cfg, s, n, k, picks, [], {}); t.items == s.items && t.next == s.next
  {
    assert PoolOk(s) ==> Added(s.items, s.next, []) == s.items;
  }

  lemma ReplacingKeeps(cfg: Config, s: State, n: Addr, k: Key, picks: seq<Addr>)
    ensures CanReplace(s, n, k, picks, []) && s.index == map[k := {n}] ==>
              var t := AfterReplace(cfg, s, n, k, picks, [], {});
              t.index == map[k := {}] && t.readers == s.readers && t.h.files == s.h.files && t.h.deleted == s.h.deleted
  {
    assert {n} - {n} == {};
  }

  lemma MayReplace(s: State, n: Addr, k: Key, a: Addr, b: Addr, c: Addr)
    requires PoolOk(s) && n in s.expired && k in s.expired[n] && s.index == map[k := {n}]
    requires a != b && a != c && b != c && n !in {a, b, c} && s.active == map[a := {}, b := {}, c := {}]
    ensures CanReplace(s, n, k, [a, b, c], [])
  {
    assert s.active.Keys == {a, b, c} && |s.active| == |s.active.Keys|;
    assert Survivors(s, n, k) == {};
    Draws(s.active.Keys, n, a, b, c);
    NoneEnumerates();
  }

  lemma NoneEnumerates()
    ensures Enumerates<Addr>([], {})
  {
    assert (set x: Addr | x in []) == {};
  }

  lemma Draws(active: set<Addr>, failed: Addr, a: Addr, b: Addr, c: Addr)
    requires active == {a, b, c} && a != b && a != c && b != c && failed !in active
    ensures Drawn([a, b, c], active) && Replacement(active, failed, {}, [a, b, c]) == Chosen(c)
  {
    assert [a, b, c][1..] == [b, c] && [b, c][1..] == [c];
    assert |{} + {a}| == 1 && |{} + {a} + {b}| == 2 && |{} + {a} + {b} + {c}| == 3;
    assert Replace(active, failed, {}, {} + {a} + {b}, Some(b), [c]) == Chosen(c);
    assert Replace(active, failed, {}, {} + {a}, Some(a), [b, c]) == Chosen(c);
  }

  /** A run after which a file's location table is full and its only row empty, so that a client who reads the file
      ends. */
  lemma EmptyRowHappens(cfg: Config, n: Addr, a: Addr, b: Addr, c: Addr, cl: Addr, file: string, folder: string,
                        content: Bytes)
    returns (s: State, table: seq<Location>)
    requires Scene(cfg, n, cl, file, content) && {a, b, c} <= cfg.nodes
    requires a != b && a != c && b != c && n !in {a, b, c}
    ensures Reachable(cfg, s) && file in s.h.files && file !in s.h.deleted && Lists(table, s.index, file)
    ensures |table| == |s.h.files[file].parts| == 1 && table[0].replicas == []
    ensures CanStartRead(cfg, s, cl, file, table, 0) && AfterStartRead(cfg, s, cl, file, table,
        0).readers[cl].session.crashed
  {
    s := FileIsReported(cfg, n, cl, file, folder, content);
    s := ThreeJoin(cfg, s, n, a, b, c, file, folder, content);
    s := LosesItsHolder(cfg, s, n, a, b, c, file, folder, content);
    table := [Location(ChunkName(file, 0), [])];
    NoneEnumerates();
    OneRow(s.index, file, table[0]);
    EmptyRowEnds(cfg, s, cl, file, table);
  }

  /** A client that reads a file whose first row is empty ends. */
  lemma EmptyRowEnds(cfg: Config, s: State, cl: Addr, file: string, table: seq<Location>)
    requires s.items == map[] && cl in cfg.clients && s.readers == map[] && file in s.h.files && file !in s.h.deleted
    requires Lists(table, s.index, file) && table != [] && table[0].replicas == [] && s.h.files[file].parts != []
    ensures CanStartRead(cfg, s, cl, file, table, 0) && AfterStartRead(cfg, s, cl, file, table,
        0).readers[cl].session.crashed
  {}

  lemma OneRow(index: Index, file: string, l: Location)
    requires Key(file, l.chunk) in index && index.Keys == {Key(file, l.chunk)}
             && Enumerates(l.replicas, index[Key(file, l.chunk)])
    ensures Lists([l], index, file)
  {
    forall k | k in index && k.file == file ensures exists i :: 0 <= i < |[l]| && [l][i].chunk == k.chunk {
      assert [l][0].chunk == k.chunk;
    }
  }

  // ----- a read that a command disturbs -----

  /** The client has asked the one holder and waits. */
  lemma IsAsked(cfg: Config, s: State, n: Addr, cl: Addr, file: string, folder: string, content: Bytes)
    returns (t: State)
    requires Scene(cfg, n, cl, file, content) && Reachable(cfg, s) && Stored(cfg, s, n, file, folder, content)
    requires s.index == map[Key(file, ChunkName(file, 0)) := {n}]
    ensures Reachable(cfg, t) && t.nodes == s.nodes && t.down == {} && t.h == s.h && t.next == 2
    ensures t.items == map[1 := Flight(ReadMsg(cl, file, Location(ChunkName(file, 0), [n])))]
    ensures t.readers == map[cl := NewReader(cfg, File(content, [content], folder), file, map[], true)]
  {
    var table := [Location(ChunkName(file, 0), [n])];
    OnePick(n);
    OneRow(s.index, file, table[0]);
    assert Firm(table) == 1 by { assert table[1..] == []; }
    StartReadReaches(cfg, s, cl, file, table, 1);
    t := AfterStartRead(cfg, s, cl, file, table, 1);
    var out := ReadMsgs(cl, file, table, 1);
    assert out == [Flight(ReadMsg(cl, file, table[0]))];
    assert t.items == Added(map[], 1, out);
  }

  /** The holder's reply is on its way to the client. */
  lemma IsAnswered(cfg: Config, s: State, n: Addr, cl: Addr, file: string, folder: string, content: Bytes)
    returns (t: State)
    requires Scene(cfg, n, cl, file, content) && Reachable(cfg, s) && s.down == {} && s.next == 2 && n in s.nodes
    requires s.nodes[n].data == map[ChunkName(file, 0) := content]
    requires s.nodes[n].meta == map[ChunkName(file, 0) := Record(file, |content|, cfg.hash(content))]
    requires s.items == map[1 := Flight(ReadMsg(cl, file, Location(ChunkName(file, 0), [n])))]
    ensures Reachable(cfg, t) && t.readers == s.readers && t.h == s.h && 2 in t.items && PoolOk(t)
    ensures var m := t.items[2].msg;
            t.items[2].Flight? && m.kind == Write && m.receiver == cl && m.chunk == ChunkName(file, 0)
              && m.size == |m.data| && m.data == content
  {
    HashReadsAsIs(cfg, content);
    DeliverReaches(cfg, s, 1, {cl});
    t := AfterDeliver(cfg, s, 1, {cl});
    var out := Handle(SiteOf(cfg, n), s.nodes[n], s.items[1].msg, {cl}).out;
    assert |out| == 1;
    assert t.items == Added(s.items - {1}, 2, out);
    assert t.items[2 + 0] == out[0];
  }

  /** A run in which a client reads a file, types another file's name before the chunk comes, and fails. */
  lemma CommandBreaksRead(cfg: Config, n: Addr, cl: Addr, file: string, folder: string, content: Bytes, other: string)
    returns (s: State, id: nat)
    requires Scene(cfg, n, cl, file, content) && other != file
    ensures Reachable(cfg, s) && CanReceive(cfg, s, id) && s.items[id].msg.receiver == cl
    ensures s.readers[cl].file == file && s.readers[cl].asked && CleanStart(s.readers[cl])
    ensures AfterReceive(cfg, s, id).readers[cl].session.crashed
  {
    s := FileIsReported(cfg, n, cl, file, folder, content);
    s := IsAsked(cfg, s, n, cl, file, folder, content);
    CommandReaches(cfg, s, cl, Some(other), None);
    s := AfterCommand(s, cl, Some(other), None);
    s := IsAnswered(cfg, s, n, cl, file, folder, content);
    id := 2;
    LastChunkDecides(cfg, s, 2);
  }

  /** The same run without the command: the client keeps the file. */
  lemma ReadSucceeds(cfg: Config, n: Addr, cl: Addr, file: string, folder: string, content: Bytes)
    returns (s: State, id: nat)
    requires Scene(cfg, n, cl, file, content)
    ensures Reachable(cfg, s) && CanReceive(cfg, s, id) && s.items[id].msg.receiver == cl
    ensures AfterReceive(cfg, s, id).readers[cl].session.kept == Some(Kept(folder, file, content))
  {
    s := FileIsReported(cfg, n, cl, file, folder, content);
    s := IsAsked(cfg, s, n, cl, file, folder, content);
    s := IsAnswered(cfg, s, n, cl, file, folder, content);
    id := 2;
    LastChunkDecides(cfg, s, 2);
  }
}
