/** The steps that change the index, the node table or the history keep the invariant, and so does every run. */
module SafetySteps {
  import opened Types
  import opened Sets
  import opened Records
  import opened Chunking
  import opened Placement
  import opened NodeSpec
  import opened ControllerSpec
  import opened Cluster
  import opened Safety

  // ----- heartbeats and failures -----

  lemma BeatSent(h: History, beats: map<Addr, seq<set<Key>>>, a: Addr, files: set<Key>)
    requires BeatsOk(h, beats) && a in beats && ListedOk(h, a, files)
    ensures BeatsOk(h, beats[a := beats[a] + [files]])
  {}

  lemma BeatKeeps(cfg: Config, s: State, a: Addr)
    requires Inv(cfg, s) && CanBeat(s, a)
    ensures Inv(cfg, AfterBeat(s, a))
  {
    assert NodeOk(cfg, s.h, a, s.nodes[a]);
    BeatSent(s.h, s.beats, a, Listing(s.nodes[a]));
  }

  lemma ReportKeeps(h: History, gone: map<string, set<Addr>>, former: set<Addr>, index: Index, a: Addr, files: set<Key>)
    requires GoneOk(h, gone, former) && EntriesOk(h, gone, index) && a !in former && ListedOk(h, a, files)
    ensures EntriesOk(h, gone, Report(index, a, files))
  {
    var index' := Report(index, a, files);
    forall k | k in index' ensures Known(h, k.file, k.chunk) && index'[k] <= Live(h, gone, k.chunk) {
      if k in files {
        assert gone[k.chunk] <= former;
        assert a in Live(h, gone, k.chunk);
      }
    }
  }

  lemma BeatTaken(h: History, beats: map<Addr, seq<set<Key>>>, a: Addr)
    requires BeatsOk(h, beats) && a in beats && beats[a] != []
    ensures BeatsOk(h, beats[a := beats[a][1..]]) && ListedOk(h, a, beats[a][0])
  {}

  lemma TakeBeatKeeps(cfg: Config, s: State, a: Addr)
    requires Inv(cfg, s) && CanTakeBeat(s, a)
    ensures Inv(cfg, AfterTakeBeat(s, a))
  {
    BeatTaken(s.h, s.beats, a);
    ReportKeeps(s.h, s.gone, s.former, s.index, a, s.beats[a][0]);
  }

  lemma ExpiredGrows(cfg: Config, h: History, gone: map<string, set<Addr>>, former: set<Addr>,
                     active: map<Addr, set<Key>>, expired: map<Addr, set<Key>>, a: Addr)
    requires GoneOk(h, gone, former) && ActiveOk(cfg, h, former, active) && ExpiredOk(h, gone, former, expired)
             && a in active
    ensures ExpiredOk(h, gone, former + {a}, expired[a := active[a]])
  {
    forall k | k in active[a] ensures a in Live(h, gone, k.chunk) {
      assert Placed(h, k.chunk, a);
      assert gone[k.chunk] <= former;
    }
  }

  lemma ExpireKeeps(cfg: Config, s: State, a: Addr)
    requires Inv(cfg, s) && a in s.active
    ensures Inv(cfg, AfterExpire(s, a))
  {
    ExpiredGrows(cfg, s.h, s.gone, s.former, s.active, s.expired, a);
  }

  lemma RestartKeeps(cfg: Config, s: State)
    requires Inv(cfg, s)
    ensures Inv(cfg, AfterRestart(s))
  {}

  // ----- replacing a failed node -----

  /** Every replacement starts with at most two survivors: the failed node is one of the at most three live ones. */
  lemma FewSurvivors(cfg: Config, s: State, failed: Addr, k: Key)
    requires IndexOk(cfg, s) && failed in s.expired && k in s.expired[failed]
    ensures Known(s.h, k.file, k.chunk) && failed in Live(s.h, s.gone, k.chunk)
    ensures Survivors(s, failed, k) <= Live(s.h, s.gone, k.chunk) - {failed}
    ensures |Survivors(s, failed, k)| < MAX_REPLICAS
  {
    assert ListedOk(s.h, failed, s.expired[failed]);
    var live := Live(s.h, s.gone, k.chunk);
    if k in s.index { assert s.index[k] <= live; }
    SubsetSize(Survivors(s, failed, k), live - {failed});
  }

  function ReplacedHistory(h: History, c: string, n: Addr): History { h.(placed := Union(h.placed, c, n)) }

  lemma ReplacedHistoryOk(cfg: Config, h: History, c: string, n: Addr)
    requires HistoryOk(cfg, h) && c in h.placed && n in cfg.nodes
    ensures HistoryOk(cfg, ReplacedHistory(h, c, n)) && Extends(h, ReplacedHistory(h, c, n))
  {
    var h' := ReplacedHistory(h, c, n);
    forall d | d in h'.origin ensures ComesFrom(h', d) {
      assert ComesFrom(h, d);
    }
  }

  lemma StoreFollowsHistory(cfg: Config, h: History, h': History, items: map<nat, Item>, next: nat,
                            nodes: map<Addr, Node>, tainted: set<(Addr, string)>)
    requires Extends(h, h') && ItemsOk(cfg, h, items, next) && NodesOk(cfg, h, nodes) && CopiesOk(nodes, h, tainted)
    ensures ItemsOk(cfg, h', items, next) && NodesOk(cfg, h', nodes) && CopiesOk(nodes, h', tainted)
  {
    ItemsStayOk(cfg, h, h', items, next);
    NodesStayOk(cfg, h, h', nodes);
    forall a, c | a in nodes && c in nodes[a].data && c in h'.origin && (a, c) !in tainted
      ensures nodes[a].data[c] == h'.origin[c].bytes
    {
      assert NodeOk(cfg, h, a, nodes[a]);
      assert Known(h, nodes[a].meta[c].file, c);
    }
  }

  /** A step that extends the history and posts items that are sound under the extended one keeps the store sound. */
  lemma StoreMoves(cfg: Config, s: State, t: State, out: seq<Item>)
    requires StoreOk(cfg, s) && HistoryOk(cfg, t.h) && Extends(s.h, t.h)
    requires AllOk(cfg, t.h, out)
    requires SameStore(s, t) && t.beats == s.beats && t.items == Added(s.items, s.next, out) && t.next == s.next + |out|
    ensures StoreOk(cfg, t)
  {
    StoreFollowsHistory(cfg, s.h, t.h, s.items, s.next, s.nodes, s.tainted);
    PoolGrows(cfg, t.h, s.items, s.next, out);
  }

  lemma PoolGrows(cfg: Config, h: History, items: map<nat, Item>, next: nat, out: seq<Item>)
    requires ItemsOk(cfg, h, items, next) && AllOk(cfg, h, out)
    ensures ItemsOk(cfg, h, Added(items, next, out), next + |out|)
  {
    assert items - {} == items;
    PoolKeeps(cfg, h, items, {}, next, out);
  }

  lemma ReplicaIsOk(cfg: Config, s: State, h': History, k: Key, failed: Addr, order: seq<Addr>, n: Addr,
                    reach: set<Addr>)
    requires IndexOk(cfg, s) && failed in s.expired && k in s.expired[failed]
    requires Enumerates(order, Survivors(s, failed, k)) && h' == ReplacedHistory(s.h, k.chunk, n)
    ensures AllOk(cfg, h', ReplicaItems(cfg, k, order, n, reach))
  {
    FewSurvivors(cfg, s, failed, k);
    forall i | 0 <= i < |order| ensures Placed(h', k.chunk, order[i]) {
      EnumeratedIn(order, Survivors(s, failed, k), i);
    }
  }

  lemma ReplacedLive(h: History, gone: map<string, set<Addr>>, c: string, n: Addr, failed: Addr)
    requires c in h.placed && c in gone && failed in Live(h, gone, c)
    ensures var h', gone' := ReplacedHistory(h, c, n), Union(gone, c, failed);
            && |Live(h', gone', c)| <= |Live(h, gone, c)|
            && (forall d :: d != c ==> Live(h', gone', d) == Live(h, gone, d))
            && Live(h, gone, c) - {failed} <= Live(h', gone', c)
  {
    var h', gone' := ReplacedHistory(h, c, n), Union(gone, c, failed);
    SubsetSize(Live(h', gone', c), Live(h, gone, c) - {failed} + {n});
    GrowsByOne(Live(h, gone, c) - {failed}, n);
  }

  lemma ReplacedGone(h: History, gone: map<string, set<Addr>>, former: set<Addr>, c: string, n: Addr, failed: Addr)
    requires GoneOk(h, gone, former) && c in h.placed && failed in Live(h, gone, c) && failed in former
    ensures GoneOk(ReplacedHistory(h, c, n), Union(gone, c, failed), former)
  {
    var h', gone' := ReplacedHistory(h, c, n), Union(gone, c, failed);
    ReplacedLive(h, gone, c, n, failed);
    forall d | d in h'.placed ensures |Live(h', gone', d)| <= MAX_REPLICAS {
      assert d in h.placed;
      assert |Live(h, gone, d)| <= MAX_REPLICAS;
    }
  }

  lemma ReplacedEntries(h: History, gone: map<string, set<Addr>>, index: Index, k: Key, n: Addr, failed: Addr)
    requires EntriesOk(h, gone, index) && Known(h, k.file, k.chunk) && k.chunk in gone
             && failed in Live(h, gone, k.chunk)
    ensures EntriesOk(ReplacedHistory(h, k.chunk, n), Union(gone, k.chunk, failed), RemoveHolder(index, k, failed))
  {
    var h', gone', index' := ReplacedHistory(h, k.chunk, n), Union(gone, k.chunk, failed),
      RemoveHolder(index, k, failed);
    ReplacedLive(h, gone, k.chunk, n, failed);
    forall l | l in index' ensures Known(h', l.file, l.chunk) && index'[l] <= Live(h', gone', l.chunk) {
      assert index[l] <= Live(h, gone, l.chunk);
      if l.chunk == k.chunk { KeyOfChunk(h, k, l); }
    }
  }

  lemma ReplacedExpired(h: History, gone: map<string, set<Addr>>, former: set<Addr>, expired: map<Addr, set<Key>>,
                        k: Key, n: Addr, failed: Addr)
    requires ExpiredOk(h, gone, former, expired) && k.chunk in gone && failed in expired && k in expired[failed]
    ensures ExpiredOk(ReplacedHistory(h, k.chunk, n), Union(gone, k.chunk, failed), former,
                      expired[failed := expired[failed] - {k}])
  {
    var h', gone' := ReplacedHistory(h, k.chunk, n), Union(gone, k.chunk, failed);
    var expired' := expired[failed := expired[failed] - {k}];
    assert ListedOk(h, failed, expired[failed]);
    ReplacedLive(h, gone, k.chunk, n, failed);
    forall a | a in expired' ensures ListedOk(h', a, expired'[a]) {
      assert ListedOk(h, a, expired[a]);
    }
    forall a, l: Key | a in expired' && l in expired'[a] ensures a in Live(h', gone', l.chunk) {
      assert ListedOk(h, a, expired[a]);
      assert a in Live(h, gone, l.chunk);
      if a == failed && l.chunk == k.chunk { KeyOfChunk(h, k, l); }
    }
  }

  lemma ReplaceKeeps(cfg: Config, s: State, failed: Addr, k: Key, picks: seq<Addr>, order: seq<Addr>, reach: set<Addr>)
    requires ConfigOk(cfg) && Inv(cfg, s) && CanReplace(s, failed, k, picks, order)
    ensures Inv(cfg, AfterReplace(cfg, s, failed, k, picks, order, reach))
  {
    var survivors := Survivors(s, failed, k);
    ReplaceChosen(s.active.Keys, failed, survivors, survivors, None, picks);
    var n := Replacement(s.active.Keys, failed, survivors, picks).node;
    var t := AfterReplace(cfg, s, failed, k, picks, order, reach);
    FewSurvivors(cfg, s, failed, k);
    ReplacedHistoryOk(cfg, s.h, k.chunk, n);
    ReplicaIsOk(cfg, s, t.h, k, failed, order, n, reach);
    StoreMoves(cfg, s, t, ReplicaItems(cfg, k, order, n, reach));
    ReplaceIndex(cfg, s, t, failed, k, n);
  }

  lemma ReplaceIndex(cfg: Config, s: State, t: State, failed: Addr, k: Key, n: Addr)
    requires IndexOk(cfg, s) && failed in s.expired && k in s.expired[failed]
    requires t.h == ReplacedHistory(s.h, k.chunk, n) && t.gone == Union(s.gone, k.chunk, failed)
    requires t.index == RemoveHolder(s.index, k, failed) && t.expired == s.expired[failed := s.expired[failed] - {k}]
    requires t.active == s.active && t.beats == s.beats && t.former == s.former
    ensures IndexOk(cfg, t)
  {
    FewSurvivors(cfg, s, failed, k);
    ReplacedGone(s.h, s.gone, s.former, k.chunk, n, failed);
    ReplacedEntries(s.h, s.gone, s.index, k, n, failed);
    ReplacedExpired(s.h, s.gone, s.former, s.expired, k, n, failed);
    ListedFollow(cfg, s.h, t.h, s.former, s.active, s.beats);
  }

  lemma ListedFollow(cfg: Config, h: History, h': History, former: set<Addr>, active: map<Addr, set<Key>>,
                     beats: map<Addr, seq<set<Key>>>)
    requires Extends(h, h') && ActiveOk(cfg, h, former, active) && BeatsOk(h, beats)
    ensures ActiveOk(cfg, h', former, active) && BeatsOk(h', beats)
  {
    ListedStay(h, h');
    forall a, i | a in beats && 0 <= i < |beats[a]| ensures ListedOk(h', a, beats[a][i]) {
      assert ListedOk(h, a, beats[a][i]);
    }
  }

  lemma ListedStay(h: History, h': History)
    requires Extends(h, h')
    ensures forall a, files :: ListedOk(h, a, files) ==> ListedOk(h', a, files)
  {}

  // ----- deleting a file -----

  lemma DeleteIsOk(cfg: Config, s: State, h': History, file: string, l: Location)
    requires IndexOk(cfg, s) && h' == s.h.(deleted := s.h.deleted + {file}) && l.replicas != []
    requires Key(file, l.chunk) in s.index && Enumerates(l.replicas, s.index[Key(file, l.chunk)])
    ensures ItemOk(cfg, h', Flight(DeleteMsg(cfg, file, l)))
  {
    forall r | 0 <= r < |l.replicas| ensures Placed(h', l.chunk, l.replicas[r]) {
      EnumeratedIn(l.replicas, s.index[Key(file, l.chunk)], r);
      HolderPlaced(cfg, s, Key(file, l.chunk), l.replicas[r]);
    }
    assert forall r :: 0 <= r < |l.replicas[1..]| ==> l.replicas[1..][r] == l.replicas[r + 1];
  }

  lemma DeletesAreOk(cfg: Config, s: State, h': History, file: string, table: seq<Location>, n: nat, reach: set<Addr>)
    requires IndexOk(cfg, s) && h' == s.h.(deleted := s.h.deleted + {file}) && Lists(table, s.index, file)
    requires n <= |table| && AllHeld(table[..n])
    ensures AllOk(cfg, h', DeleteMsgs(cfg, file, table[..n], reach))
  {
    var out := DeleteMsgs(cfg, file, table[..n], reach);
    forall j | 0 <= j < |out| ensures ItemOk(cfg, h', out[j]) {
      var i := DeletesNameRows(cfg, file, table[..n], reach, j);
      DeleteIsOk(cfg, s, h', file, table[i]);
    }
  }

  lemma DeletedHistoryOk(cfg: Config, h: History, file: string)
    requires HistoryOk(cfg, h)
    ensures var h' := h.(deleted := h.deleted + {file}); HistoryOk(cfg, h') && Extends(h, h')
  {
    var h' := h.(deleted := h.deleted + {file});
    forall d | d in h'.origin ensures ComesFrom(h', d) {
      assert ComesFrom(h, d);
    }
  }

  predicate IndexDeletes(s: State, t: State, file: string) {
    && t.h == s.h.(deleted := s.h.deleted + {file}) && t.gone == s.gone && t.beats == s.beats && t.former == s.former
    && ((t.index == ForgetFile(s.index, file) && t.active == s.active && t.expired == s.expired)
        || (t.index == map[] && t.active == map[] && t.expired == map[]))
  }

  /** What a deletion does to the parts of the state the invariant speaks about. */
  ghost predicate Deletion(cfg: Config, s: State, t: State, file: string, table: seq<Location>, n: nat,
                           reach: set<Addr>) {
    && PoolOk(s) && n <= |table| && AllHeld(table[..n]) && Lists(table, s.index, file)
    && SameStore(s, t) && IndexDeletes(s, t, file)
    && t.items == Added(s.items, s.next, DeleteMsgs(cfg, file, table[..n], reach))
    && t.next == s.next + |DeleteMsgs(cfg, file, table[..n], reach)|
  }

  lemma DeleteParts(cfg: Config, s: State, client: Addr, file: string, table: seq<Location>, reach: set<Addr>)
    requires CanDelete(cfg, s, client, file, table)
    ensures Deletion(cfg, s, AfterDelete(cfg, s, client, file, table, reach), file, table, Firm(table), reach)
  {}

  lemma DeletionKeeps(cfg: Config, s: State, t: State, file: string, table: seq<Location>, n: nat, reach: set<Addr>)
    ensures Inv(cfg, s) && Deletion(cfg, s, t, file, table, n, reach) ==> Inv(cfg, t)
  {
    if Inv(cfg, s) && Deletion(cfg, s, t, file, table, n, reach) {
      DeletedHistoryOk(cfg, s.h, file);
      DeletesAreOk(cfg, s, t.h, file, table, n, reach);
      StoreMoves(cfg, s, t, DeleteMsgs(cfg, file, table[..n], reach));
      DeleteIndex(cfg, s, t, file);
    }
  }

  lemma DeleteKeeps(cfg: Config, s: State, client: Addr, file: string, table: seq<Location>, reach: set<Addr>)
    requires ConfigOk(cfg) && Inv(cfg, s) && CanDelete(cfg, s, client, file, table)
    ensures Inv(cfg, AfterDelete(cfg, s, client, file, table, reach))
  {
    DeleteParts(cfg, s, client, file, table, reach);
    DeletionKeeps(cfg, s, AfterDelete(cfg, s, client, file, table, reach), file, table, Firm(table), reach);
  }

  lemma DeleteIndex(cfg: Config, s: State, t: State, file: string)
    requires IndexOk(cfg, s) && IndexDeletes(s, t, file)
    ensures IndexOk(cfg, t)
  {
    assert forall c :: Live(t.h, t.gone, c) == Live(s.h, s.gone, c);
    ListedFollow(cfg, s.h, t.h, s.former, s.active, s.beats);
    ListedStay(s.h, t.h);
  }

  // ----- writing a file -----

  lemma {:induction false} OriginsOfExact(file: string, parts: seq<Bytes>)
    ensures forall c :: c in OriginsOf(file, parts) <==> c in Names(file, |parts|)
    ensures forall i :: 0 <= i < |parts| ==>
              ChunkName(file, i) in OriginsOf(file, parts)
                && OriginsOf(file, parts)[ChunkName(file, i)] == Origin(file, i, parts[i])
    ensures forall c :: c in OriginsOf(file, parts) ==>
              var o := OriginsOf(file, parts)[c];
              o.file == file && o.index < |parts| && c == ChunkName(file, o.index) && o.bytes == parts[o.index]
  {
    if parts != [] {
      var last := |parts| - 1;
      OriginsOfExact(file, parts[..last]);
      assert Names(file, |parts|) == Names(file, last) + {ChunkName(file, last)};
      forall i | 0 <= i < |parts|
        ensures ChunkName(file, i) in OriginsOf(file, parts)
                && OriginsOf(file, parts)[ChunkName(file, i)] == Origin(file, i, parts[i])
      {
        if i < last && ChunkName(file, i) == ChunkName(file, last) { ChunkNameInjective(file, i, file, last); }
      }
    }
  }

  /** A file name never used before cannot share a chunk name with any chunk already written. */
  lemma NamesAreNew(cfg: Config, h: History, file: string, n: nat)
    requires HistoryOk(cfg, h) && file !in h.files
    ensures forall c :: c in Names(file, n) ==> c !in h.origin && c !in h.placed
  {
    forall c | c in Names(file, n) ensures c !in h.origin {
      if c in h.origin {
        var i :| 0 <= i < n && c == ChunkName(file, i);
        assert ComesFrom(h, c);
        ChunkNameInjective(file, i, h.origin[c].file, h.origin[c].index);
      }
    }
  }

  lemma RegisterOrigins(cfg: Config, h: History, h': History, file: string, f: File)
    requires HistoryOk(cfg, h) && file !in h.files
    requires h'.files == h.files[file := f] && h'.origin == h.origin + OriginsOf(file, f.parts)
    ensures OriginsOk(h')
  {
    OriginsOfExact(file, f.parts);
    forall c | c in h'.origin ensures ComesFrom(h', c) {
      if c !in OriginsOf(file, f.parts) { assert ComesFrom(h, c); }
    }
  }

  lemma RegisterFiles(cfg: Config, h: History, h': History, file: string, f: File)
    requires HistoryOk(cfg, h) && file !in h.files && FileOk(f)
    requires h'.files == h.files[file := f] && h'.origin == h.origin + OriginsOf(file, f.parts)
    ensures FilesOk(h')
  {
    OriginsOfExact(file, f.parts);
    forall g, i | g in h'.files && 0 <= i < |h'.files[g].parts| ensures ChunkName(g, i) in h'.origin {
      if g != file { assert ChunkName(g, i) in h.origin; }
    }
    forall g | g in h'.files ensures FileOk(h'.files[g]) {
      if g != file { assert FileOk(h.files[g]); }
    }
  }

  lemma RegisterOk(cfg: Config, h: History, file: string, f: File, nodes: set<Addr>)
    requires HistoryOk(cfg, h) && file !in h.files && nodes <= cfg.nodes && FileOk(f)
    ensures HistoryOk(cfg, Register(h, file, f, nodes))
  {
    var h' := Register(h, file, f, nodes);
    RegisterOrigins(cfg, h, h', file, f);
    RegisterFiles(cfg, h, h', file, f);
    RegisterPlaced(cfg, h, h', file, f.parts, nodes);
  }

  lemma RegisterPlaced(cfg: Config, h: History, h': History, file: string, parts: seq<Bytes>, nodes: set<Addr>)
    requires PlacedOk(cfg, h) && nodes <= cfg.nodes
    requires h'.origin == h.origin + OriginsOf(file, parts)
             && h'.placed == h.placed + (map c | c in Names(file, |parts|) :: nodes)
    ensures PlacedOk(cfg, h')
  {
    OriginsOfExact(file, parts);
    assert h'.origin.Keys == h.origin.Keys + Names(file, |parts|);
  }

  lemma RegisterOnlyAdds(cfg: Config, h: History, file: string, f: File, nodes: set<Addr>)
    requires HistoryOk(cfg, h) && file !in h.files
    ensures Extends(h, Register(h, file, f, nodes))
  {
    OriginsOfExact(file, f.parts);
    NamesAreNew(cfg, h, file, |f.parts|);
  }

  lemma RegisterExtends(cfg: Config, h: History, file: string, f: File, nodes: set<Addr>)
    requires HistoryOk(cfg, h) && file !in h.files
    ensures var h' := Register(h, file, f, nodes);
            Extends(h, h')
            && forall i :: 0 <= i < |f.parts| ==>
                 var c := ChunkName(file, i);
                 Known(h', file, c) && h'.origin[c].bytes == f.parts[i] && h'.placed[c] == nodes
  {
    var h' := Register(h, file, f, nodes);
    OriginsOfExact(file, f.parts);
    RegisterOnlyAdds(cfg, h, file, f, nodes);
    forall i | 0 <= i < |f.parts|
      ensures var c := ChunkName(file, i);
              Known(h', file, c) && h'.origin[c].bytes == f.parts[i] && h'.placed[c] == nodes
    {
      assert ChunkName(file, i) in Names(file, |f.parts|);
    }
  }

  lemma WritesAreOk(cfg: Config, h: History, client: Addr, file: string, parts: seq<Bytes>, order: seq<Addr>, sent: nat)
    requires sent <= |parts| && |order| > 0
    requires forall i :: 0 <= i < |parts| ==>
               var c := ChunkName(file, i);
               Known(h, file, c) && h.origin[c].bytes == parts[i] && h.placed[c] == set a | a in order
    ensures AllOk(cfg, h, WriteMsgs(cfg, client, file, parts, order, sent))
  {
    forall j | 0 <= j < sent ensures ItemOk(cfg, h, WriteMsgs(cfg, client, file, parts, order, sent)[j]) {
      var m := WriteMsg(cfg, client, file, parts, order, j);
      assert h.placed[ChunkName(file, j)] == set a | a in order;
      assert forall i :: 0 <= i < |order[1..]| ==> order[1..][i] == order[i + 1];
      assert MsgOk(cfg, h, m);
    }
  }

  lemma RegisteredLive(h: History, gone: map<string, set<Addr>>, names: set<string>, nodes: set<Addr>,
                       h': History, gone': map<string, set<Addr>>)
    requires gone.Keys == h.placed.Keys && names !! h.placed.Keys
    requires h'.placed == h.placed + (map c | c in names :: nodes) && gone' == gone + (map c | c in names :: {})
    ensures forall c :: c in h.placed ==> Live(h', gone', c) == Live(h, gone, c)
    ensures forall c :: c in names ==> Live(h', gone', c) == nodes
    ensures gone'.Keys == h'.placed.Keys == h.placed.Keys + names
  {}

  lemma RegisteredGone(h: History, gone: map<string, set<Addr>>, former: set<Addr>, names: set<string>,
                       nodes: set<Addr>,
                       h': History, gone': map<string, set<Addr>>)
    requires GoneOk(h, gone, former) && names !! h.placed.Keys && |nodes| <= MAX_REPLICAS
    requires h'.placed == h.placed + (map c | c in names :: nodes) && gone' == gone + (map c | c in names :: {})
    ensures GoneOk(h', gone', former)
  {
    RegisteredLive(h, gone, names, nodes, h', gone');
    forall c | c in h'.placed ensures |Live(h', gone', c)| <= MAX_REPLICAS {
      assert c in h.placed || c in names;
    }
  }

  lemma WriteIndex(cfg: Config, s: State, t: State, file: string, f: File, nodes: set<Addr>)
    requires Inv(cfg, s) && file !in s.h.files && |nodes| <= MAX_REPLICAS
    requires t.h == Register(s.h, file, f, nodes) && t.gone == s.gone + (map c | c in Names(file, |f.parts|) :: {})
    requires t.index == s.index && t.active == s.active && t.expired == s.expired && t.beats == s.beats
             && t.former == s.former
    ensures IndexOk(cfg, t)
  {
    RegisterExtends(cfg, s.h, file, f, nodes);
    NamesAreNew(cfg, s.h, file, |f.parts|);
    RegisteredLive(s.h, s.gone, Names(file, |f.parts|), nodes, t.h, t.gone);
    RegisteredGone(s.h, s.gone, s.former, Names(file, |f.parts|), nodes, t.h, t.gone);
    ListedFollow(cfg, s.h, t.h, s.former, s.active, s.beats);
    IndexFollows(s.h, t.h, s.gone, t.gone, s.former, s.index, s.expired);
  }

  lemma IndexFollows(h: History, h': History, gone: map<string, set<Addr>>, gone': map<string, set<Addr>>,
                     former: set<Addr>,
                     index: Index, expired: map<Addr, set<Key>>)
    requires Extends(h, h') && forall c :: c in h.placed ==> Live(h', gone', c) == Live(h, gone, c)
    requires EntriesOk(h, gone, index) && ExpiredOk(h, gone, former, expired)
    ensures EntriesOk(h', gone', index) && ExpiredOk(h', gone', former, expired)
  {
    ListedStay(h, h');
    forall a, k | a in expired && k in expired[a] ensures a in Live(h', gone', k.chunk) {
      assert ListedOk(h, a, expired[a]);
      assert a in Live(h, gone, k.chunk);
    }
  }

  lemma WriteParts(cfg: Config, s: State, t: State, client: Addr, file: string, f: File, order: seq<Addr>, sent: nat)
    requires Inv(cfg, s) && file !in s.h.files && order != [] && sent <= |f.parts| && FileOk(f)
    requires (set a | a in order) <= cfg.nodes && |set a | a in order| <= MAX_REPLICAS
    requires t.h == Register(s.h, file, f, set a | a in order)
    requires t.gone == s.gone + (map c | c in Names(file, |f.parts|) :: {})
    requires t.index == s.index && t.active == s.active && t.expired == s.expired && t.former == s.former
    requires SameStore(s, t) && t.beats == s.beats && t.next == s.next + sent
    requires t.items == Added(s.items, s.next, WriteMsgs(cfg, client, file, f.parts, order, sent))
    ensures Inv(cfg, t)
  {
    var nodes := set a | a in order;
    RegisterOk(cfg, s.h, file, f, nodes);
    RegisterExtends(cfg, s.h, file, f, nodes);
    WritesAreOk(cfg, t.h, client, file, f.parts, order, sent);
    StoreMoves(cfg, s, t, WriteMsgs(cfg, client, file, f.parts, order, sent));
    WriteIndex(cfg, s, t, file, f, nodes);
  }

  lemma WriteKeeps(cfg: Config, s: State, client: Addr, file: string, folder: string, content: Bytes, chunkSize: nat,
                   picks: seq<Addr>, order: seq<Addr>, sent: nat)
    requires ConfigOk(cfg) && Inv(cfg, s) && CanWrite(cfg, s, client, file, content, chunkSize, picks, order, sent)
    ensures Inv(cfg, AfterWrite(cfg, s, client, file, folder, content, chunkSize, picks, order, sent))
  {
    var t := AfterWrite(cfg, s, client, file, folder, content, chunkSize, picks, order, sent);
    CutsConserve(content, chunkSize);
    PlaceSize(s.active.Keys, {}, picks);
    WriteParts(cfg, s, t, client, file, File(content, Cuts(content, chunkSize), folder), order, sent);
  }

  // ----- every step, every run -----

  lemma StartOk(cfg: Config)
    ensures Inv(cfg, Start(cfg))
  {}

  predicate IsMessageStep(step: Step) {
    step.Deliver? || step.AnswerReplica? || step.Receive? || step.WakeUp? || step.Drop?
  }

  predicate IsNodeStep(step: Step) {
    step.Corrupt? || step.GoDown? || step.Restart?
  }

  predicate IsBeatStep(step: Step) { step.Beat? || step.TakeBeat? || step.Expire? }

  lemma MessageStepKeeps(cfg: Config, s: State, step: Step)
    requires ConfigOk(cfg) && Inv(cfg, s) && Enabled(cfg, s, step) && IsMessageStep(step)
    ensures Inv(cfg, Next(cfg, s, step))
  {
    if step.Receive? || step.Drop? { TakeStepKeeps(cfg, s, step); } else { HandlerStepKeeps(cfg, s, step); }
  }

  lemma HandlerStepKeeps(cfg: Config, s: State, step: Step)
    requires ConfigOk(cfg) && Inv(cfg, s) && Enabled(cfg, s, step)
             && (step.Deliver? || step.AnswerReplica? || step.WakeUp?)
    ensures Inv(cfg, Next(cfg, s, step))
  {
    match step
    case Deliver(id, reach) => DeliverKeeps(cfg, s, id, reach);
    case AnswerReplica(id, order, reach) => AnswerKeeps(cfg, s, id, order, reach);
    case WakeUp(id, reach) => WakeKeeps(cfg, s, id, reach);
  }

  lemma TakeStepKeeps(cfg: Config, s: State, step: Step)
    requires ConfigOk(cfg) && Inv(cfg, s) && Enabled(cfg, s, step) && (step.Receive? || step.Drop?)
    ensures Inv(cfg, Next(cfg, s, step))
  {
    match step
    case Receive(id) => TakeKeeps(cfg, s, AfterReceive(cfg, s, id), id);
    case Drop(id) => TakeKeeps(cfg, s, AfterDrop(cfg, s, id), id);
  }

  lemma GoDownKeeps(cfg: Config, s: State, a: Addr)
    requires Inv(cfg, s)
    ensures Inv(cfg, s.(down := s.down + {a}))
  {
    SameHistoryIndex(cfg, s, s.(down := s.down + {a}));
  }

  lemma NodeStepKeeps(cfg: Config, s: State, step: Step)
    requires ConfigOk(cfg) && Inv(cfg, s) && Enabled(cfg, s, step) && IsNodeStep(step)
    ensures Inv(cfg, Next(cfg, s, step))
  {
    if step.Corrupt? { CorruptStepKeeps(cfg, s, step); } else { StopStepKeeps(cfg, s, step); }
  }

  lemma CorruptStepKeeps(cfg: Config, s: State, step: Step)
    requires ConfigOk(cfg) && Inv(cfg, s) && Enabled(cfg, s, step) && step.Corrupt?
    ensures Inv(cfg, Next(cfg, s, step))
  {
    CorruptKeeps(cfg, s, step.node, step.chunk, step.bytes);
  }

  lemma StopStepKeeps(cfg: Config, s: State, step: Step)
    requires ConfigOk(cfg) && Inv(cfg, s) && Enabled(cfg, s, step) && (step.GoDown? || step.Restart?)
    ensures Inv(cfg, Next(cfg, s, step))
  {
    match step
    case GoDown(a) => GoDownKeeps(cfg, s, a);
    case Restart => RestartKeeps(cfg, s);
  }

  lemma BeatStepKeeps(cfg: Config, s: State, step: Step)
    requires ConfigOk(cfg) && Inv(cfg, s) && Enabled(cfg, s, step) && IsBeatStep(step)
    ensures Inv(cfg, Next(cfg, s, step))
  {
    match step
    case Beat(a) => BeatKeeps(cfg, s, a);
    case TakeBeat(a) => TakeBeatKeeps(cfg, s, a);
    case Expire(a) => ExpireKeeps(cfg, s, a);
  }

  lemma CommandKeeps(cfg: Config, s: State, readers: map<Addr, Reader>)
    requires Inv(cfg, s)
    ensures Inv(cfg, s.(readers := readers))
  {
    SameHistoryIndex(cfg, s, s.(readers := readers));
  }

  lemma RequestStepKeeps(cfg: Config, s: State, step: Step)
    requires ConfigOk(cfg) && Inv(cfg, s) && Enabled(cfg, s, step) && !IsMessageStep(step) && !IsNodeStep(step)
             && !IsBeatStep(step)
    ensures Inv(cfg, Next(cfg, s, step))
  {
    match step
    case WriteFile(client, file, folder, content, chunkSize, picks, order, sent) =>
      WriteKeeps(cfg, s, client, file, folder, content, chunkSize, picks, order, sent);
    case StartRead(client, file, table, sent) => StartReadKeeps(cfg, s, client, file, table, sent);
    case ReplaceFailed(failed, k, picks, order, reach) => ReplaceKeeps(cfg, s, failed, k, picks, order, reach);
    case DeleteFile(client, file, table, reach) => DeleteKeeps(cfg, s, client, file, table, reach);
    case Command(client, name, folder) => CommandKeeps(cfg, s, AfterTyping(s.readers, client, name, folder));
  }

  lemma StepKeeps(cfg: Config, s: State, step: Step)
    requires ConfigOk(cfg) && Inv(cfg, s) && Enabled(cfg, s, step)
    ensures Inv(cfg, Next(cfg, s, step))
  {
    if IsMessageStep(step) {
      MessageStepKeeps(cfg, s, step);
    } else if IsNodeStep(step) {
      NodeStepKeeps(cfg, s, step);
    } else if IsBeatStep(step) {
      BeatStepKeeps(cfg, s, step);
    } else {
      RequestStepKeeps(cfg, s, step);
    }
  }

  lemma {:induction false} RunKeeps(cfg: Config, s: State, steps: seq<Step>, t: State)
    requires ConfigOk(cfg) && Inv(cfg, s) && Run(cfg, s, steps, t)
    ensures Inv(cfg, t)
    decreases |steps|
  {
    if steps != [] {
      StepKeeps(cfg, s, steps[0]);
      RunKeeps(cfg, Next(cfg, s, steps[0]), steps[1..], t);
    }
  }

  lemma ReachableOk(cfg: Config, s: State)
    requires ConfigOk(cfg) && Reachable(cfg, s)
    ensures Inv(cfg, s)
  {
    StartOk(cfg);
    var steps :| Run(cfg, Start(cfg), steps, s);
    RunKeeps(cfg, Start(cfg), steps, s);
  }
}
