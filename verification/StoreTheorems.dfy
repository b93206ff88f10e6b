/** What the safety invariant means for the users of the store, in every reachable state. */
module StoreTheorems {
  import opened Types
  import opened Sets
  import opened Records
  import opened Chunking
  import opened Placement
  import opened NodeSpec
  import opened ControllerSpec
  import opened Cluster
  import opened Safety
  import opened SafetySteps

  // ----- read integrity -----

  /** The bytes the writer of `file` cut for the chunk called `chunk`. */
  ghost predicate IsCut(h: History, file: string, chunk: string, bytes: Bytes) {
    file in h.files
    && exists i :: 0 <= i < |h.files[file].parts| && chunk == ChunkName(file, i) && bytes == h.files[file].parts[i]
  }

  /** Every message that carries a chunk, to a reader, to a node under repair or to a replica, carries exactly the
      bytes the writer cut for it and their checksum, however stored copies were corrupted on the way. */
  lemma ReadIntegrity(cfg: Config, s: State, id: nat)
    requires ConfigOk(cfg) && Reachable(cfg, s)
    requires id in s.items && s.items[id].Flight? && s.items[id].msg.kind == Write
    ensures var m := s.items[id].msg;
            IsCut(s.h, m.file, m.chunk, m.data) && m.size == |m.data| && m.checksum == cfg.hash(m.data)
  {
    ReachableOk(cfg, s);
    var m := s.items[id].msg;
    assert ItemOk(cfg, s.h, s.items[id]);
    assert ComesFrom(s.h, m.chunk);
  }

  /** A stored copy differs from what the writer cut only if it was corrupted since it was last written, and even
      then its recorded checksum is the right one. */
  lemma StoredCopies(cfg: Config, s: State, a: Addr, c: string)
    requires ConfigOk(cfg) && Reachable(cfg, s) && a in s.nodes && c in s.nodes[a].data
    ensures c in s.nodes[a].meta
    ensures exists cut :: IsCut(s.h, s.nodes[a].meta[c].file, c, cut) && s.nodes[a].meta[c].checksum == cfg.hash(cut)
                          && ((a, c) !in s.tainted ==> s.nodes[a].data[c] == cut)
  {
    ReachableOk(cfg, s);
    assert NodeOk(cfg, s.h, a, s.nodes[a]);
    assert ComesFrom(s.h, c);
    var cut := s.h.origin[c].bytes;
    assert IsCut(s.h, s.nodes[a].meta[c].file, c, cut);
  }

  // ----- the replica bound -----

  function HoldersOf(s: State, c: string): set<Addr> { set a | a in s.nodes && c in s.nodes[a].meta }

  /** The nodes the work under way may still make hold the chunk. */
  predicate Aims(item: Item, c: string, a: Addr) {
    item.msg.chunk == c &&
    (a in item.msg.replicas ||
     match item
     case Repair(_, original, _) => a == original
     case Flight(m) => (m.kind != Read && a == m.receiver) || (m.kind == Read && a == m.sender))
  }

  ghost function TargetsOf(cfg: Config, s: State, c: string): set<Addr> {
    set a | a in cfg.nodes && exists id :: id in s.items && Aims(s.items[id], c, a)
  }

  lemma TargetIsPlaced(cfg: Config, h: History, item: Item, c: string, a: Addr)
    requires ConfigOk(cfg) && ItemOk(cfg, h, item) && Aims(item, c, a) && a in cfg.nodes
    ensures Placed(h, c, a)
  {
    if a in item.msg.replicas {
      var i :| 0 <= i < |item.msg.replicas| && item.msg.replicas[i] == a;
      assert Placed(h, c, item.msg.replicas[i]);
    }
  }

  lemma InvolvedArePlaced(cfg: Config, s: State, c: string)
    requires ConfigOk(cfg) && StoreOk(cfg, s) && c in s.h.placed
    ensures HoldersOf(s, c) + TargetsOf(cfg, s, c) <= s.h.placed[c]
  {
    forall a | a in HoldersOf(s, c) ensures a in s.h.placed[c] {
      assert NodeOk(cfg, s.h, a, s.nodes[a]);
      assert Placed(s.h, c, a);
    }
    forall a | a in TargetsOf(cfg, s, c) ensures a in s.h.placed[c] {
      var id :| id in s.items && Aims(s.items[id], c, a);
      TargetIsPlaced(cfg, s.h, s.items[id], c, a);
      assert Placed(s.h, c, a);
    }
  }

  /** Leaving out the nodes whose failure was handled for the chunk, at most three nodes hold it or are about to. */
  lemma ReplicaBound(cfg: Config, s: State, c: string)
    requires ConfigOk(cfg) && Reachable(cfg, s) && c in s.h.origin
    ensures c in s.gone && s.gone[c] <= s.former
    ensures |HoldersOf(s, c) + TargetsOf(cfg, s, c) - s.gone[c]| <= MAX_REPLICAS
    ensures |HoldersOf(s, c) - s.former| <= MAX_REPLICAS
  {
    ReachableOk(cfg, s);
    InvolvedArePlaced(cfg, s, c);
    var live := Live(s.h, s.gone, c);
    assert |live| <= MAX_REPLICAS;
    SubsetSize(HoldersOf(s, c) + TargetsOf(cfg, s, c) - s.gone[c], live);
    SubsetSize(HoldersOf(s, c) - s.former, live);
  }

  lemma ActiveAreNotFormer(cfg: Config, s: State, failed: Addr, k: Key)
    requires ConfigOk(cfg) && Reachable(cfg, s) && failed in s.expired && k in s.expired[failed]
    ensures |Survivors(s, failed, k)| < MAX_REPLICAS
    ensures failed in s.former && forall a :: a in s.active ==> a !in s.former
  {
    ReachableOk(cfg, s);
    FewSurvivors(cfg, s, failed, k);
  }

  /** Every replacement the controller starts with three nodes active has at most two survivors, so it never
      leaves the loop empty-handed, finds an active node without a copy, and can always still be finished. */
  lemma ReplacementAlwaysWorks(cfg: Config, s: State, failed: Addr, k: Key, picks: seq<Addr>) returns (more: seq<Addr>)
    requires ConfigOk(cfg) && Reachable(cfg, s)
    requires failed in s.expired && k in s.expired[failed] && |s.active| >= MAX_REPLICAS && Drawn(picks, s.active.Keys)
    ensures |Survivors(s, failed, k)| < MAX_REPLICAS
    ensures match Replacement(s.active.Keys, failed, Survivors(s, failed, k), picks)
            case Chosen(n) => n in s.active && n !in s.former && n !in Survivors(s, failed, k)
            case Blank => false
            case Running => Drawn(more, s.active.Keys) && |more| <= MAX_REPLICAS
                            && Replacement(s.active.Keys, failed, Survivors(s, failed, k), picks + more).Chosen?
  {
    ActiveAreNotFormer(cfg, s, failed, k);
    assert s.active.Keys - {failed} == s.active.Keys;
    assert |s.active.Keys| == |s.active|;
    more := ReplacementChoice(s.active.Keys, failed, Survivors(s, failed, k), picks);
  }

  // ----- the location table -----

  function TableChunks(table: seq<Location>): set<string> { set i | 0 <= i < |table| :: table[i].chunk }

  lemma {:induction false} TableSize(table: seq<Location>)
    requires forall i, j :: 0 <= i < j < |table| ==> table[i].chunk != table[j].chunk
    ensures |TableChunks(table)| == |table|
  {
    if table != [] {
      var last := |table| - 1;
      TableSize(table[..last]);
      assert TableChunks(table) == TableChunks(table[..last]) + {table[last].chunk};
      assert table[last].chunk !in TableChunks(table[..last]);
    }
  }

  /** Filling the location table of a file stays within its chunk count, and a full table lists every chunk of the
      file exactly once. */
  lemma TableInBounds(cfg: Config, s: State, file: string, table: seq<Location>)
    requires ConfigOk(cfg) && Reachable(cfg, s) && file in s.h.files && Lists(table, s.index, file)
    ensures var n := |s.h.files[file].parts|;
            && TableChunks(table) <= Names(file, n)
            && |table| <= n
            && (|table| == n ==> TableChunks(table) == Names(file, n))
  {
    ReachableOk(cfg, s);
    var n := |s.h.files[file].parts|;
    forall c | c in TableChunks(table) ensures c in Names(file, n) {
      var i :| 0 <= i < |table| && table[i].chunk == c;
      assert Known(s.h, file, c);
      assert ComesFrom(s.h, c);
    }
    TableSize(table);
    NamesSize(file, n);
    SubsetSize(TableChunks(table), Names(file, n));
    if |table| == n { SameSizeSubset(TableChunks(table), Names(file, n)); }
  }
}
