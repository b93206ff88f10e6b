/** The location index against the heartbeats it was built from. */
module Agreement {
  import opened Types
  import opened Sets
  import opened NodeSpec
  import opened ControllerSpec
  import opened Cluster
  import opened Safety
  import opened SafetySteps
  import opened StoreTheorems

  /** What the controller has been told and has not yet dealt with: the node is active and its last heartbeat listed
      the chunk, or it was declared dead and its failure is still to be handled for the chunk. */
  predicate Told(active: map<Addr, set<Key>>, expired: map<Addr, set<Key>>, a: Addr, k: Key) {
    (a in active && k in active[a]) || (a in expired && k in expired[a])
  }

  ghost predicate Agrees(index: Index, active: map<Addr, set<Key>>, expired: map<Addr, set<Key>>,
                         deleted: set<string>) {
    forall a, k: Key :: k.file !in deleted ==> (a in Holders(index, k) <==> Told(active, expired, a, k))
  }

  ghost predicate Stores(nodes: map<Addr, Node>, a: Addr, k: Key) { a in nodes && k in Listing(nodes[a]) }

  ghost predicate Reported(nodes: map<Addr, Node>, active: map<Addr, set<Key>>, expired: map<Addr, set<Key>>,
                           deleted: set<string>) {
    forall a, k :: Told(active, expired, a, k) && k.file !in deleted ==> Stores(nodes, a, k)
  }

  /** Everything in `small` is in `big`, but for chunks of deleted files. */
  ghost predicate Inside(small: set<Key>, big: set<Key>, deleted: set<string>) {
    forall k: Key :: k in small && k.file !in deleted ==> k in big
  }

  /** The heartbeats of one node on their way: each lists no more than the next one, and none more than the disk. */
  ghost predicate Ascending(beats: seq<set<Key>>, listing: set<Key>, deleted: set<string>) {
    && (forall i :: 0 <= i < |beats| ==> Inside(beats[i], listing, deleted))
    && (forall i, j :: 0 <= i < j < |beats| ==> Inside(beats[i], beats[j], deleted))
  }

  ghost predicate Precedes(files: set<Key>, beats: seq<set<Key>>, deleted: set<string>) {
    forall i :: 0 <= i < |beats| ==> Inside(files, beats[i], deleted)
  }

  ghost predicate ChainOk(nodes: map<Addr, Node>, active: map<Addr, set<Key>>, beats: map<Addr, seq<set<Key>>>,
                          deleted: set<string>, a: Addr)
    requires a in beats
  {
    a in nodes && Ascending(beats[a], Listing(nodes[a]), deleted)
      && (a in active ==> Precedes(active[a], beats[a], deleted))
  }

  /** A node's reports only grow, and never list more than its disk. */
  ghost predicate Grows(nodes: map<Addr, Node>, active: map<Addr, set<Key>>, expired: map<Addr, set<Key>>,
                        beats: map<Addr, seq<set<Key>>>, deleted: set<string>) {
    Reported(nodes, active, expired, deleted) && forall a :: a in beats ==> ChainOk(nodes, active, beats, deleted, a)
  }

  ghost predicate AgreeInv(s: State) {
    Agrees(s.index, s.active, s.expired, s.h.deleted) && Grows(s.nodes, s.active, s.expired, s.beats, s.h.deleted)
  }

  // ----- disks only lose chunks of deleted files -----

  lemma ListingGrows(cfg: Config, h: History, n: Node, m: ChunkMsg, reach: set<Addr>)
    requires MsgOk(cfg, h, m) && NodeOk(cfg, h, m.receiver, n)
    ensures Inside(Listing(n), Listing(Handle(SiteOf(cfg, m.receiver), n, m, reach).node), h.deleted)
  {
    var n' := Handle(SiteOf(cfg, m.receiver), n, m, reach).node;
    forall k | k in Listing(n) && k.file !in h.deleted ensures k in Listing(n') {
      var c :| c in n.meta && k == Key(n.meta[c].file, c);
      assert c in n'.meta && Key(n'.meta[c].file, c) == k;
    }
  }

  lemma NodeGains(nodes: map<Addr, Node>, active: map<Addr, set<Key>>, expired: map<Addr, set<Key>>,
                  beats: map<Addr, seq<set<Key>>>, deleted: set<string>, a: Addr, n: Node)
    requires Grows(nodes, active, expired, beats, deleted) && a in nodes
             && Inside(Listing(nodes[a]), Listing(n), deleted)
    ensures Grows(nodes[a := n], active, expired, beats, deleted)
  {
    var nodes' := nodes[a := n];
    forall b, k | Told(active, expired, b, k) && k.file !in deleted ensures Stores(nodes', b, k) {
      assert Stores(nodes, b, k);
    }
    forall b | b in beats ensures ChainOk(nodes', active, beats, deleted, b) {
      assert ChainOk(nodes, active, beats, deleted, b);
      if b == a { StillAscending(beats[a], Listing(nodes[a]), Listing(n), deleted); }
    }
  }

  lemma StillAscending(beats: seq<set<Key>>, listing: set<Key>, listing': set<Key>, deleted: set<string>)
    requires Ascending(beats, listing, deleted) && Inside(listing, listing', deleted)
    ensures Ascending(beats, listing', deleted)
  {
    forall i | 0 <= i < |beats| ensures Inside(beats[i], listing', deleted) {
      assert Inside(beats[i], listing, deleted);
    }
  }

  /** More deleted files leave less to agree on. */
  lemma MoreDeleted(index: Index, nodes: map<Addr, Node>, active: map<Addr, set<Key>>, expired: map<Addr, set<Key>>,
                    beats: map<Addr, seq<set<Key>>>, deleted: set<string>, file: string)
    requires Agrees(index, active, expired, deleted) && Grows(nodes, active, expired, beats, deleted)
    ensures Agrees(index, active, expired, deleted + {file}) && Grows(nodes, active, expired, beats, deleted + {file})
  {
    forall a | a in beats ensures ChainOk(nodes, active, beats, deleted + {file}, a) {
      assert ChainOk(nodes, active, beats, deleted, a);
      LessToAscend(beats[a], Listing(nodes[a]), deleted, file);
      if a in active {
        forall i | 0 <= i < |beats[a]| ensures Inside(active[a], beats[a][i], deleted + {file}) {
          assert Inside(active[a], beats[a][i], deleted);
        }
      }
    }
  }

  lemma LessToAscend(beats: seq<set<Key>>, listing: set<Key>, deleted: set<string>, file: string)
    requires Ascending(beats, listing, deleted)
    ensures Ascending(beats, listing, deleted + {file})
  {
    forall i | 0 <= i < |beats| ensures Inside(beats[i], listing, deleted + {file}) {
      assert Inside(beats[i], listing, deleted);
    }
    forall i, j | 0 <= i < j < |beats| ensures Inside(beats[i], beats[j], deleted + {file}) {
      assert Inside(beats[i], beats[j], deleted);
    }
  }

  // ----- the steps -----

  lemma BeatAgrees(nodes: map<Addr, Node>, active: map<Addr, set<Key>>, expired: map<Addr, set<Key>>,
                   beats: map<Addr, seq<set<Key>>>, deleted: set<string>, a: Addr)
    requires Grows(nodes, active, expired, beats, deleted) && a in nodes && a in beats
    ensures Grows(nodes, active, expired, beats[a := beats[a] + [Listing(nodes[a])]], deleted)
  {
    var listing := Listing(nodes[a]);
    var beats' := beats[a := beats[a] + [listing]];
    forall b | b in beats' ensures ChainOk(nodes, active, beats', deleted, b) {
      assert ChainOk(nodes, active, beats, deleted, b);
      if b == a {
        assert Ascending(beats'[a], listing, deleted);
        if a in active {
          assert Inside(active[a], listing, deleted) by {
            forall k | k in active[a] && k.file !in deleted ensures k in listing {
              assert Told(active, expired, a, k);
              assert Stores(nodes, a, k);
            }
          }
          assert Precedes(active[a], beats'[a], deleted);
        }
      }
    }
  }

  lemma ReportAgrees(index: Index, active: map<Addr, set<Key>>, expired: map<Addr, set<Key>>, deleted: set<string>,
                     a: Addr, files: set<Key>)
    requires Agrees(index, active, expired, deleted) && a !in expired
             && (a in active ==> Inside(active[a], files, deleted))
    ensures Agrees(Report(index, a, files), active[a := files], expired, deleted)
  {
    forall b, k: Key | k.file !in deleted
      ensures b in Holders(Report(index, a, files), k) <==> Told(active[a := files], expired, b, k)
    {
      assert b in Holders(index, k) <==> Told(active, expired, b, k);
    }
  }

  lemma BeatTakenGrows(nodes: map<Addr, Node>, active: map<Addr, set<Key>>, expired: map<Addr, set<Key>>,
                       beats: map<Addr, seq<set<Key>>>, deleted: set<string>, a: Addr)
    requires Grows(nodes, active, expired, beats, deleted) && a in beats && beats[a] != []
    ensures Grows(nodes, active[a := beats[a][0]], expired, beats[a := beats[a][1..]], deleted)
    ensures a in active ==> Inside(active[a], beats[a][0], deleted)
  {
    var files := beats[a][0];
    var active', beats' := active[a := files], beats[a := beats[a][1..]];
    assert ChainOk(nodes, active, beats, deleted, a);
    forall b | b in beats' ensures ChainOk(nodes, active', beats', deleted, b) {
      assert ChainOk(nodes, active, beats, deleted, b);
      if b == a {
        assert Ascending(beats'[a], Listing(nodes[a]), deleted);
        assert Precedes(files, beats'[a], deleted);
      }
    }
    forall b, k | Told(active', expired, b, k) && k.file !in deleted ensures Stores(nodes, b, k) {
      if b == a && k in files {
        assert Inside(files, Listing(nodes[a]), deleted);
      } else {
        assert Told(active, expired, b, k);
      }
    }
  }

  lemma FewerTold(nodes: map<Addr, Node>, active: map<Addr, set<Key>>, expired: map<Addr, set<Key>>,
                  active': map<Addr, set<Key>>, expired': map<Addr, set<Key>>, beats: map<Addr, seq<set<Key>>>,
                    deleted: set<string>)
    requires Grows(nodes, active, expired, beats, deleted)
    requires forall a, k :: Told(active', expired', a, k) ==> Told(active, expired, a, k)
    requires forall a :: a in active' ==> a in active && active'[a] == active[a]
    ensures Grows(nodes, active', expired', beats, deleted)
  {
    forall a | a in beats ensures ChainOk(nodes, active', beats, deleted, a) {
      assert ChainOk(nodes, active, beats, deleted, a);
    }
  }

  lemma ExpireAgrees(index: Index, nodes: map<Addr, Node>, active: map<Addr, set<Key>>, expired: map<Addr, set<Key>>,
                     beats: map<Addr, seq<set<Key>>>, deleted: set<string>, a: Addr)
    requires Agrees(index, active, expired, deleted) && Grows(nodes, active, expired, beats, deleted) && a in active
             && a !in expired
    ensures Agrees(index, active - {a}, expired[a := active[a]], deleted)
    ensures Grows(nodes, active - {a}, expired[a := active[a]], beats, deleted)
  {
    forall b, k ensures Told(active - {a}, expired[a := active[a]], b, k) <==> Told(active, expired, b, k) {}
    FewerTold(nodes, active, expired, active - {a}, expired[a := active[a]], beats, deleted);
  }

  lemma ReplaceAgrees(index: Index, nodes: map<Addr, Node>, active: map<Addr, set<Key>>, expired: map<Addr, set<Key>>,
                      beats: map<Addr, seq<set<Key>>>, deleted: set<string>, failed: Addr, k: Key)
    requires Agrees(index, active, expired, deleted) && Grows(nodes, active, expired, beats, deleted)
    requires failed in expired && failed !in active
    ensures Agrees(RemoveHolder(index, k, failed), active, expired[failed := expired[failed] - {k}], deleted)
    ensures Grows(nodes, active, expired[failed := expired[failed] - {k}], beats, deleted)
  {
    var expired' := expired[failed := expired[failed] - {k}];
    forall b, l ensures Told(active, expired', b, l) <==> Told(active, expired, b, l) && (b, l) != (failed, k) {}
    forall b, l ensures b in Holders(RemoveHolder(index, k, failed), l)
      <==> b in Holders(index, l) && (b, l) != (failed, k) {}
    FewerTold(nodes, active, expired, active, expired', beats, deleted);
  }

  lemma ForgetAgrees(index: Index, active: map<Addr, set<Key>>, expired: map<Addr, set<Key>>, deleted: set<string>,
                     file: string)
    requires Agrees(index, active, expired, deleted) && file in deleted
    ensures Agrees(ForgetFile(index, file), active, expired, deleted)
  {
    forall b, k: Key | k.file !in deleted ensures b in Holders(ForgetFile(index, file), k)
      <==> b in Holders(index, k) {}
  }

  lemma NothingTold(nodes: map<Addr, Node>, active: map<Addr, set<Key>>, expired: map<Addr, set<Key>>,
                    beats: map<Addr, seq<set<Key>>>, deleted: set<string>)
    requires Grows(nodes, active, expired, beats, deleted)
    ensures Agrees(map[], map[], map[], deleted) && Grows(nodes, map[], map[], beats, deleted)
  {
    FewerTold(nodes, active, expired, map[], map[], beats, deleted);
  }

  lemma DeliverAgrees(cfg: Config, s: State, id: nat, reach: set<Addr>)
    requires Inv(cfg, s) && AgreeInv(s) && CanDeliver(cfg, s, id)
    ensures AgreeInv(AfterDeliver(cfg, s, id, reach))
  {
    var m := s.items[id].msg;
    assert ItemOk(cfg, s.h, s.items[id]);
    assert NodeOk(cfg, s.h, m.receiver, s.nodes[m.receiver]);
    ListingGrows(cfg, s.h, s.nodes[m.receiver], m, reach);
    NodeGains(s.nodes, s.active, s.expired, s.beats, s.h.deleted, m.receiver,
              Handle(SiteOf(cfg, m.receiver), s.nodes[m.receiver], m, reach).node);
  }

  lemma DeleteAgrees(cfg: Config, s: State, client: Addr, file: string, table: seq<Location>, reach: set<Addr>)
    requires AgreeInv(s) && CanDelete(cfg, s, client, file, table)
    ensures AgreeInv(AfterDelete(cfg, s, client, file, table, reach))
  {
    var deleted := s.h.deleted + {file};
    MoreDeleted(s.index, s.nodes, s.active, s.expired, s.beats, s.h.deleted, file);
    ForgetAgrees(s.index, s.active, s.expired, deleted, file);
    NothingTold(s.nodes, s.active, s.expired, s.beats, deleted);
  }

  predicate LeavesReports(step: Step) {
    !(step.Deliver? || step.Corrupt? || step.Beat? || step.TakeBeat? || step.Expire? || step.ReplaceFailed?
      || step.DeleteFile? || step.Restart?)
  }

  lemma ReportsUntouched(cfg: Config, s: State, step: Step)
    requires Enabled(cfg, s, step) && LeavesReports(step)
    ensures var t := Next(cfg, s, step);
            t.nodes == s.nodes && t.index == s.index && t.active == s.active && t.expired == s.expired
            && t.beats == s.beats && t.h.deleted == s.h.deleted
  {}

  lemma CorruptAgrees(s: State, a: Addr, chunk: string, bytes: Bytes)
    requires AgreeInv(s) && CanCorrupt(s, a, chunk)
    ensures AgreeInv(AfterCorrupt(s, a, chunk, bytes))
  {
    NodeGains(s.nodes, s.active, s.expired, s.beats, s.h.deleted, a, AfterCorrupt(s, a, chunk, bytes).nodes[a]);
  }

  lemma BeatStepAgrees(s: State, a: Addr)
    requires AgreeInv(s) && CanBeat(s, a)
    ensures AgreeInv(AfterBeat(s, a))
  {
    BeatAgrees(s.nodes, s.active, s.expired, s.beats, s.h.deleted, a);
  }

  lemma TakeBeatAgrees(cfg: Config, s: State, a: Addr)
    requires Inv(cfg, s) && AgreeInv(s) && CanTakeBeat(s, a)
    ensures AgreeInv(AfterTakeBeat(s, a))
  {
    BeatTakenGrows(s.nodes, s.active, s.expired, s.beats, s.h.deleted, a);
    ReportAgrees(s.index, s.active, s.expired, s.h.deleted, a, s.beats[a][0]);
  }

  lemma DeathAgrees(cfg: Config, s: State, step: Step)
    requires Inv(cfg, s) && AgreeInv(s) && Enabled(cfg, s, step)
    requires step.Expire? || step.ReplaceFailed?
    ensures AgreeInv(Next(cfg, s, step))
  {
    match step
    case Expire(a) => ExpireAgrees(s.index, s.nodes, s.active, s.expired, s.beats, s.h.deleted, a);
    case ReplaceFailed(failed, k, _, _, _) =>
      ReplaceAgrees(s.index, s.nodes, s.active, s.expired, s.beats, s.h.deleted, failed, k);
  }

  lemma ReportStepAgrees(cfg: Config, s: State, step: Step)
    requires Inv(cfg, s) && AgreeInv(s) && Enabled(cfg, s, step)
    requires step.Corrupt? || step.Beat? || step.TakeBeat?
    ensures AgreeInv(Next(cfg, s, step))
  {
    match step
    case Corrupt(a, chunk, bytes) => CorruptAgrees(s, a, chunk, bytes);
    case Beat(a) => BeatStepAgrees(s, a);
    case TakeBeat(a) => TakeBeatAgrees(cfg, s, a);
  }

  lemma ForgettingAgrees(cfg: Config, s: State, step: Step)
    requires AgreeInv(s) && Enabled(cfg, s, step) && (step.DeleteFile? || step.Restart?)
    ensures AgreeInv(Next(cfg, s, step))
  {
    match step
    case DeleteFile(client, file, table, reach) => DeleteAgrees(cfg, s, client, file, table, reach);
    case Restart => NothingTold(s.nodes, s.active, s.expired, s.beats, s.h.deleted);
  }

  lemma StepAgrees(cfg: Config, s: State, step: Step)
    requires Inv(cfg, s) && AgreeInv(s) && Enabled(cfg, s, step)
    ensures AgreeInv(Next(cfg, s, step))
  {
    if LeavesReports(step) {
      ReportsUntouched(cfg, s, step);
    } else if step.Deliver? {
      DeliverAgrees(cfg, s, step.id, step.reach);
    } else if step.DeleteFile? || step.Restart? {
      ForgettingAgrees(cfg, s, step);
    } else if step.Expire? || step.ReplaceFailed? {
      DeathAgrees(cfg, s, step);
    } else {
      ReportStepAgrees(cfg, s, step);
    }
  }

  lemma {:induction false} RunAgrees(cfg: Config, s: State, steps: seq<Step>, t: State)
    requires ConfigOk(cfg) && Inv(cfg, s) && AgreeInv(s) && Run(cfg, s, steps, t)
    ensures Inv(cfg, t) && AgreeInv(t)
    decreases |steps|
  {
    if steps != [] {
      StepKeeps(cfg, s, steps[0]);
      StepAgrees(cfg, s, steps[0]);
      RunAgrees(cfg, Next(cfg, s, steps[0]), steps[1..], t);
    }
  }

  /** Unless its file is deleted, a node is indexed for a chunk exactly when it is active and its last heartbeat
      listed the chunk, or was declared dead with that failure still unhandled; and every indexed node stores the
      chunk. */
  lemma IndexAgreesWithReports(cfg: Config, s: State, a: Addr, k: Key)
    requires ConfigOk(cfg) && Reachable(cfg, s) && k.file !in s.h.deleted
    ensures a in Holders(s.index, k) <==> Told(s.active, s.expired, a, k)
    ensures a in Holders(s.index, k) ==>
              a in s.nodes && k.chunk in s.nodes[a].data && k.chunk in s.nodes[a].meta
                && s.nodes[a].meta[k.chunk].file == k.file
  {
    var steps :| Run(cfg, Start(cfg), steps, s);
    StartOk(cfg);
    RunAgrees(cfg, Start(cfg), steps, s);
    if a in Holders(s.index, k) {
      assert Stores(s.nodes, a, k);
      assert NodeOk(cfg, s.h, a, s.nodes[a]);
    }
  }

  /** Unless the file is deleted, every node a location table lists for a chunk stores that chunk, with the checksum
      of what the writer cut, and its bytes too unless they were corrupted since they were last written. */
  lemma TableRowsStored(cfg: Config, s: State, file: string, table: seq<Location>, i: nat, j: nat)
    requires ConfigOk(cfg) && Reachable(cfg, s) && file !in s.h.deleted && Lists(table, s.index, file)
    requires i < |table| && j < |table[i].replicas|
    ensures var c, a := table[i].chunk, table[i].replicas[j];
            && a in s.nodes && c in s.nodes[a].data && c in s.nodes[a].meta && s.nodes[a].meta[c].file == file
            && exists cut :: IsCut(s.h, file, c, cut) && s.nodes[a].meta[c].checksum == cfg.hash(cut)
                             && ((a, c) !in s.tainted ==> s.nodes[a].data[c] == cut)
  {
    var c, a := table[i].chunk, table[i].replicas[j];
    EnumeratedIn(table[i].replicas, s.index[Key(file, c)], j);
    IndexAgreesWithReports(cfg, s, a, Key(file, c));
    StoredCopies(cfg, s, a, c);
  }

  /** A table row is empty exactly when no active node last reported the chunk and no unhandled failure lists it. */
  lemma EmptyRowExactly(cfg: Config, s: State, file: string, table: seq<Location>, i: nat)
    requires ConfigOk(cfg) && Reachable(cfg, s) && file !in s.h.deleted && Lists(table, s.index, file) && i < |table|
    ensures table[i].replicas == [] <==> forall a :: !Told(s.active, s.expired, a, Key(file, table[i].chunk))
  {
    var k := Key(file, table[i].chunk);
    forall a ensures a in table[i].replicas <==> Told(s.active, s.expired, a, k) {
      IndexAgreesWithReports(cfg, s, a, k);
      assert a in table[i].replicas <==> a in set x | x in table[i].replicas;
    }
    if table[i].replicas != [] { assert Told(s.active, s.expired, table[i].replicas[0], k); }
    if a :| Told(s.active, s.expired, a, k) { assert a in table[i].replicas; }
  }
}
