/** The controller's node table and location index as they run: a table of nodes, maps nested by file and chunk whose
    innermost maps are shared by reference, and the directory of location records, one a file. Every operation is
    proved to do what its function in ControllerSpec, Placement or Cluster says. */
module Controller {
  import opened Types
  import opened NodeSpec
  import opened ControllerSpec
  import opened Placement
  import opened Cluster
  import opened ChunkRecords
  import opened Sets
  import opened Wire

  /** The nodes that hold one chunk, each with the path it keeps it under. Whoever looks one up changes the index with
      it. */
  class HolderMap {
    var paths: map<Addr, string>

    constructor ()
      ensures paths == map[]
    {
      paths := map[];
    }
  }

  type Nested = map<string, map<string, HolderMap>>

  /** The nested maps say the same about a chunk as the flat map. */
  ghost predicate FlatAt(nested: Nested, cells: map<Key, HolderMap>, k: Key) {
    && (k in cells <==> k.file in nested && k.chunk in nested[k.file])
    && (k in cells ==> nested[k.file][k.chunk] == cells[k])
  }

  ghost predicate Flat(nested: Nested, cells: map<Key, HolderMap>) {
    forall k {:trigger FlatAt(nested, cells, k)} :: FlatAt(nested, cells, k)
  }

  /** A file is entered together with its first chunk. */
  ghost predicate NoneEmpty(nested: Nested) {
    forall file {:trigger nested[file]} :: file in nested ==> nested[file] != map[]
  }

  /** Some file cannot have its location record created. */
  ghost predicate Refused(files: set<string>, creatable: string -> bool) {
    exists file :: file in files && !creatable(file)
  }

  /** The location records after those of `files` have been written, or some of them when one is refused. */
  ghost predicate RecordsGrow(was: set<string>, located: set<string>, files: set<string>, crashed: bool) {
    was <= located <= was + files && (!crashed ==> located == was + files)
  }

  function FilesOf(index: Index): set<string> { set k | k in index :: k.file }

  /** The files of the index once a heartbeat has been taken in. */
  function FilesAfter(index: Index, addr: Addr, files: seq<Entry>): set<string> {
    FilesOf(Report(index, addr, Keys(files)))
  }

  lemma FlatFiles(nested: Nested, cells: map<Key, HolderMap>)
    requires Flat(nested, cells) && NoneEmpty(nested)
    ensures nested.Keys == set k | k in cells :: k.file
  {
    forall file | file in nested ensures exists k :: k in cells && k.file == file {
      var chunk :| chunk in nested[file];
      assert FlatAt(nested, cells, Key(file, chunk));
    }
    forall k | k in cells ensures k.file in nested { assert FlatAt(nested, cells, k); }
  }

  /** No two chunks share a holder map. */
  ghost predicate Separate(cells: map<Key, HolderMap>, repr: set<HolderMap>) {
    && (forall k {:trigger cells[k]} :: k in cells ==> cells[k] in repr)
    && (forall k, l {:trigger Apart(cells, k, l)} :: Apart(cells, k, l))
  }

  ghost predicate Apart(cells: map<Key, HolderMap>, k: Key, l: Key) {
    k in cells && l in cells && cells[k] == cells[l] ==> k == l
  }

  lemma Unchanged(index: Index, k: Key)
    requires k in index
    ensures index[k := index[k]] == index
  {}

  lemma Overwritten(index: Index, k: Key, once: set<Addr>, twice: set<Addr>)
    ensures index[k := once][k := twice] == index[k := twice]
  {}

  function Chunks(nested: Nested, file: string): map<string, HolderMap> {
    if file in nested then nested[file] else map[]
  }

  /** The nested maps with one more holder map, and with a map for its file if there was none. */
  function Entered(nested: Nested, file: string, chunk: string, holders: HolderMap): Nested {
    nested[file := Chunks(nested, file)[chunk := holders]]
  }

  lemma EnteredIsFlat(nested: Nested, cells: map<Key, HolderMap>, k: Key, holders: HolderMap)
    requires Flat(nested, cells) && NoneEmpty(nested)
    ensures Flat(Entered(nested, k.file, k.chunk, holders), cells[k := holders])
    ensures NoneEmpty(Entered(nested, k.file, k.chunk, holders))
  {
    var nested', cells' := Entered(nested, k.file, k.chunk, holders), cells[k := holders];
    assert k.chunk in nested'[k.file];
    forall j ensures FlatAt(nested', cells', j) { assert FlatAt(nested, cells, j); }
  }

  ghost function Kept(cells: map<Key, HolderMap>, file: string): map<Key, HolderMap> {
    map k | k in cells && k.file != file :: cells[k]
  }

  lemma FlatForgets(nested: Nested, cells: map<Key, HolderMap>, file: string)
    requires Flat(nested, cells)
    ensures Flat(nested - {file}, Kept(cells, file))
  {
    forall k ensures FlatAt(nested - {file}, Kept(cells, file), k) { assert FlatAt(nested, cells, k); }
  }

  lemma SeparateAdds(cells: map<Key, HolderMap>, repr: set<HolderMap>, k: Key, holders: HolderMap)
    requires Separate(cells, repr) && holders !in repr
    ensures Separate(cells[k := holders], repr + {holders})
  {
    var cells' := cells[k := holders];
    forall i, j ensures Apart(cells', i, j) { assert Apart(cells, i, j); }
  }

  lemma SeparateKept(cells: map<Key, HolderMap>, repr: set<HolderMap>, file: string)
    requires Separate(cells, repr)
    ensures Separate(Kept(cells, file), repr)
  {
    forall i, j ensures Apart(Kept(cells, file), i, j) { assert Apart(cells, i, j); }
  }

  function Rows(chunks: seq<string>, orders: map<string, seq<Addr>>): seq<Location>
    requires forall c :: c in chunks ==> c in orders
  {
    seq(|chunks|, i requires 0 <= i < |chunks| => Location(chunks[i], orders[chunks[i]]))
  }

  /** `chunks` and `orders` are orders in which the maps of one file and of its chunks are ranged over. */
  ghost predicate RangesOver(index: Index, file: string, chunks: seq<string>, orders: map<string, seq<Addr>>) {
    && Distinct(chunks)
    && (forall c :: c in chunks <==> Key(file, c) in index)
    && (forall c :: c in chunks ==> c in orders && Enumerates(orders[c], index[Key(file, c)]))
  }

  lemma RowsList(index: Index, file: string, chunks: seq<string>, orders: map<string, seq<Addr>>)
    requires RangesOver(index, file, chunks, orders)
    ensures Lists(Rows(chunks, orders), index, file)
  {
    var table := Rows(chunks, orders);
    assert forall i :: 0 <= i < |table| ==> chunks[i] in chunks;
    forall k | k in index && k.file == file ensures exists i :: 0 <= i < |table| && table[i].chunk == k.chunk {
      assert Key(file, k.chunk) == k;
      var i :| 0 <= i < |chunks| && chunks[i] == k.chunk;
      assert table[i].chunk == k.chunk;
    }
  }

  lemma ReportMore(index: Index, addr: Addr, files: set<Key>, k: Key)
    ensures var once := Report(index, addr, files);
            once[k := Holders(once, k) + {addr}] == Report(index, addr, files + {k})
  {
    var once, both := Report(index, addr, files), Report(index, addr, files + {k});
    assert once.Keys + {k} == both.Keys;
    forall j | j in both ensures once[k := Holders(once, k) + {addr}][j] == both[j] {}
  }

  lemma OneMoreKey(files: seq<Entry>, i: nat)
    requires i < |files|
    ensures files[..i + 1] == files[..i] + [files[i]]
    ensures Keys(files[..i + 1]) == Keys(files[..i]) + {KeyOf(files[i])}
  {}

  /** The part of an order without one address. */
  function Without(order: seq<Addr>, a: Addr): seq<Addr> {
    if order == [] then []
    else
      var last := |order| - 1;
      if order[last] == a then Without(order[..last], a) else Without(order[..last], a) + [order[last]]
  }

  lemma {:induction false} WithoutEnumerates(order: seq<Addr>, a: Addr)
    requires Distinct(order)
    ensures Distinct(Without(order, a)) && forall b :: b in Without(order, a) <==> b in order && b != a
  {
    if order != [] {
      var last := |order| - 1;
      WithoutEnumerates(order[..last], a);
      assert order == order[..last] + [order[last]];
      assert order[last] !in order[..last];
    }
  }

  lemma {:induction false} FirmAt(table: seq<Location>, i: nat)
    requires i <= |table| && AllHeld(table[..i]) && (i < |table| ==> table[i].replicas == [])
    ensures Firm(table) == i
  {
    if i > 0 {
      assert table[..i][0] == table[0];
      assert table[1..][..i - 1] == table[..i][1..];
      FirmAt(table[1..], i - 1);
    }
  }

  /** The node table as the protocol sees it: each active node with what its last heartbeat listed. */
  function LastListed(nodes: map<Addr, seq<Entry>>): map<Addr, set<Key>> { map a | a in nodes :: Keys(nodes[a]) }

  /** The protocol's index and node table are the controller's. */
  ghost predicate Mirrors(s: State, index: Index, nodes: map<Addr, seq<Entry>>) {
    s.index == index && s.active == LastListed(nodes)
  }

  ghost predicate NextBeat(s: State, addr: Addr, files: seq<Entry>) {
    CanTakeBeat(s, addr) && s.beats[addr][0] == Keys(files)
  }

  /** Taking in a heartbeat does to the index and the node table what the protocol's step does. */
  lemma TakesBeat(s: State, addr: Addr, nodes: map<Addr, seq<Entry>>, files: seq<Entry>)
    requires CanTakeBeat(s, addr) && s.active == LastListed(nodes) && s.beats[addr][0] == Keys(files)
    ensures var t := AfterTakeBeat(s, addr);
            t.index == Report(s.index, addr, Keys(files)) && t.active == LastListed(nodes[addr := files])
  {
    assert LastListed(nodes[addr := files]) == LastListed(nodes)[addr := Keys(files)];
  }

  /** The nodes of a list whose heartbeats are late, with what they last listed. */
  function LateAmong(nodes: map<Addr, seq<Entry>>, order: seq<Addr>, late: Addr -> bool): map<Addr, seq<Entry>> {
    map a | a in nodes && a in order && late(a) :: nodes[a]
  }

  lemma OneMoreLate(nodes: map<Addr, seq<Entry>>, order: seq<Addr>, i: nat, late: Addr -> bool)
    requires i < |order| && order[i] in nodes && order[i] !in order[..i]
    ensures var before, after := LateAmong(nodes, order[..i], late), LateAmong(nodes, order[..i + 1], late);
            && after == (if late(order[i]) then before[order[i] := nodes[order[i]]] else before)
            && nodes - after.Keys == (nodes - before.Keys) - if late(order[i]) then {order[i]} else {}
  {
    assert order[..i + 1] == order[..i] + [order[i]];
  }

  class Controller {
    const cfg: Config
    const net: Network
    var activeNodes: map<Addr, seq<Entry>>
    var fileChunkMap: Nested
    var located: set<string>   // the files with a location record on disk
    ghost var cells: map<Key, HolderMap>
    ghost var repr: set<HolderMap>

    ghost predicate Valid()
      reads this`fileChunkMap, this`cells, this`repr
    {
      Flat(fileChunkMap, cells) && NoneEmpty(fileChunkMap) && Separate(cells, repr)
    }

    ghost function Value(): Index
      requires Valid()
      reads this`fileChunkMap, this`cells, this`repr, repr
    {
      map k | k in cells :: cells[k].paths.Keys
    }

    constructor (cfg: Config, net: Network)
      ensures Valid() && Value() == map[] && activeNodes == map[] && located == {} && this.cfg == cfg && this.net == net
    {
      this.cfg, this.net := cfg, net;
      activeNodes, fileChunkMap, located, cells, repr := map[], map[], {}, map[], {};
    }

    // ----- heartbeats -----

    /** Changing one holder map changes one entry of the index. */
    twostate lemma OneChanged(k: Key)
      requires old(Valid()) && Valid() && k in cells && cells == old(cells) && repr == old(repr)
      requires forall h :: h in repr && h != cells[k] ==> unchanged(h)
      ensures Value() == old(Value())[k := cells[k].paths.Keys]
    {
      forall j | j in cells && j != k ensures cells[j].paths == old(cells[j].paths) {
        assert Apart(cells, j, k);
      }
    }

    twostate lemma OneAdded(k: Key, new holders: HolderMap)
      requires old(Valid()) && Valid() && k !in old(cells) && cells == old(cells)[k := holders]
               && holders.paths == map[]
      requires forall h :: h in old(repr) ==> unchanged(h)
      ensures Value() == old(Value())[k := {}]
    {
      forall j | j in old(cells) ensures cells[j] == old(cells)[j] && cells[j].paths == old(cells[j].paths) {}
      assert holders.paths.Keys == {};
      assert Value().Keys == old(Value()).Keys + {k};
    }

    /** The holder map of a chunk, made on first sight together with the map of its file. */
    method HoldersOf(file: string, chunk: string) returns (holders: HolderMap)
      requires Valid()
      modifies this`fileChunkMap, this`cells, this`repr
      ensures Valid() && Key(file, chunk) in cells && cells[Key(file, chunk)] == holders
      ensures fresh(repr - old(repr))
      ensures Value() == old(Value())[Key(file, chunk) := Holders(old(Value()), Key(file, chunk))]
    {
      var k := Key(file, chunk);
      assert FlatAt(fileChunkMap, cells, k);
      if file in fileChunkMap && chunk in fileChunkMap[file] {
        holders := fileChunkMap[file][chunk];
        Unchanged(Value(), k);
      } else {
        holders := EnterHolders(file, chunk);
      }
    }

    method EnterHolders(file: string, chunk: string) returns (holders: HolderMap)
      requires Valid() && Key(file, chunk) !in cells
      modifies this`fileChunkMap, this`cells, this`repr
      ensures Valid() && Key(file, chunk) in cells && cells[Key(file, chunk)] == holders && fresh(repr - old(repr))
      ensures Value() == old(Value())[Key(file, chunk) := {}]
    {
      holders := new HolderMap();
      Enter(file, chunk, holders);
    }

    method Enter(file: string, chunk: string, holders: HolderMap)
      requires Valid() && Key(file, chunk) !in cells && holders !in repr && holders.paths == map[]
      modifies this`fileChunkMap, this`cells, this`repr
      ensures Valid() && cells == old(cells)[Key(file, chunk) := holders] && repr == old(repr) + {holders}
      ensures Value() == old(Value())[Key(file, chunk) := {}]
    {
      var k := Key(file, chunk);
      EnteredIsFlat(fileChunkMap, cells, k, holders);
      SeparateAdds(cells, repr, k, holders);
      var nested := fileChunkMap;
      if file !in nested {
        nested := nested[file := map[]];
      }
      nested := nested[file := nested[file][chunk := holders]];
      assert nested == Entered(fileChunkMap, file, chunk, holders);
      fileChunkMap, cells, repr := nested, cells[k := holders], repr + {holders};
      OneAdded(k, holders);
    }

    method SaveEntry(addr: Addr, e: Entry)
      requires Valid()
      modifies this`fileChunkMap, this`cells, this`repr, repr
      ensures Valid() && Value() == old(Value())[KeyOf(e) := Holders(old(Value()), KeyOf(e)) + {addr}]
      ensures fresh(repr - old(repr))
    {
      var holders := HoldersOf(e.0, e.1);
      label found:
      assert Value()[KeyOf(e)] == holders.paths.Keys;
      holders.paths := holders.paths[addr := e.2];
      assert holders.paths.Keys == old@found(holders.paths.Keys) + {addr};
      OneChanged@found(KeyOf(e));
      Overwritten(old(Value()), KeyOf(e), Holders(old(Value()), KeyOf(e)), holders.paths.Keys);
    }

    /** One heartbeat: everything it lists is indexed under its sender, and nothing is removed. */
    method GetAndSaveChunkInfoToMemory(addr: Addr, files: seq<Entry>) returns (chunks: seq<Entry>)
      requires Valid()
      modifies this`fileChunkMap, this`cells, this`repr, repr
      ensures Valid() && Value() == Report(old(Value()), addr, Keys(files)) && chunks == files
      ensures fresh(repr - old(repr))
    {
      chunks := [];
      ghost var was := Value();
      ReportNothing(was, addr);
      for i := 0 to |files|
        invariant Valid() && chunks == files[..i] && fresh(repr - old(repr))
        invariant Value() == Report(was, addr, Keys(files[..i]))
      {
        ReportMore(was, addr, Keys(files[..i]), KeyOf(files[i]));
        OneMoreKey(files, i);
        chunks := chunks + [files[i]];
        SaveEntry(addr, files[i]);
      }
      assert files[..|files|] == files;
    }

    lemma IndexedFiles()
      requires Valid()
      ensures fileChunkMap.Keys == FilesOf(Value())
    {
      FlatFiles(fileChunkMap, cells);
    }

    /** A location record for every file of the index; `order` is how the outer map is ranged over. A name the directory
        cannot hold is fatal. */
    method SaveChunkFileInfoToDisk(order: seq<string>, creatable: string -> bool) returns (crashed: bool)
      requires Enumerates(order, fileChunkMap.Keys)
      modifies this`located
      ensures crashed == Refused(fileChunkMap.Keys, creatable)
      ensures RecordsGrow(old(located), located, fileChunkMap.Keys, crashed)
    {
      EnumeratesAll(order, fileChunkMap.Keys);
      for i := 0 to |order|
        invariant located == old(located) + set file | file in order[..i]
        invariant forall file :: file in order[..i] ==> creatable(file)
      {
        assert order[..i + 1] == order[..i] + [order[i]];
        assert order[i] in order;
        if !creatable(order[i]) {
          return true;
        }
        located := located + {order[i]};
      }
      assert order[..|order|] == order;
      crashed := false;
    }

    /** What follows once the index has grown: the location records, and then the node table. */
    method SaveInfo(addr: Addr, chunks: seq<Entry>, order: seq<string>, creatable: string -> bool)
      returns (crashed: bool)
      requires Valid() && Enumerates(order, fileChunkMap.Keys)
      modifies this`located, this`activeNodes
      ensures Valid() && Value() == old(Value())
      ensures crashed == Refused(fileChunkMap.Keys, creatable)
      ensures RecordsGrow(old(located), located, fileChunkMap.Keys, crashed)
      ensures activeNodes == if crashed then old(activeNodes) else old(activeNodes)[addr := chunks]
    {
      crashed := SaveChunkFileInfoToDisk(order, creatable);
      if !crashed {
        activeNodes := activeNodes[addr := chunks];
      }
    }

    method GrowIndex(addr: Addr, files: seq<Entry>) returns (chunks: seq<Entry>)
      requires Valid()
      modifies this`fileChunkMap, this`cells, this`repr, repr
      ensures Valid() && fresh(repr - old(repr)) && chunks == files
      ensures Value() == Report(old(Value()), addr, Keys(files))
      ensures fileChunkMap.Keys == FilesAfter(old(Value()), addr, files)
    {
      chunks := GetAndSaveChunkInfoToMemory(addr, files);
      IndexedFiles();
    }

    /** The index gains what the heartbeat lists, every indexed file gets a location record, and the node table
        remembers the heartbeat: in any state of the protocol with this index and node table, and this heartbeat next,
        index and table become those after its step. `order` is how the outer map is ranged over after the index has
        grown. */
    method SaveStorageNodeInfo(addr: Addr, files: seq<Entry>, order: seq<string>, creatable: string -> bool)
      returns (crashed: bool)
      requires Valid() && Enumerates(order, FilesAfter(Value(), addr, files))
      modifies this, repr
      ensures Valid() && fresh(repr - old(repr)) && Value() == Report(old(Value()), addr, Keys(files))
      ensures crashed == Refused(FilesAfter(old(Value()), addr, files), creatable)
      ensures RecordsGrow(old(located), located, FilesAfter(old(Value()), addr, files), crashed)
      ensures activeNodes == if crashed then old(activeNodes) else old(activeNodes)[addr := files]
      ensures forall s {:trigger AfterTakeBeat(s, addr)} ::
                !crashed && Mirrors(s, old(Value()), old(activeNodes)) && NextBeat(s, addr, files)
                ==> Mirrors(AfterTakeBeat(s, addr), Value(), activeNodes)
    {
      forall s {:trigger AfterTakeBeat(s, addr)} | Mirrors(s, Value(), activeNodes) && NextBeat(s, addr, files)
        ensures Mirrors(AfterTakeBeat(s, addr), Report(Value(), addr, Keys(files)), activeNodes[addr := files])
      {
        TakesBeat(s, addr, activeNodes, files);
      }
      var chunks := GrowIndex(addr, files);
      crashed := SaveInfo(addr, chunks, order, creatable);
    }

    // ----- dead nodes -----

    /** Every node whose heartbeat is late leaves the table, with what it last listed. */
    method MonitorNodes(order: seq<Addr>, late: Addr -> bool) returns (dead: map<Addr, seq<Entry>>)
      requires Valid() && Enumerates(order, activeNodes.Keys)
      modifies this`activeNodes
      ensures Valid()
      ensures dead == map a | a in old(activeNodes) && late(a) :: old(activeNodes)[a]
      ensures activeNodes == map a | a in old(activeNodes) && !late(a) :: old(activeNodes)[a]
    {
      dead := map[];
      ghost var was := activeNodes;
      assert forall a :: a in order <==> a in set x | x in order;
      for i := 0 to |order|
        invariant dead == LateAmong(was, order[..i], late) && activeNodes == was - LateAmong(was, order[..i], late).Keys
      {
        assert order[i] in order && order[i] !in order[..i];
        OneMoreLate(was, order, i, late);
        if late(order[i]) {
          dead := dead[order[i] := activeNodes[order[i]]];
          activeNodes := activeNodes - {order[i]};
        }
      }
      assert order[..|order|] == order;
    }

    /** The failed node leaves the shared holder map, and so the index; the others are working. */
    method RemoveFailed(holders: HolderMap, order: seq<Addr>, failed: Addr) returns (working: set<Addr>)
      requires Enumerates(order, holders.paths.Keys)
      modifies holders
      ensures working == old(holders.paths.Keys) - {failed} && holders.paths == old(holders.paths) - {failed}
    {
      working := {};
      assert forall a :: a in order <==> a in set x | x in order;
      for i := 0 to |order|
        invariant working == (set a | a in order[..i]) - {failed}
        invariant holders.paths == if failed in order[..i] then old(holders.paths) - {failed} else old(holders.paths)
      {
        assert order[..i + 1] == order[..i] + [order[i]];
        if failed == order[i] {
          holders.paths := holders.paths - {order[i]};
        } else {
          working := working + {order[i]};
        }
      }
      assert order[..|order|] == order;
      assert failed !in order ==> holders.paths - {failed} == holders.paths;
    }

    /** Draw active nodes until three are working, or fewer than three are active. `held` are the nodes in the shared
        holder map. The stream of draws may end first. */
    method ChooseReplacement(failed: Addr, held: set<Addr>, picks: seq<Addr>) returns (outcome: Outcome)
      ensures outcome == Replacement(activeNodes.Keys, failed, held, picks)
    {
      var working, newNode: Option<Addr> := held, None;
      var i := 0;
      while i < |picks|
        invariant 0 <= i <= |picks|
        invariant Replace(activeNodes.Keys, failed, held, working, newNode, picks[i..])
                  == Replacement(activeNodes.Keys, failed, held, picks)
      {
        var loc := picks[i];
        assert picks[i..][1..] == picks[i + 1..];
        i := i + 1;
        if loc != failed {
          working := working + {loc};
          if loc !in held { newNode := Some(loc); }
          if |working| == MAX_REPLICAS || |activeNodes.Keys| < MAX_REPLICAS {
            return Exit(newNode);
          }
        }
      }
      outcome := Running;
    }

    /** Drop the failed node from the chunk's holders, choose a new one and ask it to fetch the chunk from the
        survivors. `order` and `keys` are the orders in which the holder map and the working nodes are ranged over. */
    method ReplaceFailedNode(k: Key, failed: Addr, order: seq<Addr>, keys: seq<Addr>, picks: seq<Addr>,
                             reach: set<Addr>)
      returns (outcome: Outcome)
      requires Valid() && Enumerates(order, Holders(Value(), k)) && Enumerates(keys, Holders(Value(), k) - {failed})
      modifies repr, net
      ensures Valid() && Value() == RemoveHolder(old(Value()), k, failed)
      ensures outcome == Replacement(activeNodes.Keys, failed, old(Holders(Value(), k)) - {failed}, picks)
      ensures net.sent == old(net.sent) + if outcome.Chosen? then ReplicaItems(cfg, k, keys, outcome.node, reach)
              else []
    {
      var survivors := DropHolder(k, failed, order);
      outcome := ChooseReplacement(failed, survivors, picks);
      if outcome.Chosen? {
        SendReplicationMessage(k, keys, outcome.node, reach);
      }
    }

    method SendReplicationMessage(k: Key, keys: seq<Addr>, to: Addr, reach: set<Addr>)
      modifies net
      ensures net.sent == old(net.sent) + ReplicaItems(cfg, k, keys, to, reach)
    {
      if to in reach {
        var request := new Message(ReplicaMsg(cfg, k, keys, to));
        net.Send(request, []);
      }
    }

    /** The nodes left holding the chunk; an index that does not know the chunk has none. */
    method DropHolder(k: Key, failed: Addr, order: seq<Addr>) returns (survivors: set<Addr>)
      requires Valid() && Enumerates(order, Holders(Value(), k))
      modifies repr
      ensures Valid() && Value() == RemoveHolder(old(Value()), k, failed)
      ensures survivors == Holders(old(Value()), k) - {failed}
    {
      survivors := {};
      assert FlatAt(fileChunkMap, cells, k);
      if k.file in fileChunkMap && k.chunk in fileChunkMap[k.file] {
        var allChunkNodes := fileChunkMap[k.file][k.chunk];
        survivors := RemoveFailed(allChunkNodes, order, failed);
        OneChanged(k);
      }
    }

    // ----- placing a file, finding it, deleting it -----

    /** The same nodes for every chunk of a new file; None while the draws have not ended the loop. `order` is the
        order in which the chosen set is ranged over. */
    method GetStorageNodes(total: nat, picks: seq<Addr>, order: seq<Addr>) returns (table: Option<seq<seq<Addr>>>)
      requires var r := Place(activeNodes.Keys, {}, picks); r.Some? ==> Enumerates(order, r.value)
      ensures table.Some? == Place(activeNodes.Keys, {}, picks).Some?
      ensures table.Some? ==> |table.value| == total && forall i :: 0 <= i < total ==> table.value[i] == order
    {
      var nodes: set<Addr> := {};
      var i, done := 0, false;
      while i < |picks| && !done
        invariant 0 <= i <= |picks|
        invariant if done then Place(activeNodes.Keys, {}, picks) == Some(nodes)
                  else Place(activeNodes.Keys, nodes, picks[i..]) == Place(activeNodes.Keys, {}, picks)
      {
        assert picks[i..][1..] == picks[i + 1..];
        nodes := nodes + {picks[i]};
        i := i + 1;
        done := |nodes| == MAX_REPLICAS || |activeNodes.Keys| < MAX_REPLICAS;
      }
      if !done {
        return None;
      }
      var locations := new seq<Addr>[total];
      for j := 0 to total
        invariant forall l :: 0 <= l < j ==> locations[l] == order
      {
        locations[j] := order;
      }
      table := Some(locations[..]);
    }

    /** Fill the location table of a file, one row a chunk; a chunk beyond `total` makes the controller index past the
        end. */
    method GetStorageNodesForClient(file: string, total: nat, chunks: seq<string>, orders: map<string, seq<Addr>>)
      returns (crashed: bool, locations: array<Option<Location>>)
      requires Valid() && RangesOver(Value(), file, chunks, orders)
      ensures Lists(Rows(chunks, orders), Value(), file) && locations.Length == total
      ensures crashed == (total < |chunks|)
      ensures forall i :: 0 <= i < |chunks| && i < total ==> locations[i] == Some(Rows(chunks, orders)[i])
      ensures forall i :: |chunks| <= i < total ==> locations[i] == None
    {
      RowsList(Value(), file, chunks, orders);
      crashed, locations := FillTable(total, chunks, orders);
    }

    static method FillTable(total: nat, chunks: seq<string>, orders: map<string, seq<Addr>>)
      returns (crashed: bool, locations: array<Option<Location>>)
      requires forall c :: c in chunks ==> c in orders
      ensures locations.Length == total && crashed == (total < |chunks|)
      ensures forall i :: 0 <= i < |chunks| && i < total ==> locations[i] == Some(Rows(chunks, orders)[i])
      ensures forall i :: |chunks| <= i < total ==> locations[i] == None
    {
      locations := new Option<Location>[total](_ => None);
      for i := 0 to |chunks|
        invariant i <= total
        invariant forall j :: 0 <= j < i ==> locations[j] == Some(Rows(chunks, orders)[j])
        invariant forall j :: i <= j < total ==> locations[j] == None
      {
        var nodes := [];
        var order := orders[chunks[i]];
        for j := 0 to |order|
          invariant nodes == order[..j]
        {
          nodes := nodes + [order[j]];
        }
        assert nodes == order;
        if i == total {
          return true, locations;
        }
        locations[i] := Some(Location(chunks[i], nodes));
      }
      crashed := false;
    }

    /** The other holders of a chunk, for a node that found its own copy corrupted; `order` ranges over the holder
        map. */
    method GetReplicasForStorageNode(m: Message, order: seq<Addr>)
      requires Valid() && Enumerates(order, Holders(Value(), Key(m.file, m.chunk)))
      modifies m`replicas
      ensures Enumerates(m.replicas, Holders(Value(), Key(m.file, m.chunk)) - {m.sender})
      ensures m.replicas == Without(order, m.sender)
    {
      var nodes := [];
      for i := 0 to |order|
        invariant nodes == Without(order[..i], m.sender)
      {
        assert order[..i + 1][..i] == order[..i];
        if order[i] != m.sender { nodes := nodes + [order[i]]; }
      }
      assert order[..|order|] == order;
      WithoutEnumerates(order, m.sender);
      assert forall a :: a in order <==> a in set x | x in order;
      m.replicas := nodes;
    }

    method SendReplicasToStorageNode(m: Message, order: seq<Addr>, reach: set<Addr>)
      requires Valid() && Enumerates(order, Holders(Value(), Key(m.file, m.chunk)))
      modifies m, net
      ensures Enumerates(Without(order, old(m.sender)), Holders(Value(), Key(m.file, m.chunk)) - {old(m.sender)})
      ensures net.sent == old(net.sent) + AnswerItems(cfg, old(m.Value([])), Without(order, old(m.sender)), reach)
      ensures if old(m.sender) !in reach then net.sent == old(net.sent)
              else Answered(old(net.sent), net.sent, Key(m.file, m.chunk), old(m.sender))
    {
      GetReplicasForStorageNode(m, order);
      if m.sender !in reach {
        return;
      }
      m.receiver := m.sender;
      m.sender := cfg.controller;
      net.Send(m, []);
    }

    /** One message went to the node, with the chunk's other indexed holders, each once. */
    ghost predicate Answered(was: seq<Item>, sent: seq<Item>, k: Key, to: Addr)
      requires Valid()
      reads this, repr
    {
      && |sent| == |was| + 1 && was <= sent && sent[|was|].Flight?
      && (var answer := sent[|was|].msg;
          && answer.file == k.file && answer.chunk == k.chunk && answer.receiver == to
            && answer.sender == cfg.controller
          && Enumerates(answer.replicas, Holders(Value(), k) - {to}))
    }

    /** Ask the first holder of one chunk to delete it and to pass the request on to the others. Without a holder the
        controller indexes an empty list. */
    method SendStorageNodeDeleteRequest(file: string, row: Location, reach: set<Addr>) returns (crashed: bool)
      modifies net
      ensures crashed == (row.replicas == [])
      ensures net.sent == old(net.sent) + if crashed then [] else DeleteMsgs(cfg, file, [row], reach)
    {
      if row.replicas == [] {
        return true;
      }
      crashed := false;
      if row.replicas[0] in reach {
        var request := new Message(DeleteMsg(cfg, file, row));
        net.Send(request, []);
      }
    }

    lemma DeleteOneMore(file: string, table: seq<Location>, i: nat, reach: set<Addr>)
      requires i < |table| && AllHeld(table[..i + 1])
      ensures AllHeld(table[..i]) && table[i].replicas != []
      ensures DeleteMsgs(cfg, file, table[..i + 1], reach) ==
              DeleteMsgs(cfg, file, table[..i], reach) + DeleteMsgs(cfg, file, [table[i]], reach)
      decreases i
    {
      assert table[..i + 1][i] == table[i];
      if i == 0 {
        assert table[..1] == [table[0]];
      } else {
        assert table[..i + 1][1..] == table[1..][..i] && table[..i][1..] == table[1..][..i - 1];
        DeleteOneMore(file, table[1..], i - 1, reach);
      }
    }

    /** One request a chunk of the file, in the order its map is ranged over, up to the first chunk without a holder. */
    method DeleteFromStorageNodes(file: string, chunks: seq<string>, orders: map<string, seq<Addr>>, reach: set<Addr>)
      returns (crashed: bool)
      requires Valid() && RangesOver(Value(), file, chunks, orders)
      modifies net
      ensures Lists(Rows(chunks, orders), Value(), file)
      ensures var table := Rows(chunks, orders);
              && crashed == (Firm(table) < |table|)
              && net.sent == old(net.sent) + DeleteMsgs(cfg, file, table[..Firm(table)], reach)
    {
      RowsList(Value(), file, chunks, orders);
      crashed := SendDeleteRequests(file, Rows(chunks, orders), reach);
    }

    method SendDeleteRequests(file: string, table: seq<Location>, reach: set<Addr>) returns (crashed: bool)
      modifies net
      ensures crashed == (Firm(table) < |table|)
      ensures net.sent == old(net.sent) + DeleteMsgs(cfg, file, table[..Firm(table)], reach)
    {
      for i := 0 to |table|
        invariant AllHeld(table[..i])
        invariant net.sent == old(net.sent) + DeleteMsgs(cfg, file, table[..i], reach)
      {
        crashed := SendStorageNodeDeleteRequest(file, table[i], reach);
        if crashed {
          FirmAt(table, i);
          return;
        }
        assert table[..i + 1] == table[..i] + [table[i]];
        DeleteOneMore(file, table, i, reach);
      }
      FirmAt(table, |table|);
      crashed := false;
    }

    /** The location record goes and the index forgets the file; a record that is not there is then fatal. */
    method DeleteChunkFileInfo(file: string) returns (crashed: bool)
      requires Valid()
      modifies this`fileChunkMap, this`cells, this`repr, this`located
      ensures Valid() && Value() == ForgetFile(old(Value()), file)
      ensures crashed == (file !in old(located)) && located == old(located) - {file}
    {
      crashed := file !in located;
      located := located - {file};
      FlatForgets(fileChunkMap, cells, file);
      fileChunkMap := fileChunkMap - {file};
      cells := Kept(cells, file);
      assert Separate(cells, repr) by { SeparateKept(old(cells), repr, file); }
    }
  }
}
