/** One client reading one file: what its counters, its chunk files and its globals are worth when the last chunk
    comes. */
module Reading {
  import opened Types
  import opened Sets
  import opened Records
  import opened Chunking
  import opened ClientSpec
  import opened Cluster
  import opened Safety

  // ----- what is kept about a reader -----

  ghost predicate AboutFile(cfg: Config, h: History, r: Reader) {
    var s := r.session;
    && r.file in h.files
    && var f := h.files[r.file];
    && s.total == |f.parts| && s.fileSize == |f.content| && s.checksum == cfg.hash(f.content)
    && r.arrived <= Names(r.file, s.total) && r.places.Keys == r.arrived
  }

  ghost predicate Tally(h: History, r: Reader)
    requires r.file in h.files
  {
    && r.session.count == |r.arrived|
    && r.session.bytes == ArrivedBytes(h.files[r.file].parts, r.file, r.arrived, |h.files[r.file].parts|)
  }

  /** The chunk files are those the read found and those that have arrived, each where the client was then. */
  ghost predicate FilesFound(r: Reader) {
    forall folder, name ::
      name in Files(r.session.disk, folder) <==>
        name in Files(r.begun, folder) || (name in r.places && r.places[name] == folder)
  }

  ghost predicate BytesRight(h: History, r: Reader)
    requires r.places.Keys == r.arrived
  {
    forall c :: c in r.arrived ==>
      c in h.origin && c in Files(r.session.disk, r.places[c])
        && Files(r.session.disk, r.places[c])[c] == h.origin[c].bytes
  }

  ghost predicate Unfinished(h: History, r: Reader)
    requires r.places.Keys == r.arrived
  {
    r.session.merges == 0 && r.session.kept == None && FilesFound(r) && BytesRight(h, r)
  }

  /** The globals are still those of the read, and every chunk was saved where the client is now. */
  ghost predicate Straight(r: Reader)
    requires r.places.Keys == r.arrived
  {
    r.session.filePath == r.file && forall c :: c in r.arrived ==> r.places[c] == r.session.folder
  }

  /** Every chunk was saved in the folder the file was written with. */
  ghost predicate Housed(h: History, r: Reader)
    requires r.file in h.files && r.places.Keys == r.arrived
  {
    forall c :: c in r.arrived ==> r.places[c] == h.files[r.file].folder
  }

  /** The file written, kept under its own name in the folder it was written with. */
  function KeptFile(h: History, file: string): Option<Kept>
    requires file in h.files
  {
    Some(Kept(h.files[file].folder, file, h.files[file].content))
  }

  /** A read that nothing disturbed has not failed, and is on its way or has kept the file. */
  ghost predicate Smooth(h: History, r: Reader)
    requires r.file in h.files && r.places.Keys == r.arrived
  {
    r.asked && !r.disturbed ==>
      && !r.session.crashed && Housed(h, r)
      && if Done(r) then r.session.kept == KeptFile(h, r.file)
         else Straight(r) && r.session.folder == h.files[r.file].folder
  }

  ghost predicate ReaderOk(cfg: Config, h: History, r: Reader) {
    && AboutFile(cfg, h, r) && Tally(h, r) && Smooth(h, r)
    && (!r.asked ==> r.session.crashed)
    && if r.session.crashed then r.session.merges == 0 && r.session.kept == None
       else if Done(r) then
         r.session.merges == 1 && (r.session.kept.Some? ==> r.session.kept.value.content == h.files[r.file].content)
       else Unfinished(h, r)
  }

  lemma BeginOk(cfg: Config, h: History, disk: Folders, file: string, asked: bool)
    requires file in h.files
    ensures ReaderOk(cfg, h, NewReader(cfg, h.files[file], file, disk, asked))
  {
    ArrivedNone(h.files[file].parts, file, |h.files[file].parts|);
  }

  /** A command leaves counters and chunk files alone. */
  lemma HeardOk(cfg: Config, h: History, r: Reader, name: Option<string>, folder: Option<string>)
    requires ReaderOk(cfg, h, r)
    ensures ReaderOk(cfg, h, Heard(r, name, folder))
  {
    HeardSame(cfg, h, r, name, folder);
    HeardFound(h, r, name, folder);
  }

  lemma HeardSame(cfg: Config, h: History, r: Reader, name: Option<string>, folder: Option<string>)
    requires AboutFile(cfg, h, r) && Tally(h, r) && Smooth(h, r)
    ensures var r' := Heard(r, name, folder); AboutFile(cfg, h, r') && Tally(h, r') && Smooth(h, r')
  {}

  lemma HeardFound(h: History, r: Reader, name: Option<string>, folder: Option<string>)
    requires r.places.Keys == r.arrived
    ensures Unfinished(h, r) ==> Unfinished(h, Heard(r, name, folder))
  {}

  lemma ReaderFollows(cfg: Config, h: History, h': History, r: Reader)
    requires Extends(h, h') && FilesStay(h, h') && ReaderOk(cfg, h, r)
    ensures ReaderOk(cfg, h', r)
  {}

  ghost predicate FilesStay(h: History, h': History) {
    forall f :: f in h.files ==> f in h'.files && h'.files[f] == h.files[f]
  }

  // ----- a chunk is saved and counted -----

  /** The read once a chunk is saved and counted, before the completion test. */
  function Counted(r: Reader, m: ChunkMsg): Reader {
    var s := r.session;
    r.(session := s.(disk := SaveIn(s.disk, s.folder, m.chunk, m.data), bytes := s.bytes + |m.data|, count := s.count
      + 1),
       arrived := r.arrived + {m.chunk}, places := r.places[m.chunk := s.folder])
  }

  /** The part of its file a chunk reply carries. */
  lemma PartOf(cfg: Config, h: History, m: ChunkMsg) returns (k: nat)
    requires HistoryOk(cfg, h) && MsgOk(cfg, h, m) && m.kind == Write
    ensures m.file in h.files && FileOk(h.files[m.file]) && k < |h.files[m.file].parts|
    ensures m.chunk == ChunkName(m.file, k) && m.data == h.files[m.file].parts[k] && m.size == |m.data|
    ensures m.chunk in h.origin && m.data == h.origin[m.chunk].bytes
  {
    assert ComesFrom(h, m.chunk);
    k := h.origin[m.chunk].index;
  }

  /** A chunk of the file that has not arrived yet makes one more; the last one makes all of them. */
  lemma OneMoreArrives(file: string, total: nat, arrived: set<string>, c: string)
    requires arrived <= Names(file, total) && c in Names(file, total) && c !in arrived
    ensures |arrived + {c}| == |arrived| + 1 <= total
    ensures |arrived| + 1 == total ==> arrived + {c} == Names(file, total)
  {
    var names := Names(file, total);
    NamesSize(file, total);
    SubsetSize(arrived + {c}, names);
    if |arrived| + 1 == total { SameSizeSubset(arrived + {c}, names); }
  }

  /** The bytes counted when the last chunk arrives are the size of the file. */
  lemma CountedBytes(f: File, file: string, arrived: set<string>, k: nat)
    requires FileOk(f) && k < |f.parts| && ChunkName(file, k) !in arrived
    ensures var arrived' := arrived + {ChunkName(file, k)};
            && ArrivedBytes(f.parts, file, arrived, |f.parts|) + |f.parts[k]|
              == ArrivedBytes(f.parts, file, arrived', |f.parts|)
            && (arrived' == Names(file, |f.parts|) ==> ArrivedBytes(f.parts, file, arrived', |f.parts|) == |f.content|)
  {
    var arrived' := arrived + {ChunkName(file, k)};
    ArrivedGrows(f.parts, file, arrived, k, |f.parts|);
    if arrived' == Names(file, |f.parts|) {
      forall i | 0 <= i < |f.parts| ensures ChunkName(file, i) in arrived' {}
      ArrivedAll(f.parts, file, arrived', |f.parts|);
      assert f.parts[..|f.parts|] == f.parts;
    }
  }

  ghost predicate Due(cfg: Config, h: History, r: Reader, m: ChunkMsg) {
    && ReaderOk(cfg, h, r) && !r.session.crashed && MsgOk(cfg, h, m)
    && m.kind == Write && m.file == r.file && m.chunk !in r.arrived
  }

  ghost predicate Progress(cfg: Config, h: History, r: Reader, r': Reader) {
    && AboutFile(cfg, h, r') && Tally(h, r') && !Done(r) && r'.session.count <= r'.session.total
    && (r'.session.count == r'.session.total ==>
          r'.arrived == Names(r.file, r'.session.total) && r'.session.bytes == r'.session.fileSize
            && r'.session.total > 0)
  }

  lemma PartCounted(h: History, r: Reader, m: ChunkMsg, k: nat)
    requires r.file in h.files && Tally(h, r) && FileOk(h.files[r.file]) && k < |h.files[r.file].parts|
    requires m.chunk == ChunkName(r.file, k) && m.data == h.files[r.file].parts[k] && m.chunk !in r.arrived
    requires r.arrived <= Names(r.file, |h.files[r.file].parts|)
    ensures Tally(h, Counted(r, m)) && r.session.count < |h.files[r.file].parts|
  {
    assert m.chunk in Names(r.file, |h.files[r.file].parts|);
    OneMoreArrives(r.file, |h.files[r.file].parts|, r.arrived, m.chunk);
    CountedBytes(h.files[r.file], r.file, r.arrived, k);
  }

  lemma PartCompletes(cfg: Config, h: History, r: Reader, m: ChunkMsg, k: nat)
    requires AboutFile(cfg, h, r) && FileOk(h.files[r.file]) && k < |h.files[r.file].parts|
    requires m.chunk == ChunkName(r.file, k) && m.chunk !in r.arrived && |r.arrived| + 1 == r.session.total
    ensures var arrived := r.arrived + {m.chunk};
            && arrived == Names(r.file, r.session.total)
            && ArrivedBytes(h.files[r.file].parts, r.file, arrived, r.session.total) == r.session.fileSize
  {
    OneMoreArrives(r.file, r.session.total, r.arrived, m.chunk);
    CountedBytes(h.files[r.file], r.file, r.arrived, k);
  }

  lemma PartProgress(cfg: Config, h: History, r: Reader, m: ChunkMsg, k: nat)
    requires AboutFile(cfg, h, r) && Tally(h, r) && FileOk(h.files[r.file]) && k < |h.files[r.file].parts|
    requires m.chunk == ChunkName(r.file, k) && m.data == h.files[r.file].parts[k] && m.chunk !in r.arrived
    ensures Progress(cfg, h, r, Counted(r, m))
  {
    PartCounted(h, r, m, k);
    if |r.arrived| + 1 == r.session.total { PartCompletes(cfg, h, r, m, k); }
  }

  lemma CountedTally(cfg: Config, h: History, r: Reader, m: ChunkMsg)
    requires HistoryOk(cfg, h) && Due(cfg, h, r, m)
    ensures Progress(cfg, h, r, Counted(r, m))
  {
    var k := PartOf(cfg, h, m);
    PartProgress(cfg, h, r, m, k);
  }

  lemma FilesAfterSave(disk: Folders, folder: string, name: string, bytes: Bytes, other: string)
    ensures Files(SaveIn(disk, folder, name, bytes), other) == if other == folder
            then Files(disk, folder)[name := bytes] else Files(disk, other)
  {}

  lemma CountedFound(r: Reader, m: ChunkMsg)
    requires FilesFound(r) && m.chunk !in r.places
    ensures FilesFound(Counted(r, m))
  {
    var r' := Counted(r, m);
    forall folder, name
      ensures name in Files(r'.session.disk, folder) <==>
                name in Files(r.begun, folder) || (name in r'.places && r'.places[name] == folder)
    {
      FilesAfterSave(r.session.disk, r.session.folder, m.chunk, m.data, folder);
      assert name in Files(r.session.disk, folder) <==>
               name in Files(r.begun, folder) || (name in r.places && r.places[name] == folder);
    }
  }

  lemma CountedRight(h: History, r: Reader, m: ChunkMsg)
    requires r.places.Keys == r.arrived && BytesRight(h, r) && m.chunk !in r.arrived
    requires m.chunk in h.origin && m.data == h.origin[m.chunk].bytes
    ensures BytesRight(h, Counted(r, m))
  {
    var r' := Counted(r, m);
    forall c | c in r'.arrived
      ensures c in h.origin && c in Files(r'.session.disk, r'.places[c])
              && Files(r'.session.disk, r'.places[c])[c] == h.origin[c].bytes
    {
      FilesAfterSave(r.session.disk, r.session.folder, m.chunk, m.data, r'.places[c]);
    }
  }

  lemma CountedUnfinished(cfg: Config, h: History, r: Reader, m: ChunkMsg)
    requires HistoryOk(cfg, h) && Due(cfg, h, r, m) && !Done(r)
    ensures Unfinished(h, Counted(r, m))
  {
    var k := PartOf(cfg, h, m);
    CountedFound(r, m);
    CountedRight(h, r, m);
  }

  lemma CountedStraight(r: Reader, m: ChunkMsg)
    requires r.places.Keys == r.arrived
    ensures Straight(r) ==> Straight(Counted(r, m))
    ensures m.chunk !in r.arrived && Straight(Counted(r, m)) ==> Straight(r)
  {
    if m.chunk !in r.arrived && Straight(Counted(r, m)) {
      forall c | c in r.arrived ensures r.places[c] == r.session.folder {
        assert c in Counted(r, m).arrived && Counted(r, m).places[c] == r.places[c];
      }
    }
  }

  lemma ReceivingCounts(hash: Bytes -> string, r: Reader, m: ChunkMsg)
    requires m.size == |m.data|
    ensures var r' := Counted(r, m);
            Receiving(hash, r, m) == if r'.session.count == r'.session.total && r'.session.fileSize == r'.session.bytes
                                     then r'.(session := MergeAll(hash, r'.session)) else r'
  {
    assert m.data[..m.size] == m.data;
  }

  // ----- the merge -----

  /** A straight read finds every chunk file and gets the file written. */
  lemma StraightMerges(cfg: Config, h: History, r: Reader)
    requires HistoryOk(cfg, h) && AboutFile(cfg, h, r) && r.arrived == Names(r.file, r.session.total)
    requires BytesRight(h, r) && Straight(r)
    ensures Merge(Files(r.session.disk, r.session.folder), r.session.filePath, 0, r.session.total)
            == Some(h.files[r.file].content)
  {
    var files, parts := Files(r.session.disk, r.session.folder), h.files[r.file].parts;
    forall i | 0 <= i < |parts| ensures ChunkName(r.file, i) in files && files[ChunkName(r.file, i)] == parts[i] {
      var c := ChunkName(r.file, i);
      assert c in r.arrived;
      assert ComesFrom(h, c);
      ChunkNameInjective(r.file, i, h.origin[c].file, h.origin[c].index);
    }
    MergeRestores(files, r.file, 0, parts);
    assert parts[0..] == parts;
    assert FileOk(h.files[r.file]);
  }

  /** Whatever is merged, it is kept only if it is the file that was asked for: its checksum decides. */
  lemma MergeKeepsOnlyTheFile(cfg: Config, h: History, r: Reader)
    requires ConfigOk(cfg) && AboutFile(cfg, h, r) && r.session.kept == None
    ensures var t := MergeAll(cfg.hash, r.session); t.kept.Some? ==> t.kept.value.content == h.files[r.file].content
  {}

  /** Some chunk file the merge looks for was neither found by the read nor saved in the folder it looks in. */
  ghost predicate Astray(r: Reader) {
    exists j :: 0 <= j < r.session.total && !Within(r, ChunkName(r.session.filePath, j))
  }

  ghost predicate Within(r: Reader, name: string) {
    name in Files(r.begun, r.session.folder) || (name in r.places && r.places[name] == r.session.folder)
  }

  lemma FoundWithin(r: Reader, name: string)
    requires FilesFound(r)
    ensures name in Files(r.session.disk, r.session.folder) <==> Within(r, name)
  {
    var folder := r.session.folder;
    assert name in Files(r.session.disk, folder) <==>
             name in Files(r.begun, folder) || (name in r.places && r.places[name] == folder);
  }

  lemma MergeFailsExactly(hash: Bytes -> string, r: Reader)
    requires FilesFound(r) && !r.session.crashed
    ensures MergeAll(hash, r.session).crashed <==> Astray(r)
  {
    var s := r.session;
    MergesAll(Files(s.disk, s.folder), s.filePath, 0, s.total);
    forall j | 0 <= j < s.total ensures ChunkName(s.filePath, j) in Files(s.disk, s.folder)
      <==> Within(r, ChunkName(s.filePath, j)) {
      FoundWithin(r, ChunkName(s.filePath, j));
    }
  }

  /** No chunk file was there when the read began. */
  ghost predicate CleanStart(r: Reader) { forall folder, name :: name !in Files(r.begun, folder) }

  lemma AstrayExactly(r: Reader)
    requires r.places.Keys == r.arrived == Names(r.file, r.session.total) && r.session.total > 0 && CleanStart(r)
    ensures Astray(r) <==> !Straight(r)
  {
    var s := r.session;
    if Straight(r) {
      forall j | 0 <= j < s.total ensures Within(r, ChunkName(s.filePath, j)) {
        assert ChunkName(r.file, j) in r.arrived;
      }
    } else if s.filePath != r.file {
      if ChunkName(s.filePath, 0) in r.arrived {
        var i :| 0 <= i < s.total && ChunkName(r.file, i) == ChunkName(s.filePath, 0);
        ChunkNameInjective(r.file, i, s.filePath, 0);
      }
      assert !Within(r, ChunkName(s.filePath, 0));
    } else {
      var c :| c in r.arrived && r.places[c] != s.folder;
      var i :| 0 <= i < s.total && ChunkName(r.file, i) == c;
      assert !Within(r, ChunkName(s.filePath, i));
    }
  }

  // ----- a chunk is received -----

  lemma MergedOk(cfg: Config, h: History, r: Reader)
    requires ConfigOk(cfg) && HistoryOk(cfg, h) && AboutFile(cfg, h, r) && Tally(h, r) && Unfinished(h, r)
             && !r.session.crashed
    requires r.asked && Done(r) && r.arrived == Names(r.file, r.session.total)
             && (!r.disturbed ==> Straight(r) && Housed(h, r) && r.session.folder == h.files[r.file].folder)
    ensures ReaderOk(cfg, h, r.(session := MergeAll(cfg.hash, r.session)))
  {
    MergeKeepsOnlyTheFile(cfg, h, r);
    var r' := r.(session := MergeAll(cfg.hash, r.session));
    MergeCounts(cfg.hash, r.session);
    assert AboutFile(cfg, h, r') && Tally(h, r');
    if !r.disturbed { StraightMerges(cfg, h, r); }
  }

  lemma MergeCounts(hash: Bytes -> string, s: Session)
    ensures var t := MergeAll(hash, s);
            && t.count == s.count && t.bytes == s.bytes && t.total == s.total && t.fileSize == s.fileSize
            && t.checksum == s.checksum
  {}

  /** One more chunk, not seen before, keeps the reader sound. */
  lemma ReceivingOk(cfg: Config, h: History, r: Reader, m: ChunkMsg)
    requires ConfigOk(cfg) && HistoryOk(cfg, h) && Due(cfg, h, r, m)
    ensures ReaderOk(cfg, h, Receiving(cfg.hash, r, m))
  {
    var k := PartOf(cfg, h, m);
    CountedTally(cfg, h, r, m);
    CountedUnfinished(cfg, h, r, m);
    CountedStraight(r, m);
    ReceivingCounts(cfg.hash, r, m);
    if Done(Counted(r, m)) { MergedOk(cfg, h, Counted(r, m)); }
  }

  lemma LastMerge(cfg: Config, h: History, r: Reader)
    requires HistoryOk(cfg, h) && AboutFile(cfg, h, r) && r.arrived == Names(r.file, r.session.total)
             && Unfinished(h, r)
    requires !r.session.crashed
    ensures var t := MergeAll(cfg.hash, r.session);
            && (t.crashed <==> Astray(r)) && (t.crashed ==> t.kept == None)
            && (Straight(r) ==> !t.crashed && t.merges == 1 && t.kept == KeptHere(h, r))
  {
    MergeFailsExactly(cfg.hash, r);
    if Straight(r) { StraightMerges(cfg, h, r); }
  }

  /** The file read, kept under its own name in the client's current folder. */
  function KeptHere(h: History, r: Reader): Option<Kept>
    requires r.file in h.files
  {
    Some(Kept(r.session.folder, r.file, h.files[r.file].content))
  }

  /** When the last chunk comes, the client fails exactly when some chunk file it looks for went astray. A read whose
      globals are still its own keeps the file written; if no chunk file was there when it began, no other read
      does. */
  lemma LastChunk(cfg: Config, h: History, r: Reader, m: ChunkMsg)
    requires ConfigOk(cfg) && HistoryOk(cfg, h) && Due(cfg, h, r, m) && r.session.count + 1 == r.session.total
    ensures var t := Receiving(cfg.hash, r, m).session;
            && (t.crashed <==> Astray(Counted(r, m)))
            && (Straight(r) ==> !t.crashed && t.merges == 1 && t.kept == KeptHere(h, r))
            && (CleanStart(r) ==>
                  (t.crashed <==> !Straight(r)) && (t.kept == KeptHere(h, r) <==> Straight(r)))
  {
    var k := PartOf(cfg, h, m);
    var r' := Counted(r, m);
    CountedTally(cfg, h, r, m);
    CountedUnfinished(cfg, h, r, m);
    CountedStraight(r, m);
    ReceivingCounts(cfg.hash, r, m);
    LastMerge(cfg, h, r');
    if CleanStart(r) { AstrayExactly(r'); }
  }
}
