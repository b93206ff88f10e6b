/** The controller's catalogue as it runs: a map and a Bloom filter in memory, and the record files on disk. */
module Catalogue {
  import opened Types
  import opened Text
  import opened Records
  import opened Bloom
  import opened CatalogueSpec

  /** The directories FileMetaData and ChunkStorageNodeMetadata, which outlive the controller. */
  class Disk {
    var records: map<string, string>
    var located: set<string>

    constructor ()
      ensures records == map[] && located == {}
    {
      records := map[];
      located := {};
    }
  }

  lemma LoadOneMore(order: seq<string>, disk: map<string, string>, i: nat)
    requires i < |order| && (forall n :: n in order ==> n in disk) && Load(order[..i], disk).Some?
    ensures Load(order[..i + 1], disk) == LoadOne(Load(order[..i], disk).value, order[i], disk[order[i]])
  {
    assert order[..i + 1][..i] == order[..i];
  }

  lemma {:induction false} LoadedPrefix(order: seq<string>, disk: map<string, string>, i: nat)
    requires i <= |order| && (forall n :: n in order ==> n in disk) && Load(order[..i], disk).None?
    ensures Load(order, disk).None?
    decreases |order| - i
  {
    if i == |order| {
      assert order[..i] == order;
    } else {
      assert order[..i + 1][..i] == order[..i];
      LoadedPrefix(order, disk, i + 1);
    }
  }

  lemma CollectOne(entries: seq<(string, FileInfo)>, name: string, info: FileInfo)
    ensures Collect(entries + [(name, info)]) == Collect(entries)[name := info]
    ensures NamesOf(entries + [(name, info)]) == NamesOf(entries) + [name]
  {
    assert (entries + [(name, info)])[..|entries|] == entries;
  }

  class Catalogue {
    const setup: Setup
    const disk: Disk
    var up: bool
    var fileMap: map<string, FileInfo>
    var bf: BloomFilter

    ghost predicate FilterOk()
      reads this, bf, bf.bits
    {
      bf.Valid() && bf.hashes == setup.hashes && bf.numHashes as int == NUM_HASHES && bf.bits.Length == NUM_BITS
    }

    ghost predicate Valid()
      reads this, bf, bf.bits
    {
      FilterOk() && (!up ==> fileMap == map[] && bf.texts == [])
    }

    ghost function Value(): Store
      reads this, disk, bf
    {
      Store(up, fileMap, bf.texts, disk.records, disk.located)
    }

    /** A controller started for the first time. */
    constructor (setup: Setup)
      ensures Valid() && Value() == EMPTY && this.setup == setup && fresh(disk) && fresh(bf) && fresh(bf.bits)
    {
      this.setup := setup;
      this.disk := new Disk();
      this.up := true;
      this.fileMap := map[];
      this.bf := new BloomFilter(setup.hashes, NUM_BITS as uint32, NUM_HASHES as uint32);
    }

    /** The process ends; its memory is gone. */
    method Halt()
      modifies this
      ensures Valid() && fresh(bf) && fresh(bf.bits)
      ensures !up && disk.records == old(disk.records) && disk.located == old(disk.located)
    {
      up := false;
      fileMap := map[];
      bf := new BloomFilter(setup.hashes, NUM_BITS as uint32, NUM_HASHES as uint32);
    }

    method Known(name: string) returns (found: bool, present: bool)
      requires Valid()
      ensures found == Contains(setup.hashes, bf.texts, name) && present == (name in fileMap)
    {
      found := bf.Get(name);
      present := name in fileMap;
    }

    /** The map is updated before the record file is created. */
    method SaveFileMetadata(name: string, info: FileInfo) returns (created: bool)
      requires Valid() && up
      modifies this`fileMap, disk`records
      ensures fileMap == old(fileMap)[name := info] && created == setup.creates(name)
      ensures disk.records == if created then old(disk.records)[name := FileText(name, info)] else old(disk.records)
    {
      fileMap := fileMap[name := info];
      created := setup.creates(name);
      if created { disk.records := disk.records[name := FileText(name, info)]; }
    }

    method HandleWrite(name: string, info: FileInfo, anyActive: bool) returns (answer: Answer)
      requires Valid() && up
      modifies this, disk, bf, bf.bits
      ensures Valid() && (bf == old(bf) || fresh(bf))
      ensures (Value(), answer) == WriteStep(setup, old(Value()), name, info, anyActive)
    {
      var found, present := Known(name);
      if found && present {
        return Present;
      }
      var created := SaveFileMetadata(name, info);
      if !created {
        Halt();
        return Stopped;
      }
      bf.Put(name);
      if !anyActive {
        Halt();
        return Stopped;
      }
      answer := Locations;
    }

    /** The location record goes first, then the file's own record and its entry in the map. */
    method HandleDelete(name: string, held: bool) returns (answer: Answer)
      requires Valid() && up
      modifies this, disk
      ensures Valid() && (bf == old(bf) || fresh(bf))
      ensures (Value(), answer) == DeleteStep(setup, old(Value()), name, held)
    {
      var found, present := Known(name);
      if !found || !present {
        return NotFound;
      }
      if !held || name !in disk.located {
        Halt();
        return Stopped;
      }
      disk.located := disk.located - {name};
      if name !in disk.records {
        Halt();
        return Stopped;
      }
      disk.records := disk.records - {name};
      fileMap := fileMap - {name};
      answer := Removed;
    }

    method HandleRead(name: string) returns (answer: Answer)
      requires Valid() && up
      ensures (Value(), answer) == ReadStep(setup, Value(), name)
    {
      var found, present := Known(name);
      if !found || !present {
        answer := NotFound;
      } else {
        answer := Metadata(fileMap[name]);
      }
    }

    /** The map and the filter hold what `entries` say, in order. */
    ghost predicate Holds(entries: seq<(string, FileInfo)>)
      reads this, bf
    {
      fileMap == Collect(entries) && bf.texts == NamesOf(entries)
    }

    method AddEntry(name: string, info: FileInfo, ghost entries: seq<(string, FileInfo)>)
      requires Valid() && up && Holds(entries)
      modifies this`fileMap, bf, bf.bits
      ensures Valid() && Holds(entries + [(name, info)])
    {
      CollectOne(entries, name, info);
      fileMap := fileMap[name := info];
      bf.Put(name);
    }

    /** Parse the scanned lines one by one; false when one would make the controller index out of range. */
    method ReadLines(parse: string -> Option<(string, FileInfo)>, lines: seq<string>,
                     ghost loaded: seq<(string, FileInfo)>)
      returns (ok: bool, ghost entries: seq<(string, FileInfo)>)
      requires Valid() && up && Holds(loaded)
      modifies this`fileMap, bf, bf.bits
      ensures Valid() && ok == Each(parse, lines).Some?
      ensures ok ==> entries == Each(parse, lines).value && Holds(loaded + entries)
    {
      entries := [];
      var i := 0;
      assert loaded + entries == loaded;
      while i < |lines|
        invariant 0 <= i <= |lines| && Valid() && up
        invariant Each(parse, lines[..i]) == Some(entries)
        invariant Holds(loaded + entries)
      {
        EachSnoc(parse, lines[..i], lines[i]);
        assert lines[..i + 1] == lines[..i] + [lines[i]];
        var parsed := parse(lines[i]);
        if parsed.None? {
          EachPrefix(parse, lines, i + 1);
          return false, entries;
        }
        var (name, info) := parsed.value;
        AddEntry(name, info, loaded + entries);
        assert (loaded + entries) + [(name, info)] == loaded + (entries + [(name, info)]);
        entries := entries + [(name, info)];
        i := i + 1;
      }
      assert lines[..i] == lines;
      ok := true;
    }

    /** Read one saved record file; false when the controller would stop. A line too long for the scanner is noticed
        only after the lines before it, which makes no difference to a process that ends. */
    method ReadRecord(text: string, ghost loaded: seq<(string, FileInfo)>)
      returns (ok: bool, ghost entries: seq<(string, FileInfo)>)
      requires Valid() && up && Holds(loaded)
      modifies this`fileMap, bf, bf.bits
      ensures Valid() && ok == ReadFileText(text).Some?
      ensures ok ==> entries == ReadFileText(text).value && Holds(loaded + entries)
    {
      if Scannable(text) {
        ok, entries := ReadLines(ParseFile, Lines(text), loaded);
      } else {
        ok, entries := false, [];
      }
    }

    method ReadEntry(name: string, text: string, ghost loaded: seq<(string, FileInfo)>)
      returns (ok: bool, ghost now: seq<(string, FileInfo)>)
      requires Valid() && up && Holds(loaded)
      modifies this`fileMap, bf, bf.bits
      ensures Valid() && ok == LoadOne(loaded, name, text).Some?
      ensures ok ==> now == LoadOne(loaded, name, text).value && Holds(now)
    {
      ok, now := true, loaded;
      if !Dotted(name) {
        ghost var entries;
        ok, entries := ReadRecord(text, loaded);
        now := loaded + entries;
      }
    }

    method Reset()
      modifies this
      ensures Valid() && up && fresh(bf) && fresh(bf.bits) && Holds([])
    {
      up := true;
      fileMap := map[];
      bf := new BloomFilter(setup.hashes, NUM_BITS as uint32, NUM_HASHES as uint32);
    }

    /** Start again from what is on the disk. */
    method LoadData(order: seq<string>) returns (answer: Answer)
      requires Valid() && Enumerates(order, disk.records.Keys)
      modifies this
      ensures Valid() && fresh(bf) && fresh(bf.bits)
      ensures (Value(), answer) == RestartStep(old(Value()), order)
    {
      assert forall n :: n in order ==> n in set x | x in order;
      ghost var records := disk.records;
      Reset();
      ghost var loaded := [];
      var i := 0;
      while i < |order|
        invariant 0 <= i <= |order| && Valid() && up && fresh(bf) && fresh(bf.bits)
        invariant disk.records == records && disk.located == old(disk.located)
        invariant Load(order[..i], records) == Some(loaded) && Holds(loaded)
      {
        LoadOneMore(order, records, i);
        var ok;
        ok, loaded := ReadEntry(order[i], disk.records[order[i]], loaded);
        if !ok {
          LoadedPrefix(order, records, i + 1);
          Halt();
          return Stopped;
        }
        i := i + 1;
      }
      assert order[..i] == order;
      answer := Silent;
    }
  }
}
