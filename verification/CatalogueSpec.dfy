/** The controller's catalogue of files: a map behind a Bloom filter, kept across restarts as one text file a name.
    `Step` is what the controller does; `TableStep` is the plain map it is meant to be. */
module CatalogueSpec {
  import opened Types
  import opened Text
  import opened Records
  import opened Bloom

  const NUM_BITS := 10000
  const NUM_HASHES := 3

  /** The hash library, and the names the file system can create a file for. */
  datatype Setup = Setup(hashes: Hashes, creates: string -> bool)

  /** The controller and its disk. `filter` lists what was put into the Bloom filter since the controller started;
      `located` are the names with a saved location record. The memory of a controller that is down is empty. */
  datatype Store = Store(up: bool, files: map<string, FileInfo>, filter: seq<string>,
                         disk: map<string, string>, located: set<string>)

  /** `anyActive`: some storage node is active. `held`: every indexed chunk of the file has a holder. `order`: the
      order in which the directory lists the saved records. */
  datatype Request =
    | Write(name: string, info: FileInfo, anyActive: bool)
    | Delete(name: string, held: bool)
    | Read(name: string)
    | SaveLocations(names: set<string>)
    | Restart(order: seq<string>)

  datatype Answer = Locations | Present | Removed | NotFound | Metadata(info: FileInfo) | Silent | Stopped

  // ----- what the controller does -----

  predicate Contains(h: Hashes, filter: seq<string>, name: string) {
    Found(Filled(h, NUM_HASHES, NUM_BITS, filter), Probes(h, name, NUM_HASHES, NUM_BITS))
  }

  function Stop(s: Store): Store { Store(false, map[], [], s.disk, s.located) }

  /** Saving comes before choosing storage nodes, and choosing among none is fatal. */
  function WriteStep(c: Setup, s: Store, name: string, info: FileInfo, anyActive: bool): (Store, Answer) {
    if Contains(c.hashes, s.filter, name) && name in s.files then (s, Present)
    else if !c.creates(name) then (Stop(s), Stopped)
    else
      var s' := Store(true, s.files[name := info], s.filter + [name], s.disk[name := FileText(name, info)], s.located);
      if anyActive then (s', Locations) else (Stop(s'), Stopped)
  }

  /** A file whose location record was never saved cannot be removed: the controller stops and keeps its record. */
  function DeleteStep(c: Setup, s: Store, name: string, held: bool): (Store, Answer) {
    if !Contains(c.hashes, s.filter, name) || name !in s.files then (s, NotFound)
    else if !held || name !in s.located then (Stop(s), Stopped)
    else
      var s' := s.(located := s.located - {name});
      if name !in s.disk then (Stop(s'), Stopped)
      else (s'.(disk := s.disk - {name}, files := s.files - {name}), Removed)
  }

  function ReadStep(c: Setup, s: Store, name: string): (Store, Answer) {
    if !Contains(c.hashes, s.filter, name) || name !in s.files then (s, NotFound) else (s, Metadata(s.files[name]))
  }

  predicate Dotted(name: string) { name != "" && name[0] == '.' }

  /** One more saved file: skipped when its name starts with a dot; None when it cannot be read. */
  function LoadOne(front: seq<(string, FileInfo)>, name: string, text: string): Option<seq<(string, FileInfo)>> {
    if Dotted(name) then Some(front)
    else
      match ReadFileText(text)
      case None => None
      case Some(entries) => Some(front + entries)
  }

  /** The records of the files in `order`; None when one cannot be read. */
  function Load(order: seq<string>, disk: map<string, string>): Option<seq<(string, FileInfo)>>
    requires forall n :: n in order ==> n in disk
  {
    if order == [] then Some([])
    else
      var last := |order| - 1;
      match Load(order[..last], disk)
      case None => None
      case Some(front) => LoadOne(front, order[last], disk[order[last]])
  }

  function Collect(entries: seq<(string, FileInfo)>): map<string, FileInfo> {
    if entries == [] then map[]
    else var (name, info) := entries[|entries| - 1]; Collect(entries[..|entries| - 1])[name := info]
  }

  function NamesOf(entries: seq<(string, FileInfo)>): seq<string> {
    seq(|entries|, i requires 0 <= i < |entries| => entries[i].0)
  }

  function RestartStep(s: Store, order: seq<string>): (Store, Answer)
    requires Enumerates(order, s.disk.Keys)
  {
    assert forall n :: n in order ==> n in set x | x in order;
    match Load(order, s.disk)
    case None => (Stop(s), Stopped)
    case Some(entries) => (Store(true, Collect(entries), NamesOf(entries), s.disk, s.located), Silent)
  }

  predicate Possible(s: Store, r: Request) { r.Restart? ==> Enumerates(r.order, s.disk.Keys) }

  function Step(c: Setup, s: Store, r: Request): (Store, Answer)
    requires Possible(s, r)
  {
    if r.Restart? then RestartStep(s, r.order)
    else if !s.up then (s, Silent)
    else
      match r
      case Write(name, info, anyActive) => WriteStep(c, s, name, info, anyActive)
      case Delete(name, held) => DeleteStep(c, s, name, held)
      case Read(name) => ReadStep(c, s, name)
      case SaveLocations(names) => (s.(located := s.located + names), Silent)
  }

  // ----- what it is meant to be -----

  /** The files that exist. Only a delete that cannot be carried out, or a write with no storage node, stops it. */
  datatype Table = Table(up: bool, files: map<string, FileInfo>, located: set<string>)

  function TableStep(t: Table, r: Request): (Table, Answer) {
    if r.Restart? then (t.(up := true), Silent)
    else if !t.up then (t, Silent)
    else
      match r
      case Write(name, info, anyActive) =>
        if name in t.files then (t, Present)
        else (t.(files := t.files[name := info], up := anyActive), if anyActive then Locations else Stopped)
      case Delete(name, held) =>
        if name !in t.files then (t, NotFound)
        else if !held || name !in t.located then (t.(up := false), Stopped)
        else (t.(files := t.files - {name}, located := t.located - {name}), Removed)
      case Read(name) => (t, if name in t.files then Metadata(t.files[name]) else NotFound)
      case SaveLocations(names) => (t.(located := t.located + names), Silent)
  }

  // ----- runs -----

  ghost predicate PossibleRun(c: Setup, s: Store, rs: seq<Request>)
    decreases |rs|
  {
    rs != [] ==> Possible(s, rs[0]) && PossibleRun(c, Step(c, s, rs[0]).0, rs[1..])
  }

  ghost function Final(c: Setup, s: Store, rs: seq<Request>): Store
    requires PossibleRun(c, s, rs)
    decreases |rs|
  {
    if rs == [] then s else Final(c, Step(c, s, rs[0]).0, rs[1..])
  }

  ghost function Answers(c: Setup, s: Store, rs: seq<Request>): seq<Answer>
    requires PossibleRun(c, s, rs)
    decreases |rs|
  {
    if rs == [] then [] else [Step(c, s, rs[0]).1] + Answers(c, Step(c, s, rs[0]).0, rs[1..])
  }

  function TableFinal(t: Table, rs: seq<Request>): Table
    decreases |rs|
  {
    if rs == [] then t else TableFinal(TableStep(t, rs[0]).0, rs[1..])
  }

  function TableAnswers(t: Table, rs: seq<Request>): seq<Answer>
    decreases |rs|
  {
    if rs == [] then [] else [TableStep(t, rs[0]).1] + TableAnswers(TableStep(t, rs[0]).0, rs[1..])
  }

  const EMPTY := Store(true, map[], [], map[], {})

  // ----- the filter in front of the map changes nothing -----

  predicate InFilter(s: Store) { forall n :: n in s.files ==> n in s.filter }

  lemma {:induction false} CollectedNames(entries: seq<(string, FileInfo)>)
    ensures forall n :: n in Collect(entries) ==> n in NamesOf(entries)
  {
    if entries != [] {
      var last := |entries| - 1;
      CollectedNames(entries[..last]);
      forall n | n in Collect(entries) ensures n in NamesOf(entries) {
        if n == entries[last].0 {
          assert NamesOf(entries)[last] == n;
        } else {
          assert n in Collect(entries[..last]);
          assert NamesOf(entries[..last]) == NamesOf(entries)[..last];
        }
      }
    }
  }

  lemma StepKeepsInFilter(c: Setup, s: Store, r: Request)
    requires Possible(s, r) && InFilter(s)
    ensures InFilter(Step(c, s, r).0)
  {
    if r.Restart? {
      assert forall n :: n in r.order ==> n in set x | x in r.order;
      if Load(r.order, s.disk).Some? { CollectedNames(Load(r.order, s.disk).value); }
    }
  }

  lemma {:induction false} RunKeepsInFilter(c: Setup, s: Store, rs: seq<Request>)
    requires InFilter(s) && PossibleRun(c, s, rs)
    ensures InFilter(Final(c, s, rs))
    decreases |rs|
  {
    if rs != [] {
      StepKeepsInFilter(c, s, rs[0]);
      RunKeepsInFilter(c, Step(c, s, rs[0]).0, rs[1..]);
    }
  }

  lemma ContainsCatalogued(c: Setup, s: Store, name: string)
    requires InFilter(s) && name in s.files
    ensures Contains(c.hashes, s.filter, name)
  {
    NeverMissed(c.hashes, NUM_HASHES, NUM_BITS, s.filter, name);
  }

  /** After any requests and restarts, whatever the names, asking the filter first never changes a decision. */
  lemma FilterRedundant(c: Setup, rs: seq<Request>, name: string)
    requires PossibleRun(c, EMPTY, rs)
    ensures var s := Final(c, EMPTY, rs);
            (Contains(c.hashes, s.filter, name) && name in s.files) <==> name in s.files
  {
    RunKeepsInFilter(c, EMPTY, rs);
    var s := Final(c, EMPTY, rs);
    if name in s.files { ContainsCatalogued(c, s, name); }
  }

  // ----- what a restart brings back -----

  /** A record that a restart can bring back. */
  predicate Restorable(name: string, info: FileInfo) {
    Clean(name) && Clean(info.checksum) && Clean(info.folder) && |FileBody(name, info)| < MAX_LINE && !Dotted(name)
  }

  function Printed(files: map<string, FileInfo>): map<string, string> { map n | n in files :: FileText(n, files[n]) }

  function EntriesOf(order: seq<string>, files: map<string, FileInfo>): seq<(string, FileInfo)>
    requires forall n :: n in order ==> n in files
  {
    seq(|order|, i requires 0 <= i < |order| => (assert order[i] in order; (order[i], files[order[i]])))
  }

  predicate ReadsAs(name: string, text: string, info: FileInfo) {
    !Dotted(name) && ReadFileText(text) == Some([(name, info)])
  }

  lemma LoadsOne(front: seq<(string, FileInfo)>, name: string, text: string, info: FileInfo)
    requires ReadsAs(name, text, info)
    ensures LoadOne(front, name, text) == Some(front + [(name, info)])
  {}

  lemma {:induction false} LoadsEach(order: seq<string>, files: map<string, FileInfo>, disk: map<string, string>)
    requires forall n :: n in order ==> n in files && n in disk && ReadsAs(n, disk[n], files[n])
    ensures Load(order, disk) == Some(EntriesOf(order, files))
  {
    if order != [] {
      var last := |order| - 1;
      LoadsEach(order[..last], files, disk);
      LoadsOne(EntriesOf(order[..last], files), order[last], disk[order[last]], files[order[last]]);
      EntriesSnoc(order, files);
    } else {
      assert EntriesOf(order, files) == [];
    }
  }

  lemma EntriesSnoc(order: seq<string>, files: map<string, FileInfo>)
    requires order != [] && forall n :: n in order ==> n in files
    ensures var last := |order| - 1;
            EntriesOf(order, files) == EntriesOf(order[..last], files) + [(order[last], files[order[last]])]
  {
    var last := |order| - 1;
    var all, front := EntriesOf(order, files), EntriesOf(order[..last], files);
    assert |all| == |front| + 1;
    forall i | 0 <= i < last ensures all[i] == front[i] { assert order[..last][i] == order[i]; }
  }

  lemma RestorableReads(name: string, info: FileInfo)
    requires Uint64Sized(info) && Restorable(name, info)
    ensures ReadsAs(name, FileText(name, info), info)
  {
    FileRecordRoundTrip(name, info);
  }

  lemma {:induction false} CollectsEach(order: seq<string>, files: map<string, FileInfo>)
    requires forall n :: n in order ==> n in files
    ensures Collect(EntriesOf(order, files)) == map n | n in order && n in files :: files[n]
  {
    if order != [] {
      var last := |order| - 1;
      CollectsEach(order[..last], files);
      assert EntriesOf(order, files)[..last] == EntriesOf(order[..last], files);
      assert order == order[..last] + [order[last]];
    }
  }

  lemma PrintedReads(files: map<string, FileInfo>)
    requires forall n :: n in files ==> Uint64Sized(files[n]) && Restorable(n, files[n])
    ensures forall n :: n in files ==> ReadsAs(n, Printed(files)[n], files[n])
  {
    forall n | n in files ensures ReadsAs(n, Printed(files)[n], files[n]) { RestorableReads(n, files[n]); }
  }

  lemma AllRestored(order: seq<string>, files: map<string, FileInfo>)
    requires Enumerates(order, files.Keys)
    requires forall n :: n in files ==> Uint64Sized(files[n]) && Restorable(n, files[n])
    ensures forall n :: n in order ==> n in files
    ensures Load(order, Printed(files)) == Some(EntriesOf(order, files))
    ensures Collect(EntriesOf(order, files)) == files
  {
    EnumeratedKeys(order, files);
    PrintedReads(files);
    LoadsEach(order, files, Printed(files));
    CollectsEach(order, files);
  }

  lemma EnumeratedKeys(order: seq<string>, files: map<string, FileInfo>)
    requires Enumerates(order, files.Keys)
    ensures forall n :: n in order <==> n in files
    ensures (map n | n in order && n in files :: files[n]) == files
  {
    assert forall n :: n in order <==> n in set x | x in order;
  }

  lemma {:induction false} LoadedFrom(order: seq<string>, disk: map<string, string>, entry: (string, FileInfo))
    returns (b: string)
    requires forall n :: n in order ==> n in disk
    requires Load(order, disk).Some? && entry in Load(order, disk).value
    ensures b in order && !Dotted(b) && ReadFileText(disk[b]).Some? && entry in ReadFileText(disk[b]).value
  {
    var last := |order| - 1;
    if entry in Load(order[..last], disk).value {
      b := LoadedFrom(order[..last], disk, entry);
    } else {
      b := order[last];
    }
  }

  lemma {:induction false} LoadedReadable(order: seq<string>, disk: map<string, string>, b: string)
    requires forall n :: n in order ==> n in disk
    requires Load(order, disk).Some? && b in order && !Dotted(b)
    ensures ReadFileText(disk[b]).Some?
  {
    var last := |order| - 1;
    if b != order[last] { LoadedReadable(order[..last], disk, b); }
  }

  lemma {:induction false} CollectedEntry(entries: seq<(string, FileInfo)>, n: string)
    requires n in Collect(entries)
    ensures (n, Collect(entries)[n]) in entries
  {
    var last := |entries| - 1;
    if n == entries[last].0 {
      assert entries[last] in entries;
    } else {
      CollectedEntry(entries[..last], n);
    }
  }

  lemma {:induction false} LinesLackNewline(text: string)
    ensures forall l :: l in Lines(text) ==> '\n' !in l
    decreases |text|
  {
    if text != "" {
      PiecesLackSeparator(text, '\n');
      var parts := Split(text, '\n');
      if |parts| == 1 {
        Unsplit(text, '\n');
      } else {
        HeadShorter(text, '\n');
        LinesLackNewline(text[|parts[0]| + 1..]);
      }
    }
  }

  lemma ReadIsClean(text: string, entry: (string, FileInfo))
    requires ReadFileText(text).Some? && entry in ReadFileText(text).value
    ensures Clean(entry.0) && Clean(entry.1.checksum) && Clean(entry.1.folder)
  {
    var i :| 0 <= i < |ReadFileText(text).value| && ReadFileText(text).value[i] == entry;
    EachAt(ParseFile, Lines(text), i);
    LinesLackNewline(text);
    ParsedIsClean(Lines(text)[i]);
  }

  lemma ReadableIsShort(name: string, info: FileInfo)
    requires Uint64Sized(info) && Clean(name) && Clean(info.checksum) && Clean(info.folder)
    requires ReadFileText(FileText(name, info)).Some?
    ensures |FileBody(name, info)| < MAX_LINE
  {
    TitlesAreTitles();
    ScannedIsShort(TITLES, name, info, FileBody(name, info));
  }

  lemma ScannedIsShort(titles: seq<string>, name: string, info: FileInfo, body: string)
    requires |titles| == 6 && forall i :: 0 <= i < 6 ==> Title(titles[i])
    requires Uint64Sized(info) && Clean(name) && Clean(info.checksum) && Clean(info.folder)
    requires body == Join(Pieces(titles, Values(name, info)), ',') && Scannable(body + "\n")
    ensures |body| < MAX_LINE
  {
    NumberIsClean(info.chunkSize);
    NumberIsClean(info.totalChunks);
    NumberIsClean(info.fileSize);
    BodyKeepsEnd(titles, Values(name, info));
    OneLine(body);
  }

  lemma RestoredIsClean(order: seq<string>, files: map<string, FileInfo>, n: string) returns (b: string)
    requires forall m :: m in order ==> m in files
    requires Load(order, Printed(files)).Some? && Collect(Load(order, Printed(files)).value) == files && n in files
    ensures Clean(n) && Clean(files[n].checksum) && Clean(files[n].folder)
    ensures b in order && !Dotted(b)
    ensures ReadFileText(FileText(b, files[b])).Some? && (n, files[n]) in ReadFileText(FileText(b, files[b])).value
  {
    CollectedEntry(Load(order, Printed(files)).value, n);
    b := LoadedFrom(order, Printed(files), (n, files[n]));
    ReadIsClean(FileText(b, files[b]), (n, files[n]));
  }

  lemma RestoredIsRestorable(order: seq<string>, files: map<string, FileInfo>, n: string)
    requires Enumerates(order, files.Keys) && forall m :: m in order ==> m in files
    requires forall m :: m in files ==> Uint64Sized(files[m])
    requires Load(order, Printed(files)).Some? && Collect(Load(order, Printed(files)).value) == files && n in files
    ensures Restorable(n, files[n])
  {
    var b := RestoredIsClean(order, files, n);
    var _ := RestoredIsClean(order, files, b);
    ReadableIsShort(b, files[b]);
    FileRecordRoundTrip(b, files[b]);
    assert b == n;
  }

  /** A restart brings back exactly the catalogue that was saved precisely when no name, checksum or folder in it holds
      a comma, a colon, a newline or edge whitespace, no name starts with a dot, and every line fits the scanner. */
  lemma RestartRestoresExactly(order: seq<string>, files: map<string, FileInfo>)
    requires Enumerates(order, files.Keys) && forall n :: n in files ==> Uint64Sized(files[n])
    ensures forall n :: n in order ==> n in files
    ensures (Load(order, Printed(files)).Some? && Collect(Load(order, Printed(files)).value) == files)
       <==> forall n :: n in files ==> Restorable(n, files[n])
  {
    assert forall n :: n in order <==> n in set x | x in order;
    if forall n :: n in files ==> Restorable(n, files[n]) { AllRestored(order, files); }
    if Load(order, Printed(files)).Some? && Collect(Load(order, Printed(files)).value) == files {
      forall n | n in files ensures Restorable(n, files[n]) { RestoredIsRestorable(order, files, n); }
    }
  }

  // ----- the catalogue is the plain map -----

  /** Writes stay within the names and sizes the protocol and the restart can carry. */
  predicate Allowed(c: Setup, r: Request) {
    r.Write? ==> Uint64Sized(r.info) && Restorable(r.name, r.info) && c.creates(r.name)
  }

  ghost predicate Matches(s: Store, t: Table) {
    && s.up == t.up && s.located == t.located && s.disk == Printed(t.files)
    && (s.up ==> s.files == t.files && InFilter(s))
    && forall n :: n in t.files ==> Uint64Sized(t.files[n]) && Restorable(n, t.files[n])
  }

  lemma RestartMatches(c: Setup, s: Store, t: Table, r: Request)
    requires Matches(s, t) && r.Restart? && Possible(s, r)
    ensures Matches(Step(c, s, r).0, TableStep(t, r).0) && Step(c, s, r).1 == TableStep(t, r).1
  {
    assert s.disk.Keys == t.files.Keys;
    AllRestored(r.order, t.files);
    CollectedNames(EntriesOf(r.order, t.files));
  }

  lemma PrintedAdds(files: map<string, FileInfo>, name: string, info: FileInfo)
    ensures Printed(files[name := info]) == Printed(files)[name := FileText(name, info)]
  {}

  lemma PrintedRemoves(files: map<string, FileInfo>, name: string)
    ensures Printed(files - {name}) == Printed(files) - {name}
  {}

  lemma WriteMatches(c: Setup, s: Store, t: Table, name: string, info: FileInfo, anyActive: bool)
    requires Matches(s, t) && s.up && Allowed(c, Request.Write(name, info, anyActive))
    ensures var (s', a), (t', b) := WriteStep(c, s, name, info, anyActive),
            TableStep(t, Request.Write(name, info, anyActive));
            Matches(s', t') && a == b
  {
    if name in s.files {
      ContainsCatalogued(c, s, name);
    } else {
      PrintedAdds(t.files, name, info);
    }
  }

  lemma DeleteMatches(c: Setup, s: Store, t: Table, name: string, held: bool)
    requires Matches(s, t) && s.up
    ensures var (s', a), (t', b) := DeleteStep(c, s, name, held), TableStep(t, Request.Delete(name, held));
            Matches(s', t') && a == b
  {
    if name in s.files {
      ContainsCatalogued(c, s, name);
      PrintedRemoves(t.files, name);
    }
  }

  lemma StepMatches(c: Setup, s: Store, t: Table, r: Request)
    requires Matches(s, t) && Possible(s, r) && Allowed(c, r)
    ensures Matches(Step(c, s, r).0, TableStep(t, r).0) && Step(c, s, r).1 == TableStep(t, r).1
  {
    match r
    case Restart(_) => RestartMatches(c, s, t, r);
    case Write(name, info, anyActive) => if s.up { WriteMatches(c, s, t, name, info, anyActive); }
    case Delete(name, held) => if s.up { DeleteMatches(c, s, t, name, held); }
    case Read(name) => if s.up && name in s.files { ContainsCatalogued(c, s, name); }
    case SaveLocations(_) =>
  }

  lemma {:induction false} RunMatches(c: Setup, s: Store, t: Table, rs: seq<Request>)
    requires Matches(s, t) && PossibleRun(c, s, rs) && forall i :: 0 <= i < |rs| ==> Allowed(c, rs[i])
    ensures Answers(c, s, rs) == TableAnswers(t, rs)
    ensures Matches(Final(c, s, rs), TableFinal(t, rs))
    decreases |rs|
  {
    if rs != [] {
      assert Allowed(c, rs[0]);
      StepMatches(c, s, t, rs[0]);
      forall i | 0 <= i < |rs| - 1 ensures Allowed(c, rs[1..][i]) { assert Allowed(c, rs[i + 1]); }
      RunMatches(c, Step(c, s, rs[0]).0, TableStep(t, rs[0]).0, rs[1..]);
    }
  }

  /** Over any writes, deletes, reads and restarts, every answer the controller gives is the one the plain table of
      files gives, and while the controller is up its map is the table. */
  lemma CatalogueIsTable(c: Setup, rs: seq<Request>)
    requires PossibleRun(c, EMPTY, rs) && forall i :: 0 <= i < |rs| ==> Allowed(c, rs[i])
    ensures Answers(c, EMPTY, rs) == TableAnswers(Table(true, map[], {}), rs)
    ensures var s, t := Final(c, EMPTY, rs), TableFinal(Table(true, map[], {}), rs);
            s.up == t.up && (s.up ==> s.files == t.files)
  {
    assert Printed(map[]) == map[];
    RunMatches(c, EMPTY, Table(true, map[], {}), rs);
  }
}
