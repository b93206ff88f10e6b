/** The metadata file a storage node keeps for a chunk, and when the node can read its own record back. */
module ChunkRecords {
  import opened Types
  import opened Text
  import opened Records
  import opened NodeSpec
  import opened Sets

  function DataPath(dir: string, c: string): string { dir + "/ChunkData/" + c }

  function RecordText(dir: string, c: string, rec: Record): string {
    ChunkText(rec.file, c, DataPath(dir, c), rec.size, rec.checksum)
  }

  /** What a heartbeat says about one chunk: file, chunk and path. */
  type Entry = (string, string, string)

  function KeyOf(e: Entry): Key { Key(e.0, e.1) }

  function Keys(entries: seq<Entry>): set<Key> { set e | e in entries :: KeyOf(e) }

  /** What a heartbeat reads from one metadata file; None when the line does not fit the scanner or has too few
      fields. */
  function ReadChunkText(text: string): Option<seq<Entry>> {
    if Scannable(text) then Each(ParseChunk, Lines(text)) else None
  }

  /** A record whose line is taken apart as it was put together and fits the scanner, under a name that is not
      skipped. */
  ghost predicate Legible(dir: string, c: string, rec: Record) {
    && Plain(rec.file) && Plain(c) && Plain(rec.checksum) && Plain(DataPath(dir, c)) && c != "" && c[0] != '.'
    && |RecordText(dir, c, rec)| <= MAX_LINE
  }

  /** The text of a legible record is one line that gives back its names. */
  lemma LegibleReads(dir: string, c: string, rec: Record)
    requires Legible(dir, c, rec)
    ensures ReadChunkText(RecordText(dir, c, rec)) == Some([(rec.file, c, DataPath(dir, c))])
  {
    PlainReads(dir, c, rec);
  }

  lemma PlainReads(dir: string, c: string, rec: Record)
    requires Plain(rec.file) && Plain(c) && Plain(DataPath(dir, c)) && Plain(rec.checksum)
             && |RecordText(dir, c, rec)| <= MAX_LINE
    ensures ReadChunkText(RecordText(dir, c, rec)) == Some([(rec.file, c, DataPath(dir, c))])
  {
    ChunkNamesRoundTrip(rec.file, c, DataPath(dir, c), rec.size, rec.checksum);
    var text := RecordText(dir, c, rec);
    PiecesAreShort(text, '\n');
    var lines := Lines(text);
    assert lines == [lines[0]];
    EachSingle(ParseChunk, lines[0], (rec.file, c, DataPath(dir, c)));
  }

  lemma ParsedIsPlain(line: string)
    requires '\n' !in line && ParseChunk(line).Some?
    ensures var (file, chunk, path) := ParseChunk(line).value; Plain(file) && Plain(chunk) && Plain(path)
  {
    PiecesLackSeparator(line, ',');
    var content := Split(line, ',');
    TrimGivesTrimmed(content[0]);
    TrimGivesTrimmed(content[1]);
    TrimGivesTrimmed(content[2]);
  }

  /** With a plain checksum, a heartbeat lists a recorded chunk as it was saved, and nothing else, exactly when file,
      chunk and path hold no comma, newline or edge whitespace and the line fits the scanner. */
  lemma RecordReadsExactly(dir: string, c: string, rec: Record)
    requires Plain(rec.checksum)
    ensures ReadChunkText(RecordText(dir, c, rec)) == Some([(rec.file, c, DataPath(dir, c))])
       <==> Plain(rec.file) && Plain(c) && Plain(DataPath(dir, c)) && |RecordText(dir, c, rec)| <= MAX_LINE
  {
    var text := RecordText(dir, c, rec);
    if Plain(rec.file) && Plain(c) && Plain(DataPath(dir, c)) && |text| <= MAX_LINE { PlainReads(dir, c, rec); }
    if ReadChunkText(text) == Some([(rec.file, c, DataPath(dir, c))]) {
      var body := rec.file + ", " + c + ", " + DataPath(dir, c) + ", " + Decimal(rec.size) + ", " + rec.checksum;
      assert text == body + "\n";
      EachAt(ParseChunk, Lines(text), 0);
      OneLineOnly(body);
      OneLine(body);
      ParsedIsPlain(DropCR(body));
    }
  }

  /** The line of a first chunk called as for a file "a,b", from the third comma on. */
  function CommaTail(dir: string, size: nat, checksum: string): string {
    "b_chunk_0, " + DataPath(dir, "a,b_chunk_0") + ", " + Decimal(size) + ", " + checksum
  }

  function CommaLine(tail: string): string { "a" + [','] + ("b" + [','] + (" a" + [','] + tail)) }

  lemma CommaName()
    ensures ChunkName("a,b", 0) == "a,b_chunk_0"
  {}

  lemma CommaText(dir: string, size: nat, checksum: string)
    ensures RecordText(dir, "a,b_chunk_0", Record("a,b", size, checksum))
            == CommaLine(CommaTail(dir, size, checksum)) + "\n"
  {}

  /** A file called "a,b": a heartbeat reports its first chunk as chunk "b" of a file "a". */
  lemma CommaIsMisread(dir: string, size: nat, checksum: string)
    requires PlainDir(dir) && Plain(checksum) && |RecordText(dir, ChunkName("a,b", 0),
                                                             Record("a,b", size, checksum))| <= MAX_LINE
    ensures ReadChunkText(RecordText(dir, ChunkName("a,b", 0), Record("a,b", size, checksum)))
            == Some([("a", "b", "a")])
  {
    CommaName();
    CommaText(dir, size, checksum);
    CommaBody(dir, size, checksum);
    CommaParses(CommaTail(dir, size, checksum));
    LineReads(CommaLine(CommaTail(dir, size, checksum)), ("a", "b", "a"));
  }

  lemma LineReads(body: string, e: Entry)
    requires '\n' !in body && DropCR(body) == body && ParseChunk(body) == Some(e) && |body| < MAX_LINE
    ensures ReadChunkText(body + "\n") == Some([e])
  {
    OneLine(body);
    EachSingle(ParseChunk, body, e);
  }

  lemma CommaParses(tail: string)
    ensures ParseChunk(CommaLine(tail)) == Some(("a", "b", "a"))
  {
    SplitFirst("a", "b" + [','] + (" a" + [','] + tail), ',');
    SplitFirst("b", " a" + [','] + tail, ',');
    SplitFirst(" a", tail, ',');
    TrimPadded("a");
    TrimPadded("b");
    assert " a" == " " + "a";
  }

  lemma CommaBody(dir: string, size: nat, checksum: string)
    requires PlainDir(dir) && Plain(checksum)
    ensures var body := CommaLine(CommaTail(dir, size, checksum)); '\n' !in body && DropCR(body) == body
  {
    var tail := CommaTail(dir, size, checksum);
    var body := CommaLine(tail);
    DecimalRoundTrip(size);
    NumeralIsPlain(Decimal(size));
    forall x | x in body ensures x != '\n' {
      assert x in "ab,  " || x in tail;
      assert x in tail ==> x in "b_chunk_0, /ChunkData/a" || x in dir || x in Decimal(size) || x in checksum;
    }
    if checksum != "" { assert body[|body| - 1] == checksum[|checksum| - 1]; } else { assert body[|body| - 1] == ' '; }
  }

  /** A piece of a text that ends in the separator is shorter than the text. */
  lemma PiecesAreShort(text: string, sep: char)
    requires text != "" && text[|text| - 1] == sep
    ensures forall i :: 0 <= i < |Split(text, sep)| ==> |Split(text, sep)[i]| < |text|
  {
    PieceLengths(text, sep);
  }

  lemma {:induction false} PieceLengths(text: string, sep: char)
    ensures forall i :: 0 <= i < |Split(text, sep)| ==> |Split(text, sep)[i]| <= |text|
    ensures sep in text ==> forall i :: 0 <= i < |Split(text, sep)| ==> |Split(text, sep)[i]| < |text|
  {
    if text != "" { PieceLengths(text[1..], sep); }
  }

  // ----- a heartbeat -----

  function MetadataName(c: string): string { c + "_metadata" }

  function Append(front: Option<seq<Entry>>, more: Option<seq<Entry>>): Option<seq<Entry>> {
    if front.Some? && more.Some? then Some(front.value + more.value) else None
  }

  /** What one metadata file adds to a heartbeat; files whose names start with a dot are skipped. */
  function Listed(c: string, text: string): Option<seq<Entry>> {
    if MetadataName(c)[0] == '.' then Some([]) else ReadChunkText(text)
  }

  /** What a heartbeat lists, with the metadata files in the order of the directory; None when one ends the node. */
  function Heartbeat(order: seq<string>, texts: map<string, string>): Option<seq<Entry>>
    requires forall c :: c in order ==> c in texts
  {
    if order == [] then Some([])
    else
      var last := |order| - 1;
      Append(Heartbeat(order[..last], texts), Listed(order[last], texts[order[last]]))
  }

  lemma {:induction false} HeartbeatEnds(order: seq<string>, texts: map<string, string>, i: nat)
    requires i <= |order| && (forall c :: c in order ==> c in texts) && Heartbeat(order[..i], texts).None?
    ensures Heartbeat(order, texts).None?
    decreases |order| - i
  {
    if i == |order| {
      assert order[..i] == order;
    } else {
      assert order[..i + 1][..i] == order[..i];
      HeartbeatEnds(order, texts, i + 1);
    }
  }

  ghost predicate AllLegible(dir: string, n: Node) { forall c :: c in n.meta ==> Legible(dir, c, n.meta[c]) }

  ghost predicate Texts(dir: string, n: Node, texts: map<string, string>) {
    texts.Keys == n.meta.Keys && forall c :: c in n.meta ==> texts[c] == RecordText(dir, c, n.meta[c])
  }

  lemma LegibleListed(dir: string, c: string, rec: Record)
    requires Legible(dir, c, rec)
    ensures Listed(c, RecordText(dir, c, rec)) == Some([(rec.file, c, DataPath(dir, c))])
  {
    LegibleReads(dir, c, rec);
    assert MetadataName(c)[0] == c[0];
  }

  function EntryOf(dir: string, n: Node, c: string): Entry
    requires c in n.meta
  { (n.meta[c].file, c, DataPath(dir, c)) }

  ghost predicate ListedAlone(dir: string, n: Node, c: string, text: string) {
    c in n.meta && Listed(c, text) == Some([EntryOf(dir, n, c)])
  }

  ghost predicate ListsAll(dir: string, n: Node, order: seq<string>, chunks: seq<Entry>) {
    |chunks| == |order| && forall i :: 0 <= i < |order| ==> order[i] in n.meta && chunks[i] == EntryOf(dir, n, order[i])
  }

  lemma ListsOneMore(dir: string, n: Node, front: seq<string>, c: string, chunks: seq<Entry>)
    requires ListsAll(dir, n, front, chunks) && c in n.meta
    ensures ListsAll(dir, n, front + [c], chunks + [EntryOf(dir, n, c)])
  {}

  lemma HeartbeatOneMore(front: seq<string>, c: string, texts: map<string, string>, chunks: seq<Entry>, e: Entry)
    requires (forall d :: d in front ==> d in texts) && c in texts
    requires Heartbeat(front, texts) == Some(chunks) && Listed(c, texts[c]) == Some([e])
    ensures Heartbeat(front + [c], texts) == Some(chunks + [e])
  {
    assert (front + [c])[..|front|] == front;
  }

  lemma {:induction false} HeartbeatLists(dir: string, n: Node, texts: map<string, string>, order: seq<string>)
    requires forall c :: c in order ==> c in texts
    requires forall c {:trigger ListedAlone(dir, n, c, texts[c])} :: c in order ==> ListedAlone(dir, n, c, texts[c])
    ensures Heartbeat(order, texts).Some? && ListsAll(dir, n, order, Heartbeat(order, texts).value)
  {
    if order != [] {
      var front, c := order[..|order| - 1], order[|order| - 1];
      assert order == front + [c];
      HeartbeatLists(dir, n, texts, front);
      assert ListedAlone(dir, n, c, texts[c]);
      HeartbeatOneMore(front, c, texts, Heartbeat(front, texts).value, EntryOf(dir, n, c));
      ListsOneMore(dir, n, front, c, Heartbeat(front, texts).value);
    }
  }

  lemma ListsAllIsListing(dir: string, n: Node, order: seq<string>, chunks: seq<Entry>)
    requires ListsAll(dir, n, order, chunks) && Enumerates(order, n.meta.Keys)
    ensures Keys(chunks) == Listing(n)
  {
    forall k | k in Listing(n) ensures k in Keys(chunks) {
      var c :| c in n.meta && k == Key(n.meta[c].file, c);
      assert c in set x | x in order;
      var j :| 0 <= j < |order| && order[j] == c;
      assert chunks[j] in chunks;
    }
    forall k | k in Keys(chunks) ensures k in Listing(n) {
      var e :| e in chunks && k == KeyOf(e);
      var j :| 0 <= j < |chunks| && chunks[j] == e;
      assert order[j] in n.meta;
    }
  }

  /** A heartbeat of a node with legible records lists exactly what the node stores, each chunk once. */
  lemma HeartbeatIsListing(dir: string, n: Node, texts: map<string, string>, order: seq<string>)
    requires AllLegible(dir, n) && Texts(dir, n, texts) && Enumerates(order, texts.Keys)
    ensures (forall c :: c in order ==> c in texts) && Heartbeat(order, texts).Some?
    ensures |Heartbeat(order, texts).value| == |order| && Keys(Heartbeat(order, texts).value) == Listing(n)
  {
    EnumeratesAll(order, texts.Keys);
    forall c {:trigger ListedAlone(dir, n, c, texts[c])} | c in order ensures ListedAlone(dir, n, c, texts[c]) {
      LegibleListed(dir, c, n.meta[c]);
    }
    HeartbeatLists(dir, n, texts, order);
    ListsAllIsListing(dir, n, order, Heartbeat(order, texts).value);
  }

  // ----- names that stay legible as chunk names -----

  /** A directory that leaves the paths under it plain. */
  predicate PlainDir(dir: string) { ',' !in dir && '\n' !in dir && (dir == "" || !IsSpace(dir[0])) }

  /** A file name the whole system can carry: plain in every text line, and a file name of its own in every
      directory. */
  predicate GoodName(file: string) { Clean(file) && file != "" && file[0] != '.' && '/' !in file }

  lemma ChunkNameIsPlain(file: string, i: nat)
    requires GoodName(file)
    ensures var c := ChunkName(file, i); Plain(c) && c != "" && c[0] == file[0] && '/' !in c
  {
    DecimalRoundTrip(i);
    var d := Decimal(i);
    NumeralIsPlain(d);
    var c := ChunkName(file, i);
    assert c[|c| - 1] == d[|d| - 1];
    forall x | x in c ensures x != ',' && x != '\n' && x != '/' {
      assert x in file || x in "_chunk_" || x in d;
    }
  }

  lemma DataPathIsPlain(dir: string, c: string)
    requires PlainDir(dir) && Plain(c) && c != ""
    ensures Plain(DataPath(dir, c))
  {
    var p := DataPath(dir, c);
    assert p[|p| - 1] == c[|c| - 1];
    assert p[0] == if dir == "" then '/' else dir[0];
    forall x | x in p ensures x != ',' && x != '\n' {
      assert x in dir || x in "/ChunkData/" || x in c;
    }
  }

  /** The chunk of a well-named file stays legible on every node whose line fits the scanner. */
  lemma GoodNameIsLegible(dir: string, file: string, i: nat, rec: Record)
    requires PlainDir(dir) && GoodName(file) && rec.file == file && Plain(rec.checksum)
    requires |RecordText(dir, ChunkName(file, i), rec)| <= MAX_LINE
    ensures Legible(dir, ChunkName(file, i), rec)
  {
    ChunkNameIsPlain(file, i);
    DataPathIsPlain(dir, ChunkName(file, i));
  }
}
