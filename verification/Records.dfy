/** The two text records the programs keep on disk, and the names of chunks. */
module Records {
  import opened Types
  import opened Text

  // ----- the controller's record of a file -----

  datatype FileInfo = FileInfo(totalChunks: nat, chunkSize: nat, fileSize: nat, checksum: string, folder: string)

  predicate Uint64Sized(info: FileInfo) {
    info.totalChunks < UINT64 && info.chunkSize < UINT64 && info.fileSize < UINT64
  }

  /** A field that survives being printed between commas after a label and a colon. */
  predicate Clean(s: string) {
    Trimmed(s) && ',' !in s && ':' !in s && '\n' !in s
  }

  /** Titles and values side by side, as one comma-separated line. */
  function Pieces(titles: seq<string>, values: seq<string>): seq<string>
    requires |titles| == |values|
  {
    seq(|titles|, i requires 0 <= i < |titles| => titles[i] + ": " + values[i])
  }

  const TITLES := ["FileName", "ChunkSize", " FileCheckSum", " TotalNumberOfChunks", " FileSize", " FolderName"]

  function Values(name: string, info: FileInfo): seq<string> {
    [name, Decimal(info.chunkSize), info.checksum, Decimal(info.totalChunks), Decimal(info.fileSize), info.folder]
  }

  function FileBody(name: string, info: FileInfo): string { Join(Pieces(TITLES, Values(name, info)), ',') }

  /** What saveFileMetadata writes. */
  function FileText(name: string, info: FileInfo): string { FileBody(name, info) + "\n" }

  /** The line, spelt out. */
  lemma FileLine(name: string, info: FileInfo)
    ensures var size, sum := "ChunkSize: " + Decimal(info.chunkSize), " FileCheckSum: " + info.checksum;
            var total := " TotalNumberOfChunks: " + Decimal(info.totalChunks);
            var bytes := " FileSize: " + Decimal(info.fileSize);
            FileBody(name, info) == ("FileName: " + name) + "," + size + "," + sum + "," + total + "," + bytes + ","
                                    + (" FolderName: " + info.folder)
    ensures FileText(name, info) == FileBody(name, info) + "\n"
  {
    var p := Pieces(TITLES, Values(name, info));
    SixJoined(p);
    assert p[0] == "FileName: " + name && p[1] == "ChunkSize: " + Decimal(info.chunkSize);
    assert p[2] == " FileCheckSum: " + info.checksum && p[3] == " TotalNumberOfChunks: " + Decimal(info.totalChunks);
    assert p[4] == " FileSize: " + Decimal(info.fileSize) && p[5] == " FolderName: " + info.folder;
  }

  lemma SixJoined(p: seq<string>)
    requires |p| == 6
    ensures Join(p, ',') == p[0] + "," + p[1] + "," + p[2] + "," + p[3] + "," + p[4] + "," + p[5]
  {
    assert Join(p[4..], ',') == p[4] + "," + p[5];
    assert p[3..][1..] == p[4..] && p[2..][1..] == p[3..] && p[1..][1..] == p[2..];
    assert Join(p[3..], ',') == p[3] + "," + (p[4] + "," + p[5]);
    assert Join(p[2..], ',') == p[2] + "," + (p[3] + "," + (p[4] + "," + p[5]));
    assert Join(p[1..], ',') == p[1] + "," + (p[2] + "," + (p[3] + "," + (p[4] + "," + p[5])));
  }

  /** The text after the first colon of one comma-separated piece; None when there is no colon to index past. */
  function Field(piece: string): Option<string> {
    var parts := Split(TrimSpace(piece), ':');
    if |parts| < 2 then None else Some(TrimSpace(parts[1]))
  }

  /** parseFile on one scanned line; None when it would index out of range. */
  function ParseFile(line: string): Option<(string, FileInfo)> {
    var content := Split(line, ',');
    if |content| < 6 then None
    else
      match (Field(content[0]), Field(content[1]), Field(content[2]), Field(content[3]), Field(content[4]),
             Field(content[5]))
      case (Some(name), Some(size), Some(sum), Some(total), Some(bytes), Some(folder)) =>
        Some((name, FileInfo(ParseUint(total), ParseUint(size), ParseUint(bytes), sum, folder)))
      case _ => None
  }

  /** The results of all of `s`, or None when one has none. */
  function Each<A, B>(parse: A -> Option<B>, s: seq<A>): Option<seq<B>> {
    if s == [] then Some([])
    else
      match (parse(s[0]), Each(parse, s[1..]))
      case (Some(first), Some(rest)) => Some([first] + rest)
      case _ => None
  }

  lemma {:induction false} EachSnoc<A, B>(parse: A -> Option<B>, s: seq<A>, x: A)
    ensures Each(parse, s + [x]) ==
            match (Each(parse, s), parse(x))
            case (Some(front), Some(last)) => Some(front + [last])
            case _ => None
  {
    if s == [] {
      assert s + [x] == [x] && [x][1..] == [];
      if parse(x).Some? {
        EachSingle(parse, x, parse(x).value);
        assert [] + [parse(x).value] == [parse(x).value];
      }
    } else {
      EachSnoc(parse, s[1..], x);
      assert (s + [x])[1..] == s[1..] + [x];
      match (parse(s[0]), Each(parse, s[1..]), parse(x)) {
        case (Some(first), Some(rest), Some(last)) => assert [first] + (rest + [last]) == ([first] + rest) + [last];
        case _ =>
      }
    }
  }

  lemma {:induction false} EachPrefix<A, B>(parse: A -> Option<B>, s: seq<A>, i: nat)
    requires i <= |s| && Each(parse, s[..i]).None?
    ensures Each(parse, s).None?
    decreases |s| - i
  {
    if i == |s| {
      assert s[..i] == s;
    } else {
      assert s[..i + 1] == s[..i] + [s[i]];
      EachSnoc(parse, s[..i], s[i]);
      EachPrefix(parse, s, i + 1);
    }
  }

  lemma {:induction false} EachAt<A, B>(parse: A -> Option<B>, s: seq<A>, i: nat)
    requires Each(parse, s).Some?
    ensures |Each(parse, s).value| == |s|
    ensures i < |s| ==> parse(s[i]) == Some(Each(parse, s).value[i])
    decreases |s|
  {
    if s != [] { EachAt(parse, s[1..], if i == 0 then 0 else i - 1); }
  }

  lemma EachSingle<A, B>(parse: A -> Option<B>, x: A, y: B)
    requires parse(x) == Some(y)
    ensures Each(parse, [x]) == Some([y])
  {
    assert [x][1..] == [];
    assert [y] + [] == [y];
  }

  /** What readFile adds to the catalogue from one saved file; None when the controller would stop instead. */
  function ReadFileText(text: string): Option<seq<(string, FileInfo)>> {
    if Scannable(text) then Each(ParseFile, Lines(text)) else None
  }

  predicate Title(t: string) {
    t != "" && t[|t| - 1] != ' ' && !IsSpace(t[|t| - 1]) && ':' !in t && ',' !in t && '\n' !in t
    && (IsSpace(t[0]) ==> |t| > 1 && !IsSpace(t[1]))
  }

  lemma TitleName() ensures Title("FileName") {}
  lemma TitleChunkSize() ensures Title("ChunkSize") {}
  lemma TitleCheckSum() ensures Title(" FileCheckSum") {}
  lemma TitleTotal() ensures Title(" TotalNumberOfChunks") {}
  lemma TitleSize() ensures Title(" FileSize") {}
  lemma TitleFolder() ensures Title(" FolderName") {}

  lemma TitlesAreTitles()
    ensures forall i :: 0 <= i < 6 ==> Title(TITLES[i])
  {
    TitleName();
    TitleChunkSize();
    TitleCheckSum();
    TitleTotal();
    TitleSize();
    TitleFolder();
  }

  lemma TrimPiece(title: string, tail: string)
    requires Title(title)
    ensures exists bare :: ':' !in bare && TrimSpace(title + ":" + tail) == bare + [':'] + TrimRight(tail)
  {
    var piece := title + ":" + tail;
    var bare := if IsSpace(title[0]) then title[1..] else title;
    if IsSpace(title[0]) { assert piece[1..] == bare + ":" + tail; }
    assert TrimLeft(piece) == bare + ":" + tail;
    var head := bare + ":";
    assert TrimRight(head) == head;
    TrimRightConcat(head, tail);
  }

  lemma TrimValue(value: string)
    requires Trimmed(value)
    ensures TrimSpace(TrimRight(" " + value)) == value
    ensures forall c :: c in TrimRight(" " + value) ==> c == ' ' || c in value
  {
    var padded := " " + value;
    TrimRightShape(padded);
    if value == "" {
      assert padded[..0] == "";
    } else {
      assert TrimRight(padded) == padded && padded[1..] == value;
      assert TrimLeft(value) == value;
    }
  }

  lemma FieldOfPiece(title: string, value: string)
    requires Title(title) && Clean(value)
    ensures Field(title + ": " + value) == Some(value)
    ensures ',' !in title + ": " + value
  {
    var piece := title + ": " + value;
    var tail := " " + value;
    assert piece == title + ":" + tail;
    TrimPiece(title, tail);
    TrimValue(value);
    var bare :| ':' !in bare && TrimSpace(piece) == bare + [':'] + TrimRight(tail);
    SplitFirst(bare, TrimRight(tail), ':');
    SplitWhole(TrimRight(tail), ':');
  }

  lemma FieldIsClean(piece: string)
    requires ',' !in piece && '\n' !in piece && Field(piece).Some?
    ensures Clean(Field(piece).value)
  {
    TrimGivesTrimmed(piece);
    var t := TrimSpace(piece);
    PiecesLackSeparator(t, ':');
    TrimGivesTrimmed(Split(t, ':')[1]);
  }

  lemma ParsedIsClean(line: string)
    requires '\n' !in line && ParseFile(line).Some?
    ensures var (name, info) := ParseFile(line).value; Clean(name) && Clean(info.checksum) && Clean(info.folder)
  {
    PiecesLackSeparator(line, ',');
    var content := Split(line, ',');
    FieldIsClean(content[0]);
    FieldIsClean(content[2]);
    FieldIsClean(content[5]);
  }

  lemma CleanParses(titles: seq<string>, values: seq<string>)
    requires |titles| == |values| == 6 && forall i :: 0 <= i < 6 ==> Title(titles[i]) && Clean(values[i])
    ensures ParseFile(Join(Pieces(titles, values), ',')) ==
            Some((values[0], FileInfo(ParseUint(values[3]), ParseUint(values[1]), ParseUint(values[4]), values[2],
                                      values[5])))
  {
    var pieces := Pieces(titles, values);
    forall i | 0 <= i < 6 ensures Field(pieces[i]) == Some(values[i]) && ',' !in pieces[i] {
      FieldOfPiece(titles[i], values[i]);
    }
    SplitJoin(pieces, ',');
  }

  lemma {:induction false} JoinEnds(parts: seq<string>, sep: char) returns (front: string)
    requires |parts| >= 1
    ensures Join(parts, sep) == front + parts[|parts| - 1]
  {
    if |parts| == 1 {
      front := "";
    } else {
      var rest := JoinEnds(parts[1..], sep);
      front := parts[0] + [sep] + rest;
    }
  }

  lemma {:induction false} JoinChars(parts: seq<string>, sep: char, c: char)
    requires |parts| >= 1 && c != sep
    ensures c in Join(parts, sep) <==> exists i :: 0 <= i < |parts| && c in parts[i]
  {
    if |parts| > 1 {
      JoinChars(parts[1..], sep, c);
      if i :| 0 <= i < |parts| && c in parts[i] {
        if i > 0 { assert c in parts[1..][i - 1]; }
      }
    }
  }

  lemma NumberIsClean(n: nat)
    requires n < UINT64
    ensures Clean(Decimal(n)) && ParseUint(Decimal(n)) == n
  {
    DecimalRoundTrip(n);
    NumeralIsPlain(Decimal(n));
  }

  /** The scanner gives the line back as it was written: a carriage return can only end an unclean folder. */
  lemma BodyKeepsEnd(titles: seq<string>, values: seq<string>)
    requires |titles| == |values| == 6 && forall i :: 0 <= i < 6 ==> Title(titles[i]) && Clean(values[i])
    ensures var body := Join(Pieces(titles, values), ','); '\n' !in body && DropCR(body) == body
  {
    var pieces := Pieces(titles, values);
    JoinChars(pieces, ',', '\n');
    var front := JoinEnds(pieces, ',');
    assert pieces[5] == titles[5] + ": " + values[5];
    if values[5] != "" { assert pieces[5][|pieces[5]| - 1] == values[5][|values[5]| - 1]; }
  }

  /** A saved record is read back as it was exactly when its name, checksum and folder hold no comma, colon,
      newline or edge whitespace and the line fits the scanner. */
  lemma FileRecordRoundTrip(name: string, info: FileInfo)
    requires Uint64Sized(info)
    ensures ReadFileText(FileText(name, info)) == Some([(name, info)])
       <==> Clean(name) && Clean(info.checksum) && Clean(info.folder) && |FileBody(name, info)| < MAX_LINE
  {
    var body := FileBody(name, info);
    if Clean(name) && Clean(info.checksum) && Clean(info.folder) && |body| < MAX_LINE {
      TitlesAreTitles();
      CleanReadsBack(TITLES, name, info, body);
    }
    if ReadFileText(body + "\n") == Some([(name, info)]) {
      EachAt(ParseFile, Lines(body + "\n"), 0);
      OneLineOnly(body);
      OneLine(body);
      ParsedIsClean(DropCR(body));
    }
  }

  lemma CleanReadsBack(titles: seq<string>, name: string, info: FileInfo, body: string)
    requires |titles| == 6 && forall i :: 0 <= i < 6 ==> Title(titles[i])
    requires Uint64Sized(info) && Clean(name) && Clean(info.checksum) && Clean(info.folder)
    requires |body| < MAX_LINE && body == Join(Pieces(titles, Values(name, info)), ',')
    ensures ReadFileText(body + "\n") == Some([(name, info)])
  {
    NumberIsClean(info.chunkSize);
    NumberIsClean(info.totalChunks);
    NumberIsClean(info.fileSize);
    var values := Values(name, info);
    BodyKeepsEnd(titles, values);
    CleanParses(titles, values);
    OneLine(body);
    EachSingle(ParseFile, body, (name, info));
  }

  // ----- a storage node's record of a chunk -----

  /** A field that survives being printed between commas. */
  predicate Plain(s: string) { Trimmed(s) && ',' !in s && '\n' !in s }

  function ChunkText(file: string, chunk: string, path: string, size: nat, checksum: string): string {
    file + ", " + chunk + ", " + path + ", " + Decimal(size) + ", " + checksum + "\n"
  }

  /** getChunkInfoFromDisk takes the last comma-separated piece of the whole record. */
  function ChecksumOf(text: string): string {
    var content := Split(text, ',');
    TrimSpace(content[|content| - 1])
  }

  /** What a checksum that was printed reads back as. */
  function ReadsAs(checksum: string): string { ChecksumOf(" " + checksum + "\n") }

  /** Whatever the names and the checksum hold, only the checksum decides what is read back. */
  lemma ChecksumReadsAs(file: string, chunk: string, path: string, size: nat, checksum: string)
    ensures ChecksumOf(ChunkText(file, chunk, path, size, checksum)) == ReadsAs(checksum)
  {
    var front := file + ", " + chunk + ", " + path + ", " + Decimal(size);
    var last := " " + checksum + "\n";
    assert ChunkText(file, chunk, path, size, checksum) == front + [','] + last;
    LastPiece(front, last, ',');
  }

  lemma PlainReadsAsIs(checksum: string)
    requires Plain(checksum)
    ensures ReadsAs(checksum) == checksum
  {
    ChunkChecksumRoundTrip("", "", "", 0, checksum);
    ChecksumReadsAs("", "", "", 0, checksum);
  }

  /** readFile takes the first three pieces of a line; None when it would index out of range. */
  function ParseChunk(line: string): Option<(string, string, string)> {
    var content := Split(line, ',');
    if |content| < 3 then None
    else Some((TrimSpace(content[0]), TrimSpace(content[1]), TrimSpace(content[2])))
  }

  lemma TrimPadded(s: string)
    requires Trimmed(s)
    ensures TrimSpace(s) == s && TrimSpace(" " + s) == s && TrimSpace(" " + s + "\n") == s
  {
    assert TrimLeft(s) == s && TrimRight(s) == s;
    assert (" " + s)[1..] == s;
    assert (" " + s + "\n")[1..] == s + "\n";
    assert (s + "\n")[..|s + "\n"| - 1] == s;
    if s == "" {
      assert (s + "\n")[1..] == "";
      assert TrimLeft(s + "\n") == "";
      assert TrimLeft(" " + s + "\n") == TrimLeft(s + "\n");
    } else {
      assert TrimLeft(s + "\n") == s + "\n";
    }
  }

  /** The checksum is read back exactly when it holds no comma and no edge whitespace, whatever the names hold. */
  lemma ChunkChecksumRoundTrip(file: string, chunk: string, path: string, size: nat, checksum: string)
    ensures ChecksumOf(ChunkText(file, chunk, path, size, checksum)) == checksum
       <==> Trimmed(checksum) && ',' !in checksum
  {
    var text := ChunkText(file, chunk, path, size, checksum);
    var front := file + ", " + chunk + ", " + path + ", " + Decimal(size);
    var last := " " + checksum + "\n";
    assert text == front + [','] + last;
    if Trimmed(checksum) && ',' !in checksum {
      SplitLast(front, last, ',');
      TrimPadded(checksum);
    }
    if ChecksumOf(text) == checksum {
      var content := Split(text, ',');
      PiecesLackSeparator(text, ',');
      TrimGivesTrimmed(content[|content| - 1]);
    }
  }

  lemma ChunkTextIsJoin(fields: seq<string>)
    requires |fields| == 5
    ensures Join(fields, ',') == fields[0] + "," + fields[1] + "," + fields[2] + "," + fields[3] + "," + fields[4]
  {
    assert fields[1..][1..] == fields[2..] && fields[2..][1..] == fields[3..] && fields[3..][1..] == fields[4..];
    assert Join(fields[4..], ',') == fields[4];
    assert Join(fields[3..], ',') == fields[3] + "," + fields[4];
    assert Join(fields[2..], ',') == fields[2] + "," + (fields[3] + "," + fields[4]);
    assert Join(fields[1..], ',') == fields[1] + "," + (fields[2] + "," + (fields[3] + "," + fields[4]));
  }

  lemma SpaceAfterComma(s: string, t: string)
    ensures s + ", " + t == s + "," + (" " + t)
  {}

  lemma JoinedFieldsParse(fields: seq<string>)
    requires |fields| == 5 && forall i :: 0 <= i < 5 ==> ',' !in fields[i] && '\n' !in fields[i]
    requires fields[4] != "" && fields[4][|fields[4]| - 1] != '\r'
    ensures Lines(Join(fields, ',') + "\n") == [Join(fields, ',')]
    ensures ParseChunk(Join(fields, ',')) == Some((TrimSpace(fields[0]), TrimSpace(fields[1]), TrimSpace(fields[2])))
  {
    var body := Join(fields, ',');
    JoinChars(fields, ',', '\n');
    SplitJoin(fields, ',');
    var front := JoinEnds(fields, ',');
    assert body[|body| - 1] == fields[4][|fields[4]| - 1];
    assert DropCR(body) == body;
    OneLine(body);
  }

  lemma PaddedIsPlain(s: string)
    requires Plain(s)
    ensures ',' !in " " + s && '\n' !in " " + s && (" " + s)[|" " + s| - 1] != '\r'
  {
    if s != "" { assert (" " + s)[|" " + s| - 1] == s[|s| - 1]; }
  }

  /** The names a heartbeat reports are the ones that were saved when they are plain. */
  lemma ChunkNamesRoundTrip(file: string, chunk: string, path: string, size: nat, checksum: string)
    requires Plain(file) && Plain(chunk) && Plain(path) && Plain(checksum)
    ensures var lines := Lines(ChunkText(file, chunk, path, size, checksum));
            |lines| == 1 && ParseChunk(lines[0]) == Some((file, chunk, path))
  {
    DecimalRoundTrip(size);
    NumeralIsPlain(Decimal(size));
    PaddedIsPlain(chunk);
    PaddedIsPlain(path);
    PaddedIsPlain(Decimal(size));
    PaddedIsPlain(checksum);
    var a, b, c, d := " " + chunk, " " + path, " " + Decimal(size), " " + checksum;
    var fields := [file, a, b, c, d];
    ChunkTextIsJoin(fields);
    assert ChunkText(file, chunk, path, size, checksum) == Join(fields, ',') + "\n" by {
      SpaceAfterComma(file, chunk);
      SpaceAfterComma(file + "," + a, path);
      SpaceAfterComma(file + "," + a + "," + b, Decimal(size));
      SpaceAfterComma(file + "," + a + "," + b + "," + c, checksum);
    }
    JoinedFieldsParse(fields);
    TrimPadded(file);
    TrimPadded(chunk);
    TrimPadded(path);
  }

  // ----- chunk names -----

  function ChunkName(file: string, i: nat): string { file + "_chunk_" + Decimal(i) }

  /** Different files or different indices never share a chunk name, even when a file name itself ends like one. */
  lemma ChunkNameInjective(f: string, i: nat, g: string, j: nat)
    requires ChunkName(f, i) == ChunkName(g, j)
    ensures f == g && i == j
  {
    DecimalRoundTrip(i);
    DecimalRoundTrip(j);
    NumeralIsPlain(Decimal(i));
    NumeralIsPlain(Decimal(j));
    LastUnderscore(f + "_chunk_", Decimal(i), g + "_chunk_", Decimal(j));
    assert f == (f + "_chunk_")[..|f|] && g == (g + "_chunk_")[..|g|];
  }

  lemma LastUnderscore(p: string, d: string, q: string, e: string)
    requires p + d == q + e && p != "" && q != "" && p[|p| - 1] == '_' && q[|q| - 1] == '_'
    requires '_' !in d && '_' !in e
    ensures p == q && d == e
  {
    NotLonger(p, d, q, e);
    NotLonger(q, e, p, d);
    assert p == (p + d)[..|p|] && q == (q + e)[..|q|];
    assert d == (p + d)[|p|..] && e == (q + e)[|q|..];
  }

  lemma NotLonger(p: string, d: string, q: string, e: string)
    requires p + d == q + e && q != "" && q[|q| - 1] == '_' && '_' !in d
    ensures |q| <= |p|
  {
    forall i | |p| <= i < |p + d| ensures (p + d)[i] != '_' {
      assert (p + d)[i] == d[i - |p|];
    }
    assert (q + e)[|q| - 1] == '_';
  }
}
