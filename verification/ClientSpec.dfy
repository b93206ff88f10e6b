/** What the client does while it reads a file back, as functions on its globals, counters and chunk files.
    Class Client carries out the same steps on mutable fields. */
module ClientSpec {
  import opened Types
  import opened Records
  import opened Chunking

  /** The download directories: folder -> file name -> bytes. */
  type Folders = map<string, map<string, Bytes>>

  function Files(disk: Folders, folder: string): map<string, Bytes> { if folder in disk then disk[folder] else map[] }

  /** A merged file that passed its validation: where it is and what it holds. */
  datatype Kept = Kept(folder: string, name: string, content: Bytes)

  /** `filePath` and `folder` are globals of the client that every command overwrites. */
  datatype Session = Session(
    filePath: string, folder: string, total: nat, fileSize: nat, checksum: string,
    disk: Folders, count: nat, bytes: nat,
    merges: nat, kept: Option<Kept>, crashed: bool)

  /** Chunk files an earlier read left behind stay on the disk. */
  function Begin(disk: Folders, file: string, folder: string, total: nat, fileSize: nat, checksum: string): Session {
    Session(file, folder, total, fileSize, checksum, disk, 0, 0, 0, None, false)
  }

  /** What a command does to the globals: each names a file, a folder, or both. */
  function Typed(s: Session, name: Option<string>, folder: Option<string>): Session {
    s.(filePath := if name.Some? then name.value else s.filePath,
       folder := if folder.Some? then folder.value else s.folder)
  }

  /** The first index from `from` on whose chunk file is missing, or `total`. */
  function FirstMissing(files: map<string, Bytes>, name: string, from: nat, total: nat): (i: nat)
    requires from <= total
    ensures from <= i <= total
    decreases total - from
  {
    if from == total || ChunkName(name, from) !in files then from else FirstMissing(files, name, from + 1, total)
  }

  lemma {:induction false} MergesAll(files: map<string, Bytes>, name: string, from: nat, total: nat)
    requires from <= total
    ensures Merge(files, name, from, total).Some? <==> FirstMissing(files, name, from, total) == total
    ensures Merge(files, name, from, total).Some? <==> forall i :: from <= i < total ==> ChunkName(name, i) in files
    decreases total - from
  {
    if from < total && ChunkName(name, from) in files { MergesAll(files, name, from + 1, total); }
  }

  function SaveIn(disk: Folders, folder: string, name: string, bytes: Bytes): Folders {
    disk[folder := Files(disk, folder)[name := bytes]]
  }

  /** Merging removes the chunk files as it goes; a missing one is fatal. The merged file is removed again unless its
      checksum is the file's. */
  function MergeAll(hash: Bytes -> string, s: Session): Session {
    var files := Files(s.disk, s.folder);
    var rest := s.disk[s.folder := files - Names(s.filePath, FirstMissing(files, s.filePath, 0, s.total))];
    match Merge(files, s.filePath, 0, s.total)
    case None => s.(crashed := true, disk := rest)
    case Some(content) =>
      s.(disk := rest, merges := s.merges + 1,
         kept := if hash(content) == s.checksum then Some(Kept(s.folder, s.filePath, content)) else None)
  }

  /** A chunk arrives: save it in the current folder, count it, and merge when the counters say the file is complete. A
      connection that ends before the announced size is fatal. */
  function Accept(hash: Bytes -> string, s: Session, m: ChunkMsg): Session {
    if |m.data| < m.size then s.(crashed := true, disk := SaveIn(s.disk, s.folder, m.chunk, m.data))
    else
      var s' := s.(disk := SaveIn(s.disk, s.folder, m.chunk, m.data[..m.size]), bytes := s.bytes + m.size,
                   count := s.count + 1);
      if s'.count == s'.total && s'.fileSize == s'.bytes then MergeAll(hash, s') else s'
  }
}
