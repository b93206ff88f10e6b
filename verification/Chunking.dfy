/** Cutting a file into chunks and putting chunks back together. */
module Chunking {
  import opened Types
  import opened Records

  /** The successive reads of at most `size` bytes that the send loop makes. */
  function Cuts(content: Bytes, size: nat): seq<Bytes>
    requires size > 0
    decreases |content|
  {
    if |content| == 0 then []
    else if |content| <= size then [content]
    else [content[..size]] + Cuts(content[size..], size)
  }

  /** The quotient rounded up, by counting how often `size` is taken away. */
  function Ceiling(total: nat, size: nat): nat
    requires size > 0
    decreases total
  {
    if total == 0 then 0 else if total <= size then 1 else 1 + Ceiling(total - size, size)
  }

  /** The quotient rounded up is the only number of `size`s that covers `total` with none to spare. */
  lemma {:induction false} CeilingBounds(total: nat, size: nat)
    requires size > 0
    ensures var n := Ceiling(total, size);
            total <= n * size && (n > 0 ==> (n - 1) * size < total) && (n == 0 <==> total == 0)
    decreases total
  {
    if total > size {
      CeilingBounds(total - size, size);
      var m := Ceiling(total - size, size);
      assert (1 + m) * size == size + m * size;
      assert m * size == size + (m - 1) * size;
    }
  }

  function Concat(parts: seq<Bytes>): Bytes {
    if parts == [] then [] else parts[0] + Concat(parts[1..])
  }

  function Total(parts: seq<Bytes>): nat {
    if parts == [] then 0 else |parts[0]| + Total(parts[1..])
  }

  /** Cutting loses and repeats nothing: as many cuts as the integer ceiling, all full but the last, the last one
      not empty, and their concatenation is the file. */
  lemma {:induction false} CutsConserve(content: Bytes, size: nat)
    requires size > 0
    ensures var parts := Cuts(content, size);
            && |parts| == Ceiling(|content|, size)
            && (forall i :: 0 <= i < |parts| - 1 ==> |parts[i]| == size)
            && (parts != [] ==> 0 < |parts[|parts| - 1]| <= size)
            && Concat(parts) == content
            && Total(parts) == |content|
  {
    if |content| == 0 {
    } else if |content| <= size {
      assert [content][1..] == [];
      assert content + [] == content;
    } else {
      var rest := Cuts(content[size..], size);
      CutsConserve(content[size..], size);
      CeilingBounds(|content| - size, size);
      var parts := Cuts(content, size);
      assert parts[1..] == rest;
      assert forall i :: 0 < i < |parts| ==> parts[i] == rest[i - 1];
    }
  }

  /** What the send loop reads when it is told to send `count` chunks: it stops early only after a short read. */
  function SentParts(content: Bytes, size: nat, count: nat): seq<Bytes>
    decreases count
  {
    if count == 0 then []
    else if |content| < size then [content]
    else [content[..size]] + SentParts(content[size..], size, count - 1)
  }

  /** Told the integer ceiling, the loop sends exactly the cuts: no chunk is missing and no empty one is added. */
  lemma {:induction false} SentPartsAreCuts(content: Bytes, size: nat)
    requires size > 0
    ensures SentParts(content, size, Ceiling(|content|, size)) == Cuts(content, size)
    decreases |content|
  {
    if |content| > size {
      SentPartsAreCuts(content[size..], size);
    } else if |content| == size {
      assert content[..size] == content;
      assert SentParts(content[size..], size, 0) == [];
    }
  }

  // ----- reassembly by chunk name -----

  /** mergeChunks: the chunk files in index order, or None when one of them is missing. */
  function Merge(disk: map<string, Bytes>, name: string, from: nat, total: nat): Option<Bytes>
    requires from <= total
    decreases total - from
  {
    if from == total then Some([])
    else if ChunkName(name, from) !in disk then None
    else
      match Merge(disk, name, from + 1, total)
      case Some(rest) => Some(disk[ChunkName(name, from)] + rest)
      case None => None
  }

  lemma {:induction false} MergeRestores(disk: map<string, Bytes>, name: string, from: nat, parts: seq<Bytes>)
    requires from <= |parts|
    requires forall i :: from <= i < |parts| ==> ChunkName(name, i) in disk && disk[ChunkName(name, i)] == parts[i]
    ensures Merge(disk, name, from, |parts|) == Some(Concat(parts[from..]))
    decreases |parts| - from
  {
    if from < |parts| {
      MergeRestores(disk, name, from + 1, parts);
      assert parts[from..][1..] == parts[from + 1..];
    }
  }

  /** How many bytes the chunks in `arrived` hold together, counting the indices below `n`. */
  function ArrivedBytes(parts: seq<Bytes>, name: string, arrived: set<string>, n: nat): nat
    requires n <= |parts|
  {
    if n == 0 then 0
    else ArrivedBytes(parts, name, arrived, n - 1) + if ChunkName(name, n - 1) in arrived then |parts[n - 1]| else 0
  }

  lemma {:induction false} ArrivedGrows(parts: seq<Bytes>, name: string, arrived: set<string>, k: nat, n: nat)
    requires n <= |parts| && k < |parts| && ChunkName(name, k) !in arrived
    ensures ArrivedBytes(parts, name, arrived + {ChunkName(name, k)}, n)
         == ArrivedBytes(parts, name, arrived, n) + if k < n then |parts[k]| else 0
  {
    if n > 0 {
      ArrivedGrows(parts, name, arrived, k, n - 1);
      if ChunkName(name, n - 1) == ChunkName(name, k) { ChunkNameInjective(name, n - 1, name, k); }
    }
  }

  lemma {:induction false} TotalSnoc(parts: seq<Bytes>, n: nat)
    requires n < |parts|
    ensures Total(parts[..n + 1]) == Total(parts[..n]) + |parts[n]|
    decreases |parts|
  {
    if n == 0 {
      assert parts[..1][1..] == [] && parts[..0] == [];
    } else {
      TotalSnoc(parts[1..], n - 1);
      assert parts[..n + 1][1..] == parts[1..][..n] && parts[..n][1..] == parts[1..][..n - 1];
    }
  }

  lemma {:induction false} ArrivedAll(parts: seq<Bytes>, name: string, arrived: set<string>, n: nat)
    requires n <= |parts| && forall i :: 0 <= i < n ==> ChunkName(name, i) in arrived
    ensures ArrivedBytes(parts, name, arrived, n) == Total(parts[..n])
  {
    if n == 0 {
      assert parts[..0] == [];
    } else {
      ArrivedAll(parts, name, arrived, n - 1);
      TotalSnoc(parts, n - 1);
    }
  }

  lemma {:induction false} ArrivedAtMost(parts: seq<Bytes>, name: string, arrived: set<string>, n: nat)
    requires n <= |parts|
    ensures ArrivedBytes(parts, name, arrived, n) <= Total(parts[..n])
  {
    if n > 0 {
      ArrivedAtMost(parts, name, arrived, n - 1);
      TotalSnoc(parts, n - 1);
    }
  }

  lemma {:induction false} ArrivedNone(parts: seq<Bytes>, name: string, n: nat)
    requires n <= |parts|
    ensures ArrivedBytes(parts, name, {}, n) == 0
  {
    if n > 0 { ArrivedNone(parts, name, n - 1); }
  }

  /** The names of a file's first n chunks. */
  function Names(name: string, n: nat): set<string> { set i | 0 <= i < n :: ChunkName(name, i) }

  lemma {:induction false} NamesSize(name: string, n: nat)
    ensures |Names(name, n)| == n
  {
    if n > 0 {
      NamesSize(name, n - 1);
      if ChunkName(name, n - 1) in Names(name, n - 1) {
        var i :| 0 <= i < n - 1 && ChunkName(name, i) == ChunkName(name, n - 1);
        ChunkNameInjective(name, i, name, n - 1);
      }
      assert Names(name, n) == Names(name, n - 1) + {ChunkName(name, n - 1)};
    } else {
      assert Names(name, 0) == {};
    }
  }
}
