/** The controller's location index and what heartbeats, failures and deletions make of it, as functions.
    Class Controller carries out the same steps on nested maps it shares by reference. */
module ControllerSpec {
  import opened Types

  type Index = map<Key, set<Addr>>

  /** One row of a location table: a chunk and the nodes that hold it, in the order a map was ranged over. */
  datatype Location = Location(chunk: string, replicas: seq<Addr>)

  function Holders(index: Index, k: Key): set<Addr> { if k in index then index[k] else {} }

  function Report(index: Index, a: Addr, files: set<Key>): Index {
    map k | k in index.Keys + files :: Holders(index, k) + (if k in files then {a} else {})
  }

  lemma ReportNothing(index: Index, a: Addr)
    ensures Report(index, a, {}) == index
  {
    forall k | k in index ensures Report(index, a, {})[k] == index[k] {}
  }

  lemma ReportFirst(a: Addr, k: Key)
    ensures Report(map[], a, {k}) == map[k := {a}]
  {
    var index := Report(map[], a, {k});
    assert index.Keys == {k} && index[k] == {a};
  }

  function RemoveHolder(index: Index, k: Key, a: Addr): Index {
    if k in index then index[k := index[k] - {a}] else index
  }

  function ForgetFile(index: Index, file: string): Index {
    map k | k in index && k.file != file :: index[k]
  }

  /** `table` lists the indexed chunks of `file`, each once, each with exactly its holders. */
  ghost predicate Lists(table: seq<Location>, index: Index, file: string) {
    && (forall i, j :: 0 <= i < j < |table| ==> table[i].chunk != table[j].chunk)
    && (forall i :: 0 <= i < |table| ==>
          Key(file, table[i].chunk) in index && Enumerates(table[i].replicas, index[Key(file, table[i].chunk)]))
    && (forall k :: k in index && k.file == file ==> exists i :: 0 <= i < |table| && table[i].chunk == k.chunk)
  }
}
