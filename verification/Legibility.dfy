/** Where the running programs work on text and floating point and the state machine on values: in every reachable state
    the text says what the values say, and the float64 counter counts exactly. */
module Legibility {
  import opened Types
  import opened Records
  import opened Chunking
  import opened ChunkRecords
  import opened NodeSpec
  import opened Cluster
  import opened Safety
  import opened SafetySteps
  import opened Reading
  import opened Readers
  import Text
  import Float64

  /** Whatever was cut can be recorded legibly on every node. */
  ghost predicate CutsLegible(cfg: Config, h: History) {
    forall c, a {:trigger Legible(cfg.dir(a), c, CutRecord(cfg, h.origin[c].file, h.origin[c].bytes))} ::
      c in h.origin && a in cfg.nodes ==> Legible(cfg.dir(a), c, CutRecord(cfg, h.origin[c].file, h.origin[c].bytes))
  }

  ghost predicate FilesSmall(h: History) { forall f :: f in h.files ==> |h.files[f].content| <= Float64.P53 }

  lemma CutIsLegible(cfg: Config, file: string, parts: seq<Bytes>, i: nat, a: Addr)
    requires Printable(cfg) && GoodName(file) && ShortLines(cfg, file, parts) && i < |parts| && a in cfg.nodes
    ensures Legible(cfg.dir(a), ChunkName(file, i), CutRecord(cfg, file, parts[i]))
  {
    assert PlainDir(cfg.dir(a)) && Plain(cfg.hash(parts[i]));
    assert |RecordText(cfg.dir(a), ChunkName(file, i), CutRecord(cfg, file, parts[i]))| <= Text.MAX_LINE;
    GoodNameIsLegible(cfg.dir(a), file, i, CutRecord(cfg, file, parts[i]));
  }

  lemma RegisterLegible(cfg: Config, h: History, file: string, f: File, nodes: set<Addr>)
    requires Printable(cfg) && CutsLegible(cfg, h) && GoodName(file) && ShortLines(cfg, file, f.parts)
    ensures CutsLegible(cfg, Register(h, file, f, nodes))
  {
    var h' := Register(h, file, f, nodes);
    OriginsOfExact(file, f.parts);
    forall c, a | c in h'.origin && a in cfg.nodes
      ensures Legible(cfg.dir(a), c, CutRecord(cfg, h'.origin[c].file, h'.origin[c].bytes))
    {
      if c in OriginsOf(file, f.parts) {
        CutIsLegible(cfg, file, f.parts, OriginsOf(file, f.parts)[c].index, a);
      } else {
        assert Legible(cfg.dir(a), c, CutRecord(cfg, h.origin[c].file, h.origin[c].bytes));
      }
    }
  }

  predicate SameCuts(s: State, t: State) { t.h.origin == s.h.origin && t.h.files == s.h.files }

  lemma MessagesLeaveCuts(cfg: Config, s: State, step: Step)
    requires Enabled(cfg, s, step) && IsMessageStep(step)
    ensures SameCuts(s, Next(cfg, s, step))
  {}

  lemma NodesLeaveCuts(cfg: Config, s: State, step: Step)
    requires Enabled(cfg, s, step) && IsNodeStep(step)
    ensures SameCuts(s, Next(cfg, s, step))
  {}

  lemma BeatsLeaveCuts(cfg: Config, s: State, step: Step)
    requires Enabled(cfg, s, step) && IsBeatStep(step)
    ensures SameCuts(s, Next(cfg, s, step))
  {}

  lemma RequestsLeaveCuts(cfg: Config, s: State, step: Step)
    requires Enabled(cfg, s, step) && (step.StartRead? || step.Command? || step.ReplaceFailed? || step.DeleteFile?)
    ensures SameCuts(s, Next(cfg, s, step))
  {}

  lemma CutsUnchanged(cfg: Config, s: State, step: Step)
    requires Enabled(cfg, s, step) && !step.WriteFile?
    ensures SameCuts(s, Next(cfg, s, step))
  {
    if IsMessageStep(step) {
      MessagesLeaveCuts(cfg, s, step);
    } else if IsNodeStep(step) {
      NodesLeaveCuts(cfg, s, step);
    } else if IsBeatStep(step) {
      BeatsLeaveCuts(cfg, s, step);
    } else {
      RequestsLeaveCuts(cfg, s, step);
    }
  }

  lemma StepLegible(cfg: Config, s: State, step: Step)
    requires Printable(cfg) && CutsLegible(cfg, s.h) && FilesSmall(s.h) && Enabled(cfg, s, step)
    ensures CutsLegible(cfg, Next(cfg, s, step).h) && FilesSmall(Next(cfg, s, step).h)
  {
    if step.WriteFile? {
      RegisterLegible(cfg, s.h, step.file, File(step.content, Cuts(step.content, step.chunkSize), step.folder),
                      set a | a in step.order);
    } else {
      CutsUnchanged(cfg, s, step);
    }
  }

  lemma {:induction false} RunLegible(cfg: Config, s: State, steps: seq<Step>, t: State)
    requires Printable(cfg) && CutsLegible(cfg, s.h) && FilesSmall(s.h) && Run(cfg, s, steps, t)
    ensures CutsLegible(cfg, t.h) && FilesSmall(t.h)
    decreases |steps|
  {
    if steps != [] {
      StepLegible(cfg, s, steps[0]);
      RunLegible(cfg, Next(cfg, s, steps[0]), steps[1..], t);
    }
  }

  lemma ReachableLegible(cfg: Config, s: State)
    requires ConfigOk(cfg) && Reachable(cfg, s)
    ensures CutsLegible(cfg, s.h) && FilesSmall(s.h)
  {
    var steps :| Run(cfg, Start(cfg), steps, s);
    RunLegible(cfg, Start(cfg), steps, s);
  }

  lemma LegibleCut(cfg: Config, h: History, c: string, a: Addr)
    requires CutsLegible(cfg, h) && c in h.origin && a in cfg.nodes
    ensures Legible(cfg.dir(a), c, CutRecord(cfg, h.origin[c].file, h.origin[c].bytes))
  {}

  /** Every record a node keeps is legible: its text line gives back exactly the entry a heartbeat should list. */
  lemma RecordsAreLegible(cfg: Config, s: State, a: Addr, c: string)
    requires ConfigOk(cfg) && Reachable(cfg, s) && a in s.nodes && c in s.nodes[a].meta
    ensures var rec := s.nodes[a].meta[c];
            Legible(cfg.dir(a), c, rec)
            && ReadChunkText(RecordText(cfg.dir(a), c, rec)) == Some([(rec.file, c, DataPath(cfg.dir(a), c))])
  {
    ReachableOk(cfg, s);
    ReachableLegible(cfg, s);
    assert NodeOk(cfg, s.h, a, s.nodes[a]);
    LegibleCut(cfg, s.h, c, a);
    LegibleReads(cfg.dir(a), c, s.nodes[a].meta[c]);
  }

  /** Every write on its way to a node will be recorded legibly there, its checksum included. */
  lemma WritesAreLegible(cfg: Config, s: State, id: nat)
    requires ConfigOk(cfg) && Reachable(cfg, s) && id in s.items && s.items[id].Flight?
    requires s.items[id].msg.kind == Write && s.items[id].msg.receiver in cfg.nodes
    ensures var m := s.items[id].msg; Legible(cfg.dir(m.receiver), m.chunk, Record(m.file, m.size, m.checksum))
  {
    ReachableOk(cfg, s);
    ReachableLegible(cfg, s);
    assert ItemOk(cfg, s.h, s.items[id]);
    LegibleCut(cfg, s.h, s.items[id].msg.chunk, s.items[id].msg.receiver);
  }

  /** Only writes carry bytes: nothing follows any other message on its connection, and a sleeping handler holds
      none. */
  lemma OnlyWritesCarryBytes(cfg: Config, s: State, id: nat)
    requires ConfigOk(cfg) && Reachable(cfg, s) && id in s.items
    ensures s.items[id].Repair? || s.items[id].msg.kind != Write ==> s.items[id].msg.data == []
  {
    ReachableOk(cfg, s);
    assert ItemOk(cfg, s.h, s.items[id]);
  }

  lemma CountWithin(f: File, file: string, arrived: set<string>, k: nat)
    requires FileOk(f) && k < |f.parts| && ChunkName(file, k) !in arrived
    ensures ArrivedBytes(f.parts, file, arrived, |f.parts|) + |f.parts[k]| <= |f.content|
  {
    CountedBytes(f, file, arrived, k);
    ArrivedAtMost(f.parts, file, arrived + {ChunkName(file, k)}, |f.parts|);
    assert f.parts[..|f.parts|] == f.parts;
  }

  lemma PartWithin(cfg: Config, h: History, r: Reader, m: ChunkMsg)
    requires HistoryOk(cfg, h) && Due(cfg, h, r, m)
    ensures r.session.bytes + m.size <= |h.files[r.file].content|
  {
    var k := PartOf(cfg, h, m);
    CountWithin(h.files[r.file], r.file, r.arrived, k);
  }

  /** The bytes a client counts never exceed what float64 counts exactly. */
  lemma CountersAreExact(cfg: Config, s: State, id: nat)
    requires ConfigOk(cfg) && Reachable(cfg, s) && CanReceive(cfg, s, id)
    ensures s.readers[s.items[id].msg.receiver].session.bytes + s.items[id].msg.size <= Float64.P53
  {
    ReachableReads(cfg, s);
    ReachableLegible(cfg, s);
    var cl := s.items[id].msg.receiver;
    ReceivedReader(cfg, s.h, s.items, s.next, s.readers, id, cl);
    PartWithin(cfg, s.h, s.readers[cl], s.items[id].msg);
  }
}
