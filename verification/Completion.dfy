/** A read comes to its end: what a client asked for stays on its way until it arrives, or some message or handler that
    would have brought it comes to nothing. */
module Completion {
  import opened Types
  import opened Records
  import opened Chunking
  import opened NodeSpec
  import opened ControllerSpec
  import opened Cluster
  import opened Safety
  import opened SafetySteps
  import opened StoreTheorems
  import opened Quiescence
  import opened Reading
  import opened Readers

  ghost predicate Arrived(readers: map<Addr, Reader>, cl: Addr, c: string) { cl in readers && c in readers[cl].arrived }

  /** The chunk has arrived at the client, or is on its way there, or was lost on the way. */
  ghost predicate Coming(s: State, cl: Addr, c: string) {
    Arrived(s.readers, cl, c) || Promised(s.items, c, cl) || (c, cl) in s.lost
  }

  lemma StaysComing(s: State, t: State, taken: set<nat>, cl: Addr, c: string)
    requires Coming(s, cl, c) && s.lost <= t.lost && KeepsItems(s, t, taken)
    requires Arrived(s.readers, cl, c) ==> Arrived(t.readers, cl, c)
    requires forall id :: id in taken && id in s.items && Carries(s.items[id], c, cl) ==> Coming(t, cl, c)
    ensures Coming(t, cl, c)
  {
    if Promised(s.items, c, cl) {
      var id :| id in s.items && Carries(s.items[id], c, cl);
      if id !in taken { assert id in t.items && Carries(t.items[id], c, cl); }
    }
  }

  // ----- handlers -----

  lemma DeliverComes(cfg: Config, s: State, id: nat, reach: set<Addr>, cl: Addr, c: string)
    requires ConfigOk(cfg) && CanDeliver(cfg, s, id) && cl in cfg.clients && Carries(s.items[id], c, cl)
    ensures Coming(AfterDeliver(cfg, s, id, reach), cl, c)
  {
    var m := s.items[id].msg;
    var r := Handle(SiteOf(cfg, m.receiver), s.nodes[m.receiver], m, reach);
    HandleSettles(cfg, s.nodes[m.receiver], m, reach, cl);
    if Passes(r.out, c, cl) { PassedIsPromised(s.items - {id}, s.next, r.out, c, cl); }
  }

  lemma WakeComes(cfg: Config, s: State, id: nat, reach: set<Addr>, cl: Addr, c: string)
    requires CanWake(cfg, s, id) && Carries(s.items[id], c, cl)
    ensures Coming(AfterWake(cfg, s, id, reach), cl, c)
  {
    var item := s.items[id];
    var out := Serve(SiteOf(cfg, item.at), s.nodes[item.at], item.msg, item.original, reach).out;
    ServeSettles(cfg, s.nodes[item.at], item, reach, c, cl);
    if !Forsakes(cfg, s.nodes[item.at], item, reach) {
      PostedIsPromised(s.items - {id}, s.next, out, |out| - 1, c, cl);
    }
  }

  /** What leads to a client is bound for it. */
  lemma CarriedIsBound(cfg: Config, h: History, item: Item, c: string, cl: Addr)
    requires ConfigOk(cfg) && HistoryOk(cfg, h) && ItemOk(cfg, h, item) && cl in cfg.clients && Carries(item, c, cl)
    ensures BoundFor(cfg, item) == Some(cl)
    ensures item.Flight? ==> item.msg.receiver != cfg.controller
  {
    assert !Placed(h, c, cl) by {
      if Placed(h, c, cl) { PlacedIsNode(cfg, h, c, cl); }
    }
    if item.Flight? && item.msg.receiver == cfg.controller { NodesAreNotController(cfg, h, item.msg); }
  }

  lemma ReceiveArrives(cfg: Config, s: State, id: nat, cl: Addr, c: string)
    requires CanReceive(cfg, s, id)
    ensures Arrived(s.readers, cl, c) ==> Arrived(AfterReceive(cfg, s, id).readers, cl, c)
    ensures s.items[id].msg.chunk == c && s.items[id].msg.receiver == cl
            ==> Arrived(AfterReceive(cfg, s, id).readers, cl, c)
  {}

  lemma DeliverStillComes(cfg: Config, s: State, id: nat, reach: set<Addr>, cl: Addr, c: string)
    requires ConfigOk(cfg) && CanDeliver(cfg, s, id) && cl in cfg.clients && Coming(s, cl, c)
    ensures Coming(AfterDeliver(cfg, s, id, reach), cl, c)
  {
    DeliverTakes(cfg, s, id, reach);
    if Carries(s.items[id], c, cl) { DeliverComes(cfg, s, id, reach, cl, c); }
    StaysComing(s, AfterDeliver(cfg, s, id, reach), {id}, cl, c);
  }

  lemma WakeTakes(cfg: Config, s: State, id: nat, reach: set<Addr>)
    requires CanWake(cfg, s, id)
    ensures var t := AfterWake(cfg, s, id, reach); s.lost <= t.lost && KeepsItems(s, t, {id}) && t.readers == s.readers
  {}

  lemma WakeStillComes(cfg: Config, s: State, id: nat, reach: set<Addr>, cl: Addr, c: string)
    requires CanWake(cfg, s, id) && Coming(s, cl, c)
    ensures Coming(AfterWake(cfg, s, id, reach), cl, c)
  {
    if Carries(s.items[id], c, cl) { WakeComes(cfg, s, id, reach, cl, c); }
    WakeTakes(cfg, s, id, reach);
    StaysComing(s, AfterWake(cfg, s, id, reach), {id}, cl, c);
  }

  lemma DropStillComes(cfg: Config, s: State, id: nat, cl: Addr, c: string)
    requires id in s.items && Coming(s, cl, c)
    ensures Coming(AfterDrop(cfg, s, id), cl, c)
  {
    StaysComing(s, AfterDrop(cfg, s, id), {id}, cl, c);
  }

  lemma AnswerStillComes(cfg: Config, s: State, id: nat, order: seq<Addr>, reach: set<Addr>, cl: Addr, c: string)
    requires CanAnswer(cfg, s, id, order) && !Carries(s.items[id], c, cl) && Coming(s, cl, c)
    ensures Coming(AfterAnswer(cfg, s, id, order, reach), cl, c)
  {
    StaysComing(s, AfterAnswer(cfg, s, id, order, reach), {id}, cl, c);
  }

  lemma ReceiveStillComes(cfg: Config, s: State, id: nat, cl: Addr, c: string)
    requires CanReceive(cfg, s, id) && Coming(s, cl, c)
    requires Carries(s.items[id], c, cl) ==> s.items[id].msg.receiver == cl
    ensures Coming(AfterReceive(cfg, s, id), cl, c)
  {
    ReceiveArrives(cfg, s, id, cl, c);
    StaysComing(s, AfterReceive(cfg, s, id), {id}, cl, c);
  }

  lemma HandlerComes(cfg: Config, s: State, step: Step, cl: Addr, c: string)
    requires ConfigOk(cfg) && Enabled(cfg, s, step) && (step.Deliver? || step.WakeUp? || step.Drop?)
             && cl in cfg.clients
    ensures Coming(s, cl, c) ==> Coming(Next(cfg, s, step), cl, c)
  {
    if Coming(s, cl, c) {
      match step
      case Deliver(id, reach) => DeliverStillComes(cfg, s, id, reach, cl, c);
      case WakeUp(id, reach) => WakeStillComes(cfg, s, id, reach, cl, c);
      case Drop(id) => DropStillComes(cfg, s, id, cl, c);
    }
  }

  /** The controller takes nothing that leads to a client, and a client only what is its own. */
  lemma ConsumerComes(cfg: Config, s: State, step: Step, cl: Addr, c: string)
    requires Enabled(cfg, s, step) && (step.AnswerReplica? || step.Receive?)
    requires Carries(s.items[step.id], c, cl) ==> step.Receive? && s.items[step.id].msg.receiver == cl
    ensures Coming(s, cl, c) ==> Coming(Next(cfg, s, step), cl, c)
  {
    if Coming(s, cl, c) {
      match step
      case AnswerReplica(id, order, reach) => AnswerStillComes(cfg, s, id, order, reach, cl, c);
      case Receive(id) => ReceiveStillComes(cfg, s, id, cl, c);
    }
  }

  // ----- steps -----

  /** The client is still in the read it was in: the same file, every row asked for, and nothing that had arrived is
      gone. */
  ghost predicate SameRead(readers: map<Addr, Reader>, readers': map<Addr, Reader>, cl: Addr) {
    cl in readers ==>
      && cl in readers' && readers'[cl].file == readers[cl].file && readers'[cl].asked == readers[cl].asked
      && readers[cl].arrived <= readers'[cl].arrived
  }

  predicate StartsRead(step: Step, cl: Addr) { step.StartRead? && step.client == cl }

  lemma MessageSameRead(cfg: Config, s: State, step: Step, cl: Addr)
    requires Enabled(cfg, s, step) && IsMessageStep(step)
    ensures SameRead(s.readers, Next(cfg, s, step).readers, cl)
  {}

  lemma NodeSameRead(cfg: Config, s: State, step: Step, cl: Addr)
    requires Enabled(cfg, s, step) && (IsNodeStep(step) || IsBeatStep(step))
    ensures SameRead(s.readers, Next(cfg, s, step).readers, cl)
  {}

  lemma TypedSameRead(readers: map<Addr, Reader>, client: Addr, name: Option<string>, folder: Option<string>, cl: Addr)
    ensures SameRead(readers, AfterTyping(readers, client, name, folder), cl)
  {}

  lemma TypingSameRead(cfg: Config, s: State, step: Step, cl: Addr)
    requires Enabled(cfg, s, step) && (step.WriteFile? || step.DeleteFile? || step.Command?)
    ensures SameRead(s.readers, Next(cfg, s, step).readers, cl)
  {
    match step
    case WriteFile(client, file, folder, _, _, _, _, _) =>
      TypedSameRead(s.readers, client, Some(file), Some(folder), cl);
    case DeleteFile(client, file, _, _) => TypedSameRead(s.readers, client, Some(file), None, cl);
    case Command(client, name, folder) => TypedSameRead(s.readers, client, name, folder, cl);
  }

  lemma RequestSameRead(cfg: Config, s: State, step: Step, cl: Addr)
    requires Enabled(cfg, s, step) && (step.StartRead? || step.ReplaceFailed?) && !StartsRead(step, cl)
    ensures SameRead(s.readers, Next(cfg, s, step).readers, cl)
  {}

  lemma StepSameRead(cfg: Config, s: State, step: Step, cl: Addr)
    requires Enabled(cfg, s, step) && !StartsRead(step, cl)
    ensures SameRead(s.readers, Next(cfg, s, step).readers, cl)
  {
    if IsMessageStep(step) {
      MessageSameRead(cfg, s, step, cl);
    } else if IsNodeStep(step) || IsBeatStep(step) {
      NodeSameRead(cfg, s, step, cl);
    } else if step.StartRead? || step.ReplaceFailed? {
      RequestSameRead(cfg, s, step, cl);
    } else {
      TypingSameRead(cfg, s, step, cl);
    }
  }

  lemma OthersCome(cfg: Config, s: State, step: Step, cl: Addr, c: string)
    requires HistoryOk(cfg, s.h) && Enabled(cfg, s, step) && !IsMessageStep(step) && !StartsRead(step, cl)
    ensures Coming(s, cl, c) ==> Coming(Next(cfg, s, step), cl, c)
  {
    OthersOnlyAdd(cfg, s, step);
    StepSameRead(cfg, s, step, cl);
    if Coming(s, cl, c) { StaysComing(s, Next(cfg, s, step), {}, cl, c); }
  }

  lemma StepComes(cfg: Config, s: State, step: Step, cl: Addr, c: string)
    requires ConfigOk(cfg) && StoreOk(cfg, s) && Enabled(cfg, s, step) && !StartsRead(step, cl) && cl in cfg.clients
    ensures Coming(s, cl, c) ==> Coming(Next(cfg, s, step), cl, c)
  {
    if step.AnswerReplica? || step.Receive? {
      assert ItemOk(cfg, s.h, s.items[step.id]);
      if Carries(s.items[step.id], c, cl) { CarriedIsBound(cfg, s.h, s.items[step.id], c, cl); }
      ConsumerComes(cfg, s, step, cl, c);
    } else if IsMessageStep(step) {
      HandlerComes(cfg, s, step, cl, c);
    } else {
      OthersCome(cfg, s, step, cl, c);
    }
  }

  predicate NoNewRead(steps: seq<Step>, cl: Addr) { forall i :: 0 <= i < |steps| ==> !StartsRead(steps[i], cl) }

  lemma NoneInRest(steps: seq<Step>, cl: Addr)
    requires NoNewRead(steps, cl) && steps != []
    ensures !StartsRead(steps[0], cl) && NoNewRead(steps[1..], cl)
  {}

  lemma {:induction false} RunComes(cfg: Config, s: State, steps: seq<Step>, t: State, cl: Addr, c: string)
    requires ConfigOk(cfg) && Inv(cfg, s) && Run(cfg, s, steps, t) && NoNewRead(steps, cl) && cl in cfg.clients
    requires Coming(s, cl, c)
    ensures Coming(t, cl, c)
    decreases |steps|
  {
    if steps != [] {
      NoneInRest(steps, cl);
      StepKeeps(cfg, s, steps[0]);
      StepComes(cfg, s, steps[0], cl, c);
      RunComes(cfg, Next(cfg, s, steps[0]), steps[1..], t, cl, c);
    }
  }

  lemma {:induction false} RunSameRead(cfg: Config, s: State, steps: seq<Step>, t: State, cl: Addr)
    requires Run(cfg, s, steps, t) && NoNewRead(steps, cl)
    ensures SameRead(s.readers, t.readers, cl)
    decreases |steps|
  {
    if steps != [] {
      NoneInRest(steps, cl);
      StepSameRead(cfg, s, steps[0], cl);
      RunSameRead(cfg, Next(cfg, s, steps[0]), steps[1..], t, cl);
    }
  }

  // ----- the theorem -----

  /** The client reads a file and asks for every chunk of it. */
  ghost predicate AsksForAll(cfg: Config, s: State, cl: Addr, file: string, table: seq<Location>) {
    && CanStartRead(cfg, s, cl, file, table, |table|) && |table| == |s.h.files[file].parts|
  }

  lemma AskedIsComing(cfg: Config, s: State, cl: Addr, file: string, table: seq<Location>, i: nat)
    requires CanStartRead(cfg, s, cl, file, table, |table|) && i < |table|
    ensures Coming(AfterStartRead(cfg, s, cl, file, table, |table|), cl, table[i].chunk)
  {
    var out := ReadMsgs(cl, file, table, |table|);
    assert Carries(out[i], table[i].chunk, cl);
    PostedIsPromised(s.items, s.next, out, i, table[i].chunk, cl);
  }

  lemma AllAreComing(cfg: Config, s: State, cl: Addr, file: string, table: seq<Location>, j: nat)
    requires ConfigOk(cfg) && Reachable(cfg, s) && AsksForAll(cfg, s, cl, file, table) && j < |s.h.files[file].parts|
    ensures Coming(AfterStartRead(cfg, Forgiven(s), cl, file, table, |table|), cl, ChunkName(file, j))
  {
    TableInBounds(cfg, s, file, table);
    assert ChunkName(file, j) in TableChunks(table);
    var i :| 0 <= i < |table| && table[i].chunk == ChunkName(file, j);
    AskedIsComing(cfg, Forgiven(s), cl, file, table, i);
  }

  /** Nothing of the client's read is under way or was lost. */
  ghost predicate ReadThrough(cfg: Config, s: State, cl: Addr, names: set<string>) {
    && (forall id :: id in s.items ==> BoundFor(cfg, s.items[id]) != Some(cl))
    && forall c :: c in names ==> (c, cl) !in s.lost
  }

  lemma ThroughHasArrived(cfg: Config, s: State, cl: Addr, names: set<string>, c: string)
    requires ConfigOk(cfg) && StoreOk(cfg, s) && cl in cfg.clients && ReadThrough(cfg, s, cl, names)
    requires c in names && Coming(s, cl, c)
    ensures Arrived(s.readers, cl, c)
  {
    if id :| id in s.items && Carries(s.items[id], c, cl) {
      assert ItemOk(cfg, s.h, s.items[id]);
      CarriedIsBound(cfg, s.h, s.items[id], c, cl);
    }
  }

  lemma StartIsSound(cfg: Config, s: State, cl: Addr, file: string, table: seq<Location>)
    requires ConfigOk(cfg) && Reachable(cfg, s) && AsksForAll(cfg, s, cl, file, table)
    ensures var u := AfterStartRead(cfg, Forgiven(s), cl, file, table, |table|);
            Inv(cfg, u) && ReadInv(cfg, u) && u.readers[cl].file == file && u.readers[cl].asked && u.h == s.h
  {
    ReachableReads(cfg, s);
    ForgivenOk(cfg, s);
    StepKeeps(cfg, Forgiven(s), StartRead(cl, file, table, |table|));
    StepReads(cfg, Forgiven(s), StartRead(cl, file, table, |table|));
  }

  lemma AllHaveArrived(cfg: Config, s: State, cl: Addr, file: string, table: seq<Location>, steps: seq<Step>, t: State,
                       j: nat)
    requires ConfigOk(cfg) && Reachable(cfg, s) && AsksForAll(cfg, s, cl, file, table) && NoNewRead(steps, cl)
    requires Run(cfg, AfterStartRead(cfg, Forgiven(s), cl, file, table, |table|), steps, t)
    requires ReadThrough(cfg, t, cl, Names(file, |table|)) && j < |table|
    ensures Arrived(t.readers, cl, ChunkName(file, j))
  {
    var u := AfterStartRead(cfg, Forgiven(s), cl, file, table, |table|);
    StartIsSound(cfg, s, cl, file, table);
    AllAreComing(cfg, s, cl, file, table, j);
    RunComes(cfg, u, steps, t, cl, ChunkName(file, j));
    RunKeeps(cfg, u, steps, t);
    ThroughHasArrived(cfg, t, cl, Names(file, |table|), ChunkName(file, j));
  }

  /** A read that asked for every chunk, during which its client typed no command, has kept the file as soon as
      nothing bound for the client is under way and nothing that would have reached it was lost since the read
      began. */
  lemma ReadCompletes(cfg: Config, s: State, cl: Addr, file: string, table: seq<Location>, steps: seq<Step>, t: State)
    requires ConfigOk(cfg) && Reachable(cfg, s) && AsksForAll(cfg, s, cl, file, table) && table != []
    requires Run(cfg, AfterStartRead(cfg, Forgiven(s), cl, file, table, |table|), steps, t)
    requires NoNewRead(steps, cl) && cl in t.readers && !t.readers[cl].disturbed
    requires ReadThrough(cfg, t, cl, Names(file, |table|))
    ensures Done(t.readers[cl]) && t.readers[cl].session.kept == KeptFile(s.h, file)
  {
    ReadStaysSound(cfg, s, cl, file, table, steps, t);
    NamesHaveArrived(cfg, s, cl, file, table, steps, t);
    AllArrivedIsKept(cfg, t.h, t.readers[cl]);
  }

  lemma ReadStaysSound(cfg: Config, s: State, cl: Addr, file: string, table: seq<Location>, steps: seq<Step>, t: State)
    requires ConfigOk(cfg) && Reachable(cfg, s) && AsksForAll(cfg, s, cl, file, table)
    requires Run(cfg, AfterStartRead(cfg, Forgiven(s), cl, file, table, |table|), steps, t) && NoNewRead(steps, cl)
    ensures HistoryOk(cfg, t.h) && cl in t.readers && ReaderOk(cfg, t.h, t.readers[cl])
    ensures t.readers[cl].file == file && t.readers[cl].asked && SameFile(s.h, t.h, file)
  {
    var u := AfterStartRead(cfg, Forgiven(s), cl, file, table, |table|);
    StartIsSound(cfg, s, cl, file, table);
    RunReads(cfg, u, steps, t);
    RunSameRead(cfg, u, steps, t, cl);
    RunFiles(cfg, u, steps, t, file);
  }

  lemma NamesHaveArrived(cfg: Config, s: State, cl: Addr, file: string, table: seq<Location>, steps: seq<Step>,
                         t: State)
    requires ConfigOk(cfg) && Reachable(cfg, s) && AsksForAll(cfg, s, cl, file, table) && NoNewRead(steps, cl)
    requires Run(cfg, AfterStartRead(cfg, Forgiven(s), cl, file, table, |table|), steps, t)
    requires ReadThrough(cfg, t, cl, Names(file, |table|)) && cl in t.readers
    ensures Names(file, |table|) <= t.readers[cl].arrived
  {
    forall c | c in Names(file, |table|) ensures c in t.readers[cl].arrived {
      var j :| 0 <= j < |table| && ChunkName(file, j) == c;
      AllHaveArrived(cfg, s, cl, file, table, steps, t, j);
    }
  }

  lemma AllArrivedIsKept(cfg: Config, h: History, r: Reader)
    requires HistoryOk(cfg, h) && ReaderOk(cfg, h, r) && r.asked && !r.disturbed && h.files[r.file].parts != []
    requires Names(r.file, |h.files[r.file].parts|) <= r.arrived
    ensures Done(r) && r.session.kept == KeptFile(h, r.file)
  {
    assert FileOk(h.files[r.file]);
    ReaderReadsBack(cfg, h, r);
    NamesSize(r.file, |h.files[r.file].parts|);
  }

  predicate SameFile(h: History, h': History, file: string) {
    file in h.files ==> file in h'.files && h'.files[file] == h.files[file]
  }

  lemma MessageFiles(cfg: Config, s: State, step: Step, file: string)
    requires Enabled(cfg, s, step) && (IsMessageStep(step) || IsNodeStep(step) || IsBeatStep(step))
    ensures SameFile(s.h, Next(cfg, s, step).h, file)
  {}

  lemma RequestFiles(cfg: Config, s: State, step: Step, file: string)
    requires Enabled(cfg, s, step) && !IsMessageStep(step) && !IsNodeStep(step) && !IsBeatStep(step)
    ensures SameFile(s.h, Next(cfg, s, step).h, file)
  {}

  /** A file that was written stays the file it is. */
  lemma {:induction false} RunFiles(cfg: Config, s: State, steps: seq<Step>, t: State, file: string)
    requires Run(cfg, s, steps, t)
    ensures SameFile(s.h, t.h, file)
    decreases |steps|
  {
    if steps != [] {
      if IsMessageStep(steps[0]) || IsNodeStep(steps[0]) || IsBeatStep(steps[0]) {
        MessageFiles(cfg, s, steps[0], file);
      } else {
        RequestFiles(cfg, s, steps[0], file);
      }
      RunFiles(cfg, Next(cfg, s, steps[0]), steps[1..], t, file);
    }
  }
}
