/** Message cascades end: a weight on the work under way drops at every handling step that finds its chunk intact,
    so the number of handling steps is bounded by the weight and the number of corrupted chunks found. */
module Cascades {
  import opened Types
  import opened Records
  import opened Sets
  import opened NodeSpec
  import opened ControllerSpec
  import opened Cluster
  import opened Safety
  import opened SafetySteps

  /** A request for replicas still has to come back from the controller with at most three of them. */
  const ASK := MAX_REPLICAS + 3

  function Weight(cfg: Config, item: Item): nat {
    match item
    case Repair(_, _, m) => |m.replicas| + 2
    case Flight(m) =>
      match m.kind
      case Write => |m.replicas| + 1
      case Delete => |m.replicas| + 1
      case Read => |m.replicas| + 2
      case Replica => if m.receiver == cfg.controller then ASK else |m.replicas| + 2
  }

  /** The weight of all items with an identity below `n`. */
  function Load(cfg: Config, items: map<nat, Item>, n: nat): nat {
    if n == 0 then 0 else Load(cfg, items, n - 1) + if n - 1 in items then Weight(cfg, items[n - 1]) else 0
  }

  function Sum(cfg: Config, out: seq<Item>): nat {
    if out == [] then 0 else Sum(cfg, out[..|out| - 1]) + Weight(cfg, out[|out| - 1])
  }

  lemma {:induction false} LoadSame(cfg: Config, items: map<nat, Item>, items': map<nat, Item>, n: nat)
    requires forall id :: id < n ==> (id in items <==> id in items') && (id in items ==> items[id] == items'[id])
    ensures Load(cfg, items, n) == Load(cfg, items', n)
  {
    if n > 0 { LoadSame(cfg, items, items', n - 1); }
  }

  lemma {:induction false} LoadWithout(cfg: Config, items: map<nat, Item>, id: nat, n: nat)
    requires id in items
    ensures Load(cfg, items, n) == Load(cfg, items - {id}, n) + if id < n then Weight(cfg, items[id]) else 0
  {
    if n > 0 { LoadWithout(cfg, items, id, n - 1); }
  }

  lemma {:induction false} LoadAdded(cfg: Config, items: map<nat, Item>, next: nat, out: seq<Item>)
    requires forall id :: id in items ==> id < next
    ensures Load(cfg, Added(items, next, out), next + |out|) == Load(cfg, items, next) + Sum(cfg, out)
    decreases |out|
  {
    if out == [] {
      assert Added(items, next, out) == items;
    } else {
      var last := |out| - 1;
      LoadAdded(cfg, items, next, out[..last]);
      LoadSame(cfg, Added(items, next, out[..last]), Added(items, next, out), next + last);
    }
  }

  /** Replacing one item by others changes the load by exactly their weights. */
  lemma LoadMoves(cfg: Config, items: map<nat, Item>, id: nat, next: nat, out: seq<Item>)
    requires (forall i :: i in items ==> i < next) && id in items
    ensures Load(cfg, Added(items - {id}, next, out), next + |out|) + Weight(cfg, items[id])
            == Load(cfg, items, next) + Sum(cfg, out)
  {
    LoadWithout(cfg, items, id, next);
    LoadAdded(cfg, items - {id}, next, out);
  }

  // ----- the handlers -----

  lemma {:induction false} ForwardsSum(cfg: Config, out: seq<Item>)
    requires forall j :: 0 <= j < |out| ==>
               out[j].Flight? && (out[j].msg.kind == Write || out[j].msg.kind == Delete) && out[j].msg.replicas == []
    ensures Sum(cfg, out) == |out|
  {
    if out != [] { ForwardsSum(cfg, out[..|out| - 1]); }
  }

  lemma SumOne(cfg: Config, x: Item)
    ensures Sum(cfg, [x]) == Weight(cfg, x)
  {
    assert [x][..0] == [];
    assert Sum(cfg, [x][..0]) == 0;
  }

  lemma SumTwo(cfg: Config, x: Item, y: Item)
    ensures Sum(cfg, [x, y]) == Weight(cfg, x) + Weight(cfg, y)
  {
    SumOne(cfg, x);
    assert [x, y][..1] == [x];
  }

  /** The stored chunk passes validation. */
  predicate Intact(cfg: Config, n: Node, c: string) {
    c in n.data ==> c in n.meta && cfg.hash(n.data[c]) == ReadsAs(n.meta[c].checksum)
  }

  lemma ServeWeighs(cfg: Config, at: Addr, n: Node, m: ChunkMsg, original: Addr, reach: set<Addr>)
    ensures var sum := Sum(cfg, Serve(SiteOf(cfg, at), n, m, original, reach).out);
            if Intact(cfg, n, m.chunk) then sum <= |m.replicas| + 1 else sum <= |m.replicas| + 2 + ASK
  {
    if m.chunk in n.data {
      var info := ChunkInfo(n, m);
      SumOne(cfg, Flight(info.(kind := Write, receiver := original, sender := at, data := n.data[m.chunk])));
      var asked := info.(kind := Replica, sender := at, receiver := cfg.controller);
      SumTwo(cfg, Flight(asked), Repair(at, info.sender, asked));
      SumOne(cfg, Repair(at, info.sender, info));
    }
  }

  lemma HandleWeighs(cfg: Config, n: Node, m: ChunkMsg, reach: set<Addr>)
    requires m.receiver != cfg.controller
    ensures var sum := Sum(cfg, Handle(SiteOf(cfg, m.receiver), n, m, reach).out);
            if m.kind == Read && !Intact(cfg, n, m.chunk) then sum <= Weight(cfg, Flight(m)) + ASK
            else sum < Weight(cfg, Flight(m))
  {
    var out := Handle(SiteOf(cfg, m.receiver), n, m, reach).out;
    match m.kind
    case Write => ForwardsSum(cfg, out);
    case Delete => ForwardsSum(cfg, out);
    case Replica =>
      if m.replicas != [] {
        SumOne(cfg, Flight(m.(kind := Read, replicas := m.replicas[1..], receiver := m.replicas[0],
                              sender := m.receiver)));
      }
    case Read => ServeWeighs(cfg, m.receiver, n, m, m.sender, reach);
  }

  // ----- the steps -----

  function Remaining(cfg: Config, s: State): nat { Load(cfg, s.items, s.next) }

  /** The handler looks at a chunk that fails validation. */
  ghost predicate FindsCorruption(cfg: Config, s: State, step: Step) {
    match step
    case Deliver(id, _) =>
      CanDeliver(cfg, s, id) && s.items[id].msg.kind == Read
        && !Intact(cfg, s.nodes[s.items[id].msg.receiver], s.items[id].msg.chunk)
    case WakeUp(id, _) => CanWake(cfg, s, id) && !Intact(cfg, s.nodes[s.items[id].at], s.items[id].msg.chunk)
    case _ => false
  }

  /** A step leaves less work, or finds a corrupted chunk and adds at most the cost of one request to the controller. */
  ghost predicate Lighter(cfg: Config, s: State, step: Step, t: State) {
    Eases(FindsCorruption(cfg, s, step), Remaining(cfg, s), Remaining(cfg, t))
  }

  predicate Eases(found: bool, before: nat, after: nat) { if found then after <= before + ASK else after < before }

  lemma DeliverPosts(cfg: Config, s: State, id: nat, reach: set<Addr>)
    requires CanDeliver(cfg, s, id)
    ensures var m, t := s.items[id].msg, AfterDeliver(cfg, s, id, reach);
            var out := Handle(SiteOf(cfg, m.receiver), s.nodes[m.receiver], m, reach).out;
            t.items == Added(s.items - {id}, s.next, out) && t.next == s.next + |out|
  {}

  lemma HandledWeighs(cfg: Config, s: State, id: nat, reach: set<Addr>)
    requires ConfigOk(cfg) && CanDeliver(cfg, s, id)
    ensures var m := s.items[id].msg;
            var out := Handle(SiteOf(cfg, m.receiver), s.nodes[m.receiver], m, reach).out;
            var left := Load(cfg, Added(s.items - {id}, s.next, out), s.next + |out|);
            Eases(FindsCorruption(cfg, s, Deliver(id, reach)), Remaining(cfg, s), left)
  {
    var m := s.items[id].msg;
    HandleWeighs(cfg, s.nodes[m.receiver], m, reach);
    LoadMoves(cfg, s.items, id, s.next, Handle(SiteOf(cfg, m.receiver), s.nodes[m.receiver], m, reach).out);
  }

  lemma DeliverWeighs(cfg: Config, s: State, id: nat, reach: set<Addr>)
    requires ConfigOk(cfg) && CanDeliver(cfg, s, id)
    ensures Lighter(cfg, s, Deliver(id, reach), AfterDeliver(cfg, s, id, reach))
  {
    DeliverPosts(cfg, s, id, reach);
    PostedWeighs(cfg, s, id, reach, AfterDeliver(cfg, s, id, reach));
  }

  lemma PostedWeighs(cfg: Config, s: State, id: nat, reach: set<Addr>, t: State)
    requires ConfigOk(cfg) && CanDeliver(cfg, s, id)
    requires var m := s.items[id].msg;
             var out := Handle(SiteOf(cfg, m.receiver), s.nodes[m.receiver], m, reach).out;
             t.items == Added(s.items - {id}, s.next, out) && t.next == s.next + |out|
    ensures Lighter(cfg, s, Deliver(id, reach), t)
  {
    HandledWeighs(cfg, s, id, reach);
  }

  lemma WakeWeighs(cfg: Config, s: State, id: nat, reach: set<Addr>)
    requires CanWake(cfg, s, id)
    ensures Lighter(cfg, s, WakeUp(id, reach), AfterWake(cfg, s, id, reach))
  {
    var item := s.items[id];
    ServeWeighs(cfg, item.at, s.nodes[item.at], item.msg, item.original, reach);
    LoadMoves(cfg, s.items, id, s.next, Serve(SiteOf(cfg, item.at), s.nodes[item.at], item.msg, item.original,
                                              reach).out);
  }

  /** The controller never lists more than three replicas, so its answer weighs less than the request. */
  lemma FewHolders(cfg: Config, s: State, k: Key, order: seq<Addr>, asker: Addr)
    requires IndexOk(cfg, s) && Enumerates(order, Holders(s.index, k) - {asker})
    ensures |order| <= MAX_REPLICAS
  {
    EnumeratedSize(order, Holders(s.index, k) - {asker});
    if k in s.index {
      assert s.index[k] <= Live(s.h, s.gone, k.chunk);
      SubsetSize(s.index[k] - {asker}, Live(s.h, s.gone, k.chunk));
    }
  }

  lemma AnswerSum(cfg: Config, m: ChunkMsg, order: seq<Addr>, reach: set<Addr>)
    requires m.kind == Replica && m.receiver == cfg.controller != m.sender && |order| <= MAX_REPLICAS
    ensures Sum(cfg, AnswerItems(cfg, m, order, reach)) < Weight(cfg, Flight(m))
  {
    SumOne(cfg, Flight(m.(replicas := order, receiver := m.sender, sender := cfg.controller)));
  }

  lemma AskerIsNode(cfg: Config, h: History, m: ChunkMsg)
    requires ConfigOk(cfg) && HistoryOk(cfg, h) && MsgOk(cfg, h, m) && m.receiver == cfg.controller
    ensures m.kind == Replica && m.sender != cfg.controller
  {
    NodesAreNotController(cfg, h, m);
    assert h.placed[m.chunk] <= cfg.nodes;
  }

  lemma AnswerWeighs(cfg: Config, s: State, id: nat, order: seq<Addr>, reach: set<Addr>)
    requires ConfigOk(cfg) && Inv(cfg, s) && CanAnswer(cfg, s, id, order)
    ensures Remaining(cfg, AfterAnswer(cfg, s, id, order, reach)) < Remaining(cfg, s)
  {
    var m := s.items[id].msg;
    assert ItemOk(cfg, s.h, s.items[id]);
    AskerIsNode(cfg, s.h, m);
    FewHolders(cfg, s, Key(m.file, m.chunk), order, m.sender);
    AnswerSum(cfg, m, order, reach);
    AnswerMoves(cfg, s, id, order, reach);
  }

  lemma AnswerMoves(cfg: Config, s: State, id: nat, order: seq<Addr>, reach: set<Addr>)
    requires CanAnswer(cfg, s, id, order)
    requires Sum(cfg, AnswerItems(cfg, s.items[id].msg, order, reach)) < Weight(cfg, s.items[id])
    ensures Remaining(cfg, AfterAnswer(cfg, s, id, order, reach)) < Remaining(cfg, s)
  {
    LoadMoves(cfg, s.items, id, s.next, AnswerItems(cfg, s.items[id].msg, order, reach));
  }

  lemma TakeWeighs(cfg: Config, s: State, id: nat)
    requires PoolOk(s) && id in s.items
    ensures Load(cfg, s.items - {id}, s.next) < Remaining(cfg, s)
  {
    LoadWithout(cfg, s.items, id, s.next);
  }

  /** Every handling step makes the remaining work smaller, except that a step which finds a chunk corrupted may add
      the cost of one request to the controller. */
  lemma StepWeighs(cfg: Config, s: State, step: Step)
    requires ConfigOk(cfg) && Inv(cfg, s) && Enabled(cfg, s, step) && IsMessageStep(step)
    ensures Lighter(cfg, s, step, Next(cfg, s, step))
  {
    if step.AnswerReplica? {
      AnswerWeighs(cfg, s, step.id, step.order, step.reach);
    } else {
      OthersWeigh(cfg, s, step);
    }
  }

  lemma OthersWeigh(cfg: Config, s: State, step: Step)
    requires ConfigOk(cfg) && Enabled(cfg, s, step) && PoolOk(s) && IsMessageStep(step) && !step.AnswerReplica?
    ensures Lighter(cfg, s, step, Next(cfg, s, step))
  {
    match step
    case Deliver(id, reach) => DeliverWeighs(cfg, s, id, reach);
    case Receive(id) => TakeWeighs(cfg, s, id);
    case WakeUp(id, reach) => WakeWeighs(cfg, s, id, reach);
    case Drop(id) => TakeWeighs(cfg, s, id);
  }

  /** A step that starts no work: it handles what is under way, or touches disks, heartbeats, the index or a client
      only. */
  predicate StartsNothing(step: Step) {
    !(step.WriteFile? || step.StartRead? || step.ReplaceFailed? || step.DeleteFile?)
  }

  lemma OthersAddNothing(cfg: Config, s: State, step: Step)
    requires Enabled(cfg, s, step) && StartsNothing(step) && !IsMessageStep(step)
    ensures Next(cfg, s, step).items == s.items && Next(cfg, s, step).next == s.next
  {}

  ghost predicate WindsAt(cfg: Config, states: seq<State>, steps: seq<Step>, i: nat)
    requires i < |steps| < |states|
  {
    StartsNothing(steps[i]) && Enabled(cfg, states[i], steps[i]) && states[i + 1] == Next(cfg, states[i], steps[i])
  }

  /** The states a run without new work goes through one after the other. */
  ghost predicate Winds(cfg: Config, states: seq<State>, steps: seq<Step>) {
    |states| == |steps| + 1
    && forall i {:trigger WindsAt(cfg, states, steps, i)} :: 0 <= i < |steps| ==> WindsAt(cfg, states, steps, i)
  }

  /** How many of the first n steps handle something. */
  function Handled(steps: seq<Step>, n: nat): nat
    requires n <= |steps|
  {
    if n == 0 then 0 else Handled(steps, n - 1) + if IsMessageStep(steps[n - 1]) then 1 else 0
  }

  /** How many of the first n steps find a corrupted chunk. */
  ghost function Corruptions(cfg: Config, states: seq<State>, steps: seq<Step>, n: nat): nat
    requires n <= |steps| <= |states|
  {
    if n == 0 then 0
    else Corruptions(cfg, states, steps, n - 1) + if FindsCorruption(cfg, states[n - 1], steps[n - 1]) then 1 else 0
  }

  /** Step i has paid for itself out of the work under way, or has found a corrupted chunk. */
  ghost predicate Paid(cfg: Config, states: seq<State>, steps: seq<Step>, i: nat)
    requires i < |steps| < |states|
  {
    Remaining(cfg, states[i + 1]) + (if IsMessageStep(steps[i]) then 1 else 0)
      <= Remaining(cfg, states[i]) + if FindsCorruption(cfg, states[i], steps[i]) then ASK + 1 else 0
  }

  lemma OneStep(cfg: Config, states: seq<State>, steps: seq<Step>, n: nat)
    requires ConfigOk(cfg) && Winds(cfg, states, steps) && n < |steps| && Inv(cfg, states[n])
    ensures Inv(cfg, states[n + 1]) && Paid(cfg, states, steps, n)
  {
    assert WindsAt(cfg, states, steps, n);
    var step := steps[n];
    StepKeeps(cfg, states[n], step);
    if IsMessageStep(step) { StepWeighs(cfg, states[n], step); } else { OthersAddNothing(cfg, states[n], step); }
  }

  lemma {:induction false} WindingKeeps(cfg: Config, states: seq<State>, steps: seq<Step>, n: nat)
    requires ConfigOk(cfg) && Winds(cfg, states, steps) && Inv(cfg, states[0]) && n <= |steps|
    ensures Inv(cfg, states[n])
  {
    if n > 0 {
      WindingKeeps(cfg, states, steps, n - 1);
      OneStep(cfg, states, steps, n - 1);
    }
  }

  /** What the corrupted chunks found may add. */
  function Slack(found: nat): nat { (ASK + 1) * found }

  lemma SlackGrows(found: nat)
    ensures Slack(found + 1) == Slack(found) + ASK + 1
  {}

  lemma {:induction false} WindingWeighs(cfg: Config, states: seq<State>, steps: seq<Step>, n: nat)
    requires n <= |steps| < |states|
    requires forall i {:trigger Paid(cfg, states, steps, i)} :: 0 <= i < |steps| ==> Paid(cfg, states, steps, i)
    ensures Handled(steps, n) + Remaining(cfg, states[n]) <= Remaining(cfg, states[0])
            + Slack(Corruptions(cfg, states, steps, n))
  {
    if n > 0 {
      WindingWeighs(cfg, states, steps, n - 1);
      assert Paid(cfg, states, steps, n - 1);
      SlackGrows(Corruptions(cfg, states, steps, n - 1));
    }
  }

  /** From any reachable state, as long as no write, read, delete or replacement is started, at most as many handling
      steps are taken as the work under way weighs, plus seven for each corrupted chunk found; heartbeats,
      corruptions, failures, commands and restarts may come in between and add nothing. */
  lemma CascadesEnd(cfg: Config, states: seq<State>, steps: seq<Step>)
    requires ConfigOk(cfg) && Winds(cfg, states, steps) && Reachable(cfg, states[0])
    ensures Handled(steps, |steps|) <= Remaining(cfg, states[0]) + (ASK + 1) * Corruptions(cfg, states, steps, |steps|)
  {
    ReachableOk(cfg, states[0]);
    forall i {:trigger Paid(cfg, states, steps, i)} | 0 <= i < |steps| ensures Paid(cfg, states, steps, i) {
      WindingKeeps(cfg, states, steps, i);
      OneStep(cfg, states, steps, i);
    }
    WindingWeighs(cfg, states, steps, |steps|);
  }
}
