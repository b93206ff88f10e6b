/** The two loops in which the controller draws random active nodes. Each loop is driven by the stream
    of draws: a finite stream either brings the loop to its exit or leaves it running. */
module Placement {
  import opened Types
  import opened Sets

  predicate Drawn(picks: seq<Addr>, active: set<Addr>) {
    forall i :: 0 <= i < |picks| ==> picks[i] in active
  }

  // ----- placing the chunks of a new file -----

  /** The node set the loop leaves with, starting from `nodes`, or None while it still runs. */
  function Place(active: set<Addr>, nodes: set<Addr>, picks: seq<Addr>): Option<set<Addr>>
    decreases |picks|
  {
    if picks == [] then None
    else
      var nodes' := nodes + {picks[0]};
      if |nodes'| == MAX_REPLICAS || |active| < MAX_REPLICAS then Some(nodes')
      else Place(active, nodes', picks[1..])
  }

  lemma {:induction false} PlaceSize(active: set<Addr>, nodes: set<Addr>, picks: seq<Addr>)
    requires Drawn(picks, active) && nodes <= active && |nodes| < MAX_REPLICAS
    requires |active| < MAX_REPLICAS ==> nodes == {}
    ensures var r := Place(active, nodes, picks);
            r.Some? ==> r.value <= active && |r.value| == if |active| < MAX_REPLICAS then 1 else MAX_REPLICAS
    decreases |picks|
  {
    if picks != [] {
      var nodes' := nodes + {picks[0]};
      assert picks[0] in active;
      if |nodes'| != MAX_REPLICAS && |active| >= MAX_REPLICAS {
        PlaceSize(active, nodes', picks[1..]);
      }
    }
  }

  /** While the loop runs, some draws bring it to its exit, whatever it has drawn before. */
  lemma {:induction false} PlaceProgress(active: set<Addr>, nodes: set<Addr>, picks: seq<Addr>)
    returns (more: seq<Addr>)
    requires active != {} && Drawn(picks, active) && nodes <= active && |nodes| < MAX_REPLICAS
    requires Place(active, nodes, picks).None?
    ensures Drawn(more, active) && |more| <= MAX_REPLICAS - |nodes| && Place(active, nodes, picks + more).Some?
    decreases |picks|, MAX_REPLICAS - |nodes|
  {
    if picks != [] {
      assert picks[0] in active;
      GrowsByOne(nodes, picks[0]);
      more := PlaceProgress(active, nodes + {picks[0]}, picks[1..]);
      assert (picks + more)[1..] == picks[1..] + more;
    } else {
      var p :| p in active;
      if |active| < MAX_REPLICAS {
        more := [p];
      } else {
        p := SmallerMisses(nodes, active);
        var rest := [];
        if |nodes + {p}| < MAX_REPLICAS {
          rest := PlaceProgress(active, nodes + {p}, []);
          assert [] + rest == rest;
        }
        more := [p] + rest;
        assert more[1..] == rest;
      }
      assert picks + more == more;
    }
  }

  /** Every chunk of a new file is placed on three different active nodes, or on one when fewer than three are
      active; and a placement that still runs can be ended by at most three more draws. */
  lemma PlacementChoice(active: set<Addr>, picks: seq<Addr>) returns (more: seq<Addr>)
    requires active != {} && Drawn(picks, active)
    ensures var r := Place(active, {}, picks);
            match r
            case Some(nodes) => nodes <= active && |nodes| == if |active| < MAX_REPLICAS then 1 else MAX_REPLICAS
            case None => Drawn(more, active) && |more| <= MAX_REPLICAS && Place(active, {}, picks + more).Some?
  {
    more := [];
    PlaceSize(active, {}, picks);
    if Place(active, {}, picks).None? { more := PlaceProgress(active, {}, picks); }
  }

  // ----- replacing a failed node -----

  /** How a replacement loop stands after a stream of draws. `Blank`: it left the loop with no new node,
      and the controller then splits an empty address and indexes past its end. */
  datatype Outcome = Chosen(node: Addr) | Blank | Running

  function Exit(last: Option<Addr>): Outcome {
    match last case Some(n) => Chosen(n) case None => Blank
  }

  function Replace(active: set<Addr>, failed: Addr, survivors: set<Addr>,
                   working: set<Addr>, last: Option<Addr>, picks: seq<Addr>): Outcome
    decreases |picks|
  {
    if picks == [] then Running
    else if picks[0] == failed then Replace(active, failed, survivors, working, last, picks[1..])
    else
      var working' := working + {picks[0]};
      var last' := if picks[0] in survivors then last else Some(picks[0]);
      if |working'| == MAX_REPLICAS || |active| < MAX_REPLICAS then Exit(last')
      else Replace(active, failed, survivors, working', last', picks[1..])
  }

  function Replacement(active: set<Addr>, failed: Addr, survivors: set<Addr>, picks: seq<Addr>): Outcome {
    Replace(active, failed, survivors, survivors, None, picks)
  }

  predicate Fresh(active: set<Addr>, failed: Addr, survivors: set<Addr>, n: Addr) {
    n in active && n != failed && n !in survivors
  }

  /** The node the loop leaves with is active, has not failed and held no copy, whatever the numbers; and with
      three nodes active there were at most two survivors. */
  lemma {:induction false} ReplaceChosen(active: set<Addr>, failed: Addr, survivors: set<Addr>,
                                         working: set<Addr>, last: Option<Addr>, picks: seq<Addr>)
    requires Drawn(picks, active) && survivors <= working <= survivors + (active - {failed})
    requires last.Some? ==> Fresh(active, failed, survivors, last.value)
    requires last.None? <==> working == survivors
    requires Replace(active, failed, survivors, working, last, picks).Chosen?
    ensures Fresh(active, failed, survivors, Replace(active, failed, survivors, working, last, picks).node)
    ensures |active| >= MAX_REPLICAS ==> |survivors| < MAX_REPLICAS <= |survivors + (active - {failed})|
    decreases |picks|
  {
    assert picks[0] in active;
    if picks[0] == failed {
      ReplaceChosen(active, failed, survivors, working, last, picks[1..]);
    } else {
      var working' := working + {picks[0]};
      var last' := if picks[0] in survivors then last else Some(picks[0]);
      if picks[0] in survivors { assert working' == working; }
      if |working'| == MAX_REPLICAS {
        assert last'.Some?;
        assert survivors < working';
        StrictSubsetSize(survivors, working');
        SubsetSize(working', survivors + (active - {failed}));
      } else if |active| >= MAX_REPLICAS {
        ReplaceChosen(active, failed, survivors, working', last', picks[1..]);
      }
    }
  }

  lemma {:induction false} ReplaceBlank(active: set<Addr>, failed: Addr, survivors: set<Addr>,
                                        working: set<Addr>, last: Option<Addr>, picks: seq<Addr>)
    requires Drawn(picks, active) && survivors <= working && (last.None? ==> working == survivors)
    requires Replace(active, failed, survivors, working, last, picks).Blank?
    ensures (active - {failed}) * survivors != {} && (|active| < MAX_REPLICAS || |survivors| == MAX_REPLICAS)
    decreases |picks|
  {
    assert picks[0] in active;
    if picks[0] == failed {
      ReplaceBlank(active, failed, survivors, working, last, picks[1..]);
    } else {
      var working' := working + {picks[0]};
      if picks[0] in survivors {
        assert working' == working;
        assert picks[0] in (active - {failed}) * survivors;
      }
      if |working'| != MAX_REPLICAS && |active| >= MAX_REPLICAS {
        var last' := if picks[0] in survivors then last else Some(picks[0]);
        ReplaceBlank(active, failed, survivors, working', last', picks[1..]);
      }
    }
  }

  /** Every draw of a node that is not yet working brings the loop nearer to three, and one always exists. */
  lemma {:induction false} ReplaceFinish(active: set<Addr>, failed: Addr, survivors: set<Addr>, working: set<Addr>,
                                         last: Option<Addr>) returns (more: seq<Addr>)
    requires survivors <= working && |working| < MAX_REPLICAS <= |working + (active - {failed})|
    requires |active| >= MAX_REPLICAS
    ensures Drawn(more, active) && |more| <= MAX_REPLICAS - |working|
    ensures Replace(active, failed, survivors, working, last, more).Chosen?
    decreases MAX_REPLICAS - |working|
  {
    var p := SmallerMisses(working, working + (active - {failed}));
    var rest := [];
    if |working + {p}| < MAX_REPLICAS {
      assert (working + {p}) + (active - {failed}) == working + (active - {failed});
      rest := ReplaceFinish(active, failed, survivors, working + {p}, Some(p));
    }
    more := [p] + rest;
    assert more[0] == p && more[1..] == rest;
  }

  /** While the loop runs with fewer than three working nodes, some draws end it with a new node. */
  lemma {:induction false} ReplaceProgress(active: set<Addr>, failed: Addr, survivors: set<Addr>, working: set<Addr>,
                                           last: Option<Addr>, picks: seq<Addr>) returns (more: seq<Addr>)
    requires survivors <= working && |working| < MAX_REPLICAS <= |working + (active - {failed})|
    requires |active| >= MAX_REPLICAS
    requires Replace(active, failed, survivors, working, last, picks).Running?
    ensures Drawn(more, active) && |more| <= MAX_REPLICAS
    ensures Replace(active, failed, survivors, working, last, picks + more).Chosen?
    decreases |picks|
  {
    if picks == [] {
      more := ReplaceFinish(active, failed, survivors, working, last);
      assert picks + more == more;
    } else {
      if picks[0] == failed {
        more := ReplaceProgress(active, failed, survivors, working, last, picks[1..]);
      } else {
        var working' := working + {picks[0]};
        var last' := if picks[0] in survivors then last else Some(picks[0]);
        GrowsByOne(working, picks[0]);
        SubsetSize(working + (active - {failed}), working' + (active - {failed}));
        more := ReplaceProgress(active, failed, survivors, working', last', picks[1..]);
      }
      assert (picks + more)[1..] == picks[1..] + more;
    }
  }

  /** With at most two survivors and three other active nodes the loop never leaves empty-handed, the node it
      leaves with is active, has not failed and holds no copy, and while it runs at most three draws end it. */
  lemma ReplacementChoice(active: set<Addr>, failed: Addr, survivors: set<Addr>, picks: seq<Addr>)
    returns (more: seq<Addr>)
    requires |active - {failed}| >= MAX_REPLICAS && |survivors| < MAX_REPLICAS && Drawn(picks, active)
    ensures match Replacement(active, failed, survivors, picks)
            case Chosen(n) => Fresh(active, failed, survivors, n)
            case Blank => false
            case Running => Drawn(more, active) && |more| <= MAX_REPLICAS
                            && Replacement(active, failed, survivors, picks + more).Chosen?
  {
    more := [];
    SubsetSize(active - {failed}, active);
    SubsetSize(active - {failed}, survivors + (active - {failed}));
    match Replacement(active, failed, survivors, picks) {
      case Chosen(_) => ReplaceChosen(active, failed, survivors, survivors, None, picks);
      case Blank => ReplaceBlank(active, failed, survivors, survivors, None, picks);
      case Running => more := ReplaceProgress(active, failed, survivors, survivors, None, picks);
    }
  }

  /** The controller can leave the loop empty-handed, and then fail, exactly when another survivor is active and
      either there are already three survivors or fewer than three nodes are active. */
  lemma BlankExactly(active: set<Addr>, failed: Addr, survivors: set<Addr>)
    ensures (exists picks :: Drawn(picks, active) && Replacement(active, failed, survivors, picks).Blank?)
       <==> (active - {failed}) * survivors != {} && (|active| < MAX_REPLICAS || |survivors| == MAX_REPLICAS)
  {
    if picks :| Drawn(picks, active) && Replacement(active, failed, survivors, picks).Blank? {
      ReplaceBlank(active, failed, survivors, survivors, None, picks);
    }
    if (active - {failed}) * survivors != {} && (|active| < MAX_REPLICAS || |survivors| == MAX_REPLICAS) {
      var p :| p in (active - {failed}) * survivors;
      assert survivors + {p} == survivors;
      assert Drawn([p], active) && Replacement(active, failed, survivors, [p]).Blank?;
    }
  }

  /** The controller can find a new node exactly when, with three nodes active, there are at most two survivors
      and enough others to make three; with fewer active, when some active node is new. */
  lemma ChosenExactly(active: set<Addr>, failed: Addr, survivors: set<Addr>)
    ensures (exists picks :: Drawn(picks, active) && Replacement(active, failed, survivors, picks).Chosen?)
       <==> if |active| < MAX_REPLICAS then exists n :: Fresh(active, failed, survivors, n)
            else |survivors| < MAX_REPLICAS <= |survivors + (active - {failed})|
  {
    if picks :| Drawn(picks, active) && Replacement(active, failed, survivors, picks).Chosen? {
      ReplaceChosen(active, failed, survivors, survivors, None, picks);
    }
    if |active| < MAX_REPLICAS {
      if n :| Fresh(active, failed, survivors, n) {
        assert Drawn([n], active) && Replacement(active, failed, survivors, [n]).Chosen?;
      }
    } else if |survivors| < MAX_REPLICAS <= |survivors + (active - {failed})| {
      var more := ReplaceProgress(active, failed, survivors, survivors, None, []);
      assert [] + more == more;
    }
  }
}
