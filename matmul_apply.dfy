/**
  The five passes' ApplyImpl as they run on a mutable graph: each handler
  invocation filters, checks, builds and splices in place, and the pass
  counts the fusions over all the bindings the pattern detector reports.
 */
module MatmulFuseApply {
  import opened Wrappers
  import opened OpDescs
  import opened Graphs
  import opened OpCompats
  import opened MatmulFusePasses

  /**
    Create the new operator node, link `x` and `y` into it and it into `out`,
    then remove the obsolete nodes in one call.
   */
  method SpliceIn(g: Graph, desc: OpDesc, x: NodeId, y: NodeId, out: NodeId, rm: set<NodeId>)
    returns (id: NodeId)
    requires g.Valid() && x in g.nodes && y in g.nodes && out in g.nodes
    modifies g
    ensures g.Valid()
    ensures id == old(g.nextId) && id !in old(g.nodes) && g.nextId == old(g.nextId) + 1
    ensures g.nodes == Spliced(old(g.nodes), id, desc, x, y, out, rm)
  {
    id := g.CreateOpNode(desc);
    g.LinkTo(x, id);
    g.LinkTo(y, id);
    g.LinkTo(id, out);
    g.SafeRemoveNodes(rm);
  }

  /**
    One handler invocation on a binding: the structural filter, the check of
    the matched operators, the new descriptor, then the splice. Reshape2 checks
    the new descriptor before splicing and skips on failure; the others splice
    first and only record the result of the check.
   */
  method Handle(g: Graph, kind: PassKind, table: seq<OpCompat>, m: Match) returns (o: Outcome)
    requires g.Valid() && Binds(g.nodes, kind, m)
    modifies g
    ensures g.Valid()
    ensures o == OutcomeOf(kind, table, old(g.nodes), old(g.nextId), m)
    ensures g.nodes == Rewritten(kind, table, old(g.nodes), old(g.nextId), m)
    ensures g.nextId == if o.Fused? then old(g.nextId) + 1 else old(g.nextId)
  {
    var filter := Filter(kind, g.nodes, m);
    if filter.Err? {
      return Fatal(filter.error);
    }
    if !filter.value {
      return NotMatched;
    }
    if !SubgraphCompat(table, MatchedOps(g.nodes, kind, m)) {
      return PreCheckFailed;
    }
    var built := Build(kind, g.nodes, m);
    if built.Err? {
      return Fatal(built.error);
    }
    var desc := built.value;
    BoundaryOfMatch(g.nodes, kind, m);
    if kind.Reshape2Matmul? {
      if !DescCompat(table, desc) {
        return PostCheckFailed;
      }
      var id := SpliceIn(g, desc, FusedX(m), m.inY, m.out, Obsolete(m));
      return Fused(id, desc, true);
    }
    var id := SpliceIn(g, desc, FusedX(m), m.inY, m.out, Obsolete(m));
    o := Fused(id, desc, DescCompat(table, desc));
  }

  /** The number of handler invocations that fused. */
  function FusedCount(outcomes: seq<Outcome>): (n: nat)
    ensures n <= |outcomes|
    ensures n == 0 <==> forall i | 0 <= i < |outcomes| :: !outcomes[i].Fused?
  {
    if outcomes == [] then 0
    else
      var last := outcomes[|outcomes| - 1];
      FusedCount(outcomes[..|outcomes| - 1]) + if last.Fused? then 1 else 0
  }

  /** The nodes one binding's rewrite would remove are roles of no later binding. */
  predicate Separated(matches: seq<Match>) {
    forall i, j | 0 <= i < j < |matches| :: Obsolete(matches[i]) !! RoleNodes(matches[j])
  }

  /**
    The graphs, next ids and outcomes of a run of handler invocations: each
    step's outcome and graph are those of one invocation on the previous
    graph, and only the last step may have aborted the pass.
   */
  datatype Trace = Trace(graphs: seq<map<NodeId, Node>>, nextIds: seq<NodeId>, outcomes: seq<Outcome>)

  /** One handler invocation on binding `m` takes graph `before` to `after` with outcome `o`. */
  ghost predicate Step(kind: PassKind, table: seq<OpCompat>, m: Match,
                       before: map<NodeId, Node>, beforeId: NodeId, o: Outcome,
                       after: map<NodeId, Node>, afterId: NodeId)
  {
    && EdgesLive(before) && FreshFrom(before, beforeId)
    && Binds(before, kind, m)
    && o == OutcomeOf(kind, table, before, beforeId, m)
    && after == Rewritten(kind, table, before, beforeId, m)
    && afterId == if o.Fused? then beforeId + 1 else beforeId
  }

  /** The trace without its last step. */
  function Prefix(t: Trace): (p: Trace)
    requires 0 < |t.outcomes| && |t.graphs| == |t.outcomes| + 1 && |t.nextIds| == |t.outcomes| + 1
    ensures |p.outcomes| == |t.outcomes| - 1 && |p.graphs| == |t.outcomes| && |p.nextIds| == |t.outcomes|
  {
    Trace(t.graphs[..|t.outcomes|], t.nextIds[..|t.outcomes|], t.outcomes[..|t.outcomes| - 1])
  }

  /** The trace extended by one more handler invocation. */
  function Extend(t: Trace, after: map<NodeId, Node>, afterId: NodeId, o: Outcome): (t': Trace)
    requires |t.graphs| == |t.outcomes| + 1 && |t.nextIds| == |t.outcomes| + 1
    ensures |t'.outcomes| == |t.outcomes| + 1 && |t'.graphs| == |t'.outcomes| + 1 && |t'.nextIds| == |t'.outcomes| + 1
    ensures t'.outcomes[|t.outcomes|] == o && t'.graphs[|t'.outcomes|] == after && t'.nextIds[|t'.outcomes|] == afterId
    ensures t'.graphs[0] == t.graphs[0] && t'.nextIds[0] == t.nextIds[0]
  {
    Trace(t.graphs + [after], t.nextIds + [afterId], t.outcomes + [o])
  }

  /**
    A run: the trace without its last step is a run that did not abort, and
    the last step is one handler invocation on the graph that run left.
   */
  ghost predicate IsRun(kind: PassKind, table: seq<OpCompat>, matches: seq<Match>, t: Trace)
    decreases |t.outcomes|
  {
    && |t.outcomes| <= |matches|
    && |t.graphs| == |t.outcomes| + 1 && |t.nextIds| == |t.outcomes| + 1
    && EdgesLive(t.graphs[|t.outcomes|]) && FreshFrom(t.graphs[|t.outcomes|], t.nextIds[|t.outcomes|])
    && (0 < |t.outcomes| ==>
          var n := |t.outcomes| - 1;
          && IsRun(kind, table, matches, Prefix(t))
          && (0 < n ==> !t.outcomes[n - 1].Fatal?)
          && Step(kind, table, matches[n], t.graphs[n], t.nextIds[n], t.outcomes[n], t.graphs[n + 1], t.nextIds[n + 1]))
  }

  /** A run extended by one more handler invocation is a run. */
  lemma RunStep(kind: PassKind, table: seq<OpCompat>, matches: seq<Match>, t: Trace,
                after: map<NodeId, Node>, afterId: NodeId, o: Outcome)
    requires IsRun(kind, table, matches, t) && |t.outcomes| < |matches|
    requires forall j | 0 <= j < |t.outcomes| :: !t.outcomes[j].Fatal?
    requires var i := |t.outcomes|;
      Step(kind, table, matches[i], t.graphs[i], t.nextIds[i], o, after, afterId)
    requires EdgesLive(after) && FreshFrom(after, afterId)
    ensures IsRun(kind, table, matches, Extend(t, after, afterId, o))
  {
    var i := |t.outcomes|;
    var t' := Extend(t, after, afterId, o);
    assert t'.graphs[..i + 1] == t.graphs && t'.nextIds[..i + 1] == t.nextIds && t'.outcomes[..i] == t.outcomes;
    assert Prefix(t') == t;
    assert t'.graphs[i] == t.graphs[i] && t'.nextIds[i] == t.nextIds[i];
    assert t'.graphs[i + 1] == after && t'.nextIds[i + 1] == afterId && t'.outcomes[i] == o;
  }

  lemma FusedCountSnoc(outcomes: seq<Outcome>, o: Outcome)
    ensures FusedCount(outcomes + [o]) == FusedCount(outcomes) + if o.Fused? then 1 else 0
  {
    assert (outcomes + [o])[..|outcomes|] == outcomes;
  }

  /** Bindings separated from the current one keep binding after its rewrite. */
  lemma LaterBindsKept(kind: PassKind, matches: seq<Match>, i: nat, before: map<NodeId, Node>, after: map<NodeId, Node>)
    requires Separated(matches) && i < |matches|
    requires KeepsKinds(before, after, Obsolete(matches[i]))
    requires forall j | i <= j < |matches| :: Binds(before, kind, matches[j])
    ensures forall j | i < j < |matches| :: Binds(after, kind, matches[j])
  {
    forall j | i < j < |matches| ensures Binds(after, kind, matches[j]) {
      BindsKept(kind, before, after, Obsolete(matches[i]), matches[j]);
    }
  }

  /** The loop state of ApplyImpl after `i` bindings besides the run so far: no abort yet, and the bindings still to come. */
  ghost predicate Progress(g: map<NodeId, Node>, nextId: NodeId, pass: FusePass, matches: seq<Match>, t: Trace, i: nat)
  {
    && i <= |matches| && |t.outcomes| == i
    && |t.graphs| == i + 1 && |t.nextIds| == i + 1
    && g == t.graphs[i] && nextId == t.nextIds[i]
    && (forall j | 0 <= j < i :: !t.outcomes[j].Fatal?)
    && (forall j | i <= j < |matches| :: Binds(g, pass.kind, matches[j]))
  }

  /** The loop state after one more handler invocation, given the run it extends and the effect it had. */
  lemma Advance(pass: FusePass, matches: seq<Match>, t: Trace, i: nat,
                before: map<NodeId, Node>, beforeId: NodeId, o: Outcome,
                after: map<NodeId, Node>, afterId: NodeId)
    requires Separated(matches) && i < |matches| && !o.Fatal?
    requires Progress(before, beforeId, pass, matches, t, i)
    requires Effect(matches[i], before, beforeId, o, after, afterId)
    ensures Progress(after, afterId, pass, matches, Extend(t, after, afterId, o), i + 1)
  {
    LaterBindsKept(pass.kind, matches, i, before, after);
    var t' := Extend(t, after, afterId, o);
    assert t'.graphs[i + 1] == after && t'.nextIds[i + 1] == afterId;
    assert forall j | 0 <= j < i :: t'.outcomes[j] == t.outcomes[j];
  }

  /** The run and the loop state after one more handler invocation, given the step it took. */
  lemma Record(pass: FusePass, matches: seq<Match>, t: Trace, i: nat,
               before: map<NodeId, Node>, beforeId: NodeId, o: Outcome,
               after: map<NodeId, Node>, afterId: NodeId)
    requires Separated(matches) && i < |matches|
    requires IsRun(pass.kind, pass.compats, matches, t)
    requires Progress(before, beforeId, pass, matches, t, i)
    requires Step(pass.kind, pass.compats, matches[i], before, beforeId, o, after, afterId)
    requires EdgesLive(after) && FreshFrom(after, afterId)
    ensures IsRun(pass.kind, pass.compats, matches, Extend(t, after, afterId, o))
    ensures !o.Fatal? ==> Progress(after, afterId, pass, matches, Extend(t, after, afterId, o), i + 1)
    ensures FusedCount(Extend(t, after, afterId, o).outcomes) == FusedCount(t.outcomes) + if o.Fused? then 1 else 0
  {
    StepHasEffect(pass.kind, pass.compats, matches[i], before, beforeId, o, after, afterId);
    RunStep(pass.kind, pass.compats, matches, t, after, afterId, o);
    FusedCountSnoc(t.outcomes, o);
    if !o.Fatal? {
      Advance(pass, matches, t, i, before, beforeId, o, after, afterId);
    }
  }

  /** One iteration of ApplyImpl's loop: the handler on the next binding, recorded in the trace. */
  method HandleNext(g: Graph, pass: FusePass, matches: seq<Match>, ghost t: Trace, i: nat)
    returns (o: Outcome, ghost t': Trace)
    requires g.Valid() && Separated(matches) && i < |matches|
    requires IsRun(pass.kind, pass.compats, matches, t)
    requires Progress(g.nodes, g.nextId, pass, matches, t, i)
    modifies g
    ensures g.Valid()
    ensures t' == Extend(t, g.nodes, g.nextId, o)
    ensures IsRun(pass.kind, pass.compats, matches, t')
    ensures !o.Fatal? ==> Progress(g.nodes, g.nextId, pass, matches, t', i + 1)
    ensures FusedCount(t'.outcomes) == FusedCount(t.outcomes) + if o.Fused? then 1 else 0
  {
    ghost var before := g.nodes;
    ghost var beforeId := g.nextId;
    o := Handle(g, pass.kind, pass.compats, matches[i]);
    Record(pass, matches, t, i, before, beforeId, o, g.nodes, g.nextId);
    t' := Extend(t, g.nodes, g.nextId, o);
  }

  /**
    ApplyImpl of one pass over the bindings the detector reports: run the
    handler on each in turn, count the fusions, and abort on the first
    attribute read that raises.
   */
  method ApplyPass(g: Graph, pass: FusePass, matches: seq<Match>)
    returns (r: Result<nat, AttrError>, ghost t: Trace)
    requires g.Valid() && Separated(matches)
    requires forall i | 0 <= i < |matches| :: Binds(g.nodes, pass.kind, matches[i])
    modifies g
    ensures g.Valid()
    ensures IsRun(pass.kind, pass.compats, matches, t)
    ensures t.graphs[0] == old(g.nodes) && t.nextIds[0] == old(g.nextId)
    ensures g.nodes == t.graphs[|t.outcomes|] && g.nextId == t.nextIds[|t.outcomes|]
    ensures r.Ok? ==> |t.outcomes| == |matches| && r.value == FusedCount(t.outcomes)
    ensures r.Err? ==> 0 < |t.outcomes| && t.outcomes[|t.outcomes| - 1] == Fatal(r.error)
  {
    var foundCount := 0;
    t := Trace([g.nodes], [g.nextId], []);
    var i := 0;
    while i < |matches|
      invariant g.Valid()
      invariant IsRun(pass.kind, pass.compats, matches, t)
      invariant Progress(g.nodes, g.nextId, pass, matches, t, i)
      invariant t.graphs[0] == old(g.nodes) && t.nextIds[0] == old(g.nextId)
      invariant foundCount == FusedCount(t.outcomes)
    {
      var o;
      o, t := HandleNext(g, pass, matches, t, i);
      if o.Fatal? {
        return Err(o.error), t;
      }
      if o.Fused? {
        foundCount := foundCount + 1;
      }
      i := i + 1;
    }
    r := Ok(foundCount);
  }

  // ---------------------------------------------------------------------------
  // What a whole run does to the graph
  // ---------------------------------------------------------------------------

  /** Every role of every binding is a node of the graph the run starts from. */
  predicate RolesIn(matches: seq<Match>, nodes: map<NodeId, Node>) {
    forall j | 0 <= j < |matches| :: RoleNodes(matches[j]) <= nodes.Keys
  }

  /** The nodes removed by the steps of `t` that fused. */
  function RemovedBy(matches: seq<Match>, t: Trace): set<NodeId>
    requires |t.outcomes| <= |matches|
  {
    set i, k | 0 <= i < |t.outcomes| && t.outcomes[i].Fused? && k in Obsolete(matches[i]) :: k
  }

  /** What one step does to the live ids, the next id and the surviving nodes. */
  ghost predicate Effect(m: Match, before: map<NodeId, Node>, beforeId: NodeId, o: Outcome,
                         after: map<NodeId, Node>, afterId: NodeId)
  {
    && FreshFrom(before, beforeId) && Obsolete(m) <= before.Keys
    && afterId == (if o.Fused? then beforeId + 1 else beforeId)
    && KeepsKinds(before, after, Obsolete(m))
    && (o.Fused? ==>
          && after.Keys == before.Keys - Obsolete(m) + {beforeId}
          && after[beforeId].kind == OpNode(o.desc))
    && (!o.Fused? ==> after == before)
  }

  /** The step-by-step effects of a trace. */
  ghost predicate Evolves(matches: seq<Match>, t: Trace) {
    && |t.outcomes| <= |matches|
    && |t.graphs| == |t.outcomes| + 1 && |t.nextIds| == |t.outcomes| + 1
    && forall i | 0 <= i < |t.outcomes| ::
         Effect(matches[i], t.graphs[i], t.nextIds[i], t.outcomes[i], t.graphs[i + 1], t.nextIds[i + 1])
  }

  lemma StepHasEffect(kind: PassKind, table: seq<OpCompat>, m: Match,
                      before: map<NodeId, Node>, beforeId: NodeId, o: Outcome,
                      after: map<NodeId, Node>, afterId: NodeId)
    requires Step(kind, table, m, before, beforeId, o, after, afterId)
    ensures Effect(m, before, beforeId, o, after, afterId)
  {
    RewriteShape(kind, table, before, beforeId, m);
    BoundaryOfMatch(before, kind, m);
  }

  /** The effects of a trace follow from those of its prefix and of its last step. */
  lemma EvolvesSnoc(matches: seq<Match>, t: Trace)
    requires 0 < |t.outcomes| <= |matches| && |t.graphs| == |t.outcomes| + 1 && |t.nextIds| == |t.outcomes| + 1
    requires Evolves(matches, Prefix(t))
    requires var n := |t.outcomes| - 1;
      Effect(matches[n], t.graphs[n], t.nextIds[n], t.outcomes[n], t.graphs[n + 1], t.nextIds[n + 1])
    ensures Evolves(matches, t)
  {
    var p := Prefix(t);
    forall i | 0 <= i < |t.outcomes|
      ensures Effect(matches[i], t.graphs[i], t.nextIds[i], t.outcomes[i], t.graphs[i + 1], t.nextIds[i + 1])
    {
      if i < |p.outcomes| {
        assert Effect(matches[i], p.graphs[i], p.nextIds[i], p.outcomes[i], p.graphs[i + 1], p.nextIds[i + 1]);
        assert p.graphs[i] == t.graphs[i] && p.nextIds[i] == t.nextIds[i] && p.outcomes[i] == t.outcomes[i];
        assert p.graphs[i + 1] == t.graphs[i + 1] && p.nextIds[i + 1] == t.nextIds[i + 1];
      }
    }
  }

  lemma {:induction false} RunEvolves(kind: PassKind, table: seq<OpCompat>, matches: seq<Match>, t: Trace)
    requires IsRun(kind, table, matches, t)
    ensures Evolves(matches, t)
    decreases |t.outcomes|
  {
    if 0 < |t.outcomes| {
      var n := |t.outcomes| - 1;
      RunEvolves(kind, table, matches, Prefix(t));
      StepHasEffect(kind, table, matches[n], t.graphs[n], t.nextIds[n], t.outcomes[n], t.graphs[n + 1], t.nextIds[n + 1]);
      EvolvesSnoc(matches, t);
    }
  }

  lemma StepEffect(matches: seq<Match>, t: Trace, i: nat)
    requires Evolves(matches, t) && i < |t.outcomes|
    ensures t.graphs[i + 1].Keys <= t.graphs[i].Keys + {t.nextIds[i]}
    ensures t.nextIds[i] <= t.nextIds[i + 1]
    ensures t.nextIds[i] !in t.graphs[i]
    ensures t.nextIds[i + 1] == if t.outcomes[i].Fused? then t.nextIds[i] + 1 else t.nextIds[i]
    ensures FreshFrom(t.graphs[i], t.nextIds[i]) && Obsolete(matches[i]) <= t.graphs[i].Keys
    ensures KeepsKinds(t.graphs[i], t.graphs[i + 1], Obsolete(matches[i]))
    ensures t.outcomes[i].Fused? ==>
      && Obsolete(matches[i]) !! t.graphs[i + 1].Keys
      && t.nextIds[i] in t.graphs[i + 1]
      && t.graphs[i + 1][t.nextIds[i]].kind == OpNode(t.outcomes[i].desc)
    ensures !t.outcomes[i].Fused? ==> t.graphs[i + 1] == t.graphs[i]
  {
    assert Effect(matches[i], t.graphs[i], t.nextIds[i], t.outcomes[i], t.graphs[i + 1], t.nextIds[i + 1]);
  }

  /** The next id advances by one per fusion: it is the start id plus the fusions of the first `k` steps. */
  lemma {:induction false} NextIdCounts(matches: seq<Match>, t: Trace, k: nat)
    requires Evolves(matches, t) && k <= |t.outcomes|
    ensures t.nextIds[k] == t.nextIds[0] + FusedCount(t.outcomes[..k])
  {
    if k > 0 {
      NextIdCounts(matches, t, k - 1);
      StepEffect(matches, t, k - 1);
      assert t.outcomes[..k] == t.outcomes[..k - 1] + [t.outcomes[k - 1]];
      FusedCountSnoc(t.outcomes[..k - 1], t.outcomes[k - 1]);
    }
  }

  /** Next ids never decrease along a run. */
  lemma {:induction false} NextIdsGrow(matches: seq<Match>, t: Trace, i: nat, j: nat)
    requires Evolves(matches, t) && i <= j <= |t.outcomes|
    ensures t.nextIds[i] <= t.nextIds[j]
    decreases j - i
  {
    if i < j {
      StepEffect(matches, t, i);
      NextIdsGrow(matches, t, i + 1, j);
    }
  }

  /** An id below the next id that is absent at step `i` never comes back. */
  lemma {:induction false} StaysGone(matches: seq<Match>, t: Trace,
                                     id: NodeId, i: nat, j: nat)
    requires Evolves(matches, t) && i <= j <= |t.outcomes|
    requires id !in t.graphs[i] && id < t.nextIds[i]
    ensures id !in t.graphs[j]
    decreases j - i
  {
    if i < j {
      StepEffect(matches, t, i);
      StaysGone(matches, t, id, i + 1, j);
    }
  }

  /**
    A node created by the run keeps its kind to the end: the bindings only
    name nodes of the starting graph, so no later step removes it.
   */
  lemma {:induction false} CreatedStays(matches: seq<Match>, t: Trace,
                                        id: NodeId, k: NodeKind, i: nat, j: nat)
    requires Evolves(matches, t) && RolesIn(matches, t.graphs[0])
    requires i <= j <= |t.outcomes|
    requires t.nextIds[0] <= id && id in t.graphs[i] && t.graphs[i][id].kind == k
    ensures id in t.graphs[j] && t.graphs[j][id].kind == k
    decreases j - i
  {
    if i < j {
      StepEffect(matches, t, i);
      assert id !in Obsolete(matches[i]) by {
        assert RoleNodes(matches[i]) <= t.graphs[0].Keys;
        StepEffect(matches, t, 0);
      }
      CreatedStays(matches, t, id, k, i + 1, j);
    }
  }

  /** A node of the starting graph that no fusing step removes keeps its kind to the end. */
  lemma {:induction false} SurvivorStays(matches: seq<Match>, t: Trace,
                                         id: NodeId, j: nat)
    requires Evolves(matches, t) && j <= |t.outcomes|
    requires id in t.graphs[0]
    requires forall i | 0 <= i < j && t.outcomes[i].Fused? :: id !in Obsolete(matches[i])
    ensures id in t.graphs[j] && t.graphs[j][id].kind == t.graphs[0][id].kind
  {
    if j > 0 {
      SurvivorStays(matches, t, id, j - 1);
      StepEffect(matches, t, j - 1);
    }
  }

  /** Every node a fusing step removed is absent from the final graph. */
  lemma RemovedGone(matches: seq<Match>, t: Trace)
    requires Evolves(matches, t)
    ensures RemovedBy(matches, t) !! t.graphs[|t.outcomes|].Keys
  {
    var n := |t.outcomes|;
    forall id | id in RemovedBy(matches, t) ensures id !in t.graphs[n] {
      var i :| 0 <= i < n && t.outcomes[i].Fused? && id in Obsolete(matches[i]);
      StepEffect(matches, t, i);
      assert id < t.nextIds[i + 1];
      StaysGone(matches, t, id, i + 1, n);
    }
  }

  /** Every node a fusing step created is in the final graph with the descriptor that step built. */
  lemma CreatedPresent(matches: seq<Match>, t: Trace)
    requires Evolves(matches, t) && RolesIn(matches, t.graphs[0])
    ensures forall i | 0 <= i < |t.outcomes| && t.outcomes[i].Fused? ::
      && t.nextIds[i] in t.graphs[|t.outcomes|]
      && t.graphs[|t.outcomes|][t.nextIds[i]].kind == OpNode(t.outcomes[i].desc)
  {
    var n := |t.outcomes|;
    forall i | 0 <= i < n && t.outcomes[i].Fused?
      ensures t.nextIds[i] in t.graphs[n] && t.graphs[n][t.nextIds[i]].kind == OpNode(t.outcomes[i].desc)
    {
      StepEffect(matches, t, i);
      NextIdsGrow(matches, t, 0, i);
      CreatedStays(matches, t, t.nextIds[i], OpNode(t.outcomes[i].desc), i + 1, n);
    }
  }

  /** The effect of a whole run, from its step-by-step effects. */
  lemma EvolvesEffect(matches: seq<Match>, t: Trace)
    requires Evolves(matches, t) && RolesIn(matches, t.graphs[0])
    ensures var n := |t.outcomes|;
      && t.nextIds[n] == t.nextIds[0] + FusedCount(t.outcomes)
      && RemovedBy(matches, t) !! t.graphs[n].Keys
      && (forall i | 0 <= i < n && t.outcomes[i].Fused? ::
            t.nextIds[i] in t.graphs[n] && t.graphs[n][t.nextIds[i]].kind == OpNode(t.outcomes[i].desc))
      && (forall id | id in t.graphs[0] && id !in RemovedBy(matches, t) ::
            id in t.graphs[n] && t.graphs[n][id].kind == t.graphs[0][id].kind)
  {
    var n := |t.outcomes|;
    NextIdCounts(matches, t, n);
    assert t.outcomes[..n] == t.outcomes;
    RemovedGone(matches, t);
    CreatedPresent(matches, t);
    forall id | id in t.graphs[0] && id !in RemovedBy(matches, t)
      ensures id in t.graphs[n] && t.graphs[n][id].kind == t.graphs[0][id].kind
    {
      SurvivorStays(matches, t, id, n);
    }
  }

  /**
    The effect of a whole run on the graph: the next id has advanced by the
    number of fusions; every node a fusing step removed is gone; every node a
    fusing step created is present with the descriptor that step built; and
    every other node of the starting graph is still there with its kind.
   */
  lemma RunEffect(kind: PassKind, table: seq<OpCompat>, matches: seq<Match>, t: Trace)
    requires IsRun(kind, table, matches, t) && RolesIn(matches, t.graphs[0])
    ensures var n := |t.outcomes|;
      && t.nextIds[n] == t.nextIds[0] + FusedCount(t.outcomes)
      && RemovedBy(matches, t) !! t.graphs[n].Keys
      && (forall i | 0 <= i < n && t.outcomes[i].Fused? ::
            t.nextIds[i] in t.graphs[n] && t.graphs[n][t.nextIds[i]].kind == OpNode(t.outcomes[i].desc))
      && (forall id | id in t.graphs[0] && id !in RemovedBy(matches, t) ::
            id in t.graphs[n] && t.graphs[n][id].kind == t.graphs[0][id].kind)
  {
    RunEvolves(kind, table, matches, t);
    EvolvesEffect(matches, t);
  }
}
