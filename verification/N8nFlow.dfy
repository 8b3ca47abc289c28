/** The conversion of an exported n8n workflow to the nodes and edges of a flow
    graph, and the flat, ordered specification its nested loops refine. */
module N8nFlow {
  import opened Prelude
  import opened Text

  datatype N8nNode = N8nNode(id: string, name: string, kind: string, x: real, y: real)

  datatype Connection = Connection(node: string, index: int)

  /** `ports[p]` lists the targets of output port `p`. */
  datatype TypeEntry = TypeEntry(kind: string, ports: seq<seq<Connection>>)

  datatype SourceEntry = SourceEntry(name: string, types: seq<TypeEntry>)

  /** `connections` in the order `Object.entries` lists them. */
  datatype Workflow = Workflow(nodes: seq<N8nNode>, connections: seq<SourceEntry>)

  /** The keys of a JSON object are distinct. */
  predicate DistinctSources(wf: Workflow) {
    forall i, j :: 0 <= i < j < |wf.connections| ==> wf.connections[i].name != wf.connections[j].name
  }

  datatype FlowNode = FlowNode(id: string, x: real, y: real, caption: string, nodeType: string, outputCount: nat)

  datatype Edge = Edge(id: string, source: string, target: string, sourceHandle: Option<string>)

  // ----- Specification ----------------------------------------------------------

  /** The id of the last node of that name: later entries of a `Map` win. */
  function IdByName(nodes: seq<N8nNode>, name: string): Option<string>
    decreases nodes
  {
    if nodes == [] then None
    else if nodes[|nodes| - 1].name == name then Some(nodes[|nodes| - 1].id)
    else IdByName(nodes[..|nodes| - 1], name)
  }

  ghost predicate Indexes(m: map<string, string>, nodes: seq<N8nNode>) {
    forall name :: IdByName(nodes, name) == if name in m then Some(m[name]) else None
  }

  /** A name without a node, or whose node has an empty id, is dangling. */
  function Resolved(wf: Workflow, name: string): Option<string> {
    var id := IdByName(wf.nodes, name);
    if Truthy(id) then id else None
  }

  function MaxPorts(types: seq<TypeEntry>): nat
    decreases types
  {
    if types == [] then 0
    else
      var rest, last := MaxPorts(types[..|types| - 1]), |types[|types| - 1].ports|;
      if last > rest then last else rest
  }

  /** The number of output ports of the connections listed under a name. */
  function PortCount(entries: seq<SourceEntry>, name: string): nat
    decreases entries
  {
    if entries == [] then 0
    else if entries[|entries| - 1].name == name then MaxPorts(entries[|entries| - 1].types)
    else PortCount(entries[..|entries| - 1], name)
  }

  function ToFlowNode(wf: Workflow, n: N8nNode): FlowNode {
    var ports := PortCount(wf.connections, n.name);
    FlowNode(n.id, n.x, n.y, n.name, n.kind, if ports > 1 then ports else 1)
  }

  /** A connection by its position: source entry, type, port, target. */
  datatype Ref = Ref(s: nat, t: nat, p: nat, k: nat)

  predicate IsRef(wf: Workflow, r: Ref) {
    && r.s < |wf.connections|
    && r.t < |wf.connections[r.s].types|
    && r.p < |wf.connections[r.s].types[r.t].ports|
    && r.k < |wf.connections[r.s].types[r.t].ports[r.p]|
  }

  predicate Before(a: Ref, b: Ref) {
    a.s < b.s || (a.s == b.s && (a.t < b.t || (a.t == b.t && (a.p < b.p || (a.p == b.p && a.k < b.k)))))
  }

  function TargetRefs(wf: Workflow, s: nat, t: nat, p: nat, n: nat): seq<Ref> {
    if n == 0 then [] else TargetRefs(wf, s, t, p, n - 1) + [Ref(s, t, p, n - 1)]
  }

  function PortRefs(wf: Workflow, s: nat, t: nat, n: nat): seq<Ref>
    requires s < |wf.connections| && t < |wf.connections[s].types| && n <= |wf.connections[s].types[t].ports|
  {
    if n == 0 then []
    else PortRefs(wf, s, t, n - 1) + TargetRefs(wf, s, t, n - 1, |wf.connections[s].types[t].ports[n - 1]|)
  }

  function TypeRefs(wf: Workflow, s: nat, n: nat): seq<Ref>
    requires s < |wf.connections| && n <= |wf.connections[s].types|
  {
    if n == 0 then [] else TypeRefs(wf, s, n - 1) + PortRefs(wf, s, n - 1, |wf.connections[s].types[n - 1].ports|)
  }

  function SourceRefs(wf: Workflow, n: nat): seq<Ref>
    requires n <= |wf.connections|
  {
    if n == 0 then [] else SourceRefs(wf, n - 1) + TypeRefs(wf, n - 1, |wf.connections[n - 1].types|)
  }

  /** Every connection of the workflow. */
  function AllRefs(wf: Workflow): seq<Ref> { SourceRefs(wf, |wf.connections|) }

  function SourceOf(wf: Workflow, r: Ref): Option<string>
    requires IsRef(wf, r)
  {
    Resolved(wf, wf.connections[r.s].name)
  }

  function ConnectionOf(wf: Workflow, r: Ref): Connection
    requires IsRef(wf, r)
  {
    wf.connections[r.s].types[r.t].ports[r.p][r.k]
  }

  predicate Resolvable(wf: Workflow, r: Ref) {
    IsRef(wf, r) && SourceOf(wf, r).Some? && Resolved(wf, ConnectionOf(wf, r).node).Some?
  }

  function IntText(i: int): string { if i < 0 then "-" + Print(-i, 10) else Print(i, 10) }

  function ToEdge(wf: Workflow, r: Ref): Edge
    requires Resolvable(wf, r)
  {
    var source, target := SourceOf(wf, r).value, Resolved(wf, ConnectionOf(wf, r).node).value;
    Edge(source + ":" + IntText(r.p) + "-" + target + ":" + IntText(ConnectionOf(wf, r).index), source, target,
         if r.p > 0 then Some(IntText(r.p)) else None)
  }

  /** The resolvable connections of a list, in its order. */
  function Kept(wf: Workflow, refs: seq<Ref>): (kept: seq<Ref>)
    ensures forall i :: 0 <= i < |kept| ==> Resolvable(wf, kept[i])
    decreases refs
  {
    if refs == [] then []
    else Kept(wf, refs[..|refs| - 1]) + if Resolvable(wf, refs[|refs| - 1]) then [refs[|refs| - 1]] else []
  }

  function ToEdges(wf: Workflow, refs: seq<Ref>): seq<Edge>
    requires forall i :: 0 <= i < |refs| ==> Resolvable(wf, refs[i])
  {
    seq(|refs|, i requires 0 <= i < |refs| => ToEdge(wf, refs[i]))
  }

  function EdgesOf(wf: Workflow, refs: seq<Ref>): seq<Edge> { ToEdges(wf, Kept(wf, refs)) }

  // ----- The conversion -----------------------------------------------------------

  lemma {:induction false} EdgesOfConcat(wf: Workflow, a: seq<Ref>, b: seq<Ref>)
    ensures EdgesOf(wf, a + b) == EdgesOf(wf, a) + EdgesOf(wf, b)
    decreases b
  {
    if b == [] {
      assert a + b == a;
    } else {
      var front, last := b[..|b| - 1], b[|b| - 1];
      EdgesOfConcat(wf, a, front);
      EdgesOfSnoc(wf, a + front, last);
      EdgesOfSnoc(wf, front, last);
      assert a + b == (a + front) + [last] && b == front + [last];
    }
  }

  lemma {:induction false} EdgesOfDangling(wf: Workflow, refs: seq<Ref>)
    requires forall i :: 0 <= i < |refs| ==> !Resolvable(wf, refs[i])
    ensures EdgesOf(wf, refs) == []
    decreases refs
  {
    if refs != [] { EdgesOfDangling(wf, refs[..|refs| - 1]); }
  }

  /** The nested loops, outermost first, one method each. */
  method N8nWorkflowToFlow(wf: Workflow) returns (nodes: seq<FlowNode>, edges: seq<Edge>)
    requires DistinctSources(wf)
    ensures |nodes| == |wf.nodes| && forall i :: 0 <= i < |nodes| ==> nodes[i] == ToFlowNode(wf, wf.nodes[i])
    ensures edges == EdgesOf(wf, AllRefs(wf))
  {
    var idByName := BuildIdByName(wf.nodes);
    var outputCountByName := BuildOutputCounts(wf);
    nodes := BuildNodes(wf, outputCountByName);
    edges := SourceEdges(wf, idByName);
  }

  method SourceEdges(wf: Workflow, idByName: map<string, string>) returns (edges: seq<Edge>)
    requires Indexes(idByName, wf.nodes)
    ensures edges == EdgesOf(wf, AllRefs(wf))
  {
    edges := [];
    for s := 0 to |wf.connections|
      invariant edges == EdgesOf(wf, SourceRefs(wf, s))
    {
      var name := wf.connections[s].name;
      if name !in idByName || idByName[name] == "" {
        DanglingSource(wf, s);
        continue;
      }
      var added := TypeEdges(wf, idByName, idByName[name], s);
      SourceEdgesSnoc(wf, s);
      edges := edges + added;
    }
  }

  method BuildNodes(wf: Workflow, outputCountByName: map<string, nat>) returns (nodes: seq<FlowNode>)
    requires forall name :: PortCount(wf.connections, name) == if name in outputCountByName then outputCountByName[name] else 0
    ensures |nodes| == |wf.nodes| && forall i :: 0 <= i < |nodes| ==> nodes[i] == ToFlowNode(wf, wf.nodes[i])
  {
    nodes := [];
    for i := 0 to |wf.nodes|
      invariant |nodes| == i && forall j :: 0 <= j < i ==> nodes[j] == ToFlowNode(wf, wf.nodes[j])
    {
      var n := wf.nodes[i];
      var count := if n.name in outputCountByName then outputCountByName[n.name] else 0;
      nodes := nodes + [FlowNode(n.id, n.x, n.y, n.name, n.kind, if count > 1 then count else 1)];
    }
  }

  lemma SourceEdgesSnoc(wf: Workflow, s: nat)
    requires s < |wf.connections|
    ensures EdgesOf(wf, SourceRefs(wf, s + 1))
            == EdgesOf(wf, SourceRefs(wf, s)) + EdgesOf(wf, TypeRefs(wf, s, |wf.connections[s].types|))
  {
    EdgesOfConcat(wf, SourceRefs(wf, s), TypeRefs(wf, s, |wf.connections[s].types|));
  }

  lemma TypeEdgesSnoc(wf: Workflow, s: nat, t: nat)
    requires s < |wf.connections| && t < |wf.connections[s].types|
    ensures EdgesOf(wf, TypeRefs(wf, s, t + 1))
            == EdgesOf(wf, TypeRefs(wf, s, t)) + EdgesOf(wf, PortRefs(wf, s, t, |wf.connections[s].types[t].ports|))
  {
    EdgesOfConcat(wf, TypeRefs(wf, s, t), PortRefs(wf, s, t, |wf.connections[s].types[t].ports|));
  }

  lemma PortEdgesSnoc(wf: Workflow, s: nat, t: nat, p: nat)
    requires s < |wf.connections| && t < |wf.connections[s].types| && p < |wf.connections[s].types[t].ports|
    ensures EdgesOf(wf, PortRefs(wf, s, t, p + 1))
            == EdgesOf(wf, PortRefs(wf, s, t, p)) + EdgesOf(wf, TargetRefs(wf, s, t, p, |wf.connections[s].types[t].ports[p]|))
  {
    EdgesOfConcat(wf, PortRefs(wf, s, t, p), TargetRefs(wf, s, t, p, |wf.connections[s].types[t].ports[p]|));
  }

  lemma DanglingSource(wf: Workflow, s: nat)
    requires s < |wf.connections| && Resolved(wf, wf.connections[s].name).None?
    ensures EdgesOf(wf, SourceRefs(wf, s + 1)) == EdgesOf(wf, SourceRefs(wf, s))
  {
    var refs := TypeRefs(wf, s, |wf.connections[s].types|);
    TypeRefsArePlaced(wf, s, |wf.connections[s].types|);
    forall i | 0 <= i < |refs|
      ensures !Resolvable(wf, refs[i])
    {
      assert refs[i] in refs;
    }
    EdgesOfDangling(wf, refs);
    SourceEdgesSnoc(wf, s);
  }

  method TypeEdges(wf: Workflow, idByName: map<string, string>, sourceId: string, s: nat) returns (edges: seq<Edge>)
    requires Indexes(idByName, wf.nodes)
    requires s < |wf.connections| && Resolved(wf, wf.connections[s].name) == Some(sourceId)
    ensures edges == EdgesOf(wf, TypeRefs(wf, s, |wf.connections[s].types|))
  {
    edges := [];
    for t := 0 to |wf.connections[s].types|
      invariant edges == EdgesOf(wf, TypeRefs(wf, s, t))
    {
      var added := PortEdges(wf, idByName, sourceId, s, t);
      TypeEdgesSnoc(wf, s, t);
      edges := edges + added;
    }
  }

  method PortEdges(wf: Workflow, idByName: map<string, string>, sourceId: string, s: nat, t: nat) returns (edges: seq<Edge>)
    requires Indexes(idByName, wf.nodes)
    requires s < |wf.connections| && Resolved(wf, wf.connections[s].name) == Some(sourceId)
    requires t < |wf.connections[s].types|
    ensures edges == EdgesOf(wf, PortRefs(wf, s, t, |wf.connections[s].types[t].ports|))
  {
    edges := [];
    for p := 0 to |wf.connections[s].types[t].ports|
      invariant edges == EdgesOf(wf, PortRefs(wf, s, t, p))
    {
      var added := TargetEdges(wf, idByName, sourceId, s, t, p);
      PortEdgesSnoc(wf, s, t, p);
      edges := edges + added;
    }
  }

  method TargetEdges(wf: Workflow, idByName: map<string, string>, sourceId: string, s: nat, t: nat, p: nat)
    returns (edges: seq<Edge>)
    requires Indexes(idByName, wf.nodes)
    requires s < |wf.connections| && Resolved(wf, wf.connections[s].name) == Some(sourceId)
    requires t < |wf.connections[s].types| && p < |wf.connections[s].types[t].ports|
    ensures edges == EdgesOf(wf, TargetRefs(wf, s, t, p, |wf.connections[s].types[t].ports[p]|))
  {
    edges := [];
    for k := 0 to |wf.connections[s].types[t].ports[p]|
      invariant edges == EdgesOf(wf, TargetRefs(wf, s, t, p, k))
    {
      EdgesOfSnoc(wf, TargetRefs(wf, s, t, p, k), Ref(s, t, p, k));
      var target := wf.connections[s].types[t].ports[p][k];
      if target.node !in idByName || idByName[target.node] == "" { continue; }
      var targetId := idByName[target.node];
      var handle := if p > 0 then Some(IntText(p)) else None;
      edges := edges + [Edge(sourceId + ":" + IntText(p) + "-" + targetId + ":" + IntText(target.index), sourceId, targetId, handle)];
    }
  }

  lemma EdgesOfSnoc(wf: Workflow, refs: seq<Ref>, r: Ref)
    ensures EdgesOf(wf, refs + [r]) == EdgesOf(wf, refs) + if Resolvable(wf, r) then [ToEdge(wf, r)] else []
  {
    assert (refs + [r])[..|refs|] == refs;
  }

  method BuildIdByName(nodes: seq<N8nNode>) returns (m: map<string, string>)
    ensures Indexes(m, nodes)
  {
    m := map[];
    for i := 0 to |nodes|
      invariant forall name :: IdByName(nodes[..i], name) == if name in m then Some(m[name]) else None
    {
      m := m[nodes[i].name := nodes[i].id];
      assert nodes[..i + 1][..i] == nodes[..i];
    }
    assert nodes[..|nodes|] == nodes;
  }

  method BuildOutputCounts(wf: Workflow) returns (m: map<string, nat>)
    ensures forall name :: PortCount(wf.connections, name) == if name in m then m[name] else 0
  {
    m := map[];
    for i := 0 to |wf.connections|
      invariant forall name :: PortCount(wf.connections[..i], name) == if name in m then m[name] else 0
    {
      m := m[wf.connections[i].name := MaxPorts(wf.connections[i].types)];
      assert wf.connections[..i + 1][..i] == wf.connections[..i];
    }
    assert wf.connections[..|wf.connections|] == wf.connections;
  }

  // ----- The specification is what it should be --------------------------------------

  predicate Ordered(refs: seq<Ref>) {
    forall i, j :: 0 <= i < j < |refs| ==> Before(refs[i], refs[j])
  }

  lemma {:induction false} TargetRefsArePlaced(wf: Workflow, s: nat, t: nat, p: nat, n: nat)
    ensures Ordered(TargetRefs(wf, s, t, p, n))
    ensures forall r :: r in TargetRefs(wf, s, t, p, n) <==> r.s == s && r.t == t && r.p == p && r.k < n
  {
    if n > 0 { TargetRefsArePlaced(wf, s, t, p, n - 1); }
  }

  lemma {:induction false} PortRefsArePlaced(wf: Workflow, s: nat, t: nat, n: nat)
    requires s < |wf.connections| && t < |wf.connections[s].types| && n <= |wf.connections[s].types[t].ports|
    ensures Ordered(PortRefs(wf, s, t, n))
    ensures forall r :: r in PortRefs(wf, s, t, n) <==> r.s == s && r.t == t && r.p < n && IsRef(wf, r)
  {
    if n > 0 {
      PortRefsArePlaced(wf, s, t, n - 1);
      TargetRefsArePlaced(wf, s, t, n - 1, |wf.connections[s].types[t].ports[n - 1]|);
      AppendOrdered(PortRefs(wf, s, t, n - 1), TargetRefs(wf, s, t, n - 1, |wf.connections[s].types[t].ports[n - 1]|));
    }
  }

  lemma {:induction false} TypeRefsArePlaced(wf: Workflow, s: nat, n: nat)
    requires s < |wf.connections| && n <= |wf.connections[s].types|
    ensures Ordered(TypeRefs(wf, s, n))
    ensures forall r :: r in TypeRefs(wf, s, n) <==> r.s == s && r.t < n && IsRef(wf, r)
  {
    if n > 0 {
      TypeRefsArePlaced(wf, s, n - 1);
      PortRefsArePlaced(wf, s, n - 1, |wf.connections[s].types[n - 1].ports|);
      AppendOrdered(TypeRefs(wf, s, n - 1), PortRefs(wf, s, n - 1, |wf.connections[s].types[n - 1].ports|));
    }
  }

  lemma {:induction false} SourceRefsArePlaced(wf: Workflow, n: nat)
    requires n <= |wf.connections|
    ensures Ordered(SourceRefs(wf, n))
    ensures forall r :: r in SourceRefs(wf, n) <==> r.s < n && IsRef(wf, r)
  {
    if n > 0 {
      SourceRefsArePlaced(wf, n - 1);
      TypeRefsArePlaced(wf, n - 1, |wf.connections[n - 1].types|);
      AppendOrdered(SourceRefs(wf, n - 1), TypeRefs(wf, n - 1, |wf.connections[n - 1].types|));
    }
  }

  lemma AppendOrdered(a: seq<Ref>, b: seq<Ref>)
    requires Ordered(a) && Ordered(b) && forall x, y :: x in a && y in b ==> Before(x, y)
    ensures Ordered(a + b)
  {
  }

  /** The edges come from exactly the resolvable connections, each once, in
      (source, type, port, target) order. */
  lemma KeptIsFilteredOrder(wf: Workflow)
    ensures forall r :: r in Kept(wf, AllRefs(wf)) <==> Resolvable(wf, r)
    ensures Ordered(Kept(wf, AllRefs(wf)))
  {
    SourceRefsArePlaced(wf, |wf.connections|);
    KeptOfOrdered(wf, AllRefs(wf));
  }

  lemma {:induction false} KeptOfOrdered(wf: Workflow, refs: seq<Ref>)
    requires Ordered(refs)
    ensures Ordered(Kept(wf, refs))
    ensures forall r :: r in Kept(wf, refs) <==> r in refs && Resolvable(wf, r)
    decreases refs
  {
    if refs != [] {
      var front, last := refs[..|refs| - 1], refs[|refs| - 1];
      assert refs == front + [last];
      KeptOfOrdered(wf, front);
      AppendOrdered(Kept(wf, front), [last]);
    }
  }

  function Dropped(wf: Workflow, refs: seq<Ref>): nat
    decreases refs
  {
    if refs == [] then 0
    else Dropped(wf, refs[..|refs| - 1]) + if Resolvable(wf, refs[|refs| - 1]) then 0 else 1
  }

  /** Edges plus dropped connections are all connections. */
  lemma {:induction false} NothingIsLost(wf: Workflow, refs: seq<Ref>)
    ensures |EdgesOf(wf, refs)| + Dropped(wf, refs) == |refs|
    decreases refs
  {
    if refs != [] { NothingIsLost(wf, refs[..|refs| - 1]); }
  }

  lemma {:induction false} IdBelongsToANode(nodes: seq<N8nNode>, name: string)
    requires IdByName(nodes, name).Some?
    ensures exists i :: 0 <= i < |nodes| && nodes[i].name == name && nodes[i].id == IdByName(nodes, name).value
    decreases nodes
  {
    if nodes[|nodes| - 1].name != name {
      var front := nodes[..|nodes| - 1];
      IdBelongsToANode(front, name);
      var i :| 0 <= i < |front| && front[i].name == name && front[i].id == IdByName(front, name).value;
      assert nodes[i] == front[i];
    }
  }

  lemma {:induction false} MaxPortsBounds(types: seq<TypeEntry>, t: nat)
    requires t < |types|
    ensures |types[t].ports| <= MaxPorts(types)
    decreases types
  {
    if t < |types| - 1 { MaxPortsBounds(types[..|types| - 1], t); }
  }

  lemma {:induction false} PortCountOfEntry(entries: seq<SourceEntry>, s: nat)
    requires s < |entries| && forall i, j :: 0 <= i < j < |entries| ==> entries[i].name != entries[j].name
    ensures PortCount(entries, entries[s].name) == MaxPorts(entries[s].types)
    decreases entries
  {
    if s < |entries| - 1 { PortCountOfEntry(entries[..|entries| - 1], s); }
  }

  lemma SourceIsAnchored(wf: Workflow, r: Ref)
    requires DistinctSources(wf) && Resolvable(wf, r)
    ensures exists i :: 0 <= i < |wf.nodes| && wf.nodes[i].id == SourceOf(wf, r).value
                        && ToFlowNode(wf, wf.nodes[i]).outputCount > r.p
  {
    IdBelongsToANode(wf.nodes, wf.connections[r.s].name);
    PortCountOfEntry(wf.connections, r.s);
    MaxPortsBounds(wf.connections[r.s].types, r.t);
    var i :| 0 <= i < |wf.nodes| && wf.nodes[i].name == wf.connections[r.s].name && wf.nodes[i].id == SourceOf(wf, r).value;
    assert ToFlowNode(wf, wf.nodes[i]).outputCount > r.p;
  }

  /** `e` has its target among the nodes, and some node with its source id
      renders the handle it leaves by: none for port 0, else the port's number. */
  ghost predicate Anchored(e: Edge, nodes: seq<FlowNode>) {
    && (exists i :: 0 <= i < |nodes| && nodes[i].id == e.target)
    && (exists i, p: nat :: 0 <= i < |nodes| && nodes[i].id == e.source && p < nodes[i].outputCount
          && LeavesBy(e, p))
  }

  predicate LeavesBy(e: Edge, port: nat) {
    e.sourceHandle == if port > 0 then Some(IntText(port)) else None
  }

  lemma EdgeComesFrom(wf: Workflow, e: Edge) returns (r: Ref)
    requires e in EdgesOf(wf, AllRefs(wf))
    ensures Resolvable(wf, r) && e == ToEdge(wf, r)
  {
    var kept := Kept(wf, AllRefs(wf));
    var n :| 0 <= n < |kept| && e == ToEdge(wf, kept[n]);
    r := kept[n];
  }

  /** Every produced edge is anchored in the produced nodes, even when names or
      ids repeat. */
  lemma EdgesAreAnchored(wf: Workflow, nodes: seq<FlowNode>, e: Edge)
    requires DistinctSources(wf) && e in EdgesOf(wf, AllRefs(wf))
    requires |nodes| == |wf.nodes| && forall i :: 0 <= i < |nodes| ==> nodes[i] == ToFlowNode(wf, wf.nodes[i])
    ensures Anchored(e, nodes)
  {
    var r := EdgeComesFrom(wf, e);
    SourceIsAnchored(wf, r);
    IdBelongsToANode(wf.nodes, ConnectionOf(wf, r).node);
    var i :| 0 <= i < |wf.nodes| && wf.nodes[i].id == e.source && ToFlowNode(wf, wf.nodes[i]).outputCount > r.p;
    assert nodes[i].id == e.source && LeavesBy(e, r.p);
    var j :| 0 <= j < |wf.nodes| && wf.nodes[j].name == ConnectionOf(wf, r).node && wf.nodes[j].id == e.target;
    assert nodes[j].id == e.target;
  }

  // ----- Read off the workflow ------------------------------------------------------------

  /** The last node of a name. */
  predicate IsLastNamed(nodes: seq<N8nNode>, name: string, i: nat) {
    i < |nodes| && nodes[i].name == name && forall j :: i < j < |nodes| ==> nodes[j].name != name
  }

  lemma {:induction false} IdIsTheLastNamed(nodes: seq<N8nNode>, name: string, i: nat)
    requires IsLastNamed(nodes, name, i)
    ensures IdByName(nodes, name) == Some(nodes[i].id)
    decreases nodes
  {
    if i < |nodes| - 1 {
      IdIsTheLastNamed(nodes[..|nodes| - 1], name, i);
    }
  }

  lemma {:induction false} IdOfUnnamed(nodes: seq<N8nNode>, name: string)
    requires forall i :: 0 <= i < |nodes| ==> nodes[i].name != name
    ensures IdByName(nodes, name) == None
    decreases nodes
  {
    if nodes != [] { IdOfUnnamed(nodes[..|nodes| - 1], name); }
  }

  lemma {:induction false} SomeNameHasALast(nodes: seq<N8nNode>, name: string) returns (i: nat)
    requires exists k :: 0 <= k < |nodes| && nodes[k].name == name
    ensures IsLastNamed(nodes, name, i)
    decreases nodes
  {
    var last := |nodes| - 1;
    if nodes[last].name == name {
      i := last;
    } else {
      var k :| 0 <= k < |nodes| && nodes[k].name == name;
      assert nodes[..last][k].name == name;
      i := SomeNameHasALast(nodes[..last], name);
    }
  }

  /** A name resolves to an id if and only if its last node has that id and the id
      is not empty. */
  lemma ResolvesToLastNode(wf: Workflow, name: string, id: string)
    ensures Resolved(wf, name) == Some(id) <==>
      id != "" && exists i: nat :: IsLastNamed(wf.nodes, name, i) && wf.nodes[i].id == id
  {
    if k :| 0 <= k < |wf.nodes| && wf.nodes[k].name == name {
      var i := SomeNameHasALast(wf.nodes, name);
      IdIsTheLastNamed(wf.nodes, name, i);
      assert forall j: nat :: IsLastNamed(wf.nodes, name, j) ==> j == i;
    } else {
      IdOfUnnamed(wf.nodes, name);
    }
  }

  /** Some connection list under the name has more than `p` output ports. */
  predicate HasPort(wf: Workflow, name: string, p: nat) {
    exists s, t :: 0 <= s < |wf.connections| && wf.connections[s].name == name
                   && 0 <= t < |wf.connections[s].types| && p < |wf.connections[s].types[t].ports|
  }

  lemma {:induction false} MaxPortsIsReached(types: seq<TypeEntry>)
    ensures MaxPorts(types) > 0 ==> exists t :: 0 <= t < |types| && |types[t].ports| == MaxPorts(types)
    decreases types
  {
    if types != [] {
      var front := types[..|types| - 1];
      MaxPortsIsReached(front);
      if |types[|types| - 1].ports| <= MaxPorts(front) && MaxPorts(front) > 0 {
        var t :| 0 <= t < |front| && |front[t].ports| == MaxPorts(front);
        assert types[t] == front[t];
      }
    }
  }

  lemma {:induction false} PortCountOfUnlisted(entries: seq<SourceEntry>, name: string)
    requires forall s :: 0 <= s < |entries| ==> entries[s].name != name
    ensures PortCount(entries, name) == 0
    decreases entries
  {
    if entries != [] { PortCountOfUnlisted(entries[..|entries| - 1], name); }
  }

  lemma PortCountIffPort(wf: Workflow, name: string, p: nat)
    requires DistinctSources(wf)
    ensures p < PortCount(wf.connections, name) <==> HasPort(wf, name, p)
  {
    if s :| 0 <= s < |wf.connections| && wf.connections[s].name == name {
      PortCountOfEntry(wf.connections, s);
      var types := wf.connections[s].types;
      MaxPortsIsReached(types);
      if p < MaxPorts(types) {
        var t :| 0 <= t < |types| && |types[t].ports| == MaxPorts(types);
        assert p < |wf.connections[s].types[t].ports|;
      }
      forall t | 0 <= t < |types|
        ensures |types[t].ports| <= MaxPorts(types)
      {
        MaxPortsBounds(types, t);
      }
    } else {
      PortCountOfUnlisted(wf.connections, name);
    }
  }

  /** A produced node shows its n8n node: id, place, name and kind; and it renders
      handle `p` if and only if `p` is 0 or an output port of that name. */
  lemma NodesShowTheirSource(wf: Workflow, nodes: seq<FlowNode>, i: nat, p: nat)
    requires DistinctSources(wf) && i < |wf.nodes| && |nodes| == |wf.nodes|
    requires forall j :: 0 <= j < |nodes| ==> nodes[j] == ToFlowNode(wf, wf.nodes[j])
    ensures var n, m := nodes[i], wf.nodes[i];
      && n.id == m.id && n.x == m.x && n.y == m.y && n.caption == m.name && n.nodeType == m.kind
      && (p < n.outputCount <==> p == 0 || HasPort(wf, m.name, p))
  {
    PortCountIffPort(wf, wf.nodes[i].name, p);
  }

  /** A produced edge joins the two resolved nodes of its connection; its id spells
      source, port, target and input, the port as its handle does. */
  lemma EdgesSpellTheirConnection(wf: Workflow, e: Edge) returns (r: Ref)
    requires e in EdgesOf(wf, AllRefs(wf))
    ensures IsRef(wf, r)
    ensures Resolved(wf, wf.connections[r.s].name) == Some(e.source)
    ensures Resolved(wf, wf.connections[r.s].types[r.t].ports[r.p][r.k].node) == Some(e.target)
    ensures var port := e.sourceHandle.GetOr("0");
      var input := wf.connections[r.s].types[r.t].ports[r.p][r.k].index;
      && (e.sourceHandle == None <==> r.p == 0) && port == IntText(r.p)
      && e.id == e.source + ":" + port + "-" + e.target + ":" + IntText(input)
  {
    r := EdgeComesFrom(wf, e);
    assert IntText(0) == "0";
  }
}
