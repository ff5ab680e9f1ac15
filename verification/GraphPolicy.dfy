/**
 The policy questions asked of a workflow graph before it is saved or run: whether
 it can act on the world, at any nesting depth, and whether it has anything to do.
 A node's configuration is what these questions read of it.
 */
module GraphPolicy {
  import opened Common

  datatype NodeKind = Trigger | Agent | ToolCall | HttpRequest | Code | Shell | SubWorkflow | OtherKind

  /** The `workflow` entry of a sub-workflow node. */
  datatype Child = NoChild | Unparseable | Inline(graph: Graph)

  datatype Node =
    Node(id: string, kind: NodeKind, grantsTools: bool, agentRef: Option<string>, namesSaved: bool, child: Child)

  datatype Edge = Edge(source: string, target: string)

  datatype AgentDefinition = AgentDefinition(id: string, grantsTools: bool)

  datatype Graph = Graph(nodes: seq<Node>, edges: seq<Edge>, agents: seq<AgentDefinition>)

  // ----------------------------------------------------------------- Side effects

  /** The first definition with the id, if the graph has one. */
  function AgentOf(agents: seq<AgentDefinition>, id: string): Option<AgentDefinition> {
    if agents == [] then None
    else if agents[0].id == id then Some(agents[0])
    else AgentOf(agents[1..], id)
  }

  /** An agent reference the graph does not define may carry grants nobody here can see. */
  predicate HasToolGrant(g: Graph, n: Node) {
    || n.grantsTools
    || (n.agentRef.Some? &&
        (AgentOf(g.agents, n.agentRef.value).Some? ==> AgentOf(g.agents, n.agentRef.value).value.grantsTools))
  }

  predicate ActsItself(g: Graph, n: Node) {
    n.kind.ToolCall? || n.kind.HttpRequest? || n.kind.Code? || n.kind.Shell? || (n.kind.Agent? && HasToolGrant(g, n))
  }

  predicate HasSideEffect(g: Graph, depth: nat)
    decreases g
  {
    exists i | 0 <= i < |g.nodes| ::
      var n := g.nodes[i];
      || ActsItself(g, n)
      || (n.kind.SubWorkflow? &&
          (|| n.namesSaved
           || (!n.child.NoChild? && (depth == 0 || n.child.Unparseable? || HasSideEffect(n.child.graph, depth - 1)))))
  }

  const MAX_SUB_WORKFLOW_DEPTH: nat := 8

  predicate HasOutboundSideEffect(g: Graph) {
    HasSideEffect(g, MAX_SUB_WORKFLOW_DEPTH)
  }

  // What the answer means: no depth bound, and no mention of the search.

  /** The agent may call a tool: by its own grant, or by what its reference stands for, or may stand for. */
  ghost predicate MayUseTools(g: Graph, n: Node) {
    || n.grantsTools
    || (n.agentRef.Some? &&
        forall i | 0 <= i < |g.agents| && IsDefinition(g.agents, i, n.agentRef.value) :: g.agents[i].grantsTools)
  }

  /** The definition at `i` is the one the id resolves to. */
  ghost predicate IsDefinition(agents: seq<AgentDefinition>, i: nat, id: string)
    requires i < |agents|
  {
    agents[i].id == id && forall j | 0 <= j < i :: agents[j].id != id
  }

  /** What a human must approve: an acting node, a saved reference, or a child that cannot be read. */
  ghost predicate Acting(g: Graph, n: Node) {
    match n.kind
    case ToolCall => true
    case HttpRequest => true
    case Code => true
    case Shell => true
    case Agent => MayUseTools(g, n)
    case SubWorkflow => n.namesSaved || n.child.Unparseable?
    case Trigger => false
    case OtherKind => false
  }

  lemma {:induction false} AgentOfIsFirst(agents: seq<AgentDefinition>, id: string)
    ensures AgentOf(agents, id).None? ==> forall i | 0 <= i < |agents| :: agents[i].id != id
    ensures AgentOf(agents, id).Some? ==> exists i | 0 <= i < |agents| ::
              agents[i] == AgentOf(agents, id).value && IsDefinition(agents, i, id)
  {
    if agents != [] {
      if agents[0].id == id {
        assert IsDefinition(agents, 0, id);
      } else {
        AgentOfIsFirst(agents[1..], id);
        if AgentOf(agents, id).Some? {
          var i :| 0 <= i < |agents[1..]| && agents[1..][i] == AgentOf(agents, id).value &&
                   IsDefinition(agents[1..], i, id);
          assert IsDefinition(agents, i + 1, id);
        }
      }
    }
  }

  lemma ActingIsSeen(g: Graph, n: Node)
    ensures Acting(g, n) <==> ActsItself(g, n) || (n.kind.SubWorkflow? && (n.namesSaved || n.child.Unparseable?))
  {
    if n.kind.Agent? && n.agentRef.Some? {
      AgentOfIsFirst(g.agents, n.agentRef.value);
      if AgentOf(g.agents, n.agentRef.value).Some? {
        var i :| 0 <= i < |g.agents| && g.agents[i] == AgentOf(g.agents, n.agentRef.value).value
                 && IsDefinition(g.agents, i, n.agentRef.value);
      }
    }
  }

  predicate HasInline(n: Node) {
    n.kind.SubWorkflow? && n.child.Inline?
  }

  /** `h` is `g` itself or an inline child at some depth inside it. */
  ghost predicate Contains(g: Graph, h: Graph)
    decreases g
  {
    h == g || exists i | 0 <= i < |g.nodes| :: HasInline(g.nodes[i]) && Contains(g.nodes[i].child.graph, h)
  }

  ghost predicate Harmless(g: Graph) {
    forall h: Graph, i: nat | Contains(g, h) && i < |h.nodes| :: !Acting(h, h.nodes[i])
  }

  /** How deep inline children nest. */
  function Nesting(g: Graph): nat
    decreases g, |g.nodes|
  {
    NestingOf(g, |g.nodes|)
  }

  function NestingOf(g: Graph, n: nat): nat
    requires n <= |g.nodes|
    decreases g, n, 0
  {
    if n == 0 then 0
    else
      var before := NestingOf(g, n - 1);
      var here := if HasInline(g.nodes[n - 1]) then Depth(g, n - 1) else 0;
      if before >= here then before else here
  }

  function Depth(g: Graph, i: nat): nat
    requires i < |g.nodes| && HasInline(g.nodes[i])
    decreases g, i, 1
  {
    1 + Nesting(g.nodes[i].child.graph)
  }

  lemma {:induction false} NestingBounds(g: Graph, n: nat, i: nat)
    requires i < n <= |g.nodes| && HasInline(g.nodes[i])
    ensures Nesting(g.nodes[i].child.graph) + 1 <= NestingOf(g, n)
    decreases n
  {
    if i < n - 1 {
      NestingBounds(g, n - 1, i);
    }
  }

  lemma {:induction false} NestingReached(g: Graph, n: nat) returns (i: nat)
    requires n <= |g.nodes| && NestingOf(g, n) > 0
    ensures i < n && HasInline(g.nodes[i]) && Nesting(g.nodes[i].child.graph) + 1 == NestingOf(g, n)
    decreases n
  {
    if NestingOf(g, n) == NestingOf(g, n - 1) {
      i := NestingReached(g, n - 1);
    } else {
      i := n - 1;
    }
  }

  /** A graph that is cleared, at whatever bound, is harmless at every nesting level. */
  lemma {:induction false} ClearedIsHarmless(g: Graph, depth: nat, h: Graph, i: nat)
    requires !HasSideEffect(g, depth) && Contains(g, h) && i < |h.nodes|
    ensures !Acting(h, h.nodes[i])
    decreases g
  {
    ActingIsSeen(h, h.nodes[i]);
    if h != g {
      var j :| 0 <= j < |g.nodes| && HasInline(g.nodes[j]) && Contains(g.nodes[j].child.graph, h);
      var n := g.nodes[j];
      assert depth > 0 && !HasSideEffect(n.child.graph, depth - 1);
      ClearedIsHarmless(n.child.graph, depth - 1, h, i);
    }
  }

  lemma ClearedFits(g: Graph, depth: nat)
    requires !HasSideEffect(g, depth)
    ensures Nesting(g) <= depth
    decreases g
  {
    if Nesting(g) > 0 {
      var i := NestingReached(g, |g.nodes|);
      var n := g.nodes[i];
      assert depth > 0 && !HasSideEffect(n.child.graph, depth - 1);
      ClearedFits(n.child.graph, depth - 1);
    }
  }

  lemma {:induction false} HarmlessIsCleared(g: Graph, depth: nat)
    requires Harmless(g) && Nesting(g) <= depth
    ensures !HasSideEffect(g, depth)
    decreases g
  {
    forall i | 0 <= i < |g.nodes|
      ensures var n := g.nodes[i];
              && !Acting(g, n) && !ActsItself(g, n)
              && (HasInline(n) ==> depth > 0 && !HasSideEffect(n.child.graph, depth - 1))
    {
      var n := g.nodes[i];
      assert Contains(g, g);
      ActingIsSeen(g, n);
      if HasInline(n) {
        NestingBounds(g, |g.nodes|, i);
        forall h: Graph, j: nat | Contains(n.child.graph, h) && j < |h.nodes|
          ensures !Acting(h, h.nodes[j])
        {
          assert Contains(g, h);
        }
        HarmlessIsCleared(n.child.graph, depth - 1);
      }
    }
  }

  /** The bounded search clears a graph exactly when it is harmless and its nesting fits the bound. */
  lemma ClearedExactly(g: Graph, depth: nat)
    ensures HasSideEffect(g, depth) <==> !Harmless(g) || Nesting(g) > depth
  {
    if !HasSideEffect(g, depth) {
      forall h: Graph, i: nat | Contains(g, h) && i < |h.nodes|
        ensures !Acting(h, h.nodes[i])
      {
        ClearedIsHarmless(g, depth, h, i);
      }
      ClearedFits(g, depth);
    } else if Harmless(g) && Nesting(g) <= depth {
      HarmlessIsCleared(g, depth);
    }
  }

  /** Raising the bound never turns a cleared graph into one that needs approval. */
  lemma {:induction false} RaisingTheBound(g: Graph, depth: nat, more: nat)
    requires depth <= more && HasSideEffect(g, more)
    ensures HasSideEffect(g, depth)
  {
    ClearedExactly(g, depth);
    ClearedExactly(g, more);
  }

  // --------------------------------------------------------------------- Approval

  datatype Approval = Approval(required: bool, forced: bool)

  function EnforceApproval(g: Graph, callerRequires: bool): Approval {
    var acts := HasOutboundSideEffect(g);
    Approval(callerRequires || acts, acts && !callerRequires)
  }

  /** Approval is waived only when the caller waives it and nothing in the graph, however nested, can act. */
  lemma WaivedOnlyWhenHarmless(g: Graph, callerRequires: bool)
    ensures var a := EnforceApproval(g, callerRequires);
            && (!a.required <==> !callerRequires && Harmless(g) && Nesting(g) <= 8)
            && (a.forced <==> a.required && !callerRequires)
  {
    ClearedExactly(g, MAX_SUB_WORKFLOW_DEPTH);
  }

  // ----------------------------------------------------------------- Actionability

  function Triggers(nodes: seq<Node>): seq<Node> {
    if nodes == [] then []
    else if nodes[0].kind.Trigger? then [nodes[0]] + Triggers(nodes[1..]) else Triggers(nodes[1..])
  }

  /** The trigger, when there is exactly one. */
  function SoleTrigger(g: Graph): Option<Node> {
    var ts := Triggers(g.nodes);
    if |ts| == 1 then Some(ts[0]) else None
  }

  lemma {:induction false} TriggersAreTriggers(nodes: seq<Node>, n: Node)
    ensures n in Triggers(nodes) <==> n in nodes && n.kind.Trigger?
  {
    if nodes != [] {
      TriggersAreTriggers(nodes[1..], n);
      assert nodes == [nodes[0]] + nodes[1..];
    }
  }

  lemma {:induction false} TriggersAppend(a: seq<Node>, b: seq<Node>)
    ensures Triggers(a + b) == Triggers(a) + Triggers(b)
  {
    if a == [] {
      assert a + b == b;
    } else {
      assert (a + b)[1..] == a[1..] + b;
      TriggersAppend(a[1..], b);
    }
  }

  lemma {:induction false} NoTriggers(nodes: seq<Node>)
    requires forall n | n in nodes :: !n.kind.Trigger?
    ensures Triggers(nodes) == []
  {
    if nodes != [] {
      assert nodes[0] in nodes;
      NoTriggers(nodes[1..]);
    }
  }

  /** There is a trigger to walk from exactly when one node, and no other, is a trigger. */
  lemma SoleTriggerIsSole(g: Graph)
    ensures SoleTrigger(g).Some? ==> exists i | 0 <= i < |g.nodes| ::
              && g.nodes[i] == SoleTrigger(g).value && g.nodes[i].kind.Trigger?
              && forall j | 0 <= j < |g.nodes| && j != i :: !g.nodes[j].kind.Trigger?
    ensures SoleTrigger(g).None? ==> forall i | 0 <= i < |g.nodes| && g.nodes[i].kind.Trigger? ::
              exists j | 0 <= j < |g.nodes| && j != i :: g.nodes[j].kind.Trigger?
  {
    forall i | 0 <= i < |g.nodes| && g.nodes[i].kind.Trigger?
      ensures Triggers(g.nodes) == Triggers(g.nodes[..i]) + [g.nodes[i]] + Triggers(g.nodes[i + 1..])
    {
      assert g.nodes == g.nodes[..i] + ([g.nodes[i]] + g.nodes[i + 1..]);
      TriggersAppend(g.nodes[..i], [g.nodes[i]] + g.nodes[i + 1..]);
      assert ([g.nodes[i]] + g.nodes[i + 1..])[1..] == g.nodes[i + 1..];
    }
    if SoleTrigger(g).Some? {
      var t := SoleTrigger(g).value;
      assert t in Triggers(g.nodes);
      TriggersAreTriggers(g.nodes, t);
      var i :| 0 <= i < |g.nodes| && g.nodes[i] == t;
      forall j | 0 <= j < |g.nodes| && j != i
        ensures !g.nodes[j].kind.Trigger?
      {
        OtherSide(g.nodes, i, j);
      }
    } else {
      forall i | 0 <= i < |g.nodes| && g.nodes[i].kind.Trigger?
        ensures exists j | 0 <= j < |g.nodes| && j != i :: g.nodes[j].kind.Trigger?
      {
        AnotherTrigger(g.nodes, i);
      }
    }
  }

  lemma OtherSide(nodes: seq<Node>, i: nat, j: nat)
    requires i < |nodes| && j < |nodes| && i != j
    requires |Triggers(nodes)| == 1
    requires Triggers(nodes) == Triggers(nodes[..i]) + [nodes[i]] + Triggers(nodes[i + 1..])
    ensures !nodes[j].kind.Trigger?
  {
    TriggersAreTriggers(nodes[..i], nodes[j]);
    TriggersAreTriggers(nodes[i + 1..], nodes[j]);
    assert if j < i then nodes[j] in nodes[..i] else nodes[i + 1..][j - i - 1] == nodes[j];
  }

  lemma AnotherTrigger(nodes: seq<Node>, i: nat)
    requires i < |nodes| && nodes[i].kind.Trigger? && |Triggers(nodes)| != 1
    requires Triggers(nodes) == Triggers(nodes[..i]) + [nodes[i]] + Triggers(nodes[i + 1..])
    ensures exists j | 0 <= j < |nodes| && j != i :: nodes[j].kind.Trigger?
  {
    if forall j | 0 <= j < |nodes| && j != i :: !nodes[j].kind.Trigger? {
      NoTriggers(nodes[..i]);
      NoTriggers(nodes[i + 1..]);
    }
  }

  function NodeOf(nodes: seq<Node>, id: string): Option<Node> {
    if nodes == [] then None else if nodes[0].id == id then Some(nodes[0]) else NodeOf(nodes[1..], id)
  }

  predicate Works(g: Graph, id: string) {
    NodeOf(g.nodes, id).Some? && !NodeOf(g.nodes, id).value.kind.Trigger?
  }

  function Successors(edges: seq<Edge>, id: string): seq<string> {
    if edges == [] then []
    else if edges[0].source == id then [edges[0].target] + Successors(edges[1..], id)
    else Successors(edges[1..], id)
  }

  ghost predicate IsPath(g: Graph, path: seq<string>) {
    |path| > 0 && forall i | 0 <= i < |path| - 1 :: Edge(path[i], path[i + 1]) in g.edges
  }

  ghost predicate Reaches(g: Graph, a: string, b: string) {
    exists path :: IsPath(g, path) && path[0] == a && path[|path| - 1] == b
  }

  lemma {:induction false} SuccessorsAreEdges(edges: seq<Edge>, id: string)
    ensures forall t :: t in Successors(edges, id) <==> Edge(id, t) in edges
  {
    if edges != [] {
      SuccessorsAreEdges(edges[1..], id);
      assert edges == [edges[0]] + edges[1..];
    }
  }

  lemma ReachesItself(g: Graph, a: string)
    ensures Reaches(g, a, a)
  {
    assert IsPath(g, [a]) && [a][0] == a;
  }

  lemma ReachesFurther(g: Graph, a: string, b: string, c: string)
    requires Reaches(g, a, b) && Edge(b, c) in g.edges
    ensures Reaches(g, a, c)
  {
    var path :| IsPath(g, path) && path[0] == a && path[|path| - 1] == b;
    var longer := path + [c];
    assert IsPath(g, longer) && longer[0] == a && longer[|longer| - 1] == c;
  }

  /** A set closed under edges holds everything its members reach. */
  lemma {:induction false} ClosedHoldsPath(g: Graph, closed: set<string>, path: seq<string>)
    requires IsPath(g, path) && path[0] in closed
    requires forall e | e in g.edges && e.source in closed :: e.target in closed
    ensures path[|path| - 1] in closed
    decreases |path|
  {
    if |path| > 1 {
      assert Edge(path[0], path[0 + 1]) in g.edges;
      var rest := path[1..];
      forall i | 0 <= i < |rest| - 1
        ensures Edge(rest[i], rest[i + 1]) in g.edges
      {
        assert Edge(path[i + 1], path[i + 1 + 1]) in g.edges;
      }
      ClosedHoldsPath(g, closed, rest);
    }
  }

  /** Every id the walk can ever push. */
  ghost function Ids(g: Graph, start: string): set<string> {
    {start} + set e | e in g.edges :: e.target
  }

  /** The worklist walk: everything the start reaches, on any cyclic or dangling graph. */
  method Walk(g: Graph, start: string) returns (visited: set<string>)
    ensures forall id :: id in visited <==> Reaches(g, start, id)
  {
    visited := {};
    var stack := [start];
    ReachesItself(g, start);
    while stack != []
      invariant visited <= Ids(g, start) && (forall id | id in stack :: id in Ids(g, start))
      invariant start in visited || start in stack
      invariant forall id | id in visited || id in stack :: Reaches(g, start, id)
      invariant forall e | e in g.edges && e.source in visited :: e.target in visited || e.target in stack
      decreases Ids(g, start) - visited, |stack|
    {
      var current := stack[|stack| - 1];
      stack := stack[..|stack| - 1];
      if current in visited {
        continue;
      }
      visited := visited + {current};
      var nexts := Successors(g.edges, current);
      SuccessorsAreEdges(g.edges, current);
      stack := PushUnvisited(g, start, current, visited, stack, nexts);
    }
    forall id | Reaches(g, start, id)
      ensures id in visited
    {
      var path :| IsPath(g, path) && path[0] == start && path[|path| - 1] == id;
      ClosedHoldsPath(g, visited, path);
    }
  }

  method PushUnvisited(g: Graph, ghost start: string, current: string, visited: set<string>, stack: seq<string>,
                       nexts: seq<string>)
    returns (pushed: seq<string>)
    requires Reaches(g, start, current) && forall t | t in nexts :: Edge(current, t) in g.edges
    ensures forall id :: id in pushed <==> id in stack || (id in nexts && id !in visited)
    ensures forall id | id in nexts :: Reaches(g, start, id) && id in Ids(g, start)
  {
    pushed := stack;
    for i := 0 to |nexts|
      invariant forall id :: id in pushed <==> id in stack || (id in nexts[..i] && id !in visited)
    {
      assert nexts[..i + 1] == nexts[..i] + [nexts[i]];
      if nexts[i] !in visited {
        pushed := pushed + [nexts[i]];
      }
    }
    assert nexts[..|nexts|] == nexts;
    forall id | id in nexts
      ensures Reaches(g, start, id) && id in Ids(g, start)
    {
      ReachesFurther(g, start, current, id);
      assert Edge(current, id) in g.edges;
    }
  }

  /**
   With a sole trigger, true exactly when an edge path leads from it to a node
   that is not a trigger; otherwise any such node and any edge will do.
   */
  method HasActionableNodes(g: Graph) returns (r: bool)
    ensures SoleTrigger(g).Some? ==> (r <==> exists id :: Reaches(g, SoleTrigger(g).value.id, id) && Works(g, id))
    ensures SoleTrigger(g).None? ==> (r <==> (exists n :: n in g.nodes && !n.kind.Trigger?) && g.edges != [])
  {
    var trigger := SoleTrigger(g);
    if trigger.None? {
      return (exists n | n in g.nodes :: !n.kind.Trigger?) && g.edges != [];
    }
    var visited := Walk(g, trigger.value.id);
    r := exists id | id in visited :: Works(g, id);
  }
}
