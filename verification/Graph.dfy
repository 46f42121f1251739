/** Graph profiles: nodes with their agents, signal-labelled edges, entry and successor lookup. */
module Graph {
  import opened Wrappers

  const GRAPH_END: string := "__end__"

  datatype Policy = Strict | Lenient

  datatype Node = Node(agentRef: Option<string>, agents: Option<seq<string>>, policy: Option<Policy>) {
    /** The node's members, whichever of the two spellings declares them. */
    function Members(): seq<string> {
      match agents
      case Some(refs) => refs
      case None => if agentRef.Some? && agentRef.value != "" then [agentRef.value] else []
    }

    function EffectivePolicy(): Policy {
      if policy.Some? then policy.value else Strict
    }
  }

  datatype Edge = Edge(from: string, to: string, when: Option<string>)

  datatype Definition = Definition(nodes: map<string, Node>, edges: seq<Edge>)

  function SingleNode(ref: string): Node {
    Node(Some(ref), None, None)
  }

  /** The built-in planner, coder, reviewer graph. */
  const CAREFUL_GRAPH: Definition := Definition(
    map["planner" := SingleNode("planner"), "coder" := SingleNode("coder"), "reviewer" := SingleNode("reviewer")],
    [ Edge("planner", GRAPH_END, Some("discovery")),
      Edge("planner", "coder", None),
      Edge("coder", "reviewer", None),
      Edge("reviewer", "coder", Some("requestChanges")),
      Edge("reviewer", GRAPH_END, Some("approve")) ])

  /** The built-in roster graph, with two multi-agent stages. */
  const ROSTER_GRAPH: Definition := Definition(
    map[
      "discovery" := SingleNode("discovery"),
      "pm" := SingleNode("pm"),
      "implementation" := Node(None, Some(["backend_engineer", "frontend_engineer"]), Some(Strict)),
      "qa" := SingleNode("qa"),
      "deploy_dev" := SingleNode("sre"),
      "observation" := Node(None, Some(["observation", "design_reviewer", "bug_triage", "doc_writer"]), Some(Lenient))],
    [ Edge("discovery", GRAPH_END, Some("discovery")),
      Edge("discovery", "pm", None),
      Edge("pm", "implementation", None),
      Edge("implementation", "qa", None),
      Edge("qa", "deploy_dev", Some("tests_pass")),
      Edge("qa", "deploy_dev", Some("tests_skipped")),
      Edge("qa", "pm", Some("tests_fail")),
      Edge("deploy_dev", "observation", None),
      Edge("observation", GRAPH_END, None) ])

  /** Node keys that some edge other than a terminating one points to. */
  function Targets(edges: seq<Edge>): set<string> {
    set e | e in edges && e.to != GRAPH_END :: e.to
  }

  lemma SingletonHasOneElement<T>(s: set<T>, x: T, y: T)
    requires |s| == 1 && x in s && y in s
    ensures x == y
  {
    assert |s - {x}| == 0;
    assert y !in s - {x};
  }

  /** The unique node no edge points to, if there is exactly one. */
  function FindEntry(def: Definition): (r: Option<string>)
    ensures r.Some? ==> r.value in def.nodes && (forall e <- def.edges :: e.to != r.value || e.to == GRAPH_END)
  {
    var candidates := def.nodes.Keys - Targets(def.edges);
    if |candidates| == 1 then
      assert forall x, y | x in candidates && y in candidates :: x == y by {
        forall x, y | x in candidates && y in candidates ensures x == y {
          SingletonHasOneElement(candidates, x, y);
        }
      }
      assert candidates != {};
      var k :| k in candidates;
      Some(k)
    else
      None
  }

  function EdgesFrom(edges: seq<Edge>, from: string): (r: seq<Edge>)
    ensures forall e :: e in r <==> e in edges && e.from == from
  {
    if edges == [] then []
    else (if edges[0].from == from then [edges[0]] else []) + EdgesFrom(edges[1..], from)
  }

  function FirstWhen(edges: seq<Edge>, when: Option<string>): (r: Option<Edge>)
    ensures r.Some? ==> r.value in edges && r.value.when == when
    ensures r.None? ==> forall e <- edges :: e.when != when
  {
    if edges == [] then None
    else if edges[0].when == when then Some(edges[0])
    else FirstWhen(edges[1..], when)
  }

  /** The successor of a node under a routing signal; None when no edge resolves. */
  function FindNext(def: Definition, from: string, signal: Option<string>): (r: Option<string>)
    ensures r.Some? ==> exists e <- def.edges :: e.from == from && e.to == r.value
  {
    var candidates := EdgesFrom(def.edges, from);
    if |candidates| == 0 then None
    else if |candidates| == 1 then
      assert candidates[0] in candidates;
      Some(candidates[0].to)
    else
      var labelled := if signal.Some? && signal.value != "" then FirstWhen(candidates, signal) else None;
      if labelled.Some? then Some(labelled.value.to)
      else
        var unlabelled := FirstWhen(candidates, None);
        if unlabelled.Some? then Some(unlabelled.value.to)
        else
          var approve := FirstWhen(candidates, Some("approve"));
          if approve.Some? then Some(approve.value.to) else None
  }
}
