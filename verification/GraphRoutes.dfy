/** The lookups of a graph, edge by edge: which node is the entry, and where a signal leads from a node. */
module GraphRoutes {
  import opened Graph
  import opened Wrappers

  // ---- nodes ----

  /** An agent list wins over a single agent, an empty reference is none, and a stage without a policy is strict. */
  lemma NodeMeans(agentRef: Option<string>, agents: Option<seq<string>>, policy: Option<Policy>)
    ensures var node := Node(agentRef, agents, policy);
      && node.Members() == (if agents.Some? then agents.value else if agentRef in {None, Some("")} then [] else [agentRef.value])
      && (node.EffectivePolicy() == Lenient <==> policy == Some(Lenient))
  {
  }

  /** Some edge between nodes leads to it. */
  predicate HasWayIn(def: Definition, key: string) {
    exists i :: 0 <= i < |def.edges| && def.edges[i].to == key && key != "__end__"
  }

  lemma TargetsHaveWayIn(def: Definition, key: string)
    ensures key in Targets(def.edges) <==> HasWayIn(def, key)
  {
    if key in Targets(def.edges) {
      var e :| e in def.edges && e.to != GRAPH_END && e.to == key;
      var i :| 0 <= i < |def.edges| && def.edges[i] == e;
    }
    if HasWayIn(def, key) {
      var i :| 0 <= i < |def.edges| && def.edges[i].to == key;
      assert def.edges[i] in def.edges;
    }
  }

  lemma OnlyOne(s: set<string>, key: string)
    requires key in s
    ensures |s| == 1 <==> forall k <- s :: k == key
  {
    if forall k <- s :: k == key {
      assert s == {key};
    }
    if |s| == 1 {
      forall k <- s ensures k == key { SingletonHasOneElement(s, k, key); }
    }
  }

  /** A node is the entry if and only if it is the only one that no edge leads to; a graph with none or several has none. */
  lemma EntryIff(def: Definition, key: string)
    ensures FindEntry(def) == Some(key) <==>
      key in def.nodes && !HasWayIn(def, key) && forall k <- def.nodes :: !HasWayIn(def, k) ==> k == key
  {
    hide HasWayIn;
    var candidates := def.nodes.Keys - Targets(def.edges);
    forall k <- def.nodes ensures k in candidates <==> !HasWayIn(def, k) { TargetsHaveWayIn(def, k); }
    if key in candidates {
      OnlyOne(candidates, key);
    }
    if FindEntry(def).Some? {
      var entry := FindEntry(def).value;
      TargetsHaveWayIn(def, entry);
      OnlyOne(candidates, entry);
    }
  }

  // ---- edges ----

  predicate Leaves(edges: seq<Edge>, i: nat, from: string) {
    i < |edges| && edges[i].from == from
  }

  /** The first edge of that label leaving the node. */
  predicate IsFirst(edges: seq<Edge>, i: nat, from: string, when: Option<string>) {
    && Leaves(edges, i, from) && edges[i].when == when
    && forall j :: 0 <= j < i && edges[j].from == from ==> edges[j].when != when
  }

  ghost predicate HasLabel(edges: seq<Edge>, from: string, when: Option<string>) {
    exists i: nat :: Leaves(edges, i, from) && edges[i].when == when
  }

  /** At least two edges leave the node. */
  ghost predicate Branches(edges: seq<Edge>, from: string) {
    exists i: nat, j: nat :: i < j && Leaves(edges, i, from) && Leaves(edges, j, from)
  }

  lemma {:induction false} NoEdgeLeaves(edges: seq<Edge>, from: string)
    ensures EdgesFrom(edges, from) == [] <==> forall i: nat :: !Leaves(edges, i, from)
  {
    if edges != [] {
      NoEdgeLeaves(edges[1..], from);
      assert forall i: nat :: Leaves(edges, i + 1, from) == Leaves(edges[1..], i, from);
      if Leaves(edges, 0, from) {
        assert EdgesFrom(edges, from) != [];
      } else if i: nat :| Leaves(edges, i, from) {
        assert i > 0 && Leaves(edges[1..], i - 1, from);
      } else {
        forall i: nat ensures !Leaves(edges[1..], i, from) { assert !Leaves(edges, i + 1, from); }
      }
    }
  }

  lemma {:induction false} TwoEdgesLeave(edges: seq<Edge>, from: string)
    ensures |EdgesFrom(edges, from)| > 1 <==> Branches(edges, from)
    ensures forall i: nat :: |EdgesFrom(edges, from)| == 1 && Leaves(edges, i, from) ==> EdgesFrom(edges, from) == [edges[i]]
  {
    if edges != [] {
      var rest := edges[1..];
      TwoEdgesLeave(rest, from);
      NoEdgeLeaves(rest, from);
      assert forall i: nat :: Leaves(edges, i + 1, from) == Leaves(rest, i, from);
      if Branches(edges, from) {
        var i: nat, j: nat :| i < j && Leaves(edges, i, from) && Leaves(edges, j, from);
        assert Leaves(rest, j - 1, from);
        if i > 0 { assert Leaves(rest, i - 1, from); }
      }
      if |EdgesFrom(edges, from)| > 1 {
        if edges[0].from == from {
          var j: nat :| Leaves(rest, j, from);
          assert Leaves(edges, 0, from) && Leaves(edges, j + 1, from);
        } else {
          var i: nat, j: nat :| i < j && Leaves(rest, i, from) && Leaves(rest, j, from);
          assert Leaves(edges, i + 1, from) && Leaves(edges, j + 1, from);
        }
      }
      forall i: nat | |EdgesFrom(edges, from)| == 1 && Leaves(edges, i, from) ensures EdgesFrom(edges, from) == [edges[i]] {
        if i > 0 { assert Leaves(rest, i - 1, from) && rest[i - 1] == edges[i]; }
      }
    }
  }

  lemma {:induction false} FirstWhenIs(edges: seq<Edge>, from: string, when: Option<string>, i: nat)
    requires IsFirst(edges, i, from, when)
    ensures FirstWhen(EdgesFrom(edges, from), when) == Some(edges[i])
  {
    if i > 0 {
      assert IsFirst(edges[1..], i - 1, from, when) by {
        forall j | 0 <= j < i - 1 && edges[1..][j].from == from ensures edges[1..][j].when != when { assert edges[j + 1] == edges[1..][j]; }
      }
      FirstWhenIs(edges[1..], from, when, i - 1);
      if edges[0].from == from {
        assert EdgesFrom(edges, from)[1..] == EdgesFrom(edges[1..], from);
      } else {
        assert EdgesFrom(edges, from) == EdgesFrom(edges[1..], from);
      }
    }
  }

  lemma LabelsOf(edges: seq<Edge>, from: string, when: Option<string>)
    ensures FirstWhen(EdgesFrom(edges, from), when).Some? <==> HasLabel(edges, from, when)
  {
    var out := EdgesFrom(edges, from);
    if FirstWhen(out, when).Some? {
      var e := FirstWhen(out, when).value;
      var i: nat :| i < |edges| && edges[i] == e;
      assert Leaves(edges, i, from);
    }
    if HasLabel(edges, from, when) {
      var i: nat :| Leaves(edges, i, from) && edges[i].when == when;
      assert edges[i] in out;
    }
  }

  /** The label that decides at a branch: the signal's if an edge carries it, else none, else an approval. */
  ghost function Deciding(edges: seq<Edge>, from: string, signal: Option<string>): Option<string> {
    if signal.Some? && signal.value != "" && HasLabel(edges, from, signal) then signal
    else if HasLabel(edges, from, None) then None
    else Some("approve")
  }

  /**
   * Where a signal leads: nowhere from a node that no edge leaves, along a node's only edge whatever its label, and at a
   * branch along the first edge of the deciding label, or nowhere if no edge carries that.
   */
  lemma NextIs(def: Definition, from: string, signal: Option<string>, i: nat)
    ensures (forall k: nat :: !Leaves(def.edges, k, from)) ==> FindNext(def, from, signal) == None
    ensures Leaves(def.edges, i, from) && !Branches(def.edges, from) ==> FindNext(def, from, signal) == Some(def.edges[i].to)
    ensures Branches(def.edges, from) && IsFirst(def.edges, i, from, Deciding(def.edges, from, signal)) ==>
      FindNext(def, from, signal) == Some(def.edges[i].to)
    ensures Branches(def.edges, from) && !HasLabel(def.edges, from, Deciding(def.edges, from, signal)) ==>
      FindNext(def, from, signal) == None
  {
    hide HasLabel, Branches;
    NoEdgeLeaves(def.edges, from);
    TwoEdgesLeave(def.edges, from);
    LabelsOf(def.edges, from, signal);
    LabelsOf(def.edges, from, None);
    LabelsOf(def.edges, from, Some("approve"));
    if IsFirst(def.edges, i, from, Deciding(def.edges, from, signal)) {
      FirstWhenIs(def.edges, from, Deciding(def.edges, from, signal), i);
    }
  }
}
