/** The progress-graph engine: a per-user list of topic nodes and directed edges, updated by
    a fixed 70/30 weighted mastery average, with prerequisite-gated unlocking of the direct
    dependents of a mastered topic and a ranked list of recommended topics. */
module ProgressTracker {
  import opened Common

  datatype Status = Locked | Learning | Mastered

  /** One topic of a learner's graph (`IProgressNode`). */
  datatype ProgressNode = ProgressNode(
    id: string,
    name: string,
    subject: string,
    mastery: real,
    status: Status,
    prerequisites: seq<string>,
    lastStudied: Option<Time>,
    timeSpent: real)

  datatype Edge = Edge(from: string, to: string, strength: real)

  /** The stored graph document of one user; the engine mutates its nodes in place. */
  class ProgressGraph {
    const userId: string
    var nodes: seq<ProgressNode>
    var edges: seq<Edge>

    constructor (userId: string, nodes: seq<ProgressNode>, edges: seq<Edge>)
      ensures this.userId == userId && this.nodes == nodes && this.edges == edges
    {
      this.userId := userId;
      this.nodes := nodes;
      this.edges := edges;
    }
  }

  // ---------------------------------------------------------------------------------------
  // Lookup

  /** `nodes.find(n => n.id === id)`: the index of the FIRST node with that id. */
  function FindNode(nodes: seq<ProgressNode>, id: string): (r: Option<nat>)
    ensures r.Some? ==> r.value < |nodes| && nodes[r.value].id == id
    ensures r.Some? ==> forall j :: 0 <= j < r.value ==> nodes[j].id != id
    ensures r.None? ==> forall j :: 0 <= j < |nodes| ==> nodes[j].id != id
  {
    if nodes == [] then None
    else if nodes[0].id == id then Some(0)
    else match FindNode(nodes[1..], id)
      case None => None
      case Some(k) => Some(k + 1)
  }

  /** An id that resolves to a node whose status is `mastered`; an unresolved id never does. */
  predicate IsMasteredId(nodes: seq<ProgressNode>, id: string)
  {
    match FindNode(nodes, id)
    case None => false
    case Some(j) => nodes[j].status == Mastered
  }

  /** `prerequisites.every(...)`: vacuously true for an empty list. */
  predicate AllPrereqsMastered(nodes: seq<ProgressNode>, prerequisites: seq<string>)
  {
    forall k :: 0 <= k < |prerequisites| ==> IsMasteredId(nodes, prerequisites[k])
  }

  /** Two node lists with the same ids at the same positions resolve every id alike. */
  lemma FindNodeSameIds(a: seq<ProgressNode>, b: seq<ProgressNode>, id: string)
    requires |a| == |b| && forall i :: 0 <= i < |a| ==> a[i].id == b[i].id
    ensures FindNode(a, id) == FindNode(b, id)
  {
    var fa, fb := FindNode(a, id), FindNode(b, id);
    if fa.Some? {
      assert b[fa.value].id == id;
    }
    if fb.Some? {
      assert a[fb.value].id == id;
    }
  }

  /** Same ids and the same set of mastered positions: every prerequisite check agrees. */
  lemma MasteredIdsAgree(a: seq<ProgressNode>, b: seq<ProgressNode>)
    requires |a| == |b|
    requires forall i :: 0 <= i < |a| ==> a[i].id == b[i].id
    requires forall i :: 0 <= i < |a| ==> (a[i].status == Mastered <==> b[i].status == Mastered)
    ensures forall id :: IsMasteredId(a, id) == IsMasteredId(b, id)
    ensures forall ps :: AllPrereqsMastered(a, ps) == AllPrereqsMastered(b, ps)
  {
    forall id ensures IsMasteredId(a, id) == IsMasteredId(b, id) {
      FindNodeSameIds(a, b, id);
    }
  }

  // ---------------------------------------------------------------------------------------
  // Mastery update

  /** `Math.min(old * 0.7 + performance * 0.3, 1)`: clamped from above only. */
  function NewMastery(mastery: real, performance: real): (m: real)
    ensures m <= 1.0
    ensures m <= mastery * 0.7 + performance * 0.3
    ensures m == 1.0 || m == mastery * 0.7 + performance * 0.3
  {
    var weighted := mastery * 0.7 + performance * 0.3;
    if weighted < 1.0 then weighted else 1.0
  }

  /** With a mastery and a performance inside [0, 1] the new mastery stays inside [0, 1]. */
  lemma NewMasteryInRange(mastery: real, performance: real)
    requires 0.0 <= mastery <= 1.0 && 0.0 <= performance <= 1.0
    ensures 0.0 <= NewMastery(mastery, performance) <= 1.0
  {
  }

  /** There is no lower clamp: a negative performance drives mastery below 0, outside the
      range the stored schema declares. */
  lemma NewMasteryCanBeNegative()
    ensures NewMastery(0.0, -1.0) == -0.3
  {
  }

  /** The status after a mastery update: thresholds 0.8 and 0.3, otherwise unchanged. */
  function StatusAfter(status: Status, mastery: real): (r: Status)
    ensures mastery >= 0.8 ==> r == Mastered
    ensures 0.3 <= mastery < 0.8 ==> r == Learning
    ensures mastery < 0.3 ==> r == status
  {
    if mastery >= 0.8 then Mastered
    else if mastery >= 0.3 then Learning
    else status
  }

  /** A status update never moves a node back into `locked`. */
  lemma StatusAfterNeverRelocks(status: Status, mastery: real)
    ensures StatusAfter(status, mastery) == Locked ==> status == Locked
  {
  }

  /** Three perfect sessions from 0.5: 0.65 and 0.755 keep the node learning, 0.8285
      masters it. */
  lemma MasteryScenario()
    ensures NewMastery(0.5, 1.0) == 0.65 && StatusAfter(Learning, 0.65) == Learning
    ensures NewMastery(0.65, 1.0) == 0.755 && StatusAfter(Learning, 0.755) == Learning
    ensures NewMastery(0.755, 1.0) == 0.8285 && StatusAfter(Learning, 0.8285) == Mastered
  {
  }

  /** The node list after the first step of `updateMastery`: only the first node with the
      topic id changes, and only in its mastery, status and lastStudied. */
  function MasteryUpdated(nodes: seq<ProgressNode>, topicId: string, performance: real, now: Time)
    : (r: seq<ProgressNode>)
    ensures |r| == |nodes|
    ensures FindNode(nodes, topicId).None? ==> r == nodes
    ensures FindNode(nodes, topicId).Some? ==>
      var i := FindNode(nodes, topicId).value;
      && (forall j :: 0 <= j < |nodes| && j != i ==> r[j] == nodes[j])
      && r[i].mastery == NewMastery(nodes[i].mastery, performance)
      && r[i].status == StatusAfter(nodes[i].status, r[i].mastery)
      && r[i].lastStudied == Some(now)
      && r[i] == nodes[i].(mastery := r[i].mastery, status := r[i].status, lastStudied := r[i].lastStudied)
  {
    match FindNode(nodes, topicId)
    case None => nodes
    case Some(i) =>
      var m := NewMastery(nodes[i].mastery, performance);
      nodes[i := nodes[i].(mastery := m, status := StatusAfter(nodes[i].status, m), lastStudied := Some(now))]
  }

  // ---------------------------------------------------------------------------------------
  // Unlocking

  /** `edges.filter(e => e.from === src)`, in edge order. */
  function DependentEdges(edges: seq<Edge>, src: string): (r: seq<Edge>)
    ensures forall k :: 0 <= k < |r| ==> r[k].from == src && r[k] in edges
    ensures forall e :: e in edges && e.from == src ==> e in r
  {
    if edges == [] then []
    else if edges[0].from == src then [edges[0]] + DependentEdges(edges[1..], src)
    else DependentEdges(edges[1..], src)
  }

  function Tos(es: seq<Edge>): (r: seq<string>)
    ensures |r| == |es| && forall k :: 0 <= k < |es| ==> r[k] == es[k].to
  {
    seq(|es|, k requires 0 <= k < |es| => es[k].to)
  }

  /** Ids of the direct dependents of `src`: the `to` of every edge `from` it. */
  function DependentIds(edges: seq<Edge>, src: string): seq<string>
  {
    Tos(DependentEdges(edges, src))
  }

  predicate IsFirstWithId(nodes: seq<ProgressNode>, i: nat)
    requires i < |nodes|
  {
    forall j :: 0 <= j < i ==> nodes[j].id != nodes[i].id
  }

  /** A node the unlock step turns from `locked` into `learning`: it is the node an edge's
      `to` resolves to, it is locked, and every prerequisite resolves to a mastered node. */
  predicate Unlockable(nodes: seq<ProgressNode>, targets: seq<string>, i: nat)
    requires i < |nodes|
  {
    && nodes[i].id in targets
    && IsFirstWithId(nodes, i)
    && nodes[i].status == Locked
    && AllPrereqsMastered(nodes, nodes[i].prerequisites)
  }

  function UnlockedBy(nodes: seq<ProgressNode>, targets: seq<string>): (r: seq<ProgressNode>)
    ensures |r| == |nodes|
    ensures forall i :: 0 <= i < |nodes| ==>
      r[i] == if Unlockable(nodes, targets, i) then nodes[i].(status := Learning) else nodes[i]
  {
    seq(|nodes|, i requires 0 <= i < |nodes| =>
      if Unlockable(nodes, targets, i) then nodes[i].(status := Learning) else nodes[i])
  }

  /** The node list after `unlockDependentNodes(src)`, in closed form. */
  function Unlocked(nodes: seq<ProgressNode>, edges: seq<Edge>, src: string): (r: seq<ProgressNode>)
    ensures |r| == |nodes|
    ensures !IsMasteredId(nodes, src) ==> r == nodes
    // only a locked node changes, only into learning, and only its status
    ensures forall i :: 0 <= i < |nodes| ==>
      r[i] == nodes[i] || (nodes[i].status == Locked && r[i] == nodes[i].(status := Learning))
    // a changed node is a direct dependent of src whose prerequisites are all mastered
    ensures forall i :: 0 <= i < |nodes| && r[i] != nodes[i] ==>
      nodes[i].id in DependentIds(edges, src) && AllPrereqsMastered(nodes, nodes[i].prerequisites)
    // and every such locked dependent does change
    ensures forall i :: 0 <= i < |nodes| && IsMasteredId(nodes, src) && Unlockable(nodes, DependentIds(edges, src), i) ==>
      r[i].status == Learning
  {
    if IsMasteredId(nodes, src) then UnlockedBy(nodes, DependentIds(edges, src)) else nodes
  }

  /** Unlocking never moves a node into `locked`. */
  lemma UnlockNeverLocks(nodes: seq<ProgressNode>, edges: seq<Edge>, src: string, i: nat)
    requires i < |nodes|
    ensures Unlocked(nodes, edges, src)[i].status == Locked ==> nodes[i].status == Locked
  {
  }

  /** What unlocking preserves: ids, prerequisites and which nodes are mastered. */
  lemma UnlockedByAgrees(nodes: seq<ProgressNode>, targets: seq<string>)
    ensures var r := UnlockedBy(nodes, targets);
      && |r| == |nodes|
      && (forall i :: 0 <= i < |r| ==> r[i].id == nodes[i].id && r[i].prerequisites == nodes[i].prerequisites)
      && (forall i :: 0 <= i < |r| ==> (r[i].status == Mastered <==> nodes[i].status == Mastered))
  {
  }

  /** Unlocking changes a status only: every node keeps its mastery. */
  lemma UnlockedByKeepsMastery(nodes: seq<ProgressNode>, targets: seq<string>)
    ensures var r := UnlockedBy(nodes, targets);
      |r| == |nodes| && forall i :: 0 <= i < |r| ==> r[i].mastery == nodes[i].mastery
  {
  }

  /** Unlocking is idempotent: a second call with nothing changed in between does nothing. */
  lemma UnlockIdempotent(nodes: seq<ProgressNode>, edges: seq<Edge>, src: string)
    ensures Unlocked(Unlocked(nodes, edges, src), edges, src) == Unlocked(nodes, edges, src)
  {
    var u := Unlocked(nodes, edges, src);
    if IsMasteredId(nodes, src) {
      var ts := DependentIds(edges, src);
      UnlockedByAgrees(nodes, ts);
      MasteredIdsAgree(nodes, u);
      forall i | 0 <= i < |u| ensures !Unlockable(u, ts, i) {
        if Unlockable(nodes, ts, i) {
          assert u[i].status == Learning;
        } else {
          assert u[i] == nodes[i];
          assert IsFirstWithId(u, i) == IsFirstWithId(nodes, i);
        }
      }
      assert UnlockedBy(u, ts) == u;
    }
  }

  /** The loop step for one edge whose `to` resolves to no node: nothing changes. */
  lemma UnlockStepMissing(orig: seq<ProgressNode>, ts: seq<string>, t: string)
    requires FindNode(orig, t).None?
    ensures UnlockedBy(orig, ts + [t]) == UnlockedBy(orig, ts)
  {
    forall i | 0 <= i < |orig| ensures Unlockable(orig, ts + [t], i) == Unlockable(orig, ts, i) {
      assert orig[i].id != t;
    }
  }

  /** The loop step for one edge whose `to` resolves to node `j`, stated on the current list. */
  lemma UnlockStepFound(orig: seq<ProgressNode>, ts: seq<string>, t: string, j: nat)
    requires FindNode(orig, t) == Some(j)
    ensures var cur := UnlockedBy(orig, ts);
      && FindNode(cur, t) == Some(j)
      && UnlockedBy(orig, ts + [t]) ==
           if cur[j].status == Locked && AllPrereqsMastered(cur, cur[j].prerequisites)
           then cur[j := cur[j].(status := Learning)] else cur
  {
    var cur := UnlockedBy(orig, ts);
    UnlockedByAgrees(orig, ts);
    FindNodeSameIds(orig, cur, t);
    MasteredIdsAgree(orig, cur);
    var next := UnlockedBy(orig, ts + [t]);
    var expected := if cur[j].status == Locked && AllPrereqsMastered(cur, cur[j].prerequisites)
                    then cur[j := cur[j].(status := Learning)] else cur;
    forall i | 0 <= i < |orig| ensures next[i] == expected[i] {
      if i != j {
        if orig[i].id == t {
          assert orig[j].id == orig[i].id;
          assert !IsFirstWithId(orig, i);
        }
        assert Unlockable(orig, ts + [t], i) == Unlockable(orig, ts, i);
      } else {
        assert IsFirstWithId(orig, j);
      }
    }
  }

  /** `unlockDependentNodes`: a missing graph, a missing source node or a source that is not
      mastered changes nothing; otherwise every direct dependent that is locked and whose
      prerequisites resolve to mastered nodes becomes `learning`. */
  method UnlockDependentNodes(graph: ProgressGraph?, masteredTopicId: string)
    modifies graph
    ensures graph != null ==> graph.edges == old(graph.edges)
    ensures graph != null ==> graph.nodes == Unlocked(old(graph.nodes), old(graph.edges), masteredTopicId)
  {
    if graph == null {
      return;
    }
    var source := FindNode(graph.nodes, masteredTopicId);
    if source.None? || graph.nodes[source.value].status != Mastered {
      return;
    }
    ghost var orig := graph.nodes;
    var dependentEdges := DependentEdges(graph.edges, masteredTopicId);
    for k := 0 to |dependentEdges|
      invariant graph.edges == old(graph.edges)
      invariant graph.nodes == UnlockedBy(orig, Tos(dependentEdges[..k]))
    {
      var edge := dependentEdges[k];
      assert Tos(dependentEdges[..k + 1]) == Tos(dependentEdges[..k]) + [edge.to];
      var dependent := FindNode(graph.nodes, edge.to);
      UnlockedByAgrees(orig, Tos(dependentEdges[..k]));
      FindNodeSameIds(orig, graph.nodes, edge.to);
      if dependent.None? {
        UnlockStepMissing(orig, Tos(dependentEdges[..k]), edge.to);
        continue;
      }
      var d := dependent.value;
      UnlockStepFound(orig, Tos(dependentEdges[..k]), edge.to, d);
      var dependentNode := graph.nodes[d];
      var allPrereqsMastered := AllPrereqsMastered(graph.nodes, dependentNode.prerequisites);
      if allPrereqsMastered && dependentNode.status == Locked {
        graph.nodes := graph.nodes[d := dependentNode.(status := Learning)];
      }
    }
    assert dependentEdges[..|dependentEdges|] == dependentEdges;
  }

  /** `updateMastery` followed by its unlock step, run sequentially on one graph. */
  method UpdateMastery(graph: ProgressGraph?, topicId: string, performance: real, now: Time)
    modifies graph
    ensures graph != null ==> graph.edges == old(graph.edges)
    ensures graph != null ==>
      graph.nodes == Unlocked(MasteryUpdated(old(graph.nodes), topicId, performance, now), old(graph.edges), topicId)
  {
    if graph == null {
      return;
    }
    var found := FindNode(graph.nodes, topicId);
    if found.None? {
      return;
    }
    var i := found.value;
    var node := graph.nodes[i];
    var mastery := NewMastery(node.mastery, performance);
    var status := node.status;
    if mastery >= 0.8 {
      status := Mastered;
    } else if mastery >= 0.3 {
      status := Learning;
    }
    graph.nodes := graph.nodes[i := node.(mastery := mastery, status := status, lastStudied := Some(now))];
    UnlockDependentNodes(graph, topicId);
  }

  /** The whole update (mastery step, then unlock step) changes no edge, no node other than
      the topic and its direct dependents, and never moves a node back into `locked`. */
  lemma UpdateNeverRelocks(nodes: seq<ProgressNode>, edges: seq<Edge>, topicId: string, performance: real, now: Time, i: nat)
    requires i < |nodes|
    ensures var r := Unlocked(MasteryUpdated(nodes, topicId, performance, now), edges, topicId);
      |r| == |nodes| && (r[i].status == Locked ==> nodes[i].status == Locked)
  {
    var m := MasteryUpdated(nodes, topicId, performance, now);
    UnlockNeverLocks(m, edges, topicId, i);
    if FindNode(nodes, topicId) == Some(i) {
      StatusAfterNeverRelocks(nodes[i].status, m[i].mastery);
    }
  }

  // ---------------------------------------------------------------------------------------
  // Recommendations

  predicate IsCandidate(n: ProgressNode)
  {
    n.status == Learning && n.mastery < 0.7
  }

  /** `nodes.filter(n => n.status === 'learning' && n.mastery < 0.7)`. */
  function Candidates(nodes: seq<ProgressNode>): (r: seq<ProgressNode>)
    ensures forall n :: multiset(r)[n] == if IsCandidate(n) then multiset(nodes)[n] else 0
  {
    if nodes == [] then []
    else
      assert nodes == [nodes[0]] + nodes[1..];
      if IsCandidate(nodes[0]) then [nodes[0]] + Candidates(nodes[1..]) else Candidates(nodes[1..])
  }

  predicate SortedByMastery(s: seq<ProgressNode>)
  {
    forall i, j :: 0 <= i < j < |s| ==> s[i].mastery <= s[j].mastery
  }

  /** A node no higher than the head of a sorted list can go in front of it. */
  lemma ConsSorted(h: ProgressNode, t: seq<ProgressNode>)
    requires SortedByMastery(t)
    requires t != [] ==> h.mastery <= t[0].mastery
    ensures SortedByMastery([h] + t)
  {
  }

  function InsertByMastery(x: ProgressNode, s: seq<ProgressNode>): (r: seq<ProgressNode>)
    requires SortedByMastery(s)
    ensures SortedByMastery(r)
    ensures multiset(r) == multiset(s) + multiset{x}
    ensures |r| == |s| + 1
    ensures r[0] == x || (s != [] && r[0] == s[0])
  {
    if s == [] || x.mastery <= s[0].mastery then
      ConsSorted(x, s);
      [x] + s
    else
      var rest := InsertByMastery(x, s[1..]);
      assert s == [s[0]] + s[1..];
      ConsSorted(s[0], rest);
      [s[0]] + rest
  }

  /** `sort((a, b) => a.mastery - b.mastery)`: ascending mastery, a permutation. */
  function SortByMastery(s: seq<ProgressNode>): (r: seq<ProgressNode>)
    ensures SortedByMastery(r)
    ensures multiset(r) == multiset(s)
    ensures |r| == |s|
  {
    if s == [] then []
    else
      assert s == [s[0]] + s[1..];
      InsertByMastery(s[0], SortByMastery(s[1..]))
  }

  /** `getRecommendedTopics`: the first three candidates in ascending mastery. */
  function Recommend(nodes: seq<ProgressNode>): (r: seq<ProgressNode>)
  {
    var sorted := SortByMastery(Candidates(nodes));
    if |sorted| <= 3 then sorted else sorted[..3]
  }

  function GetRecommendedTopics(graph: ProgressGraph?): (r: seq<ProgressNode>)
    reads graph
    ensures graph == null ==> r == []
    ensures graph != null ==> r == Recommend(graph.nodes)
  {
    if graph == null then [] else Recommend(graph.nodes)
  }

  /** Cutting a sorted list after `n` elements leaves out nothing that ranks lower. */
  lemma {:induction false} SortedPrefixIsLowest(sorted: seq<ProgressNode>, n: nat)
    requires SortedByMastery(sorted) && n <= |sorted|
    ensures forall x, k :: multiset(sorted[..n])[x] < multiset(sorted)[x] && 0 <= k < n ==>
      sorted[k].mastery <= x.mastery
  {
    assert sorted == sorted[..n] + sorted[n..];
    assert multiset(sorted) == multiset(sorted[..n]) + multiset(sorted[n..]);
    forall x, k | multiset(sorted[..n])[x] < multiset(sorted)[x] && 0 <= k < n
      ensures sorted[k].mastery <= x.mastery
    {
      assert x in multiset(sorted[n..]);
      var j :| 0 <= j < |sorted[n..]| && sorted[n..][j] == x;
      assert sorted[n + j] == x;
    }
  }

  /** The recommendations are the first (at most three) candidates in ascending mastery. */
  lemma {:induction false} RecommendIsSortedPrefix(nodes: seq<ProgressNode>)
    ensures var sorted := SortByMastery(Candidates(nodes));
      && |Recommend(nodes)| <= 3 && |Recommend(nodes)| <= |sorted|
      && Recommend(nodes) == sorted[..|Recommend(nodes)|]
  {
  }

  /** Every recommended node is a candidate. */
  lemma {:induction false} RecommendAreCandidates(nodes: seq<ProgressNode>)
    ensures var r := Recommend(nodes);
      forall k :: 0 <= k < |r| ==> IsCandidate(r[k])
  {
    var sorted := SortByMastery(Candidates(nodes));
    var r := Recommend(nodes);
    RecommendIsSortedPrefix(nodes);
    forall k | 0 <= k < |r| ensures IsCandidate(r[k]) {
      assert r[k] == sorted[k];
      assert r[k] in multiset(sorted);
    }
  }

  /** A prefix holds no element more often than the whole sequence. */
  lemma PrefixMultiset(s: seq<ProgressNode>, n: nat)
    requires n <= |s|
    ensures multiset(s[..n]) <= multiset(s)
  {
    assert s == s[..n] + s[n..];
  }

  /** No node is recommended more often than it occurs in the graph. */
  lemma {:induction false} RecommendFromGraph(nodes: seq<ProgressNode>)
    ensures forall x :: multiset(Recommend(nodes))[x] <= multiset(nodes)[x]
  {
    var c := Candidates(nodes);
    var sorted := SortByMastery(c);
    var r := Recommend(nodes);
    RecommendIsSortedPrefix(nodes);
    PrefixMultiset(sorted, |r|);
    assert multiset(r) <= multiset(c);
    forall x ensures multiset(r)[x] <= multiset(nodes)[x] {
      assert multiset(r)[x] <= multiset(c)[x];
    }
  }

  /** Every candidate left out ranks no lower than any recommended node. */
  lemma {:induction false} RecommendLowest(nodes: seq<ProgressNode>)
    ensures var r := Recommend(nodes);
      forall x, k :: IsCandidate(x) && multiset(r)[x] < multiset(nodes)[x] && 0 <= k < |r| ==>
        r[k].mastery <= x.mastery
  {
    var sorted := SortByMastery(Candidates(nodes));
    RecommendIsSortedPrefix(nodes);
    PrefixOfPermutationIsLowest(nodes, sorted, |Recommend(nodes)|);
  }

  /** The same on any sorted arrangement of the graph's candidates. */
  lemma PrefixOfPermutationIsLowest(nodes: seq<ProgressNode>, sorted: seq<ProgressNode>, n: nat)
    requires SortedByMastery(sorted) && n <= |sorted|
    requires forall x :: IsCandidate(x) ==> multiset(sorted)[x] == multiset(nodes)[x]
    ensures forall x, k :: IsCandidate(x) && multiset(sorted[..n])[x] < multiset(nodes)[x] && 0 <= k < n ==>
      sorted[..n][k].mastery <= x.mastery
  {
    SortedPrefixIsLowest(sorted, n);
  }

  /** What a recommendation list promises: at most three learning nodes below 0.7, in
      ascending mastery, taken from the graph, and no left-out candidate ranks lower than a
      returned one. */
  lemma {:induction false} RecommendSpec(nodes: seq<ProgressNode>)
    ensures var r := Recommend(nodes);
      && |r| <= 3
      && (forall k :: 0 <= k < |r| ==> r[k].status == Learning && r[k].mastery < 0.7)
      && SortedByMastery(r)
      && (forall x :: multiset(r)[x] <= multiset(nodes)[x])
      && (forall x, k :: IsCandidate(x) && multiset(r)[x] < multiset(nodes)[x] && 0 <= k < |r| ==>
            r[k].mastery <= x.mastery)
  {
    RecommendIsSortedPrefix(nodes);
    RecommendAreCandidates(nodes);
    RecommendFromGraph(nodes);
    RecommendLowest(nodes);
  }

  /** The recommended list is exactly as long as it can be. */
  lemma RecommendLength(nodes: seq<ProgressNode>)
    ensures |Recommend(nodes)| == if |Candidates(nodes)| <= 3 then |Candidates(nodes)| else 3
  {
  }
}
