/** Material analysis: the defaults applied to the analysis service's parsed reply, the
    difficulty bucketing, and the insertion of one locked progress node per newly seen
    concept. The call to the analysis service and the parsing of its text are not modelled;
    the parsed reply is a parameter. */
module MaterialAnalyzer {
  import opened Common
  import opened LearningMaterial
  import opened ProgressTracker

  /** A number field of the parsed reply: missing, `null`, or a number. */
  datatype JsonNumber = Absent | Null | Num(value: real)

  /** A list field of the parsed reply: missing or `null`, or an array (possibly empty). */
  datatype JsonList = NoList | List(items: seq<string>)

  datatype ParsedAnalysis = ParsedAnalysis(
    concepts: JsonList,
    prerequisites: JsonList,
    difficulty: JsonNumber,
    qualityScore: JsonNumber,
    estimatedTime: JsonNumber)

  datatype AnalyzeError = MaterialNotFound | AnalysisFailed

  // ---------------------------------------------------------------------------------------
  // Difficulty

  function MapDifficultyToLevel(difficulty: real): (r: DifficultyLevel)
    ensures r == Beginner <==> difficulty < 0.4
    ensures r == Intermediate <==> 0.4 <= difficulty < 0.7
    ensures r == Advanced <==> 0.7 <= difficulty
  {
    if difficulty < 0.4 then Beginner
    else if difficulty < 0.7 then Intermediate
    else Advanced
  }

  function LevelRank(level: DifficultyLevel): nat
  {
    match level
    case Beginner => 0
    case Intermediate => 1
    case Advanced => 2
  }

  /** A harder material never gets an easier level. */
  lemma MapDifficultyMonotone(d1: real, d2: real)
    requires d1 <= d2
    ensures LevelRank(MapDifficultyToLevel(d1)) <= LevelRank(MapDifficultyToLevel(d2))
  {
  }

  /** The level the analyzer stores: it buckets the RAW parsed difficulty, where a missing
      value fails both comparisons (it is not a number) and `null` compares as 0. */
  function LevelOfParsed(difficulty: JsonNumber): (r: DifficultyLevel)
    ensures difficulty.Absent? ==> r == Advanced
    ensures difficulty.Null? ==> r == Beginner
    ensures difficulty.Num? ==> r == MapDifficultyToLevel(difficulty.value)
  {
    match difficulty
    case Absent => Advanced
    case Null => MapDifficultyToLevel(0.0)
    case Num(v) => MapDifficultyToLevel(v)
  }

  // ---------------------------------------------------------------------------------------
  // Defaults of the parsed reply

  /** `n || default`: a missing value, `null` and 0 are all falsy. */
  function NumberOr(n: JsonNumber, default: real): (r: real)
    ensures n.Num? && n.value != 0.0 ==> r == n.value
    ensures !(n.Num? && n.value != 0.0) ==> r == default
  {
    if n.Num? && n.value != 0.0 then n.value else default
  }

  /** `l || []`: any array, even an empty one, is truthy and kept. */
  function ListOr(l: JsonList): (r: seq<string>)
    ensures l.List? ==> r == l.items
    ensures l.NoList? ==> r == []
  {
    match l
    case NoList => []
    case List(items) => items
  }

  /** The analysis record written after a successful reply. */
  function AnalysisFromParsed(p: ParsedAnalysis): (a: Analysis)
    ensures a.analyzed
    ensures a.concepts == Some(ListOr(p.concepts)) && a.prerequisites == Some(ListOr(p.prerequisites))
    ensures a.difficulty == Some(NumberOr(p.difficulty, 0.5))
    ensures a.qualityScore == Some(NumberOr(p.qualityScore, 0.7))
  {
    Analysis(
      true,
      Some(ListOr(p.concepts)),
      Some(ListOr(p.prerequisites)),
      Some(NumberOr(p.difficulty, 0.5)),
      Some(NumberOr(p.qualityScore, 0.7)))
  }

  /** The metadata after a successful reply: estimated time and level; nothing else. */
  function MetadataFromParsed(m: Metadata, p: ParsedAnalysis): (r: Metadata)
    ensures r.estimatedTime == Some(NumberOr(p.estimatedTime, 30.0))
    ensures r.difficulty == Some(LevelOfParsed(p.difficulty))
    ensures r.source == m.source && r.url == m.url && r.fileSize == m.fileSize
  {
    m.(estimatedTime := Some(NumberOr(p.estimatedTime, 30.0)), difficulty := Some(LevelOfParsed(p.difficulty)))
  }

  /** An explicit difficulty of 0 is falsy: the stored difficulty becomes 0.5, while the
      stored level, bucketed from the raw 0, is `beginner`. */
  lemma ZeroDifficultyDefaults(p: ParsedAnalysis, m: Metadata)
    requires p.difficulty == Num(0.0)
    ensures AnalysisFromParsed(p).difficulty == Some(0.5)
    ensures MetadataFromParsed(m, p).difficulty == Some(Beginner)
  {
  }

  /** A reply without a difficulty stores difficulty 0.5, which buckets as `intermediate`,
      but the stored level is `advanced`. */
  lemma MissingDifficultyIsAdvanced(p: ParsedAnalysis, m: Metadata)
    requires p.difficulty == Absent
    ensures AnalysisFromParsed(p).difficulty == Some(0.5)
    ensures MapDifficultyToLevel(0.5) == Intermediate
    ensures MetadataFromParsed(m, p).difficulty == Some(Advanced)
  {
  }

  // ---------------------------------------------------------------------------------------
  // Concept nodes

  /** `material.subject || 'General'`: a missing or empty subject becomes `General`. */
  function SubjectOrGeneral(subject: Option<string>): (r: string)
    ensures subject.Some? && subject.value != "" ==> r == subject.value
    ensures !(subject.Some? && subject.value != "") ==> r == "General"
  {
    if subject.Some? && subject.value != "" then subject.value else "General"
  }

  /** The node pushed for a concept seen for the first time. */
  function ConceptNode(concept: string, subject: string, prerequisites: seq<string>): (n: ProgressNode)
    ensures n.id == concept && n.name == concept && n.subject == subject
    ensures n.mastery == 0.0 && n.status == Locked && n.timeSpent == 0.0
    ensures n.prerequisites == prerequisites && n.lastStudied.None?
  {
    ProgressNode(concept, concept, subject, 0.0, Locked, prerequisites, None, 0.0)
  }

  predicate HasNode(nodes: seq<ProgressNode>, id: string)
  {
    exists j :: 0 <= j < |nodes| && nodes[j].id == id
  }

  /** The loop body: push a node unless one with that id exists. */
  function AddConcept(nodes: seq<ProgressNode>, concept: string, subject: string, prerequisites: seq<string>)
    : (r: seq<ProgressNode>)
    ensures HasNode(nodes, concept) ==> r == nodes
    ensures !HasNode(nodes, concept) ==> r == nodes + [ConceptNode(concept, subject, prerequisites)]
  {
    if FindNode(nodes, concept).Some? then nodes else nodes + [ConceptNode(concept, subject, prerequisites)]
  }

  /** The node list after the insertion loop has run over `concepts`. */
  function WithConcepts(nodes: seq<ProgressNode>, concepts: seq<string>, subject: string, prerequisites: seq<string>)
    : seq<ProgressNode>
    decreases |concepts|
  {
    if concepts == [] then nodes
    else AddConcept(WithConcepts(nodes, concepts[..|concepts| - 1], subject, prerequisites),
                    concepts[|concepts| - 1], subject, prerequisites)
  }

  /** Existing nodes keep their values and positions; new nodes only go at the end, each a
      fresh locked node for one of the concepts that had no node before. */
  lemma {:induction false} WithConceptsAppends(nodes: seq<ProgressNode>, concepts: seq<string>, subject: string, prerequisites: seq<string>)
    ensures var r := WithConcepts(nodes, concepts, subject, prerequisites);
      && |nodes| <= |r| && r[..|nodes|] == nodes
      && forall j :: |nodes| <= j < |r| ==>
           r[j] == ConceptNode(r[j].id, subject, prerequisites) && r[j].id in concepts && !HasNode(nodes, r[j].id)
    decreases |concepts|
  {
    if concepts != [] {
      var init := concepts[..|concepts| - 1];
      var c := concepts[|concepts| - 1];
      WithConceptsAppends(nodes, init, subject, prerequisites);
      var prev := WithConcepts(nodes, init, subject, prerequisites);
      var r := WithConcepts(nodes, concepts, subject, prerequisites);
      assert concepts == init + [c];
      if !HasNode(prev, c) {
        assert r == prev + [ConceptNode(c, subject, prerequisites)];
        forall j | 0 <= j < |nodes| ensures nodes[j].id != c {
          assert prev[j] == nodes[j];
        }
      }
    }
  }

  /** Afterwards every concept of the list is the id of some node. */
  lemma {:induction false} WithConceptsCovers(nodes: seq<ProgressNode>, concepts: seq<string>, subject: string, prerequisites: seq<string>)
    ensures forall k :: 0 <= k < |concepts| ==> HasNode(WithConcepts(nodes, concepts, subject, prerequisites), concepts[k])
    decreases |concepts|
  {
    if concepts != [] {
      var init := concepts[..|concepts| - 1];
      var c := concepts[|concepts| - 1];
      var prev := WithConcepts(nodes, init, subject, prerequisites);
      var r := WithConcepts(nodes, concepts, subject, prerequisites);
      WithConceptsCovers(nodes, init, subject, prerequisites);
      assert |prev| <= |r| && r[..|prev|] == prev;
      forall k | 0 <= k < |concepts| ensures HasNode(r, concepts[k]) {
        if k < |concepts| - 1 {
          assert concepts[k] == init[k];
          var j :| 0 <= j < |prev| && prev[j].id == concepts[k];
          assert r[j] == prev[j];
        } else if !HasNode(prev, c) {
          assert r[|prev|].id == c;
        }
      }
    }
  }

  /** When every concept already has a node the loop adds nothing. */
  lemma {:induction false} WithConceptsNoop(nodes: seq<ProgressNode>, concepts: seq<string>, subject: string, prerequisites: seq<string>)
    requires forall k :: 0 <= k < |concepts| ==> HasNode(nodes, concepts[k])
    ensures WithConcepts(nodes, concepts, subject, prerequisites) == nodes
    decreases |concepts|
  {
    if concepts != [] {
      WithConceptsNoop(nodes, concepts[..|concepts| - 1], subject, prerequisites);
    }
  }

  /** Re-running the insertion with the same material adds nothing. */
  lemma WithConceptsIdempotent(nodes: seq<ProgressNode>, concepts: seq<string>, subject: string, prerequisites: seq<string>)
    ensures var r := WithConcepts(nodes, concepts, subject, prerequisites);
      WithConcepts(r, concepts, subject, prerequisites) == r
  {
    WithConceptsCovers(nodes, concepts, subject, prerequisites);
    WithConceptsNoop(WithConcepts(nodes, concepts, subject, prerequisites), concepts, subject, prerequisites);
  }

  /** How many nodes carry a given id. */
  function CountId(nodes: seq<ProgressNode>, id: string): nat
    decreases |nodes|
  {
    if nodes == [] then 0
    else CountId(nodes[..|nodes| - 1], id) + (if nodes[|nodes| - 1].id == id then 1 else 0)
  }

  lemma {:induction false} CountIdZero(nodes: seq<ProgressNode>, id: string)
    ensures CountId(nodes, id) == 0 <==> !HasNode(nodes, id)
    decreases |nodes|
  {
    if nodes != [] {
      var init := nodes[..|nodes| - 1];
      CountIdZero(init, id);
      if HasNode(init, id) {
        var j :| 0 <= j < |init| && init[j].id == id;
        assert nodes[j].id == id;
      }
      if HasNode(nodes, id) && nodes[|nodes| - 1].id != id {
        var j :| 0 <= j < |nodes| && nodes[j].id == id;
        assert init[j].id == id;
      }
    }
  }

  /** Duplicate concepts in one list yield a single node: a concept without a node before
      ends with exactly one; ids that had nodes keep their count; nothing else appears. */
  lemma {:induction false} WithConceptsCount(nodes: seq<ProgressNode>, concepts: seq<string>, subject: string, prerequisites: seq<string>, id: string)
    ensures CountId(WithConcepts(nodes, concepts, subject, prerequisites), id) ==
      if HasNode(nodes, id) then CountId(nodes, id) else if id in concepts then 1 else 0
    decreases |concepts|
  {
    if concepts != [] {
      var init := concepts[..|concepts| - 1];
      var c := concepts[|concepts| - 1];
      var prev := WithConcepts(nodes, init, subject, prerequisites);
      WithConceptsCount(nodes, init, subject, prerequisites, id);
      assert concepts == init + [c];
      assert id in concepts <==> id in init || id == c;
      if !HasNode(prev, c) {
        var r := prev + [ConceptNode(c, subject, prerequisites)];
        assert r[..|r| - 1] == prev;
        if id == c {
          CountIdZero(prev, id);
          WithConceptsAppends(nodes, init, subject, prerequisites);
          forall j | 0 <= j < |nodes| ensures nodes[j].id != c {
            assert prev[j] == nodes[j];
          }
        }
      } else if id == c && !HasNode(nodes, id) && id !in init {
        CountIdZero(prev, id);
      }
    } else {
      CountIdZero(nodes, id);
    }
  }

  // ---------------------------------------------------------------------------------------
  // Operations

  /** `updateProgressGraphFromMaterial`: with no graph or no concept list nothing changes;
      otherwise each concept without a node gets one, appended in list order. */
  method UpdateProgressGraphFromMaterial(graph: ProgressGraph?, material: Material)
    modifies graph
    ensures graph != null ==> graph.edges == old(graph.edges)
    ensures graph != null ==>
      graph.nodes == if material.analysis.concepts.None? then old(graph.nodes)
      else WithConcepts(old(graph.nodes), material.analysis.concepts.value,
                        SubjectOrGeneral(material.info.subject),
                        if material.analysis.prerequisites.Some? then material.analysis.prerequisites.value else [])
  {
    if graph == null {
      return;
    }
    if material.analysis.concepts.None? {
      return;
    }
    var concepts := material.analysis.concepts.value;
    var subject := SubjectOrGeneral(material.info.subject);
    var prerequisites := if material.analysis.prerequisites.Some? then material.analysis.prerequisites.value else [];
    for i := 0 to |concepts|
      invariant graph.edges == old(graph.edges)
      invariant graph.nodes == WithConcepts(old(graph.nodes), concepts[..i], subject, prerequisites)
    {
      var concept := concepts[i];
      assert concepts[..i + 1][..i] == concepts[..i];
      var found := FindNode(graph.nodes, concept);
      if found.None? {
        graph.nodes := graph.nodes + [ConceptNode(concept, subject, prerequisites)];
      }
    }
    assert concepts[..|concepts|] == concepts;
  }

  /** `analyzeMaterial` with the reply of the analysis service as a parameter (`None` when
      the call or the parsing of its reply fails). `graph` is the material owner's graph. */
  method AnalyzeMaterial(material: Material?, graph: ProgressGraph?, reply: Option<ParsedAnalysis>)
    returns (r: Result<(), AnalyzeError>)
    requires material != null && graph != null ==> graph.userId == material.info.userId
    modifies material, graph
    ensures material == null ==> r == Err(MaterialNotFound)
    ensures material != null && reply.None? ==>
      && r == Err(AnalysisFailed)
      && material.analysis == old(material.analysis).(analyzed := false)
      && material.metadata == old(material.metadata)
    ensures material != null && reply.Some? ==>
      && r == Ok(())
      && material.analysis == AnalysisFromParsed(reply.value)
      && material.metadata == MetadataFromParsed(old(material.metadata), reply.value)
    ensures material != null ==> material.progress == old(material.progress)
    ensures graph != null ==> graph.edges == old(graph.edges)
    ensures graph != null ==>
      graph.nodes == if material == null || reply.None? then old(graph.nodes)
      else WithConcepts(old(graph.nodes), ListOr(reply.value.concepts),
                        SubjectOrGeneral(material.info.subject), ListOr(reply.value.prerequisites))
  {
    if material == null {
      return Err(MaterialNotFound);
    }
    if reply.None? {
      material.analysis := material.analysis.(analyzed := false);
      return Err(AnalysisFailed);
    }
    var p := reply.value;
    material.analysis := AnalysisFromParsed(p);
    material.metadata := material.metadata.(estimatedTime := Some(NumberOr(p.estimatedTime, 30.0)));
    material.metadata := material.metadata.(difficulty := Some(LevelOfParsed(p.difficulty)));
    UpdateProgressGraphFromMaterial(graph, material);
    return Ok(());
  }
}
