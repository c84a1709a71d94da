/** The learning-material document that the analyzer, the material controller and the
    connector sync create or update in place. Enumerated schema fields are kept as the
    strings the services assign; the schema's allowed values are the constants below. */
module LearningMaterial {
  import opened Common

  /** Allowed values of `type` and of `category` in the material schema. */
  const MaterialTypes: seq<string> := ["pdf", "document", "video", "quiz", "assignment", "notes", "textbook"]
  const MaterialCategories: seq<string> := ["study_material", "assignment", "test", "reference", "practice"]

  datatype DifficultyLevel = Beginner | Intermediate | Advanced

  /** The fields fixed when a material is created. */
  datatype MaterialInfo = MaterialInfo(
    userId: string,
    connectorId: string,
    externalId: string,
    title: string,
    kind: string,
    category: string,
    subject: Option<string>,
    topics: seq<string>,
    text: Option<string>)

  datatype Metadata = Metadata(
    source: string,
    url: Option<string>,
    fileSize: Option<int>,
    difficulty: Option<DifficultyLevel>,
    estimatedTime: Option<real>)

  datatype Analysis = Analysis(
    analyzed: bool,
    concepts: Option<seq<string>>,
    prerequisites: Option<seq<string>>,
    difficulty: Option<real>,
    qualityScore: Option<real>)

  datatype Progress = Progress(
    status: string,
    completionPercentage: real,
    lastAccessed: Option<Time>,
    timeSpent: real,
    notes: Option<string>)

  /** `analysis: { analyzed: false }` as every creation path writes it. */
  const NotAnalyzed: Analysis := Analysis(false, None, None, None, None)

  /** `progress: { status: 'not_started', completionPercentage: 0, timeSpent: 0 }`. */
  const NotStarted: Progress := Progress("not_started", 0.0, None, 0.0, None)

  class Material {
    const info: MaterialInfo
    var metadata: Metadata
    var analysis: Analysis
    var progress: Progress

    constructor (info: MaterialInfo, metadata: Metadata)
      ensures this.info == info && this.metadata == metadata
      ensures analysis == NotAnalyzed && progress == NotStarted
    {
      this.info := info;
      this.metadata := metadata;
      analysis := NotAnalyzed;
      progress := NotStarted;
    }
  }
}
