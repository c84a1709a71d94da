# AMBERLEAR learning backend — a Dafny model

AMBERLEAR is an adaptive tutoring backend. It keeps a per-learner **progress graph**: topic
nodes with a mastery score and a `locked` / `learning` / `mastered` status, and prerequisite
edges between them. A study **performance** updates mastery by a fixed 70/30 average. A
newly mastered topic unlocks its direct dependents once all their prerequisites are
mastered. Recommendations are the three weakest topics still being learned.

**Learning materials** come from three places:

- a local upload;
- a Google Drive or Notion **connector** sync, which skips files it imported before;
- each material is then **analysed**: an analysis service's reply fills in concepts,
  difficulty and study time, and adds one locked graph node per new concept.

**Quizzes** record attempts and answers. An answer is matched ignoring case and surrounding
whitespace. The score is `100 * correct / questions`.

An **adaptive engine** turns a learner profile into teaching adaptations, voice parameters
and a teaching approach. It also nudges the emotional state after each message.

The model has one module per core source file, plus two shared modules:

| module | file | models |
|---|---|---|
| `Common` | `common.dfy` | Option and Result; JavaScript `toLowerCase` (ASCII letters), `trim` (the JavaScript whitespace set), `includes` |
| `LearningMaterial` | `learning_material.dfy` | the material document (a class whose metadata, analysis and progress are updated in place) and the schema's type and category values |
| `ProgressTracker` | `progress_tracker.dfy` | `backend/src/services/progressTracker.ts` |
| `MaterialAnalyzer` | `material_analyzer.dfy` | `backend/src/services/materialAnalyzer.ts` |
| `AdaptiveEngine` | `adaptive_engine.dfy` | `backend/src/services/adaptiveEngine.ts` |
| `QuizController` | `quiz_controller.dfy` | `backend/src/controllers/quizController.ts` |
| `ConnectorService` | `connector_service.dfy` | `backend/src/services/connectorService.ts` |
| `MaterialController` | `material_controller.dfy` | `backend/src/controllers/materialController.ts` |

**How stored documents are modelled.** Documents the code mutates in place are classes with
those fields: the progress graph, the quiz and its attempts, the material, and the connector
records with the materials a sync imports.

- A lookup that finds nothing is a `null` argument.
- Each imperative operation is a method proved against a specification function of the old
  state. Examples: `Unlocked`, `WithConcepts`, `NewImports`, `ApplyProgressUpdate`.
- What the code promises is proved about those functions as lemmas.

**What the outside world becomes.** Everything outside the process is a parameter:

- the clock, and generated ids;
- the analysis service's parsed reply;
- the OAuth token reply;
- the Drive listing and the Notion search results;
- the text read from an uploaded `.txt` file.

`None` stands for a call that fails.

**Where the specification and the code disagree, the model follows the code:**

- The mastery update clamps only from above (`Math.min(…, 1)`). A negative performance
  gives a negative mastery; `NewMasteryCanBeNegative` shows it.
- Mastery ≥ 0.8 marks a node mastered even if its prerequisites are not mastered. Only
  unlocking checks prerequisites.
- `mapDifficultyToLevel` is applied to the raw parsed difficulty, not to the defaulted
  one. A reply without a difficulty therefore stores difficulty 0.5 with level `advanced`
  (`MissingDifficultyIsAdvanced`).
- Nothing stops the same question being answered twice in one attempt. So a score can
  exceed 100 (`RepeatedAnswerScoresAboveHundred`); it is bounded only when each question is
  answered at most once (`ScoreBoundedWhenAnsweredOnce`).

## Model

| member | source | states |
|---|---|---|
| ProgressTracker.ProgressGraph.constructor | backend/src/models/ProgressGraph.ts:4-37 | a graph document holds its owner, its node list and its edge list |
| ProgressTracker.FindNode | backend/src/services/progressTracker.ts:13 | `find` yields the first node with the id, or none when no node has it |
| ProgressTracker.NewMastery | backend/src/services/progressTracker.ts:16-18 | the new mastery is the 70/30 weighted average, capped at 1 and never above the average |
| ProgressTracker.NewMasteryInRange | backend/src/services/progressTracker.ts:17-18 | a mastery and a performance in [0, 1] give a mastery in [0, 1] |
| ProgressTracker.NewMasteryCanBeNegative | backend/src/services/progressTracker.ts:17-18 | there is no lower clamp: mastery 0 and performance -1 give -0.3 |
| ProgressTracker.StatusAfter | backend/src/services/progressTracker.ts:21-25 | status becomes mastered at ≥ 0.8, learning at ≥ 0.3, otherwise stays as it was |
| ProgressTracker.StatusAfterNeverRelocks | backend/src/services/progressTracker.ts:21-25 | the status update never moves a node into locked |
| ProgressTracker.MasteryScenario | backend/src/services/progressTracker.ts:17-25 | three perfect sessions from 0.5 give 0.65 and 0.755 (learning), then 0.8285 (mastered) |
| ProgressTracker.MasteryUpdated | backend/src/services/progressTracker.ts:10-27 | only the first node with the topic id changes, and only its mastery, status and last-studied time; an unknown id changes nothing |
| ProgressTracker.DependentEdges | backend/src/services/progressTracker.ts:46 | the filtered edges are exactly the edges leaving the source |
| ProgressTracker.Unlocked | backend/src/services/progressTracker.ts:42-61 | a source that is missing or not mastered changes nothing; a node changes only from locked to learning; a changed node is a direct dependent whose prerequisites all resolve to mastered nodes; every such locked dependent changes |
| ProgressTracker.UnlockNeverLocks | backend/src/services/progressTracker.ts:58-60 | unlocking never moves a node into locked |
| ProgressTracker.UnlockedByAgrees | backend/src/services/progressTracker.ts:58-60 | unlocking keeps every id, prerequisite list and mastered status |
| ProgressTracker.UnlockedByKeepsMastery | backend/src/services/progressTracker.ts:58-60 | unlocking changes only statuses: every node keeps its mastery |
| ProgressTracker.UnlockIdempotent | backend/src/services/progressTracker.ts:35-64 | unlocking twice from the same source equals unlocking once |
| ProgressTracker.UnlockStepFound | backend/src/services/progressTracker.ts:49-60 | one loop step on a resolved edge target unlocks exactly that node when it is locked and its prerequisites are mastered |
| ProgressTracker.UnlockStepMissing | backend/src/services/progressTracker.ts:49-50 | an edge whose target resolves to no node changes nothing |
| ProgressTracker.UnlockDependentNodes | backend/src/services/progressTracker.ts:35-64 | the in-place loop over dependent edges leaves the edges alone and yields `Unlocked` of the old nodes |
| ProgressTracker.UpdateMastery | backend/src/services/progressTracker.ts:5-33 | a missing graph or topic changes nothing; otherwise the nodes become the unlock of the mastery-updated nodes, and the edges are unchanged |
| ProgressTracker.UpdateNeverRelocks | backend/src/services/progressTracker.ts:5-33 | the whole update never moves a node into locked |
| ProgressTracker.Candidates | backend/src/services/progressTracker.ts:71-73 | the filter keeps each learning node below 0.7 as often as it occurs, and nothing else |
| ProgressTracker.SortByMastery | backend/src/services/progressTracker.ts:76 | the sort is ascending in mastery and a permutation of its input |
| ProgressTracker.GetRecommendedTopics | backend/src/services/progressTracker.ts:66-77 | a missing graph yields no topics; otherwise the recommendation of its nodes |
| ProgressTracker.Recommend | backend/src/services/progressTracker.ts:70-76 | (no contract of its own) the first three of the candidates sorted by mastery; `RecommendSpec`, `RecommendLength` and `RecommendLowest` state what it promises |
| ProgressTracker.RecommendSpec | backend/src/services/progressTracker.ts:70-76 | at most three recommendations, all learning and below 0.7, ascending, drawn from the graph, none ranking above a left-out candidate |
| ProgressTracker.RecommendLength | backend/src/services/progressTracker.ts:76 | exactly min(3, number of candidates) topics are returned |
| ProgressTracker.RecommendLowest | backend/src/services/progressTracker.ts:75-76 | every left-out candidate has mastery at least that of each returned topic |
| MaterialAnalyzer.MapDifficultyToLevel | backend/src/services/materialAnalyzer.ts:77-81 | below 0.4 beginner, below 0.7 intermediate, otherwise advanced, each an if-and-only-if |
| MaterialAnalyzer.MapDifficultyMonotone | backend/src/services/materialAnalyzer.ts:77-81 | a harder material never gets an easier level |
| MaterialAnalyzer.LevelOfParsed | backend/src/services/materialAnalyzer.ts:61 | the level comes from the raw reply: a missing difficulty fails both comparisons (advanced), a null one compares as 0 |
| MaterialAnalyzer.NumberOr | backend/src/services/materialAnalyzer.ts:56-60 | the default applies to missing, null and 0; any other number is kept |
| MaterialAnalyzer.ListOr | backend/src/services/materialAnalyzer.ts:54-55 | any array is kept, even an empty one; only a missing or null list becomes empty |
| MaterialAnalyzer.AnalysisFromParsed | backend/src/services/materialAnalyzer.ts:52-58 | the analysis is marked analyzed, with the lists, difficulty (default 0.5) and quality (default 0.7) of the reply |
| MaterialAnalyzer.MetadataFromParsed | backend/src/services/materialAnalyzer.ts:60-61 | only the estimated time (default 30) and the level change in the metadata |
| MaterialAnalyzer.ZeroDifficultyDefaults | backend/src/services/materialAnalyzer.ts:56-61 | an explicit difficulty 0 stores 0.5 but level beginner |
| MaterialAnalyzer.MissingDifficultyIsAdvanced | backend/src/services/materialAnalyzer.ts:56-61 | a missing difficulty stores 0.5, which buckets as intermediate, yet the stored level is advanced |
| MaterialAnalyzer.SubjectOrGeneral | backend/src/services/materialAnalyzer.ts:95 | a missing or empty subject becomes General |
| MaterialAnalyzer.ConceptNode | backend/src/services/materialAnalyzer.ts:92-100 | a new concept node is locked, mastery 0, time 0, never studied, with the material's prerequisites |
| MaterialAnalyzer.AddConcept | backend/src/services/materialAnalyzer.ts:90-101 | a concept with a node changes nothing; otherwise its node is appended |
| MaterialAnalyzer.WithConcepts | backend/src/services/materialAnalyzer.ts:89-102 | (no contract of its own) the node list after `AddConcept` of each listed concept in list order; the four `WithConcepts…` lemmas state what it promises |
| MaterialAnalyzer.WithConceptsAppends | backend/src/services/materialAnalyzer.ts:89-102 | existing nodes keep their place and value; every added node is a fresh locked node for a listed concept that had no node |
| MaterialAnalyzer.WithConceptsCovers | backend/src/services/materialAnalyzer.ts:89-102 | afterwards every listed concept has a node |
| MaterialAnalyzer.WithConceptsCount | backend/src/services/materialAnalyzer.ts:89-102 | each new concept gets exactly one node even when listed twice; counts of existing ids are unchanged; no other id appears |
| MaterialAnalyzer.WithConceptsNoop | backend/src/services/materialAnalyzer.ts:90-91 | when every concept already has a node nothing is added |
| MaterialAnalyzer.WithConceptsIdempotent | backend/src/services/materialAnalyzer.ts:88-105 | running the insertion again with the same material adds nothing |
| MaterialAnalyzer.UpdateProgressGraphFromMaterial | backend/src/services/materialAnalyzer.ts:83-106 | no graph or no concept list changes nothing; otherwise the in-place loop yields `WithConcepts` of the old nodes, edges unchanged |
| MaterialAnalyzer.AnalyzeMaterial | backend/src/services/materialAnalyzer.ts:5-75 | a missing material is an error; a failed reply marks the material not analysed and fails; a reply stores its analysis and metadata and adds its concepts to the owner's graph |
| AdaptiveEngine.DetermineTeachingApproach | backend/src/services/adaptiveEngine.ts:48-58 | above 0.7 detailed breakdown, below 0.3 conceptual overview, otherwise balanced, each an if-and-only-if |
| AdaptiveEngine.ApproachMonotone | backend/src/services/adaptiveEngine.ts:48-58 | a stronger step-by-step preference never gives a more conceptual approach |
| AdaptiveEngine.ApproachTag | backend/src/services/adaptiveEngine.ts:51-57 | (no contract of its own) the strings detailed-breakdown, conceptual-overview and balanced |
| AdaptiveEngine.Tag | backend/src/services/adaptiveEngine.ts:12-28 | (no contract of its own) the strings visual-mode, step-by-step, slower-pace, more-encouragement and confidence-building; `TagInjective` proves them distinct |
| AdaptiveEngine.TagInjective | backend/src/services/adaptiveEngine.ts:12-28 | distinct adaptations have distinct tag strings |
| AdaptiveEngine.RuleList | backend/src/services/adaptiveEngine.ts:12-28 | (no contract of its own) the pushes of the four rules in source order, slower-pace and more-encouragement under one guard; `RuleListMembers` and `RuleListOrdered` state what it promises |
| AdaptiveEngine.RuleListMembers | backend/src/services/adaptiveEngine.ts:12-28 | each adaptation is in the list exactly when its rule fires; at most five entries |
| AdaptiveEngine.RuleListOrdered | backend/src/services/adaptiveEngine.ts:12-28 | whichever rules fire, the list is in rule order without repeats and slower-pace is directly followed by more-encouragement |
| AdaptiveEngine.AnalyzeUserState | backend/src/services/adaptiveEngine.ts:4-46 | the adaptations with their thresholds, order and pairing; voice steadied to 0.8 and slowed to 0.9 under frustration, otherwise the learner's settings; warmth kept; the approach as determined; detailed breakdown implies step-by-step |
| AdaptiveEngine.Merge | backend/src/services/adaptiveEngine.ts:67-68 | how the returned partial update is meant to be applied (no source file applies it; the lines only declare its type): a key it holds overwrites, an absent key keeps the old value, drop-off points are kept |
| AdaptiveEngine.UpdateEmotionalState | backend/src/services/adaptiveEngine.ts:60-93 | frustration +0.1 (cap 1) for a slow negative message, else -0.15 (floor 0) for a positive one; confidence +0.05 (cap 1) and one more success for a very positive one; scores in [0, 1] stay there; confidence and successes never drop |
| QuizController.WithId | backend/src/controllers/quizController.ts:50-53 | a created question is the sent question with the generated id |
| QuizController.ResolveSettings | backend/src/models/Quiz.ts:73-87 | no settings means all flags true; a sent settings object keeps its flags, and a missing flag defaults to true |
| QuizController.Quiz.constructor | backend/src/controllers/quizController.ts:39-68 | the quiz has the given fields, one question per input with the next id, resolved settings and no attempts |
| QuizController.FindAttempt | backend/src/controllers/quizController.ts:116 | the first attempt with the id, or none when no attempt has it |
| QuizController.FindQuestion | backend/src/controllers/quizController.ts:121 | the first question with the id; none exactly when no question has it |
| QuizController.IsCorrect | backend/src/controllers/quizController.ts:126 | (no contract of its own) both sides lower-cased, then trimmed, then compared; the four `IsCorrect…` lemmas state what it promises |
| QuizController.IsCorrectUpToNormalForm | backend/src/controllers/quizController.ts:126 | lower-casing then trimming is the same as trimming then lower-casing |
| QuizController.IsCorrectSymmetric | backend/src/controllers/quizController.ts:126 | matching is symmetric and reflexive |
| QuizController.IsCorrectIgnoresCase | backend/src/controllers/quizController.ts:126 | the case of the given answer does not matter |
| QuizController.IsCorrectIgnoresPadding | backend/src/controllers/quizController.ts:126 | whitespace around the given answer does not matter |
| QuizController.CorrectCount | backend/src/controllers/quizController.ts:165 | the count is the number of positions whose answer is marked correct, so never more than the answers |
| QuizController.TotalTime | backend/src/controllers/quizController.ts:174 | (no contract of its own) the left-to-right sum of the answer times from 0; `TotalTimeNonNegative` states its bound |
| QuizController.TotalTimeNonNegative | backend/src/controllers/quizController.ts:174 | the summed time of non-negative answer times is non-negative |
| QuizController.ScoreOf | backend/src/controllers/quizController.ts:166 | with questions the score times the question count is 100 times the correct count; with none it is NaN for no correct answers and Infinity otherwise |
| QuizController.ScoreIsPercentage | backend/src/controllers/quizController.ts:166 | with correct ≤ questions the score is in [0, 100], and 100 exactly when all are correct |
| QuizController.RepeatedAnswerScoresAboveHundred | backend/src/controllers/quizController.ts:128-133 | two correct answers to the only question score 200 |
| QuizController.DistinctAnswerIds | backend/src/controllers/quizController.ts:165-166 | answers to distinct questions have as many distinct ids as entries |
| QuizController.ScoreBoundedWhenAnsweredOnce | backend/src/controllers/quizController.ts:165-166 | when every answer names a quiz question and none is repeated, the score is in [0, 100] |
| QuizController.View | backend/src/controllers/quizController.ts:92-97 | the learner's view keeps id, kind, question text and options |
| QuizController.StartQuizAttempt | backend/src/controllers/quizController.ts:70-103 | a missing quiz is an error; otherwise one attempt with no answers and score 0 is appended and every question is returned without its answer |
| QuizController.TimeOr | backend/src/controllers/quizController.ts:132 | a sent time is kept, a missing one is 0 |
| QuizController.SubmitQuizAnswer | backend/src/controllers/quizController.ts:105-145 | quiz, attempt and question errors, in that order, record nothing; otherwise exactly one answer with its correctness is appended to the first matching attempt; the explanation only when answers are shown |
| QuizController.FinishQuizAttempt | backend/src/controllers/quizController.ts:147-180 | a missing quiz or attempt is an error; otherwise the attempt gets its end time and score and the learner gets score, counts and summed time |
| ConnectorService.CategorizeFile | backend/src/services/connectorService.ts:218-235 | the first matching keyword group decides the category, in priority test, assignment, practice, reference; otherwise study material; always a schema category |
| ConnectorService.CategorizeIgnoresCase | backend/src/services/connectorService.ts:219 | the case of the name does not matter |
| ConnectorService.TextbookMentionsBook | backend/src/services/connectorService.ts:230 | a name containing textbook contains book |
| ConnectorService.DetermineFileType | backend/src/services/connectorService.ts:237-242 | pdf exactly when the MIME type contains pdf; video only when it has none of pdf, document, word; else document |
| ConnectorService.SubjectsDistinct | backend/src/services/connectorService.ts:249 | the subject list has no repeats |
| ConnectorService.Occurring | backend/src/services/connectorService.ts:250-254 | (no contract of its own) the listed subjects the text contains, pushed in list order; `OccurringMembers` and `OccurringInListOrder` state what it promises |
| ConnectorService.OccurringMembers | backend/src/services/connectorService.ts:250-254 | a subject is found exactly when the lower-cased name contains it |
| ConnectorService.OccurringInListOrder | backend/src/services/connectorService.ts:250-254 | found subjects come in list order without repeats |
| ConnectorService.ExtractTopics | backend/src/services/connectorService.ts:244-257 | the loop returns exactly the subjects the lower-cased name contains, in list order |
| ConnectorService.TitleProperty | backend/src/services/connectorService.ts:261 | a present title property wins over Name |
| ConnectorService.ExtractNotionTitle | backend/src/services/connectorService.ts:259-269 | the first plain text of the title property when it has one, otherwise Untitled |
| ConnectorService.TitleShadowsName | backend/src/services/connectorService.ts:261-264 | a title property with an empty list gives Untitled even when Name has text |
| ConnectorService.NotionTitleSource | backend/src/services/connectorService.ts:259-269 | the title is Untitled or the first plain text of the title or Name property |
| ConnectorService.NewImports | backend/src/services/connectorService.ts:66-104 | (no contract of its own) the candidates the sync loop creates: each one skipped when a stored or earlier-created material has its user and external id; the five lemmas after it state what it promises |
| ConnectorService.NewImportsAreNew | backend/src/services/connectorService.ts:66-73 | the sync creates only listed items, and none already imported for that user and external id |
| ConnectorService.NewImportsCover | backend/src/services/connectorService.ts:66-104 | after a sync every listed item is imported |
| ConnectorService.NewImportsKeepUnique | backend/src/services/connectorService.ts:66-104 | a sync keeps the (user, external id) pairs unique, even when a listing repeats an item |
| ConnectorService.NewImportsNone | backend/src/services/connectorService.ts:68-73 | when every item is already imported nothing is created |
| ConnectorService.ResyncImportsNothing | backend/src/services/connectorService.ts:66-104 | syncing the same listing again creates nothing |
| ConnectorService.DriveCandidate | backend/src/services/connectorService.ts:76-100 | a Drive file becomes a material with its name, type, category, topics, Drive URL and size |
| ConnectorService.DriveCandidates | backend/src/services/connectorService.ts:63-66 | one candidate per listed file, in listing order |
| ConnectorService.NotionCandidate | backend/src/services/connectorService.ts:176-199 | a Notion page becomes a notes material titled from its properties, categorised by its title, with no topics and its URL |
| ConnectorService.NotionCandidates | backend/src/services/connectorService.ts:166-167 | (no contract of its own) the results whose object is page, as candidates in result order; `NotionCandidatesArePages` states what it promises |
| ConnectorService.NotionCandidatesArePages | backend/src/services/connectorService.ts:166-167 | exactly the results whose object is page become candidates |
| ConnectorService.DriveCredentials | backend/src/services/connectorService.ts:24-28 | the tokens are stored; an expiry of 0 is dropped |
| ConnectorService.SyncStore.constructor | backend/src/models/Connector.ts:62 | an empty store: no connectors, no materials |
| ConnectorService.SyncStore.Upsert | backend/src/services/connectorService.ts:18-32 | the record under (user, type) is created or replaced as connected with the credentials and sync time; an existing record keeps its id |
| ConnectorService.SyncStore.ConnectGoogleDrive | backend/src/services/connectorService.ts:8-39 | a failed token exchange changes nothing; otherwise the Drive connector is connected with the tokens |
| ConnectorService.SyncStore.ConnectNotion | backend/src/services/connectorService.ts:119-147 | a failed test search changes nothing; otherwise the Notion connector is connected with only the access token |
| ConnectorService.SyncStore.ImportCandidates | backend/src/services/connectorService.ts:66-104 | the loop appends one fresh, unanalysed, not-started material for each candidate of `NewImports` |
| ConnectorService.SyncStore.SyncGoogleDrive | backend/src/services/connectorService.ts:41-116 | not connected: error, no change; failed listing: connector marked failed; otherwise the new files are imported and the sync time set |
| ConnectorService.SyncStore.SyncNotion | backend/src/services/connectorService.ts:149-215 | as the Drive sync, over the results that are pages |
| ConnectorService.SyncStore.Disconnect | backend/src/services/connectorService.ts:271-282 | a missing connector is an error; otherwise it is disconnected and its credentials cleared, and nothing else changes |
| LearningMaterial.Material.constructor | backend/src/services/connectorService.ts:92-99 | a new material is not analysed and not started |
| MaterialController.Extname | backend/src/controllers/materialController.ts:66 | when the last dot is not the first character and the name is not `..`, the extension runs from that dot to the end; otherwise it is empty |
| MaterialController.ExtnameOfLower | backend/src/controllers/materialController.ts:66 | taking the extension and lower-casing commute |
| MaterialController.DetermineType | backend/src/controllers/materialController.ts:43-52 | pdf exactly for .pdf, notes exactly for .txt and .md, document for everything else; always a schema type |
| MaterialController.UploadType | backend/src/controllers/materialController.ts:66-78 | an upload's type is always a schema type |
| MaterialController.UploadTypeOfExtension | backend/src/controllers/materialController.ts:66-78 | a name made of a non-empty base and a dot-led extension with no other dot gets `determineType` of the lower-cased extension |
| MaterialController.UploadTypeWithoutExtension | backend/src/controllers/materialController.ts:66-78 | a name with no dot after its first character is a document |
| MaterialController.UploadTypeIgnoresCase | backend/src/controllers/materialController.ts:66 | the case of the file name does not change the type |
| MaterialController.UploadTypeExamples | backend/src/controllers/materialController.ts:43-52 | report.PDF is a pdf, notes.Md is notes, archive.tar.gz and .pdf are documents |
| MaterialController.StringOr | backend/src/controllers/materialController.ts:77-79 | a missing or empty string falls back to the default; any other string is kept |
| MaterialController.UploadRecord | backend/src/controllers/materialController.ts:54-95 | no file is an error; otherwise the record has the defaults for title, category and topics, the local-upload source and size, and text exactly for a non-empty .txt upload |
| MaterialController.UploadTextOnlyForNotes | backend/src/controllers/materialController.ts:66-82 | an upload that carries text is stored as notes |
| MaterialController.UploadMaterial | backend/src/controllers/materialController.ts:54-107 | no file creates nothing; otherwise a fresh material with the upload record, unanalysed and not started |
| MaterialController.ApplyProgressUpdate | backend/src/controllers/materialController.ts:120-129 | status only when non-empty, completion whenever sent (0 included), time added, notes only when non-empty, access time set |
| MaterialController.TimeSpentAccumulates | backend/src/controllers/materialController.ts:124-126 | after any series of updates the time spent is the old time plus the sum of the sent times |
| MaterialController.UpdateWithoutTimeIdempotent | backend/src/controllers/materialController.ts:120-129 | an update that sends no time is idempotent |
| MaterialController.EmptyUpdateOnlyTouches | backend/src/controllers/materialController.ts:120-129 | an empty update only records the access time |
| MaterialController.UpdateMaterialProgress | backend/src/controllers/materialController.ts:109-137 | a missing material is an error; otherwise the rules applied step by step equal `ApplyProgressUpdate`, and metadata and analysis are unchanged |
| Common.ToLower | backend/src/controllers/quizController.ts:126 | `toLowerCase` on ASCII: same length, each upper-case letter lower-cased and every other character kept |
| Common.IsJsWhitespace | backend/src/controllers/quizController.ts:126 | (no contract of its own) the characters JavaScript `trim` removes |
| Common.Trim | backend/src/controllers/quizController.ts:126 | `trim` never lengthens, and a non-empty result starts and ends with a non-whitespace character |
| Common.Contains | backend/src/services/connectorService.ts:221-254 | (no contract of its own) `includes`: some suffix starts with the substring |
| Common.TrimOfLower | backend/src/controllers/quizController.ts:126 | lower-casing and trimming commute |
| Common.TrimIgnoresPadding | backend/src/controllers/quizController.ts:126 | `trim` removes any surrounding whitespace |

## Left out

- Persistence is not modelled. Mongoose `findOne`, `save`, schema validation (enum values,
  `min`/`max` on mastery) and failures of a save partway through a loop or a sync are
  outside the model. A lookup's result is a nullable argument.
- Concurrency is not modelled. `updateMastery` saves, and `unlockDependentNodes` then re-reads
  the graph; the model runs both on one graph in sequence, so no other writer can intervene.
- The analysis service call, the extraction of its text and the `JSON.parse` of its reply
  are left out. The parsed reply is a parameter: per field, a number, null or missing; a
  list or missing. A reply that is a truthy non-array (a string, say) in a list field is not
  modelled.
- The Google OAuth exchange, the Drive listing and the Notion search are parameters.
  Environment variables and client construction are not modelled.
- The Drive file size is taken as already parsed. `parseInt` of a non-numeric size is not
  modelled.
- Numbers are reals, not IEEE doubles: rounding (e.g. in 0.7 × mastery) is not modelled.
  `NaN` and `Infinity` are modelled only where a division by zero can make them, for a quiz
  score. For a quiz with no questions the model returns a `NaN` score, but saving the attempt
  refuses `NaN` and Mongoose would answer 500 instead; the model does not capture that.
- `toLowerCase` maps only the ASCII letters. Unicode case mapping is not modelled.
- `Extname` models `path.extname` on a file name without `/`. Directory parts and trailing
  separators are not modelled.
- ProgressTracker.SortByMastery: stability of `Array.prototype.sort` (equal masteries keep
  their order) is not stated; only ordering and permutation are proved.
- `recentMessages` of `analyzeUserState` and `complexity` of a message analysis are not read
  by the engine and so play no role.
- AdaptiveEngine.UpdateEmotionalState: the `|| 0` fallback for a missing score is not
  modelled, because the profile schema always supplies the fields.
- Request fields the source reads without checking are not modelled. Examples: `questions`
  missing in `createQuiz`, `answer` missing in `submitQuizAnswer`, `topics` that is not
  JSON in `uploadMaterial`. Each of these throws and answers 500.
- A progress update sending `null` or a non-number `timeSpent` is not modelled. The update
  fields are "sent" (a value) or "not sent".
- The read-only handlers (`getQuizzes`, `getQuizById`, `getConnectors`, material listing)
  and `deleteQuiz` are left out: they only query or delete documents.
- `generateQuizFromMaterial` is left out: it only forwards a prompt to the analysis
  service and returns the parsed reply.
- HTTP status codes and response bodies are not modelled; each error case is an error
  value.
- Deleting the uploaded temporary file is left out: it is a file-system effect.
- Quiz settings other than `showCorrectAnswers` are stored but not used by the modelled
  operations. This matches the source, which does not read them there.
- The `strength` of an edge is stored and never read.
