/** The adaptive engine: threshold rules that turn a learner profile into teaching
    adaptations, voice parameters and a teaching approach, and the capped update of the
    emotional state after a message. */
module AdaptiveEngine {
  import opened Common

  datatype CognitivePreferences = CognitivePreferences(
    visualVsVerbal: real,
    stepByStepVsConceptual: real,
    pace: string,
    difficultyTolerance: real)

  datatype EmotionalState = EmotionalState(
    confidence: real,
    frustrationLevel: real,
    recentSuccesses: int,
    dropOffPoints: seq<string>)

  datatype VoiceSettings = VoiceSettings(enabled: bool, warmth: real, speed: real, stability: real)

  /** The parts of a learning profile the engine reads. */
  datatype LearningProfile = LearningProfile(
    userId: string,
    cognitivePreferences: CognitivePreferences,
    emotionalState: EmotionalState,
    voiceSettings: VoiceSettings)

  datatype Adaptation = VisualMode | StepByStep | SlowerPace | MoreEncouragement | ConfidenceBuilding

  /** The tag string the engine emits for each adaptation. */
  function Tag(a: Adaptation): string
  {
    match a
    case VisualMode => "visual-mode"
    case StepByStep => "step-by-step"
    case SlowerPace => "slower-pace"
    case MoreEncouragement => "more-encouragement"
    case ConfidenceBuilding => "confidence-building"
  }

  /** Position of each adaptation in the order the rules are checked. */
  function Rank(a: Adaptation): nat
  {
    match a
    case VisualMode => 0
    case StepByStep => 1
    case SlowerPace => 2
    case MoreEncouragement => 3
    case ConfidenceBuilding => 4
  }

  /** Distinct adaptations have distinct tags, so a list without repeated adaptations has
      no repeated tag either. */
  lemma TagInjective(a: Adaptation, b: Adaptation)
    ensures Tag(a) == Tag(b) <==> a == b
  {
    if a != b {
      assert Tag(a)[..3] != Tag(b)[..3] || Tag(a)[3..] != Tag(b)[3..];
    }
  }

  datatype TeachingApproach = DetailedBreakdown | ConceptualOverview | Balanced

  function ApproachTag(t: TeachingApproach): string
  {
    match t
    case DetailedBreakdown => "detailed-breakdown"
    case ConceptualOverview => "conceptual-overview"
    case Balanced => "balanced"
  }

  datatype VoiceParameters = VoiceParameters(stability: real, warmth: real, speed: real)

  function DetermineTeachingApproach(profile: LearningProfile): (r: TeachingApproach)
    ensures r == DetailedBreakdown <==> profile.cognitivePreferences.stepByStepVsConceptual > 0.7
    ensures r == ConceptualOverview <==> profile.cognitivePreferences.stepByStepVsConceptual < 0.3
    ensures r == Balanced <==> 0.3 <= profile.cognitivePreferences.stepByStepVsConceptual <= 0.7
  {
    var s := profile.cognitivePreferences.stepByStepVsConceptual;
    if s > 0.7 then DetailedBreakdown
    else if s < 0.3 then ConceptualOverview
    else Balanced
  }

  function ApproachRank(t: TeachingApproach): nat
  {
    match t
    case ConceptualOverview => 0
    case Balanced => 1
    case DetailedBreakdown => 2
  }

  /** A stronger step-by-step preference never yields a more conceptual approach. */
  lemma ApproachMonotone(p: LearningProfile, q: LearningProfile)
    requires p.cognitivePreferences.stepByStepVsConceptual <= q.cognitivePreferences.stepByStepVsConceptual
    ensures ApproachRank(DetermineTeachingApproach(p)) <= ApproachRank(DetermineTeachingApproach(q))
  {
  }

  /** Adaptations in strictly increasing rule order: no repeats, fixed order. */
  predicate InRuleOrder(s: seq<Adaptation>)
  {
    forall i, j :: 0 <= i < j < |s| ==> Rank(s[i]) < Rank(s[j])
  }

  /** Every `slower-pace` is directly followed by `more-encouragement`. */
  predicate EncouragementFollowsSlowerPace(s: seq<Adaptation>)
  {
    forall i :: 0 <= i < |s| && s[i] == SlowerPace ==> i + 1 < |s| && s[i + 1] == MoreEncouragement
  }

  /** What one guarded `push` contributes. */
  function PushedIf(guard: bool, a: Adaptation): seq<Adaptation>
  {
    if guard then [a] else []
  }

  /** The list the four rules build, given which of them fire. */
  function RuleList(visual: bool, stepByStep: bool, frustrated: bool, unconfident: bool): seq<Adaptation>
  {
    PushedIf(visual, VisualMode) + PushedIf(stepByStep, StepByStep)
    + PushedIf(frustrated, SlowerPace) + PushedIf(frustrated, MoreEncouragement)
    + PushedIf(unconfident, ConfidenceBuilding)
  }

  /** Whichever rules fire, each adaptation is present exactly when its rule fires. */
  lemma RuleListMembers(visual: bool, stepByStep: bool, frustrated: bool, unconfident: bool)
    ensures var s := RuleList(visual, stepByStep, frustrated, unconfident);
      && (VisualMode in s <==> visual) && (StepByStep in s <==> stepByStep)
      && (SlowerPace in s <==> frustrated) && (MoreEncouragement in s <==> frustrated)
      && (ConfidenceBuilding in s <==> unconfident)
      && |s| <= 5
  {
  }

  /** Every adaptation of the list comes from a rule checked before the one of rank `n`. */
  predicate RanksBelow(s: seq<Adaptation>, n: nat)
  {
    forall i :: 0 <= i < |s| ==> Rank(s[i]) < n
  }

  /** One guarded push of a later rule's adaptation keeps the list in rule order. */
  lemma PushKeepsOrder(s: seq<Adaptation>, guard: bool, a: Adaptation)
    requires InRuleOrder(s) && RanksBelow(s, Rank(a))
    ensures InRuleOrder(s + PushedIf(guard, a)) && RanksBelow(s + PushedIf(guard, a), Rank(a) + 1)
  {
  }

  /** Whichever rules fire, the list is in rule order and `slower-pace` is directly
      followed by `more-encouragement`. */
  lemma RuleListOrdered(visual: bool, stepByStep: bool, frustrated: bool, unconfident: bool)
    ensures var s := RuleList(visual, stepByStep, frustrated, unconfident);
      InRuleOrder(s) && EncouragementFollowsSlowerPace(s)
  {
    var s1 := PushedIf(visual, VisualMode);
    var s2 := s1 + PushedIf(stepByStep, StepByStep);
    var s3 := s2 + PushedIf(frustrated, SlowerPace);
    var s4 := s3 + PushedIf(frustrated, MoreEncouragement);
    var s5 := s4 + PushedIf(unconfident, ConfidenceBuilding);
    assert s5 == RuleList(visual, stepByStep, frustrated, unconfident);
    PushKeepsOrder([], visual, VisualMode);
    assert [] + s1 == s1;
    PushKeepsOrder(s1, stepByStep, StepByStep);
    PushKeepsOrder(s2, frustrated, SlowerPace);
    PushKeepsOrder(s3, frustrated, MoreEncouragement);
    PushKeepsOrder(s4, unconfident, ConfidenceBuilding);
    FollowedWherePushed(s2, frustrated, PushedIf(unconfident, ConfidenceBuilding));
  }

  /** Pushing `slower-pace` and `more-encouragement` together, into and before lists
      without `slower-pace`, leaves the first directly followed by the second. */
  lemma FollowedWherePushed(p: seq<Adaptation>, frustrated: bool, q: seq<Adaptation>)
    requires SlowerPace !in p && SlowerPace !in q
    ensures EncouragementFollowsSlowerPace(
      p + PushedIf(frustrated, SlowerPace) + PushedIf(frustrated, MoreEncouragement) + q)
  {
    var s := p + PushedIf(frustrated, SlowerPace) + PushedIf(frustrated, MoreEncouragement) + q;
    if frustrated {
      assert s == p + [SlowerPace, MoreEncouragement] + q;
    } else {
      assert s == p + q;
    }
  }

  /** `analyzeUserState`: the adaptations are pushed rule by rule, so they come in rule
      order without repeats; the voice is steadied and slowed for a frustrated learner.
      `recentMessages` is accepted and not read, as in the engine. */
  method AnalyzeUserState(profile: LearningProfile, recentMessages: seq<string>)
    returns (approach: TeachingApproach, voice: VoiceParameters, adaptations: seq<Adaptation>)
    ensures VisualMode in adaptations <==> profile.cognitivePreferences.visualVsVerbal > 0.6
    ensures StepByStep in adaptations <==> profile.cognitivePreferences.stepByStepVsConceptual > 0.6
    ensures SlowerPace in adaptations <==> profile.emotionalState.frustrationLevel > 0.5
    ensures MoreEncouragement in adaptations <==> profile.emotionalState.frustrationLevel > 0.5
    ensures ConfidenceBuilding in adaptations <==> profile.emotionalState.confidence < 0.4
    ensures InRuleOrder(adaptations)
    ensures EncouragementFollowsSlowerPace(adaptations)
    ensures |adaptations| <= 5
    ensures profile.emotionalState.frustrationLevel > 0.5 ==> voice.stability == 0.8 && voice.speed == 0.9
    ensures !(profile.emotionalState.frustrationLevel > 0.5) ==>
      voice.stability == profile.voiceSettings.stability && voice.speed == profile.voiceSettings.speed
    ensures voice.warmth == profile.voiceSettings.warmth
    ensures approach == DetermineTeachingApproach(profile)
    ensures approach == DetailedBreakdown ==> StepByStep in adaptations
  {
    var prefs := profile.cognitivePreferences;
    var mood := profile.emotionalState;
    adaptations := [];
    if prefs.visualVsVerbal > 0.6 {
      adaptations := adaptations + [VisualMode];
    }
    if prefs.stepByStepVsConceptual > 0.6 {
      adaptations := adaptations + [StepByStep];
    }
    if mood.frustrationLevel > 0.5 {
      adaptations := adaptations + [SlowerPace];
      adaptations := adaptations + [MoreEncouragement];
    }
    if mood.confidence < 0.4 {
      adaptations := adaptations + [ConfidenceBuilding];
    }
    assert adaptations == RuleList(prefs.visualVsVerbal > 0.6, prefs.stepByStepVsConceptual > 0.6,
                                   mood.frustrationLevel > 0.5, mood.confidence < 0.4);
    RuleListMembers(prefs.visualVsVerbal > 0.6, prefs.stepByStepVsConceptual > 0.6,
                    mood.frustrationLevel > 0.5, mood.confidence < 0.4);
    RuleListOrdered(prefs.visualVsVerbal > 0.6, prefs.stepByStepVsConceptual > 0.6,
                    mood.frustrationLevel > 0.5, mood.confidence < 0.4);
    voice := VoiceParameters(
      if mood.frustrationLevel > 0.5 then 0.8 else profile.voiceSettings.stability,
      profile.voiceSettings.warmth,
      if mood.frustrationLevel > 0.5 then 0.9 else profile.voiceSettings.speed);
    approach := DetermineTeachingApproach(profile);
  }

  // ---------------------------------------------------------------------------------------
  // Emotional state

  datatype MessageAnalysis = MessageAnalysis(sentiment: real, complexity: real, responseTime: real)

  /** The partial emotional state the engine returns: a key is present only when it changes. */
  datatype EmotionalUpdate = EmotionalUpdate(
    frustrationLevel: Option<real>,
    confidence: Option<real>,
    recentSuccesses: Option<int>)

  function Min(a: real, b: real): real { if a <= b then a else b }
  function Max(a: real, b: real): real { if a >= b then a else b }

  /** The state with the keys present in the update overwritten. */
  function Merge(s: EmotionalState, u: EmotionalUpdate): (r: EmotionalState)
    ensures r.frustrationLevel == (if u.frustrationLevel.Some? then u.frustrationLevel.value else s.frustrationLevel)
    ensures r.confidence == (if u.confidence.Some? then u.confidence.value else s.confidence)
    ensures r.recentSuccesses == (if u.recentSuccesses.Some? then u.recentSuccesses.value else s.recentSuccesses)
    ensures r.dropOffPoints == s.dropOffPoints
  {
    EmotionalState(
      if u.confidence.Some? then u.confidence.value else s.confidence,
      if u.frustrationLevel.Some? then u.frustrationLevel.value else s.frustrationLevel,
      if u.recentSuccesses.Some? then u.recentSuccesses.value else s.recentSuccesses,
      s.dropOffPoints)
  }

  /** The schema's range for the two scores. */
  predicate InUnitRange(s: EmotionalState)
  {
    0.0 <= s.confidence <= 1.0 && 0.0 <= s.frustrationLevel <= 1.0
  }

  /** `updateEmotionalState`: a slow negative message raises frustration by 0.1 (capped at
      1), otherwise a clearly positive one lowers it by 0.15 (floored at 0); a very positive
      message raises confidence by 0.05 (capped at 1) and counts one more success. Scores in
      range stay in range, and confidence and the success count never go down. */
  method UpdateEmotionalState(profile: LearningProfile, message: MessageAnalysis) returns (updates: EmotionalUpdate)
    ensures var f := profile.emotionalState.frustrationLevel;
      if message.responseTime > 60000.0 && message.sentiment < 0.0 then updates.frustrationLevel == Some(Min(f + 0.1, 1.0))
      else if message.sentiment > 0.5 then updates.frustrationLevel == Some(Max(f - 0.15, 0.0))
      else updates.frustrationLevel == None
    ensures var c := profile.emotionalState.confidence;
      if message.sentiment > 0.7 then
        updates.confidence == Some(Min(c + 0.05, 1.0))
        && updates.recentSuccesses == Some(profile.emotionalState.recentSuccesses + 1)
      else updates.confidence == None && updates.recentSuccesses == None
    ensures InUnitRange(profile.emotionalState) ==> InUnitRange(Merge(profile.emotionalState, updates))
    ensures profile.emotionalState.confidence <= 1.0 ==>
      Merge(profile.emotionalState, updates).confidence >= profile.emotionalState.confidence
    ensures Merge(profile.emotionalState, updates).recentSuccesses >= profile.emotionalState.recentSuccesses
    ensures var f := profile.emotionalState.frustrationLevel;
      var f' := Merge(profile.emotionalState, updates).frustrationLevel;
      0.0 <= f <= 1.0 ==> f - 0.15 <= f' <= f + 0.1
  {
    updates := EmotionalUpdate(None, None, None);
    if message.responseTime > 60000.0 && message.sentiment < 0.0 {
      updates := updates.(frustrationLevel := Some(Min(profile.emotionalState.frustrationLevel + 0.1, 1.0)));
    } else if message.sentiment > 0.5 {
      updates := updates.(frustrationLevel := Some(Max(profile.emotionalState.frustrationLevel - 0.15, 0.0)));
    }
    if message.sentiment > 0.7 {
      updates := updates.(confidence := Some(Min(profile.emotionalState.confidence + 0.05, 1.0)));
      updates := updates.(recentSuccesses := Some(profile.emotionalState.recentSuccesses + 1));
    }
  }
}
