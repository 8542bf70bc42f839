/**
 * The decision logic inside the chat component's `handleSendMessage`
 * (components/triage-chat-interface.tsx): the priority table, the
 * recommendation text and confidence, and the composition of the resource
 * list, wired to the classifier, the knowledge base and the explanation
 * generator for one chat turn.
 */
module Triage {
  import opened Wrappers
  import opened Seqs
  import opened Strings
  import opened Dedup
  import opened KnowledgeBase
  import opened Classifier
  import opened Explanation

  datatype Priority = Low | Medium | High | Critical {
    /** Position in the order low < medium < high < critical. */
    function Rank(): nat {
      match this
      case Low => 0
      case Medium => 1
      case High => 2
      case Critical => 3
    }
  }

  /** `getPriorityFromAnalysis(primarySymptom, redFlags)`: the first matching rule wins. */
  function PriorityFromAnalysis(symptom: Symptom, flags: seq<Flag>): (p: Priority)
    ensures p == Critical <==> SelfHarmRisk in flags || ViolenceRisk in flags
    ensures p == High <==> |flags| > 0 && SelfHarmRisk !in flags && ViolenceRisk !in flags
    ensures p == Medium <==> |flags| == 0 && symptom != GeneralConcern
    ensures p == Low <==> |flags| == 0 && symptom == GeneralConcern
  {
    if SelfHarmRisk in flags || ViolenceRisk in flags then Critical
    else if SuicidalIdeation in flags || SevereDistress in flags then High
    else if |flags| > 0 then High
    else if symptom != GeneralConcern then Medium
    else Low
  }

  const ImmediateRecommendation :=
    "IMMEDIATE ATTENTION REQUIRED: Contact emergency services or crisis hotline immediately."
  const UrgentRecommendation :=
    "Recommend urgent mental health evaluation within 24 hours. Consider crisis intervention resources."
  const RoutineRecommendation :=
    "Recommend scheduling mental health consultation within 1-2 weeks. Monitor symptoms closely."

  /** The confidence shown with every assessment; fixed, not computed. */
  const DisplayedConfidence := 88

  function Recommendation(p: Priority): string {
    if p == Critical then ImmediateRecommendation
    else if p == High then UrgentRecommendation
    else RoutineRecommendation
  }

  /** The triage result the component displays. */
  datatype Assessment = Assessment(priority: Priority, confidence: int, recommendation: string)

  function Assess(response: TriageResponse): (a: Assessment)
    ensures a.confidence == 88
    ensures a.priority == PriorityFromAnalysis(response.primarySymptom, response.redFlags)
    ensures a.recommendation == ImmediateRecommendation <==>
      SelfHarmRisk in response.redFlags || ViolenceRisk in response.redFlags
    ensures a.recommendation == UrgentRecommendation <==>
      |response.redFlags| > 0 && SelfHarmRisk !in response.redFlags && ViolenceRisk !in response.redFlags
    ensures a.recommendation == RoutineRecommendation <==> |response.redFlags| == 0
  {
    assert |ImmediateRecommendation| != |UrgentRecommendation|;
    assert |ImmediateRecommendation| != |RoutineRecommendation|;
    assert |UrgentRecommendation| != |RoutineRecommendation|;
    var p := PriorityFromAnalysis(response.primarySymptom, response.redFlags);
    Assessment(p, DisplayedConfidence, Recommendation(p))
  }

  /** Two levels share a recommendation exactly when they are equal or both below high. */
  lemma RecommendationByLevel(p: Priority, q: Priority)
    ensures Recommendation(p) == Recommendation(q) <==> p == q || (p.Rank() <= 1 && q.Rank() <= 1)
  {
    assert |ImmediateRecommendation| != |UrgentRecommendation|;
    assert |ImmediateRecommendation| != |RoutineRecommendation|;
    assert |UrgentRecommendation| != |RoutineRecommendation|;
  }

  /** `searchKnowledgeBase(inputValue)`: the raw input, no type filter. */
  function TextMatches(store: seq<Entry>, userText: string): seq<Entry> {
    Search(store, userText, None)
  }

  /** Every crisis resource, only when a red flag was raised. */
  function CrisisPart(store: seq<Entry>, response: TriageResponse): (r: seq<Entry>)
    ensures |response.redFlags| == 0 ==> r == []
    ensures |response.redFlags| > 0 ==> forall e :: e in r <==> e in store && e.kind == CrisisResource
    ensures IsSubseq(r, store)
  {
    if |response.redFlags| > 0 then EntriesByType(store, CrisisResource) else []
  }

  /** The first two CBT techniques, only for plain anxiety or plain depression. */
  function CbtPart(store: seq<Entry>, response: TriageResponse): (r: seq<Entry>)
    ensures |r| <= 2
    ensures forall e :: e in r ==> e in store && e.kind == CbtTechnique
    ensures response.primarySymptom != Anxiety && response.primarySymptom != Depression ==> r == []
    ensures response.primarySymptom == Anxiety || response.primarySymptom == Depression ==>
      var cbt := EntriesByType(store, CbtTechnique);
      |r| == Min(2, |cbt|) && forall i :: 0 <= i < |r| ==> r[i] == cbt[i]
  {
    if response.primarySymptom == Anxiety || response.primarySymptom == Depression then
      var cbt := EntriesByType(store, CbtTechnique);
      assert forall e :: e in Take(cbt, 2) ==> e in cbt;
      Take(cbt, 2)
    else []
  }

  /** `combinedResources`: text matches, then crisis resources, then CBT techniques. */
  function Candidates(store: seq<Entry>, userText: string, response: TriageResponse): (r: seq<Entry>)
    ensures forall e :: e in r ==> e in store
    ensures var m := TextMatches(store, userText); |m| <= |r| && r[..|m|] == m
    ensures forall i | |TextMatches(store, userText)| <= i < |r| ::
      r[i].kind == CrisisResource || r[i].kind == CbtTechnique
    ensures forall i, j | |TextMatches(store, userText)| <= i < j < |r| && r[i].kind == CbtTechnique ::
      r[j].kind == CbtTechnique
    ensures |response.redFlags| > 0 ==> forall e :: e in store && e.kind == CrisisResource ==> e in r
    ensures |response.redFlags| == 0 && response.primarySymptom != Anxiety && response.primarySymptom != Depression
      ==> r == TextMatches(store, userText)
  {
    var m := TextMatches(store, userText);
    var crisis := CrisisPart(store, response);
    var cbt := CbtPart(store, response);
    BlocksInOrder(m, crisis, cbt, EntryKind, CrisisResource, CbtTechnique);
    var r := m + crisis + cbt;
    assert r[..|m|] == m;
    r
  }

  /**
   * `uniqueResources`: the candidates without repeated ids (first occurrence
   * kept), cut to four.
   */
  function Shortlist(candidates: seq<Entry>): (r: seq<Entry>)
    ensures |r| <= 4
    ensures KeysDistinct(r, EntryId)
    ensures |r| == Min(4, |Keys(candidates, EntryId)|)
    ensures IsSubseq(r, candidates)
    ensures forall k, i ::
        (0 <= k < |r| && 0 <= i < |candidates| && IsFirstOfKey(candidates, EntryId, i) && candidates[i].id == r[k].id)
        ==> r[k] == candidates[i]
    ensures forall i, j ::
        0 <= i < j < |candidates| && IsFirstOfKey(candidates, EntryId, i) && IsFirstOfKey(candidates, EntryId, j)
        && candidates[j] in r
        ==> candidates[i] in r
    ensures forall i, j, p, q ::
        0 <= i < j < |candidates| && IsFirstOfKey(candidates, EntryId, i) && IsFirstOfKey(candidates, EntryId, j)
        && 0 <= p < |r| && 0 <= q < |r| && r[p] == candidates[i] && r[q] == candidates[j]
        ==> p < q
  {
    TakeUniqueBy(candidates, EntryId, 4);
    TakeUniqueByInOrder(candidates, EntryId, 4);
    Take(UniqueBy(candidates, EntryId), 4)
  }

  /**
   * The resources one turn surfaces: each is a text match, a crisis resource
   * (only after a red flag) or a CBT technique (only for plain anxiety or
   * depression), at most four, with distinct ids.
   */
  function ComposeResources(store: seq<Entry>, userText: string, response: TriageResponse): (r: seq<Entry>)
    ensures |r| <= 4 && KeysDistinct(r, EntryId)
    ensures |r| == Min(4, |Keys(Candidates(store, userText, response), EntryId)|)
    ensures forall e :: e in r ==>
      e in TextMatches(store, userText)
      || (|response.redFlags| > 0 && e in store && e.kind == CrisisResource)
      || ((response.primarySymptom == Anxiety || response.primarySymptom == Depression) && e in store && e.kind == CbtTechnique)
  {
    var candidates := Candidates(store, userText, response);
    var r := Shortlist(candidates);
    SubseqMembers(r, candidates);
    r
  }

  /** Everything one chat turn produces. */
  datatype Turn = Turn(response: TriageResponse, resources: seq<Entry>, assessment: Assessment, explanation: string)

  /**
   * One call of `handleSendMessage` with the sensor snapshot supplied: a
   * blank input is ignored; otherwise classify, compose resources, assess
   * and explain.
   */
  function HandleMessage(store: seq<Entry>, input: string, sensor: Sensor): (r: Option<Turn>)
    ensures r.None? <==> IsBlank(input)
    ensures r.Some? ==> |r.value.resources| <= 4 && KeysDistinct(r.value.resources, EntryId)
    ensures r.Some? ==> IsSubseq(r.value.resources, Candidates(store, input, r.value.response))
    ensures r.Some? ==> r.value.response == Classify(input, sensor)
    ensures r.Some? ==> StartsWith(r.value.explanation, Lead) && EndsWith(r.value.explanation, Closing)
    ensures r.Some? ==> r.value.resources == ComposeResources(store, input, r.value.response)
    ensures r.Some? ==> r.value.assessment == Assess(r.value.response)
    ensures r.Some? ==> r.value.explanation == Explain(input, r.value.response, r.value.resources)
  {
    if IsBlank(input) then None
    else
      var response := Classify(input, sensor);
      var resources := ComposeResources(store, input, response);
      Some(Turn(response, resources, Assess(response), Explain(input, response, resources)))
  }

  /** A ptsd, substance-abuse or bipolar classification always carries a flag, so priority is at least high. */
  lemma SevereSymptomsAtLeastHigh(userText: string, sensor: Sensor)
    ensures var r := Classify(userText, sensor);
      r.primarySymptom in {Ptsd, SubstanceAbuse, BipolarConcern} ==>
        PriorityFromAnalysis(r.primarySymptom, r.redFlags).Rank() >= High.Rank()
  {
    SevereSymptomIsFlagged(userText, sensor);
  }

  /** Any self-harm phrase makes the turn critical, whatever else the text says. */
  lemma SelfHarmPhraseIsCritical(userText: string, sensor: Sensor, phrase: string)
    requires phrase in SelfHarmCues && Contains(Lower(userText), phrase)
    ensures PriorityFromAnalysis(Classify(userText, sensor).primarySymptom, Classify(userText, sensor).redFlags) == Critical
  {
    var c := CuesOf(Lower(userText));
    assert c.selfHarm;
    assert Raised(SelfHarmRisk, c, sensor);
  }

  /** Text hitting no keyword list, without sensor data, is a low-priority general concern. */
  lemma QuietInputIsLow(userText: string)
    requires CuesOf(Lower(userText)) == Cues(false, false, false, false, false, false, false, false)
    ensures var r := Classify(userText, Sensor(None, None));
      PriorityFromAnalysis(r.primarySymptom, r.redFlags) == Low
  {
    QuietTextIsGeneralConcern(userText);
  }
}
