/**
 * The explanation generator `generateExplanation` (lib/mock-llm.ts): a fixed
 * template of an opening naming the lexical triggers, one sentence for the
 * primary symptom, at most one safety or panic sentence, one sentence per
 * resource type actually surfaced, and a fixed closing.
 */
module Explanation {
  import opened Seqs
  import opened Strings
  import opened Dedup
  import opened KnowledgeBase
  import opened Classifier

  /** Every explanation starts with this. */
  const Lead := "Based on your "
  const Closing := "Please remember that you're not alone, and seeking help is a sign of strength."
  const SafetySentence := "I'm particularly concerned about your safety right now. "
  const PanicSentence := "I notice signs that you may be experiencing panic symptoms. "
  const CrisisSentence :=
    "I'm recommending crisis resources like the 988 Suicide & Crisis Lifeline because immediate professional support can be crucial in these situations. "
  const CbtSentence :=
    "I've included some coping techniques that have been shown to help manage these feelings in the moment. "
  const DiagnosticSentence :=
    "The symptoms you've described align with established clinical patterns, which helps me provide more targeted support. "
  const SelfCareSentence := "I've also included some self-care strategies that many people find helpful. "

  /** The trigger labels in the order the source checks them. */
  const TriggerLabels: seq<string> :=
    ["feeling hopeless", "anxiety", "panic symptoms", "sadness", "trauma-related concerns"]

  /** The resource sentences in the order the source appends them. */
  const ResourceSentenceOrder: seq<string> := [CrisisSentence, CbtSentence, DiagnosticSentence, SelfCareSentence]

  /** The triggers named in the lower-cased text, each checked on its own, in the order of the checks. */
  function Triggers(text: string): seq<string> {
    Select(TriggerWords(text), TriggerLabels)
  }

  /** Whether the words behind each trigger label, in the order of `TriggerLabels`, occur in the text. */
  function TriggerWords(text: string): seq<bool> {
    [ Contains(text, "hopeless") || Contains(text, "no point"),
      Contains(text, "anxious") || Contains(text, "worried"),
      Contains(text, "panic") || Contains(text, "can't breathe"),
      Contains(text, "sad") || Contains(text, "depressed"),
      Contains(text, "trauma") || Contains(text, "flashback") ]
  }

  function Opening(triggers: seq<string>): (r: string)
    ensures StartsWith(r, Lead)
  {
    if |triggers| > 0 then "Based on your mention of " + Join(triggers, " and ") + ", "
    else "Based on your message, "
  }

  /** One fixed sentence per primary symptom; the default covers `general_concern`. */
  function SymptomSentence(s: Symptom): string {
    match s
    case Depression => "I identified signs that suggest you may be experiencing depression. "
    case Anxiety => "I identified signs of anxiety. "
    case MixedAnxietyDepression => "I identified signs of both anxiety and depression. "
    case Ptsd => "I identified signs that may be related to trauma or PTSD. "
    case SubstanceAbuse => "I identified concerns related to substance use. "
    case BipolarConcern => "I identified signs of mood instability. "
    case GeneralConcern => "I want to provide you with appropriate support. "
  }

  /** The safety sentence for a suicide or self-harm flag, else the panic sentence for a panic flag. */
  function FlagSentence(flags: seq<Flag>): string {
    if |flags| > 0 then
      if SuicidalIdeation in flags || SelfHarmRisk in flags then SafetySentence
      else if PanicAttack in flags then PanicSentence
      else ""
    else ""
  }

  /** `[...new Set(retrievedChunks.map(chunk => chunk.type))]` */
  function ResourceTypes(chunks: seq<Entry>): seq<string> {
    Distinct(seq(|chunks|, i requires 0 <= i < |chunks| => chunks[i].kind))
  }

  /** Whether each resource type, in the order of `ResourceSentenceOrder`, is among the chunks. */
  function TypesPresent(chunks: seq<Entry>): seq<bool> {
    var types := ResourceTypes(chunks);
    [CrisisResource in types, CbtTechnique in types, DiagnosticCriteria in types, SelfCareStrategy in types]
  }

  /** One sentence per known resource type present among the chunks, in a fixed order. */
  function ResourceSentences(chunks: seq<Entry>): seq<string> {
    if |chunks| > 0 then Select(TypesPresent(chunks), ResourceSentenceOrder) else []
  }

  /** `generateExplanation(userText, structuredQuery, retrievedChunks)` */
  function Explain(userText: string, response: TriageResponse, chunks: seq<Entry>): (r: string)
    ensures StartsWith(r, Lead)
    ensures EndsWith(r, Closing)
  {
    var opening := Opening(Triggers(Lower(userText)));
    var body := SymptomSentence(response.primarySymptom) + FlagSentence(response.redFlags) + Join(ResourceSentences(chunks), "");
    AppendKeepsEnds(opening, body, Closing, Lead);
    opening + body + Closing
  }

  /** The safety sentence is chosen exactly when a suicide or self-harm flag is present. */
  lemma SafetySentenceWhen(flags: seq<Flag>)
    ensures FlagSentence(flags) == SafetySentence <==> SuicidalIdeation in flags || SelfHarmRisk in flags
    ensures FlagSentence(flags) == PanicSentence <==>
      PanicAttack in flags && SuicidalIdeation !in flags && SelfHarmRisk !in flags
    ensures FlagSentence(flags) == "" <==>
      PanicAttack !in flags && SuicidalIdeation !in flags && SelfHarmRisk !in flags
  {
    assert |SafetySentence| != |PanicSentence|;
  }

  /** A chunk type is named exactly when some chunk has it. */
  lemma ResourceTypesPresent(chunks: seq<Entry>, kind: string)
    ensures kind in ResourceTypes(chunks) <==> exists e :: e in chunks && e.kind == kind
  {
    var kinds := seq(|chunks|, i requires 0 <= i < |chunks| => chunks[i].kind);
    if kind in kinds {
      var i :| 0 <= i < |kinds| && kinds[i] == kind;
      assert chunks[i] in chunks;
    }
    if exists e :: e in chunks && e.kind == kind {
      var e :| e in chunks && e.kind == kind;
      var i :| 0 <= i < |chunks| && chunks[i] == e;
      assert kinds[i] == kind;
    }
  }

  lemma ResourceSentenceOrderDistinct()
    ensures NoDuplicates(ResourceSentenceOrder)
  {
    assert |CrisisSentence| != |CbtSentence| && |CrisisSentence| != |DiagnosticSentence|;
    assert |CrisisSentence| != |SelfCareSentence| && |CbtSentence| != |DiagnosticSentence|;
    assert |CbtSentence| != |SelfCareSentence| && |DiagnosticSentence| != |SelfCareSentence|;
  }

  /**
   * Resource sentences come in the fixed order crisis, CBT, diagnostic,
   * self-care, each at most once.
   */
  lemma ResourceSentencesInOrder(chunks: seq<Entry>)
    ensures IsSubseq(ResourceSentences(chunks), ResourceSentenceOrder)
    ensures NoDuplicates(ResourceSentences(chunks))
  {
    ResourceSentenceOrderDistinct();
    SubseqNoDuplicates(ResourceSentences(chunks), ResourceSentenceOrder);
  }

  /** Each resource sentence appears exactly when a chunk of its type was retrieved. */
  lemma ResourceSentencesFollowTypes(chunks: seq<Entry>)
    ensures CrisisSentence in ResourceSentences(chunks) <==> exists e :: e in chunks && e.kind == CrisisResource
    ensures CbtSentence in ResourceSentences(chunks) <==> exists e :: e in chunks && e.kind == CbtTechnique
    ensures DiagnosticSentence in ResourceSentences(chunks) <==> exists e :: e in chunks && e.kind == DiagnosticCriteria
    ensures SelfCareSentence in ResourceSentences(chunks) <==> exists e :: e in chunks && e.kind == SelfCareStrategy
  {
    ResourceTypesPresent(chunks, CrisisResource);
    ResourceTypesPresent(chunks, CbtTechnique);
    ResourceTypesPresent(chunks, DiagnosticCriteria);
    ResourceTypesPresent(chunks, SelfCareStrategy);
    if |chunks| > 0 {
      ResourceSentenceOrderDistinct();
      var present := TypesPresent(chunks);
      SelectMember(present, ResourceSentenceOrder, 0);
      SelectMember(present, ResourceSentenceOrder, 1);
      SelectMember(present, ResourceSentenceOrder, 2);
      SelectMember(present, ResourceSentenceOrder, 3);
    }
  }

  /** The triggers appear in the fixed order of the source's checks, each at most once. */
  lemma TriggersInOrder(text: string)
    ensures IsSubseq(Triggers(text), TriggerLabels)
    ensures NoDuplicates(Triggers(text))
  {
    assert NoDuplicates(TriggerLabels);
    SubseqNoDuplicates(Triggers(text), TriggerLabels);
  }

  /** Each trigger label is named exactly when its words occur in the text. */
  lemma TriggersNamed(text: string)
    ensures "feeling hopeless" in Triggers(text) <==> Contains(text, "hopeless") || Contains(text, "no point")
    ensures "anxiety" in Triggers(text) <==> Contains(text, "anxious") || Contains(text, "worried")
    ensures "panic symptoms" in Triggers(text) <==> Contains(text, "panic") || Contains(text, "can't breathe")
    ensures "sadness" in Triggers(text) <==> Contains(text, "sad") || Contains(text, "depressed")
    ensures "trauma-related concerns" in Triggers(text) <==> Contains(text, "trauma") || Contains(text, "flashback")
  {
    assert NoDuplicates(TriggerLabels);
    var words := TriggerWords(text);
    SelectMember(words, TriggerLabels, 0);
    SelectMember(words, TriggerLabels, 1);
    SelectMember(words, TriggerLabels, 2);
    SelectMember(words, TriggerLabels, 3);
    SelectMember(words, TriggerLabels, 4);
  }

  /** The generic opening is used exactly when no trigger was named. */
  lemma OpeningWithoutTriggers(triggers: seq<string>)
    ensures triggers == [] <==> Opening(triggers) == "Based on your message, "
  {
    if triggers != [] {
      var mention := "Based on your mention of ";
      var o := Opening(triggers);
      assert o == mention + (Join(triggers, " and ") + ", ");
      assert o[16] == mention[16] == 'n';
      assert "Based on your message, "[16] == 's';
    }
  }

  /**
   * The opening falls back to the generic wording exactly when the message
   * contains none of the ten trigger words.
   */
  lemma OpeningWithoutTriggerWords(text: string)
    ensures Opening(Triggers(text)) == "Based on your message, " <==>
      !(Contains(text, "hopeless") || Contains(text, "no point")
        || Contains(text, "anxious") || Contains(text, "worried")
        || Contains(text, "panic") || Contains(text, "can't breathe")
        || Contains(text, "sad") || Contains(text, "depressed")
        || Contains(text, "trauma") || Contains(text, "flashback"))
  {
    var t := Triggers(text);
    OpeningWithoutTriggers(t);
    TriggersNamed(text);
    if t != [] {
      SubseqMembers(t, TriggerLabels);
      assert t[0] in TriggerLabels;
    }
  }

  /** The two sentences of equal length part at their third-last character ("use." against "support."). */
  lemma SubstanceAndGeneralDiffer()
    ensures SymptomSentence(SubstanceAbuse) != SymptomSentence(GeneralConcern)
  {
    var substance := SymptomSentence(SubstanceAbuse);
    var general := SymptomSentence(GeneralConcern);
    assert substance[45] == 'e';
    assert general[45] == 't';
  }

  /** The sentence lengths, which set all but two categories apart. */
  lemma SymptomSentenceLength(s: Symptom)
    ensures |SymptomSentence(s)| == match s
      case Depression => 68
      case Anxiety => 31
      case MixedAnxietyDepression => 51
      case Ptsd => 58
      case SubstanceAbuse => 48
      case BipolarConcern => 40
      case GeneralConcern => 48
  {
  }

  /** Each category has its own sentence. */
  lemma SymptomSentencesDistinct(s: Symptom, u: Symptom)
    ensures SymptomSentence(s) == SymptomSentence(u) <==> s == u
  {
    if s != u {
      if (s == SubstanceAbuse && u == GeneralConcern) || (s == GeneralConcern && u == SubstanceAbuse) {
        SubstanceAndGeneralDiffer();
      } else {
        SymptomSentenceLength(s);
        SymptomSentenceLength(u);
      }
    }
  }

  /** A suicide or self-harm flag puts the safety sentence into the explanation text. */
  lemma ExplanationMentionsSafety(userText: string, response: TriageResponse, chunks: seq<Entry>)
    requires SuicidalIdeation in response.redFlags || SelfHarmRisk in response.redFlags
    ensures Contains(Explain(userText, response, chunks), SafetySentence)
  {
    var opening := Opening(Triggers(Lower(userText)));
    var symptom := SymptomSentence(response.primarySymptom);
    var flag := FlagSentence(response.redFlags);
    var resources := Join(ResourceSentences(chunks), "");
    SafetySentenceWhen(response.redFlags);
    assert Explain(userText, response, chunks) == opening + (symptom + flag + resources) + Closing;
    ContainsMiddle(opening, symptom, flag, resources, Closing);
  }
}
