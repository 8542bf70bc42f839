/**
 * The rule-based symptom and red-flag classifier `mockLLM` (lib/mock-llm.ts).
 *
 * The rules run in a fixed order over the lower-cased text and the sensor
 * snapshot. The primary symptom is overwritten by later rules (last match
 * wins), while every rule that fires pushes its red flag (union of all);
 * the pushed flags are finally de-duplicated keeping first insertion.
 */
module Classifier {
  import opened Wrappers
  import opened Seqs
  import opened Strings
  import opened Dedup

  /** The sensor snapshot: an optional mood label and an optional heart rate in beats per minute. */
  datatype Sensor = Sensor(mood: Option<string>, heartRate: Option<int>)

  datatype Symptom =
    | GeneralConcern
    | Depression
    | Anxiety
    | MixedAnxietyDepression
    | Ptsd
    | SubstanceAbuse
    | BipolarConcern
  {
    /** The category string the source uses for this symptom. */
    function Label(): string {
      match this
      case GeneralConcern => "general_concern"
      case Depression => "depression"
      case Anxiety => "anxiety"
      case MixedAnxietyDepression => "mixed_anxiety_depression"
      case Ptsd => "ptsd"
      case SubstanceAbuse => "substance_abuse"
      case BipolarConcern => "bipolar_concern"
    }
  }

  datatype Flag =
    | SuicidalIdeation
    | PanicAttack
    | TraumaResponse
    | SubstanceUseConcern
    | SevereDistress
    | MoodInstability
    | SelfHarmRisk
    | ViolenceRisk
  {
    /** The red-flag tag the source uses for this flag. */
    function Label(): string {
      match this
      case SuicidalIdeation => "suicidal ideation"
      case PanicAttack => "panic attack"
      case TraumaResponse => "trauma response"
      case SubstanceUseConcern => "substance use concern"
      case SevereDistress => "severe physiological distress"
      case MoodInstability => "mood instability"
      case SelfHarmRisk => "immediate self-harm risk"
      case ViolenceRisk => "violence risk"
    }
  }

  /** The classifier's result: one primary symptom and the de-duplicated red flags. */
  datatype TriageResponse = TriageResponse(primarySymptom: Symptom, redFlags: seq<Flag>)

  const DepressionCues: seq<string> := ["hopeless", "no point", "worthless", "empty", "sad", "depressed"]
  const SuicidalCues: seq<string> := ["hopeless", "no point", "end it all", "kill myself", "suicide", "die"]
  const AnxietyCues: seq<string> := ["anxious", "worried", "panic", "nervous", "scared", "fear"]
  const PanicCues: seq<string> := ["panic", "can't breathe", "heart racing"]
  const TraumaCues: seq<string> := ["flashback", "nightmare", "trauma", "triggered", "reliving"]
  const SubstanceCues: seq<string> := ["drinking", "drugs", "high", "drunk", "addiction"]
  const SelfHarmCues: seq<string> := ["hurt myself", "harm myself", "kill myself", "suicide"]
  const ViolenceCues: seq<string> := ["hurt others", "harm others", "violence", "kill them"]

  /** `cues.some(c => text.includes(c))`, written in the source as a chain of `||`. */
  predicate ContainsAny(text: string, cues: seq<string>) {
    exists c | c in cues :: Contains(text, c)
  }

  /** `heartRate && heartRate > limit` */
  predicate HeartRateAbove(sensor: Sensor, limit: int) {
    sensor.heartRate.Some? && sensor.heartRate.value > limit
  }

  predicate LowMood(sensor: Sensor) {
    sensor.mood == Some("low") || sensor.mood == Some("very_low")
  }

  predicate ElevatedMood(sensor: Sensor) {
    sensor.mood == Some("agitated") || sensor.mood == Some("manic")
  }

  /**
   * Which keyword lists the lower-cased text hits. The source tests each
   * list where its rule needs it; the tests have no side effects, so
   * evaluating them up front changes nothing.
   */
  datatype Cues = Cues(
    depression: bool, suicidal: bool, anxiety: bool, panic: bool,
    trauma: bool, substance: bool, selfHarm: bool, violence: bool)

  function CuesOf(text: string): Cues {
    Cues(ContainsAny(text, DepressionCues), ContainsAny(text, SuicidalCues),
         ContainsAny(text, AnxietyCues), ContainsAny(text, PanicCues),
         ContainsAny(text, TraumaCues), ContainsAny(text, SubstanceCues),
         ContainsAny(text, SelfHarmCues), ContainsAny(text, ViolenceCues))
  }

  /** The classifier's working state: the current symptom and the flags pushed so far. */
  datatype Analysis = Analysis(symptom: Symptom, pushed: seq<Flag>)

  function PushIf(pushed: seq<Flag>, condition: bool, f: Flag): seq<Flag> {
    if condition then pushed + [f] else pushed
  }

  /** Depression cues set the symptom; the suicidal cues are only consulted inside this rule. */
  function DepressionRule(c: Cues, a: Analysis): Analysis {
    if c.depression then Analysis(Depression, PushIf(a.pushed, c.suicidal, SuicidalIdeation))
    else a
  }

  /** Anxiety cues combine with an earlier depression into the mixed category. */
  function AnxietyRule(c: Cues, a: Analysis): Analysis {
    if c.anxiety then
      Analysis(if a.symptom == Depression then MixedAnxietyDepression else Anxiety,
               PushIf(a.pushed, c.panic, PanicAttack))
    else a
  }

  function TraumaRule(c: Cues, a: Analysis): Analysis {
    if c.trauma then Analysis(Ptsd, a.pushed + [TraumaResponse]) else a
  }

  function SubstanceRule(c: Cues, a: Analysis): Analysis {
    if c.substance then Analysis(SubstanceAbuse, a.pushed + [SubstanceUseConcern]) else a
  }

  /** A heart rate above 100 flags panic and fills in anxiety; above 120 also flags distress. */
  function HeartRateRule(sensor: Sensor, a: Analysis): Analysis {
    var fast :=
      if HeartRateAbove(sensor, 100) then
        Analysis(if a.symptom == GeneralConcern then Anxiety else a.symptom, a.pushed + [PanicAttack])
      else a;
    Analysis(fast.symptom, PushIf(fast.pushed, HeartRateAbove(sensor, 120), SevereDistress))
  }

  /** Low mood only fills in depression; agitated or manic mood always overwrites. */
  function MoodRule(sensor: Sensor, a: Analysis): Analysis {
    var low := if LowMood(sensor) && a.symptom == GeneralConcern then Analysis(Depression, a.pushed) else a;
    if ElevatedMood(sensor) then Analysis(BipolarConcern, low.pushed + [MoodInstability]) else low
  }

  /** The danger scan runs regardless of every earlier rule. */
  function DangerRule(c: Cues, a: Analysis): Analysis {
    var selfHarm := PushIf(a.pushed, c.selfHarm, SelfHarmRisk);
    Analysis(a.symptom, PushIf(selfHarm, c.violence, ViolenceRisk))
  }

  /** All rules in source order. */
  function RunRules(c: Cues, sensor: Sensor): Analysis {
    var depression := DepressionRule(c, Analysis(GeneralConcern, []));
    var anxiety := AnxietyRule(c, depression);
    var trauma := TraumaRule(c, anxiety);
    var substance := SubstanceRule(c, trauma);
    var heart := HeartRateRule(sensor, substance);
    var mood := MoodRule(sensor, heart);
    DangerRule(c, mood)
  }

  /**
   * The symptom read as a precedence list, strongest first: elevated mood,
   * substance cues, trauma cues, anxiety with depression, anxiety,
   * depression, fast heart rate, low mood.
   */
  function SymptomByPrecedence(c: Cues, sensor: Sensor): Symptom {
    if ElevatedMood(sensor) then BipolarConcern
    else if c.substance then SubstanceAbuse
    else if c.trauma then Ptsd
    else if c.anxiety && c.depression then MixedAnxietyDepression
    else if c.anxiety then Anxiety
    else if c.depression then Depression
    else if HeartRateAbove(sensor, 100) then Anxiety
    else if LowMood(sensor) then Depression
    else GeneralConcern
  }

  /** When each red flag is raised, independently of every other rule. */
  predicate Raised(f: Flag, c: Cues, sensor: Sensor) {
    match f
    case SuicidalIdeation => c.depression && c.suicidal
    case PanicAttack => (c.anxiety && c.panic) || HeartRateAbove(sensor, 100)
    case TraumaResponse => c.trauma
    case SubstanceUseConcern => c.substance
    case SevereDistress => HeartRateAbove(sensor, 120)
    case MoodInstability => ElevatedMood(sensor)
    case SelfHarmRisk => c.selfHarm
    case ViolenceRisk => c.violence
  }

  /** Overwrite-last over the rule order is the precedence list read from the strongest rule down. */
  lemma RulesSymptom(c: Cues, sensor: Sensor)
    ensures RunRules(c, sensor).symptom == SymptomByPrecedence(c, sensor)
  {
  }

  lemma PushIfMember(pushed: seq<Flag>, condition: bool, f: Flag, g: Flag)
    ensures g in PushIf(pushed, condition, f) <==> g in pushed || (condition && g == f)
  {
  }

  /** What each rule adds to the pushed flags. */
  lemma DepressionRuleAdds(c: Cues, a: Analysis, f: Flag)
    ensures f in DepressionRule(c, a).pushed <==> f in a.pushed || (f == SuicidalIdeation && c.depression && c.suicidal)
  {
    PushIfMember(a.pushed, c.suicidal, SuicidalIdeation, f);
  }

  lemma AnxietyRuleAdds(c: Cues, a: Analysis, f: Flag)
    ensures f in AnxietyRule(c, a).pushed <==> f in a.pushed || (f == PanicAttack && c.anxiety && c.panic)
  {
    PushIfMember(a.pushed, c.panic, PanicAttack, f);
  }

  lemma HeartRateRuleAdds(sensor: Sensor, a: Analysis, f: Flag)
    ensures f in HeartRateRule(sensor, a).pushed <==>
      f in a.pushed || (f == PanicAttack && HeartRateAbove(sensor, 100)) || (f == SevereDistress && HeartRateAbove(sensor, 120))
  {
    var fast := if HeartRateAbove(sensor, 100) then a.pushed + [PanicAttack] else a.pushed;
    PushIfMember(fast, HeartRateAbove(sensor, 120), SevereDistress, f);
  }

  lemma DangerRuleAdds(c: Cues, a: Analysis, f: Flag)
    ensures f in DangerRule(c, a).pushed <==>
      f in a.pushed || (f == SelfHarmRisk && c.selfHarm) || (f == ViolenceRisk && c.violence)
  {
    var selfHarm := PushIf(a.pushed, c.selfHarm, SelfHarmRisk);
    PushIfMember(a.pushed, c.selfHarm, SelfHarmRisk, f);
    PushIfMember(selfHarm, c.violence, ViolenceRisk, f);
  }

  /** Every rule that fires contributes its flag, and only those. */
  lemma RulesFlag(c: Cues, sensor: Sensor, f: Flag)
    ensures f in RunRules(c, sensor).pushed <==> Raised(f, c, sensor)
  {
    var start := Analysis(GeneralConcern, []);
    var depression := DepressionRule(c, start);
    var anxiety := AnxietyRule(c, depression);
    var trauma := TraumaRule(c, anxiety);
    var substance := SubstanceRule(c, trauma);
    var heart := HeartRateRule(sensor, substance);
    var mood := MoodRule(sensor, heart);
    DepressionRuleAdds(c, start, f);
    AnxietyRuleAdds(c, depression, f);
    assert f in substance.pushed <==>
      f in anxiety.pushed || (f == TraumaResponse && c.trauma) || (f == SubstanceUseConcern && c.substance);
    HeartRateRuleAdds(sensor, substance, f);
    assert f in mood.pushed <==> f in heart.pushed || (f == MoodInstability && ElevatedMood(sensor));
    DangerRuleAdds(c, mood, f);
  }

  /** `mockLLM(userText, mockSensorData)` */
  function Classify(userText: string, sensor: Sensor): (r: TriageResponse)
    ensures r.primarySymptom == SymptomByPrecedence(CuesOf(Lower(userText)), sensor)
    ensures forall f :: f in r.redFlags <==> Raised(f, CuesOf(Lower(userText)), sensor)
    ensures NoDuplicates(r.redFlags)
  {
    var c := CuesOf(Lower(userText));
    RulesSymptom(c, sensor);
    forall f
      ensures f in RunRules(c, sensor).pushed <==> Raised(f, c, sensor)
    {
      RulesFlag(c, sensor, f);
    }
    var a := RunRules(c, sensor);
    TriageResponse(a.symptom, Distinct(a.pushed))
  }

  /** Distinct flags carry distinct tags, so de-duplicating flags is de-duplicating their tags. */
  lemma FlagLabelsDistinct(f: Flag, g: Flag)
    ensures f.Label() == g.Label() <==> f == g
  {
    if f != g {
      assert |f.Label()| != |g.Label()|;
    }
  }

  /** Distinct symptoms carry distinct category strings. */
  lemma SymptomLabelsDistinct(s: Symptom, t: Symptom)
    ensures s.Label() == t.Label() <==> s == t
  {
    if s != t {
      assert |s.Label()| != |t.Label()| || s.Label()[0] != t.Label()[0];
    }
  }

  /** Trauma and substance cues together: the later substance rule owns the symptom, both flags stay. */
  lemma TraumaThenSubstance(userText: string, sensor: Sensor)
    requires CuesOf(Lower(userText)).trauma && CuesOf(Lower(userText)).substance
    requires !ElevatedMood(sensor)
    ensures Classify(userText, sensor).primarySymptom == SubstanceAbuse
    ensures TraumaResponse in Classify(userText, sensor).redFlags
    ensures SubstanceUseConcern in Classify(userText, sensor).redFlags
  {
    var c := CuesOf(Lower(userText));
    assert Raised(TraumaResponse, c, sensor) && Raised(SubstanceUseConcern, c, sensor);
  }

  /** The ptsd, substance-abuse and bipolar categories are only ever set together with a flag. */
  lemma SevereSymptomIsFlagged(userText: string, sensor: Sensor)
    ensures var r := Classify(userText, sensor);
      r.primarySymptom in {Ptsd, SubstanceAbuse, BipolarConcern} ==> |r.redFlags| > 0
    ensures var r := Classify(userText, sensor);
      r.primarySymptom == Ptsd ==> TraumaResponse in r.redFlags
    ensures var r := Classify(userText, sensor);
      r.primarySymptom == SubstanceAbuse ==> SubstanceUseConcern in r.redFlags
    ensures var r := Classify(userText, sensor);
      r.primarySymptom == BipolarConcern ==> MoodInstability in r.redFlags
  {
    var r := Classify(userText, sensor);
    var c := CuesOf(Lower(userText));
    var s := SymptomByPrecedence(c, sensor);
    if s == Ptsd {
      assert Raised(TraumaResponse, c, sensor);
      assert TraumaResponse in r.redFlags;
    } else if s == SubstanceAbuse {
      assert Raised(SubstanceUseConcern, c, sensor);
      assert SubstanceUseConcern in r.redFlags;
    } else if s == BipolarConcern {
      assert Raised(MoodInstability, c, sensor);
      assert MoodInstability in r.redFlags;
    }
  }

  /** An agitated or manic mood always ends as a bipolar concern with a mood-instability flag. */
  lemma ElevatedMoodIsBipolar(userText: string, sensor: Sensor)
    requires ElevatedMood(sensor)
    ensures Classify(userText, sensor).primarySymptom == BipolarConcern
    ensures MoodInstability in Classify(userText, sensor).redFlags
  {
  }

  /**
   * A heart rate above 100 flags a panic attack and fills in anxiety when no
   * text rule set a symptom; above 120 it also flags severe distress.
   */
  lemma FastHeartRate(userText: string, sensor: Sensor)
    requires HeartRateAbove(sensor, 100)
    ensures PanicAttack in Classify(userText, sensor).redFlags
    ensures SevereDistress in Classify(userText, sensor).redFlags <==> HeartRateAbove(sensor, 120)
    ensures var c := CuesOf(Lower(userText));
      !c.depression && !c.anxiety && !c.trauma && !c.substance && !ElevatedMood(sensor)
      ==> Classify(userText, sensor).primarySymptom == Anxiety
  {
    var c := CuesOf(Lower(userText));
    var r := Classify(userText, sensor);
    assert Raised(PanicAttack, c, sensor);
    assert SevereDistress in r.redFlags <==> Raised(SevereDistress, c, sensor);
  }

  /**
   * A low mood only fills in depression when nothing else set a symptom:
   * after a fast heart rate the symptom stays anxiety.
   */
  lemma LowMoodOnlyFillsIn(userText: string, sensor: Sensor)
    requires LowMood(sensor)
    requires var c := CuesOf(Lower(userText)); !c.depression && !c.anxiety && !c.trauma && !c.substance
    ensures Classify(userText, sensor).primarySymptom == if HeartRateAbove(sensor, 100) then Anxiety else Depression
  {
  }

  /** An anxiety cue after a depression cue gives the mixed category, unless a later rule overwrites it. */
  lemma AnxietyAfterDepression(userText: string, sensor: Sensor)
    requires var c := CuesOf(Lower(userText)); c.depression && c.anxiety && !c.trauma && !c.substance
    requires !ElevatedMood(sensor)
    ensures Classify(userText, sensor).primarySymptom == MixedAnxietyDepression
  {
  }

  /**
   * "kill myself" without any depression cue is an immediate self-harm risk
   * but not suicidal ideation: that check sits inside the depression rule.
   */
  lemma SelfHarmWithoutDepressionCue(userText: string, sensor: Sensor)
    requires Contains(Lower(userText), "kill myself")
    requires !CuesOf(Lower(userText)).depression
    ensures SelfHarmRisk in Classify(userText, sensor).redFlags
    ensures SuicidalIdeation !in Classify(userText, sensor).redFlags
  {
    assert SelfHarmCues[2] == "kill myself";
  }

  /** A panic attack flagged both by the text and by the heart rate is listed once. */
  lemma PanicFlaggedOnce(userText: string, sensor: Sensor)
    requires var c := CuesOf(Lower(userText)); c.anxiety && c.panic
    requires HeartRateAbove(sensor, 100)
    ensures multiset(Classify(userText, sensor).redFlags)[PanicAttack] == 1
  {
    var r := Classify(userText, sensor);
    NoDuplicatesOnce(r.redFlags, PanicAttack);
  }

  /** No keyword and no sensor data: a general concern with no red flags. */
  lemma QuietTextIsGeneralConcern(userText: string)
    requires CuesOf(Lower(userText)) == Cues(false, false, false, false, false, false, false, false)
    ensures Classify(userText, Sensor(None, None)) == TriageResponse(GeneralConcern, [])
  {
  }
}
