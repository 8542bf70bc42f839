# Rule-based mental-health triage, modelled in Dafny

This project models the decision core of a mental-health triage chat. A
user's message goes through a keyword classifier (`mockLLM`). The classifier
combines lower-cased substring cues with an optional sensor snapshot (mood and
heart rate). It yields a primary symptom category and a de-duplicated list of
red flags. The chat turn then does four things:

- It searches a static knowledge base of `{id, type, text}` entries.
- It adds crisis resources when any flag was raised.
- It adds the first two CBT techniques for plain anxiety or depression.
- It de-duplicates the resources by id, keeping the first occurrence, and cuts them to four.

Finally it maps the classification to a priority (low, medium, high,
critical) with a fixed recommendation and a confidence of 88. It also builds
a templated explanation (`generateExplanation`) from the triggers, the
symptom, the flags and the resource types.

Modules, one per concern:

| file | module | models |
|---|---|---|
| wrappers.dfy | `Wrappers` | `Option`, for `type?`, `heartRate?`, `mood?` and a `null` result |
| seqs.dfy | `Seqs` | `Array.prototype.filter`, `slice(0, n)`, runs of conditional `push`, and the subsequence order |
| strings.dfy | `Strings` | `toLowerCase`, `includes`, `split(" ")`, `join`, `trim` |
| dedup.dfy | `Dedup` | the `findIndex` de-duplication and `[...new Set(xs)]` |
| knowledge_base.dfy | `KnowledgeBase` | `searchKnowledgeBase`, `getEntriesByType`, `getRandomEntry` |
| classifier.dfy | `Classifier` | `mockLLM` |
| explanation.dfy | `Explanation` | `generateExplanation` |
| triage.dfy | `Triage` | the pure logic of `handleSendMessage` |

Modelling choices:

- The knowledge base is a parameter `store: seq<Entry>` rather than the imported JSON.
- A symptom category and a red flag are enumerations. `Label()` gives the exact string the source uses.
- A `type` argument that is absent or `""` applies no filter, which is JavaScript truthiness.
- `Math.random()` is a parameter `roll: real` with `0 <= roll < 1`.
- The sensor snapshot is a parameter.
- `includes("")` is true for every text.
- `split(" ")` yields empty pieces for leading, trailing or doubled spaces.

## Model

| member | source | states |
|---|---|---|
| Seqs.FilterMembers | lib/knowledge-base.ts:14-21 | the filtered list holds exactly the store entries that satisfy the predicate |
| Seqs.FilterIsSubseq | lib/knowledge-base.ts:14-21 | filtering keeps the store's order: the result is a subsequence of the store |
| Seqs.FilterFilter | lib/knowledge-base.ts:14-26 | filtering by one predicate and then another is the same as filtering once by their conjunction |
| Seqs.Take | components/triage-chat-interface.tsx:93 | `slice(0, n)` has length min(n, length) and keeps the leading elements unchanged |
| Strings.Lower | lib/knowledge-base.ts:12 | lower-casing keeps the length, leaves no `A`-`Z` behind, turns each capital into the same letter in lower case, and changes no other character |
| Strings.LowerIdempotent | lib/knowledge-base.ts:12-19 | lower-casing an already lower-cased string changes nothing |
| Strings.LowerKeepsContains | lib/knowledge-base.ts:12-20 | a term found in a text is still found after both are lower-cased, so lower-casing never loses a match |
| Strings.TrimStart | components/triage-chat-interface.tsx:65 | the result is a suffix of the string, everything dropped is white space, and it does not start with white space |
| Strings.TrimEnd | components/triage-chat-interface.tsx:65 | the result is a prefix of the string, everything dropped is white space, and it does not end with white space |
| Strings.Trim | components/triage-chat-interface.tsx:65 | the result is the slice between a white-space prefix and a white-space suffix and neither starts nor ends with white space |
| Strings.BlankIffTrimEmpty | components/triage-chat-interface.tsx:65 | the blank test used for the send guard holds exactly when trimming leaves the empty string |
| Strings.ContainsEmpty | lib/knowledge-base.ts:20 | the empty search term occurs in every entry text |
| Strings.SplitPiecesLackSeparator | lib/knowledge-base.ts:12 | no search term produced by `split(" ")` contains a space |
| Strings.JoinSplit | lib/knowledge-base.ts:12 | joining the pieces of `split(" ")` with a space gives back the query: the split loses nothing |
| Strings.SplitHasEmptyPiece | lib/knowledge-base.ts:12 | an empty search term appears exactly when the query is empty or has a leading, trailing or doubled space |
| Dedup.UniqueByKeys | components/triage-chat-interface.tsx:97-98 | the findIndex filter leaves no two entries with the same id and drops no id |
| Dedup.UniqueByIsSubseq | components/triage-chat-interface.tsx:97-98 | the de-duplicated list keeps the candidates' order |
| Dedup.UniqueByKeepsFirst | components/triage-chat-interface.tsx:98 | for each id, the entry kept is the first candidate with that id |
| Dedup.UniqueByOrder | components/triage-chat-interface.tsx:97-98 | first elements of their ids keep their relative order in the de-duplicated list |
| Dedup.TakeUniqueByKeepsEarlier | components/triage-chat-interface.tsx:97-99 | cutting the de-duplicated list to its first n elements keeps the earliest distinct ids: a kept id has every earlier id kept with it |
| Dedup.UniqueByLength | components/triage-chat-interface.tsx:97-98 | the de-duplicated list is exactly as long as the number of distinct ids |
| Dedup.DistinctFromContinues | lib/mock-llm.ts:127 | walking the rest of a list with a seen-set (the `Set` constructor) continues the findIndex de-duplication of its prefix |
| Dedup.Distinct | lib/mock-llm.ts:127 | `[...new Set(xs)]` equals the findIndex de-duplication, has the same members as `xs`, and has no duplicates |
| KnowledgeBase.Search | lib/knowledge-base.ts:11-22 | search returns, in store order, exactly the entries of the requested type whose lower-cased text contains some lower-cased query term |
| KnowledgeBase.EntriesByType | lib/knowledge-base.ts:24-26 | returns, in store order, exactly the entries of the given type |
| KnowledgeBase.RandomEntry | lib/knowledge-base.ts:28-34 | null exactly when no entry has the requested type; otherwise a store entry of that type |
| KnowledgeBase.RandomEntryReachesAll | lib/knowledge-base.ts:29-33 | every entry of the pool is drawn by some roll in [0, 1) |
| KnowledgeBase.SearchEmptyTypeIgnored | lib/knowledge-base.ts:16 | an empty-string type filters nothing |
| KnowledgeBase.SearchWithinType | lib/knowledge-base.ts:11-26 | a typed search is the text match applied to the entries of that type |
| KnowledgeBase.SearchEmptyTermMatchesAll | lib/knowledge-base.ts:12-20 | a query that yields an empty term returns every entry of the requested type |
| Classifier.RulesSymptom | lib/mock-llm.ts:15-104 | the sequence of overwriting rules picks the symptom of a precedence list: elevated mood, substance, trauma, mixed, anxiety, depression, heart rate above 100, low mood, general concern |
| Classifier.RulesFlag | lib/mock-llm.ts:16-123 | each red flag is pushed exactly when its own rule's condition holds, whatever the other rules do |
| Classifier.Classify | lib/mock-llm.ts:13-129 | the primary symptom is the precedence-list symptom, a flag is listed exactly when its condition holds, and no flag is listed twice |
| Classifier.FlagLabelsDistinct | lib/mock-llm.ts:127 | distinct flags carry distinct tags, so de-duplicating flags de-duplicates their tag strings |
| Classifier.SymptomLabelsDistinct | lib/mock-llm.ts:15-103 | the seven category strings are pairwise distinct |
| Classifier.TraumaThenSubstance | lib/mock-llm.ts:58-80 | with trauma and substance cues, the later substance rule owns the symptom and both flags stay |
| Classifier.SevereSymptomIsFlagged | lib/mock-llm.ts:58-104 | the ptsd, substance-abuse and bipolar categories are only set together with their own flag: ptsd comes with the trauma-response flag, substance abuse with the substance-use flag, bipolar concern with the mood-instability flag, so none of them comes without a flag |
| Classifier.ElevatedMoodIsBipolar | lib/mock-llm.ts:101-104 | an agitated or manic mood always ends as a bipolar concern with a mood-instability flag |
| Classifier.FastHeartRate | lib/mock-llm.ts:83-92 | a heart rate above 100 flags a panic attack and fills in anxiety when no text rule set a symptom; severe distress is flagged exactly above 120 |
| Classifier.LowMoodOnlyFillsIn | lib/mock-llm.ts:83-99 | a low mood yields depression only when nothing else set a symptom; after a fast heart rate the symptom stays anxiety |
| Classifier.AnxietyAfterDepression | lib/mock-llm.ts:19-56 | depression and anxiety cues together give the mixed category unless a later rule overwrites it |
| Classifier.SelfHarmWithoutDepressionCue | lib/mock-llm.ts:19-114 | "kill myself" without a depression cue is a self-harm risk but not suicidal ideation, because that check is nested in the depression rule |
| Classifier.PanicFlaggedOnce | lib/mock-llm.ts:53-127 | a panic attack flagged by both the text and the heart rate is listed once |
| Classifier.QuietTextIsGeneralConcern | lib/mock-llm.ts:15-128 | text with no cue and no sensor data is a general concern with no flags |
| Explanation.Opening | lib/mock-llm.ts:161-166 | both openings, with or without named triggers, begin "Based on your " |
| Explanation.Explain | lib/mock-llm.ts:131-229 | every explanation starts "Based on your " and ends with the fixed closing sentence |
| Explanation.SafetySentenceWhen | lib/mock-llm.ts:192-199 | the safety sentence is chosen exactly for a suicidal-ideation or self-harm flag; otherwise the panic sentence exactly for a panic flag; otherwise none |
| Explanation.ResourceTypesPresent | lib/mock-llm.ts:203 | a resource type is listed exactly when some retrieved chunk has it |
| Explanation.ResourceSentencesInOrder | lib/mock-llm.ts:201-223 | resource sentences come in the order crisis, CBT, diagnostic, self-care, each at most once |
| Explanation.ResourceSentencesFollowTypes | lib/mock-llm.ts:201-223 | each resource sentence appears exactly when a retrieved chunk has its type |
| Explanation.TriggersInOrder | lib/mock-llm.ts:142-159 | the trigger labels appear in the order of the checks, each at most once |
| Explanation.TriggersNamed | lib/mock-llm.ts:145-159 | each trigger label is named exactly when one of its two words occurs in the lower-cased text |
| Explanation.OpeningWithoutTriggers | lib/mock-llm.ts:161-166 | the generic opening is used exactly when the trigger list is empty; any named trigger gives the "mention of" opening |
| Explanation.OpeningWithoutTriggerWords | lib/mock-llm.ts:142-166 | the generic opening is used exactly when the lower-cased message contains none of the ten trigger words |
| Explanation.SymptomSentencesDistinct | lib/mock-llm.ts:168-190 | the symptom sentence names the category: different categories get different sentences, so the sentence determines the category |
| Explanation.ExplanationMentionsSafety | lib/mock-llm.ts:192-226 | a suicidal-ideation or self-harm flag puts the safety sentence into the explanation text |
| Triage.PriorityFromAnalysis | components/triage-chat-interface.tsx:123-137 | critical exactly with a self-harm or violence flag; high exactly with other flags only; medium exactly with no flag and a specific symptom; low exactly for a flagless general concern |
| Triage.Assess | components/triage-chat-interface.tsx:139-150 | the confidence is 88, and the immediate, urgent or routine recommendation is shown exactly for a critical flag, other flags only, or no flag |
| Triage.RecommendationByLevel | components/triage-chat-interface.tsx:145-150 | two priorities share a recommendation exactly when they are equal or both below high |
| Triage.Candidates | components/triage-chat-interface.tsx:87-94 | the candidates are the text matches first, then the crisis resources, then the CBT techniques, all drawn from the store; every crisis resource is among them once a flag is raised, and with no flag and neither plain anxiety nor plain depression only the text matches remain |
| Triage.CrisisPart | components/triage-chat-interface.tsx:89-91 | crisis resources are added only when a flag was raised, and then all of them, in store order |
| Triage.CbtPart | components/triage-chat-interface.tsx:92-94 | for plain anxiety or depression, exactly the first two CBT techniques of the store, or all of them if fewer; otherwise none |
| Triage.Shortlist | components/triage-chat-interface.tsx:96-99 | at most four resources with distinct ids, as many as the distinct candidate ids allow, each the first candidate of its id, never a later id while an earlier one is left out, and in the order the ids first occur among the candidates |
| Triage.ComposeResources | components/triage-chat-interface.tsx:83-99 | at most four resources with distinct ids, as many as the distinct candidate ids allow, each a text match, a crisis resource after a red flag, or a CBT technique for plain anxiety or depression |
| Triage.HandleMessage | components/triage-chat-interface.tsx:64-107 | a blank message produces nothing; otherwise the turn carries the message's classification, the composed resources, the assessment of that classification, and the explanation of those resources, which starts with the fixed lead and ends with the fixed closing |
| Triage.SevereSymptomsAtLeastHigh | components/triage-chat-interface.tsx:127-132 | a ptsd, substance-abuse or bipolar classification always carries a flag, so its priority is at least high |
| Triage.SelfHarmPhraseIsCritical | components/triage-chat-interface.tsx:124-126 | any self-harm phrase in the message makes the priority critical |
| Triage.QuietInputIsLow | components/triage-chat-interface.tsx:133-136 | a message with no cue and no sensor data gets low priority |

## Left out

- Rendering, React state, message ids from `Date.now()`, timestamps and the 1.5 s `setTimeout`: these are UI and timing, not decisions.
- The chat reply text (triage-chat-interface.tsx:111-117) and the category display string (line 143): these are presentation strings built from values the model already has.
- The explainability factors and their weights (lines 153-167): they are floating-point display values that no decision reads.
- The component's simulated sensor snapshot (lines 76-79): the snapshot is a parameter. The component itself always sends mood "low" and a heart rate from 80 to 119, so its heart-rate-above-120 rule never fires in the app.
- Loading the knowledge base from JSON: the store is a parameter, and the code does no load-time validation of the entries.
- Strings.Lower: maps only ASCII `A`-`Z`, not the full Unicode case mapping of `toLowerCase`.
- Classifier.Classify: a heart rate is an integer, so a fractional, `NaN` or zero reading is not modelled separately. Zero is falsy in the source, and the model treats it the same because 0 is not above 100.
- Classifier.Classify: states which flags are listed and that each appears once, but not their order. The order is the rules' push order, with a panic attack placed where it was first pushed.
- Explanation.Explain: states the lead and the closing of the text. Which middle sentences appear is stated on the sentence-selection functions, by SafetySentenceWhen, ResourceSentencesFollowTypes and OpeningWithoutTriggers, rather than as substring facts about the whole text. The one exception is ExplanationMentionsSafety.
- Explanation.ExplanationMentionsSafety: states that the safety sentence is present when it is due, not that it is absent otherwise.

## Notes on the code's behaviour

- Knowledge-base entries are not validated when loaded; the store is used as given.
- The sensor snapshot is used as given: the mood is compared by exact string and the heart rate by `>`, with no clamping.
- Entry ids are not assumed unique anywhere in the model; the de-duplication is proved for any store.
- The search splits the lower-cased query on single spaces (`split(" ")`), not on runs of whitespace. An empty query, or one with a leading, trailing or doubled space, yields an empty term. That term matches every entry (`SearchEmptyTermMatchesAll`).
- One-letter words become search terms too. The message "I hurt myself" yields the term "i", which occurs in almost any entry text. Text matches come first among the candidates, so four of them can fill the list before the crisis resources are reached. The turn is then critical (`SelfHarmPhraseIsCritical`), yet `Shortlist` keeps only the first four distinct ids, none of them a crisis resource.
- The second rule of the priority table (suicidal ideation or severe distress gives high) is subsumed by the third (any flag gives high). `PriorityFromAnalysis` keeps both rules as written, and its contract shows the outcome depends only on the self-harm and violence flags and on whether any flag was raised.
- Cues are plain substring tests. For example "die" also matches "diet" and "high" also matches "highly". The model keeps this as written.
