# RoadVisionAI: a Dafny model of the analysis backend

RoadVisionAI surveys roads. Inspectors upload photographs to an inspection; a background worker runs a damage
detector over them, turns the boxes into a condition index (PCI) from 0 to 100, and stores detections, score and
summary; a rule base turns the score into a maintenance strategy. This project models the four parts of the backend
whose guarantees depend on arithmetic, loops or interleaving, and proves them for all inputs and all runs.

1. **The inspection lifecycle.** PATCH, soft delete, upload, `request_analysis` and the background worker are steps
   that interleave freely between a read and the later write of one call. The tables are a class (`InspectionStore.Store`)
   whose methods are the statements of the program, and the protocol (`Lifecycle`) is built on the same row functions.
   An inductive invariant gives mutual exclusion of runs and agreement of results with the status;
   the version trigger makes the version a fingerprint of the row, so no update is lost.
   `ServiceRun` and `AnalysisRun` tie the steps to the sequential programs of the service and the worker.
2. **The decision chain.** Detector clamping, `compute_pci`, the two roundings, the rule engine and the nine seeded
   rules, each a program proved against a closed form, then composed from the boxes of the model to the decision.
3. **The chunker.** The loop of `chunk_pages` with its early exit, the windows it produces in closed form, and the
   reconstruction of the document from the chunk texts.
4. **The model registry and the detector cache.** Concurrent registrations, promotions and loads, the uniqueness of
   the production model, and what a cached detector is worth. `RegistryRun` ties the steps to the sequential calls.

Arithmetic is over exact reals, with Python's `round(x, 4)` (ties to even) and the decimal half-up rounding of
`_round2` written out as functions. The detector is an arbitrary function from images to boxes; clocks, ids and the
answers of the database and storage are parameters of the steps.

## Where the code surprises

For each of these there is a lemma with a concrete input or run, named in brackets, and one with the exact condition
under which the code does what one would expect.

- A further detection can **raise** the score (`SecondBoxLiftsScore`: a second, less sure pothole over the same image
  takes 65 to 68.5). `OneMoreBox` says exactly when; it never does while no image is covered more than once by boxes of
  its type, and on a full image it does exactly when the box is milder than the mean. `LiftShowsExactly` says when the
  stored score shows it.
- Worse damage can bring **lighter** or **later** work inside one band, because the dominant type changes
  (`WorseDamageLighterWork`: one surer box takes 54.54 with 60 days to 52.04 with 90 days). Across bands it cannot.
  `LighterExactly` says exactly when the work is lighter and exactly when it is later; the two differ
  (`HeavierYetLater`).
- The recorded level can be worse than the stored score's, because it is taken before rounding (`LevelBehindScore`: one
  pothole stores 85 points at the level below 85). `PriorityAfterRounding` and `SeverityAfterRounding` say exactly when.
- `chunk_pages` rejects `chunk_size <= overlap` only, and a negative overlap loses words (`GapLosesWord`: three words, size 1,
  overlap -1). `NothingLostExactly`: for every pair it accepts, the chunk texts give the document back exactly when the
  overlap is not negative, or the document fits one window, or it has no words.
- The versioned update does not repeat the `deleted_at` filter, so a PATCH can write onto an inspection deleted in
  between (`DeletedRowPatched`). `LandsOnDeletedExactly`: it can still come to that exactly when it sends a version above
  the one its own check has read.
- `register` checks first and writes storage later, so a registration that is going to be refused can replace the
  weights of the model it collides with, and a detector is then cached with them (`LoserOverwrites`). `LoadsLastPuts`: in
  every run a model loads what was last put under its prefix; `IntactExactly`: all models load what they were registered
  with all the time exactly while every put and insert is harmless.
- Two different pairs of name and version can share their objects (`SlashedNamesCollide`: "abc", "d/1" and "abc/d", "1",
  both of which the form accepts). `CollidesExactly`: a pair does with some other exactly when its name or its version
  contains a slash.
- `load_artifacts` swallows a failed read of the configuration, and the cache keeps the empty mapping for the life of
  the process (`FailedReadHappens`, `FailedReadStays`). `CacheExactly`: in every run, a cached detector is the one built
  from its registration exactly when the model's first load found the registered weights stored, and the load that
  filled the entry read the registered mapping, or could read none and none was registered.

The header of `pci_engine.py` names ASTM D6433, but the formula there is the project's own; the model follows the code.

## Model

| member | source | states |
|---|---|---|
| Rounding.Round4Monotone | backend/app/ai/engines/pci_engine.py:136-139 | `round(x, 4)` keeps order, through its ties-to-even case |
| Rounding.Round4Within | backend/app/ai/detection/detector.py:102-108 | rounding to four decimals never leaves an interval with four-decimal ends |
| Rounding.Round2Monotone | backend/app/ai/engines/pci_engine.py:63-64 | `_round2` keeps order |
| Rounding.Round2OnGrid | backend/app/ai/engines/pci_engine.py:63-64 | `_round2` leaves every two-decimal value, so every threshold, alone |
| Rounding.Round2Reaches | backend/app/ai/engines/pci_engine.py:63-86 | a stored score reaches a whole threshold exactly when the unrounded one is at most 0.005 short of it |
| Rounding.Round4Ties | backend/app/ai/engines/pci_engine.py:136-139 | a tie at the fifth decimal goes to the even fourth one |
| Rounding.Round2Ties | backend/app/ai/engines/pci_engine.py:63-64 | a tie at the third decimal goes up |
| Ordering.SortSorted | backend/app/ai/engines/rule_engine.py:125 | the stable sort used for `sorted` orders any list under any total preorder (its own contract keeps the multiset) |
| Ordering.SortDistinct | backend/app/ai/engines/pci_engine.py:115 | sorting distinct codes gives the strictly increasing listing of the same codes |
| Ordering.IncreasingUnique | backend/app/ai/engines/pci_engine.py:115 | a set of codes has only one increasing listing, so the breakdown does not depend on dictionary order |
| Ordering.StringLeExactly | backend/app/ai/engines/rule_engine.py:125 | strings compare character by character: a beginning comes first, otherwise the first difference decides |
| Sums.SumExtract | backend/app/ai/engines/pci_engine.py:121 | the sum over a dictionary's values may take out any key first: it does not depend on key order |
| Sums.SumValues | backend/app/ai/engines/pci_engine.py:121 | the loop of `sum(d.values())`, taking keys in any order, computes that sum |
| PciEngine.CapStep | backend/app/ai/engines/pci_engine.py:120 | the running cap `min(1, acc + a)` equals the cap of the running sum |
| PciEngine.AreaPerImage | backend/app/ai/engines/pci_engine.py:118-120 | the loop over one type fills `per_image` with the capped sum of the areas on each image it touches |
| PciEngine.GroupByType | backend/app/ai/engines/pci_engine.py:106-111 | reports the first detection out of range, else groups by code: each group is the stable filter of the input, each code listed once |
| PciEngine.GroupMembers | backend/app/ai/engines/pci_engine.py:106-111 | a group holds exactly the detections of its code |
| PciEngine.Deduct | backend/app/ai/engines/pci_engine.py:113-141 | the loop over the sorted types returns the sum of all deductions and the rounded breakdown in code order |
| PciEngine.ComputePci | backend/app/ai/engines/pci_engine.py:89-149 | succeeds exactly with at least one image and all values in [0,1], fails with the right error otherwise, and returns the closed form, levels from the unrounded score |
| PciEngine.EmptyScore | backend/app/ai/engines/pci_engine.py:99-104 | the shortcut for no detections agrees with the general formula |
| PciOrder.ScorePermutation | backend/app/ai/engines/pci_engine.py:106-149 | score, levels and breakdown ignore the order of the detections when the weight is a function of the code |
| PciOrder.SeverityMonotone | backend/app/ai/engines/pci_engine.py:115-145 | raising any severities never raises the unclamped, the clamped or the stored score |
| PciOrder.Dilution | backend/app/ai/engines/pci_engine.py:92-94 | more images with the same detections never lower the score and never worsen either level |
| PciOrder.DilutionExact | backend/app/ai/engines/pci_engine.py:121-131 | images times points lost does not depend on the number of images |
| PciAreas.AreaPartition | backend/app/ai/engines/pci_engine.py:118-124 | splitting a type by image loses no area |
| PciAreas.Cancellation | backend/app/ai/engines/pci_engine.py:118-131 | with no image covered more than once, a type costs exactly 100 · weight · Σ(severity · area) / images |
| PciAreas.LossAdds | backend/app/ai/engines/pci_engine.py:115-132 | then the points lost add up over any split of the detections |
| PciAreas.OneMoreBox | backend/app/ai/engines/pci_engine.py:115-145 | a further detection raises the unclamped score if and only if what it dilutes of its type's mean outweighs what it newly covers |
| PciBounds.LiftShowsExactly | backend/app/ai/engines/pci_engine.py:143-145 | a detection that lifts the unclamped score never lowers the stored one, and raises it if and only if a half cent lies between the clamped scores, so always from a lift of 0.01 on |
| PciAreas.UnsaturatedNeverLifts | backend/app/ai/engines/pci_engine.py:118-131 | that never happens while no image is covered more than once |
| PciAreas.SaturatedLifts | backend/app/ai/engines/pci_engine.py:118-131 | on a fully covered image it happens exactly for a box of positive area, milder than the mean, with a positive weight |
| PciBounds.MeanBetween | backend/app/ai/engines/pci_engine.py:123-128 | a mean severity lies between the mildest and the severest detection of its type, in both branches |
| PciBounds.DensityAtMostOne | backend/app/ai/engines/pci_engine.py:116-121 | a density is at most 1 when the detections lie on the analysed images |
| PciBounds.DeductionAtMost | backend/app/ai/engines/pci_engine.py:130-131 | a type costs between 0 and 100 times its weight |
| PciBounds.RawScoreBounds | backend/app/ai/engines/pci_engine.py:143 | the unclamped score lies between 100 (1 − Σ weights present) and 100, and no clamp acts when those weights sum to at most 1 |
| PciBounds.StoredScoreInRange | infrastructure/postgres/init/01_schema_v4.2.sql:448 | the stored score always meets the CHECK of its column |
| PciBounds.EntryInRange | backend/app/ai/engines/pci_engine.py:133-141 | each reported entry names its own type in code order, with a mean between that type's extremes, a density in [0,1], its weight, and a deduction of at most 100 times it |
| PciBounds.Reconciliation | backend/app/ai/engines/pci_engine.py:132-145 | reported deductions plus stored score miss 100 by at most 0.005 + 0.00005 per type; clamped at 0, the deductions reach 100 within 0.00005 per type |
| PciMeaning.ScoreMeans | backend/app/ai/engines/pci_engine.py:92-149 | with no image covered more than once by one type, the returned score is within 0.005 of 100 − (Σ over the detections of 100 · weight · severity · area) / images, clamped to [0, 100], and both levels are those of that unrounded value, threshold by threshold |
| PciMeaning.AnswerParts | backend/app/ai/engines/pci_engine.py:143-149 | for any input, the same with the points lost over all types in place of that sum |
| PciMeaning.DensityMeans | backend/app/ai/engines/pci_engine.py:116-121 | a reported density times the images is within 0.00005 · images of the capped area of its type over the images it touches |
| PciMeaning.EntryMeans | backend/app/ai/engines/pci_engine.py:130-141 | each entry of the answer reports its type's weight, mean severity and points to within 0.00005 |
| PciMeaning.MeanMeans | backend/app/ai/engines/pci_engine.py:123-128 | the mean severity times the area is Σ severity · area; for a type without area, times the detections it is Σ severity |
| PciMeaning.AnswerDiluted | backend/app/ai/engines/pci_engine.py:92-94 | of the answers for two numbers of images, the larger has no lower score and no worse level |
| PciMeaning.AnswerDilutedExactly | backend/app/ai/engines/pci_engine.py:121-131 | unclamped, images times points lacking of 100 is the same in both answers, to within half a cent per image |
| PciBounds.PriorityAfterRounding | backend/app/ai/engines/pci_engine.py:77-86 | the priority of the stored score is never worse than the recorded one, differs exactly in [T − 0.005, T) for T in 40, 55, 70, 85, and then by one level |
| PciBounds.SeverityAfterRounding | backend/app/ai/engines/pci_engine.py:67-74 | the same for the severity, T in 40, 55, 70 |
| Detector.Detect | backend/app/ai/detection/detector.py:91-109 | the loop returns one detection per box, in order |
| Detector.FoundInRange | backend/app/ai/detection/detector.py:97-108 | any box with confidence in [0,1] becomes a detection that meets the column CHECKs, sizes in [0.0001, 1], area in (0, 1] |
| Detector.CentreRecovered | backend/app/ai/detection/detector.py:96-108 | for a box inside the frame, stored corner and size give back the predicted centre and size within the rounding, inside the frame |
| Detector.SeverityInRange | backend/app/ai/detection/detector.py:42-53 | the provisional severity lies in [0,1] |
| Detector.SeveritySaturates | backend/app/ai/detection/detector.py:42-53 | it grows with the confidence and with the area up to a tenth of the frame, and is constant in the area beyond; area is worth at most 0.6 and confidence at most 0.4 |
| Detector.LargeBoxIsSevere | backend/app/ai/detection/detector.py:26-103 | a box at or above the confidence threshold that covers a tenth of the frame is stored with severity 0.8 or more |
| Detector.FoundMeans | backend/app/ai/detection/detector.py:42-108 | every field of a stored detection from the box, to within 0.00005: confidence, corner, sizes brought into [0.0001, 1], severity 0.4 · confidence + 6 · area with the area part at most 0.6 |
| AnalysisWorker.CollectImage | backend/app/workers/analysis_worker.py:120-137 | the inner loop keeps the detections of known codes, in order, with their image |
| AnalysisWorker.Collect | backend/app/workers/analysis_worker.py:113-137 | the outer loop collects them over all images |
| AnalysisWorker.CollectedWellFormed | backend/app/workers/analysis_worker.py:121-129 | every collected detection has a known code and an image of the run |
| AnalysisWorker.KnownExactly | backend/app/workers/analysis_worker.py:120-124 | every box of a known code is kept, in its place among them, and nothing else |
| AnalysisWorker.CollectedExactly | backend/app/workers/analysis_worker.py:115-137 | the detections of each image lie together in the result, all of them, in the order of the images |
| AnalysisWorker.InputFields | backend/app/workers/analysis_worker.py:141-150 | the engine sees of each stored detection its code, the weight of that code, its severity, width times height, and its image |
| AnalysisWorker.EngineAccepts | backend/app/workers/analysis_worker.py:141-151 | with confidences in [0,1] the engine never refuses a run and every detection row meets its CHECKs |
| AnalysisWorker.InputsShape | backend/app/workers/analysis_worker.py:141-151 | the engine's input has one weight per code, weights as in the schema, and lies on as many images as are counted |
| AnalysisWorker.Dominant | backend/app/workers/analysis_worker.py:162-164 | `max` over the breakdown returns the first entry with the largest deduction, None exactly for an empty breakdown |
| AnalysisWorker.DominantUnique | backend/app/workers/analysis_worker.py:162-164 | there is one such entry |
| AnalysisWorker.AverageConfidence | backend/app/workers/analysis_worker.py:165-174 | the loop computes the rounded mean confidence, None without detections |
| AnalysisWorker.ConfidenceInRange | infrastructure/postgres/init/01_schema_v4.2.sql:357 | the summary's confidence meets its CHECK |
| AnalysisWorker.MeanConfidenceMeans | backend/app/workers/analysis_worker.py:172-174 | missing exactly without detections; otherwise between the least and the greatest confidence and within 0.00005 of sum over count |
| AnalysisWorker.ConfidenceSumOne | backend/app/workers/analysis_worker.py:165 | the sum of one detection is its confidence |
| AnalysisWorker.ConfidenceSumAdds | backend/app/workers/analysis_worker.py:165-173 | the sum of confidences is additive over any split |
| AnalysisWorker.SummaryMeans | backend/app/workers/analysis_worker.py:151-177 | a run over n images scores its detections over n, counts every box of a known code, and names the first type of a largest deduction |
| AnalysisWorker.Analyse | backend/app/workers/analysis_worker.py:94-177 | fails exactly without images or when the engine refuses, else returns rows, score, dominant type, count and confidence |
| AnalysisWorker.ImageOrderIrrelevant | backend/app/workers/analysis_worker.py:89-93 | the image query has no ORDER BY, and whatever order it answers in, the same rows, score and summary are stored |
| RuleEngine.SortFindsBest | backend/app/ai/engines/rule_engine.py:125-129 | the first rule that stops the scan of the sorted active rules is the least one by (priority, code), found without sorting |
| RuleEngine.WinnerDecides | backend/app/ai/engines/rule_engine.py:118-161 | the least active rule that matches or cannot be read decides; the fallback is returned when there is none |
| RuleEngine.WinnerFirst | backend/app/ai/engines/rule_engine.py:125 | no other active rule that stops the scan has a smaller priority, or the same and a smaller code |
| RuleEngine.DecisionFields | backend/app/ai/engines/rule_engine.py:127-153 | the decision carries the deciding rule's code, name, days, deadline and both costs and the strategy its action names; each kind of broken rule has its own error |
| RuleEngine.FallbackFields | backend/app/ai/engines/rule_engine.py:155-161 | nothing stops the scan: surveillance under FALLBACK, without days or costs |
| RuleEngine.FailsExactly | backend/app/ai/engines/rule_engine.py:126-134 | evaluation fails if and only if that rule has an unreadable condition or action or no valid strategy |
| RuleEngine.OnlyEarlierRulesMatter | backend/app/ai/engines/rule_engine.py:118-153 | adding, removing or toggling rules that do not stop the scan or come after the winner changes nothing |
| RuleEngine.OrderIrrelevant | infrastructure/postgres/init/01_schema_v4.2.sql:429 | with unique codes the decision does not depend on the order of the rules |
| LevelRules.SeverityAgainstScore | backend/app/ai/engines/rule_engine.py:91-94 | a rule on the worst recorded severities fires exactly when the rule on the stored score does, or just below the threshold |
| LevelRules.PriorityAgainstScore | backend/app/ai/engines/rule_engine.py:91-96 | the same for recorded priorities, over all four thresholds |
| SeedRules.SeedWins | infrastructure/postgres/init/03_seed_rules.sql:8-83 | which of the nine seeded rules wins, read off score, dominant type and count |
| SeedRules.SeedVerdict | infrastructure/postgres/init/03_seed_rules.sql:11-83 | the strategy and deadline each seeded rule decides |
| SeedRules.SeedDecides | infrastructure/postgres/init/03_seed_rules.sql:11-83 | the decision of the seeded base on any context in all its fields: code, name, strategy, days, deadline and both costs |
| SeedRules.SeedsTotal | infrastructure/postgres/init/03_seed_rules.sql:8-83 | the seeded base decides every context, never by the fallback, always with a deadline |
| SeedRules.SeedsOrdered | infrastructure/postgres/init/03_seed_rules.sql:8-83 | a worse band means a strategy at least as heavy and a strictly shorter deadline, whatever dominant types and counts are |
| SeedRules.LighterExactly | infrastructure/postgres/init/03_seed_rules.sql:19-75 | for a score in no better band: the strategy is lighter if and only if the band is the same and only the better context has the band's special dominant type; the deadline is later if and only if the band is the same and only the better context has the band's short deadline |
| SeedRules.HeavierYetLater | infrastructure/postgres/init/03_seed_rules.sql:37-51 | the two conditions differ: 56 points with RAVELLING get RESURFACAGE in 180 days, 69 with LONGITUDINAL_CRACK get COLMATAGE in 120 |
| DecisionChain.EveryRunDecides | backend/app/workers/analysis_worker.py:140-159 | every run over confident boxes is accepted by the engine, scores within bounds, and is decided by a seeded rule |
| DecisionChain.ContextFields | backend/app/ai/engines/rule_engine.py:88-105 | the facts the rules see of a run: stored score, recorded levels, dominant type and the number of all detections |
| DecisionChain.EndToEnd | backend/app/workers/analysis_worker.py:113-177 | raising confidences of any boxes never raises the stored score, through every clamp and rounding; a worse band means work at least as heavy and strictly sooner |
| DecisionChain.CleanImagesNeverHurt | backend/app/ai/engines/pci_engine.py:92-94 | further images without damage never lower the stored score or worsen a level, and leave the detection rows alone |
| Surprises.SecondBoxLiftsScore | backend/app/ai/engines/pci_engine.py:118-131 | two runs over predicted boxes and seeded types: a pothole over a whole image stores 65, a second, less sure box on the same image makes it 68.5 |
| Surprises.WorseDamageLighterWork | infrastructure/postgres/init/03_seed_rules.sql:20-34 | two runs over predicted boxes that differ in one confidence raised from 0.75 to 1: 54.54 becomes 52.04, REHABILITATION in 60 days becomes RESURFACAGE in 90 |
| Surprises.LevelBehindScore | backend/app/ai/engines/pci_engine.py:143-147 | a run over one predicted box stores 85 with the recorded priority P3_SURVEILLANCE, though 85 is P4_EXCELLENT |
| Surprises.PotholeInSurvey | backend/app/ai/engines/pci_engine.py:92-94 | one pothole over one image of a survey of any length stores 100 − 35/images, rounded |
| Surprises.OneOfAHundred | backend/app/ai/engines/pci_engine.py:92-94 | on a hundred images 99.65, where alone it stores 65 |
| Surprises.TypesKnown | infrastructure/postgres/init/02_seed_data.sql:10-18 | the seeded weights are valid, with those of the two types used |
| Words.SplitWords | backend/app/ai/rag/chunking.py:26 | `split()` returns non-empty words without whitespace |
| Words.SplitJoin | backend/app/ai/rag/chunking.py:38 | splitting undoes `" ".join` on any list of words |
| Words.SplitAtSpace | backend/app/ai/rag/chunking.py:26 | any whitespace character separates: splitting a text at one splits both sides |
| Words.SplitWord | backend/app/ai/rag/chunking.py:26 | a word is split into itself |
| Words.JoinParts | backend/app/ai/rag/chunking.py:38 | joined parts are separated by exactly one space |
| Chunking.TagWords | backend/app/ai/rag/chunking.py:24-26 | the loop over the pages lists all words with their page, counted from 1 |
| Chunking.TaggedShape | backend/app/ai/rag/chunking.py:24-26 | those are words, with pages in range and never going back |
| Chunking.PageExactly | backend/app/ai/rag/chunking.py:25-26 | a word is tagged with page p if and only if it stands on page p: the pages before hold no more words than come before it, those up to p more |
| Chunking.ChunkPages | backend/app/ai/rag/chunking.py:20-48 | the `while` loop with its early exit returns the recursive list of windows, or the error of the guard or of an empty window; it ends by its condition only for a negative overlap |
| ChunkLaws.ChunksAreWindows | backend/app/ai/rag/chunking.py:34-47 | for 0 ≤ overlap < size the chunks are exactly the windows k · step to min(k · step + size, words), and their number is 1 + max(0, ⌈(words − size)/step⌉) |
| ChunkLaws.LastWindow | backend/app/ai/rag/chunking.py:45-46 | the early exit happens exactly at the last counted window |
| ChunkLaws.NoWordsNoChunks | backend/app/ai/rag/chunking.py:27-28 | a document without words gives no chunks |
| ChunkLaws.WindowSizes | backend/app/ai/rag/chunking.py:34-47 | all windows but the last are full, and each later one brings a new word |
| ChunkLaws.WindowOverlap | backend/app/ai/rag/chunking.py:31-47 | consecutive windows share exactly the overlap |
| ChunkLaws.WordSpread | backend/app/ai/rag/chunking.py:31-47 | no word is in more than ⌈size/step⌉ chunks |
| ChunkLaws.WindowPages | backend/app/ai/rag/chunking.py:40-41 | a chunk's pages lie in the document, cover all its words, and never go back from chunk to chunk |
| ChunkLaws.ChunkPagesExactly | backend/app/ai/rag/chunking.py:34-42 | on the returned chunks, page_start is the page the first word stands on and page_end the page the last word stands on |
| ChunkLaws.ChunkFacts | backend/app/ai/rag/chunking.py:20-48 | count, indices, pages and exact overlap, read off the returned chunk texts |
| ChunkLaws.NothingLost | backend/app/ai/rag/chunking.py:20-48 | the words of the first chunk, then of each later one after the overlap, are the words of all pages in order |
| ChunkLaws.NothingLostExactly | backend/app/ai/rag/chunking.py:21-22 | for every size and overlap the guard accepts, the document can be rebuilt so if and only if the overlap is not negative, or everything fits one window, or there are no words |
| ChunkLaws.ZeroSizeFails | backend/app/ai/rag/chunking.py:21-41 | a size of 0 with a negative overlap passes the guard and fails on any document with words |
| ChunkLaws.GapLosesWord | backend/app/ai/rag/chunking.py:21-47 | three words cut with size 1 and overlap -1: the chunks hold the first and the third |
| InspectionStore.BeforeUpdate | infrastructure/postgres/init/01_schema_v4.2.sql:647-666 | the two triggers leave the row as it was, exactly when nothing but possibly the time differs, or the proposed row stamped and one version on |
| InspectionStore.VersionCounts | infrastructure/postgres/init/01_schema_v4.2.sql:717-753 | an update raises the version by exactly one when it changes the row and by nothing when it does not |
| InspectionStore.ChangeColumns | backend/app/services/inspection_service.py:85-97 | an update leaves in each column the value it sends, the old one in every column it does not send, and stamps and counts exactly when a column changed |
| InspectionStore.Store.constructor | infrastructure/postgres/init/01_schema_v4.2.sql:285-454 | an empty database |
| InspectionStore.Store.Create | backend/app/services/inspection_service.py:53-67 | a new row EN_ATTENTE with version 1, nothing else changed |
| InspectionStore.Store.GetOr404 | backend/app/repositories/base.py:29-45 | the row, or 404 exactly when it is missing or soft-deleted |
| InspectionStore.Store.Write | backend/app/repositories/base.py:71-76 | an update of one row goes through its triggers and changes nothing else |
| InspectionStore.Store.UpdateWithVersion | backend/app/repositories/base.py:67-82 | the compare-and-set: written exactly when the version matches, else 409 and no change |
| InspectionStore.Store.SoftDelete | backend/app/services/inspection_service.py:99-107 | marks a visible row deleted, 404 otherwise; afterwards the row is not visible |
| InspectionStore.Store.Update | backend/app/services/inspection_service.py:81-97 | a PATCH: 404, 409, a no-op for an empty body, or the versioned write; returns the row as stored |
| InspectionStore.Store.Upload | backend/app/services/inspection_service.py:119-170 | adds one image to a visible inspection, 404 otherwise |
| InspectionStore.Store.CheckRequest | backend/app/services/inspection_service.py:177-190 | accepts exactly a visible inspection with images in EN_ATTENTE or ERREUR and returns its row; otherwise 404 before the images before the status |
| InspectionStore.Store.RequestAnalysis | backend/app/services/inspection_service.py:176-202 | accepted exactly when the checks pass, and then the row is EN_COURS; otherwise nothing changes |
| InspectionStore.Store.CommitAnalysis | backend/app/workers/analysis_worker.py:103-180 | all deletes, inserts and the status together, or nothing at all when a unique constraint objects |
| InspectionStore.Store.RunAnalysis | backend/app/workers/analysis_worker.py:61-180 | the worker's program: nothing for a missing row, ERREUR alone after any failure, else the analysis and TERMINEE |
| InspectionStore.InsertedRows | backend/app/workers/analysis_worker.py:125-137 | inserting under consecutive fresh ids adds exactly those rows |
| Lifecycle.InvInitially | infrastructure/postgres/init/01_schema_v4.2.sql:285-454 | the empty database satisfies the invariant |
| Lifecycle.GrantKeeps | backend/app/services/inspection_service.py:185-202 | granting a request keeps the invariant: no run was live, one now is |
| Lifecycle.EndRequestKeeps | backend/app/services/inspection_service.py:193-202 | a compare-and-set that finds the version it read finds an idle inspection with images, so the grant is safe |
| Lifecycle.StartKeeps | backend/app/workers/analysis_worker.py:85-95 | an accepted run finds its images and a row EN_COURS |
| Lifecycle.ClearKeeps | backend/app/workers/analysis_worker.py:103-111 | the deletes of a granted run keep the invariant |
| Lifecycle.NothingToDrop | backend/app/workers/analysis_worker.py:103-111 | while a run is live the deletes find nothing to delete |
| Lifecycle.NeverBreaksUnique | infrastructure/postgres/init/01_schema_v4.2.sql:361 | in a reachable state the inserts of a run meet no unique constraint |
| Lifecycle.CommitKeeps | backend/app/workers/analysis_worker.py:152-180 | the commit leaves one score, one summary and its counted detections, and frees the inspection |
| Lifecycle.ErrorKeeps | backend/app/workers/analysis_worker.py:69-75 | the error path leaves no results and frees the inspection |
| Lifecycle.UploadKeeps | backend/app/services/inspection_service.py:161-170 | an upload keeps the invariant, even during a run |
| Lifecycle.StepKeeps | backend/app/services/inspection_service.py:81-202 | every step of any call or run keeps the invariant |
| Lifecycle.StepsKeep | backend/app/services/inspection_service.py:81-202 | so does every interleaving of any length |
| LifecycleLaws.StatusRunsAndResults | backend/app/workers/analysis_worker.py:61-180 | in every reachable state an inspection has at most one live run, exactly while EN_COURS; one agreeing score and summary with its counted detections exactly when TERMINEE, and no result row otherwise |
| LifecycleLaws.RunsNeverFindNothing | backend/app/workers/analysis_worker.py:94-95 | the "No images" error is unreachable after acceptance |
| LifecycleLaws.RowAfter | backend/app/repositories/base.py:71-76 | each step changes a row by its one update or not at all |
| LifecycleLaws.RowIsFold | backend/app/repositories/base.py:67-82 | no lost update: a row is the fold of its effective writes in commit order, and the version counts them |
| LifecycleLaws.DetailsAreLastSent | backend/app/services/inspection_service.py:85-97 | along any history the weather and the notes are those of the last accepted PATCH that sent them, else the initial ones |
| LifecycleLaws.VersionIdentifiesRow | infrastructure/postgres/init/01_schema_v4.2.sql:658-666 | along any history equal versions mean the same row |
| LifecycleLaws.OneWritePerVersion | infrastructure/postgres/init/01_schema_v4.2.sql:658-666 | after a row-changing write the version it matched never comes back |
| LifecycleLaws.DeletedStays | backend/app/repositories/base.py:84-90 | a deleted inspection stays deleted along every run |
| LifecycleLaws.OneWinner | backend/app/services/inspection_service.py:191-195 | after one request is granted, every other that read the same version is refused, whatever happens in between |
| LifecycleLaws.FirstWriterWins | backend/app/services/inspection_service.py:193-202 | a request is granted if and only if its row is still the one its checks have read; then it is queued, otherwise nothing changes |
| LifecycleLaws.OneGrantPerVersion | backend/app/services/inspection_service.py:191-195 | over any run: at most one request is granted per inspection and version, and one is exactly when the first write that changes the row at that version is a request's |
| LifecycleLaws.WhoWrites | backend/app/services/inspection_service.py:81-202 | only a grant and the last write of a run change a status, only a PATCH the details, only a delete the deletion mark |
| LifecycleLaws.PatchMeetsWhatItRead | backend/app/services/inspection_service.py:84-88 | a PATCH sending the version its check read is written exactly when the row is still the one read, and never onto a deleted row |
| LifecycleLaws.PatchOfDeletedRow | backend/app/repositories/base.py:71-75 | in every sound state, a waiting PATCH whose write would match a deleted row sends a version above the one read |
| LifecycleLaws.LandsOnDeletedExactly | backend/app/repositories/base.py:71-75 | for a PATCH that has just read its row, some continuation makes its write match a deleted row if and only if it sends a version above the one read |
| LifecycleLaws.DeletedRowPatched | backend/app/repositories/base.py:71-75 | a run from the empty database in which a waiting PATCH comes to write onto a deleted inspection |
| AnalysisRun.RunReplaces | backend/app/workers/analysis_worker.py:103-180 | whatever was stored before, a run leaves exactly the results of its own analysis and touches no other inspection |
| AnalysisRun.RerunChangesNothing | backend/app/workers/analysis_worker.py:103-111 | running again, on the images in any order, stores the same score, summary and detections and leaves every row and version alone |
| AnalysisRun.AloneIsSequential | backend/app/workers/analysis_worker.py:61-180 | the interleaved steps of a run that nothing disturbs are exactly the sequential program, on success and on every failure |
| AnalysisRun.RequestedAndDecided | backend/app/services/inspection_service.py:176-202 | from any reachable state an accepted, undisturbed request ends TERMINEE, two versions on, with exactly its analysis stored and a seeded decision |
| AnalysisRun.RunCanEnd | backend/app/workers/analysis_worker.py:61-180 | from every sound state, a live run at any stage can reach its last write and free its inspection: TERMINEE with any confident model, ERREUR once it has failed |
| ServiceRun.CreateAlone | backend/app/services/inspection_service.py:53-67 | the step of a creation adds exactly the row `Create` adds |
| ServiceRun.UploadAlone | backend/app/services/inspection_service.py:119-170 | the undisturbed steps of an upload do what `Upload` does: the image belongs to its inspection and nothing else changes, or 404 |
| ServiceRun.PatchAlone | backend/app/services/inspection_service.py:81-97 | the undisturbed steps of a PATCH do what `Update` does, in each of its four outcomes |
| ServiceRun.DeleteAlone | backend/app/services/inspection_service.py:99-107 | the undisturbed steps of a delete do what `SoftDelete` does |
| ServiceRun.RequestAlone | backend/app/services/inspection_service.py:176-202 | the undisturbed steps of a request do what `RequestAnalysis` does, and queue the run |
| ServiceRun.AbandonLeaves | backend/app/repositories/base.py:67-82 | a call given up removes itself and nothing else |
| ServiceRun.WholeLife | backend/app/workers/analysis_worker.py:61-180 | from an empty database, create, upload, request, start, clear and commit is a run; it ends TERMINEE at version 3 with one score, one summary and the detections it counts |
| ModelRegistry.PathRoundTrip | backend/app/ai/detection/model_registry.py:147-151 | `partition` and `rsplit` recover from the stored path the two objects `register` wrote, for a bucket without a slash |
| ModelRegistry.StoredPath | backend/app/ai/detection/model_registry.py:59-77 | the path and the two object names of one model, written out |
| ModelRegistry.KeysShared | backend/app/ai/detection/model_registry.py:59-72 | two models share their weights object, and their configuration, exactly when they share the prefix; weights are never a configuration |
| ModelRegistry.KeysApart | backend/app/ai/detection/model_registry.py:59-72 | with slash-free names, objects of different models never coincide |
| ModelRegistry.CollidesExactly | backend/app/ai/detection/model_registry.py:59-64 | a pair shares its prefix with some other pair if and only if its name or its version contains a slash |
| ModelRegistry.AcceptableCollidesExactly | backend/app/api/v1/endpoints/models.py:42-43 | among the pairs the form accepts: if and only if another slash of the joined path leaves a name of 3 to 200 and a version of 1 to 50 characters |
| ModelRegistry.SlashedNamesCollide | backend/app/ai/detection/model_registry.py:59-72 | two pairs the form accepts, under one set of objects |
| ModelRegistry.Registry.constructor | backend/app/ai/detection/model_registry.py:30-35 | an empty registry over one bucket |
| ModelRegistry.Registry.Register | backend/app/ai/detection/model_registry.py:38-95 | refuses a known pair without a write, else stores both objects and a STAGING row |
| ModelRegistry.Registry.Promote | backend/app/ai/detection/model_registry.py:98-132 | 404, 409, or every active row retired and the successor in PRODUCTION, nothing else changed |
| ModelRegistry.LoadsAtKeys | backend/app/ai/detection/model_registry.py:143-155 | for a path `register` built, loading answers the objects under that model's two keys, an empty mapping without a readable configuration, and an error without weights |
| ModelRegistry.Registry.LoadArtifacts | backend/app/ai/detection/model_registry.py:143-155 | for a model with the path `register` built, returns exactly the objects held for its name and version; an error without path or weights, an empty mapping without configuration |
| ModelRegistry.DetectorCache.constructor | backend/app/workers/analysis_worker.py:43 | nothing cached, no weights file on disk |
| ModelRegistry.DetectorCache.Get | backend/app/workers/analysis_worker.py:54-58 | a hit returns the entry and changes nothing; a miss builds one from the file on disk or the fetched weights; a failed fetch leaves no entry |
| RegistryProtocol.CommitCrowns | backend/app/ai/detection/model_registry.py:107-129 | the commit of a promotion leaves exactly its model active, the others that were active DEPRECATED, and names, versions and paths alone |
| RegistryProtocol.CrownKeeps | infrastructure/postgres/init/01_schema_v4.2.sql:969 | under the partial unique index two promotions never both pass the crowning |
| RegistryProtocol.PromotionStep | backend/app/ai/detection/model_registry.py:98-132 | every step keeps one active model at most; only a commit moves the crown, and an abort changes no row |
| RegistryProtocol.SingleProduction | backend/app/ai/detection/model_registry.py:98-132 | over all interleavings at most one model is active, active is PRODUCTION, and from the first committed promotion exactly one is |
| CacheCoherence.LoadsLastPuts | backend/app/ai/detection/model_registry.py:58-81 | over every run, a model loads the weights and the mapping last put under its prefix, and so what it was registered with if and only if those are equal |
| CacheCoherence.PutSpoilsExactly | backend/app/ai/detection/model_registry.py:60-72 | with slash-free names a put spoils a model if and only if it is for the same pair and brings other bytes |
| CacheCoherence.HarmlessExactly | backend/app/ai/detection/model_registry.py:48-83 | one step leaves every model loading what it was registered with if and only if it is harmless |
| CacheCoherence.IntactExactly | backend/app/ai/detection/model_registry.py:48-83 | over every run, all models load what they were registered with all the time if and only if every step is harmless |
| CacheCoherence.OrderlyHarmless | backend/app/ai/detection/model_registry.py:38-95 | registrations with slash-free names that are alone with their pair are harmless |
| CacheCoherence.CacheExactly | backend/app/workers/analysis_worker.py:54-58 | over every run: the weights of a cached detector are the registered ones if and only if the first load found them stored, its mapping is if and only if the filling load read the registered one or could read none and there was none, and the detector is the registered one if and only if both; in harmless runs, if and only if the filling load could read the configuration or the mapping was empty |
| CacheCoherence.AsGivenByPuts | backend/app/ai/detection/model_registry.py:58-81 | what a load finds stored is what was registered if and only if the last puts under the prefix before it were |
| CacheCoherence.CacheAgrees | backend/app/workers/analysis_worker.py:47-58 | what CacheExactly comes to in runs without slashes in names and without overlapping registrations of one pair: every model loads as registered, and a cached detector is that one if and only if its filling load could read the configuration or the mapping was empty |
| CacheCoherence.EntryStaysAlong | backend/app/workers/analysis_worker.py:54-58 | an entry of the cache is never replaced while the process lives |
| CacheCoherence.FailedReadStays | backend/app/ai/detection/model_registry.py:150-154 | in every well-formed state, a failed read of the configuration on a miss leaves a detector with an empty mapping, and the weights on disk or stored, until restart |
| CacheCoherence.LoserOverwrites | backend/app/ai/detection/model_registry.py:48-72 | a run in which the refused one of two overlapping registrations replaces the other's weights, and the next load caches a detector with them |
| RegistryRun.RegisterAlone | backend/app/ai/detection/model_registry.py:38-95 | the steps of a registration that nothing disturbs do exactly what the sequential `Register` does |
| RegistryRun.PromoteAlone | backend/app/ai/detection/model_registry.py:98-132 | the steps of a promotion with no other open do exactly what the sequential `Promote` does |
| RegistryRun.RetiresActive | backend/app/ai/detection/model_registry.py:109-117 | an update that waited retires, of the rows it had seen active, exactly those that still are |
| RegistryRun.AbortLeaves | backend/app/ai/detection/model_registry.py:98-132 | an aborted promotion or registration is gone and everything else is as it was |
| RegistryRun.LoadIsGet | backend/app/workers/analysis_worker.py:54-58 | a load does to cache and disk exactly what `Get` does on what `load_artifacts` answers, and nothing else |
| RegistryRun.FailedReadHappens | backend/app/ai/detection/model_registry.py:150-154 | a run from an empty registry in which the first load cannot read the configuration and caches a detector without the registered mapping |

## Left out

- IEEE floating point: the scoring chain is over exact reals, with both roundings as explicit functions.
- YOLO inference, Pillow and the class-name table: a box arrives with its code resolved, and the model is an arbitrary function from an image to its boxes.
- Justification texts and JSON parsing of rules: a condition or action is unreadable or a record of optional, well-typed fields, so errors from fields of the wrong type or from templates do not occur.
- CacheCoherence.CacheExactly: the configured bucket name contains no slash.
- PciAreas.LossAdds: assumes one weight per code and no image covered more than once by one type; beyond that OneMoreBox gives the exact condition for one further box.
- ChunkLaws.NothingLostExactly: for sizes below zero it does not say whether the loop fails or stores too little; both lose the document.
- InspectionStore.Store.Upload: the checks of type, size and content, the storage of the file and the sequence number are not modelled; numbers taken by concurrent uploads need not be distinct.
- InspectionStore.Store.Create: the lookup of the road section and the columns no statement writes later (author, date, section) are not modelled.
- InspectionStore.Store.RunAnalysis: processing time, temporary files and the model id of a detection row are not modelled, and every cause of failure before the engine is one case (no detector).
- Lifecycle.StepKeeps: row locks and transactions are modelled as atomic commits of a call's write; a call that is rolled back is the step Abandon, and a run that dies between its grant and its last write stays live in EN_COURS.
- LifecycleLaws.StatusRunsAndResults: runs start through `request_analysis`; a direct call of the worker on a finished inspection is covered by RunReplaces and RerunChangesNothing instead.
- The statuses ANNULEE and VALIDEE: no statement of the backend shown writes them.
- RegistryProtocol.SingleProduction: PostgreSQL's locks appear as the conditions under which a step may proceed; deadlock detection is one of the reasons for an abort.
- Timestamps other than `updated_at`, audit rows, notifications and logging: no property depends on them.
- HTTP routing, schemas, authentication, dashboards, reports, retrieval and language-model narration: plumbing and foreign code.
- The recommendation pipeline around the rule engine: its fallbacks can be read off a few branches.
