# AgentShield: verified models of the resilience core

AgentShield puts a resilience layer around a language model: a degradation chain
(primary model, fallback model, semantic cache, graceful denial), a circuit breaker
that opens on bad answers rather than on transport errors, a streaming quality gate,
kill switches that restore themselves, and an agent loop with a calculator tool and a
tool cache.  This project models those parts in Dafny and proves what they promise over
all inputs, all interleavings and all runs.

The main results, by component:

- **Calculator** (`ExprGrammar`, `ExprParser`, `ExprTheorems`, `ExprSoundness`,
  `ExprLanguage`, `ExprErrors`, `ExprMachine`).  `ExprLanguage.Exact` says exactly which
  strings the recursive-descent evaluator accepts and with which value: the spellings of
  well-formed trees - any blanks, `^` or `**`, a call left open only at the very end of
  the input - without unreadable numerals or zero divisors.  The arithmetic and the
  character tables are parameters, so this is about structure.  `ExprErrors` says which
  error is reported.  `ExprMachine.Parser` is the stateful evaluator with its cursor and
  its sticky error, proved against the functions.
- **Semantic breaker** (`BreakerModel`, `SemanticBreakers`, `BreakerProtocol`,
  `BreakerLearning`).  A class with its ring buffer, proved to refine a step function over
  the recent scores, and a protocol of concurrent callers: one probe between reports, a
  bound on outstanding probes, exactly when a caller is admitted, the exact recovery
  condition, calibration bounds and stability after calibration, and a probe that shuts
  the breaker by never reporting; and, in terms of the reported scores alone, when it
  calibrates, to which thresholds, and when it flags drift.
- **Kill switches** (`Chaos`).  All interleavings of the atomic steps of kill, restore and
  timer callbacks: one current timer per occupied slot, exactly the callbacks past their
  check survive a cancel, exactly when a flag is left on for good, exactly when a kill
  lasts its timeout; with kills and restores taking turns the flag is never continuously
  on for longer than the timeout.
- **Tool cache and agent loop** (`Lru`, `NormKeys`, `ToolCaches`, `ReactLoop`).  The map
  and recency list always hold exactly the most recently touched keys; a lookup hits
  exactly when few enough other keys were touched since; in one run of the loop a tool
  call that succeeded is not executed again.
- **Semantic cache** (`Vectors`, `CacheModel`, `SemanticCaches`).  In-place pruning of an
  aliased slice computed exactly, late embeddings only on entries they were computed for,
  exactly which entry answers a lookup, every hit traced to its store, and cosine
  similarity by Cauchy-Schwarz.
- **Scoring, streaming, degradation** (`Texts`, `Quality`, `Streaming`, `Orchestration`).
  `Orchestration` runs the chain on the evaluator, breakers and cache above, one call at a
  time.
- **Concurrent requests** (`Requests`, `SoloRequests`, `Outages`).  The locked sections of
  any number of calls, streams and background embeddings interleave.  Every answer was
  scored acceptably for its own prompt, or was so accepted and then stored for the same or
  a similar prompt, or is the denial; the breakers see only well-formed histories; a
  request that runs alone ends as `Orchestration` says; and while a probe is out the
  primary can return exactly if some request is still to report.
- **Latency percentiles** (`Ring`, `Latency`).  `Commons` and `Tiers` hold what several parts
  share.

Modelling choices: floating point becomes `real` and square root a function with
`sqrt(x) >= 0 && sqrt(x) * sqrt(x) == x`; clocks, embedders, providers and tools become
arbitrary parameters; the 64-bit timer generation is a natural number; SHA-256 keys are
compared as the prompts they are hashes of; lower-casing is that of ASCII letters.

Where the code and its comments disagree, the model follows the code:

- Pruning at a full cache also blanks the newest surviving entry, because the clean-up
  loop counts from the old start of the re-sliced array
  (`CacheModel.KeepsNewestExactly`, cache/semantic.go:202-211).
- `2+2` and `2 + 2` do not share a tool-cache key (`NormKeys.SpacedSumsDiffer`,
  agent/toolcache.go:44), and inputs over 2 KB are told apart by their first 2 KB only
  (`ReactLoop.TruncateAgrees`, agent/react.go:140).
- A probe whose call never reports keeps the breaker shut until some other report arrives
  (`BreakerProtocol.AdmittedExactly`; a run, `BreakerProtocol.AbandonedProbe`).  A stream
  admitted as the probe never reports: the primary comes back if and only if some other
  request is between its admission and its report (`Outages.ReturnsExactly`; a run,
  `Outages.StreamOutage`).
- Recovery does not clear the window: the next report is classified by the mean of a window
  that still holds the bad scores (`BreakerProtocol.ReportClassifies`), so even a perfect
  score can trip the breaker again (`BreakerProtocol.RecoveredThenTripped`).
- A killed switch does not always restore itself: a kill that overlaps a restore can leave
  its flag on without a timer (`Chaos.OverlapLeavesFlagOn`).  It restores itself if and
  only if it is not stranded (`Chaos.RestoresItselfExactly`), and it is stranded if and
  only if, with no callback past its check, a cancel found the flag on or a store found no
  timer, and neither an arming nor a restore came since (`Chaos.StrandedExactly`).
- A newer kill can be undone by a callback past its check (`Chaos.LateResetUndoesKill`).
  Exactly those callbacks survive a cancel (`Chaos.CancelDisarmsExactly`), and a kill lasts
  its full timeout if and only if it finds none of them and no older timer
  (`Chaos.KillLastsExactly`).
- A zero divisor is not always what is reported: in `(1/0*2)` it is the parenthesis
  (`ExprErrors.FactorAfterZero`).  It is, if no factor follows the quotient
  (`ExprErrors.ZeroDivisor`).
- A repeated prompt is answered with the oldest unexpired answer stored for it, not with
  the newest (`CacheModel.StoredThenFound`).
- With a similarity threshold of 0 or less a lookup invents an empty response if and only
  if no live entry has positive similarity (`CacheModel.NonPositiveThresholdInvents`).

## Model

| member | source | states |
|---|---|---|
| ExprLanguage.Exact | agent/tool.go:212-371 | A string evaluates to `v` if and only if it spells, after some blanks, a well-formed tree with readable numerals and no zero divisor whose value is `v`. |
| ExprLanguage.Complete | agent/tool.go:228-341 | Every well-formed spelling is read back as its tree: its value when meaningful, an error otherwise. |
| ExprLanguage.Sound | agent/tool.go:212-226 | Whatever is accepted is the spelling of a well-formed tree with the returned value; the tree is constructed. |
| ExprLanguage.AcceptedUpToParens | agent/tool.go:313-322 | Any accepted input becomes a sentence with every call closed, of the same value, by appending closing parentheses. |
| ExprLanguage.TreeRoundTrip | agent/tool.go:228-289 | Any spelling of an expression tree evaluates exactly when the tree has no zero divisor or unreadable numeral, and then to the tree's value. |
| ExprLanguage.WriteWf | agent/tool.go:228-289 | Writing a tree with precedence parentheses gives a well-formed spelling of that tree. |
| ExprLanguage.WriteShortest | agent/tool.go:228-308 | No other closed spelling of a tree is shorter than the one with precedence parentheses only. |
| ExprLanguage.Unambiguous | agent/tool.go:228-289 | Two readings of one string have the same value in every arithmetic. |
| ExprLanguage.DesugarText | agent/tool.go:213 | Replacing `**` by `^` in a spelling changes exactly its starred powers. |
| ExprLanguage.Restore | agent/tool.go:213 | A source text is recovered as a spelling from the spelling of its replaced text. |
| ExprErrors.FailsWith | agent/tool.go:212-371 | A well-formed text in which no quotient by zero is followed by a factor gives its value, or else the last of its own errors: an unreadable numeral, by its text, or a zero divisor. |
| ExprErrors.ZeroDivisor | agent/tool.go:258-263 | A zero divisor in an otherwise readable text is reported as such, if no other factor follows its quotient. |
| ExprErrors.FactorAfterZero | agent/tool.go:258-263 | In `(1/0*2)` the missing parenthesis is reported, as the product is given up at the zero divisor. |
| ExprTheorems.ReadExpr | agent/tool.go:228-245 | Reading a sum at any position leaves the value of its tree to the loop, whatever follows it. |
| ExprTheorems.ReadTerm | agent/tool.go:247-269 | The same for products and quotients, with the division-by-zero error. |
| ExprTheorems.ReadPower | agent/tool.go:271-280 | Powers associate to the right. |
| ExprTheorems.ReadUnary | agent/tool.go:282-289 | A sign applies to the next primary, tighter than a power. |
| ExprTheorems.ReadPrimary | agent/tool.go:291-341 | Groups, numerals and calls are read back, a call even without its closing parenthesis at the end of the input. |
| ExprSoundness.ExprFound | agent/tool.go:228-245 | An error-free sum is the text of a well-formed tree plus the text left over. |
| ExprSoundness.PrimaryFound | agent/tool.go:291-354 | The same for primaries; an open call leaves nothing that a caller could continue with. |
| ExprMachine.Evaluate | agent/tool.go:212-226 | The stateful evaluator returns what `EvalExpr` says, trailing input rejected. |
| ExprMachine.Parser.ParseExpr | agent/tool.go:228-245 | The cursor, the sticky error and the value after a sum. |
| ExprMachine.Parser.ParseTerm | agent/tool.go:247-269 | The cursor, the sticky error and the value after a product. |
| ExprMachine.Parser.ParsePower | agent/tool.go:271-280 | The cursor, the sticky error and the value after a power. |
| ExprMachine.Parser.ParseUnary | agent/tool.go:282-289 | The cursor, the sticky error and the value after a signed primary. |
| ExprMachine.Parser.ParsePrimary | agent/tool.go:291-341 | The cursor, the sticky error and the value after a primary. |
| ExprMachine.Parser.ParseGroup | agent/tool.go:297-308 | A group requires its closing parenthesis. |
| ExprMachine.Parser.ParseCall | agent/tool.go:313-340 | A call of a known function tolerates a missing closing parenthesis; anything else is an error. |
| ExprMachine.Parser.ParseNumber | agent/tool.go:343-354 | The longest run of digits and dots is read as the numeral. |
| ExprMachine.Parser.ParseName | agent/tool.go:356-365 | The longest run of letters is the name. |
| ExprMachine.Parser.SkipWS | agent/tool.go:367-371 | Exactly the blanks ahead are skipped. |
| Ring.Push | quality/breaker.go:167-171 | Overwriting a ring in rotation keeps exactly the most recent values in order. |
| Ring.SumUnroll | quality/breaker.go:366-372 | Summing the slots in array order sums the recent values. |
| BreakerModel.LearnedBounds | quality/breaker.go:200-255 | Calibration on collected samples keeps both thresholds in their bands, 0.10 apart, with the degraded one at least 0.05 below the baseline. |
| BreakerLearning.LearnsExactly | quality/breaker.go:144-255 | In every run the breaker calibrates with exactly the report that completes the required number of acceptable scores, once, on those scores: their mean, their standard deviation or 0.05 if that is larger, thresholds one and two of these below the mean, held in their bands and 0.10 apart; before that the thresholds are the configured ones. Drift is flagged exactly when at least thirty later scores average more than 0.20 away. |
| BreakerLearning.Unclamped | quality/breaker.go:202-239 | Where no floor or band applies, the square of the distance from the mean to the degraded threshold is the mean of the squares minus the squared mean, and the failing threshold is twice as far. |
| BreakerLearning.VarianceIs | quality/breaker.go:208-213 | The mean squared deviation is the mean of the squares minus the square of the mean. |
| SemanticBreakers.SemanticBreaker.constructor | quality/breaker.go:100-119 | A new breaker is healthy, uncalibrated and has no scores. |
| SemanticBreakers.SemanticBreaker.RecordScore | quality/breaker.go:131-196 | Recording steps the breaker as `BreakerModel.Record` does on the recent scores. |
| SemanticBreakers.SemanticBreaker.Learn | quality/breaker.go:144-165 | Only acceptable scores calibrate, once; afterwards drift compares the true mean of all later scores with the baseline. |
| SemanticBreakers.SemanticBreaker.CalibrateNow | quality/breaker.go:200-255 | Thresholds are those learned from mean and floored deviation of the samples. |
| SemanticBreakers.SemanticBreaker.StoreScore | quality/breaker.go:167-171 | The window becomes the last scores with the new one at the end. |
| SemanticBreakers.SemanticBreaker.UpdateState | quality/breaker.go:257-318 | State, opening time, probe flag and recovery count change as the step function says. |
| SemanticBreakers.SemanticBreaker.ShouldBlock | quality/breaker.go:325-337 | A caller is turned away exactly when the breaker is open and the timeout runs or a probe is out; otherwise it takes the semaphore. |
| SemanticBreakers.SemanticBreaker.RollingAvg | quality/breaker.go:366-372 | The average over the buffer is the mean of the recent scores, however the ring is rotated. |
| BreakerProtocol.WindowIsRecent | quality/breaker.go:167-171 | After any run the window is the last `WindowSize` reported scores. |
| BreakerProtocol.ReportClassifies | quality/breaker.go:257-291 | From any non-failing state of any run with enough samples, the next state is Failing if the mean of the recent scores is below the failing threshold, Degraded if it is between the thresholds, else Healthy. |
| BreakerProtocol.HealthyBeforeQuorum | quality/breaker.go:258-264 | Until the required number of scores is in, the breaker is Healthy. |
| BreakerProtocol.OneProbeBetweenReports | quality/breaker.go:320-337 | While failing, between two admissions there is a report. |
| BreakerProtocol.BlockedUntilReport | quality/breaker.go:325-343 | After a probe is admitted nobody else is until some report. |
| BreakerProtocol.AdmittedExactly | quality/breaker.go:325-343 | Once the timeout has passed, a caller is admitted if and only if every earlier probe has been followed by a report. |
| BreakerProtocol.Admission | quality/breaker.go:293-337 | A closed breaker admits everyone; a failing one admits a caller if and only if the timeout has passed since its last trip or bad score - not since a score between the thresholds - and every probe has been followed by a report. |
| BreakerProtocol.OpensExactly | quality/breaker.go:257-291 | Some run opens the breaker if and only if its window can hold the required number of scores. |
| BreakerProtocol.AbandonedProbe | quality/breaker.go:325-337 | After any scores that trip a new breaker, a probe that never reports keeps every later caller out, however long they keep asking. |
| BreakerProtocol.ReportReleases | quality/breaker.go:173-176 | Every report releases the probe semaphore. |
| BreakerProtocol.ProbesBounded | quality/breaker.go:173-176 | Outstanding probes never exceed one plus the late reports of callers admitted before the trip. |
| BreakerProtocol.NoEarlyProbe | quality/breaker.go:310-337 | No probe is admitted earlier than the timeout after any trip or bad score. |
| BreakerProtocol.RecoveryExact | quality/breaker.go:293-318 | The breaker leaves failing only to healthy, exactly with the report that completes the required full-quality scores since it last opened, under the thresholds then in force. |
| BreakerProtocol.RecoveredThenTripped | quality/breaker.go:298-303 | A concrete run in which a perfect score right after recovery trips the breaker again. |
| BreakerProtocol.StaysHealthy | quality/breaker.go:268-291 | A calibrated breaker that sees only scores of at least baseline minus 0.05 never blocks and never leaves healthy. |
| BreakerProtocol.RunInvariant | quality/breaker.go:131-343 | In every run: thresholds keep the calibration bounds once calibrated, a closed breaker holds no probe flag, a failing one has enough samples. |
| Chaos.OneCurrentTimer | orchestrator/chaos.go:63-93 | In every interleaving exactly the slot's own timer or callback carries the current generation, and none does when the slot is empty. |
| Chaos.CancelDisarms | orchestrator/chaos.go:70-93 | A callback overtaken by a cancel before its check never touches slot or flag, however late it runs. |
| Chaos.BoundedOutage | orchestrator/chaos.go:63-113 | With kills and restores serialised and callbacks interleaving, the flag is never continuously on for longer than the timeout plus the host's lag and delay. |
| Chaos.ServedAlways | orchestrator/chaos.go:95-113 | In every serialised run a flag that is on has something due in time that will turn it off. |
| Chaos.StrandedExactly | orchestrator/chaos.go:63-102 | Under every interleaving a flag is on with no timer or callback to turn it off if and only if a cancel found it on, or a store found no timer, with no callback past its check then, and neither an arming nor a restore came since. |
| Chaos.RestoresItselfExactly | orchestrator/chaos.go:63-102 | A flag that is on can go off without any further kill or restore if and only if it is not stranded. |
| Chaos.OverlapLeavesFlagOn | orchestrator/chaos.go:95-102 | A run of the stranding condition: a kill between the halves of a restore is left on for good. |
| Chaos.CancelDisarmsExactly | orchestrator/chaos.go:70-93 | Of the callbacks under way at a cancel, one goes on to restore if and only if it was already past its check. |
| Chaos.KillLastsExactly | orchestrator/chaos.go:63-98 | A kill keeps the flag on for the full timeout in every continuation without a restore if and only if it finds no callback past its check and no timer due earlier. |
| Chaos.LateResetUndoesKill | orchestrator/chaos.go:79-81 | A run of that condition failing: a callback past its check undoes a newer kill. |
| Chaos.KillSwitch.ScheduleAutoRestore | orchestrator/chaos.go:63-83 | Arms a timer for the current generation, or leaves the pending one and its deadline alone. |
| Chaos.KillSwitch.CancelTimer | orchestrator/chaos.go:85-93 | Stops the slot's timer, empties the slot and starts a new generation. |
| Chaos.KillSwitch.Callback | orchestrator/chaos.go:70-82 | Goes on to restore exactly when its generation is current, emptying the slot. |
| Chaos.KillSwitch.Kill | orchestrator/chaos.go:95-98 | Stores the flag, then arms. |
| Chaos.KillSwitch.Restore | orchestrator/chaos.go:99-102 | Clears the flag, then cancels. |
| Chaos.KillSwitch.ResetFlag | orchestrator/chaos.go:81 | A callback past its check clears the flag, whatever happened since. |
| Chaos.KillSwitch.Perform | orchestrator/chaos.go:63-102 | Each atomic step of the switch is the step of the state machine. |
| Chaos.Interleave | orchestrator/chaos.go:63-102 | Any interleaving performed on the switch ends in the state that the theorems speak of. |
| Lru.ListsRecentKeys | agent/toolcache.go:57-102 | After any run the cache lists exactly the most recently touched keys, as many as fit, in recency order. |
| Lru.HitExactly | agent/toolcache.go:57-71 | A lookup hits if and only if the key was touched and fewer other keys than fit were touched since. |
| Lru.HitReturnsLastSet | agent/toolcache.go:76-101 | A hit returns the value of the key's last store. |
| NormKeys.KeysAgreeExactly | agent/toolcache.go:46-53 | For arbitrary texts two calls share a key if and only if their tools agree up to case and outer blanks and their inputs word by word up to case, or the separator is taken from inside a tool name. |
| NormKeys.KeysAgree | agent/toolcache.go:46-53 | For marshalled inputs, which contain no separator, only the first of these. |
| NormKeys.SameTool | agent/toolcache.go:47 | Whatever white space surrounds them, two tool names give one key exactly when they have the same letters up to case. |
| NormKeys.InputWords | agent/toolcache.go:48-51 | White space has no words, a text without any is one word in lower case, and white space between two texts, however much, separates their words. |
| NormKeys.SpacedSumsDiffer | agent/toolcache.go:44-53 | `2+2` and `2 + 2` have different keys. |
| ToolCaches.ToolCache.constructor | agent/toolcache.go:33-40 | A new cache is empty. |
| ToolCaches.ToolCache.Get | agent/toolcache.go:57-71 | Refines the simple lookup: hit flag, value, and the entry moved to the front; a disabled cache always misses. |
| ToolCaches.ToolCache.Store | agent/toolcache.go:76-102 | Refines the simple store, eviction included, map and list in agreement; a disabled cache stays as it is. |
| ToolCaches.ToolCache.EvictLast | agent/toolcache.go:92-98 | The least recently used entry leaves list and map. |
| ReactLoop.React | agent/react.go:113-195 | The loop ends within six turns, goes on exactly while replies name a tool without an answer, and every call it logs went to the tool exactly on a cache miss. |
| ReactLoop.UseTool | agent/react.go:136-170 | One tool call uses the cache if it can and stores successful results only. |
| ReactLoop.LoopExecutesOnce | agent/react.go:143-170 | With at least six entries, a call is executed if and only if no earlier call with its key succeeded, and repeats observe the same result. |
| ReactLoop.OncePerKey | agent/react.go:143-170 | The same for any cache with room for the keys of the run so far. |
| ReactLoop.TruncateAgrees | agent/react.go:295-300 | Two inputs are identified if and only if they are equal or agree on their first 2 KB and are both longer. |
| ReactLoop.LongInputsShareKey | agent/react.go:140 | Calls of one tool share a key when their inputs are equal or agree on the first 2 KB and are both longer; short inputs without white space only if they agree up to case. |
| Vectors.CosineBounded | cache/semantic.go:214-229 | Cosine similarity is between -1 and 1 for all vectors. |
| Vectors.CosineSymmetric | cache/semantic.go:214-229 | Cosine similarity is symmetric. |
| Vectors.CosineSelf | cache/semantic.go:214-229 | A vector has similarity 1 to itself unless it is all zeros, then 0. |
| Vectors.CosineLaw | cache/semantic.go:214-229 | The similarity times the lengths of both vectors is the sum of the products of their coordinates; with a vector of zeros it is 0. |
| Vectors.CosineSimilarity | quality/internal.go:13-28 | The accumulation loop computes the cosine of the two vectors. |
| CacheModel.PrunedBelowCap | cache/semantic.go:192-199 | Below the cap pruning is the order-preserving filter of live entries. |
| CacheModel.PrunedFull | cache/semantic.go:202-211 | At a full cache of live entries pruning yields the entries after the first with the last one blanked. |
| CacheModel.KeepsNewestExactly | cache/semantic.go:200-211 | Pruning keeps the newest live entries if and only if nothing has to be evicted or nothing may be kept. |
| CacheModel.PrunedExactly | cache/semantic.go:192-211 | Pruning in full: which live entry, or a blank, is at each place. |
| CacheModel.LiveOnlyConcat | cache/semantic.go:192-199 | The filter works entry by entry in order, keeping exactly the unexpired. |
| CacheModel.NeverOverCap | cache/semantic.go:143-148 | After every event of every run there are at most `maxEntries` slots. |
| CacheModel.EntriesAuthentic | cache/semantic.go:135-181 | In every interleaving of stores and finishing embeddings each entry is a stored response or blanked, and an embedding sits only on an entry with the prompt and expiry it was computed for. |
| CacheModel.Target | cache/semantic.go:167-179 | A finished embedding goes to a matching entry whenever there is one. |
| CacheModel.AttachedExactly | cache/semantic.go:167-179 | A finished embedding changes the embedding of one matching entry only: of the remembered one if it matches, else of the first. |
| CacheModel.FoundExactly | cache/semantic.go:87-127 | With a positive threshold a lookup returns the response of the first of the most similar live entries if these reach the threshold, else of the first live entry with the same prompt, else nothing. |
| CacheModel.StoredThenFound | cache/semantic.go:115-148 | Without an embedder a prompt just stored is found until it expires; the stored response is returned exactly when no other, older unexpired one for the prompt survived pruning. |
| CacheModel.FreshThenFound | cache/semantic.go:115-148 | In particular when nothing unexpired was stored for the prompt before. |
| CacheModel.NonPositiveThresholdInvents | cache/semantic.go:98-111 | With a threshold of 0 or less every embedded lookup hits, with the first of the closest live entries if some live entry has positive similarity, and otherwise with an empty response. |
| CacheModel.HitTracesToStore | cache/semantic.go:87-181 | After any interleaving of stores and finishing embeddings a hit returns the response of a store unexpired at the lookup, made for the same prompt or for one with a similar enough embedding. |
| CacheModel.RepeatHits | cache/semantic.go:96-112 | A prompt whose own non-zero embedding is on a live entry hits for every threshold up to 1, with an entry of similarity 1. |
| SemanticCaches.SemanticCache.Prune | cache/semantic.go:192-212 | Filtering in place, re-slicing and blanking over the shared array computes `Pruned`. |
| SemanticCaches.SemanticCache.Append | cache/semantic.go:145 | Appending keeps the entries and adds one, in place or in a larger array. |
| SemanticCaches.SemanticCache.Set | cache/semantic.go:135-148 | Storing prunes by a second reading of the clock, appends with an expiry by the first, and stays within the cap. |
| SemanticCaches.SemanticCache.FinishEmbedding | cache/semantic.go:165-179 | A finished embedding is attached at its remembered index if that still matches, else at the first match, else nowhere. |
| SemanticCaches.SemanticCache.Get | cache/semantic.go:87-127 | The two search loops compute `Found`. |
| Quality.RefusalMarkerScore | quality/evaluator.go:239-254 | The marker loop computes the refusal score. |
| Quality.RefusalMeansTwo | quality/evaluator.go:239-254 | The refusal score is below one half if and only if at least two phrases occur. |
| Quality.RefusalPersists | quality/evaluator.go:239-254 | Text that scores below one half goes on doing so as it grows. |
| Quality.MeasureRepetition | quality/evaluator.go:136-167 | Counting duplicates through the map gives the share of trigrams that repeat an earlier one, whatever the iteration order. |
| Quality.RepetitionCharged | quality/evaluator.go:76-81 | Fewer than six words, or less than 15 percent repeated runs of three, are not charged; more than 60 percent cost 0.45; in between it is the share less 0.15. |
| Quality.VariedUncharged | quality/evaluator.go:136-160 | A text whose runs of three words all differ is not charged for repetition. |
| Quality.RepeatsLowerScore | quality/evaluator.go:157-166 | Of texts with equally many runs of three, more repeats never score higher. |
| Quality.SameTrigram | quality/evaluator.go:144-148 | Two runs of three words count as the same exactly when they are the same words. |
| Quality.LengthCharged | quality/evaluator.go:83-96 | Under ten bytes cost 0.25; otherwise nothing without recorded lengths or from 35 percent of their mean, 0.25 below 10 percent, and in between what is missing to 35 percent. |
| Quality.RefusalCharged | quality/evaluator.go:98-106 | One refusal phrase costs 0.14, two cost 0.28, three or more 0.40. |
| Quality.CoherenceCharged | quality/evaluator.go:256-315 | Nothing where it cannot be measured, 0.20 below a similarity of 0.20, above that the shortfall from 0.55 as a share of 0.20; a response that starts elsewhere keeps 85 percent. |
| Quality.FirstSentenceIs | quality/evaluator.go:317-328 | The first sentence is the text up to the first stop that leaves at least ten bytes, trimmed, or the whole text. |
| Quality.LanguageCharged | quality/evaluator.go:330-350 | A response in another script costs 0.30 for a mostly ASCII prompt and 0.15 the other way round; texts under twenty bytes are not compared. |
| Quality.ScoreLeft | quality/evaluator.go:67-131 | The score is what the five penalties leave of 1, and never below 0. |
| Quality.SignalBounds | quality/evaluator.go:136-350 | Every sub-score lies between 0 and 1. |
| Quality.RejectedMeansTwoSignals | orchestrator/orchestrator.go:339-342 | A score below 0.45 implies at least two signals, so the extra test for signals is redundant. |
| Quality.Evaluator.Evaluate | quality/evaluator.go:67-131 | The score is one minus the penalties of exactly the signals that fired, floored at 0, within [0, 1]; the length history takes non-empty responses only. |
| Quality.PenaltiesWeighted | quality/evaluator.go:67-131 | The penalties of the signals that fire add up to the weighted shortfalls of all five sub-scores. |
| Quality.RefusalFails | quality/evaluator.go:67-131 | A response with two refusal phrases in another script than the prompt scores at most 0.42 under every history, embedder and tokenizer. |
| Quality.BaselineIsRecent | quality/evaluator.go:92-96 | After any responses the length history is that of the last twenty non-empty ones. |
| Quality.Evaluator.RecordLength | quality/evaluator.go:190-198 | The history becomes the last twenty lengths. |
| Quality.Evaluator.AvgLength | quality/evaluator.go:200-213 | The baseline is the mean of the length history, 0 without one. |
| Streaming.TripsIffLastCheck | orchestrator/stream.go:59-73 | Checking at 30, 60, 90 and 120 tokens trips if and only if one check at the last checkpoint reached would. |
| Streaming.TripsAt | orchestrator/stream.go:59-66 | The gate trips at the first of 30, 60, 90 and 120 tokens where two different refusal phrases have been seen, and nowhere else. |
| Streaming.StreamPrimary | orchestrator/stream.go:59-96 | The gated loop sends, as far as the client stays, all primary tokens, or those before the one that completes the first failing checkpoint and then a switch event. |
| Streaming.Stream | orchestrator/stream.go:31-108 | A client that stays receives: the fallback's tokens if the primary is not used; the primary's if it neither trips nor fails; the primary's and then the fallback's if it fails; the primary's before the trip, the switch and the fallback's if it trips. One that leaves receives as much of it as it took. The tier is the one being served then. |
| Streaming.EventsStreamed | orchestrator/stream.go:31-108 | The event sequence and the tier are those, case by case. |
| Streaming.StreamWithGate | orchestrator/stream.go:31-108 | The primary is used exactly when it is not killed, not turned away by its breaker and its transport is closed; the breaker is asked unless killed, and never told. |
| Orchestration.TryModel | orchestrator/orchestrator.go:268-407 | A model tier's text is served exactly when it is not killed, not blocked, arrived and its evaluation for this prompt is acceptable; breaker and length history take arrived texts only; one trace step with outcome and score is added. |
| Orchestration.FirstTierAnswers | orchestrator/orchestrator.go:112-248 | The first of primary, fallback and cache that can serve answers: a model that is not killed, not turned away, whose text arrives and scores at least 0.45 for the prompt; only when none can is the call denied, with the fixed text. |
| Orchestration.BreakerTold | orchestrator/orchestrator.go:280-326 | A tier's breaker is asked unless the tier is killed, and told exactly of texts that arrived, with their score. |
| Orchestration.FallbackTold | orchestrator/orchestrator.go:112-190 | The fallback's breaker and the lengths are left alone exactly when the primary serves. |
| Orchestration.TrailNames | orchestrator/orchestrator.go:112-248 | The trace has one step for each tier tried, in order, with its outcome and score, the last one of the tier returned. |
| Orchestration.Orchestrator.Degrade | orchestrator/orchestrator.go:112-248 | The text, the tier, the trace, both breakers, the length history, the cache - a model's answer is stored, nothing else changes it - and one cost record of the tier; over any number of calls each model text has a score of at least 0.45, which is that of the logged text for the logged prompt against the texts evaluated before, and each cached text was so accepted earlier. |
| Orchestration.Orchestrator.ServeModel | orchestrator/orchestrator.go:121-190 | An accepted text becomes the last cache entry, after pruning, and is accounted for; otherwise log, costs and cache stay as they are. |
| Orchestration.ServeThenRepeat | orchestrator/orchestrator.go:135-214 | A call that a model serves and the same prompt again before the entry expires, with both tiers killed and no embedder: the cache answers, with the same text unless it held an older unexpired answer to the prompt. |
| Orchestration.Orchestrator.FinishEmbedding | cache/semantic.go:156-180 | A background embedding between calls is attached to its entry and keeps the run safe. |
| Orchestration.FoundSupplied | orchestrator/orchestrator.go:192-214 | A cache hit returns a text that a model tier served before with an acceptable score. |
| Requests.AnswersJustified | orchestrator/orchestrator.go:112-407 | In every interleaving of requests, streams and embeddings each answer is an acceptably scored text for the request's own prompt; a cached text that was so accepted, stored for the same prompt or for one with a similar enough embedding, and unexpired at the search; or the denial. |
| Requests.HistoriesWellFormed | orchestrator/orchestrator.go:280-344 | In every interleaving only admitted requests report to a breaker, each at most once, so outstanding probes stay bounded. |
| Requests.OneRecordEach | orchestrator/orchestrator.go:136-236 | In every interleaving an answered request has exactly one cost record, of the tier that answered, and no other request has one except one that is about to answer. |
| Requests.AnswersStay | orchestrator/orchestrator.go:112-248 | An answer, once given, is final under every continuation. |
| SoloRequests.AloneLikeDegrade | orchestrator/orchestrator.go:112-248 | From any state of the concurrent system, a request that nobody interrupts ends with the text and tier of `Orchestrator.Degrade`, leaves both breakers and the length history as it does, stores what it stores, and is charged once. |
| Outages.ReturnsExactly | quality/breaker.go:325-343 | While a probe holds the primary's breaker, some continuation admits a caller if and only if some request is between its admission and its report. |
| Outages.StreamShutsPrimary | orchestrator/stream.go:31-34 | A stream admitted as the probe while no request waits keeps every later caller from the primary, whatever happens. |
| Outages.StreamOutage | orchestrator/stream.go:31-34 | A run of concurrent requests that ends so, for every setup with a failing threshold above 0.42, the default 0.45 included. |
| Latency.PercentileHasRank | telemetry/latency.go:67-89 | A reported percentile is, in milliseconds, the sample of rank floor(n*p/100), capped at n-1, defined by counting. |
| Latency.PercentileExact | telemetry/latency.go:67-89 | With n samples, the one with n*p/100 samples before it in order, or the last, in whole milliseconds toward zero; 0 without samples. |
| Latency.PercentileRotation | telemetry/latency.go:81-88 | Ring rotation changes no percentile. |
| Latency.PercentilesOrdered | telemetry/latency.go:116-144 | Percentiles are ordered as their parameters are. |
| Latency.ReplayIsLast | telemetry/latency.go:33-46 | After any recording history the samples that count are the last hundred. |
| Latency.Tracker.Record | telemetry/latency.go:33-46 | Recording appends to one tier's recent samples and leaves the other tiers alone. |
| Latency.Tracker.PercentileOf | telemetry/latency.go:67-89 | The percentile of the tier's recent samples. |
| Latency.Tracker.TierBreakdown | telemetry/latency.go:116-144 | All three percentiles agree with the single-percentile query on one snapshot, in order. |

## Left out

- Providers, HTTP clients, mocks, benchmarks, deployment, routing, authentication, configuration and the dashboard: a provider call is an arbitrary text or error.
- The transport breaker, hedging, retry, bulkhead, load shedding and rate limiting: their source is a separate library; together with the provider they are one arbitrary outcome per attempt.
- Chaos.KillSwitch.Kill: models one of the three identical switches; the degrade switch's nil wrapper, the shared mutex between switches and `TryStart`/`Done` are not modelled.
- Chaos.BoundedOutage: assumes that kills and restores of one switch take turns; without that `Chaos.RestoresItselfExactly` and `Chaos.StrandedExactly` say what holds.
- SemanticBreakers.SemanticBreaker.RecordScore: does not model the trip-reason text, the stored last result or the state-change callback, which have no effect on results.
- ReactLoop.React: takes parsed replies and marshalled arguments as given; parsing of replies, JSON, transcript summarization, sessions and traces are not modelled, and the 2 KB limit counts characters of single-byte text.
- NormKeys.KeysAgreeExactly: case and white space are those of ASCII.
- ExprErrors.FailsWith: covers texts in which no quotient by zero is followed by a factor; other well-formed texts fail too, by `ExprLanguage.Complete`, with an error that depends on where their parentheses are, and for texts that are no sentences the error is only that of `EvalExpr`.
- Quality.Evaluator.Evaluate: takes the tokenizer and the embedder as functions; signal detail texts are not modelled.
- Streaming.Stream: does not model the reason text of the switch event.
- Orchestration.Orchestrator.Degrade: the class runs one call at a time; concurrent calls are the state machine of `Requests`, whose steps are single locked sections and which `SoloRequests.AloneLikeDegrade` ties to it.
- Knowledge-base search, clock and system-status tools, and the formatting of calculator results: library calls or easy text handling.
- Cost totals, availability scores, session memory and transcript trimming: linear sums and simple trimming that would only add easy members.
- Floating-point rounding, NaN and infinities in scores and similarities: the theorems are over the reals; the calculator's arithmetic is arbitrary.
- Metrics, tracing and logging.
