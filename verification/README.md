# A verified model of the derate control plane

This project models five parts of the control plane and proves what each of them promises.

- **The fit gate and the capacity ladder** (`Numbers`, `Contracts`, `Kv`, `Memory`, `Search`, `Nodes`, `Gate`, `Verdicts`,
  `Refusals`, `Capacity`, what their answers are in figures in `MemoryFigures` and `GateFigures`, and inputs worked through
  in `GateExamples` and `CapacityExamples`): how much memory one rank needs, the binary searches for the largest context and
  concurrency, the node-count search, the verdict with the remedies a refusal names, and the one context a ladder of
  quantizations is judged at. Amounts are exact reals, truncated where the source calls `int()`. The price table of
  quantizations is a parameter: every result holds for every table that prices the quality order (with positive prices, where
  that matters), and the worked inputs use the source's figures.
- **The deployment manager** (`Fsm`, `Store`, `Manager`, `Lifecycles`, `StartGate`, `Startup`, `Watch`): a transition system
  with one step per lock-protected region. Launch workers, ready waiters, stops, the watch, terminal sweeps, crashes and
  reconciliation interleave freely; probes, liveness answers, free ports and the clock are inputs. A crash drops memory and
  keeps the disk. The classes `DeploymentManager`, `DeploymentStore`, `Starting` and `BackendWatch` carry the same steps out
  on mutable fields, each method proved equal to its step.
- **Gateway flow control** (`Admission`, `SizedTraffic`, `CircuitBreakers`, `RetryBudgets`, `Dispatch`): the KV commitments,
  the breaker and the retry budget as mutable classes, each proved against its whole history, and the failover loop that
  composes the three while other requests act on them.
- **The multipart splice** (`Multipart`): reading one field out of a body, and writing another value in its place.
- **The scrubber** (`Redaction`): replacing remembered key material.

## What the proofs found

Each of these has an exact condition, a concrete input at which the code falls short, or both.

- *"Still short" can be wrong.* A refusal's remark on caching in fp8 keeps the fraction of a byte the gate drops. "Which
  fits" is always right; "still short" is wrong exactly when the fp8 cache lands on the last free byte and the division
  leaves a remainder (`Refusals.Fp8ClaimExact`), as for three layers, two of them windowed, on two pipeline stages
  (`GateExamples.StillShortIsWrong`).
- *A suggested quantization can be refused in its turn.* The suggestion holds every other term fixed, but an "auto" cache
  follows the new scheme, and an unknown scheme is charged two bytes an element. A scheme passes exactly when its truncated
  weights fit what the other terms leave plus what it frees in them (`Refusals.RequantizedFitsIff`), which it always does
  unless it widens the cache (`Refusals.RequantizeWorks`); a weights refusal names one that does not
  (`GateExamples.AutoCacheSuggestionFails`).
- *It need not be the first in the quality order that passes.* Requantizing shrinks a replicated vision tower too, so a
  better scheme can be overlooked (`GateExamples.VisionSuggestionNotFirst`). The suggestion is the first that passes if
  and only if it holds and none before it is overlooked (`Refusals.SuggestionFirstIff`).
- *The node count is priced with the default prefill chunk*, whatever chunk the gate was built with. It is exactly the least
  count at the budget moved by the difference (`Refusals.SplitHoldsIff`), and a gate with a chunk of 4096 tells a request it
  refuses on one rank to spread over one node (`GateExamples.NamedCountFails`).
- *The ladder and the walk agree exactly when the plan's ranks are all supplied and no better rung was passed over.* The
  context search counts bytes and not ranks, so a plan with too few names a rung and the walk refuses them all
  (`CapacityExamples.ShortOfRanks`); and a model window under 512 tokens can be held by a rung that does not hold one step of
  the search, and is skipped for a worse one (`Capacity.LadderAgreesWithWalk`, `Capacity.OwnLadderAgrees`).
- *Asking for less can lower the reported rate to zero.* If a decoded token would move no bytes at all the rate is reported
  as 0 and the verdict degrades (`Verdicts.VerdictMonoIff`, `GateExamples.IdleRequestDegrades`). Refusals are monotone without
  exception.
- *Ties for the largest runnable model.* A comment promises that active parameters break a tie
  (`control_plane/fit/capacity.py:178-181`); the code keeps the first, whichever has more of them active
  (`CapacityExamples.TieKeepsFirst`).
- *Admission charges every layer for every token, windows or not.* Traffic within a deployment's size is never refused with
  429 if and only if the budget covers that many full-context requests (`SizedTraffic.AdmitsAllIff`). What the gate sized
  meets that when no window caps the cache (`Admission.GateSizedTrafficAdmitted`), and on one rank, where nothing is rounded,
  exactly then (`SizedTraffic.CappedCacheRefuses`).
- *The gateway's fallback price of a token is the gate's own* if and only if the gateway names the cache dtype or the gate
  charges two bytes an element for it (`Admission.FallbackAgreesIff`): "uint8", and "auto" on a model in fp8 or fp32, are
  priced differently.
- *A remembered value can be in scrubbed text that did not have it* if and only if masking can put it together: it begins or
  ends with `*`, or contains `***` (`Redaction.RejoinsIff`). Every other value is gone for good. No key pattern is needed:
  for every such value of nine characters or more and every character it lacks, a redactor that also remembers eight of that
  character writes the value into some text that lacks it (`Redaction.ComesBackIff`, `Redaction.ScrubWritesItIn`). Only at
  eight characters does it depend on the set's order, which decides between values of one length.
- *A stop is sure to end a deployment if and only if at the stop's first region it was not launching, or had no url and no
  launcher of this life at work to give it one* (`Manager.StopEndsIff`). Otherwise the ready waiter can move it on while its
  teardown runs, and it is then recorded as serving (`Manager.StopLosesToReady`).
- *One engine start at a time per node holds for workers, not for engines.* Between workers the gate is exclusive
  (`StartGate.AlwaysExclusive`). Two engines start on one node if and only if a worker enters on a node of an engine that is
  still starting and whose own worker is no longer inside (`Startup.DoubledIff`). An engine comes to be that way in exactly
  two ways: a crash takes its worker, or the worker leaves because the record failed first (`Startup.OrphanedIff`). Both
  happen: after a restart (`Startup.RestartDoubles`), and in one life with no crash, when a stop comes before there is a
  cluster id to tear down (`Startup.StopDoubles`).
- *Live records never clash (`Manager.NeverClashes`), engines can.* Two engines with one name, one port, or one model on one
  node are there together if and only if a worker enters against one that is there (`Startup.ClashIff`), and then one of the
  two records is finished or gone (`Startup.ClashIsFinished`): the clash rule and the port rule read records only. A stop
  before the cluster id and the same launch again is such a run (`Startup.StopDoubles`).

## Model

| member | source | states |
|---|---|---|
| Kv.CachedTokensAreLayerSum | control_plane/fit/kv.py:71-86 | the closed form is the sum over layers of what each layer keeps: the whole context on full-attention layers, at most the window on the others |
| Kv.WindowCaps | control_plane/fit/kv.py:71-86 | a window never adds tokens, and costs nothing exactly when there is none, it covers the context, or every layer is full |
| Kv.TokenIs | control_plane/fit/kv.py:45-54 | a token takes, per layer, its keys and values, or the latent with its position part, at the price of an element |
| Kv.KvShareIsHeadsTimesLayers | control_plane/fit/kv.py:100-137 | one rank's share is whole heads, or the whole latent, on the busiest stage's part of the layers, windowed or not, whenever the degree divides or exceeds the heads |
| Kv.StageFractionRange | control_plane/fit/kv.py:127-137 | the busiest stage holds between its even share and everything |
| Kv.StageFractionAnti | control_plane/fit/kv.py:127-137 | more stages never put more of the model on the busiest one |
| Kv.KvDivisorRange | control_plane/fit/kv.py:100-124 | the divisor lies between 1 and TP x PP |
| Kv.KvCacheMono | control_plane/fit/kv.py:89-97 | the cache never shrinks as context or batch grows, sliding windows included |
| Memory.TotalMono | control_plane/fit/calculator.py:336-406 | the truncated per-rank total never falls as context or concurrency grows |
| Memory.TermsNonneg | control_plane/fit/calculator.py:336-406 | no term of the breakdown is negative |
| Memory.WiderNeverCosts | control_plane/fit/calculator.py:265-333 | beyond one rank, raising either degree never raises what a rank needs |
| MemoryFigures.WholeModel | control_plane/fit/calculator.py:265-301 | the shardable and the replicated bytes together are every parameter at its price, or the measured total unless the vision tower alone is worth more |
| MemoryFigures.RanksCarryAll | control_plane/fit/calculator.py:265-295 | the ranks' weight shares together never come to less than the shardable bytes, and to exactly that over even stages |
| MemoryFigures.ActivationSteps | control_plane/fit/calculator.py:303-319 | one more sequence costs four bytes a vocabulary entry, one more token of a chunk within the context twenty-four a hidden unit, and nothing else anything |
| MemoryFigures.BuffersAre | control_plane/fit/calculator.py:322-333 | staging is charged as soon as there is more than one rank or expert, with more for experts |
| MemoryFigures.BreakdownIs | control_plane/fit/calculator.py:336-406 | the breakdown is the whole bytes of those amounts and the total is the sum of all six |
| Search.MaxContextExact | control_plane/fit/calculator.py:781-816 | the answer is 0 only when 512 tokens do not fit; every context up to it fits; below the ceiling none from the next grid point on does |
| Search.LargestContext | control_plane/fit/calculator.py:781-816 | the binary search finds what a downward scan finds, and the guard loop after it never runs |
| Search.TrimUnverified | control_plane/fit/calculator.py:781-816 | from any starting figure the guard loop stops on the largest verified grid point below it |
| Search.MaxSeqsExact | control_plane/fit/calculator.py:749-779 | the answer is 0 only when one sequence does not fit or none may run; everything up to it fits and nothing above it, to the ceiling, does |
| Search.LargestMaxSeqs | control_plane/fit/calculator.py:749-779 | the binary search finds what a downward count finds |
| Nodes.ShardsExact | control_plane/fit/calculator.py:169-211 | exactly the pairs with tp x pp = n, tp dividing both head counts and pp at most the layers, each once, by rising tp |
| Nodes.SplitsAre | control_plane/fit/calculator.py:169-211 | a split is listed exactly when its degrees multiply to the ranks, the tensor degree divides both head counts and no stage is empty |
| Nodes.CandidateShards | control_plane/fit/calculator.py:169-211 | the enumeration loop lists those splits in that order |
| Nodes.MinNodesRequired | control_plane/fit/calculator.py:214-257 | the count returned is the least up to 64 for which some legal split fits; -1 exactly when none does |
| Gate.FirstMin | control_plane/fit/calculator.py:629-680 | the argmin is a least cost, and the first of them |
| Gate.ComputeBudget | control_plane/fit/calculator.py:629-680 | the budget loops pick the first node of least budget in force, and its own reading decides the basis; what that budget is in figures is the rows of `GateFigures` |
| Gate.RunCheck | control_plane/fit/calculator.py:442-627 | the gate with its binary searches answers as the gate defined by scans and least counts, whose answer in figures is the rows of `GateFigures` |
| GateFigures.ParticipatingAre | control_plane/fit/calculator.py:710-732 | a request is judged on the nodes its plan names, the last profile of each name, or on all when it names none of them |
| GateFigures.RanksAre | control_plane/fit/calculator.py:498-520 | every GPU is a rank, and a node counts for one at least |
| GateFigures.StaticBudget | control_plane/fit/calculator.py:648-650 | without live figures the budget is the whole bytes of addressable memory times guardrail at the node named, and no participant has less |
| GateFigures.LiveBudget | control_plane/fit/calculator.py:652-680 | with live figures it is the named node's own reading, or its guarded share where it was not read, and no participant's figure is lower |
| GateFigures.GuardrailMono | control_plane/fit/calculator.py:629-680 | a lower guardrail never turns a refusal into an acceptance |
| GateExamples.GuardrailRefuses | control_plane/contracts/hardware.py:58-59 | ninety-five billion bytes on a node of a hundred billion: refused at a guardrail of 0.9, where the budget is ninety, and not without one |
| GateFigures.RefusedInFigures | control_plane/fit/calculator.py:442-627 | a request is refused exactly when its degrees multiply to more than the ranks, its total exceeds the budget, or its context passes a positive window |
| GateFigures.SlowestIs | control_plane/fit/calculator.py:465 | the bandwidth a rate is predicted from is that of the slowest participant |
| GateFigures.RateIs | control_plane/fit/calculator.py:144-166 | the rate times the bytes a token moves is 55% of the bandwidth, or it is zero where there is nothing to move or to move it with |
| GateFigures.DegradedInFigures | control_plane/fit/calculator.py:144-166 | one that is not refused is degraded exactly when ten tokens move more than 55% of the slowest node's bandwidth, or there is nothing to move or to move it with |
| GateFigures.BlameIs | control_plane/fit/calculator.py:823-850 | a memory refusal is blamed on the weights exactly when they alone exceed the budget, else on the cache exactly when there is one and the rest fits |
| GateFigures.ReportedIs | control_plane/fit/calculator.py:106-118 | a memory refusal reports a context exactly when 512 tokens fit, and then one that fits with 512 more not fitting, short of the end of the search |
| GateFigures.SearchedAtBudget | control_plane/fit/calculator.py:852-889 | the node count is searched at the very budget the request was refused at |
| Gate.FindRemedies | control_plane/fit/calculator.py:852-1018 | the changes a refusal names, in order, for each term it is blamed on, equal those defined by the scans |
| Verdicts.RefusedIff | control_plane/fit/calculator.py:442-627 | a refusal has exactly three grounds: ranks, memory, native window |
| Verdicts.ReportedContextFits | control_plane/fit/calculator.py:106-118 | a refusal's context is none or positive, a positive one fits, and under a window refusal it passes the gate |
| Verdicts.VerdictMono | control_plane/fit/calculator.py:442-627 | smaller requests and higher live figures never turn an acceptance into a refusal, nor worsen the verdict while a token moves bytes |
| Verdicts.VerdictMonoIff | control_plane/fit/calculator.py:442-627 | the verdict is no worse if and only if a token moves bytes or one of the gate's four guards stands against the larger request |
| GateExamples.IdleRequestDegrades | control_plane/fit/calculator.py:144-166 | the excluded case exists: one token of context less degrades the verdict |
| Verdicts.WeightsRefusalIsFinal | control_plane/fit/calculator.py:823-850 | a refusal for weights stays one at every context, concurrency and cache dtype, and reports no context |
| Refusals.RemediesWork | control_plane/fit/calculator.py:852-1018 | every change a refusal names does what the gate's arithmetic makes it do: contexts, concurrency and claimed fp8 caches pass; a scheme passes exactly when it holds; a node count is the least at the moved budget |
| Refusals.DropContextWorks | control_plane/fit/calculator.py:967-1018 | the suggested context is shorter and passes |
| Refusals.ReduceConcurrencyWorks | control_plane/fit/calculator.py:967-1018 | the suggested concurrency is lower, passes, and no higher one below the request does |
| Refusals.Fp8ClaimExact | control_plane/fit/calculator.py:967-1018 | "which fits" is always right, and exactly when "still short" is wrong |
| GateExamples.StillShortIsWrong | control_plane/fit/calculator.py:967-1018 | a cache refusal of a legal plan says fp8 is still short, and the same request with an fp8 cache passes |
| Refusals.SuggestionExact | control_plane/fit/calculator.py:891-915 | the suggested scheme is smaller, its weights fit what is left, and every better smaller scheme does not |
| Refusals.RequantizedFitsIff | control_plane/fit/calculator.py:891-915 | a scheme passes exactly when its truncated weights fit what the other terms leave and what it frees in the cache and the vision weights, with no restriction on either |
| Refusals.RequantizeWorks | control_plane/fit/calculator.py:891-915 | the suggested scheme passes the gate exactly when it holds, and it holds unless it widens the cache |
| Refusals.SuggestionFirstIff | control_plane/fit/calculator.py:891-915 | the suggested scheme is the first of the quality order that passes if and only if it holds and none before it is overlooked |
| Refusals.NoSuggestionIff | control_plane/fit/calculator.py:891-915 | with no suggestion, no smaller scheme passes if and only if none is overlooked |
| Refusals.OverlookedByAFraction | control_plane/fit/calculator.py:891-915 | with no vision tower and an unchanged cache, only the dropped fraction of a byte can overlook a scheme |
| GateExamples.AutoCacheSuggestionFails | control_plane/fit/calculator.py:917-965 | at the source's prices a weights refusal names q3_k_m, and the model requantized to q3_k_m is refused |
| GateExamples.VisionSuggestionNotFirst | control_plane/fit/calculator.py:917-965 | at the source's prices a weights refusal names q4_k_m although q8_0, better and smaller than the current scheme, passes |
| Refusals.SplitHoldsIff | control_plane/fit/calculator.py:214-257 | a rank count holds a request under the gate's own chunk exactly when the search finds it at the budget less the chunks' difference |
| Refusals.SpreadWorks | control_plane/fit/calculator.py:852-889 | the count named is the least that holds at the budget moved by that difference |
| GateExamples.NamedCountFails | control_plane/fit/calculator.py:852-889 | a request refused on one rank is told to spread over one node, which does not hold it |
| Refusals.CacheRefusalOffers | control_plane/fit/calculator.py:967-1018 | a cache refusal offers a shorter context, fewer sequences and a narrower cache exactly when each exists |
| Refusals.OffersByBlame | control_plane/fit/calculator.py:852-1018 | every memory refusal names a machine; another scheme and fewer sequences exactly when there are any, but not for the cache and not for the weights |
| Capacity.RungsGoDown | control_plane/fit/capacity.py:186-213 | only schemes the ladder lists after the native one follow it, and only the native rung keeps measured weights |
| Capacity.RungsAre | control_plane/fit/capacity.py:186-213 | on a ladder that lists the native scheme once, the rungs are it and every scheme after it, in order |
| Capacity.BuildRungs | control_plane/fit/capacity.py:186-213 | the loop builds those rungs |
| Capacity.LadderFromIsBest | control_plane/fit/capacity.py:317-408 | the rung chosen is the best with a workable context, else the best that holds any |
| Capacity.LadderContext | control_plane/fit/capacity.py:317-408 | the loop returns that rung and the context derived on it |
| Capacity.DerivedIsLargest | control_plane/fit/capacity.py:216-408 | the derived context fits on its rung and is the window (8192 when unknown), or one step of 512 more does not fit, or the search ends; with no rung it is 512, which none holds |
| Capacity.Walk | control_plane/fit/capacity.py:411-484 | the walk ends on the first rung the gate does not refuse, with every better one refused |
| Capacity.LadderAgreesWithWalk | control_plane/fit/capacity.py:317-484 | for every window: the derived context stays within it, and the walk ends on the rung it was derived on if and only if ranks and native price are there and no better rung holds a window under one step |
| Capacity.OwnLadderAgrees | control_plane/fit/capacity.py:411-484 | on the walk's own rungs the native price is always there where a rung is named, so the other two decide |
| Capacity.NoRungNoWalk | control_plane/fit/capacity.py:317-484 | where no rung is named the walk refuses them all, whatever the window |
| Capacity.LargestRunnable | control_plane/fit/capacity.py:129-183 | every model is judged at its own context, and the best is the first of the largest that fit |
| CapacityExamples.ShortOfRanks | control_plane/fit/capacity.py:411-484 | a plan of two ranks on one GPU: the native rung is named, and the walk refuses every rung |
| CapacityExamples.TieKeepsFirst | control_plane/fit/capacity.py:177-183 | of two fitting models of one size the first listed is kept, whatever their active parameters |
| Multipart.FindField | control_plane/gateway/openai_api.py:118-151 | the cursor loop finds the first part naming the field, or declines |
| Multipart.ReadsWhatWasWritten | control_plane/gateway/openai_api.py:118-151 | of a body put together from parts, the span read is the value of the first part whose headers carry name="..." with that name, and nothing is read when none does |
| Multipart.ClosesIff | control_plane/gateway/openai_api.py:159-171 | for a boundary without CR a value ends its part where it should exactly when it does not contain the closing delimiter |
| Multipart.RewriteCommutes | control_plane/gateway/openai_api.py:118-171 | the rewritten field reads back as the new value; every other field, found or not, reads as before, moved by the change in length if later |
| Multipart.ReadsBackIff | control_plane/gateway/openai_api.py:118-171 | a value reads back if and only if it closes its part in the right place and is valid text |
| Multipart.RewriteUndone | control_plane/gateway/openai_api.py:159-171 | writing the old value back restores every byte |
| Redaction.Redactor.Remember | control_plane/redaction.py:107-109 | values of at least eight characters are remembered, others are not, nothing is forgotten |
| Redaction.MaskInventsNothing | control_plane/redaction.py:111-120 | a word masking cannot put together, found after masking, lay in text that was kept |
| Redaction.ReplaceRemoves | control_plane/redaction.py:111-120 | after such a value is replaced it is gone |
| Redaction.MaskBringsNothingBack | control_plane/redaction.py:111-120 | masking any stretches at all brings no such word back |
| Redaction.RejoinsIff | control_plane/redaction.py:111-120 | masking can put a word together if and only if it begins or ends with a star or contains the mask |
| Redaction.Redactor.Scrub | control_plane/redaction.py:111-120 | no remembered value outside that class is left, no word outside it is invented, clean text is unchanged, and the result is the values' passes, longest first, then the patterns' |
| Redaction.ComesBackIff | control_plane/redaction.py:111-120 | some text without a value has it after the value and then eight of a character it lacks are replaced, if and only if the value is in that class |
| Redaction.ScrubWritesItIn | control_plane/redaction.py:111-136 | a redactor that remembers the two then writes the value into such a text, and asserting that it is clean raises |
| Redaction.Redactor.AssertClean | control_plane/redaction.py:133-136 | the assertion passes exactly when no remembered value occurs |
| Redaction.ScrubThenAssert | control_plane/redaction.py:111-136 | on scrubbed text it cannot raise while no remembered value is in that class |
| RetryBudgets.RetryBudget.Trim | control_plane/gateway/budget.py:48-52 | both deques lose exactly their stamps before the window |
| RetryBudgets.RetryBudget.NoteRequest | control_plane/gateway/budget.py:54-58 | a request trims, then is counted |
| RetryBudgets.RetryBudget.TakeOne | control_plane/gateway/budget.py:60-82 | a retry is granted exactly when the trimmed window pays for one more |
| RetryBudgets.RetryBudget.Snapshot | control_plane/gateway/budget.py:84-92 | the figures shown are those of the window as of now |
| RetryBudgets.DequesAreTheWindow | control_plane/gateway/budget.py:48-82 | the deques are the history's stamps inside the window as of the last trim |
| RetryBudgets.RetriesBounded | control_plane/gateway/budget.py:60-82 | grants in any interval no longer than the window never exceed what the traffic in the window ending at the last of them pays for |
| RetryBudgets.GrantedIff | control_plane/gateway/budget.py:60-82 | over every run a retry is granted exactly when the grants in its window are fewer than the floor, or one more is within the ratio of the requests in it |
| RetryBudgets.RetriesShare | control_plane/gateway/budget.py:60-82 | the bound in figures: grants in an interval no longer than the window are within the floor or the ratio |
| RetryBudgets.RefusedIsCounted | control_plane/gateway/budget.py:60-82 | the refused counter is the number of retries refused |
| CircuitBreakers.CircuitBreaker.RecordTransportFailure | control_plane/gateway/breaker.py:62-82 | a failure's whole effect on the circuits |
| CircuitBreakers.CircuitBreaker.RecordSuccess | control_plane/gateway/breaker.py:84-94 | a success's whole effect |
| CircuitBreakers.CircuitBreaker.TryBegin | control_plane/gateway/breaker.py:121-138 | when a send is granted, and the probe it takes out |
| CircuitBreakers.CircuitBreaker.GiveBack | control_plane/gateway/breaker.py:140-145 | an abandoned probe is cleared, whoever abandons it |
| CircuitBreakers.CircuitBreaker.Drop | control_plane/gateway/breaker.py:147-154 | a forgotten target has no circuit |
| CircuitBreakers.CircuitBreaker.Keep | control_plane/gateway/breaker.py:156-159 | exactly the retained targets keep theirs |
| CircuitBreakers.CircuitIsHistory | control_plane/gateway/breaker.py:62-159 | a circuit is a function of its target's history: failures since the last success or removal, the latest of them once tripped, and the probe outstanding |
| CircuitBreakers.TrackedIff | control_plane/gateway/breaker.py:62-159 | a target has a circuit exactly when a failure came since it was last removed |
| CircuitBreakers.AnswersAreHistory | control_plane/gateway/breaker.py:96-138 | states and grants, told from the history alone |
| CircuitBreakers.NoProbeInCooldown | control_plane/gateway/breaker.py:121-138 | no grant within the cooldown of a tripped target's latest failure |
| CircuitBreakers.OneProbeAtATime | control_plane/gateway/breaker.py:121-159 | between two probes something settled the first |
| Admission.FallbackAgrees | control_plane/gateway/admission.py:57-74 | for every dtype the gateway names, its own estimator prices a token as the gate does |
| Admission.FallbackAgreesIff | control_plane/gateway/admission.py:57-74 | the two prices agree exactly on the dtypes the gateway names and on those the gate charges two bytes for |
| Admission.AdmissionController.Block | control_plane/gateway/admission.py:131-138 | one reason is added to one target |
| Admission.AdmissionController.Unblock | control_plane/gateway/admission.py:140-149 | one reason is removed from one target |
| Admission.AdmissionController.Reconcile | control_plane/gateway/admission.py:168-208 | each listed deployment ends blocked for memory exactly when one of its nodes is critical and for draining exactly when it drains; nothing else moves |
| Admission.AdmissionController.CommitBytes | control_plane/gateway/admission.py:342-343 | a commitment is added to one deployment |
| Admission.AdmissionController.ReleaseBytes | control_plane/gateway/admission.py:345-350 | a commitment is given back, and a deployment with none left has no entry |
| Admission.CommitmentsConserved | control_plane/gateway/admission.py:281-350 | over every run the commitment is the sum of outstanding grants, stays within a positive budget, and returns to zero |
| Admission.AdmissionController.Check | control_plane/gateway/admission.py:281-340 | refused for its length exactly when the client's own numbers exceed a configured context, whatever the load or the assumed completion; for the cache exactly when a positive budget does not cover it |
| Admission.NoneOverlong | control_plane/gateway/admission.py:281-345 | over every run no outstanding grant came from an ask longer than its deployment's configured context |
| Admission.OfferIs | control_plane/gateway/admission.py:281-345 | an offer is granted at its cost exactly when it is not overlong and what is held leaves room under a positive budget; otherwise nothing moves |
| Admission.CostIs | control_plane/gateway/admission.py:306-312 | the cost is the whole bytes of one rank's share, and the ranks together hold the prompt and the named or assumed completion |
| Admission.BudgetIs | control_plane/gateway/admission.py:262-265 | the budget is the whole bytes of the approved cache times the fraction |
| Admission.GateSizedTrafficAdmitted | control_plane/gateway/admission.py:267-340 | after any run, a request within the sized context is admitted while fewer than the sized number are outstanding, when no window caps the cache |
| SizedTraffic.AdmitsAllIff | control_plane/gateway/admission.py:267-340 | over every run, traffic within a deployment's size is never refused if and only if the budget covers that many full-context requests, for any shape, dtype, fraction and ranks |
| SizedTraffic.FullLoad | control_plane/gateway/admission.py:286-350 | of full-context requests offered to an idle deployment all are granted exactly when the budget covers them, each at its cost |
| SizedTraffic.CappedCacheRefuses | control_plane/gateway/admission.py:267-340 | on one rank the sized traffic is all admitted, and the sized load all granted, exactly when no window caps the cache |
| Dispatch.Dispatcher.ClaimNext | control_plane/gateway/openai_api.py:429-465 | a claim picks the first untried target, skips it exactly on the breaker's refusal and stops exactly on a missing token, giving the won claim back; nothing is picked when there is no target |
| Dispatch.Dispatcher.AttemptOn | control_plane/gateway/openai_api.py:516-708 | the open claim is ended once, by a send or a give-back; a send to a text deployment is preceded by the commitment admission priced; a request is refused exactly when it is overlong, its cache is not covered, or a raw key does not resolve; another target is tried without a send exactly when the body cannot be rewritten or the provider refuses |
| Dispatch.Dispatcher.Wait | control_plane/gateway/openai_api.py:516-708 | whatever others do to the shared services meanwhile, the log still replays to them and the discipline holds |
| Dispatch.Dispatcher.Offer | control_plane/gateway/openai_api.py:806-833 | an answer is returned if and only if some send got one that is not retryable, a refusal if and only if the request was refused, and nothing is picked after either, nor after an answer past the deadline; giving up names the last send, which was retryable; at most the configured attempts, each a new target; every claim ended, tokens equal to the claims kept after the first iteration; nothing overlong is ever committed |
| Dispatch.ClaimEndsOnce | control_plane/gateway/openai_api.py:417-833 | every claim won is followed by exactly one end |
| Dispatch.SentOnlyIfClaimed | control_plane/gateway/openai_api.py:417-833 | every send follows a grant of that target, and no target is sent to twice |
| Fsm.TerminalAbsorbs | control_plane/deploy/fsm.py:19-38 | on any lifecycle path a terminal state stays |
| Fsm.StoppedThroughStopping | control_plane/deploy/fsm.py:19-38 | stopped is reached only through stopping, and stopping never ends failed |
| Store.DeploymentStore.Save | control_plane/deploy/store.py:76-88 | a persisted state rewrites the record's file, a planned one writes nothing |
| Store.DeploymentStore.PurgeExpired | control_plane/deploy/store.py:93-122 | exactly the expired terminal records go, then the surplus; the count is what went |
| Store.DeploymentStore.PurgeSurplus | control_plane/deploy/store.py:124-161 | exactly the terminal records with `keep` newer ones go; the count is what went |
| Store.SweepKeepsNewest | control_plane/deploy/store.py:124-161 | no live record goes, at most `keep` terminal ones stay, none goes needlessly, and each kept settled later than each removed, or has the greater id |
| Store.AboveIs | control_plane/deploy/store.py:124-161 | ids of one time are ordered as the source orders strings: by the first place where they part |
| Store.PurgedIs | control_plane/deploy/store.py:93-161 | the startup purge keeps every live record, and a finished one exactly when it settled within six hours and fewer than 200 such are newer |
| Manager.PortChoice | control_plane/deploy/manager.py:1952-1980 | the port is at or past the base and taken by no live deployment, fallback included |
| Manager.RetiredOnEvidence | control_plane/deploy/manager.py:1982-2051 | a live record is retired exactly on a stranger's answer or a definite "not running"; never on not knowing |
| Manager.PurgeDropsFinishedOnly | control_plane/deploy/store.py:93-161 | the startup purge removes no live record and changes none |
| Manager.StepGood | control_plane/deploy/manager.py:443-469 | every step keeps memory and disk in agreement and the live records compatible |
| Manager.NeverClashes | control_plane/deploy/manager.py:881-927 | in every reachable state, crashes and restarts included, no two live deployments share a name, a model and a node, or a port, in memory or on disk |
| Manager.StepHistory | control_plane/deploy/manager.py:1857-1892 | a raise changes nothing; outside reconciliation only legal transitions; live records are never lost; finished ones never change |
| Manager.FinishedForever | control_plane/deploy/manager.py:881-927 | a failed or stopped deployment stays so, or is swept, across any number of restarts |
| Manager.HistoryIsLegal | control_plane/deploy/manager.py:1857-1892 | between reconciliations a deployment's states are a lifecycle path |
| Manager.StopLosesToReady | control_plane/deploy/manager.py:482-520 | from any run, a stop of a launching deployment with a url, or with a launcher still at work, can be followed by the ready waiter's transition and leave it serving |
| Manager.StopEndsIff | control_plane/deploy/manager.py:482-590 | nothing that can follow a stop, crashes and adoptions included, leaves the deployment serving if and only if at its first region it was not launching, or had no url and no launcher of this life |
| Lifecycles.Outcomes | control_plane/deploy/manager.py:1857-1892 | the state every asked-for transition leads to from every state, and exactly which raise |
| Lifecycles.StopEndStops | control_plane/deploy/manager.py:585-590 | from every run in which a deployment is recorded stopping, its stop's last region does not raise and leaves it stopped |
| Lifecycles.StopFrees | control_plane/deploy/manager.py:482-590 | a serving deployment whose stop runs undisturbed ends stopped, and its name, model, nodes and port can be launched again |
| Lifecycles.LaunchServes | control_plane/deploy/manager.py:443-1439 | a launch that is recorded, returns a url and is answered, undisturbed, serves with what it was launched with and the handle it came back with |
| Lifecycles.LaunchIff | control_plane/deploy/manager.py:1894-1944 | a launch is recorded exactly when no live deployment has its name, nor its model on one of its nodes |
| Lifecycles.PortIs | control_plane/deploy/manager.py:1952-1980 | the port is the least untaken and free one in the 200 from the first untaken, failing that the first untaken |
| Lifecycles.EvidenceIs | control_plane/deploy/manager.py:1982-2051 | which state a record comes back in, case by case: who answers on its url, then its container |
| Lifecycles.ComesBack | control_plane/deploy/manager.py:881-927 | a live deployment survives a crash: it comes back as the record it was, in the state its evidence gives, and is on disk so |
| Manager.DeploymentManager.FindConflict | control_plane/deploy/manager.py:1894-1944 | a model clash is found if any, else a name clash if any, with the deployment in the way |
| Manager.DeploymentManager.AllocatePort | control_plane/deploy/manager.py:1952-1980 | the search loop hands out the port chosen |
| Manager.DeploymentManager.StartLaunch | control_plane/deploy/manager.py:443-480 | a launch is refused exactly on a clash; else its record is launching, saved, and on its own port |
| Manager.DeploymentManager.Move | control_plane/deploy/manager.py:1857-1892 | an illegal transition raises and leaves everything; a legal one is written through and a terminal one sweeps |
| Manager.DeploymentManager.KeepHandle | control_plane/deploy/manager.py:1235-1248 | the handle and url are kept whatever the state has become |
| Manager.DeploymentManager.GiveUp | control_plane/deploy/manager.py:1170-1233 | a launch that times out at the gate or whose launcher raises leaves the record alone |
| Manager.DeploymentManager.MarkReady | control_plane/deploy/manager.py:1310-1439 | the waiter's transition, and when it raises |
| Manager.DeploymentManager.FailLaunch | control_plane/deploy/manager.py:1441-1464 | a launch fails only from launching or serving, and never raises |
| Manager.DeploymentManager.BeginStop | control_plane/deploy/manager.py:482-500 | a stop's first region leaves launching and finished deployments alone |
| Manager.DeploymentManager.AbandonLaunch | control_plane/deploy/manager.py:502-520 | the launching half fails the record only if it is still launching |
| Manager.DeploymentManager.FinishStop | control_plane/deploy/manager.py:585-590 | the stop's last transition: a stopping deployment ends stopped, without a raise |
| Manager.DeploymentManager.MarkLost | control_plane/deploy/manager.py:1795-1841 | the watch's transition, which raises when a stop got there first |
| Manager.DeploymentManager.SettleState | control_plane/deploy/manager.py:1843-1853 | ready and degraded follow the pressure, and nothing else does |
| Manager.DeploymentManager.BeginReconcile | control_plane/deploy/manager.py:881-896 | the store is purged, then listed |
| Manager.DeploymentManager.ReconcileOne | control_plane/deploy/manager.py:897-912 | one record comes back in the state its evidence gives and is saved |
| Manager.DeploymentManager.Reconcile | control_plane/deploy/manager.py:881-927 | all of them do, nothing else about them changes, and the invariants hold at the end |
| StartGate.AlwaysExclusive | control_plane/deploy/manager.py:1093-1188 | in every interleaving the held nodes are the disjoint union of those of the workers inside |
| StartGate.TimedOutHoldsNothing | control_plane/deploy/manager.py:1093-1188 | a timed-out worker took nothing, can release nothing, and was blocked by a worker inside |
| StartGate.BlockedByInside | control_plane/deploy/manager.py:1133-1140 | a blocked worker overlaps one inside, which can leave |
| StartGate.LookDecides | control_plane/deploy/manager.py:1133-1140 | a worker whose nodes are free of the workers inside enters whatever the time; a blocked one waits until its deadline and gives up at it |
| StartGate.WaiterGetsIn | control_plane/deploy/manager.py:1093-1188 | no deadlock: once workers inside leave, any given waiter gets in |
| StartGate.Starting.TryHold | control_plane/deploy/manager.py:1133-1140 | one look takes all of the nodes or none, and gives up only when blocked past the deadline |
| StartGate.Starting.Release | control_plane/deploy/manager.py:1142-1146 | a leaving worker gives back its nodes |
| Startup.StepGood | control_plane/deploy/manager.py:1093-1248 | every step keeps the manager's invariants, the gate's exclusion, the tie between workers and records, and that of engines to the records they were started for |
| Startup.OrphanedIff | control_plane/deploy/manager.py:1148-1188 | an engine still starting loses its worker exactly by a crash or by the worker leaving, and then its record has failed |
| Startup.OrphanKinds | control_plane/deploy/manager.py:897-918 | after reconciliation such an engine's record was adopted launching, or is stopping, finished or gone |
| Startup.DoublesOnEntry | control_plane/deploy/manager.py:1093-1188 | engines come to start together on a node in a step only if a worker enters on a node of such an engine |
| Startup.DoubledIff | control_plane/deploy/manager.py:1093-1188 | over every run, two engines start on one node if and only if a worker enters on a node of an engine still starting whose worker is not inside |
| Startup.UnorphanedIsExclusive | control_plane/deploy/manager.py:1093-1188 | a run that takes no starting engine's worker from it never starts two engines on one node |
| Startup.RestartDoubles | control_plane/deploy/manager.py:907-918 | a run that does: a launch, a crash while it starts, its adoption, and a second launch on the node |
| Startup.StopDoubles | control_plane/deploy/manager.py:502-520 | one without a crash: a stop before the cluster id, and the same launch again; the two engines also clash |
| Startup.ClashIff | control_plane/deploy/manager.py:1894-1944 | over every run, two engines that clash are there together if and only if a worker enters against one that is there |
| Startup.ClashIsFinished | control_plane/deploy/manager.py:1894-1980 | of two engines that clash one has a record that is finished or gone |
| Watch.WindowIs | control_plane/deploy/manager.py:1667-1679 | the slices pick exactly the backends the rotating window covers |
| Watch.EveryoneProbed | control_plane/deploy/manager.py:1667-1679 | any ceil(n / cap) consecutive ticks probe every backend |
| Watch.CountIsStreak | control_plane/deploy/manager.py:1795-1829 | a backend's count is its streak of missed probes, whatever ticks passed unprobed |
| Watch.AnsweringNeverLost | control_plane/deploy/manager.py:1795-1829 | a backend that answers once in every threshold consecutive probes is never given up |
| Watch.SilentIsLost | control_plane/deploy/manager.py:1567-1705 | one that never answers is given up within threshold times ceil(n / cap) ticks |
| Watch.BackendWatch.PickTargets | control_plane/deploy/manager.py:1667-1679 | the window probed, and where the next one starts |
| Watch.BackendWatch.OnePass | control_plane/deploy/manager.py:1567-1586 | one pass updates every count and gives up exactly the backends at the threshold; where giving one up raises because a stop came first, the later ones lose this tick's answers and the window still moves on |
| Watch.DeathBoundMet | control_plane/deploy/manager.py:1604-1618 | detection time is never under the death bound, and equals it if and only if the timeout's floor leaves room |

## Left out

- Float rounding: every amount is an exact real, truncated where the source truncates.
- Dtype keys: they arrive stripped and lower-cased; a shape has a layer, and attention heads when no head dimension is given,
  which is what the source divides by.
- An `allocatable` mapping with None values, and a plan of None at admission: every live figure is a number and every
  deployment has a plan.
- Reason strings, byte formatting, warnings, events, telemetry and `last_error`: only the terms, figures and remedies chosen
  are kept.
- `context_for`: its signature probing picks arguments; its clamp is the ladder's own.
- Capacity.LargestRunnable: the rows keep the rung they end on, not the figures printed beside it, and the placement chosen
  per model is part of each candidate.
- Multipart: the boundary is already extracted, header matching is the source's own substring test, and UTF-8 decoding is a
  validity predicate on bytes.
- Redaction: the key patterns are any functions that pick disjoint stretches of text; `looks_like_secret`,
  `has_known_key_shape` and the logging filter are not modelled.
- Which modality a model serves: the conflict table is a finite lookup.
- Prompt-token estimation: the estimate is an input of admission, as is the completion length read from the body.
- Dispatch.Dispatcher.Offer: hedging, `reopen`, cancellation and an exception out of the proxy are not modelled; the router is
  its preference list for the turn, the proxy its answer, and the proxy's later breaker verdicts are among the others' actions.
- Manager.NeverClashes: reconciliation finishes before the first launch, the id factory never repeats an id, unreadable files
  do not occur, and the adapter returns the port it was given (`control_plane/deploy/sparkrun.py:392-454`).
- Manager: an open stop is its lock-protected regions; the teardown calls, kills, logs and post-mortems between them change
  no record. Python's dictionary order is any order. A ready waiter polls for as long as its record is launching: the moment
  between its last poll and the failure it then records is not a state of its own.
- Manager.DeploymentManager.Reconcile: runs without interleaved watch or stop steps; the interleavings are those of the
  transition system, whose reconciliation is one step per record.
- StartGate: that a waiting thread is scheduled again is not modelled; what is proved is that nothing but a worker inside can
  keep it out.
- Startup: closing the manager, which releases the gate under a launch that is still waiting, is not modelled. What becomes
  of an engine is the environment's: it comes up or goes down at any time, a teardown through its cluster id included; one
  that went down starts again only through a launch, and an answer that names the model is its own engine's.
- Watch: the fleet is fixed over the ticks considered, which none of the run lemmas lets a raise cut short; probe threads are
  their results; memory severity readings reach the manager as one pressured-or-not input.
- The record codec, `load_all` on corrupt files, sparkrun subprocesses, log streams, HTTP probing and node agents.
