# Verified model of the platform's multi-step guarantees

This project models, in Dafny, the parts of the platform that promise something across crashes,
concurrency or unbounded runs, and proves those promises. `dafny verify dfyconfig.toml` checks all of it.

| files | what they model |
|---|---|
| `Events`, `EventSafety`, `EventDelivery`, `EventRuntime`, `EventProgress` | the event plane: transactional outbox, streams, consumer groups, dedupe, retries, dead-letter queue and replay |
| `Json`, `JsonUnique`, `Audit`, `Anchor` | the canonical printer, the per-organisation hash chain, its verifier and the external anchor |
| `Media`, `MediaRuntime` | the image protocol over a database row and an object store that share no transaction |
| `RateLimits`, `RateOverlap` | the Redis and the in-process sliding-window limiter, and overlapping Redis checks |
| `Manifest`, `Mediation`, `MediationSafety`, `MediationLimits`, `MediationAnswers` | manifest compilation and signing, and the ordered check chain of a tool call |
| `Policy`, `PolicySafety`, `PolicyMeaning` | the approval policy engine |
| `Approvals`, `ApprovalSafety`, `ApprovalRaces` | approvals, their resolution, the reminder and escalation ladder, and the two interleaved |
| `Base64`, `Utf8`, `Tokens`, `TokenSafety` | single-use execution tokens and their text format |
| `Campaign`, `CampaignSafety`, `CampaignRuntime`, `CampaignMeaning` | the throttled campaign fan-out |
| `Formulas`, `Pricing`, `PriceInputs`, `PriceSafety`, `FormulaLaws` | pricing formulas, staged computation, and the static analysis that decides which quotes to flag |
| `Billing`, `BillingSafety` | plans and subscriptions under interleaved transactions |
| `Cron`, `CronMeaning`, `Scheduler` | cron expressions as text, and the per-minute lock |
| `Keyset`, `KeysetWalk` | keyset pagination with opaque cursors |
| `Fusion`, `FusionOrder` | reciprocal rank fusion and hybrid search |
| `Wrappers` | `Option` and two small functions the others share |

Each protocol has two faces. A class holds the fields the program updates and its methods follow the program
statement by statement, loops included; each method is proved against a function of its inputs and the old state.
Beside it a transition system makes every atomic effect a step of its own, so that runs interleave any number of
callers and lose any of them between two effects; invariants over all its runs carry the main theorems, and a lemma
ties the methods to it. Where the two share a function, lemmas say in the terms of its inputs alone what it answers
(`PolicyMeaning`, `MediationAnswers`, `CampaignMeaning`, `CronMeaning`, `FormulaLaws`, and single ones elsewhere).
Ghost state (commit counts, logs of admissions and claims) records history and is read by nothing that runs.

Some promises hold only under a condition. In those cases the model keeps the program's behaviour, gives a concrete
failing case, and proves when exactly the promise holds:

- a first policy rule, or a guard that breaks, may lower a decision below the fallback tier (`AddedRuleLowersIff`
  with `AddedRuleExample`, `BrokenGuardLowersIff` with `BrokenGuardExample`);
- the tier a replayed resolve returns (`ReplayAgrees` with `ReplayTierExample`), and the expiry error, which the
  documentation promises for every expired approval (`GoneIff` with `ExpiredReplayExample`);
- a ladder pass that is not serialised with the owner (`AnnouncedButNotHeldIff` with `TakenBackExample`);
- claims on a minute more than ninety seconds apart (`RunsOnceIff` with `TwiceExample`);
- plan refusals, which carry the violation code and are not counted (`AtMostTwoIff` with `AnyNumberOfPlanRefusals`);
- rate checks that overlap (`ExceedsIff`, `PromptExceedsIff` and `WhyCrowded`, with `PromptBoundReached` and
  `StaleBoundReached`);
- price inputs read in guards (`OutcomesEqualIff` with `GuardIsNotADependency`) or through real attributes
  (`ReadsOutsideIff` with `RealAttributeEscapes`), and changes the update does not see (`UnchangedAgreeIff` with
  `NullIsNotAChange` and `RetypedIsNotAChange`).

One assumption of the image protocol cannot be dropped: after a commit that raises although it was applied, the
cleanup leaves a row without its object, in every such state (`AppliedButRaisedCommitDangles`).

## Model

| member | source | states |
|---|---|---|
| EventDelivery.NoEventIsLost | core/events/outbox.py:109-144 | At every point of every run of publishers, consumers and replayers that may die between any two effects, each committed event is, for every group, in the unpublished outbox, past the cursor, pending, committed by a dedupe transaction, or dead-lettered |
| EventProgress.EveryEventCanStillBeHandled | core/events/consumer.py:191-216 | From every reachable state each committed event can still be handled under a consumer name of any registered group (two groups that share a name share its dedupe rows, as in the program): no crash, retry, dead-lettering or replay puts it out of reach |
| EventProgress.FromPending | core/events/consumer.py:199-206 | A message left pending by a dead consumer can be reclaimed and committed |
| EventProgress.StopAll | core/events/outbox.py:114-116 | From any state every process may die, leaving both stores as they are |
| EventDelivery.Moves | core/events/consumer.py:136-188 | One effect at a time: an event that is in one of the five places is afterwards in the place the effect moved it to |
| EventDelivery.KeepsCovered | core/events/consumer.py:136-216 | No single effect leaves any committed event without a place for any group |
| EventDelivery.RunKeeps | core/events/consumer.py:191-216 | The structural invariants and the coverage of all events hold after every run |
| EventDelivery.HandlerCommitsAtMostOncePerRow | core/events/consumer.py:72-92 | In every run the handler commits of a (consumer, event) number its prunes, plus one while its row is there |
| EventDelivery.NoSecondCommitWithoutPrune | core/events/consumer.py:72-92 | While a dedupe row is not pruned, no re-publication, overlapping reclaim or replay makes its handler commit again |
| EventDelivery.OneHandlerAtATime | core/events/consumer.py:78-89 | No two workers are inside a handler transaction for the same (consumer, event) |
| EventDelivery.NotHandledAgainWithinRetention | core/events/consumer.py:72-92 | Over any run: within thirty days of the handling a dedupe row records, nothing published, redelivered, replayed or pruned nightly makes that consumer commit the event again |
| EventSafety.KeepsShape | core/events/consumer.py:136-216 | Every effect keeps the pending lists below the cursors, the queues of live workers valid, and streams append-only |
| EventSafety.StoresStep | core/events/outbox.py:131-143 | Streams and the outbox only grow, cursors never move back, dead-letter ids are not reused, whatever effect happens |
| EventSafety.KeepsLocked | core/events/consumer.py:78-89 | An uncommitted dedupe row excludes a committed one and any second holder |
| EventRuntime.Plane.EmitEvent | core/events/outbox.py:80-106 | A known type with a valid payload adds one unpublished row; anything else adds nothing |
| EventRuntime.Plane.PublishBatch | core/events/outbox.py:109-144 | A whole batch relays every row and marks all of them; dying after n effects leaves n relayed and none marked |
| EventRuntime.RelaysAppend | core/events/outbox.py:131-136 | Relaying appends, per topic, exactly the batch rows of that topic in order |
| EventRuntime.Plane.DedupeAndHandle | core/events/consumer.py:72-92 | The row is durable exactly if the handler did not raise before the commit; a row already there skips the handler |
| EventRuntime.Plane.Process | core/events/consumer.py:136-173 | One message ends acked and forgotten, counted and still pending, or dead-lettered with its alert and then acked |
| EventRuntime.Plane.DrainOnce | core/events/consumer.py:191-216 | A pass moves the cursor by as many new messages as asked for, or all there are, and counts them with the reclaimed ones; each of both ends settled with its row durable, pending with one more failure, or dead-lettered; the whole is a run of the transition system beside workers that hold the rows of other events |
| EventRuntime.AllEnd | core/events/consumer.py:136-173 | Every pending message of a reply ends in exactly the one of those three ways that its handler and its earlier failures call for |
| EventRuntime.DrainSettles | core/events/consumer.py:149-173 | A message whose handler succeeds is off the pending list with its dedupe row durable after the pass |
| EventRuntime.DrainLeavesPending | core/events/consumer.py:150-170 | A message that fails below the limit stays pending with exactly one more attempt counted |
| EventRuntime.Plane.ReplayDlq | core/events/consumer.py:176-188 | Replays the oldest entries of the type, up to the limit or up to where it dies: each is back on its stream and off the queue |
| EventRuntime.OldestFirst | core/events/consumer.py:183-184 | An entry not chosen is newer than all that are, and the limit is used up |
| EventRuntime.ReplayMoves | core/events/consumer.py:184-187 | What replay appended is exactly what left the dead-letter queue, in order; groups and counters are untouched |
| EventRuntime.Plane.PruneDedupe | core/events/consumer.py:235-246 | Removes exactly the rows older than the retention window and counts them |
| JsonUnique.CanonicalInjective | core/audit/writer.py:37-39 | Equal canonical texts come from equal values |
| JsonUnique.PrintUnique | core/audit/writer.py:37-39 | A printed value followed by any text not starting with a digit can be cut off in one way only |
| JsonUnique.EscapesAre | core/audit/writer.py:37-39 | Quotes, backslashes and control characters are escaped each in its own way, other text is left as it is |
| JsonUnique.ListExample | core/audit/writer.py:37-39 | Lists, numbers, null and truth values are written without blanks |
| JsonUnique.TwoMembers | core/audit/writer.py:37-39 | The members of an object stand in the order of their keys |
| JsonUnique.BelowIff | core/audit/writer.py:37-39 | That order is by the first code point in which two keys differ, a beginning of the other first |
| Json.SortedKeys | core/audit/writer.py:37-39 | The printer visits every key once, in code-point order |
| Anchor.SplitsUniquely | core/audit/writer.py:42-65 | Hash inputs are equal exactly when link, number and every hashed field are |
| Audit.VerifyChain | core/audit/writer.py:230-265 | None exactly for an intact segment; otherwise the number of the first bad record, all before it intact |
| Audit.AppendKeepsChain | core/audit/writer.py:88-156 | Appending the next record to an intact chain gives an intact chain |
| Audit.AuditLog.Write | core/audit/writer.py:88-156 | Appends one record, linked to the organisation's head, and touches no other chain |
| Audit.AuditLog.WriteOutcome | core/audit/writer.py:186-214 | Appends the outcome of a known intent to its own chain, its action with the outcome after a colon; an unknown intent appends nothing |
| Anchor.EveryRunVerifies | core/audit/writer.py:88-156 | Any run of writes and outcomes over any organisations leaves each chain intact and numbered 1..n |
| Anchor.RunKeepsChains | core/audit/writer.py:88-214 | Every run keeps every chain intact and only extends it |
| Anchor.CapabilityLives | core/audit/writer.py:159-183 | A capability verifies for exactly its own action and resource, for ten minutes after its entry, whatever is written later |
| Anchor.CapabilityWasWritten | core/audit/writer.py:159-214 | After any run from the empty log, what verifies was written less than ten minutes before for that very action and resource, as an entry or as the outcome of an earlier one |
| Anchor.RecordPinned | core/audit/writer.py:42-65 | Equal record hashes give equal records, or a concrete hash collision |
| Anchor.HeadPinsPrefix | core/audit/writer.py:230-265 | Two verifying chains that agree on one head hash agree on every hashed field of every earlier record, or exhibit a collision |
| Anchor.ChainHeads | core/audit/anchor.py:31-54 | Collects exactly the last record of every non-empty chain |
| Anchor.VerifyAgainstAnchor | core/audit/anchor.py:89-105 | Reports nothing exactly when every anchored head is still stored; every report names a changed or missing one |
| Anchor.AnchorPinsPrefix | core/audit/anchor.py:89-105 | If the live chain verifies and a head matches its anchor, the anchored records are all still there unchanged, or a collision is exhibited |
| Anchor.GrowthKeepsAnchor | core/audit/anchor.py:89-105 | A log that only grew always matches its earlier anchor |
| MediaSafety.NeverDangles | core/catalog/media.py:101-178 | In every run of interleaved, failing and dying attaches and removes, every key a committed row references exists in the store with the uploaded bytes |
| MediaSafety.KeepsInv | core/catalog/media.py:101-230 | Each step of each operation keeps rows whole, uploads owned by one operation, and deletions off referenced keys |
| MediaSafety.RunKeeps | core/catalog/media.py:101-230 | The same over any number of interleaved operations |
| MediaSafety.OnlyCommitChanges | core/catalog/media.py:124-178 | Until its commit an operation changes no association and no referenced object |
| MediaSafety.OnlyOrphansAreDeleted | core/catalog/media.py:233-253 | Every object a cleanup deletes is referenced by no row |
| MediaSafety.AppliedButRaisedCommitDangles | core/catalog/media.py:166-173 | If a commit raises although it was applied, the cleanup that follows leaves a dangling row, in every such state |
| MediaRuntime.Images.AttachImage | core/catalog/media.py:101-178 | Not found, fully stored with the old objects deleted after the commit, or raised with the row as before and its own uploads cleaned up |
| MediaRuntime.Images.RemoveImage | core/catalog/media.py:207-230 | The association goes first and the objects after the commit; a failure before it changes nothing |
| MediaRuntime.Images.ReadImage | core/catalog/media.py:181-204 | Only served variants of a present image are found; a missing object reads as no image |
| MediaRuntime.Images.DiscardKeys | core/catalog/media.py:233-240 | Every key is tried and no failure stops the others |
| MediaRuntime.DeletedExactly | core/catalog/media.py:233-240 | Exactly the listed keys whose deletion did not fail are gone |
| MediaRuntime.FailedAttachKeepsEverything | core/catalog/media.py:144-173 | After a failed attach every earlier object is intact, and what was added is an upload that could not be deleted |
| MediaRuntime.AttachReplaces | core/catalog/media.py:158-178 | After a successful attach the new image is whole and only failed deletions of the old one remain |
| MediaRuntime.AttachIsARun | core/catalog/media.py:101-178 | A successful attach is a run of the interleaved system with the same end |
| MediaRuntime.FailedAttachIsARun | core/catalog/media.py:101-178 | So is a failing one, whichever call raised |
| MediaRuntime.RemoveIsARun | core/catalog/media.py:207-230 | A successful removal is a run of the interleaved system with the same end |
| MediaRuntime.FailedRemoveIsARun | core/catalog/media.py:207-230 | So is a failing one, at the update or at the commit, and it ends where it began |
| RateLimits.SortedSets.Check | core/mediation/limits.py:40-54 | Admits exactly while fewer than per_min admissions lie in the last 60 s, counted from all admissions ever; a refusal records nothing |
| RateLimits.SortedSets.Expire | core/mediation/limits.py:53-54 | Key expiry changes no later answer |
| RateLimits.Buckets.Allow | core/landing/ratelimit.py:25-44 | Admits exactly while fewer than per_min hits are at most 60 s old, counted from all hits ever; non-positive limits admit without recording; beyond 20000 keys the stale ones go |
| RateLimits.Buckets.Sweep | core/landing/ratelimit.py:19-22 | Drops exactly the stale buckets, and no later answer can tell |
| RateLimits.Buckets.PopOld | core/landing/ratelimit.py:38-40 | Pops exactly the hits that left the closed window |
| RateLimits.OpenWindowBound | core/mediation/limits.py:40-54 | Under the Redis rule no 60 s window, open at its old end, holds more than per_min admissions |
| RateLimits.ClosedWindowBound | core/landing/ratelimit.py:25-44 | Under the in-process rule no 60 s window, closed at its old end, does |
| RateLimits.OpenRunBound | core/mediation/limits.py:40-54 | The bound holds for every run of attempts in time order |
| RateLimits.ClosedRunBound | core/landing/ratelimit.py:25-44 | The same for the in-process limiter |
| RateLimits.AfterCounts | core/mediation/limits.py:49-50 | The Redis count is the number of entries later than the cutoff |
| RateLimits.FromCounts | core/landing/ratelimit.py:38-41 | The in-process count is the number of hits at the cutoff or later |
| RateOverlap.OverlapBound | core/mediation/limits.py:49-52 | With trim, count and add as separate steps of any number of checks, at most c in flight: no 60 s window holds more than p + c - 1 admissions when checks are prompt, nor more than p + 2c - 2 when they stall |
| RateOverlap.ExceedsIff | core/mediation/limits.py:49-52 | A window of a finished run exceeds the limit exactly when a count admitted a check after p others of the window had been granted |
| RateOverlap.PromptExceedsIff | core/mediation/limits.py:49-52 | Among prompt checks it does exactly when a count admitted a check while the window in the set and the checks admitted but not yet added were already p |
| RateOverlap.WhyCrowded | core/mediation/limits.py:49-52 | Such a count always has another check of the window admitted before it and not yet added, unless a later check has trimmed the window, which prompt checks never do |
| RateOverlap.PromptBoundReached | core/mediation/limits.py:49-52 | For every p and c a run of prompt checks reaches p + c - 1 |
| RateOverlap.StaleBoundReached | core/mediation/limits.py:49-52 | For every p and c a run of stalling checks reaches p + 2c - 2 |
| Manifest.CompileManifest | core/mediation/manifest.py:73-109 | The loop compiles exactly the specified tools and narrowing list |
| Manifest.CompileIntersects | core/mediation/manifest.py:83-101 | The compiled tools are exactly the pack grants inside all three levels |
| Manifest.GrantIsInside | core/mediation/manifest.py:83-101 | Every compiled grant is on the allow-list, allowed by the tenant, and tier-gated unless its name waives it |
| Manifest.NarrowingIsReadOnly | core/mediation/manifest.py:90-95 | The narrowing list holds exactly the compiled read-only names |
| MediationAnswers.CompilesExactly | core/mediation/manifest.py:83-101 | The compiled grants are exactly the named ones the archetype lists and the tenant leaves, with the pack's limits, gated by tier unless their name reads, searches or only computes |
| MediationAnswers.CompilesInOrder | core/mediation/manifest.py:83-101 | They keep the pack's order |
| MediationAnswers.HandsThrough | core/mediation/manifest.py:102-109 | Identity, time and the day's budget of messages go into the body as given |
| MediationAnswers.NarrowsTo | core/mediation/manifest.py:90-109 | What is left after outside content is the compiled names that read or search |
| Manifest.TextUnique | core/mediation/manifest.py:57-66 | Two bodies have the same canonical JSON text only if they agree in every part |
| Manifest.SignThenVerify | core/mediation/manifest.py:112-140 | A signed manifest verifies, and whatever else verifies under its digest is the same in every part, or two different texts collide |
| Manifest.FindsTheFirst | core/mediation/proxy.py:106-111 | The first grant that covers the tool by name or family is the one found |
| Manifest.FindGrant | core/mediation/proxy.py:106-111 | What is found covers the tool, and nothing is found only when no grant covers it |
| Mediation.Proxy.Call | core/mediation/proxy.py:229-338 | The checks in order: the outcome and the whole new state are those of the first check that fails |
| Mediation.Proxy.Limited | core/mediation/proxy.py:271-338 | Inside the manifest: parameters, rate, budget, tier and the effect, each answer and state those of the whole call |
| MediationAnswers.OutsideTheManifest | core/mediation/proxy.py:229-269 | In any run a call that is not sound, not granted by name or family, or off the list after outside content is a violation: its answer by the number before it, and its audit, alert and count, with nothing else changed |
| MediationAnswers.InsideTheManifest | core/mediation/proxy.py:271-338 | In any run a call inside its manifest has the answer and the record of the first of parameters, rate, daily budget, tier, plan and wiring that fails; the tool runs exactly when none does, approved and no-tier calls whatever their tier |
| MediationAnswers.InsideChanges | core/mediation/proxy.py:276-334 | Nothing else changes but a place taken by every call that finds one, and the two-day mark that outside content leaves |
| Mediation.Proxy.ManifestDenied | core/mediation/proxy.py:183-196 | Audits, alerts and counts; aborts from the third violation of the run |
| MediationSafety.EveryExecutionIsAuthorised | core/mediation/proxy.py:229-338 | Over whole runs: a tool body ran only right after its intent entry, with its parameters valid, its plan paid and its day's budget not used up, under a verifying current manifest, by a compiled grant inside archetype, pack and tenant, with tier below 2, approved, or waived by name |
| MediationSafety.NarrowedUntilCleared | core/mediation/limits.py:104-122 | After external content is ingested, every tool executed before a clear and within two days is on the read-only narrowing list |
| MediationSafety.NarrowsExactly | core/mediation/proxy.py:265-269 | A call is narrowed exactly when an uncleared mark is younger than two days, or the run is flagged, and the tool is not on the list |
| MediationSafety.AtMostTwoRecoverable | core/mediation/proxy.py:183-196 | In any run of calls at most two manifest violations of a run come back as recoverable |
| MediationSafety.AbortsFromTheThird | core/mediation/proxy.py:190-192 | In any run a call aborts exactly when it is a violation and two violations of its run are already on the trace |
| MediationLimits.AtMostTwoIff | core/mediation/proxy.py:183-226 | Over any calls, the recoverable permission answers of a run number its violations up to two plus all its plan refusals, so they are at most two exactly when that sum is |
| MediationLimits.AnyNumberOfPlanRefusals | core/mediation/proxy.py:308-312 | For every n, a run in which one granted tool outside the plan is refused n times, each time as recoverable |
| MediationLimits.NeverMoreThanTheManifestAllows | core/mediation/proxy.py:276-279 | Over any runs, if no manifest used allows a tool of an instance more than p calls a minute, no 60 s window has more than p slots taken, nor more executions than slots |
| MediationSafety.RunKeeps | core/mediation/proxy.py:229-338 | Every run keeps execution records, flags and violation counts in step with the trace |
| Policy.CollectContributors | core/approvals/engine.py:99-153 | One pass gives the matching contributors and their keys, in table order |
| Policy.PoolContributors | core/approvals/engine.py:313-320 | The pool of a tool call is the contributors of its whole action family |
| Policy.EvaluateTool | core/approvals/engine.py:295-327 | The decision is taken once, on the pool with the owner's floor added |
| PolicyMeaning.DecisionIs | core/approvals/engine.py:295-343 | The decision is that of the highest of what counts, told by scope, guard, action, incident and the owner's settings, or tier 2 when nothing counts |
| PolicyMeaning.RecordIs | core/approvals/engine.py:295-343 | The keys of all that counts, and no others, are recorded in order |
| PolicyMeaning.PoolCounts | core/approvals/engine.py:99-153 | What counts for a call is exactly the rules of its actions that govern the organisation and whose guards do not say no, the platform's own tier 4, an incident, and the owner's floor |
| PolicyMeaning.RuleHoldsCall | core/approvals/engine.py:110-134 | A platform rule, an installed pack's or an own rule of the call's actions whose guard does not say no holds the decision at its tier or above |
| PolicyMeaning.DecisionsAreIsolated | core/approvals/engine.py:110-122 | Rules of other organisations and of packs that are not installed have no part in a decision |
| PolicyMeaning.BaselineIgnoresTenants | core/approvals/engine.py:346-361 | Tenants' rules have no part in what a tenant's rule is measured against |
| PolicyMeaning.MatchesIff | core/approvals/engine.py:85-96 | A guard leaves its rule out exactly if it is there, is neither blank nor true but for blanks, and evaluates to false |
| PolicyMeaning.ActionsAre | core/approvals/engine.py:170-197 | The actions of a tool call, a message with a price being a quote too |
| PolicyMeaning.FloorIs | core/approvals/engine.py:244-292 | The owner's floor is tier 2 exactly when paused, held back by a capability or its threshold, or contacting a customer unasked in quiet hours |
| Policy.AutonomyFloor | core/approvals/engine.py:244-292 | Visiting the capabilities in any order with an early return gives the review tier exactly when paused, some capability needs review, or an outbound message falls in quiet hours |
| PolicySafety.OrderIndependent | core/approvals/engine.py:334-343 | Any permutation of contributors and of matched ids gives the same decision, where equal tier and key mean the same contributor |
| PolicySafety.TableOrderIsIrrelevant | core/approvals/engine.py:313-343 | The order in which the policy table is read never changes a tool call's decision |
| PolicySafety.PoolIsCoherent | core/approvals/engine.py:99-153 | With rule ids as keys, contributors equal on tier and key are identical |
| PolicySafety.AscendingUnique | core/approvals/engine.py:341-342 | Two sorted lists of the same ids are the same list |
| PolicySafety.TierIsTheMaximum | core/approvals/engine.py:339-341 | The decision's tier is the highest tier in the pool |
| PolicySafety.FloorRaises | core/approvals/engine.py:321-327 | With a floor the tier is the larger of floor and rules, also when no rule matches |
| PolicySafety.AddedRuleLowersIff | core/approvals/engine.py:334-343 | Adding a rule lowers a decision exactly when the pool was empty, the rule applies, and its tier is below the fallback |
| PolicySafety.AddedRuleExample | core/approvals/engine.py:334-338 | The first rule of an action, of tier 1, lowers its calls from tier 2 to 1 |
| PolicySafety.BrokenGuardLowersIff | core/approvals/engine.py:85-96 | Guards that stop compiling or evaluating lower a decision exactly when its pool was empty, no longer is, and all of it is below the fallback tier |
| PolicySafety.BrokenGuardExample | core/approvals/engine.py:85-96 | One core rule of tier 1 with a guard that does not hold: broken, the guard lowers the tier from 2 to 1 |
| PolicySafety.AcceptedIff | core/approvals/engine.py:346-372 | A tenant rule is accepted exactly when no platform or pack rule of its action, whatever its guard, has a higher tier |
| PolicySafety.TenantRuleOnlyTightens | core/approvals/engine.py:364-372 | An accepted tenant rule lowers no decided call, and holds the calls it applies to at or above their baseline |
| Approvals.Service.CreateApproval | core/approvals/service.py:56-87 | Adds one pending row and one request event with its deadline |
| Approvals.Service.ResolveApproval | core/approvals/service.py:110-184 | Not found, replayed, expired, or decided once with one event; the answer and the new state in each case |
| ApprovalSafety.ResolutionIs | core/approvals/service.py:131-184 | Row, answer and events of a resolve in each of its cases, written out: replay, expiry, decision, and refusal of an edit that needs a higher tier |
| Approvals.Service.RunLadder | core/approvals/notify.py:185-209 | Every pending row makes the one transition due, in whatever order the rows are visited |
| ApprovalSafety.RungIs | core/approvals/notify.py:198-209 | From the deadline on a pending row is expired; before it, escalated once three quarters of its window are over, or else reminded at half; each once, and the message goes with the stamp |
| ApprovalSafety.RunKeeps | core/approvals/service.py:110-184 | No approval disappears, its terms never change, and a terminal row never changes again |
| ApprovalSafety.DecidedOnTime | core/approvals/service.py:138-164 | Every approved or rejected row was decided by one resolve strictly before its deadline; an approved edit evaluated at most to the stored tier |
| ApprovalSafety.OneOutcome | core/approvals/service.py:165-184 | One request event per approval; one resolved event, agreeing with the row, exactly if it was approved or rejected |
| ApprovalSafety.ReplayAgrees | core/approvals/service.py:131-136 | Every replay returns the first answer's status, edited flag and note, and its tier exactly if the edit did not escalate; it changes nothing |
| ApprovalSafety.ReplayTierExample | core/approvals/service.py:131-136 | An escalating edit is answered with tier 3 and replayed with the stored 2 |
| ApprovalSafety.GoneIff | core/approvals/service.py:138-150 | The expiry error comes exactly for a row still pending past its deadline; after a ladder pass over it an unanswered approval is replayed as expired instead |
| ApprovalSafety.ExpiredReplayExample | core/approvals/service.py:131-136 | A row the ladder has expired is replayed, where without the pass it is refused as expired |
| ApprovalSafety.LadderSettles | core/approvals/notify.py:198-205 | After a ladder pass no row is ever pending past that pass's time |
| ApprovalSafety.OneMessagePerRung | core/approvals/notify.py:198-209 | At most one reminder and one escalation per approval, plus one for each pass that was rolled back after sending |
| ApprovalSafety.OnceWithoutFailures | core/approvals/notify.py:198-209 | Without rolled-back passes each rung is sent at most once |
| ApprovalRaces.AnnouncedButNotHeldIff | core/approvals/notify.py:189-205 | Over any run of interleaved passes and resolves: an answer was announced and the row does not hold one exactly when a pass wrote the row past its deadline after the answer |
| ApprovalRaces.LostIff | core/approvals/notify.py:201-205 | A step takes an answer away exactly when it is a write past the deadline by a pass that read the row while pending |
| ApprovalRaces.TakenBackExample | core/approvals/notify.py:201-205 | A run in which an approved row, its event already out, is marked expired |
| Base64.RoundTrip | core/approvals/tokens.py:71-76 | Decoding undoes encoding for every byte string, padded and unpadded, and no encoding contains a dot |
| Base64.StrayIgnored | core/approvals/tokens.py:75-76 | A character outside the alphabet anywhere in the text changes nothing, as bytes always and as text if it is ASCII: texts are not unique, bytes are |
| Base64.Vectors | core/approvals/tokens.py:71-76 | The test vectors of RFC 4648, and both ends of each run of the URL-safe alphabet |
| Utf8.EncodedUnique | core/approvals/tokens.py:90-91 | Different texts have different UTF-8 bytes |
| Utf8.DecodedEncoded | core/catalog/crud.py:72-74 | Strict UTF-8 decoding undoes encoding |
| Utf8.Examples | core/catalog/crud.py:72-74 | One character of each encoded length |
| Tokens.Store.MintToken | core/approvals/tokens.py:79-100 | The token is the signed canonical claims, and its id is recorded unused |
| Tokens.Store.VerifyToken | core/approvals/tokens.py:103-143 | Every check in order; the id is claimed exactly when the answer is positive |
| TokenSafety.TokenParts | core/approvals/tokens.py:100-113 | The dot split recovers the body and the signature of every token |
| TokenSafety.BodyUnique | core/approvals/tokens.py:86-91 | Different claims have different bodies |
| TokenSafety.OnlyMintedVerifies | core/approvals/tokens.py:103-143 | Whatever verifies carries a body that was minted for this context, with a committed, unclaimed, unexpired row of this organisation and the same tier |
| TokenSafety.AtMostOnce | core/approvals/tokens.py:127-139 | No id is used by two committed verifications in any run, however the token is spelled |
| TokenSafety.MintedVerifiesIff | core/approvals/tokens.py:79-143 | A committed, still unused token verifies exactly for its own organisation and context, up to the whole second in which minting time plus ttl falls on the verifier's clock, and before minting time plus ttl on the database's |
| TokenSafety.AliveForItsLifetime | core/approvals/tokens.py:85-135 | With both clocks at one instant it is accepted at every instant from minting until ttl seconds later, and refused from then on |
| TokenSafety.RolledBackNeverVerifies | core/approvals/tokens.py:79-139 | A token whose minting was rolled back never verifies |
| CampaignSafety.NeverMoreThanTheHourlyRate | core/campaigns/send.py:238-242 | At no instant of any run has a campaign more than 500 rows sent in the preceding hour |
| CampaignSafety.KeepsInv | core/campaigns/send.py:126-210 | Each set-up, batch step, failure and crash keeps the budget of a running batch and the hourly bound |
| CampaignSafety.NothingLost | core/campaigns/send.py:93-112 | After any run, queued, sent, failed and skipped add up to the number of contacts ever targeted, each with its one row |
| CampaignSafety.SettledForever | core/campaigns/send.py:177-210 | No row leaves a settled status or is lost, and no contact gets a second row |
| CampaignSafety.SetupKeeps | core/campaigns/send.py:104-108 | A set-up only appends queued rows for contacts that had none |
| CampaignRuntime.Sender.SetupExecution | core/campaigns/send.py:93-112 | Materialises the audience once and starts the campaign, only from the two statuses that allow it |
| CampaignRuntime.Sender.SendOne | core/campaigns/send.py:177-210 | The row becomes sent, skipped or failed with its reason; an exception leaves it queued |
| CampaignRuntime.Sender.ProcessBatch | core/campaigns/send.py:126-174 | Halts, does nothing, or answers the picked rows up to the first exception and closes the campaign when nothing is queued |
| CampaignMeaning.BatchGates | core/campaigns/send.py:131-146 | A batch is stopped exactly by a lost entitlement, by more than a tenth of ten or more recipients opted out, by a bad rating, by not executing, or for want of a channel, in that order, and then sends nothing |
| CampaignMeaning.BatchRows | core/campaigns/send.py:147-161 | Otherwise row by row: the oldest queued rows, as many as the hour has room for, are answered with their outcome and time up to the first exception; all others stay |
| CampaignMeaning.BatchCloses | core/campaigns/send.py:162-174 | The campaign is executed and its sent and failed rows announced exactly if no send raised and nothing is queued |
| CampaignMeaning.QueuedInOrder | core/campaigns/send.py:104-108 | A set-up queues one row for each new contact, in the audience's order |
| CampaignRuntime.BatchIsARun | core/campaigns/send.py:126-174 | Every batch, complete or cut short, is a run of the transition system and inherits its bounds |
| CampaignRuntime.BatchDrains | core/campaigns/send.py:149-174 | A batch with answering sends takes its whole budget off the queue, and executes the campaign exactly when that empties it |
| CampaignRuntime.BudgetsDrain | core/campaigns/send.py:126-174 | Over any batches with quiet signals and answering sends, the queue falls by the sum of their budgets, and the campaign is executed exactly when they reach what was queued |
| CampaignRuntime.BudgetIs | core/campaigns/send.py:238-242 | In every reachable state a budget is 500 less the rows sent in the last hour, and positive exactly while those are fewer than 500 |
| CampaignRuntime.TwoTurns | core/campaigns/send.py:286-299 | Two consecutive batches an hour or more apart remove at least 500 rows between them, or all that are left |
| CampaignRuntime.HourlyBatchesDrain | core/campaigns/send.py:286-299 | Hourly batches, each as long as it takes before the next, remove at least 500 rows every two hours until the queue is empty and the campaign executed |
| PriceInputs.InputRefs | core/catalog/availability.py:50-82 | The breadth-first walk collects exactly the names of the recursive definition |
| PriceInputs.PriceInputDeps | core/catalog/availability.py:85-90 | The dependencies of a strategy are those of all its stage formulas |
| PriceInputs.ByChildren | core/catalog/availability.py:52-54 | The names of a tree are its root's and those of its children |
| PriceInputs.OwnRefsIff | core/catalog/availability.py:55-81 | A node names a field as an attribute other than get, a literal subscript, or the first argument of get, and in no other way |
| PriceInputs.Quotes.FlagIfChanged | core/catalog/availability.py:134-168 | A change that hits no dependency does nothing; otherwise one event with the hit keys, and exactly the item's drafts that are not yet flagged and not past their validity are flagged and counted |
| PriceSafety.EvalAgrees | core/pricing/engine.py:158-209 | A formula that reads inputs by literal names evaluates alike on inputs that agree on the names found |
| PriceSafety.SameFigures | core/pricing/engine.py:286-302 | By induction over stages, such inputs give the same breakdown and total unless a guard stops one of the two computations |
| PriceSafety.OutcomesEqualIff | core/pricing/engine.py:286-302 | With formulas agreeing, two computations get equally far and end alike exactly when the guards judge alike at every stage both reach |
| PriceSafety.RecomputedIff | core/pricing/engine.py:286-302 | A quote once computed comes out the same exactly when the guards judge alike, and differently only by a refusal |
| PriceSafety.SameOutcome | core/pricing/engine.py:286-302 | Agreement on what the guards read as well makes the outcomes equal in every case |
| Formulas.PyEqSameIff | core/catalog/crud.py:325-328 | Values that compare equal are the same exactly when the numbers in them are of the same kinds |
| PriceSafety.UnchangedAgreeIff | core/catalog/crud.py:325-330 | Keys the update does not count as changed agree exactly where no null stands against a missing field and no number is replaced by an equal one of another kind |
| PriceSafety.UnflaggedKeepsFigures | core/catalog/availability.py:151-168 | A change that flags nothing, without such nulls and numbers, changes no figure of any strategy of the pack computed before and after, and a quote is computed again exactly when its guards judge alike |
| PriceSafety.GuardIsNotADependency | core/catalog/availability.py:88-89 | A field read only in a guard is no dependency: its change flags nothing and stops the quote |
| PriceSafety.RealAttributeEscapes | core/pricing/functions.py:58-62 | inputs._data reaches every field under one name, so inputs that agree on the names found evaluate differently |
| PriceSafety.ReadsOutsideIff | core/pricing/functions.py:55-71 | An attribute of inputs reads outside the names found exactly if it is _data or a real attribute that tells such items apart |
| PriceSafety.ByNameIff | core/catalog/availability.py:67-73 | The formulas the soundness result covers are, attribute by attribute, exactly those that do not read outside |
| PriceSafety.NullIsNotAChange | core/pricing/functions.py:70-71 | A null that appears is not a changed key, yet get then drops its default |
| PriceSafety.RetypedIsNotAChange | core/pricing/engine.py:293-300 | The value 1 replaced by true is not a changed key, flags nothing, and takes the line off the quote |
| FormulaLaws.BranchTaken | core/pricing/engine.py:183-185 | Only the branch the test selects is evaluated |
| FormulaLaws.BothSides | core/pricing/engine.py:174-176 | And and or look at both sides: an error on the right shows even where the left decides |
| FormulaLaws.ChainIsCut | core/pricing/engine.py:177-180 | A chained comparison compares its first two operands only |
| FormulaLaws.FieldsRead | core/pricing/functions.py:61-71 | A field reads the same as attribute and subscript; a missing one is an error except to get, which falls back |
| FormulaLaws.FloatsAreRefused | core/pricing/functions.py:42-52 | A float is refused wherever it stands in a list |
| FormulaLaws.ItemsAppend | core/pricing/engine.py:186-194 | A comprehension goes item by item, and its first error wins |
| FormulaLaws.OneItem | core/pricing/engine.py:186-194 | An item gives nothing, or the element with the item under its name |
| FormulaLaws.LinesAreWhole | core/pricing/engine.py:243-250 | A number becomes a line of the quote if it is whole and an error if it is not; anything else is no line |
| FormulaLaws.GuardsFirst | core/pricing/engine.py:290-292 | The first guard that fails refuses a stage, by its own error or by the stage's, before its formula is looked at |
| FormulaLaws.FormulaDecides | core/pricing/engine.py:293-300 | Without guards the value of the formula over inputs and earlier stages is settled, and its error ends the computation |
| FormulaLaws.TotalIsTheLastLine | core/pricing/engine.py:286-302 | The total of a quote is the amount of its last line, and every line is some stage's |
| Billing.Service.UpdatePlan | core/billing/service.py:82-106 | Missing, canonical, sold, or fully rewritten: the answer and the whole new state |
| Billing.Service.UpdatePlanStructured | core/billing/service.py:284-303 | The same for a structured edit, which keeps the active flag and empties the legacy features |
| Billing.Service.SetPlanActive | core/billing/service.py:268-281 | Retires or reinstates a plan, sold or not, unless it is canonical |
| Billing.Service.AssignSubscription | core/billing/service.py:111-134 | A missing or retired target changes nothing; otherwise the old subscription is cancelled and the new one added |
| Billing.Service.CancelSubscription | core/billing/service.py:149-153 | Cancels exactly the organisation's active subscriptions |
| BillingSafety.SoldTermsNeverChange | core/billing/service.py:220-251 | Once a subscription to a plan commits, no interleaving of transactions changes its name, price, description, features, limits or config |
| BillingSafety.InsertedWhileActive | core/billing/service.py:111-134 | A subscription is inserted only by the commit of its assignment, with its plan active at that moment |
| BillingSafety.OnlyCommitsChange | core/billing/service.py:111-134 | Locks, checks, uncommitted writes and rollbacks change neither plans nor subscriptions |
| BillingSafety.RefusedNeverCommits | core/billing/service.py:122-126 | A refused transaction never commits, so a rejected assignment leaves the active subscription as it was |
| BillingSafety.AssignedIsTheOneActive | core/billing/service.py:128-134 | A committed assignment leaves exactly its own subscription active for the organisation |
| BillingSafety.ActiveUntilOwnCommit | core/billing/service.py:111-134 | Between commits of an organisation's own assignments and cancellations its active subscription stays the same one on the same plan, whatever else is refused, rolled back or committed |
| BillingSafety.PresetsNeverChange | core/billing/service.py:58-72 | A canonical preset is changed by no operation, its active flag included |
| BillingSafety.UpdateMayCanonise | core/billing/service.py:37-40 | An update may give an unsold plan a canonical identity, which creation refuses, and every later edit is then refused |
| BillingSafety.KeepsInv | core/billing/service.py:226-303 | Each statement of each transaction keeps what others found out under their plan locks |
| BillingSafety.AloneIsARun | core/billing/service.py:82-303 | The service's methods run one at a time are runs of the interleaved system |
| Cron.FieldMatches | core/events/scheduler.py:67-82 | The loop with its early return computes the reading of the field, errors included |
| CronMeaning.FieldDenotes | core/events/scheduler.py:67-82 | A list of items, however its numbers are spelled, holds exactly for the values it denotes, a stepped star meaning multiples |
| CronMeaning.AcceptedIff | core/events/scheduler.py:67-82 | The fields none of whose items is an error at any value are exactly the texts of such lists |
| CronMeaning.NumbersAre | core/events/scheduler.py:69-78 | Digits read as their number, with a sign before them too |
| CronMeaning.Underscores | core/events/scheduler.py:69-78 | An underscore may stand between two digits and nowhere else |
| CronMeaning.BlanksSeparate | core/events/scheduler.py:87 | Any blank ends a field, and blanks before one are passed over |
| CronMeaning.CronDenotes | core/events/scheduler.py:85-94 | A five-field expression, however spaced, holds exactly at the times all fields denote, Sunday being 0 |
| CronMeaning.MalformedIff | core/events/scheduler.py:67-82 | An error shows exactly when no part before the first bad one matches |
| Scheduler.Redis.SetIfAbsent | core/events/scheduler.py:104-107 | A claim wins exactly when no live key stands |
| Scheduler.Process.RunDue | core/events/scheduler.py:97-126 | Claims, in order, exactly the jobs whose expression holds at their own zone's time and before which none is malformed, runs those won, and raises exactly if one is malformed |
| Scheduler.WinsApart | core/events/scheduler.py:104-107 | Two runs of one job for one minute are at least 90 s apart |
| Scheduler.RunsOnceIff | core/events/scheduler.py:104-126 | A job's minute runs exactly once over all schedulers if and only if all claims on it come within 90 s of the first |
| Scheduler.TwiceExample | core/events/scheduler.py:104-107 | A claim ninety seconds after the first wins the same minute again |
| Keyset.ListItems | core/catalog/crud.py:249-276 | One page: the next items after the cursor's place and a cursor at the last of them exactly if there are more; a bad cursor fails |
| KeysetWalk.CursorRoundTrip | core/catalog/crud.py:68-74 | Decoding a cursor gives back the place it was made for |
| KeysetWalk.StrayInCursor | core/catalog/crud.py:72-74 | A character outside the alphabet, ASCII or not, changes nothing wherever it stands in a cursor |
| KeysetWalk.RemainingIs | core/catalog/crud.py:255-268 | The query's answer is exactly the active items older than the place, or as old with a smaller id, newest first |
| KeysetWalk.RestIsNext | core/catalog/crud.py:270-275 | What a page leaves over is what the query at its cursor finds, whatever changed at or ahead of it |
| KeysetWalk.WalkReturnsEverything | core/catalog/crud.py:249-276 | For every limit of at least one, following the cursors returns every active item exactly once in order, undisturbed by changes at or ahead of the cursor |
| KeysetWalk.WalkEnds | core/catalog/crud.py:269-275 | No request of a walk fails and there are at most as many as full pages |
| KeysetWalk.ZeroLimitSkips | core/catalog/crud.py:271-274 | A limit of zero returns nothing and steps over an item |
| Fusion.Fuse | core/catalog/search.py:96-105 | The nested loops give the specified ranking |
| Fusion.Hybrid | core/catalog/search.py:138-144 | Results are the first k fused ids: keyword rows, and neighbours whose id has a distance of at most 0.35 and no keyword row; none of these is missing unless k are there, and the three nearest come exactly when there are none |
| FusionOrder.FusedIsTheRanking | core/catalog/search.py:96-105 | Each id of the union once, by falling exact score, ties by first sight |
| FusionOrder.DominanceIsRespected | core/catalog/search.py:96-105 | For duplicate-free lists an id at least as high in every list, and listed at all, comes before the other |
| FusionOrder.ConfidentAt | core/catalog/search.py:140 | Near neighbours are fused in the order they came |
| FusionOrder.ScoreOfTwo | core/catalog/search.py:100-104 | A place p in one of the two lists adds 1/(61 + p) |
| FusionOrder.LastIsKept | core/catalog/search.py:142 | Of rows with one id the last is kept |

## Left out

Assumptions the theorems rest on:

- A commit that raises was not applied (`AppliedButRaisedCommitDangles` shows what happens otherwise).
- Batches of one campaign do not overlap. Rate checks of one key, and ladder passes and resolves of one organisation, do not either, except in `RateOverlap` and `ApprovalRaces`, which are about what happens when they do.
- SHA-256 is an arbitrary function to hexadecimal text; the pinning results name the collision that would break them. Signatures are accepted only for bodies the key has signed. New ids (events, approvals, tokens, objects) have not been used before.
- Policy rule ids are unique and differ from the three reserved keys; catalog ids are unique.
- Clocks of one store do not run backwards.

What the members above leave unmodelled:

- EventDelivery.NoEventIsLost: which pending messages are idle long enough to be reclaimed is not modelled, any of them may be; the outbox row of an event is never deleted; error histories, keyed without the group by the program, are not kept.
- EventDelivery.HandlerCommitsAtMostOncePerRow: counts committed dedupe transactions that ran the handler; what a handler does in sessions of its own is not part of this model.
- EventRuntime.Plane.EmitEvent: whether the payload is valid for its schema is an argument.
- EventProgress.EveryEventCanStillBeHandled: dedupe rows are per consumer name, so a commit under a name that two groups share counts for both, as it does in the program.
- EventRuntime.Plane.PublishBatch: the rows are given, so the order, the batch size and the skipping of rows locked by another publisher are not chosen here.
- EventRuntime.Plane.DrainOnce: the messages the store hands over for reclaim are an argument, and no other worker holds the uncommitted row of one of the events handled, for which the call would wait; the transition system has no such restriction.
- JsonUnique.CanonicalInjective: payloads without floating-point numbers, keys in code-point order as in the program.
- Audit.AuditLog.Write: the advisory lock that serialises writers of one organisation is taken as given, and timestamps are arguments.
- Anchor.VerifyAgainstAnchor: the anchor file, its reading and its schedule are left out.
- MediaRuntime.Images.AttachImage: image decoding, MIME types and dimensions are left out; the three payloads are arguments.
- RateLimits.SortedSets.Check: one check is atomic (its steps are apart in `RateOverlap`), and times are exact; the unique suffix of a set member is left out.
- RateOverlap.OverlapBound: the expiry of the whole key, two minutes after an add, is left out.
- Mediation.Proxy.Limited: takes the same arguments as the whole call.
- Mediation.Proxy.Call: parameter validation, the budget counter, the plan check and the tool itself are arguments of the call, redaction and egress scrubbing are left out.
- MediationSafety.EveryExecutionIsAuthorised: read-only names and the named no-tier tools pass without a tier, as compiled; the statement says so.
- MediationSafety.NarrowedUntilCleared: the flag lives two days, after which a run that was never cleared is no longer narrowed.
- Manifest.SignThenVerify: the text encoding of the digest and of the signature is left out, as are budgets other than the daily sends and limits other than the calls per minute; parameter constraints and the timestamp are given as text.
- MediationLimits.NeverMoreThanTheManifestAllows: clocks do not run backwards between calls of one key; a tool whose grant has no limit is not bounded.
- Policy.EvaluateTool: guard evaluation, the money figure found in a message body, settings lookup and quiet hours are arguments; white space other than the ASCII kinds is not stripped from guards.
- Approvals.Service.ResolveApproval: message texts other than the escalation note, approver identity and decision time are left out; the caller's commit or rollback after an expiry is an argument.
- Approvals.Service.RunLadder: message texts and delivery references are left out, a failed delivery appears as a pass that rolls back, and fractions of the window are compared exactly rather than in floating point.
- ApprovalRaces.AnnouncedButNotHeldIff: each write of a pass counts as committed when it is made, since its row stays locked until the pass commits; passes that roll back are the `BrokenLadder` steps.
- Tokens.Store.VerifyToken: a body that is signed but is not a token's claims is refused rather than raising, which no signed body reaches; texts with lone surrogates are left out.
- TokenSafety.AtMostOnce: about committed verifications; a verification whose transaction is rolled back releases the id.
- CampaignRuntime.Sender.ProcessBatch: the halt reasons are named without the figures in them; the messages themselves, their audit entries and tokens are left out, so a send that raises may still have left the building; queued rows created together are picked in insertion order.
- CampaignRuntime.BudgetsDrain: with the halting signals quiet and no send raising; otherwise the batch halts or stops short, as `ProcessBatch` says.
- PriceInputs.InputRefs: works on the syntax tree; the rewriting of formula text into Python text and the parser are left out, as are second generators of a comprehension.
- PriceSafety.SameFigures: operators and registered functions have arbitrary but fixed meanings, so a function that itself looks up the changed item is outside; rate snapshots recorded as provenance are not part of the figures.
- PriceSafety.UnchangedAgreeIff: floating-point values are exact, and not-a-number is left out.
- Billing.Service.AssignSubscription: reconciling agent instances with the new plan in the same transaction is left out.
- BillingSafety.SoldTermsNeverChange: deleting an organisation, which deletes its subscription history, and the seeder that rewrites canonical presets are left out.
- Cron.FieldMatches: numbers in ASCII digits, and blanks of the ASCII kinds, only.
- Scheduler.Process.RunDue: the jobs themselves are left out; a job that raises still counts as run, as in the program.
- Keyset.ListItems: columns other than the two of the key, tenant isolation, and the text forms of times and ids, which are assumed to read back.
- Fusion.Fuse: exact rationals instead of floating point.
- Fusion.Hybrid: the keyword and the nearest-neighbour queries are arguments.

Not modelled at all:

- Quote flagging beyond the flag, availability transitions, import states, landing lifecycle, churn and silent-lead classification: small tables that would add only easy members.
- Tenant isolation by row-level security, authentication, HTTP routes, configuration, telemetry, rendering, seeds, exports and analytics.
- Copying plans, charges, budgets and the billing roll-up; requesting a campaign send beyond its status change; certification of packs.
