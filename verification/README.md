# A verified model of rustmistmcp

This project states what the Mist MCP server and its catalog generator promise, as a Dafny model of
their logic, and proves it for every input, every run and every interleaving. `dafny verify
dfyconfig.toml` checks all of it.

## The change-set lifecycle

`ChangeSets` holds the record, how a plan is staged, the guard key, and the coordinator as a class with
one method per operation. `ApplyProtocol` is a step machine: any number of plans, approvals, lab-mode
waivers and applies interleave; every read, write, recorder call and coordinator call may fail; a call
may be cancelled and the process restarted between any two steps; objects may be changed from outside.
The machine keeps a log of what happened. `ApplyLaws` states what must precede each log entry and the
invariant that makes it so; `ApplyFrames`, `ApplySteps`, `ApplySettlement` and `ApplyRuns` prove that
every step keeps it; `ApplyProgress` proves what no run undoes; `ApplyTheorems` draws the results.
`ApplySucceeds` shows that they are not met by doing nothing. `ApplySpellings` is about the one way, short
of an outsider, in which an update is lost: two applies that name one object by different texts hold
different guards.

`ApplyCall` is the plan, approve and apply calls in their own form, a class whose methods return early and
assign fields, each proved to be a run of the machine, so that the results hold of it, and to end as its
circumstances decide.

## Schemas

`SchemaReferences` is the generator's reference check, shown equivalent to "every reference resolves and
the reference graph has no cycle". `Relaxation` is the response rewrite, both as the top-down walker that
edits an object before it descends and as a bottom-up function. `SchemaSemantics` gives the meaning of
the positive fragment of JSON Schema 2020-12 (Core sections 10.2.1, 10.3.1.2 and 10.3.2; Validation
sections 6.1.1, 6.1.2 and 6.5.3; and `$ref`), and `RelaxationWeakens` proves that relaxing only weakens.
`ValidatorCache` is the memo table under racing threads, and `ValidatorAnswers` says what the validators
it hands out accept.

## The rest

`MergePatch` compares the server's merge with section 2 of RFC 7396 and covers the two rejection walks.
`EditDistance` proves the two-row loop against the recursive distance, and that against shortest edit
scripts. `SiteDiscovery` and `SiteRefresh` are the paging loop, the merge and the refresh loop.
`RateLimit` and `PageWalk` are the call budget and the page cursors. `ToolName` is the name transform in
both of its programs, `Initialisms` what becomes of the branded initialisms, and `ToolWords` what the words
of a name are, told from the spelling alone.

## Assumptions

- Serialising a value and hashing it, and digesting a plan, are injective; fingerprints and digests stand
  for what they were computed over.
- The coordinator does what the comments in `server/mod.rs` say of it: one lock per operation, `Approved`
  to `Applying` only by the claim, a plain update only from `Applying` to `Applied` or `Failed`, approval
  checks in the listed order, and on reload a handleless `Applying` record stays while another becomes
  `Failed`. Records are never removed.
- A waiver needs a planned record and its digest echoed, and records no approver; unlike an approval it
  looks at neither the owner, nor the actor, nor the expiry, and leaves the expiry as it was.
- What Mist makes of an identifier in a request's path is some function of type, organisation and text.
  Nothing is assumed of it: two texts may name one object, as they do where the path is folded.
- Change-set identifiers are random, so never reused. Each call has its own identity.
- A write takes effect no later than its reply. One that is cancelled in flight and takes effect after its
  guard is gone counts as an outside change.
- A create never replaces an existing object; Mist picks its identifier and decides any write's result.
- A stored preview always parses, and holds what was staged.
- Clocks never go back within a process.
- JSON numbers are real numbers, object members have no order, and texts are sequences of characters.

## Where the code and its documentation differ

The model follows the code. `merge_patch` is documented as a merge-patch but inserts an absent key's value
as it stands (`MergeConformsIff`, `NestedNullIsKept`). Two edits of one object are said to serialize, but
the guard is keyed by the text of an identifier (`FoldingHasTwoSpellings`, `TwoSpellingsLoseAnUpdate`). Each
initialism is said to stay one word, but `WIFIoT` becomes `WifioT` (`InitialismsBecomeWords`).
The comments on `relaxed_components` list three relaxations; the code makes five. The comment on
`MAX_TOTAL_SITES` says a map handed over is never refused for its size; a refresh can be (`RefreshMayBeRefused`). The relaxation is meant only to weaken, but the walker takes
declared names for keywords (`PropertyCalledOneOfStrengthens`, `PropertyCalledEnumStrengthens`).

## Model

| member | source | states |
|---|---|---|
| ChangeSets.ObjectKeyEqualIff | crates/rustmistmcp/src/server/change_set.rs:46-58 | two guard keys are equal exactly when type and identifier text are, so guards separate objects; only an object called `new` shares the key of its type's creates |
| ChangeSets.Coordinator.InsertChangeSet | crates/rustmistmcp/src/server/change_set.rs:209 | an insert stores a record whose identifier is new, or changes nothing |
| ChangeSets.Coordinator.ApproveChangeSet | crates/rustmistmcp/src/server/mod.rs:2992-3010 | exactly when an approval is granted, the checks in their order, and the whole new store |
| ChangeSets.Coordinator.WaiveApproval | crates/rustmistmcp/src/server/mod.rs:2774-2795 | a waiver takes a planned record whose digest is echoed to approved, and nothing else |
| ChangeSets.Coordinator.ClaimChangeSetForApply | crates/rustmistmcp/src/server/mod.rs:3418-3429 | the only edge from approved to applying, read and write in one |
| ChangeSets.Coordinator.UpdateChangeSet | crates/rustmistmcp/src/server/mod.rs:3315-3333 | a plain update is refused except from applying to a final state |
| ApplySteps.CallStep | crates/rustmistmcp/src/server/mod.rs:3080-3093 | a step by one apply keeps the invariant for every other call, given only that it leaves their claims and guarded objects alone |
| ApplySteps.NotSentBefore | crates/rustmistmcp/src/server/mod.rs:3430-3449 | whoever holds a change set's claim and has not written it is the first to |
| ApplyRuns.StepKeepsInv | crates/rustmistmcp/src/server/mod.rs:3052-3640 | every step of every call keeps the whole invariant |
| ApplyRuns.ReachableIsLawful | crates/rustmistmcp/src/server/mod.rs:3052-3640 | whatever the interleaving and wherever it stops, every log entry was preceded by what it needs |
| ApplyProgress.StepOnlyForward | crates/rustmistmcp/src/server/mod.rs:3334-3349 | no step leads a record back, none changes its plan, and a final record is never touched |
| ApplyProgress.StepTruthful | crates/rustmistmcp/src/server/mod.rs:3470-3547 | every step keeps what returned calls said true of the log |
| ApplyTheorems.AtMostOneWrite | crates/rustmistmcp/src/server/mod.rs:3430-3501 | over any run a change set is sent at most once, by the call that made its only claim, after that claim |
| ApplyTheorems.RecordsOnlyMoveForward | crates/rustmistmcp/src/server/mod.rs:3612-3627 | over any stretch of any run no record returns to approved, and applied or failed records never change |
| ApplyTheorems.RestartLeavesWritesUnresolved | crates/rustmistmcp/src/server/mod.rs:3425-3429 | a restart leaves a record claimed for its write as it was, and no later step of any run changes it; a record claimed only for drift becomes failed, and no other record changes |
| ApplyTheorems.OnlyApprovedBodiesAreSent | crates/rustmistmcp/src/server/mod.rs:3138-3149 | every body sent is the one its plan's digest covers, approved by a verified human other than the owner echoing that digest or waived with lab mode on, fetched no later than the expiry of that one approval, for an allowed organisation |
| ApplyTheorems.IntentThenClaimThenWrite | crates/rustmistmcp/src/server/mod.rs:3386-3416 | with a recorder, a persisted intent precedes the claim, which precedes the write |
| ApplyTheorems.ReceiptsAreTrue | crates/rustmistmcp/src/server/mod.rs:3569-3610 | a call has at most one receipt, only after an answer, and it reports success if and only if the verifying read equalled the approved body |
| ApplyTheorems.ReadsBackWhatWasWritten | crates/rustmistmcp/src/server/mod.rs:3504-3552 | in every run the verifying read goes to what the one reply to the write named, after a create, and after an update to the object the plan names, where the write landed |
| ApplyTheorems.WhatAReturnMeans | crates/rustmistmcp/src/server/mod.rs:3470-3627 | an early return claimed and wrote nothing; drift sent nothing; no answer means no receipt; an answer means a receipt unless it was lost; a create without an identifier is not left applied; a verdict is the stored state; nothing claimed stays applying unless the coordinator refused the update |
| ApplyTheorems.RecordChangeIsLogged | crates/rustmistmcp/src/server/mod.rs:3113-3127 | an apply changes records only in a step that logs its claim or its settlement |
| ApplyTheorems.EarlyReturnLeavesRecords | crates/rustmistmcp/src/server/mod.rs:3113-3449 | over any run, an apply that comes to return before its claim, other than for drift, changes no record in any of its steps |
| ApplyTheorems.NoLostUpdate | crates/rustmistmcp/src/server/mod.rs:3226-3369 | in every run every update write replaces exactly the state its plan read from that same object, unless after the drift check an outsider, or an apply naming the object by another text, changed it; and its body holds only inherited markers and placeholders |
| ApplyTheorems.OneTextKeepsUpdates | crates/rustmistmcp/src/server/change_set.rs:33-58 | so where every plan for an object names it by one text, only an outsider can come between |
| ApplySpellings.FoldingHasTwoSpellings | crates/rustmistmcp-core/src/client.rs:341-355 | a server that folds paths resolves `ID` and `x/../ID` alike, under different guard keys |
| ApplySpellings.NoLostUpdateIff | crates/rustmistmcp/src/server/change_set.rs:33-58 | over all runs no update is lost without an outsider if and only if identifiers that name one object are one text |
| ApplySpellings.TwoSpellingsLoseAnUpdate | crates/rustmistmcp/src/server/mod.rs:3074-3093 | two texts for one object: for any object and any two guarded patches there is a run, with no outsider, in which both calls return verified and both sets are applied, yet the second replaced the first's body and what only the first patch set is gone |
| ApplyTheorems.OutsideChangeIsOverwritten | crates/rustmistmcp/src/server/mod.rs:3451-3469 | an outside change between drift check and write is overwritten unseen, whatever it is |
| ApplyCall.Server.PlanMistChange | crates/rustmistmcp/src/server/mod.rs:2576-2830 | a plan call is a run of the machine; exactly when it succeeds, and the whole record it stores: the merged body, its fingerprint and digest, an hour to live, approved at once exactly in lab mode |
| ApplyCall.Server.ApproveMistChangeSet | crates/rustmistmcp/src/server/mod.rs:2966-3047 | exactly when an approval succeeds, and the store it leaves; a caller without a token never can |
| ApplyCall.Server.CheckDrift | crates/rustmistmcp/src/server/mod.rs:3225-3366 | the drift section is a run: a readable, unchanged object goes on, an unreadable one ends the call, a drifted one spends the approval and ends it; no other end changes a record |
| ApplyCall.Server.IssueWrite | crates/rustmistmcp/src/server/mod.rs:3451-3545 | the write section is a run; it leaves the objects as Mist decides, ends exactly when no reply comes, and else yields the identifier to read back: the one the reply names after a create, the one the call names after an update |
| ApplyCall.Server.ApplyMistChangeSet | crates/rustmistmcp/src/server/mod.rs:3052-3640 | an apply left to itself is a run of the machine from any state, always returns, gives its guard back on every path, and ends, and leaves objects and records, as its circumstances decide |
| ApplyCall.EndsVerifiedIff | crates/rustmistmcp/src/server/mod.rs:3052-3640 | exactly which circumstances end a call verified, said of the record, the objects and the reply themselves |
| ApplyCall.EndingsDecided | crates/rustmistmcp/src/server/mod.rs:3052-3640 | exactly which circumstance gives each of the other endings |
| ApplyCall.AllWellIsApplied | crates/rustmistmcp/src/server/mod.rs:3052-3640 | when all goes well with an update that is the ending and the object is the approved body |
| ApplyCall.AllWellCreateIsApplied | crates/rustmistmcp/src/server/mod.rs:3504-3552 | and with a create, when Mist stores the approved body at a free place and the reply names it; the objects gain exactly that |
| ApplySucceeds.AnApprovedUpdateCanBeApplied | crates/rustmistmcp/src/server/mod.rs:3052-3640 | from any state with its guard free, an approved, unexpired, undrifted update has a run that leaves the object equal to the approved body, only its record changed, to applied, the call verified and a success receipt |
| ApplySucceeds.AnApprovedCreateCanBeApplied | crates/rustmistmcp/src/server/mod.rs:3504-3627 | so has an approved, unexpired create, at any free place and under any name the reply gives it; the objects gain exactly the approved body there |
| MergePatch.MergePatch | crates/rustmistmcp/src/server/wan_write.rs:193-214 | the loop over the patch computes the recursive merge |
| MergePatch.MergeConformsIff | crates/rustmistmcp/src/server/wan_write.rs:193-214 | the merge is that of RFC 7396 exactly when no value inserted at an absent key holds a null member outside arrays |
| MergePatch.MergeIdempotentIff | crates/rustmistmcp/src/server/wan_write.rs:193-214 | and exactly then is applying a patch twice the same as once |
| MergePatch.NestedNullIsKept | crates/rustmistmcp/src/server/wan_write.rs:204-210 | the smallest divergence: a null inside a value for an absent key is kept |
| MergePatch.MergeKeepsUnmentioned | crates/rustmistmcp/src/server/wan_write.rs:185-192 | whatever the patch does not mention stays as it was, at any path |
| MergePatch.MergeSetsLeaf | crates/rustmistmcp/src/server/wan_write.rs:193-214 | every value of the patch that is no object and not null is at its path in the result |
| MergePatch.MergeDeletes | crates/rustmistmcp/src/server/wan_write.rs:204-207 | a null of the patch removes what stood at its path |
| MergePatch.MergeProvenance | crates/rustmistmcp/src/server/wan_write.rs:193-214 | every value in the result comes from the same path of the patch or of the object |
| MergePatch.ConfigAuthorityWalkExact | crates/rustmistmcp/src/server/wan_write.rs:164-182 | the walk accepts exactly the patches with no `mist_configured` member anywhere |
| MergePatch.RedactionWalkExact | crates/rustmistmcp/src/server/wan_write.rs:135-154 | the walk accepts exactly the patches with no string holding the placeholder anywhere |
| MergePatch.GuardedMergeOnlyInherits | crates/rustmistmcp/src/server/wan_write.rs:135-214 | after both walks, every such member and string in the merged result was at the same path with the same value before |
| EditDistance.LevenshteinDistance | crates/rustmistmcp/src/server/similarity.rs:24-60 | the two swapped rows compute the recursive distance of the lower-cased texts, for any lower-casing |
| EditDistance.DistanceIsMetric | crates/rustmistmcp/src/server/similarity.rs:20-24 | zero exactly on equal texts, symmetric, triangle inequality, between the length difference and the longer length |
| EditDistance.DistanceIsShortestScript | crates/rustmistmcp/src/server/similarity.rs:20-24 | the distance is the length of a shortest script of single-character edits |
| SchemaReferences.RegistryAcceptedIffWellFormed | scripts/generate-mist-catalog.py:403-406 | generation accepts a registry exactly when every `$ref` is the local text naming one of its objects and the graph of these has no cycle; the check terminates on every finite registry |
| SchemaReferences.OperationSchemaAcceptedIff | scripts/generate-mist-catalog.py:103-125 | over an accepted registry a schema is accepted exactly when its references resolve |
| SchemaReferences.ResolveComponentIff | scripts/generate-mist-catalog.py:85-100 | following a component reference ends at a value exactly when a cycle-free chain of local references leads there |
| Relaxation.RelaxForResponses | crates/rustmistmcp-core/src/catalog.rs:910-939 | the walker that edits an object and then descends computes the bottom-up rewrite |
| Relaxation.RewriteCommutes | crates/rustmistmcp-core/src/catalog.rs:910-939 | editing before or after the descent gives the same |
| Relaxation.RelaxIdempotent | crates/rustmistmcp-core/src/catalog.rs:910-989 | relaxing twice is relaxing once, on every JSON value |
| Relaxation.RelaxedHasNone | crates/rustmistmcp-core/src/catalog.rs:913-924 | at no path of any relaxed document is there an `enum`, a `required`, a `oneOf`, or an `additionalProperties` that is false |
| Relaxation.RelaxedExactly | crates/rustmistmcp-core/src/catalog.rs:910-939 | which members of an object remain, under which name, and that they are relaxed in turn |
| Relaxation.RelaxedTypeExactly | crates/rustmistmcp-core/src/catalog.rs:942-989 | the types a relaxed schema names: the declared ones, null, and numbers beside integers |
| Relaxation.RelaxedIgnoresPins | crates/rustmistmcp-core/src/catalog.rs:880-890 | what a document declares as `enum`, `required` or closed leaves no trace in the relaxed one |
| RelaxationWeakens.RegistrySurvivesIff | crates/rustmistmcp-core/src/catalog.rs:466-472 | relaxing the components document relaxes each schema in place exactly when no component is called `enum`, `required` or `oneOf` |
| RelaxationWeakens.RelaxedIsAccepted | crates/rustmistmcp-core/src/catalog.rs:910-939 | a relaxed schema over the relaxed registry still passes the reference check |
| RelaxationWeakens.RelaxationOnlyWeakens | crates/rustmistmcp-core/src/catalog.rs:910-989 | every value valid under a schema of the fragment, with every component it reaches in the fragment, is valid under the relaxed schema with the relaxed registry, through references, with discriminators, and when `oneOf` overwrites a sibling `anyOf` |
| RelaxationWeakens.ResponseValidationOnlyWeakens | crates/rustmistmcp-core/src/request.rs:445-458 | so response validation accepts every body that the declared schema accepts |
| RelaxationWeakens.PinsAreNotJudged | crates/rustmistmcp-core/src/catalog.rs:859-906 | whether a body is valid under a relaxed schema does not depend on the declared `enum`, `required` or closed `additionalProperties` |
| RelaxationWeakens.RelaxedTypeAdmits | crates/rustmistmcp-core/src/catalog.rs:942-989 | the relaxed `type` admits exactly the declared types, null, and numbers where integers were declared |
| RelaxationWeakens.PropertyCalledOneOfStrengthens | crates/rustmistmcp-core/src/catalog.rs:918-930 | a declared property called `oneOf` makes the relaxed schema refuse a valid body |
| RelaxationWeakens.PropertyCalledEnumStrengthens | crates/rustmistmcp-core/src/catalog.rs:913-917 | so does one called `enum` beside an `additionalProperties` schema |
| ValidatorCache.Cache.CachedValidator | crates/rustmistmcp-core/src/catalog.rs:423-449 | one call: the entry if there is one, else the compiled document, remembered unless it failed |
| ValidatorCache.UninterruptedCallIsRun | crates/rustmistmcp-core/src/catalog.rs:423-449 | such a call is a run of the threads' machine |
| ValidatorCache.CacheAgreesIff | crates/rustmistmcp-core/src/catalog.rs:423-449 | in every interleaving of threads, poisoned locks included, every answer is the uncached one, exactly when sites with equal keys have equal documents |
| ValidatorCache.UniqueCatalogKeysNameRoots | crates/rustmistmcp-core/src/catalog.rs:372-380 | unique identifiers, keys and parameter names give that |
| ValidatorAnswers.RequestsAreJudgedAsDeclared | crates/rustmistmcp-core/src/request.rs:445-449 | whatever threads race, who asks for the validator of a body or a parameter gets one that accepts exactly what the declared schema does over the declared components |
| ValidatorAnswers.ResponsesAreNotPinned | crates/rustmistmcp-core/src/request.rs:450-457 | who asks for that of a response gets one whose document holds no `enum`, `required`, `oneOf` or closed `additionalProperties`, and which accepts the same whatever of these was declared |
| ValidatorAnswers.DeclaredResponsesAreAccepted | crates/rustmistmcp-core/src/request.rs:450-457 | and which accepts every body that the declared schema does |
| ValidatorAnswers.EverySiteIsAnswered | crates/rustmistmcp-core/src/catalog.rs:423-449 | every site whose document compiles is answered in some run |
| ValidatorCache.RepeatedParameterMisleads | crates/rustmistmcp-core/src/catalog.rs:359-391 | the uniqueness that loading checks does not: any catalog that loads still loads with one parameter declared again under another schema, and if both compile some run hands the second the first's validator |
| ValidatorCache.RepeatedLoads | crates/rustmistmcp-core/src/catalog.rs:597-632 | such a repetition passes the checks made of an operation |
| ValidatorCache.GatherParameters | scripts/generate-mist-catalog.py:213-229 | generation emits each location and name once |
| ValidatorCache.LastDeclarationWins | scripts/generate-mist-catalog.py:213-229 | and keeps the last declaration of each |
| SiteDiscovery.DiscoverOrgSites | crates/rustmistmcp/src/site_discovery.rs:159-219 | the nested loops with their early exits compute the recursive pass |
| SiteDiscovery.FillFullIff | crates/rustmistmcp/src/site_discovery.rs:193-212 | the cap stops a page exactly when its canonical sites do not all fit under it |
| SiteRefresh.CanonicalIff | crates/rustmistmcp-core/src/target.rs:117-136 | exactly which identifiers are canonical |
| SiteDiscovery.PassOverExact | crates/rustmistmcp/src/site_discovery.rs:159-219 | whatever Mist answers, the map stays under the cap and changes only by assigning listed canonical sites to the organisation; a complete pass assigned all of them |
| SiteDiscovery.CompleteIff | crates/rustmistmcp/src/site_discovery.rs:166-219 | a pass is complete exactly when its last page was answered and all it listed fits under the cap |
| SiteDiscovery.CompleteMeansAll | crates/rustmistmcp/src/site_discovery.rs:21-33 | with distinct canonical sites, complete means a page shorter than the limit was reached and the organisation holds exactly what it listed |
| SiteDiscovery.CompleteWithoutEnd | crates/rustmistmcp/src/site_discovery.rs:166-219 | without that, a complete pass may never have seen a short page |
| SiteRefresh.DiscoverSites | crates/rustmistmcp/src/site_discovery.rs:98-131 | the loop over organisations computes the recursive discovery |
| SiteRefresh.DiscoveryIsListed | crates/rustmistmcp/src/site_discovery.rs:98-131 | the cap holds over all organisations and every entry was listed by the organisation it names |
| SiteRefresh.IncompleteIff | crates/rustmistmcp/src/site_discovery.rs:98-131 | an organisation is incomplete exactly when a pass over it, on top of what was found before, was |
| SiteRefresh.CompleteOrgIsFound | crates/rustmistmcp/src/site_discovery.rs:74-86 | nothing a complete organisation lists is missing, and it keeps what no other lists |
| SiteRefresh.MergeRefresh | crates/rustmistmcp/src/site_discovery.rs:140-157 | the filter and the insertions compute the merge |
| SiteRefresh.RefreshExact | crates/rustmistmcp/src/site_discovery.rs:133-157 | an incomplete organisation keeps exactly its previous entries; a complete one has exactly what was found, less what an incomplete one still holds |
| SiteRefresh.SiteTable.ReplaceSites | crates/rustmistmcp/src/server/mod.rs:341-345 | the install takes all of a valid map or nothing |
| SiteRefresh.SiteTable.RefreshLoop | crates/rustmistmcp/src/site_discovery.rs:235-266 | the loop is the run of its passes |
| SiteRefresh.RefusedIffTooMany | crates/rustmistmcp/src/server/mod.rs:181-195 | an install is refused exactly when the merged map is over the cap |
| SiteRefresh.RefreshMayBeRefused | crates/rustmistmcp/src/site_discovery.rs:29-33 | which happens: one organisation lists, on 41 pages, as many sites as the cap allows, another fails and keeps one, and nothing is installed though the pass stayed under the cap |
| SiteRefresh.RunStaysValid | crates/rustmistmcp/src/server/mod.rs:178-195 | every installed map is under the cap and gives lower-case canonical sites to allowed organisations only |
| SiteRefresh.DroppedOnlyByCompletePass | crates/rustmistmcp/src/site_discovery.rs:133-157 | over any sequence of passes a site is dropped or reassigned only by one that completed for the organisation holding it |
| RateLimit.RateLimitBudget.TryAcquire | crates/rustmistmcp-core/src/rate_limit.rs:123-136 | exactly when a call is granted, and the window it leaves |
| RateLimit.RateLimitBudget.Status | crates/rustmistmcp-core/src/rate_limit.rs:112-116 | looking consumes nothing but may start a window, and what it reports as remaining is exactly how many further calls of each priority that window would grant |
| RateLimit.StatusIsExact | crates/rustmistmcp-core/src/rate_limit.rs:100-116 | at any point of any run the status counts what its window granted, and what would still be granted of each priority |
| RateLimit.WindowsStayWithinBudget | crates/rustmistmcp-core/src/rate_limit.rs:72-137 | over any run each window grants at most the limit less the reserve to standard callers, and the limit in all |
| RateLimit.RefusedIff | crates/rustmistmcp-core/src/rate_limit.rs:123-133 | over any run a call is refused if and only if its window has granted, in all, the limit less the reserve to a standard caller, or the whole limit to a human |
| RateLimit.ReserveIsKept | crates/rustmistmcp-core/src/rate_limit.rs:3-9 | a human is refused only after humans were granted the whole reserve in that window |
| RateLimit.AnyHourIsBounded | crates/rustmistmcp-core/src/rate_limit.rs:93-98 | any half-open hour, however aligned, holds at most twice the limit |
| RateLimit.TwiceTheLimitHappens | crates/rustmistmcp-core/src/rate_limit.rs:93-98 | and, for every positive limit, can hold that many |
| PageWalk.ParsePrinted | crates/rustmistmcp-core/src/client.rs:475-480 | a printed 64-bit number parses back to itself |
| PageWalk.PrintedParsed | crates/rustmistmcp-core/src/pagination.rs:98-107 | whatever parses is digits after at most one plus sign, and prints back without leading zeros |
| PageWalk.ParsedIff | crates/rustmistmcp-core/src/pagination.rs:98-107 | and exactly those texts parse to that number |
| PageWalk.SaturatingAgrees | crates/rustmistmcp-core/src/client.rs:472-474 | the saturating test agrees with unbounded arithmetic |
| PageWalk.IncrementNeverFails | crates/rustmistmcp-core/src/client.rs:475-480 | where it goes on, the checked increment succeeds |
| PageWalk.PagesAreAccepted | crates/rustmistmcp-core/src/pagination.rs:78-116 | every positive page number, printed, passes cursor construction |
| PageWalk.NewCursorIff | crates/rustmistmcp-core/src/pagination.rs:78-116 | exactly which values make a cursor |
| PageWalk.DerivesNextPage | crates/rustmistmcp-core/src/client.rs:454-484 | a cursor is derived exactly when all three numbers came, the limit is not zero and pages are left, and it names the next |
| PageWalk.DerivesSearchAfter | crates/rustmistmcp-core/src/client.rs:425-465 | a search cursor is derived exactly when the `next` link holds a value that is not empty and fits, and it carries that value to the query |
| PageWalk.DerivedCursorContinues | crates/rustmistmcp-core/src/client.rs:357-370 | a derived cursor may continue only what it was derived for, passes its own validation, and the request it makes changes only the query key of its mode |
| PageWalk.WalkAsksForEveryPageOnce | crates/rustmistmcp-core/src/client.rs:454-484 | following cursors asks for pages one to the last once each, in order, and stops |
| ToolName.CatalogToolName | crates/rustmistmcp-core/src/catalog.rs:493-550 | the server's loop, with its own boundary test, computes the reference name; its last check cannot fail |
| ToolName.GeneratorToolName | scripts/generate-mist-catalog.py:40-68 | the generator's loop, with its own tests on one-character texts, computes the same name |
| ToolName.NormalisedKeeps | crates/rustmistmcp-core/src/catalog.rs:507-514 | the seven replacements together change case only |
| Initialisms.InitialismsBecomeWords | crates/rustmistmcp-core/src/catalog.rs:507-514 | wherever one of the seven initialisms stands in an identifier it becomes its one-word form, except exactly an `IoT` or `IOT` that starts at the end of a `WIFI` |
| Initialisms.OnlyInitialismsChange | crates/rustmistmcp-core/src/catalog.rs:507-514 | and nothing else changes |
| ToolWords.NameIsItsWords | crates/rustmistmcp-core/src/catalog.rs:515-541 | an identifier spelled, after that, as words - capitals, capitals with a number, or capitalised, a capitalised one after plain capitals - is named by those words in lower case with underscores between them |
| ToolWords.NamedIffSpelled | crates/rustmistmcp-core/src/catalog.rs:493-506 | exactly the identifiers of letters and digits, a letter first, have a name, and each of them is so spelled |
| ToolName.NameErasesToId | crates/rustmistmcp-core/src/catalog.rs:493-550 | without prefix and underscores a name is its identifier in lower case |
| ToolName.EqualNamesOnlyUpToCase | crates/rustmistmcp-core/src/catalog.rs:371-380 | equal names come only from identifiers equal up to case |
| ToolName.NamesEqualIff | crates/rustmistmcp-core/src/catalog.rs:515-537 | and exactly from those whose words, the initialisms replaced, start at the same places |
| ToolName.NamesHaveNoEmptyWord | crates/rustmistmcp-core/src/catalog.rs:515-537 | no word of a name is empty |
| ToolName.CaseMayNotShow | crates/rustmistmcp-core/src/catalog.rs:507-514 | two identifiers that differ in case may share a name |
| ToolName.CaseMayShow | crates/rustmistmcp-core/src/catalog.rs:522-533 | or have different ones |

## Left out

- RelaxationWeakens.RelaxationOnlyWeakens: one direction only, for schemas of the fragment and without declared properties called `oneOf` or `$ref`; which other schemas the rewrite happens to weaken is schema containment itself, and the two witnesses show that it does strengthen some.
- ApplyCall.Server.ApplyMistChangeSet: the method takes its guard at once; waiting for one is the machine's, where any number of calls wait.
- ValidatorCache.GatherParameters: the emitted order, which the generator then sorts, is not modelled.
- ValidatorCache.RepeatedParameterMisleads: of the checks made on loading, the operation count, the pinned source and the fingerprints, which describe one particular document, are not modelled.
- Similarity scores and suggestions, which rest on floating-point thresholds.
- The retry loop on rate-limited replies, a bounded wait on values Mist chooses, and the size bounds on requests and responses, which are comparisons with constants: neither carries state between calls.
- Keywords of JSON Schema outside the fragment: those the rewrite leaves alone are an arbitrary predicate, and `not`, `if`, `const`, `unevaluated` keywords and `maxContains` are excluded.
- The literal totals, fingerprints and policy tables of the embedded catalog, and the selector tables of the five configuration objects: finite data.
- The content of audit lines, tool replies and their redaction, and the proposal entry in the evidence.
- HTTP, TLS, MCP routing, task scheduling, the command line, signals and token files.
- The shared `mecmcp` libraries beyond the contracts assumed above.
