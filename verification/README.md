# HestivaOS quote pipeline: a verified model

HestivaOS takes a cleaning enquiry over WhatsApp or the website, interviews the customer, prices the work, offers a
Quote and turns an accepted Quote into a work order. Most of its writes are one serializable transaction, and a crash,
a retry, a second worker or a human takeover can come between any two of them. This project models that pipeline in
Dafny, one transaction per step, and proves what every interleaving keeps.

`dafny verify dfyconfig.toml` checks all of it.

## How the model is built

- **Messaging conversation** (`Json`, `Text`, `QuoteState`, `SubmissionInput`, `ConversationStore`,
  `SubmissionProtocol`, `SubmissionResults`, `SubmissionService`, `SubmissionJourney`, `SubmissionSteps`, `SubmissionEvidence`,
  `SubmissionRefusals`). The stored snapshot is a JSON value with a recursive deep merge and six transitions.
  `Conversation` is the row behind a compare-and-set on `quoteStateVersion`, fenced by the control version.
  `SubmissionProtocol` lets any number of workers reserve a key, look up, create and link a Quote, and crash anywhere.
  Start: automation, control version 0, no draft.
- **Guided interview** (`InterviewBase`, `GuidedHome`, `GuidedCleaning`, `GuidedPostEvent`, `GuidedPersonalise`,
  `GuidedVisitHousehold`, `GuidedFinalDetails`, `Interview`, `InterviewResults`). The 66 question ids are numbered in
  the order the six modules ask them; each module has its next-question and apply-answer function. `InterviewForms`
  describes the questions a second time, as customers read them: the printed lines or the format asked for, and the
  place of the answer. `InterviewAnswers`, `InterviewServices`, `AnswerFormats` and `InterviewCourse` prove that
  replies are recorded, and questions asked, exactly as those forms say; `InterviewCommits` takes answers through the
  conversation row.
- **Pricing** (`QuoteFacts`, `PostEventCleaning`, `QuoteProfitability`, `QuoteCosts`, `QuotePricing`,
  `QuotePricingMethods`, `QuoteOffers`, and what each fact charges: `QuotePricingEffects`, `PostEventEffects`). Money
  is whole cents, cleaner-hours are counted in half-hours, rates and distances are exact rationals. The methods that
  push into shared line and reason lists are a class, `Worksheet`, proved against the sheets of `QuotePricing`.
- **Quote lifecycle** (`QuoteLifecycle`, `QuoteLifecycleRuns`, `QuoteDesk`, `QuoteEffects`, `QuoteRefusals`).
  Creation, pricing review (prepared outside its transaction, committed inside), match resolution, acceptance and
  decline of one Quote, while other writers add customers, properties and work orders.
- **Customer links and answers** (`QuoteCustomerAccess`, `QuoteCustomerResponse`, `QuoteLinkEffects`,
  `QuoteAnswerJourneys`, `QuoteJourney`). Grants, evidence, and calls that stop between any two of their transactions;
  `QuoteJourney` goes from a submission to a converted Quote.
- **WhatsApp Flow sessions** (`FlowSessions`, `FlowSessionRuns`, `FlowSessionEffects`). The second way to a Quote,
  whose Quote transaction commits even when the session transaction around it is lost.
- **Independent cores**: `CommentStripper`, `Attention` with `AttentionResults` and `AttentionEffects`, `OutboundLog`
  with `OutboundEffects`, `DeliveryChain` with `DeliveryEffects`.

Code that updates rows or accumulators is a class or a method with loops, proved equal to a specification function;
the properties are lemmas about those functions and about runs of steps. The modules named after effects, steps,
answers and refusals say what each function does without its own code: by cause, by field read back, or by exact
condition. Times, random tokens, new ids, the outcome of provider calls and of photo storage are inputs of the step
that uses them.

Field validation, the SHA-256 digest, ISO dates and the review summary text are arbitrary functions in `Rules`. Where
a result needs it, `Lawful` says that the digest does not collide and gives solid text, and that an ISO date reads
back as the instant it was written from. The Flow mapper and the fingerprint of a Flow response are likewise arbitrary
in `FlowRules`; its `Lawful` asks only that keys of different sessions or fingerprints differ. Both hypotheses are
shown to be satisfiable (`QuoteState.LawfulRulesExist`, `FlowSessions.LawfulRulesExist`).

## What the code does that one might not expect

- Regular Home Cleaning is never offered: it always asks for a room-configuration review, and no detail of a pricing
  review answers it (`QuoteLifecycleRuns.RegularCleaningIsNeverOffered`).
- Structured laundry of a submission that is not website contract V2 is neither priced nor sent to review
  (`QuoteOffers.OtherChannelsDoNotPriceLaundry`).
- Two draft patches cannot always be merged into one: a null or other leaf in the first hides an object in the second
  (`Json.PatchesComposeExactlyWhen`).
- A second uncertain provider outcome does not block the next send, because pending events are capped at two
  (`OutboundLog.UncertainBlocksExactlyWhen`).
- Capturing a late Flow completion leaves its session open, because the EXPIRED write is rolled back by the exception
  that follows it (`FlowSessionRuns.LateCompletionsLeaveNoTrace`). The inbound path expires due sessions before it
  captures, so there this happens only to a session that becomes due between the two
  (`FlowSessionRuns.InboundLateCompletionsExpire`).
- A comment directly after a slash is read as a line comment and takes the rest of the line with it
  (`CommentStripper.CommentAfterASlash`, `CommentStripper.BlockCommentIsHarmlessExactlyWhen`).
- Post-event cleaning, called directly, reviews half a bathroom but prices one; quote facts with such a count are
  refused before pricing. More work is never easier exactly under the guard of
  `PostEventCleaning.NeverEasierExactlyWhen`.
- More post-event work can take fewer hours: the band of 150 guests or more counts as no guest hours at all, and a
  fractional bathroom count of two or more as no bathroom hours. Both are reviewed, so no price is affected
  (`PostEventCleaning.HoursAreMonotoneExactlyWhen`).
- The generic post-event review reason of the pricing code is never used: a refusal always lists its own reasons
  (`PostEventCleaning.RefusalsAreExplained`).

## Model

| member | source | states |
|---|---|---|
| Json.MergeProgressValue | apps/api/src/messaging/messaging-quote-state.ts:41-49 | the loop over patch entries computes the recursive merge, for every stored value and every patch |
| Json.MergeIdempotent | apps/api/src/messaging/messaging-quote-state.ts:41-49 | merging a patch a second time changes nothing |
| Json.MergeKeepsUntouchedPaths | apps/api/src/messaging/messaging-quote-state.ts:41-49 | a path that the patch neither reaches nor replaces keeps its value |
| Json.MergeInstallsLeaves | apps/api/src/messaging/messaging-quote-state.ts:41-49 | every leaf of the patch, nulls and lists included, is found at its path in the result |
| Json.PatchesComposeExactlyWhen | apps/api/src/messaging/messaging-quote-state.ts:41-49 | two patches may be merged into one first, for every stored value, if and only if the first has no leaf where the second has an object |
| Json.ComposableCompose | apps/api/src/messaging/messaging-quote-state.ts:41-49 | patches meeting that condition give the same draft applied one by one or combined |
| Json.NotComposableWitness | apps/api/src/messaging/messaging-quote-state.ts:41-49 | for every pair that misses the condition, names a stored value on which the two orders differ |
| QuoteState.LawfulRulesExist | apps/api/src/messaging/messaging-quote-creation-input.ts:37-45 | the hypotheses on digest and dates can be met with any field validation and any summary text |
| QuoteState.TransitionsKeepBackbone | apps/api/src/messaging/messaging-quote-state.ts:131-259 | a linked Quote implies a reserved key, which implies a confirmed, reviewed, complete draft free of human review; all six transitions keep this and raise the version by one or leave the snapshot alone |
| QuoteState.ReservedIsFrozen | apps/api/src/messaging/messaging-quote-state.ts:131-259 | once a submission key is reserved the only change any command can make is to link the Quote |
| QuoteState.CommandsFollowThePhases | apps/api/src/messaging/messaging-quote-state.ts:131-259 | which phases each command may start from and end in: review only from REVIEW, reservation only from READY_TO_SUBMIT, linking only from SUBMITTING, no update or human review after reservation |
| QuoteState.CommandEffects | apps/api/src/messaging/messaging-quote-state.ts:131-259 | the whole snapshot each accepted command leaves; an update voids review and confirmation, keeps the stored value of every path that its patch neither reaches nor replaces, and has every leaf of the patch at its path |
| QuoteState.PhaseReadsMarkers | apps/api/src/messaging/messaging-quote-flow.ts:40-74 | on a sound snapshot the derived phase is decided by its markers: linked, reserved, confirmed, complete without confirmation |
| QuoteState.StoredFormRoundTrips | apps/api/src/messaging/messaging-quote-state.ts:51-99 | parsing a stored snapshot gives it back unchanged if and only if versions agree, confirmation id and time come together, and the time is a date |
| QuoteState.BackboneRoundTrips | apps/api/src/messaging/messaging-quote-state.ts:51-99 | every sound snapshot survives storage, so a SUBMITTING conversation is always readable after a crash |
| SubmissionInput.CanonicalDraftProgress | apps/api/src/messaging/messaging-quote-draft.ts:60-69 | the loop keeps exactly the present fact groups of the draft and nothing else |
| SubmissionInput.KeysDoNotCollide | apps/api/src/messaging/messaging-quote-creation-input.ts:37-45 | equal submission keys come from the same conversation, provider and confirmation message (ids without newlines, injective digest) |
| SubmissionInput.BoundaryReadyExactlyWhen | apps/api/src/messaging/messaging-quote-submission-boundary.ts:37-67 | the boundary lets a draft through if and only if it is unsubmitted, confirmed, free of human review, has every fact group and passes field validation |
| SubmissionInput.StructuredHoldsDraft | apps/api/src/messaging/messaging-quote-submission.service.ts:16-37 | the structured submission carries the reviewed draft unchanged under its envelope |
| ConversationStore.TransitionCommitsExactlyWhen | apps/api/src/messaging/messaging-quote-state.service.ts:138-189 | a write commits if and only if the observed control version still holds under automation, the expected version is current and the transition accepts; the stored row then parses to the new snapshot |
| ConversationStore.TransitionKeepsControl | apps/api/src/messaging/messaging-quote-state.service.ts:138-189 | a draft write never moves authority |
| ConversationStore.Conversation.Transition | apps/api/src/messaging/messaging-quote-state.service.ts:138-189 | the row-updating method commits what the specification says, and leaves the row alone on every refusal |
| ConversationStore.Conversation.Control | apps/api/src/messaging/messaging-conversation-control.service.ts:40-82 | takeover and return flip authority, count the version and append one event, or answer a replay, or change nothing |
| ConversationStore.ChangeControlKeepsInv | apps/api/src/messaging/messaging-conversation-control.service.ts:40-82 | event versions of a conversation are exactly 1..n and authority is automation exactly at even versions; every change keeps this |
| ConversationStore.OthersKeepInv | apps/api/src/messaging/messaging-conversation-control.service.ts:40-82 | changes to other conversations in the same event table do not disturb it |
| ConversationStore.ReplayedRequestChangesNothing | apps/api/src/messaging/messaging-conversation-control.service.ts:40-82 | repeating a request id, at any later time and with any expected version, gives the first answer marked unchanged and writes nothing |
| SubmissionService.SubmitReadyQuote | apps/api/src/messaging/messaging-quote-submission.service.ts:47-189 | the imperative three-step submission (reserve, create, link) has exactly the specified outcome on row and Quote table, on success and on every error path; what the record it creates says is SubmissionInput.StructuredRecordsItsOrigin |
| SubmissionService.QuoteTable.Submit | apps/api/src/quotes/quote-submission.service.ts:72-148 | creating under a key answers an existing equal submission with its Quote, refuses a different or damaged one, and otherwise adds one Quote |
| SubmissionProtocol.StepKeepsInv | apps/api/src/messaging/messaging-quote-submission.service.ts:47-189 | the protocol invariant (log, authority events, workers, Quotes, summary messages) is kept by every step of every worker, crash, takeover, revision and unrelated writer |
| SubmissionProtocol.RunKeepsInv | apps/api/src/messaging/messaging-quote-submission.service.ts:47-189 | so it holds after every interleaving |
| SubmissionProtocol.StartHasInv | apps/api/src/messaging/messaging-quote-state.ts:20-31 | a new conversation starts inside the invariant |
| SubmissionResults.AtMostOneQuote | apps/api/src/messaging/messaging-quote-submission.service.ts:97-183 | over any interleaving of workers, crashes and retries a conversation has at most one Quote under keys of its own |
| SubmissionResults.QuoteIsTheReservedOne | apps/api/src/messaging/messaging-quote-submission.service.ts:97-183 | that Quote sits under the reserved key, and a linked id is the id of the Quote under that key |
| SubmissionResults.LinkIsForEver | apps/api/src/messaging/messaging-quote-submission.service.ts:97-183 | after reservation nothing but the link changes, and after linking nothing changes at all, whatever happens next |
| SubmissionResults.RunExtends | apps/api/src/messaging/messaging-quote-submission.service.ts:47-189 | no run removes or changes a snapshot of the log, a summary message, or the identity and customer submission of a Quote |
| SubmissionResults.ReplayNeverConflicts | apps/api/src/messaging/messaging-quote-replay-resolution.ts:24-66 | a worker that holds a reservation finds its own Quote or none: never a conflict, never damage |
| SubmissionResults.ReviewedIsSubmitted | apps/api/src/messaging/messaging-quote-live-orchestrator.service.ts:168-197 | for every Quote of a conversation there were, in this order, a review, a confirmation of that review and a reservation; the message sent at review is the summary of the draft, that draft is the one inside the Quote, and the record of the Quote names the channel, provider, conversation, confirmation message and instant and one transfer key per selected photo |
| SubmissionResults.TheSummaryShowsTheDraft | apps/api/src/messaging/messaging-quote-live-orchestrator.service.ts:168-197 | in every reachable state with a review marker, the message it names was sent with the summary of the current draft |
| SubmissionResults.OthersHaveOtherKeys | apps/api/src/messaging/messaging-quote-creation-input.ts:37-45 | no message id whatever makes the key of another conversation or provider a key of this one (conversation ids and providers without newlines, injective digest) |
| SubmissionResults.PresentedAt | apps/api/src/messaging/messaging-quote-live-orchestrator.service.ts:168-197 | every snapshot with a review marker goes back to a moment in REVIEW since when the draft has not changed |
| SubmissionResults.ConfirmedAtStep | apps/api/src/messaging/messaging-quote-state.ts:192-214 | every confirmation goes back to a moment in REVIEW, after which neither draft nor review changed |
| SubmissionResults.ReservedAtStep | apps/api/src/messaging/messaging-quote-state.ts:216-237 | every reservation goes back to READY_TO_SUBMIT, after which neither draft nor confirmation changed |
| SubmissionService.SubmittingStateIsRecoverable | apps/api/src/messaging/messaging-quote-submission.service.ts:97-183 | every reachable SUBMITTING row parses back to its snapshot and still prepares the same reserved submission |
| SubmissionService.UninterruptedAttemptSubmits | apps/api/src/messaging/messaging-quote-submission.service.ts:47-189 | from any reachable state that owes a submission, one undisturbed attempt under automation ends SUBMITTED, creating a Quote only when none exists under the key |
| SubmissionJourney.ReviewsCanBeSubmitted | apps/api/src/messaging/messaging-quote-live-orchestrator.service.ts:168-197 | from every sound conversation with a valid draft under review, ten undisturbed steps (show, confirm, submit) end SUBMITTED with one new Quote under its own key holding that draft |
| SubmissionJourney.CompleteDraftsCanBecomeQuotes | apps/api/src/messaging/messaging-quote-submission.service.ts:47-189 | so in a new conversation every complete and valid draft can become a Quote |
| SubmissionService.AttemptIsARun | apps/api/src/messaging/messaging-quote-submission.service.ts:47-189 | an undisturbed call of the service is one particular interleaving of the protocol |
| SubmissionService.GuardedCommitWasFenced | apps/api/src/messaging/messaging-quote-state.service.ts:138-189 | a guarded write that commits had no takeover at any moment between observing its control version and committing |
| SubmissionService.RunMovesControl | apps/api/src/messaging/messaging-conversation-control.service.ts:40-82 | control versions never go back, and while the version stands authority stands |
| SubmissionService.ControlAlternates | apps/api/src/messaging/messaging-conversation-control.service.ts:40-82 | in every reachable state authority is automation exactly when the control version is even and event versions are 1..n |
| Interview.NextIsTheFirstOpenQuestion | apps/api/src/messaging/messaging-quote-live-orchestrator.service.ts:241-249 | the question asked is the first of 66 in one fixed order that is still open |
| Interview.NextInOrder | apps/api/src/messaging/messaging-quote-live-orchestrator.service.ts:241-249 | the six chained modules together ask in the order home, cleaning, post-event, personalise, visit, final details |
| Interview.RespondInOrder | apps/api/src/messaging/messaging-quote-live-orchestrator.service.ts:251-448 | an answer is always applied by the module that asked |
| Interview.RespondAgreesWithNext | apps/api/src/messaging/messaging-quote-live-orchestrator.service.ts:251-448 | apply is complete exactly when nothing is left to ask, and an invalid answer repeats the same question |
| Interview.AcceptedAnswersMoveOn | apps/api/src/messaging/messaging-quote-live-orchestrator.service.ts:251-448 | every accepted answer, once merged, moves the next question strictly forward and touches no other fact group |
| InterviewResults.InterviewEnds | apps/api/src/messaging/messaging-quote-live-orchestrator.service.ts:241-448 | at most 66 answers are accepted between two corrections, however replies and photos are mixed |
| InterviewResults.EveryQuestionCanBeAnswered | apps/api/src/messaging/messaging-quote-live-orchestrator.service.ts:251-448 | no question is a dead end: each has a reply that is accepted in every draft that asks it |
| InterviewResults.InterviewCanBeCompleted | apps/api/src/messaging/messaging-quote-live-orchestrator.service.ts:241-448 | from every draft some conversation of at most the remaining number of questions finishes the interview |
| InterviewResults.PhotosKeepTheQuestion | apps/api/src/messaging/messaging-quote-live-orchestrator.service.ts:323-352 | photos change only the media list and never the question |
| InterviewResults.PhotosAccumulate | apps/api/src/messaging/messaging-quote-live-orchestrator.service.ts:323-352 | photos sent at the photo question are all kept, earlier ones included |
| InterviewResults.CorrectionReopensItsSection | apps/api/src/messaging/messaging-quote-live-orchestrator.service.ts:231-239 | a correction of a complete draft resumes at the first question of that section and keeps every other group |
| InterviewResults.QuantityAskedExactlyWhenChosen | apps/api/src/messaging/messaging-quote-guided-personalise.ts:153-183 | a menu reply leads to a quantity question for refrigerators or patios exactly when it chose them |
| GuidedHome.HomeMovesOn | apps/api/src/messaging/messaging-quote-guided-home.ts:99-252 | answering a home question never reopens an earlier one |
| GuidedHome.HomeValueAnswers | apps/api/src/messaging/messaging-quote-guided-home.ts:180-252 | whatever the home module accepts closes the question it asked |
| GuidedCleaning.CleaningMovesOn | apps/api/src/messaging/messaging-quote-guided-cleaning-requirements.ts:24-48 | the same for service, frequency, its note and condition, whose questions depend on the chosen service |
| GuidedPostEvent.FactMovesOn | apps/api/src/messaging/messaging-quote-guided-post-event.ts:45-63 | the same for the post-event facts |
| GuidedPostEvent.FactMerge | apps/api/src/messaging/messaging-quote-guided-post-event.ts:81-102 | a post-event patch, merged two levels deep, changes that one fact and no other |
| GuidedPostEvent.FactValueAnswers | apps/api/src/messaging/messaging-quote-guided-post-event.ts:71-102 | whatever the post-event module accepts closes the question it asked |
| GuidedPersonalise.PersonaliseMovesOn | apps/api/src/messaging/messaging-quote-guided-personalise.ts:84-227 | the same for add-ons, quantities and laundry |
| GuidedPersonalise.PersonaliseTouches | apps/api/src/messaging/messaging-quote-guided-personalise.ts:130-227 | personalising touches only add-ons, products and laundry |
| GuidedPersonalise.FindAfterQuantity | apps/api/src/messaging/messaging-quote-guided-personalise.ts:69-71 | setting the quantity of one add-on leaves which entry is found for any service, and every other entry, as it was |
| GuidedPersonalise.QuantityAfter | apps/api/src/messaging/messaging-quote-guided-personalise.ts:185-199 | afterwards exactly the other outstanding quantities are outstanding |
| GuidedVisitHousehold.VisitMovesOn | apps/api/src/messaging/messaging-quote-guided-visit-household.ts:27-75 | the same for visit, access and pets, conditional questions included |
| GuidedVisitHousehold.VisitValueAnswers | apps/api/src/messaging/messaging-quote-guided-visit-household.ts:56-75 | whatever the visit module accepts closes the question it asked; what each reply records is InterviewAnswers.AnswersAreRecorded |
| GuidedFinalDetails.FinalMovesOn | apps/api/src/messaging/messaging-quote-guided-final-details.ts:56-163 | the same for safety, notes, photos and customer |
| GuidedFinalDetails.FinalValueAnswers | apps/api/src/messaging/messaging-quote-guided-final-details.ts:96-163 | whatever the last module accepts closes the question it asked |
| PostEventCleaning.ResolvePostEventCleaning | apps/api/src/quotes/post-event-cleaning-operating-model.ts:97-168 | the imperative resolution gives the specified hours, prices, reasons and verdict |
| PostEventCleaning.AdditionalCleanerHours | apps/api/src/quotes/post-event-cleaning-operating-model.ts:116-132 | the accumulated extra hours are the sum over the facts and over the set of outdoor areas |
| PostEventCleaning.PushConditionReasons | apps/api/src/quotes/post-event-cleaning-operating-model.ts:139-153 | the exclusions are reported each when its condition holds, in the fixed order |
| PostEventCleaning.AreasAreASet | apps/api/src/quotes/post-event-cleaning-operating-model.ts:124-128 | order and repetition of outdoor areas never change the result |
| PostEventCleaning.HoursAreMonotone | apps/api/src/quotes/post-event-cleaning-operating-model.ts:107-132 | an event whose guest band has hours and whose bathroom count is whole, or under two, takes at least as long as any event with less of every workload fact |
| PostEventCleaning.HoursAreMonotoneExactlyWhen | apps/api/src/quotes/post-event-cleaning-operating-model.ts:107-132 | no event with less work takes longer if and only if the guest band is not the open-ended one and the bathroom count is whole or under two |
| PostEventCleaning.OpenEndedBandLosesHours | apps/api/src/quotes/post-event-cleaning-operating-model.ts:107-117 | the failing input: every event of 150 guests or more has seven hours less than the same event in the band below |
| PostEventCleaning.FractionLosesHours | apps/api/src/quotes/post-event-cleaning-operating-model.ts:117-120 | the failing input of a direct caller: a fractional count of two or more has at least an hour and a half less than the whole count below it |
| PostEventCleaning.MoreWorkIsNeverEasier | apps/api/src/quotes/post-event-cleaning-operating-model.ts:97-168 | with a valid bathroom count, more work never turns a review into an automatic price and never lowers hours or price |
| PostEventCleaning.NeverEasierExactlyWhen | apps/api/src/quotes/post-event-cleaning-operating-model.ts:112-119 | for any bathroom count that promise holds if and only if the count is valid, or an exclusion applies, or the size has no base price or the hours at the next whole count pass the ceiling |
| PostEventCleaning.FractionalBathroomsAreReviewed | apps/api/src/quotes/post-event-cleaning-operating-model.ts:112-119 | the failing input: half a bathroom is reviewed while one is priced; only a direct caller can ask for half, since quote facts with such a count are refused earlier |
| PostEventCleaning.AutomaticIsBounded | apps/api/src/quotes/post-event-cleaning-operating-model.ts:97-168 | an automatic price means at most 24 hours, at most 295,000 minor units and at most 13 bathrooms |
| PostEventCleaning.RefusalsAreExplained | apps/api/src/quotes/post-event-cleaning-operating-model.ts:97-168 | automatic exactly when no reason is listed, and then there is a price |
| PostEventCleaning.AutomaticExactlyWhen | apps/api/src/quotes/post-event-cleaning-operating-model.ts:97-168 | the exact facts under which pricing is automatic |
| QuoteProfitability.RoundUpToTenRand | apps/api/src/quotes/quote-profitability.ts:26-30 | the least ten-rand amount not below the value |
| QuoteProfitability.FloorIsLeast | apps/api/src/quotes/quote-profitability.ts:32-60 | the total covers the catalogue price and the costs with their minimum contribution, and no smaller ten-rand price does |
| QuoteProfitability.AdjustmentsAccountForTheTotal | apps/api/src/quotes/quote-profitability.ts:32-60 | catalogue, floor adjustment and rounding add up to the total, and the floor adjusts exactly when the catalogue price falls short |
| QuoteProfitability.FloorIsMonotone | apps/api/src/quotes/quote-profitability.ts:32-60 | a dearer catalogue price or any dearer cost never lowers the total |
| QuoteCosts.BucketsAreMonotone | apps/api/src/quotes/approved-quote-cost-model.ts:170-212 | every cost bucket grows with hours, COIDA rate and distance |
| QuoteCosts.ContributionGivesTheMargin | apps/api/src/quotes/approved-quote-cost-model.ts:214-221 | leaving the minimum contribution means at least 10,000 and at least a fifth of the price |
| QuoteCosts.ContributionIsMonotone | apps/api/src/quotes/approved-quote-cost-model.ts:214-221 | higher cost never asks for less contribution |
| QuoteCosts.ResolveCandidate | apps/api/src/quotes/approved-quote-operational-cost-provider.ts:38-91 | the provider fills exactly the buckets whose facts are known, and fails exactly on unusable rates or distances |
| QuoteCosts.ValidateCandidate | apps/api/src/quotes/quote-operational-cost-source.ts:81-113 | the loop reports every missing and every unusable bucket, or the six costs |
| QuoteCosts.NothingToReportExactlyWhen | apps/api/src/quotes/quote-operational-cost-source.ts:81-113 | nothing is reported if and only if all six buckets are whole non-negative amounts |
| QuoteCosts.ReadyExactlyWhenFactsAreKnown | apps/api/src/quotes/approved-quote-operational-cost-provider.ts:38-91 | provider and validation together: costs are ready if and only if hours, rate and distance are known |
| QuoteCosts.ApprovedCostsCarryTheMargin | apps/api/src/quotes/approved-quote-operational-cost-provider.ts:38-91 | with ready costs the floor always succeeds and its total keeps the margin over those costs |
| QuoteCosts.DearerFactsNeverLowerThePrice | apps/api/src/quotes/approved-quote-operational-cost-provider.ts:38-91 | from facts to price: for one service more hours, a higher rate, a longer route or a dearer catalogue never lower the floored total |
| QuoteDesk.ResolveQuoteCosts | apps/api/src/quotes/quote-operational-cost-source.ts:115-120 | the composed source is ready exactly when the specification has costs, and then gives those |
| QuotePricingMethods.Worksheet.AddFloorPricedPrimary | apps/api/src/quotes/website-quote-pricing.ts:102-129 | pushes onto the shared lists exactly the specified line and reasons of a floor-priced service, after what was there |
| QuotePricingMethods.Worksheet.AddPostEventPrimary | apps/api/src/quotes/website-quote-pricing.ts:131-170 | the same for post-event cleaning: a line when automatic, one reason per review code otherwise |
| QuotePricingMethods.Worksheet.AddRooms | apps/api/src/quotes/website-quote-pricing.ts:172-213 | the same for room-counted services: first room, further rooms, or a reason for an open-ended count |
| QuotePricingMethods.Worksheet.AddPrimary | apps/api/src/quotes/website-quote-pricing.ts:260-277 | the dispatch over services pushes the sheet of the service |
| QuotePricingMethods.Worksheet.AddStructuredLaundry | apps/api/src/quotes/website-quote-pricing.ts:215-250 | laundry and ironing blocks, or the problems that stop them |
| QuotePricingMethods.Worksheet.AddAddOnReasons | apps/api/src/quotes/website-quote-pricing.ts:279-285 | one reason per requested add-on, in order |
| QuotePricingMethods.Worksheet.AddReviewedAddOns | apps/api/src/quotes/quote-admin-repricing.ts:68-106 | a line or a reason per reviewed add-on, in order |
| QuotePricingMethods.SumLines | apps/api/src/quotes/website-quote-pricing.ts:293 | the reduction is the sum of the line amounts |
| QuotePricingMethods.CalculateWebsiteQuotePricing | apps/api/src/quotes/website-quote-pricing.ts:252-329 | the imperative website calculation gives the specified price |
| QuotePricingMethods.CalculateAdminReviewedQuotePricing | apps/api/src/quotes/quote-admin-repricing.ts:68-106 | the imperative reviewed calculation gives the specified price |
| QuoteOffers.PricedLinesAreProducts | apps/api/src/quotes/website-quote-pricing.ts:88-96 | every line of every price is quantity times unit amount |
| QuoteOffers.MoneyIsConserved | apps/api/src/quotes/quote-submission.service.ts:151-171 | the items stored for any price sum to its total, each is quantity times unit, numbered in order |
| QuoteOffers.WebsitePriceIsFinalExactlyWhen | apps/api/src/quotes/website-quote-pricing.ts:252-329 | a website price needs no review if and only if the primary service prices itself, there are no add-ons and laundry asks for nothing unpriced |
| QuoteOffers.AdminPriceIsFinalExactlyWhen | apps/api/src/quotes/quote-admin-repricing.ts:28-106 | after an admin review, if and only if moreover every add-on has a reviewed price |
| QuoteOffers.AutomaticPrimaryHasHours | apps/api/src/quotes/approved-quote-cost-model.ts:71-168 | whatever prices itself also has cleaner-hours |
| QuoteOffers.HoursImplyAPrimaryLine | apps/api/src/quotes/website-quote-pricing.ts:260-277 | whatever has cleaner-hours has a primary line |
| QuoteOffers.EventHoursExactlyWhenPrimaryLine | apps/api/src/quotes/approved-quote-cost-model.ts:79-108 | for post-event cleaning hours are known exactly when pricing emits the primary line |
| QuoteOffers.OtherChannelsDoNotPriceLaundry | apps/api/src/quotes/website-quote-pricing.ts:215-222 | outside the website contract V2 laundry is neither priced nor reviewed |
| QuoteDesk.CreateQuote | apps/api/src/quotes/quote-submission.service.ts:93-104 | creation prices, chooses the status and stores revision 1 as specified |
| QuoteDesk.ValidatedDetails | apps/api/src/quotes/quote-pricing-review.service.ts:42-60 | refuses details if and only if some index names no add-on, and otherwise files, for each add-on that has entries, the last detail given for it and nothing else |
| QuoteLifecycle.SuppliedDetailsFileTheLast | apps/api/src/quotes/quote-pricing-review.service.ts:42-60 | the specification behind that loop accepts and files the same way: a later entry for an add-on replaces an earlier one |
| QuoteLifecycle.FiledDetailsAreUnique | apps/api/src/quotes/quote-pricing-review.service.ts:42-60 | only one map files the last entries and nothing else, so the result is determined |
| QuoteDesk.QuoteFile.PrepareReview | apps/api/src/quotes/quote-pricing-review.service.ts:70-114 | pricing outside the transaction gives the specified draft or refusal and writes nothing; what that draft holds is QuoteEffects.ReviewsUseTheDetails |
| QuoteDesk.QuoteFile.CommitReview | apps/api/src/quotes/quote-pricing-review.service.ts:116-166 | the transaction appends one revision and carries the resolution to it, or changes nothing |
| QuoteDesk.QuoteFile.Accept | apps/api/src/quotes/quote-review.service.ts:135-164 | acceptance checks, replays or converts as specified; every refusal leaves Quote and operations alone |
| QuoteDesk.QuoteFile.ConvertQuote | apps/api/src/quotes/quote-review.service.ts:164-232 | conversion writes customer, property, agreement, work order and Quote together or not at all; which rows it uses is QuoteEffects.ConversionsFollowTheChoice |
| QuoteDesk.QuoteFile.RecordResolution | apps/api/src/quotes/quote-review.service.ts:244-270 | records the chosen customer and property for the current revision, once |
| QuoteDesk.QuoteFile.Decline | apps/api/src/quotes/quote-review.service.ts:272-297 | declines once with one record, or changes nothing |
| QuoteLifecycleRuns.CreatedQuoteIsSound | apps/api/src/quotes/quote-submission.service.ts:93-184 | every created Quote starts inside the lifecycle invariant |
| QuoteLifecycleRuns.StepKeepsInv | apps/api/src/quotes/quote-review.service.ts:135-297 | revisions are exactly 1..current, each priced from its own facts; the resolution is absent or current; offers are final prices; decisions have their full shape; drafts in flight stay sound: kept by every step |
| QuoteLifecycleRuns.RunKeepsInv | apps/api/src/quotes/quote-review.service.ts:135-297 | so it holds over every run, with other writers in between |
| QuoteLifecycleRuns.CommitKeepsInv | apps/api/src/quotes/quote-pricing-review.service.ts:116-204 | including a review prepared long before and committed late |
| QuoteLifecycleRuns.StepKeepsHistory | apps/api/src/quotes/quote-pricing-review.service.ts:116-204 | revisions are never changed or removed; an accepted Quote never changes; a declined one stays declined |
| QuoteLifecycleRuns.RunKeepsHistory | apps/api/src/quotes/quote-pricing-review.service.ts:116-204 | the same over every run |
| QuoteLifecycleRuns.CommittedReviewIsFresh | apps/api/src/quotes/quote-pricing-review.service.ts:116-166 | a review that commits was prepared on the very revision it succeeds, whatever ran in between, and carries the resolution forward |
| QuoteLifecycleRuns.ConversionIsSound | apps/api/src/quotes/quote-review.service.ts:164-232 | an accepted Quote has one work order, the current revision as accepted revision, a property of its customer, and an agreement exactly when recurring; customer and property are those chosen by QuoteEffects.TheChosenRowsAreUsed |
| QuoteLifecycleRuns.AcceptEffects | apps/api/src/quotes/quote-review.service.ts:135-242 | acceptance either replays an identical one or converts a submitted, unexpired Quote |
| QuoteLifecycleRuns.ResolutionEffects | apps/api/src/quotes/quote-review.service.ts:244-270 | a resolution touches only the choices, and repeats only itself |
| QuoteLifecycleRuns.AcceptIsIdempotent | apps/api/src/quotes/quote-review.service.ts:144-151 | repeating an accepted request, by anyone at any later time, answers the same and changes nothing |
| QuoteLifecycleRuns.DeclineIsIdempotent | apps/api/src/quotes/quote-review.service.ts:280-285 | repeating a decline answers the same for the same actor and reason, and is refused for any other |
| QuoteLifecycleRuns.DecisionsExcludeEachOther | apps/api/src/quotes/quote-review.service.ts:135-297 | accepted Quotes cannot be declined nor declined ones accepted, and no Quote carries both marks |
| QuoteLifecycleRuns.OffersKeepTheMargin | apps/api/src/quotes/quote-profitability.ts:26-60 | in every run a submitted or accepted Quote has ready costs C and total T with T - C >= 10,000, 4T >= 5C, T at least the catalogue price, and T the least ten-rand price that does it |
| QuoteLifecycleRuns.StoredItemsSumToTheTotal | apps/api/src/quotes/quote-pricing-review.service.ts:122-157 | in every run the items stored for every revision are quantity times unit amount, numbered in order, and sum to its total |
| QuoteLifecycleRuns.OfferedAtCreationExactlyWhen | apps/api/src/quotes/quote-submission.service.ts:101-104 | a new Quote is offered at once if and only if its price is final, its costs are known and its photos arrived |
| QuoteLifecycleRuns.RegularCleaningIsNeverOffered | apps/api/src/quotes/website-quote-pricing.ts:126-128 | in no run is a Quote for regular home cleaning submitted or accepted: it always asks for a room-configuration review, which no review detail answers |
| QuoteCustomerAccess.GrantTable.IssueLink | apps/api/src/quotes/quote-customer-access.service.ts:133-216 | issuing ends every live grant and adds one for the current revision, or changes nothing |
| QuoteCustomerAccess.GrantTable.RevokeLinks | apps/api/src/quotes/quote-customer-access.service.ts:218-239 | revoking ends the live grants of the expected revision and says whether there were any |
| QuoteCustomerAccess.ResponseTable.Record | apps/api/src/quotes/quote-customer-response.service.ts:50-93 | evidence is added once per grant, replayed for the same decision and refused otherwise |
| QuoteCustomerResponse.IssueKeepsGrantsSound | apps/api/src/quotes/quote-customer-access.service.ts:133-216 | at most one live grant, expiring by the end of validity and of the maximum lifetime, tokens distinct; terms of earlier grants never change |
| QuoteCustomerResponse.RevokeKeepsGrantsSound | apps/api/src/quotes/quote-customer-access.service.ts:218-239 | the same for revoking |
| QuoteCustomerResponse.EvidenceKeepsResponsesSound | apps/api/src/quotes/quote-customer-response.service.ts:50-93 | at most one response per grant, for the revision of the grant; the log is only appended to |
| QuoteCustomerResponse.OneTokenResolves | apps/api/src/quotes/quote-customer-access.service.ts:241-346 | in every reachable state at most one token resolves, and it shows the current revision before its expiry |
| QuoteCustomerResponse.ResponsesAreFinal | apps/api/src/quotes/quote-customer-response.service.ts:50-93 | a recorded response of a grant never changes in any run |
| QuoteCustomerResponse.StepKeepsInv | apps/api/src/quotes/quote-customer-response.service.ts:44-156 | grants, responses, every call in flight and the Quote stay consistent under every step |
| QuoteCustomerResponse.RunKeepsInv | apps/api/src/quotes/quote-customer-response.service.ts:44-156 | over every interleaving of customers, staff and crashes |
| QuoteCustomerResponse.ThePriceShownIsThePriceAccepted | apps/api/src/quotes/quote-customer-response.service.ts:44-156 | a customer told CONVERTED accepted the revision and the price their link showed, even with repricing in between |
| QuoteCustomerResponse.ReportsAreTrue | apps/api/src/quotes/quote-customer-response.service.ts:94-156 | what a finished call reports is true of the Quote and is backed by recorded evidence |
| QuoteCustomerResponse.ActionableLinksCanBeAnswered | apps/api/src/quotes/quote-customer-access.service.ts:241-346 | a link shown as actionable accepts either decision |
| QuoteCustomerResponse.EligibleQuotesAreAccepted | apps/api/src/quotes/quote-review.service.ts:114-232 | a sound Quote that the eligibility check passes is accepted under the same conditions, whichever customer and property were chosen |
| QuoteCustomerResponse.UninterruptedAcceptanceConverts | apps/api/src/quotes/quote-customer-response.service.ts:94-156 | an undisturbed acceptance of an eligible Quote converts it, given free ids, a known actor and property type, and services and references in the catalogue |
| QuoteJourney.CreationSucceedsExactlyWhen | apps/api/src/quotes/quote-submission.service.ts:93-104 | a submission becomes a Quote if and only if the cost provider does not throw on its facts; pricing itself never fails |
| QuoteJourney.OffersCanBeTakenUp | apps/api/src/quotes/quote-customer-response.service.ts:44-156 | every submission that prices itself, with known costs, is offered at creation, and resolving it, issuing a link and an undisturbed answer end in a converted acceptance of revision 1 at the price created |
| FlowSessions.FlowSessionTable.ExpireDueSessions | apps/api/src/messaging/whatsapp-quote-flow-session.service.ts:343-348 | expires exactly the due open sessions of the conversation |
| FlowSessions.FlowSessionTable.PrepareSession | apps/api/src/messaging/whatsapp-quote-flow-session.service.ts:293-334 | reuses the newest active offer or adds one session after clearing, or changes nothing |
| FlowSessions.FlowSessionTable.Capture | apps/api/src/messaging/whatsapp-quote-flow-session.service.ts:205-291 | completes an open session once, answers replays, and leaves the table alone on refusal |
| FlowSessions.FlowSessionTable.ProcessCompletedSession | apps/api/src/messaging/whatsapp-quote-flow-submission.service.ts:51-127 | outer session write and nested Quote write as specified, also when the outer transaction is lost after the nested one committed; an unknown session is refused and changes nothing |
| FlowSessions.LawfulRulesExist | apps/api/src/messaging/whatsapp-quote-flow-submission.service.ts:20-23 | the one hypothesis of the session results, that keys of different sessions or fingerprints differ, can be met with any mapping, fingerprint and record |
| FlowSessionRuns.OffersCanBecomeQuotes | apps/api/src/messaging/whatsapp-quote-flow-submission.service.ts:51-127 | from an empty table, an offer completed with mappable answers ends as one linked Quote under its own key |
| FlowSessionRuns.StatusChangeKeepsInv | apps/api/src/messaging/whatsapp-quote-flow-inbound.service.ts:73-87 | launch-status, fallback and expiry updates keep the session invariant |
| FlowSessionRuns.SimpleStepsChangeStatusOnly | apps/api/src/messaging/whatsapp-quote-flow-inbound.service.ts:73-87 | these updates change nothing but status and launch binding |
| FlowSessionRuns.OfferKeepsInv | apps/api/src/messaging/whatsapp-quote-flow-session.service.ts:293-334 | offering keeps one open session per conversation |
| FlowSessionRuns.PrepareClearsThenAdds | apps/api/src/messaging/whatsapp-quote-flow-session.service.ts:293-334 | either an active offer is reused or the conversation had nothing unresolved left and one fresh session was added |
| FlowSessionRuns.OneOfferAtATime | apps/api/src/messaging/whatsapp-quote-flow-session.service.ts:293-334 | at most one unresolved session per conversation |
| FlowSessionRuns.CompletionReplays | apps/api/src/messaging/whatsapp-quote-flow-session.service.ts:265-270 | a completion with the same fingerprint again, at any later time, is a replay; one with another fingerprint is refused |
| FlowSessionRuns.LateCompletionsLeaveNoTrace | apps/api/src/messaging/whatsapp-quote-flow-session.service.ts:274-280 | a completion after expiry changes nothing, since the EXPIRED write is rolled back |
| FlowSessionRuns.InboundLateCompletionsExpire | apps/api/src/messaging/whatsapp-quote-flow-inbound.service.ts:59-65 | on the inbound path, which first expires what is due, a session already late stays EXPIRED and its completion changes nothing |
| FlowSessionRuns.ProcessEffects | apps/api/src/messaging/whatsapp-quote-flow-submission.service.ts:51-127 | processing adds at most the one Quote of this completion and fills only key, Quote or reason |
| FlowSessionRuns.StepKeepsInv | apps/api/src/messaging/whatsapp-quote-flow-submission.service.ts:51-127 | sessions, Quotes and the record of created Quotes stay consistent under every step |
| FlowSessionRuns.RunKeepsInv | apps/api/src/messaging/whatsapp-quote-flow-submission.service.ts:51-127 | and over every run |
| FlowSessionRuns.StepKeeps | apps/api/src/messaging/whatsapp-quote-flow-session.service.ts:205-348 | terminal statuses are absorbing and completion evidence, Quote, key and reason never change once set |
| FlowSessionRuns.RunKeeps | apps/api/src/messaging/whatsapp-quote-flow-session.service.ts:205-348 | and over every run |
| FlowSessionRuns.AtMostOneQuotePerSession | apps/api/src/messaging/whatsapp-quote-flow-submission.service.ts:51-127 | a session creates at most one Quote even when outer transactions roll back, its link names that Quote, and it never has both a Quote and a review reason |
| FlowSessionRuns.EmptyHasInv | apps/api/src/messaging/whatsapp-quote-flow-session.service.ts:293-334 | an empty session table is inside the session invariant |
| FlowSessionRuns.EveryRunIsExactlyOnce | apps/api/src/messaging/whatsapp-quote-flow-submission.service.ts:51-127 | so in every run from an empty table, with any losses and retries, each session has at most one Quote, its link names it, and it never has both a Quote and a review reason |
| FlowSessionRuns.LostCommitIsRecovered | apps/api/src/messaging/whatsapp-quote-flow-submission.service.ts:51-127 | after a lost outer commit the next attempt links the Quote already created |
| FlowSessionRuns.CompletedSessionsSettle | apps/api/src/messaging/whatsapp-quote-flow-submission.service.ts:51-127 | one authorised attempt settles a completed session: a Quote exactly when the answers map to one, else human review |
| CommentStripper.StripComments | scripts/validate_documentation.py:44-63 | the index-driven scanner terminates and gives the recursive reading of the text |
| CommentStripper.ScannerAgreesWithReader | scripts/validate_documentation.py:44-63 | that reading equals a seven-mode character reader with no look-ahead, an independent definition |
| CommentStripper.UnchangedExactlyWhen | scripts/validate_documentation.py:44-63 | a text is left alone if and only if no comment starts outside quotes |
| CommentStripper.OutputHasNoComment | scripts/validate_documentation.py:44-63 | the output never has a comment start outside quotes |
| CommentStripper.StripIsIdempotent | scripts/validate_documentation.py:44-63 | stripping twice is stripping once |
| CommentStripper.BlockCommentMakesNoDifference | scripts/validate_documentation.py:44-68 | inserting a closed block comment at a code position not after a slash leaves the output and the comment-only verdict unchanged |
| CommentStripper.LineCommentMakesNoDifference | scripts/validate_documentation.py:44-63 | the same for a line comment before a newline or the end |
| CommentStripper.BlockCommentIsHarmlessExactlyWhen | scripts/validate_documentation.py:44-63 | at a code position, for every text that may follow, inserting a closed block comment leaves the output unchanged if and only if no slash is pending |
| CommentStripper.LineCommentIsHarmlessExactlyWhen | scripts/validate_documentation.py:44-63 | the same for a line comment, for every text that may follow from the newline on |
| CommentStripper.CommentAfterASlash | scripts/validate_documentation.py:54-59 | the failing input: after a slash the inserted comment becomes a line comment and swallows code |
| Attention.CompareIsAntisymmetric | apps/api/src/attention/attention-policy.ts:41-56 | the comparator is antisymmetric and reflexive |
| Attention.CompareIsTransitive | apps/api/src/attention/attention-policy.ts:41-56 | with its ties it is a strict weak order |
| Attention.DetectedKeysAreDistinct | apps/api/src/attention/attention.service.ts:194-260 | the five detections never report one condition twice |
| Attention.AttentionTable.Reconcile | apps/api/src/attention/attention.service.ts:262-392 | the three loops over the table compute the specified board |
| Attention.AttentionTable.ResolveUnreported | apps/api/src/attention/attention.service.ts:329-349 | the second loop resolves exactly the open managed items nobody reported |
| Attention.AttentionTable.ReleaseOwners | apps/api/src/attention/attention.service.ts:351-390 | the third loop unassigns exactly the open items whose owner lost eligibility |
| Attention.AttentionTable.Assign | apps/api/src/attention/attention.service.ts:474-516 | assigns exactly when the actor sees the item and the owner is eligible |
| Attention.AttentionTable.MarkSeen | apps/api/src/attention/attention.service.ts:451-472 | records the first viewer only |
| AttentionResults.ReconciledOne | apps/api/src/attention/attention.service.ts:262-392 | reconciling a board is reconciling each item on its own with its report |
| AttentionResults.OpenItemsAreTheCandidates | apps/api/src/attention/attention.service.ts:262-349 | afterwards a managed condition is open if and only if it was reported |
| AttentionResults.OwnersAreEligible | apps/api/src/attention/attention.service.ts:351-390 | afterwards every owner of an open item is active and eligible |
| AttentionResults.ReopenedStartsAfresh | apps/api/src/attention/attention.service.ts:287-305 | a condition that returns has no owner and no viewer, a new opening time and one more occurrence |
| AttentionResults.SecondLookAddsNothing | apps/api/src/attention/attention.service.ts:262-392 | a second reconciliation with the same reports changes only the time of observation |
| AttentionResults.StepKeepsInv | apps/api/src/attention/attention.service.ts:262-516 | the log equation is kept by reconciliations, late assignment and view writes, and interrupted visits |
| AttentionResults.TheLogExplainsTheBoard | apps/api/src/attention/attention.service.ts:262-516 | over every run openings plus reopenings less resolutions is 1 when open and 0 when resolved, and the occurrence count is the number of openings |
| AttentionResults.ItemsStay | apps/api/src/attention/attention.service.ts:262-516 | no step removes an item or rewrites its log |
| OutboundLog.StatusLog.SendMessage | apps/api/src/messaging/messaging.service.ts:63-104 | sending, with webhooks arriving meanwhile, leaves the specified log and answer; an unknown channel or message, a foreign conversation and a Messenger reply after 24 hours are refused without a trace |
| OutboundLog.StatusLog.AppendStatus | apps/api/src/messaging/messaging.service.ts:162-166 | a status already logged under the same provider id, or under none, is not appended again; any other is |
| OutboundLog.StatusLog.Receive | apps/api/src/messaging/messaging.service.ts:106-145 | webhook statuses are appended in arrival order |
| OutboundLog.NeverSentTwice | apps/api/src/messaging/messaging.service.ts:81-82 | once an acceptance with a provider id is logged the provider is never called again |
| OutboundLog.DeliveredIsFinal | apps/api/src/messaging/messaging.service.ts:86-104 | in particular after every successful send |
| OutboundLog.RunKeepsTheCap | apps/api/src/messaging/messaging.service.ts:92-99 | the log never holds more than two pending events |
| OutboundLog.UncertainBlocksExactlyWhen | apps/api/src/messaging/messaging.service.ts:92-99 | an uncertain outcome blocks the next call if and only if it is the first and nothing proved the message sent meanwhile |
| OutboundLog.FirstUncertainOutcomeBlocks | apps/api/src/messaging/messaging.service.ts:92-99 | the first uncertain outcome blocks every further send until a status arrives |
| OutboundLog.SecondUncertainOutcomeDoesNotBlock | apps/api/src/messaging/messaging.service.ts:92-99 | a run of a new message after which a further uncertain outcome writes nothing and leaves the provider callable, since pending events are capped at two |
| OutboundLog.BlockedStaysBlocked | apps/api/src/messaging/messaging.service.ts:83-85 | a blocked message stays blocked, with its log unchanged, through any number of sends |
| DeliveryChain.RecordAttempts.CreateDeliveryAttempt | apps/api/src/correspondence/correspondence.service.ts:202-252 | adds the next attempt linked to the last failed one, or changes nothing |
| DeliveryChain.RecordAttempts.RecordDeliveryOutcome | apps/api/src/correspondence/correspondence.service.ts:254-301 | adds one terminal event to a pending attempt, or changes nothing |
| DeliveryChain.StepKeepsChain | apps/api/src/correspondence/correspondence.service.ts:202-301 | attempts are numbered 1..n and linked in order, each pending then at most one terminal event, all but the last failed |
| DeliveryChain.RunKeepsChain | apps/api/src/correspondence/correspondence.service.ts:202-301 | over every run |
| DeliveryChain.OnlyTheLastIsAccepted | apps/api/src/correspondence/correspondence.service.ts:202-301 | at most one attempt is accepted, and it is the last |
| DeliveryChain.AcceptanceEndsTheChain | apps/api/src/correspondence/correspondence.service.ts:202-301 | after an acceptance no request changes the record |
| DeliveryChain.ContinuesExactlyWhen | apps/api/src/correspondence/correspondence.service.ts:202-252 | a further attempt can be made if and only if there is none yet or the last one failed |
| DeliveryChain.VersionStepIsSound | apps/api/src/correspondence/correspondence.service.ts:100-141 | at most one draft and one published version, retired versions stay retired and published ones never become drafts |
| DeliveryChain.VersionRunIsSound | apps/api/src/correspondence/correspondence.service.ts:100-141 | over every run of creating, publishing and retiring |
| QuoteState.UpdateTakesThePatch | apps/api/src/messaging/messaging-quote-state.ts:131-150 | for every accepted update, each path the patch neither reaches nor replaces keeps its stored value in the new draft, and each leaf of the patch is at its path |
| QuoteState.AcceptedExactlyWhen | apps/api/src/messaging/messaging-quote-state.ts:131-259 | which commands are accepted on a sound snapshot, by its phase and the ids given; all others are refused |
| QuoteState.ConflictsNameTheirCause | apps/api/src/messaging/messaging-quote-state.ts:131-259 | every refusal of a transition names a fact of the snapshot or of the command |
| QuoteState.CompleteExactlyWhen | apps/api/src/messaging/messaging-quote-draft-validation.ts:12-22 | a draft is complete if and only if every fact group is there and no validation error lies inside one |
| QuoteState.ParseReadsWhatIsStored | apps/api/src/messaging/messaging-quote-state.ts:51-99 | a stored object reads as a snapshot if and only if it holds each of its fields, at the version of the row, with consistent confirmation evidence |
| ConversationStore.GrantedExactlyWhen | apps/api/src/messaging/messaging-conversation-control.service.ts:40-82 | a control request is granted if and only if it repeats a known one for the same conversation and action, or is new and finds the control it expects; only then control flips, by one version |
| ConversationStore.UuidReads | apps/api/src/messaging/messaging-conversation-control.service.ts:1-39 | a request id is five runs of 8, 4, 4, 4 and 12 hexadecimal digits joined by hyphens, the third led by a version from 1 to 5 and the fourth by 8, 9, a or b |
| SubmissionInput.StructuredRecordsItsOrigin | apps/api/src/messaging/messaging-quote-submission.service.ts:16-37 | read back from the stored JSON of every prepared submission: schema, source, channel, provider, conversation and confirmation message of this conversation, the instant of confirmation, and exactly one transfer key per selected photo, in order, with the identifier in lower case |
| SubmissionInput.PreparedExactlyWhen | apps/api/src/messaging/messaging-quote-submission.service.ts:97-152 | on a sound snapshot a submission is prepared if and only if it is confirmed, its canonical facts are valid and any reservation is for its own key |
| SubmissionInput.MediaAssetIdsAreTheListed | apps/api/src/messaging/messaging-quote-draft.ts:55-58 | the selected photos are the visible texts of the stored list, trimmed, each once |
| SubmissionInput.DistinctKeepsTheOrder | apps/api/src/messaging/messaging-quote-draft.ts:55-58 | repeated texts are dropped and the others keep the order in which they first occur |
| SubmissionService.KnownKeysAreNeverWritten | apps/api/src/quotes/quote-submission.service.ts:72-148 | a known key is answered with its Quote for the same record and refused otherwise, never written; a new key adds one Quote that holds the record |
| SubmissionRefusals.AttemptsAddOnlyWhatIsDue | apps/api/src/messaging/messaging-quote-submission.service.ts:47-189 | an attempt adds at most the Quote that is due, and only with its photos stored, its draft prepared and its key reserved; no other Quote is touched |
| SubmissionRefusals.AttemptsKeepControl | apps/api/src/messaging/messaging-quote-submission.service.ts:47-135 | an attempt never moves authority, and writes nothing on a stale version, a damaged row or missing photos |
| SubmissionRefusals.NothingIsLoadedWithoutPhotos | apps/api/src/messaging/messaging-quote-submission.service.ts:128-134 | without stored photos a worker does not get past loading |
| SubmissionRefusals.RefusalsNameTheirCause | apps/api/src/messaging/messaging-quote-submission.service.ts:47-189 | every refused attempt names what it found: version, phase, evidence, photos, linkage, another record or a damaged history |
| SubmissionRefusals.UnpreparedNamesItsCause | apps/api/src/messaging/messaging-quote-submission-boundary.ts:37-67 | a snapshot that is not prepared lacks evidence, has the listed errors, is in another phase or reserved under another key |
| SubmissionRefusals.RefusedWritesNameTheirCause | apps/api/src/messaging/messaging-quote-state.service.ts:138-189 | a refused write names lost authority, the overtaken version, the damaged row or the conflict of its transition |
| SubmissionRefusals.ReplaysAreRead | apps/api/src/messaging/messaging-quote-replay-resolution.ts:24-66 | a look at the Quote table says new, same, different or damaged exactly as the one customer revision under the key does |
| SubmissionSteps.SummariesAreOpenedExactlyWhen | apps/api/src/messaging/messaging-quote-live-orchestrator.service.ts:168-197 | in every sound state a summary is begun if and only if the draft is in review and none has been shown for it |
| SubmissionSteps.SummariesAreStoredOnce | apps/api/src/messaging/messaging-quote-live-orchestrator.service.ts:462-520 | one summary message per version: stored once, found again under the same text, given up under another |
| InterviewCommits.AcceptedAnswersAreCommitted | apps/api/src/messaging/messaging-quote-live-orchestrator.service.ts:251-448 | until a submission is reserved, an accepted answer given under current authority is committed through the conversation row: the row then reads back as the stored draft with the answer merged in, no review marker, and a later question due |
| InterviewCommits.StaleAnswersAreNotCommitted | apps/api/src/messaging/messaging-quote-live-orchestrator.service.ts:251-448 | an answer worked out on an overtaken draft, without authority or after a reservation changes nothing |
| InterviewCommits.TheInterviewCanBeCommitted | apps/api/src/messaging/messaging-quote-live-orchestrator.service.ts:241-448 | from every sound state under automation some run of at most the remaining number of guarded updates leaves no question to ask |
| InterviewAnswers.AnswersAreRecorded | apps/api/src/messaging/messaging-quote-live-orchestrator.service.ts:251-448 | for every draft and every question but the service menu and the add-on ones: a reply is accepted if and only if it means something under the printed question, and then the new draft is the old one with that meaning written at the place of the question |
| InterviewAnswers.MeansOneThing | apps/api/src/messaging/messaging-quote-live-orchestrator.service.ts:251-448 | under a printed question a reply has at most one meaning |
| InterviewAnswers.HomeMeans | apps/api/src/messaging/messaging-quote-guided-home.ts:22-252 | the home menus and formats, as printed: which reply stands for which stored value, "Studio" only for apartments |
| InterviewAnswers.FrequencyMeans | apps/api/src/quotes/website-quote-contract.ts:239-257 | the frequency menu takes exactly the lines offered with the service |
| InterviewAnswers.EventMeans | apps/api/src/messaging/messaging-quote-guided-post-event.ts:22-102 | the event menus, counts, area list and YES or NO questions as printed |
| InterviewAnswers.VisitMeans | apps/api/src/messaging/messaging-quote-guided-visit-household.ts:27-75 | the visit menus, dates and notes as printed |
| InterviewAnswers.FinalMeans | apps/api/src/messaging/messaging-quote-guided-final-details.ts:56-163 | the last questions as printed: notes or 0, photos or DONE, e-mail, mobile, contact menu |
| InterviewForms.PutKeepsOthers | apps/api/src/messaging/messaging-quote-live-orchestrator.service.ts:251-448 | every place neither above nor below the one written keeps its value |
| InterviewForms.ChainPuts | apps/api/src/messaging/messaging-quote-state.ts:41-49 | merging a one-value patch writes that value at its path, for every draft and path |
| AnswerFormats.EmailReads | apps/api/src/messaging/messaging-quote-guided-final-details.ts:146-149 | e-mail addresses are three runs without white space joined by an at sign and a dot |
| AnswerFormats.MobileReads | apps/api/src/messaging/messaging-quote-guided-final-details.ts:151-154 | mobile numbers are a plus sign and eight to fifteen digits, the first not zero |
| AnswerFormats.DateReads | apps/api/src/messaging/messaging-quote-guided-visit-household.ts:24 | the dates accepted are exactly the days of the calendar from the year 100, written YYYY-MM-DD |
| AnswerFormats.LeapYearsAreCounted | apps/api/src/messaging/messaging-quote-guided-visit-household.ts:24 | the leap rule behind the days of February counts 97 leap years in 400 |
| AnswerFormats.PicksAreRead | apps/api/src/messaging/messaging-quote-guided-post-event.ts:72-79 | every comma list of different area numbers stores those areas in that order |
| AnswerFormats.OnlyPicksAreRead | apps/api/src/messaging/messaging-quote-guided-post-event.ts:72-79 | apart from 0, the area question takes nothing but lists of different area numbers |
| InterviewServices.ServiceAnswersAreRecorded | apps/api/src/messaging/messaging-quote-guided-cleaning-requirements.ts:10-48 | the service menu takes 1 to 15 and records the line chosen and the service it stands for, null for "Not sure" |
| InterviewServices.AddOnAnswersAreRecorded | apps/api/src/messaging/messaging-quote-guided-personalise.ts:153-183 | the add-on list takes 0 or any list of the numbers shown, laundry and ironing only with regular or deep cleaning, and records the items in the order of first mention with place holders for the loads |
| InterviewServices.EntriesAreTheListed | apps/api/src/messaging/messaging-quote-guided-personalise.ts:24-36 | entries are made if and only if every number is on the list, and are the items of those numbers |
| InterviewServices.QuantityAnswersAreRecorded | apps/api/src/messaging/messaging-quote-guided-personalise.ts:185-199 | a quantity question takes a whole number from one and records it in the items of its service only |
| InterviewCourse.OpenExactlyWhen | apps/api/src/messaging/messaging-quote-live-orchestrator.service.ts:241-249 | a question is open if and only if it applies to the draft and no stored value settles it |
| InterviewCourse.OtherQuestionsAreOpenExactlyWhen | apps/api/src/messaging/messaging-quote-guided-cleaning-requirements.ts:24-36 | the service question is open if and only if a part of the choice is missing, the add-on list if and only if none is stored |
| InterviewCourse.CountsAreOpenExactlyWhen | apps/api/src/messaging/messaging-quote-guided-personalise.ts:84-108 | a quantity is asked for if and only if the first item of the service has no whole count from one |
| InterviewCourse.OnlyOpenQuestionsAreAsked | apps/api/src/messaging/messaging-quote-live-orchestrator.service.ts:241-249 | no question is asked that does not apply or has its answer |
| InterviewCourse.FinishedInterviewsAreComplete | apps/api/src/messaging/messaging-quote-live-orchestrator.service.ts:241-249 | when nothing is left to ask, every question that applies is settled |
| InterviewCourse.TheNextIsAskedExactlyWhen | apps/api/src/messaging/messaging-quote-live-orchestrator.service.ts:251-448 | after an answer the very next question is asked if and only if it applies to the new draft and is not settled there |
| InterviewCourse.YesStoresTrue | apps/api/src/messaging/messaging-quote-guided-visit-household.ts:71-72 | for eco-friendly products, presence and pets the reply is accepted if and only if it is 1 or 2, and the stored flag is true exactly for the 1 printed before Yes |
| InterviewCourse.PetsAreAskedAboutExactlyWhen | apps/api/src/messaging/messaging-quote-guided-visit-household.ts:45-47 | with no pet type stored, the question after the pets question is the pet type if and only if the reply was 1 |
| InterviewCourse.HandoverIsAskedAboutExactlyWhen | apps/api/src/messaging/messaging-quote-guided-visit-household.ts:40-41 | handover details are asked for if and only if "To be arranged" was chosen |
| InterviewCourse.ScheduleIsAskedForExactlyWhen | apps/api/src/messaging/messaging-quote-guided-cleaning-requirements.ts:24-36 | the schedule is asked for if and only if "Custom schedule" was chosen |
| InterviewCourse.FloorIsAskedForExactlyWhen | apps/api/src/messaging/messaging-quote-guided-home.ts:147-158 | the floor is asked for if and only if the property is an apartment |
| InterviewCourse.EventIsAskedAboutExactlyWhen | apps/api/src/messaging/messaging-quote-guided-cleaning-requirements.ts:24-36 | the event questions follow if and only if post-event cleaning was chosen |
| InterviewResults.PhotosAreTheSent | apps/api/src/messaging/messaging-quote-live-orchestrator.service.ts:323-352 | after a photo message the selection is exactly the earlier one and the visible identifiers sent |
| InterviewResults.CorrectionsForgetTheirSection | apps/api/src/messaging/messaging-quote-live-orchestrator.service.ts:231-239 | a correction forgets exactly the groups of the chosen section, and with the notes the selected photos |
| Text.TrimTakesSpace | apps/api/src/messaging/messaging-quote-guided-home.ts:180-190 | trimming takes white space off both ends and nothing else |
| Text.SpellingDecides | apps/api/src/messaging/messaging-quote-guided-personalise.ts:73-77 | a text has the number n if and only if it is n as written, with zeros in front or not |
| Text.SplitJoins | apps/api/src/messaging/messaging-quote-guided-post-event.ts:72-79 | splitting cuts at every separator: joined again the parts give the text, and none contains a separator |
| Text.JoinedSplits | apps/api/src/messaging/messaging-quote-guided-post-event.ts:72-79 | splitting a joined text gives its parts back |
| QuoteEffects.CreatedQuotesHoldTheSubmission | apps/api/src/quotes/quote-submission.service.ts:93-148 | a new Quote holds the submission as revision 1 at its website price, and nothing is decided |
| QuoteEffects.ReviewsUseTheDetails | apps/api/src/quotes/quote-pricing-review.service.ts:98-114 | for every prepared review and every add-on index, the draft has the last detail supplied for it or else the stored one; no other fact changes, and the price is that of the result |
| QuoteEffects.PreparedExactlyWhen | apps/api/src/quotes/quote-pricing-review.service.ts:70-114 | a review is prepared if and only if the Quote is revisable at that revision, every detail names an add-on and the result can be priced |
| QuoteEffects.OverlayIsUnique | apps/api/src/quotes/quote-pricing-review.service.ts:98-105 | only one set of details overlays the stored ones that way |
| QuoteEffects.CommittedReviews | apps/api/src/quotes/quote-pricing-review.service.ts:116-166 | a committed review appends what was prepared and offers the Quote if and only if its costs are known and its price is final |
| QuoteEffects.ReviewsLeadToOffers | apps/api/src/quotes/quote-pricing-review.service.ts:70-166 | a Quote whose primary service prices itself with known costs is SUBMITTED after preparing and committing a review whose details settle every add-on |
| QuoteEffects.ResolutionsRecordTheChoice | apps/api/src/quotes/quote-review.service.ts:244-270 | a recorded resolution names both decisions, the existing rows chosen and the current revision |
| QuoteEffects.ResolvedExactlyWhen | apps/api/src/quotes/quote-review.service.ts:244-270 | an unresolved Quote is resolved if and only if the choices are consistent, their rows exist and the property is the customer's own |
| QuoteEffects.ConversionsFollowTheChoice | apps/api/src/quotes/quote-review.service.ts:172-232 | for every conversion: an existing customer or property that was chosen is the one used and no row is added; otherwise exactly one new row is added and used; work order and agreement go to those rows |
| QuoteEffects.TheChosenRowsAreUsed | apps/api/src/quotes/quote-review.service.ts:135-270 | from the recorded resolution through the acceptance, the chosen rows are the accepted ones |
| QuoteEffects.ConvertedExactlyWhen | apps/api/src/quotes/quote-review.service.ts:164-232 | an undecided Quote converts if and only if its choices can be carried out and services, references and identifiers are free |
| QuoteEffects.AcceptedExactlyWhen | apps/api/src/quotes/quote-review.service.ts:135-242 | a first acceptance succeeds if and only if the listed facts of Quote, tables, clock and request hold |
| QuoteEffects.DeclinesAreRecorded | apps/api/src/quotes/quote-review.service.ts:272-297 | a first decline succeeds if and only if the Quote is open, untouched and at that revision, and writes its actor and one record |
| QuoteRefusals.ReviewRefusalsNameTheirCause | apps/api/src/quotes/quote-pricing-review.service.ts:70-114 | every refused review names a fact of the Quote or the request |
| QuoteRefusals.CommitsAreRefusedExactlyWhen | apps/api/src/quotes/quote-pricing-review.service.ts:116-121 | a prepared review is refused at the end if and only if the Quote moved on, was decided or has that revision |
| QuoteRefusals.ResolutionRefusalsNameTheirCause | apps/api/src/quotes/quote-review.service.ts:244-270 | every refused resolution names its cause |
| QuoteRefusals.AcceptRefusalsNameTheirCause | apps/api/src/quotes/quote-review.service.ts:135-242 | every refused acceptance names its cause, conversion included |
| QuoteRefusals.DeclineRefusalsNameTheirCause | apps/api/src/quotes/quote-review.service.ts:272-297 | every refused decline names its cause |
| QuoteRefusals.LinkRefusalsNameTheirCause | apps/api/src/quotes/quote-customer-access.service.ts:133-216 | every refused link names its cause |
| QuoteRefusals.EvidenceRefusalsNameTheirCause | apps/api/src/quotes/quote-customer-response.service.ts:44-100 | every refused answer names its cause |
| QuotePricingEffects.RoomsAddUp | apps/api/src/quotes/website-quote-pricing.ts:172-213 | room lines add up to the room count, the first room at its own price and each further one at another |
| QuotePricingEffects.EveryFurtherRoomCountsTheSame | apps/api/src/quotes/approved-quote-cost-model.ts:71-168 | every further room adds the same cleaner-hours |
| QuotePricingEffects.PriceListsGrow | apps/api/src/quotes/website-quote-pricing.ts:31-86 | the price lists by size: larger is dearer, deep dearer than regular, moves dearest and alike |
| QuotePricingEffects.HoursGrowWithSize | apps/api/src/quotes/approved-quote-cost-model.ts:14-56 | the labour matrices by size: larger takes longer, deep longer than regular, moves longest; open-ended and unknown sizes have no hours |
| QuotePricingEffects.HoursAreKnownExactlyWhen | apps/api/src/quotes/approved-quote-cost-model.ts:71-168 | cleaner-hours are known if and only if the size is below 300 m2, the room count exact or the event automatic, and then are those of the table |
| QuotePricingEffects.WholeHoursCostTheirRates | apps/api/src/quotes/approved-quote-cost-model.ts:170-212 | whole hours and kilometres cost exactly their rates |
| QuotePricingEffects.HalfHoursRoundUp | apps/api/src/quotes/approved-quote-cost-model.ts:180-207 | half hours cost half the rate, rounded up to the cent |
| QuotePricingEffects.TheRateIsAShareOfWages | apps/api/src/quotes/approved-quote-cost-model.ts:170-178 | the COIDA rate is a share of the wages |
| QuotePricingEffects.ReviewsNameTheirCause | apps/api/src/quotes/website-quote-pricing.ts:102-213 | each review reason of the primary service is given if and only if its fact holds |
| QuotePricingEffects.EveryAddOnIsAskedAbout | apps/api/src/quotes/website-quote-pricing.ts:279-285 | on the website every add-on is asked about once, in order |
| QuotePricingEffects.LaundryIsChargedByTheLoad | apps/api/src/quotes/website-quote-pricing.ts:215-250 | loads are charged 175 or 125 rand by facilities and ironing 150, and nothing when anything is in the way |
| QuotePricingEffects.AddOnsAreChargedByTheirDetail | apps/api/src/quotes/quote-admin-repricing.ts:28-66 | a reviewed add-on is charged its amount for the detail given, times the quantity asked for, or asks for its own review |
| QuotePricingEffects.LinesAreTypedByOrigin | apps/api/src/quotes/quote-pricing-review.service.ts:29-33 | stored lines are typed by where they come from |
| PostEventEffects.GuestsAddTheirHours | apps/api/src/quotes/post-event-cleaning-operating-model.ts:107-115 | what each guest band adds to the hours |
| PostEventEffects.BathroomsAddTheirHours | apps/api/src/quotes/post-event-cleaning-operating-model.ts:117-120 | what each bathroom adds, and that a count that is not whole adds nothing |
| PostEventEffects.AreasAddTheirHours | apps/api/src/quotes/post-event-cleaning-operating-model.ts:124-128 | what an outdoor area adds the first time it is named |
| PostEventEffects.PriceIsBaseAndHours | apps/api/src/quotes/post-event-cleaning-operating-model.ts:97-168 | the price is the base price of the size and 100 rand for every added hour |
| PostEventEffects.ReasonsAreGivenExactlyWhen | apps/api/src/quotes/post-event-cleaning-operating-model.ts:97-168 | each review reason is given if and only if its fact holds |
| QuoteLinkEffects.LinksResolveExactlyWhen | apps/api/src/quotes/quote-customer-access.service.ts:241-300 | in every sound state a link resolves if and only if it stands and its evidence fits the Quote, and then shows the current revision at its price and the customer's own answer |
| QuoteLinkEffects.IssuedExactlyWhen | apps/api/src/quotes/quote-customer-access.service.ts:133-216 | a link is issued if and only if the offer is current and valid and the token is new |
| QuoteLinkEffects.NewLinksReplaceOldOnes | apps/api/src/quotes/quote-customer-access.service.ts:133-216 | after issuing, the new link is the only one that resolves, from then until it or the offer ends |
| QuoteLinkEffects.RevokedLinksShowNothing | apps/api/src/quotes/quote-customer-access.service.ts:218-239 | after revoking no token resolves |
| QuoteLinkEffects.EvidenceIsTakenExactlyWhen | apps/api/src/quotes/quote-customer-response.service.ts:44-100 | an answer is taken on a standing link: again if it says the same, first under a fresh key while the Quote is open |
| QuoteLinkEffects.UninterruptedDeclineDeclines | apps/api/src/quotes/quote-customer-response.service.ts:44-156 | an undisturbed decline through an actionable link declines the Quote |
| QuoteLinkEffects.PreflightReportsExactly | apps/api/src/quotes/quote-review.service.ts:114-133 | the eligibility check reports exactly what is in the way |
| QuoteAnswerJourneys.RepeatedDeclinesAreAnswered | apps/api/src/quotes/quote-customer-response.service.ts:50-104 | a decline given again on a declined Quote is answered as the first was |
| QuoteAnswerJourneys.RepeatedAcceptancesAreAnswered | apps/api/src/quotes/quote-customer-response.service.ts:50-118 | an acceptance given again on an accepted Quote is answered as converted and changes nothing |
| QuoteAnswerJourneys.BlockedAcceptancesStayPending | apps/api/src/quotes/quote-customer-response.service.ts:50-127 | an acceptance with anything in its way keeps its evidence and is reported as pending |
| QuoteAnswerJourneys.ConflictsAreToldApart | apps/api/src/quotes/quote-customer-response.service.ts:128-156 | a conflict lost to another acceptance is tried again, a blocked one is pending, any other fails |
| FlowSessionEffects.UpdatesHaveCauses | apps/api/src/messaging/whatsapp-quote-flow-inbound.service.ts:73-87 | why a session becomes offered, falls back or expires: a failed launch leads to fallback, a good one to an offer |
| FlowSessionEffects.OffersHaveTheseCauses | apps/api/src/messaging/whatsapp-quote-flow-session.service.ts:293-334 | an offer expires exactly what is due and supersedes exactly the unsent open session of the artifact |
| FlowSessionEffects.CompletionsHaveThisCause | apps/api/src/messaging/whatsapp-quote-flow-session.service.ts:205-291 | a session is completed if and only if it is offered, in time, for its conversation and contract, under authority and on new evidence |
| FlowSessionEffects.CompletionsRecordTheirMessage | apps/api/src/messaging/whatsapp-quote-flow-session.service.ts:205-291 | a completed session records its message, time, response and fingerprint, and no other session changes |
| FlowSessionEffects.LaunchesAreBoundExactlyWhen | apps/api/src/messaging/whatsapp-quote-flow-session.service.ts:336-341 | a prepared session takes a launch message if and only if no other has it, so no two share one |
| FlowSessionEffects.FailedLaunchesFreeTheConversation | apps/api/src/messaging/whatsapp-quote-flow-inbound.service.ts:73-87 | after a failed launch another offer is made at once |
| FlowSessionEffects.GoodLaunchesCanBeCompleted | apps/api/src/messaging/whatsapp-quote-flow-inbound.service.ts:73-87 | after a good launch the session can be completed in time |
| FlowSessionEffects.MappedAnswersBecomeAQuote | apps/api/src/messaging/whatsapp-quote-flow-submission.service.ts:51-127 | answers that map to a draft become one new Quote that holds the record of that draft |
| FlowSessionEffects.UnmappableAnswersGoToReview | apps/api/src/messaging/whatsapp-quote-flow-submission.service.ts:51-127 | answers that map to no draft go to human review with the reason of the mapping, and the Quotes stay |
| FlowSessionEffects.CaptureRefusalsNameTheirCause | apps/api/src/messaging/whatsapp-quote-flow-session.service.ts:205-291 | every refused completion names its cause |
| AttentionEffects.ComesFirstExactlyWhen | apps/api/src/attention/attention-policy.ts:41-56 | an item comes first if and only if it is more urgent, then due sooner, due at all, opened sooner |
| AttentionEffects.OpenConditionsTakeTheReport | apps/api/src/attention/attention.service.ts:305-327 | an open condition takes the queue, due time, priority and description of its report, keeps its history, and its owner exactly while eligible |
| AttentionEffects.ReturningConditionsTakeTheReport | apps/api/src/attention/attention.service.ts:287-305 | a condition that returns after it was resolved takes its report too |
| AttentionEffects.NewConditionsAreOpened | apps/api/src/attention/attention.service.ts:268-286 | a condition reported for the first time is opened with the facts of its report, by nobody and unseen |
| AttentionEffects.UnreportedConditionsAreResolved | apps/api/src/attention/attention.service.ts:329-349 | an open condition nobody reports is resolved now and keeps its facts |
| AttentionEffects.OtherItemsStay | apps/api/src/attention/attention.service.ts:262-392 | items neither reported nor stale stay as they are, but for lost owners of interrupted visits |
| AttentionEffects.AssignmentsLand | apps/api/src/attention/attention.service.ts:474-516 | an assignment is made if and only if the actor sees the item and the owner is eligible, and leaves that owner |
| AttentionEffects.ViewsLand | apps/api/src/attention/attention.service.ts:451-472 | the first view is recorded for those who see the queue |
| OutboundEffects.PassesExactlyWhen | apps/api/src/messaging/messaging.service.ts:63-80 | a command passes if and only if it is for its own durable message and, on Messenger, at most 24 hours after the customer wrote |
| OutboundEffects.SentMeansAccepted | apps/api/src/messaging/messaging.service.ts:81-104 | a caller told that a message is sent finds its acceptance in the log |
| OutboundEffects.RepliesHaveCauses | apps/api/src/messaging/messaging.service.ts:63-104 | each answer of a send other than sent has exactly its own cause |
| OutboundEffects.SendsAddTheirOutcome | apps/api/src/messaging/messaging.service.ts:86-104 | a call adds the statuses that came in meanwhile and one event for its outcome |
| DeliveryEffects.RecordedExactlyWhen | apps/api/src/correspondence/correspondence.service.ts:254-301 | an outcome is recorded if and only if it is sound and the last attempt is pending, and only there |
| DeliveryEffects.CreatedExactlyWhen | apps/api/src/correspondence/correspondence.service.ts:202-252 | an attempt is added if and only if it is the first or follows the last failure under a new id |
| DeliveryEffects.VersionsChangeForAReason | apps/api/src/correspondence/correspondence.service.ts:100-141 | publishing is for drafts and retires the predecessor; only what is published retires |
| DeliveryEffects.PublishingMakesTheOne | apps/api/src/correspondence/correspondence.service.ts:114-130 | after publishing a draft it is the one published version |
| SubmissionEvidence.ConfirmationsWereReceived | apps/api/src/messaging/messaging-quote-live-orchestrator.service.ts:168-197 | in every reachable state the confirmation of the snapshot names a message the conversation received, and its time is the time that message came in |
| SubmissionEvidence.StepKeepsEvidence | apps/api/src/messaging/messaging-quote-live-orchestrator.service.ts:168-197 | every step of every worker and outsider keeps the confirmation tied to a received message |

## Left out

- QuoteLifecycleRuns.ConversionIsSound: the owner of a property is the customer at acceptance and over lifecycle runs; apps/api/src/properties/properties.service.ts can later move a property to another customer, which is outside these runs.
- QuoteLifecycleRuns.AcceptEffects: projection of the submission, photo state, property type, service catalogue and reference numbers are yes-or-no inputs of the step, not computed.
- QuoteLifecycleRuns.OffersKeepTheMargin: the model keeps with each revision the cost facts it was priced with; the source stores only their provenance.
- QuoteDesk.QuoteFile.Accept: the retry loop after a serialization failure is not modelled; a failed attempt changes nothing and a retry is a further step.
- Attention.AttentionTable.Reconcile: its serialization retries are likewise further steps; titles, summaries, action labels and links of items are one description.
- Attention.AttentionTable.Assign: states check and write as one step; AttentionResults also runs them as two, as the source does.
- FlowSessionRuns.OneOfferAtATime: sending the launch message and its text are not modelled; the contents of the answer mapping are an arbitrary function.
- OutboundLog.StatusLog.Receive: only statuses of the message itself; access-recovery rows updated beside them are not modelled.
- OutboundLog.NeverSentTwice: one message with sequential sends; two sends of one message at the same moment are not modelled.
- CommentStripper.StripComments: the Python branch uses the interpreter's tokenizer and is not part of this model.
- SubmissionInput.KeysDoNotCollide: assumes identifiers without newlines, since the key joins them with newlines.
- QuoteState.StoredFormRoundTrips: fields of a stored snapshot that the parser ignores are not part of the snapshot.
- Json.MergeProgressValue: objects are maps with their own keys, so inherited keys and `__proto__` do not occur.
- SubmissionResults.ReplayNeverConflicts: compares structured values themselves; the source compares digests of their canonical text.
- QuoteCustomerResponse.ThePriceShownIsThePriceAccepted: resolving a link and the eligibility check are one step each although the source reads several rows.
- QuoteCustomerAccess.ResponseTable.Record: the confirmation flag and the format of the idempotency key are checked before anything is read; requests that fail there are not modelled.
- QuoteCustomerAccess.GrantTable.IssueLink: a token stands for its stored digest.
- GuidedPersonalise.PersonaliseMovesOn: null entries in a stored add-on list, on which the source throws, are taken as entries that match no service.
- Each inbound message being handled once: not enforced by the code, a replayed webhook re-enters the orchestrator.
- Fencing of Quote creation and of setting human review: not enforced by the code, only guarded state writes check the control version.
- A frozen resolution on declined Quotes: recording a resolution does not look at the status.
- Two views of the Quote table: SubmissionProtocol knows a Quote by its key and customer revisions, QuoteLifecycle by its commercial state; they are not joined in one state.
- Prompt texts beyond the menu lines and formats of InterviewForms, review messages, labels of priced lines and preview links.
- Discounts and tax, which are always zero.
- HTTP controllers, dependency wiring, storage, provider calls, dashboards, properties, employees, crews and lists.
