/**
 The whole guided interview: which question is due, what an answer does, and
 why it ends.
 (apps/api/src/messaging/messaging-quote-live-orchestrator.service.ts, guided collection)
 */
module Interview {
  import opened Prelude
  import opened Json
  import opened InterviewBase
  import opened GuidedHome
  import opened GuidedCleaning
  import opened GuidedPostEvent
  import opened GuidedPersonalise
  import opened GuidedVisitHousehold
  import opened GuidedFinalDetails

  /** `handleGuidedCollection` tries the three entry modules in turn. */
  function Next(draft: Fields): (r: nat)
    ensures r <= NOTHING_LEFT
  {
    var home := NextHome(Section(draft, Property));
    if home < CLEANING_START then home
    else
      var cleaning := NextCleaning(draft);
      if cleaning < NOTHING_LEFT then cleaning
      else
        var event := NextPostEvent(Section(draft, Request));
        if event < PERSONALISE_START then event else NOTHING_LEFT
  }

  /** The handler of the module whose question is due reads the answer. */
  function Respond(draft: Fields, raw: Option<string>): Answer {
    if NextHome(Section(draft, Property)) < CLEANING_START then ApplyHome(draft, raw)
    else if NextCleaning(draft) < NOTHING_LEFT then ApplyCleaning(draft, raw)
    else if NextPostEvent(Section(draft, Request)) < PERSONALISE_START then ApplyPostEvent(draft, raw)
    else Done
  }

  // ---- one order for all the questions -------------------------------------------------------

  /** The module whose turn it is: each keeps quiet once it is at its end. */
  function InOrder(home: nat, cleaning: nat, event: nat, personalise: nat, visit: nat, final: nat): nat {
    if home < CLEANING_START then home
    else if cleaning < POST_EVENT_START then cleaning
    else if event < PERSONALISE_START then event
    else if personalise < VISIT_START then personalise
    else if visit < FINAL_START then visit
    else final
  }

  /** Three entry points that call one another ask in one linear order of six modules. */
  lemma NextInOrder(draft: Fields)
    ensures var request := Section(draft, Request);
            Next(draft) == InOrder(NextHome(Section(draft, Property)), NextOwnCleaning(request),
                                   NextPostEvent(request), NextOwnPersonalise(request),
                                   NextOwnVisit(draft), NextFinalDetails(draft))
  {
    hide HomeOpen, CleaningOpen, FactOpen, PersonaliseOpen, VisitOpen, FinalOpen, Section, Facts, IsPostEvent;
    hide NextHome, NextOwnCleaning, NextFact, NextOwnPersonalise, NextOwnVisit, NextFinalDetails;
  }

  /** The interview stands beyond a question once its module does, and all earlier modules are through. */
  lemma NextBeyond(draft: Fields, q: Question)
    requires if q < CLEANING_START then NextHome(Section(draft, Property)) > q
             else NextHome(Section(draft, Property)) == CLEANING_START
    requires CLEANING_START <= q < POST_EVENT_START ==> NextOwnCleaning(Section(draft, Request)) > q
    requires POST_EVENT_START <= q ==> NextOwnCleaning(Section(draft, Request)) == POST_EVENT_START
    requires POST_EVENT_START <= q < PERSONALISE_START ==> NextPostEvent(Section(draft, Request)) > q
    requires PERSONALISE_START <= q ==> NextPostEvent(Section(draft, Request)) == PERSONALISE_START
    requires PERSONALISE_START <= q < VISIT_START ==> NextOwnPersonalise(Section(draft, Request)) > q
    requires VISIT_START <= q ==> NextOwnPersonalise(Section(draft, Request)) == VISIT_START
    requires VISIT_START <= q < FINAL_START ==> NextOwnVisit(draft) > q
    requires FINAL_START <= q ==> NextOwnVisit(draft) == FINAL_START && NextFinalDetails(draft) > q
    ensures Next(draft) > q
  {
    NextInOrder(draft);
    hide Next, Section, NextHome, NextOwnCleaning, NextPostEvent, NextOwnPersonalise, NextOwnVisit, NextFinalDetails;
  }

  /** The module that asked is the module that reads the answer. */
  lemma RespondInOrder(draft: Fields, raw: Option<string>)
    ensures var q, r := Next(draft), Respond(draft, raw);
            if q < CLEANING_START then r == ApplyHome(draft, raw)
            else if q < POST_EVENT_START then r == ApplyCleaning(draft, raw) && NextCleaning(draft) == q
            else if q < PERSONALISE_START then r == ApplyPostEvent(draft, raw)
            else if q < VISIT_START then r == ApplyPersonalise(draft, raw) && NextPersonalise(draft) == q
            else if q < FINAL_START then r == ApplyVisitHousehold(draft, raw) && NextVisitHousehold(draft) == q
            else if q < NOTHING_LEFT then r == ApplyFinalDetails(draft, raw)
            else r == Done
  {
    hide HomeOpen, CleaningOpen, FactOpen, PersonaliseOpen, VisitOpen, FinalOpen, Section, Facts, IsPostEvent;
    hide NextHome, NextOwnCleaning, NextFact, NextOwnPersonalise, NextOwnVisit, NextFinalDetails;
    hide CleaningPatch, PersonalisePatch, ApplyPostEvent, ApplyHome, ApplyFinalDetails, VisitValue;
  }

  /** Whether a question is unanswered in a draft, whoever asks it. */
  predicate IsOpen(draft: Fields, q: Question) {
    if q < CLEANING_START then HomeOpen(Section(draft, Property), q)
    else if q < POST_EVENT_START then CleaningOpen(Section(draft, Request), q)
    else if q < PERSONALISE_START then
      IsPostEvent(Section(draft, Request)) && FactOpen(Facts(Section(draft, Request)), q)
    else if q < VISIT_START then PersonaliseOpen(Section(draft, Request), q)
    else if q < FINAL_START then VisitOpen(draft, q)
    else FinalOpen(draft, q)
  }

  /** The chained modules together ask the first open question of one fixed order. */
  lemma NextIsTheFirstOpenQuestion(draft: Fields)
    ensures Next(draft) < NOTHING_LEFT ==> IsOpen(draft, Next(draft))
    ensures forall q | 0 <= q < Next(draft) :: !IsOpen(draft, q)
  {
    NextInOrder(draft);
    hide Next, HomeOpen, CleaningOpen, FactOpen, PersonaliseOpen, VisitOpen, FinalOpen, Section, Facts, IsPostEvent;
    hide NextHome, NextOwnCleaning, NextFact, NextOwnPersonalise, NextOwnVisit, NextFinalDetails;
  }

  /** The first open question is unique: a way to find where the interview stands. */
  lemma NextFrom(draft: Fields, q: nat)
    requires q <= NOTHING_LEFT && (q < NOTHING_LEFT ==> IsOpen(draft, q))
    requires forall r | 0 <= r < q :: !IsOpen(draft, r)
    ensures Next(draft) == q
  {
    NextIsTheFirstOpenQuestion(draft);
    hide Next, IsOpen;
  }

  // ---- every accepted answer moves on --------------------------------------------------------

  function GroupOf(q: Question): FieldName {
    if q < CLEANING_START then Property
    else if q < VISIT_START then Request
    else if q < FINAL_START then VisitGroup(q)
    else if q == AskPhotos then Photos
    else FinalGroup(q)
  }

  /** A patch of the request group. */
  lemma RequestMerge(draft: Fields, patch: Fields)
    ensures var merged := MergeDraft(draft, map[Request := Obj(patch)]);
            Section(merged, Request) == MergeFields(Section(draft, Request), patch) &&
            forall g :: g != Request ==> Get(merged, g) == Get(draft, g)
  {
    MergeGroup(draft, Request, patch);
  }

  /** What merging a property answer does to the draft. */
  lemma HomeMerge(draft: Fields, field: FieldName, v: Json)
    requires !v.Obj?
    ensures var merged := MergeDraft(draft, map[Property := Obj(map[field := v])]);
            Section(merged, Property) == Section(draft, Property)[field := v] &&
            forall g :: g != Property ==> Get(merged, g) == Get(draft, g)
  {
    MergeGroup(draft, Property, map[field := v]);
    MergeLeaf(Section(draft, Property), field, v);
  }

  lemma HomeAnswer(draft: Fields, raw: Option<string>)
    requires Next(draft) < CLEANING_START && Respond(draft, raw).Accepted?
    ensures var merged := MergeDraft(draft, Respond(draft, raw).patch);
            Next(merged) > Next(draft) && forall g :: g != Property ==> Get(merged, g) == Get(draft, g)
  {
    var p := Section(draft, Property);
    var q := NextHome(p);
    assert Next(draft) == q && Respond(draft, raw) == ApplyHome(draft, raw) by {
      hide NextHome, ApplyHome, NextCleaning, NextPostEvent, Section;
    }
    hide Next, Respond, NextHome, HomeValue, MergeDraft, HomeMissing, Given, HomeField, Section;
    var v := HomeValue(p, q, Given(raw)).value;
    HomeValueAnswers(p, q, Given(raw));
    HomeMovesOn(p, v);
    HomeMerge(draft, HomeField(q), v);
    NextBeyond(MergeDraft(draft, map[Property := Obj(map[HomeField(q) := v])]), q);
  }

  /** The cleaning questions look at four request fields only. */
  lemma CleaningDependsOn(request: Fields, request': Fields)
    requires Get(request', PrimaryService) == Get(request, PrimaryService)
    requires Get(request', Frequency) == Get(request, Frequency)
    requires Get(request', CustomFrequencyNote) == Get(request, CustomFrequencyNote)
    requires Get(request', HomeCondition) == Get(request, HomeCondition)
    ensures NextOwnCleaning(request') == NextOwnCleaning(request) && Canonical(request') == Canonical(request)
  {
    forall q
      ensures CleaningOpen(request', q) == CleaningOpen(request, q)
    {
    }
    hide CleaningOpen, NextOwnCleaning;
  }

  /** At a cleaning question the answer goes to the cleaning module. */
  lemma CleaningTurn(draft: Fields, raw: Option<string>)
    requires CLEANING_START <= Next(draft) < POST_EVENT_START
    ensures Next(draft) == NextOwnCleaning(Section(draft, Request)) == NextCleaning(draft)
    ensures NextHome(Section(draft, Property)) == CLEANING_START && Respond(draft, raw) == ApplyCleaning(draft, raw)
  {
    NextInOrder(draft);
    RespondInOrder(draft, raw);
    hide Next, Respond, NextCleaning, NextHome, NextOwnCleaning, NextPostEvent, NextOwnPersonalise, NextOwnVisit;
    hide NextFinalDetails, ApplyCleaning, Section;
  }

  lemma CleaningAnswer(draft: Fields, raw: Option<string>)
    requires CLEANING_START <= Next(draft) < POST_EVENT_START && Respond(draft, raw).Accepted?
    ensures var merged := MergeDraft(draft, Respond(draft, raw).patch);
            Next(merged) > Next(draft) && forall g :: g != Request ==> Get(merged, g) == Get(draft, g)
  {
    CleaningTurn(draft, raw);
    hide Next, Respond, NextCleaning, NextHome, CleaningPatch, MergeDraft, MergeFields, Given;
    hide NextOwnCleaning, ApplyPersonalise, Section;
    var request := Section(draft, Request);
    var patch := CleaningPatch(request, NextOwnCleaning(request), Given(raw)).value;
    CleaningMovesOn(request, Given(raw));
    RequestMerge(draft, patch);
    var merged := MergeDraft(draft, map[Request := Obj(patch)]);
    SameSection(draft, merged, Property);
    NextBeyond(merged, Next(draft));
  }

  /** Event facts are their own: writing them disturbs no cleaning question. */
  lemma WithFacts(request: Fields, facts: Fields)
    ensures var request' := request[PostEvent := Obj(facts)];
            Facts(request') == facts && NextOwnCleaning(request') == NextOwnCleaning(request) &&
            IsPostEvent(request') == IsPostEvent(request)
  {
    hide NextOwnCleaning, Canonical;
    var request' := request[PostEvent := Obj(facts)];
    FieldUpdate(request, PostEvent, Obj(facts));
    assert Facts(request') == facts;
    hide Get;
    CleaningDependsOn(request, request');
  }

  lemma FactAdvances(request: Fields, text: string)
    requires IsPostEvent(request) && NextFact(Facts(request)) < PERSONALISE_START
    requires FactValue(NextFact(Facts(request)), text).Some?
    ensures var q := NextFact(Facts(request));
            var request' := request[PostEvent := Obj(Facts(request)[FactField(q) := FactValue(q, text).value])];
            NextOwnCleaning(request') == NextOwnCleaning(request) && NextPostEvent(request') > q
  {
    hide NextOwnCleaning, NextFact, FactField, FactValue, FactMissing, FactOpen, Facts, IsPostEvent;
    var q := NextFact(Facts(request));
    var v := FactValue(q, text).value;
    FactValueAnswers(q, text);
    FactMovesOn(Facts(request), v);
    WithFacts(request, Facts(request)[FactField(q) := v]);
  }

  /** At an event question the answer goes to the event module. */
  lemma PostEventTurn(draft: Fields, raw: Option<string>)
    requires POST_EVENT_START <= Next(draft) < PERSONALISE_START
    ensures var request := Section(draft, Request);
            IsPostEvent(request) && Next(draft) == NextFact(Facts(request)) &&
            NextHome(Section(draft, Property)) == CLEANING_START && NextOwnCleaning(request) == POST_EVENT_START &&
            Respond(draft, raw) == ApplyPostEvent(draft, raw)
  {
    NextInOrder(draft);
    RespondInOrder(draft, raw);
    hide Next, Respond, NextHome, NextFact, NextOwnCleaning, NextOwnPersonalise, NextOwnVisit, NextFinalDetails;
    hide ApplyPostEvent, Section, Facts, IsPostEvent;
  }

  lemma PostEventAnswer(draft: Fields, raw: Option<string>)
    requires POST_EVENT_START <= Next(draft) < PERSONALISE_START && Respond(draft, raw).Accepted?
    ensures var merged := MergeDraft(draft, Respond(draft, raw).patch);
            Next(merged) > Next(draft) && forall g :: g != Request ==> Get(merged, g) == Get(draft, g)
  {
    PostEventTurn(draft, raw);
    hide Next, Respond, NextHome, FactValue, FactPatch, MergeDraft, FactField, Given, FactMissing;
    hide NextOwnCleaning, NextFact, Section, Facts, IsPostEvent;
    var request := Section(draft, Request);
    var q := NextFact(Facts(request));
    FactAdvances(request, Given(raw));
    FactValueAnswers(q, Given(raw));
    var v := FactValue(q, Given(raw)).value;
    FactMerge(draft, q, v);
    var merged := MergeDraft(draft, FactPatch(q, v));
    hide NextPostEvent;
    SameSection(draft, merged, Property);
    NextBeyond(merged, q);
  }

  lemma SameSection(draft: Fields, draft': Fields, group: FieldName)
    requires Get(draft', group) == Get(draft, group)
    ensures Section(draft', group) == Section(draft, group)
  {
  }

  lemma PersonaliseAdvances(request: Fields, text: string)
    requires NextOwnPersonalise(request) < VISIT_START
    requires PersonalisePatch(request, NextOwnPersonalise(request), text).Some?
    ensures var q := NextOwnPersonalise(request);
            var request' := MergeFields(request, PersonalisePatch(request, q, text).value);
            NextOwnCleaning(request') == NextOwnCleaning(request) &&
            NextPostEvent(request') == NextPostEvent(request) && NextOwnPersonalise(request') > q
  {
    hide PersonalisePatch, MergeFields, NextFact, NextOwnCleaning, NextOwnPersonalise, Get, Canonical;
    var q := NextOwnPersonalise(request);
    var request' := MergeFields(request, PersonalisePatch(request, q, text).value);
    PersonaliseMovesOn(request, text);
    PersonaliseTouches(request, q, text);
    CleaningDependsOn(request, request');
    assert Get(request', PostEvent) == Get(request, PostEvent);
    assert Facts(request') == Facts(request);
  }

  lemma PersonaliseAnswer(draft: Fields, raw: Option<string>)
    requires PERSONALISE_START <= Next(draft) < VISIT_START && Respond(draft, raw).Accepted?
    ensures var merged := MergeDraft(draft, Respond(draft, raw).patch);
            Next(merged) > Next(draft) && forall g :: g != Request ==> Get(merged, g) == Get(draft, g)
  {
    NextInOrder(draft);
    RespondInOrder(draft, raw);
    hide Next, Respond, NextPersonalise, NextHome, PersonalisePatch, MergeDraft, MergeFields, Given, NextPostEvent;
    hide NextOwnCleaning, NextFact, NextOwnPersonalise, NextOwnVisit, NextFinalDetails, ApplyVisitHousehold, Section;
    var request := Section(draft, Request);
    var patch := PersonalisePatch(request, NextOwnPersonalise(request), Given(raw)).value;
    PersonaliseAdvances(request, Given(raw));
    RequestMerge(draft, patch);
    var merged := MergeDraft(draft, map[Request := Obj(patch)]);
    SameSection(draft, merged, Property);
    NextBeyond(merged, Next(draft));
  }

  /** Drafts with the same property and request facts stand alike before the visit questions. */
  lemma EarlierModulesAgree(draft: Fields, draft': Fields)
    requires Get(draft', Property) == Get(draft, Property) && Get(draft', Request) == Get(draft, Request)
    requires VISIT_START <= Next(draft)
    ensures Next(draft') == (if NextOwnVisit(draft') < FINAL_START then NextOwnVisit(draft') else NextFinalDetails(draft'))
  {
    NextInOrder(draft);
    NextInOrder(draft');
    hide Next, NextOwnVisit, NextOwnPersonalise, NextOwnCleaning, NextHome, NextPostEvent, NextFinalDetails;
  }

  lemma VisitAnswer(draft: Fields, raw: Option<string>)
    requires VISIT_START <= Next(draft) < FINAL_START && Respond(draft, raw).Accepted?
    ensures var merged := MergeDraft(draft, Respond(draft, raw).patch);
            Next(merged) > Next(draft) && forall g :: g != VisitGroup(Next(draft)) ==> Get(merged, g) == Get(draft, g)
  {
    EarlierModulesAgree(draft, draft);
    RespondInOrder(draft, raw);
    hide Next, Respond, NextVisitHousehold, NextOwnVisit, VisitValue, VisitPatch, MergeDraft, Given, VisitMissing;
    hide NextFinalDetails, ApplyFinalDetails;
    var q := NextOwnVisit(draft);
    var v := VisitValue(q, Given(raw)).value;
    VisitValueAnswers(q, Given(raw));
    VisitMovesOn(draft, v);
    VisitMerge(draft, q, v);
    assert VisitGroup(q) != Property && VisitGroup(q) != Request;
    hide VisitGroup;
    EarlierModulesAgree(draft, MergeDraft(draft, VisitPatch(q, v)));
  }

  /** The visit questions look at three groups only. */
  lemma VisitAgrees(draft: Fields, draft': Fields)
    requires Get(draft', Visit) == Get(draft, Visit)
    requires Get(draft', Access) == Get(draft, Access)
    requires Get(draft', Household) == Get(draft, Household)
    ensures NextOwnVisit(draft') == NextOwnVisit(draft)
  {
    forall q
      ensures VisitOpen(draft', q) == VisitOpen(draft, q)
    {
      hide VisitField, VisitMissing, VisitApplies;
      assert Get(draft', VisitGroup(q)) == Get(draft, VisitGroup(q));
    }
    hide VisitOpen, NextOwnVisit;
  }

  /** A final answer leaves every group but its own alone, and its own is none of the earlier ones. */
  lemma FinalFrame(draft: Fields, q: Question, v: Json)
    requires FINAL_START <= q < NOTHING_LEFT && !v.Obj?
    ensures var merged := MergeDraft(draft, FinalPatch(q, v));
            (forall g :: g != GroupOf(q) ==> Get(merged, g) == Get(draft, g)) &&
            Get(merged, Property) == Get(draft, Property) && Get(merged, Request) == Get(draft, Request) &&
            Get(merged, Visit) == Get(draft, Visit) && Get(merged, Access) == Get(draft, Access) &&
            Get(merged, Household) == Get(draft, Household)
  {
    FinalMerge(draft, q, v);
    hide MergeDraft, FinalPatch, FinalStored, FinalField, Get;
  }

  lemma FinalAnswer(draft: Fields, raw: Option<string>)
    requires FINAL_START <= Next(draft) < NOTHING_LEFT && Respond(draft, raw).Accepted?
    ensures var merged := MergeDraft(draft, Respond(draft, raw).patch);
            Next(merged) > Next(draft) && forall g :: g != GroupOf(Next(draft)) ==> Get(merged, g) == Get(draft, g)
  {
    EarlierModulesAgree(draft, draft);
    RespondInOrder(draft, raw);
    hide Next, Respond, NextOwnVisit, NextFinalDetails, FinalValue, FinalPatch, MergeDraft, Given, FinalMissing;
    var q := NextFinalDetails(draft);
    var v := FinalValue(draft, q, Given(raw)).value;
    FinalValueAnswers(draft, q, Given(raw));
    FinalMovesOn(draft, v);
    FinalFrame(draft, q, v);
    var merged := MergeDraft(draft, FinalPatch(q, v));
    hide GroupOf;
    EarlierModulesAgree(draft, merged);
    VisitAgrees(draft, merged);
  }

  /** The interview's measure: an accepted answer moves the next question strictly forward. */
  lemma AcceptedAnswersMoveOn(draft: Fields, raw: Option<string>)
    requires Respond(draft, raw).Accepted?
    ensures Next(MergeDraft(draft, Respond(draft, raw).patch)) > Next(draft)
    ensures forall g :: g != GroupOf(Next(draft)) ==>
              Get(MergeDraft(draft, Respond(draft, raw).patch), g) == Get(draft, g)
  {
    RespondAgreesWithNext(draft, raw);
    var q := Next(draft);
    if q < CLEANING_START { HomeAnswer(draft, raw); }
    else if q < POST_EVENT_START { CleaningAnswer(draft, raw); }
    else if q < PERSONALISE_START { PostEventAnswer(draft, raw); }
    else if q < VISIT_START { PersonaliseAnswer(draft, raw); }
    else if q < FINAL_START { VisitAnswer(draft, raw); }
    else { FinalAnswer(draft, raw); }
    hide Next, Respond, MergeDraft, VisitGroup, FinalGroup;
  }

  /** Done exactly when nothing is left; a refused answer leaves the same question due. */
  lemma RespondAgreesWithNext(draft: Fields, raw: Option<string>)
    ensures Respond(draft, raw).Done? <==> Next(draft) == NOTHING_LEFT
    ensures Respond(draft, raw).Invalid? ==> Respond(draft, raw).question == Next(draft)
    ensures !Respond(draft, raw).NotApplicable?
  {
    NextInOrder(draft);
    RespondInOrder(draft, raw);
    hide Next, Respond, NextCleaning, NextPersonalise, NextVisitHousehold;
    hide NextHome, NextOwnCleaning, NextFact, NextOwnPersonalise, NextOwnVisit, NextFinalDetails;
    hide HomeValue, CleaningPatch, FactValue, PersonalisePatch, VisitValue, FinalValue;
    hide Section, Given, IsPostEvent, HomeField, VisitPatch, FinalPatch, FactPatch;
  }
}
