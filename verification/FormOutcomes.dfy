/** What each operation of the feedback-form service does in a run, field by field: which outcome
    it has, which row it writes, and what that row then holds. */
module FormOutcomes {
  import opened Text
  import opened FeedbackDomain
  import opened Questions
  import opened TypeCounts
  import opened FormStore
  import opened FormRuns
  import Slugs

  // ----- how a row compares with what it was -----

  /** Nothing but row `id` changes, and that row is there afterwards. */
  ghost predicate WritesRow(s: Store, s': Store, id: string) {
    id in s'.forms && s'.forms == s.forms[id := s'.forms[id]]
  }

  ghost predicate SameContent(f: Form, g: Form) {
    g.title == f.title && g.slug == f.slug && g.language == f.language && g.questions == f.questions
  }

  ghost predicate SameRequest(job: AIJob, job': AIJob) {
    job'.prompt == job.prompt && job'.language == job.language && job'.typeCounts == job.typeCounts
  }

  /** The job goes back to the user with nothing but the reason it failed. */
  ghost predicate FailsWith(f: Form, g: Form, reason: JobError, now: int) {
    && SameContent(f, g) && g.status == Draft && g.updatedAt == now
    && f.aiJob.Some? && g.aiJob.Some?
    && var job, job' := f.aiJob.value, g.aiJob.value;
       && SameRequest(job, job') && job'.round == job.round && job'.qaHistory == job.qaHistory
       && job'.confidence == job.confidence
       && job'.error == reason && job'.clarifying == [] && job'.pending == [] && job'.updatedAt == now
  }

  /** A language that is not known is replaced by Indonesian. */
  ghost predicate KnownAs(asked: Language, stored: Language) {
    stored == if asked == English then English else Indonesian
  }

  /** The slug comes from the wish, the title or the UUID, and is free or the form's own. */
  ghost predicate SlugFor(s: Store, desired: string, title: string, current: string, uuid: nat, slug: string) {
    exists base :: Slugs.IsBase(desired, title, uuid, base) &&
      if base == current then slug == base else Slugs.FirstUntaken(base, SlugsOf(s.forms), slug)
  }

  lemma AllocatedIsFor(s: Store, desired: string, title: string, current: string, uuid: nat)
    ensures SlugFor(s, desired, title, current, uuid, Slugs.AllocatedSlug(SlugsOf(s.forms), desired, title, current, uuid))
  {
    Slugs.AllocatedIsFirstUntaken(SlugsOf(s.forms), desired, title, current, uuid);
  }

  ghost predicate AllAcceptable(questions: seq<Question>) {
    forall q :: q in questions ==> Acceptable(q)
  }

  // ----- editing -----

  /** A form is created exactly when all its questions are acceptable and its ID is new: a draft
      without a job, with the questions in their stored form. */
  ghost predicate Creates(s: Store, r: (Store, Outcome), id: string, title: string, language: Language,
                          questions: seq<Question>, desired: string, uuids: Uuids, now: int) {
    && (r.1 == if !AllAcceptable(questions) then Refused else if id in s.forms then Conflict else Done)
    && (!r.1.Done? ==> r.0 == s)
    && (r.1.Done? ==>
          && WritesRow(s, r.0, id) && r.0.dispatches == s.dispatches
          && var f := r.0.forms[id];
             && f.title == title && f.status == Draft && f.aiJob == None && f.updatedAt == now
             && KnownAs(language, f.language)
             && AllNormalizedAs(questions, f.questions, uuids.QuestionId)
             && SlugFor(s, desired, title, "", uuids.slug, f.slug))
  }

  lemma CreateOutcome(s: Store, id: string, title: string, language: Language, questions: seq<Question>,
                      desired: string, uuids: Uuids, now: int)
    requires Inv(s)
    ensures Creates(s, CreateForm(s, id, title, language, questions, desired, uuids, now), id, title, language, questions, desired, uuids, now)
  {
    CreateKeeps(s, id, title, language, questions, desired, uuids, now);
    NormalizeAllIdempotent(questions, uuids.QuestionId, uuids.QuestionId);
    AllocatedIsFor(s, desired, title, "", uuids.slug);
    if NormalizeAll(questions, uuids.QuestionId).Ok? {
      NormalizedFieldByField(questions, uuids.QuestionId);
    }
  }

  /** What an edit makes of a form: title, language and questions from the request; the slug only if
      the request wishes for one; the job stays, and so does the status while the AI is at work. */
  ghost predicate EditsTo(s: Store, f: Form, g: Form, title: string, language: Option<Language>,
                          questions: seq<Question>, desired: string, uuids: Uuids, now: int) {
    && g.title == title && g.aiJob == f.aiJob && g.updatedAt == now
    && (if language.Some? then KnownAs(language.value, g.language) else g.language == f.language)
    && AllNormalizedAs(questions, g.questions, uuids.QuestionId)
    && g.status == (if f.status == ProcessingAI || f.status == NeedClarification then f.status else Draft)
    && if Blank(desired) then g.slug == f.slug else SlugFor(s, desired, title, f.slug, uuids.slug, g.slug)
  }

  ghost predicate Edits(s: Store, r: (Store, Outcome), id: string, title: string, language: Option<Language>,
                        questions: seq<Question>, desired: string, uuids: Uuids, now: int) {
    && (r.1 == if id !in s.forms then NotFound else if !AllAcceptable(questions) then Refused else Done)
    && (!r.1.Done? ==> r.0 == s)
    && (r.1.Done? ==>
          && WritesRow(s, r.0, id) && r.0.dispatches == s.dispatches
          && EditsTo(s, s.forms[id], r.0.forms[id], title, language, questions, desired, uuids, now))
  }

  lemma UpdateOutcome(s: Store, id: string, title: string, language: Option<Language>, questions: seq<Question>,
                      desired: string, uuids: Uuids, now: int)
    requires Inv(s)
    ensures Edits(s, UpdateForm(s, id, title, language, questions, desired, uuids, now), id, title, language, questions, desired, uuids, now)
  {
    UpdateKeeps(s, id, title, language, questions, desired, uuids, now);
    NormalizeAllIdempotent(questions, uuids.QuestionId, uuids.QuestionId);
    if id in s.forms && NormalizeAll(questions, uuids.QuestionId).Ok? {
      assert FormInv(s.forms[id]);
      AllocatedIsFor(s, desired, title, s.forms[id].slug, uuids.slug);
      NormalizedFieldByField(questions, uuids.QuestionId);
    }
  }

  /** A form with questions is published, whatever its status; one without is refused. */
  ghost predicate Publishes(s: Store, r: (Store, Outcome), id: string, now: int) {
    && (r.1 == if id !in s.forms then NotFound else if s.forms[id].questions == [] then Refused else Done)
    && (!r.1.Done? ==> r.0 == s)
    && (r.1.Done? ==>
          && WritesRow(s, r.0, id) && r.0.dispatches == s.dispatches
          && var f, g := s.forms[id], r.0.forms[id];
             SameContent(f, g) && g.aiJob == f.aiJob && g.status == Published && g.updatedAt == now)
  }

  lemma PublishOutcome(s: Store, id: string, now: int)
    requires Inv(s)
    ensures Publishes(s, PublishForm(s, id, now), id, now)
  {
    PublishKeeps(s, id, now);
  }

  ghost predicate Deletes(s: Store, r: (Store, Outcome), id: string) {
    && r.1 == Done && r.0.dispatches == s.dispatches
    && r.0.forms.Keys == s.forms.Keys - {id}
    && forall other :: other in r.0.forms ==> r.0.forms[other] == s.forms[other]
  }

  // ----- starting a job -----

  /** The places where a word starts: a character that is no space, after a space or at the front. */
  ghost function WordStarts(s: string): set<nat> {
    set i: nat | i < |s| && StartsWord(s, i)
  }

  predicate StartsWord(s: string, i: nat)
    requires i < |s|
  {
    !IsSpace(s[i]) && (i == 0 || IsSpace(s[i - 1]))
  }

  /** The words that start in the first `n` characters. */
  function StartsBefore(s: string, n: nat): nat
    requires n <= |s|
  {
    if n == 0 then 0 else StartsBefore(s, n - 1) + if StartsWord(s, n - 1) then 1 else 0
  }

  lemma {:induction false} CountFrom(s: string, n: nat)
    requires n <= |s|
    ensures CountWords(s, false) == StartsBefore(s, n) + CountWords(s[n..], n > 0 && !IsSpace(s[n - 1]))
  {
    if n > 0 {
      CountFrom(s, n - 1);
      assert s[n - 1..][1..] == s[n..];
    } else {
      assert s[0..] == s;
    }
  }

  lemma {:induction false} StartsAreCounted(s: string, n: nat)
    requires n <= |s|
    ensures StartsBefore(s, n) == |set i: nat | i < n && StartsWord(s, i)|
  {
    if n > 0 {
      StartsAreCounted(s, n - 1);
      var before, after := set i: nat | i < n - 1 && StartsWord(s, i), set i: nat | i < n && StartsWord(s, i);
      assert after == if StartsWord(s, n - 1) then before + {n - 1} else before;
    }
  }

  /** Counting words counts the places where one starts. */
  lemma WordsAreStarts(s: string)
    ensures CountWords(s, false) == |WordStarts(s)|
  {
    CountFrom(s, |s|);
    StartsAreCounted(s, |s|);
    assert s[|s|..] == "";
  }

  /** The user is asked at once: nothing is attached and the prompt has fewer than three words. */
  ghost predicate SaysTooLittle(prompt: string, hasFiles: bool) {
    !hasFiles && |WordStarts(TrimSpace(prompt))| < 3
  }

  /** A fresh job of round 0 for the request; a vague prompt brings the three standard questions. */
  ghost predicate FreshJob(job: AIJob, prompt: string, language: Language, spec: Spec, vague: bool, now: int) {
    && job.prompt == prompt && KnownAs(language, job.language) && TypeCounts.Restored(job.typeCounts) == spec
    && job.round == 0 && job.qaHistory == [] && job.pending == [] && job.error == NoError && job.updatedAt == now
    && job.confidence == (if vague then 40 else 0)
    && job.clarifying == (if !vague then []
                          else if language == English then ["project", "respondent", "aspect"]
                          else ["proyek", "responden", "aspek"])
  }

  /** The form a request without one makes: a title from the prompt, a free slug, no questions. */
  ghost predicate MadeFor(s: Store, g: Form, prompt: string, language: Language, uuid: nat) {
    && g.title == Headline(prompt, DEFAULT_TITLE)
    && KnownAs(language, g.language) && g.questions == []
    && SlugFor(s, "", g.title, "", uuid, g.slug)
  }

  /** The row has the new job and its status. */
  ghost predicate HasJob(g: Form, prompt: string, language: Language, spec: Spec, vague: bool, now: int) {
    && g.status == (if vague then NeedClarification else ProcessingAI) && g.updatedAt == now
    && g.aiJob.Some? && FreshJob(g.aiJob.value, prompt, language, spec, vague, now)
  }

  /** The request is turned away for an unreadable count, for a form that is not there, or for one that
      is being processed. */
  ghost function RequestOutcome(s: Store, formId: Option<string>, newId: string, fields: map<QuestionType, JsonValue>): Outcome {
    if exists t :: t in fields && t.Valid() && ParseCount(fields[t]).None? then Refused
    else if formId.None? then (if newId in s.forms then Conflict else Done)
    else if formId.value !in s.forms then NotFound
    else if s.forms[formId.value].status == ProcessingAI then Refused
    else Done
  }

  /** One row gets the job, and its task goes out unless the prompt is vague. */
  ghost predicate BeginsOn(s: Store, s': Store, id: string, prompt: string, fields: map<QuestionType, JsonValue>,
                           vague: bool, language: Language, now: int) {
    && WritesRow(s, s', id)
    && HasJob(s'.forms[id], prompt, language, Readable(fields), vague, now)
    && s'.dispatches == s.dispatches + if vague then [] else [Dispatch(id, 0, false, Readable(fields))]
  }

  ghost predicate Begins(s: Store, r: (Store, Outcome), formId: Option<string>, newId: string, prompt: string,
                         fields: map<QuestionType, JsonValue>, hasFiles: bool, language: Language, uuids: Uuids, now: int) {
    var id := if formId.Some? then formId.value else newId;
    var vague := SaysTooLittle(prompt, hasFiles);
    && r.1 == RequestOutcome(s, formId, newId, fields)
    && (!r.1.Done? ==> r.0 == s)
    && (r.1.Done? ==>
          && BeginsOn(s, r.0, id, prompt, fields, vague, language, now)
          && if formId.Some? then SameContent(s.forms[id], r.0.forms[id]) else MadeFor(s, r.0.forms[id], prompt, language, uuids.slug))
  }

  lemma BegunHasJob(f: Form, prompt: string, fields: map<QuestionType, JsonValue>, vague: bool, language: Language, now: int)
    ensures var g := Begun(f, prompt, Readable(fields), vague, KnownLanguage(language), now);
            HasJob(g, prompt, language, Readable(fields), vague, now) && SameContent(f, g)
  {
    ParsedSpecSurvivesStorage(fields);
  }

  lemma VagueIsTooLittle(prompt: string, hasFiles: bool)
    ensures TooVague(prompt, hasFiles) <==> SaysTooLittle(prompt, hasFiles)
  {
    WordsAreStarts(TrimSpace(prompt));
  }

  lemma PromptedIsMade(s: Store, prompt: string, language: Language, uuid: nat, now: int)
    ensures MadeFor(s, PromptedForm(s, prompt, KnownLanguage(language), uuid, now), prompt, language, uuid)
  {
    AllocatedIsFor(s, "", Headline(prompt, DEFAULT_TITLE), "", uuid);
  }

  lemma BeginOutcome(s: Store, isNew: bool, id: string, f: Form, prompt: string, fields: map<QuestionType, JsonValue>,
                     vague: bool, language: Language, now: int)
    requires Inv(s) && FormInv(f)
    requires if isNew then f.slug !in SlugsOf(s.forms) else id in s.forms && f == s.forms[id]
    ensures var r := BeginOn(s, isNew, id, f, prompt, Readable(fields), vague, KnownLanguage(language), now);
            && r.1 == (if isNew && id in s.forms then Conflict else Done)
            && (r.1.Conflict? ==> r.0 == s)
            && (r.1.Done? ==> BeginsOn(s, r.0, id, prompt, fields, vague, language, now) && SameContent(f, r.0.forms[id]))
  {
    BeginKeeps(s, isNew, id, f, prompt, Readable(fields), vague, KnownLanguage(language), now);
    BegunHasJob(f, prompt, fields, vague, language, now);
  }

  lemma SameIsMade(s: Store, f: Form, g: Form, prompt: string, language: Language, uuid: nat)
    requires MadeFor(s, f, prompt, language, uuid) && SameContent(f, g)
    ensures MadeFor(s, g, prompt, language, uuid)
  {
  }

  /** A request without a form, on the form `f` made for it. */
  lemma NewBegins(s: Store, r: (Store, Outcome), newId: string, f: Form, prompt: string, fields: map<QuestionType, JsonValue>,
                  hasFiles: bool, language: Language, uuids: Uuids, now: int)
    requires Inv(s) && FormInv(f) && f.slug !in SlugsOf(s.forms) && MadeFor(s, f, prompt, language, uuids.slug)
    requires !Unreadable(fields) && newId !in s.forms
    requires r == BeginOn(s, true, newId, f, prompt, Readable(fields), TooVague(prompt, hasFiles), KnownLanguage(language), now)
    ensures Begins(s, r, None, newId, prompt, fields, hasFiles, language, uuids, now)
  {
    VagueIsTooLittle(prompt, hasFiles);
    BeginOutcome(s, true, newId, f, prompt, fields, TooVague(prompt, hasFiles), language, now);
    SameIsMade(s, f, r.0.forms[newId], prompt, language, uuids.slug);
  }

  lemma IdTaken(s: Store, id: string, f: Form, prompt: string, spec: Spec, vague: bool, language: Language, now: int)
    ensures id in s.forms ==> BeginOn(s, true, id, f, prompt, spec, vague, language, now) == (s, Conflict)
  {
  }

  lemma NewTurnedAway(s: Store, r: (Store, Outcome), newId: string, prompt: string, fields: map<QuestionType, JsonValue>,
                      hasFiles: bool, language: Language, uuids: Uuids, now: int)
    requires Unreadable(fields) || newId in s.forms
    requires r == (s, if Unreadable(fields) then Refused else Conflict)
    ensures Begins(s, r, None, newId, prompt, fields, hasFiles, language, uuids, now)
  {
  }

  lemma NewOutcome(s: Store, newId: string, prompt: string, fields: map<QuestionType, JsonValue>, hasFiles: bool,
                   language: Language, uuids: Uuids, now: int)
    requires Inv(s)
    ensures Begins(s, RequestSuggest(s, None, newId, prompt, fields, hasFiles, language, uuids, now),
                   None, newId, prompt, fields, hasFiles, language, uuids, now)
  {
    var f := PromptedForm(s, prompt, KnownLanguage(language), uuids.slug, now);
    PromptedIsGood(s, prompt, KnownLanguage(language), uuids.slug, now);
    PromptedIsMade(s, prompt, language, uuids.slug, now);
    var r := RequestSuggest(s, None, newId, prompt, fields, hasFiles, language, uuids, now);
    if !Unreadable(fields) && newId !in s.forms {
      NewBegins(s, r, newId, f, prompt, fields, hasFiles, language, uuids, now);
    } else {
      IdTaken(s, newId, f, prompt, Readable(fields), TooVague(prompt, hasFiles), KnownLanguage(language), now);
      NewTurnedAway(s, r, newId, prompt, fields, hasFiles, language, uuids, now);
    }
  }

  lemma StoredOutcome(s: Store, id: string, newId: string, prompt: string, fields: map<QuestionType, JsonValue>, hasFiles: bool,
                      language: Language, uuids: Uuids, now: int)
    requires Inv(s)
    ensures Begins(s, RequestSuggest(s, Some(id), newId, prompt, fields, hasFiles, language, uuids, now),
                   Some(id), newId, prompt, fields, hasFiles, language, uuids, now)
  {
    VagueIsTooLittle(prompt, hasFiles);
    if id in s.forms {
      BeginOutcome(s, false, id, s.forms[id], prompt, fields, TooVague(prompt, hasFiles), language, now);
    }
  }

  lemma StartOutcome(s: Store, formId: Option<string>, newId: string, prompt: string,
                     fields: map<QuestionType, JsonValue>, hasFiles: bool, language: Language, uuids: Uuids, now: int)
    requires Inv(s)
    ensures Begins(s, RequestSuggest(s, formId, newId, prompt, fields, hasFiles, language, uuids, now),
                   formId, newId, prompt, fields, hasFiles, language, uuids, now)
  {
    match formId {
      case None => NewOutcome(s, newId, prompt, fields, hasFiles, language, uuids, now);
      case Some(id) => StoredOutcome(s, id, newId, prompt, fields, hasFiles, language, uuids, now);
    }
  }

  // ----- how a round ends -----

  /** The task could not be handed over: a form still being processed fails with the reason. */
  ghost predicate TurnsDown(s: Store, r: (Store, Outcome), id: string, reason: JobError, now: int) {
    && r.1 == Done && r.0.dispatches == s.dispatches
    && if Processing(s, id) then WritesRow(s, r.0, id) && FailsWith(s.forms[id], r.0.forms[id], reason, now) else r.0 == s
  }

  lemma FailOutcome(s: Store, id: string, reason: JobError, now: int)
    requires Inv(s)
    ensures TurnsDown(s, FailDispatch(s, id, reason, now), id, reason, now)
  {
    FailKeeps(s, id, reason, now);
    assert id in s.forms ==> FormInv(s.forms[id]);
  }

  /** What a parsed reply makes of a job: asked back, the first four questions and nothing to add; else
      no questions, and every usable suggestion for the user to add. */
  ghost predicate TakesReply(f: Form, g: Form, reply: Content, now: int)
    requires reply.Reply?
  {
    && SameContent(f, g) && g.updatedAt == now
    && f.aiJob.Some? && g.aiJob.Some?
    && var job, job' := f.aiJob.value, g.aiJob.value;
       && SameRequest(job, job') && job'.round == job.round && job'.qaHistory == job.qaHistory
       && job'.error == NoError && job'.updatedAt == now
       && job'.confidence == (if reply.confidence < 0 then 0 else if reply.confidence > 100 then 100 else reply.confidence)
       && if reply.confidence < 85 && reply.clarifying != []
          then g.status == NeedClarification && job'.pending == []
               && job'.clarifying == (if |reply.clarifying| > 4 then reply.clarifying[..4] else reply.clarifying)
          else g.status == Draft && job'.clarifying == [] && job'.pending == SanitizeAll(reply.suggestions)
  }

  ghost predicate TakesContent(f: Form, g: Form, content: Content, errMsg: string, now: int) {
    match content
    case NoContent => FailsWith(f, g, if errMsg == "" then GenerateFailed else Reported(errMsg), now)
    case BadJson => FailsWith(f, g, InvalidOutput, now)
    case Reply(_, _, _) => TakesReply(f, g, content, now)
  }

  /** A callback reaches only a form that is being processed. */
  ghost predicate Calls(s: Store, r: (Store, Outcome), id: string, content: Content, errMsg: string, now: int) {
    && r.1 == (if id in s.forms then Done else NotFound) && r.0.dispatches == s.dispatches
    && if Processing(s, id) then WritesRow(s, r.0, id) && TakesContent(s.forms[id], r.0.forms[id], content, errMsg, now)
       else r.0 == s
  }

  lemma ReplyOutcome(f: Form, reply: Content, errMsg: string, now: int)
    requires FormInv(f) && f.status.ProcessingAI? && reply.Reply?
    ensures TakesReply(f, Completed(f, reply, errMsg, now), reply, now)
  {
  }

  lemma CallbackOutcome(s: Store, id: string, content: Content, errMsg: string, now: int)
    requires Inv(s)
    ensures Calls(s, CompleteSuggest(s, id, content, errMsg, now), id, content, errMsg, now)
  {
    CompleteKeeps(s, id, content, errMsg, now);
    if Processing(s, id) && content.Reply? {
      ReplyOutcome(s.forms[id], content, errMsg, now);
    }
    assert id in s.forms ==> FormInv(s.forms[id]);
  }

  /** The open questions go into the history in order, each with its answer: the one at its place,
      trimmed, or the note that there is none. */
  ghost predicate Records(job: AIJob, job': AIJob, answers: seq<string>) {
    && job.qaHistory <= job'.qaHistory && |job'.qaHistory| == |job.qaHistory| + |job.clarifying|
    && forall i :: 0 <= i < |job.clarifying| ==>
         var qa := job'.qaHistory[|job.qaHistory| + i];
         && qa.question == job.clarifying[i]
         && qa.answer == (if i < |answers| && !Blank(answers[i]) then TrimSpace(answers[i]) else "(tidak dijawab)")
  }

  /** The answers are recorded and the form is processed again, in the next round. */
  ghost predicate Resumes(f: Form, g: Form, answers: seq<string>, now: int) {
    && SameContent(f, g) && g.status == ProcessingAI && g.updatedAt == now
    && f.aiJob.Some? && g.aiJob.Some?
    && var job, job' := f.aiJob.value, g.aiJob.value;
       && SameRequest(job, job') && job'.round == job.round + 1 && Records(job, job', answers)
       && job'.clarifying == [] && job'.pending == job.pending && job'.confidence == 0
       && job'.error == NoError && job'.updatedAt == now
  }

  /** A form that waits for answers takes them; its task is the next round's, from the third on
      forced to a result. */
  ghost predicate Submits(s: Store, r: (Store, Outcome), id: string, answers: seq<string>, now: int) {
    && r.1 == (if id !in s.forms then NotFound
               else if s.forms[id].status == NeedClarification && s.forms[id].aiJob.Some? && s.forms[id].aiJob.value.clarifying != []
               then Done else Refused)
    && (!r.1.Done? ==> r.0 == s)
    && (r.1.Done? ==>
          && WritesRow(s, r.0, id) && Resumes(s.forms[id], r.0.forms[id], answers, now)
          && var job := r.0.forms[id].aiJob.value;
             r.0.dispatches == s.dispatches + [Dispatch(id, job.round, job.round >= 3, TypeCounts.Restored(job.typeCounts))])
  }

  lemma SubmittedResumes(f: Form, answers: seq<string>, now: int)
    requires f.aiJob.Some?
    ensures Resumes(f, Submitted(f, answers, now), answers, now)
  {
  }

  lemma SubmitOutcome(s: Store, id: string, answers: seq<string>, now: int)
    requires Inv(s)
    ensures Submits(s, SubmitAnswers(s, id, answers, now), id, answers, now)
  {
    SubmitKeeps(s, id, answers, now);
    if id in s.forms && s.forms[id].aiJob.Some? {
      SubmittedResumes(s.forms[id], answers, now);
    }
  }

  /** The job goes; a form the AI was at work on is a draft again. */
  ghost predicate Clears(s: Store, r: (Store, Outcome), id: string, now: int) {
    && r.1 == (if id in s.forms then Done else NotFound) && r.0.dispatches == s.dispatches
    && (!r.1.Done? ==> r.0 == s)
    && (r.1.Done? ==>
          && WritesRow(s, r.0, id)
          && var f, g := s.forms[id], r.0.forms[id];
             && SameContent(f, g) && g.aiJob == None && g.updatedAt == now
             && g.status == (if f.status == ProcessingAI || f.status == NeedClarification then Draft else f.status))
  }

  lemma ClearOutcome(s: Store, id: string, now: int)
    requires Inv(s)
    ensures Clears(s, ClearJob(s, id, now), id, now)
  {
    ClearKeeps(s, id, now);
  }

  ghost predicate SweptAs(f: Form, g: Form, cutoff: int, fails: bool, now: int) {
    if f.status == ProcessingAI && f.updatedAt <= cutoff && !fails then FailsWith(f, g, TimedOut, now) else g == f
  }

  /** Exactly the forms in process that were not touched after the cutoff fail, unless their write does. */
  ghost predicate Sweeps(s: Store, r: (Store, Outcome), cutoff: int, failing: set<string>, now: int) {
    && r.1 == Done && r.0.dispatches == s.dispatches && r.0.forms.Keys == s.forms.Keys
    && forall id :: id in s.forms ==> SweptAs(s.forms[id], r.0.forms[id], cutoff, id in failing, now)
  }

  lemma SweptRow(f: Form, cutoff: int, fails: bool, now: int)
    requires FormInv(f)
    ensures SweptAs(f, ReapedRow(f, cutoff, fails, now), cutoff, fails, now)
  {
  }

  lemma SweepOutcome(s: Store, cutoff: int, failing: set<string>, now: int)
    requires Inv(s)
    ensures Sweeps(s, (Reap(s, cutoff, failing, now), Done), cutoff, failing, now)
  {
    forall id | id in s.forms
      ensures SweptAs(s.forms[id], Reap(s, cutoff, failing, now).forms[id], cutoff, id in failing, now)
    {
      SweptRow(s.forms[id], cutoff, id in failing, now);
    }
  }

  // ----- in a run -----

  ghost predicate DoesItsWork(s: Store, op: Op, r: (Store, Outcome)) {
    match op
    case Create(id, title, language, questions, desired, uuids, now) =>
      Creates(s, r, id, title, language, questions, desired, uuids, now)
    case Update(id, title, language, questions, desired, uuids, now) =>
      Edits(s, r, id, title, language, questions, desired, uuids, now)
    case Publish(id, now) => Publishes(s, r, id, now)
    case Delete(id) => Deletes(s, r, id)
    case Request(formId, newId, prompt, fields, hasFiles, language, uuids, now) =>
      Begins(s, r, formId, newId, prompt, fields, hasFiles, language, uuids, now)
    case TaskFailed(id, reason, now) => TurnsDown(s, r, id, reason, now)
    case Callback(id, _, content, errMsg, now) => Calls(s, r, id, content, errMsg, now)
    case Submit(id, answers, now) => Submits(s, r, id, answers, now)
    case Clear(id, now) => Clears(s, r, id, now)
    case Sweep(cutoff, failing, now) => Sweeps(s, r, cutoff, failing, now)
  }

  lemma EditDoesItsWork(s: Store, op: Op)
    requires Inv(s) && (op.Create? || op.Update? || op.Publish? || op.Delete?)
    ensures DoesItsWork(s, op, Apply(s, op))
  {
    match op {
      case Create(id, title, language, questions, desired, uuids, now) =>
        CreateOutcome(s, id, title, language, questions, desired, uuids, now);
      case Update(id, title, language, questions, desired, uuids, now) =>
        UpdateOutcome(s, id, title, language, questions, desired, uuids, now);
      case Publish(id, now) => PublishOutcome(s, id, now);
      case Delete(id) =>
    }
  }

  lemma JobDoesItsWork(s: Store, op: Op)
    requires Inv(s) && (op.TaskFailed? || op.Callback? || op.Submit? || op.Clear? || op.Sweep?)
    ensures DoesItsWork(s, op, Apply(s, op))
  {
    match op {
      case TaskFailed(id, reason, now) => FailOutcome(s, id, reason, now);
      case Callback(id, _, content, errMsg, now) => CallbackOutcome(s, id, content, errMsg, now);
      case Submit(id, answers, now) => SubmitOutcome(s, id, answers, now);
      case Clear(id, now) => ClearOutcome(s, id, now);
      case Sweep(cutoff, failing, now) => SweepOutcome(s, cutoff, failing, now);
    }
  }

  /** In every run each operation has exactly its outcome and writes exactly its row. */
  lemma {:induction false} EveryStepDoesItsWork(ops: seq<Op>, op: Op)
    ensures DoesItsWork(Run(ops), op, Apply(Run(ops), op))
  {
    var s := Run(ops);
    ReachableInvariant(ops);
    if op.Request? {
      StartOutcome(s, op.formId, op.newId, op.prompt, op.fields, op.hasFiles, op.language, op.uuids, op.now);
    } else if op.Create? || op.Update? || op.Publish? || op.Delete? {
      EditDoesItsWork(s, op);
    } else {
      JobDoesItsWork(s, op);
    }
  }
}
