/** The feedback-form service over its table: each method fetches a form, assigns its fields
    and saves it, and is proved against the operation of the same name in `FormStore`. */
module FormService {
  import opened Text
  import opened FeedbackDomain
  import opened Questions
  import opened TypeCounts
  import opened FormStore
  import FormRuns
  import Slugs

  class FeedbackForms {
    var forms: map<string, Form>
    var dispatches: seq<Dispatch>

    constructor ()
      ensures State() == Store(map[], []) && Valid()
    {
      forms, dispatches := map[], [];
    }

    ghost function State(): Store
      reads this
    {
      Store(forms, dispatches)
    }

    /** What every sequence of operations keeps. */
    ghost predicate Valid()
      reads this
    {
      FormRuns.Inv(State())
    }

    method InsertRow(id: string, f: Form) returns (outcome: Outcome)
      modifies this`forms
      ensures (State(), outcome) == Insert(old(State()), id, f)
    {
      if id in forms || !SlugFreeFor(forms, id, f.slug) {
        return Conflict;
      }
      forms := forms[id := f];
      return Done;
    }

    method SaveRow(id: string, f: Form) returns (outcome: Outcome)
      modifies this`forms
      ensures (State(), outcome) == Save(old(State()), id, f)
    {
      if !SlugFreeFor(forms, id, f.slug) {
        return Conflict;
      }
      forms := forms[id := f];
      return Done;
    }

    method FreeSlug(desired: string, title: string, current: string, uuid: nat) returns (slug: string)
      ensures slug == Slugs.AllocatedSlug(SlugsOf(forms), desired, title, current, uuid)
    {
      var taken := SlugsOf(forms);
      var found, _ := Slugs.UniqueSlug(taken, desired, title, current, uuid, |taken| + 1);
      slug := found.value;
    }

    method Create(id: string, title: string, language: Language, questions: seq<Question>,
                  desired: string, uuids: Uuids, now: int) returns (outcome: Outcome)
      requires Valid()
      modifies this`forms
      ensures (State(), outcome) == CreateForm(old(State()), id, title, language, questions, desired, uuids, now)
      ensures Valid() && (outcome.Conflict? ==> id in old(forms))
    {
      FormRuns.CreateKeeps(State(), id, title, language, questions, desired, uuids, now);
      var qs := NormalizeQuestions(questions, uuids.QuestionId);
      if qs.Err? {
        return Refused;
      }
      var slug := FreeSlug(desired, title, "", uuids.slug);
      var f := Form(title, slug, Draft, language, qs.value, None, now);
      if !f.language.Valid() {
        f := f.(language := Indonesian);
      }
      outcome := InsertRow(id, f);
    }

    method Update(id: string, title: string, language: Option<Language>, questions: seq<Question>,
                  desired: string, uuids: Uuids, now: int) returns (outcome: Outcome)
      requires Valid()
      modifies this`forms
      ensures (State(), outcome) == UpdateForm(old(State()), id, title, language, questions, desired, uuids, now)
      ensures Valid() && !outcome.Conflict?
    {
      FormRuns.UpdateKeeps(State(), id, title, language, questions, desired, uuids, now);
      if id !in forms {
        return NotFound;
      }
      var f := forms[id].(title := title, questions := questions, updatedAt := now);
      if language.Some? {
        f := f.(language := language.value);
      }
      var qs := NormalizeQuestions(f.questions, uuids.QuestionId);
      if qs.Err? {
        return Refused;
      }
      f := f.(questions := qs.value);
      if !f.language.Valid() {
        f := f.(language := Indonesian);
      }
      if f.status != ProcessingAI && f.status != NeedClarification {
        f := f.(status := Draft);
      }
      if TrimSpace(desired) != "" {
        var slug := FreeSlug(desired, f.title, f.slug, uuids.slug);
        f := f.(slug := slug);
      }
      outcome := SaveRow(id, f);
    }

    method Publish(id: string, now: int) returns (outcome: Outcome)
      requires Valid()
      modifies this`forms
      ensures (State(), outcome) == PublishForm(old(State()), id, now)
      ensures Valid() && !outcome.Conflict?
    {
      FormRuns.PublishKeeps(State(), id, now);
      if id !in forms {
        return NotFound;
      }
      if |forms[id].questions| == 0 {
        return Refused;
      }
      outcome := SaveRow(id, forms[id].(status := Published, updatedAt := now));
    }

    method Delete(id: string) returns (outcome: Outcome)
      requires Valid()
      modifies this`forms
      ensures (State(), outcome) == DeleteForm(old(State()), id)
      ensures Valid() && !outcome.Conflict?
    {
      FormRuns.DeleteKeeps(State(), id);
      forms := forms - {id};
      outcome := Done;
    }

    /** The handler: parse the type counts, then start. */
    method AISuggest(formId: Option<string>, newId: string, prompt: string, fields: map<QuestionType, JsonValue>,
                     hasFiles: bool, lang: Language, uuids: Uuids, now: int) returns (outcome: Outcome)
      requires Valid()
      modifies this
      ensures (State(), outcome) == RequestSuggest(old(State()), formId, newId, prompt, fields, hasFiles, lang, uuids, now)
      ensures Valid() && (outcome.Conflict? ==> formId.None? && newId in old(forms))
    {
      ghost var _ := FormRuns.RequestEffect(State(), formId, newId, prompt, fields, hasFiles, lang, uuids, now);
      var spec := ParseSuggestTypeCounts(fields);
      if spec.None? {
        return Refused;
      }
      outcome := StartAISuggest(formId, newId, prompt, spec.value, hasFiles, lang, uuids, now);
    }

    method StartAISuggest(formId: Option<string>, newId: string, prompt: string, spec: Spec,
                          hasFiles: bool, lang: Language, uuids: Uuids, now: int) returns (outcome: Outcome)
      requires Valid()
      modifies this
      ensures (State(), outcome) == StartSuggest(old(State()), formId, newId, prompt, spec, hasFiles, lang, uuids, now)
      ensures Valid() && (outcome.Conflict? ==> formId.None? && newId in old(forms))
    {
      ghost var _ := FormRuns.StartEffect(State(), formId, newId, prompt, spec, hasFiles, lang, uuids, now);
      var language := lang;
      if !language.Valid() {
        language := Indonesian;
      }
      var isNew := formId.None?;
      var id, f;
      if !isNew {
        id := formId.value;
        if id !in forms {
          return NotFound;
        }
        if forms[id].status == ProcessingAI {
          return Refused;
        }
        f := forms[id];
      } else {
        id := newId;
        f := Form(Headline(prompt, DEFAULT_TITLE), "", Draft, language, [], None, now);
      }
      var vague := TooVague(prompt, hasFiles);
      f := SetJob(f, prompt, spec, vague, language, now);
      outcome := Persist(isNew, id, f, uuids.slug);
      if outcome == Done && !vague {
        dispatches := dispatches + [Dispatch(id, 0, false, spec)];
      }
    }

    /** The job is assigned: with the standard questions for a vague prompt, else for dispatch. */
    method SetJob(f0: Form, prompt: string, spec: Spec, vague: bool, language: Language, now: int) returns (f: Form)
      ensures f == Begun(f0, prompt, spec, vague, language, now)
    {
      var stored := TypeCountsToStrings(spec);
      var job := AIJob(prompt, language, 0, [], stored, 0, [], [], NoError, now);
      f := f0.(updatedAt := now);
      if vague {
        job := job.(confidence := VAGUE_CONFIDENCE, clarifying := DefaultQuestions(language));
        f := f.(aiJob := Some(job), status := NeedClarification);
      } else {
        f := f.(aiJob := Some(job), status := ProcessingAI);
      }
    }

    method Persist(isNew: bool, id: string, f: Form, uuid: nat) returns (outcome: Outcome)
      modifies this`forms
      ensures (State(), outcome) == PersistJobForm(old(State()), isNew, id, f, uuid)
    {
      if isNew {
        var slug := FreeSlug("", f.title, "", uuid);
        outcome := InsertRow(id, f.(slug := slug));
      } else {
        outcome := SaveRow(id, f);
      }
    }

    method MarkAISuggestFailed(id: string, reason: JobError, now: int) returns (outcome: Outcome)
      requires Valid()
      modifies this`forms
      ensures (State(), outcome) == FailDispatch(old(State()), id, reason, now)
      ensures Valid() && !outcome.Conflict?
    {
      FormRuns.FailKeeps(State(), id, reason, now);
      if id !in forms || forms[id].status != ProcessingAI {
        return Done;
      }
      var f := forms[id].(status := Draft, updatedAt := now);
      if f.aiJob == None {
        f := f.(aiJob := Some(EMPTY_JOB));
      }
      var job := f.aiJob.value.(error := reason, clarifying := [], pending := [], updatedAt := now);
      outcome := SaveRow(id, f.(aiJob := Some(job)));
    }

    method CompleteAISuggest(id: string, content: Content, errMsg: string, now: int) returns (outcome: Outcome)
      requires Valid()
      modifies this`forms
      ensures (State(), outcome) == CompleteSuggest(old(State()), id, content, errMsg, now)
      ensures id in old(forms) && !old(forms[id]).status.ProcessingAI? ==> forms == old(forms)
      ensures Valid() && !outcome.Conflict?
    {
      FormRuns.CompleteKeeps(State(), id, content, errMsg, now);
      if id !in forms {
        return NotFound;
      }
      if forms[id].status != ProcessingAI {
        return Done;
      }
      var f := forms[id].(updatedAt := now);
      if f.aiJob == None {
        f := f.(aiJob := Some(EMPTY_JOB));
      }
      var job := f.aiJob.value.(updatedAt := now);
      if content.NoContent? || content.BadJson? {
        var reason := if content.BadJson? then InvalidOutput else if errMsg == "" then GenerateFailed else Reported(errMsg);
        job := job.(error := reason, clarifying := [], pending := []);
        outcome := SaveRow(id, f.(status := Draft, aiJob := Some(job)));
        return;
      }
      var v := Evaluate(content);
      job := job.(confidence := v.confidence, error := NoError);
      if |v.clarify| > 0 {
        job := job.(clarifying := v.clarify, pending := []);
        f := f.(status := NeedClarification);
      } else {
        job := job.(clarifying := [], pending := v.questions);
        f := f.(status := Draft);
      }
      outcome := SaveRow(id, f.(aiJob := Some(job)));
    }

    method SubmitClarifyAnswers(id: string, answers: seq<string>, now: int) returns (outcome: Outcome)
      requires Valid()
      modifies this
      ensures (State(), outcome) == SubmitAnswers(old(State()), id, answers, now)
      ensures Valid() && !outcome.Conflict?
    {
      FormRuns.SubmitKeeps(State(), id, answers, now);
      if id !in forms {
        return NotFound;
      }
      var f := forms[id];
      if f.aiJob == None || |f.aiJob.value.clarifying| == 0 || f.status != NeedClarification {
        return Refused;
      }
      var job := f.aiJob.value;
      var history := Recorded(job, answers);
      var nextRound := job.round + 1;
      var forceFinal := nextRound >= MAX_CLARIFY_ROUNDS;
      job := job.(qaHistory := history, round := nextRound, clarifying := [], confidence := 0, error := NoError, updatedAt := now);
      f := f.(aiJob := Some(job), status := ProcessingAI, updatedAt := now);
      assert f == Submitted(forms[id], answers, now);
      outcome := SaveRow(id, f);
      if outcome == Done {
        var spec := TypeCountsFromStrings(job.typeCounts);
        dispatches := dispatches + [Dispatch(id, nextRound, forceFinal, spec)];
      }
    }

    /** Each open question goes into the history with its answer. */
    method Recorded(job: AIJob, answers: seq<string>) returns (history: seq<ClarifyQA>)
      ensures history == job.qaHistory + Paired(job.clarifying, answers)
    {
      history := job.qaHistory;
      for i := 0 to |job.clarifying|
        invariant history == job.qaHistory + Paired(job.clarifying, answers)[..i]
      {
        var a := UNANSWERED;
        if i < |answers| {
          var t := TrimSpace(answers[i]);
          if t != "" {
            a := t;
          }
        }
        history := history + [ClarifyQA(job.clarifying[i], a)];
      }
      assert Paired(job.clarifying, answers)[..|job.clarifying|] == Paired(job.clarifying, answers);
    }

    method ClearAIJob(id: string, now: int) returns (outcome: Outcome)
      requires Valid()
      modifies this`forms
      ensures (State(), outcome) == ClearJob(old(State()), id, now)
      ensures Valid() && !outcome.Conflict?
    {
      FormRuns.ClearKeeps(State(), id, now);
      if id !in forms {
        return NotFound;
      }
      var f := forms[id].(aiJob := None, updatedAt := now);
      if f.status == ProcessingAI || f.status == NeedClarification {
        f := f.(status := Draft);
      }
      outcome := SaveRow(id, f);
    }

    method ReapStaleAISuggest(cutoff: int, failing: set<string>, now: int)
      requires Valid()
      modifies this`forms
      ensures State() == Reap(old(State()), cutoff, failing, now)
      ensures Valid()
    {
      FormRuns.SweepKeeps(State(), cutoff, failing, now);
      ReapRows(cutoff, failing, now);
    }

    /** The sweep writes row by row; a failed write leaves its row and goes on. */
    method ReapRows(cutoff: int, failing: set<string>, now: int)
      modifies this`forms
      ensures forms == ReapedForms(old(forms), cutoff, failing, now)
    {
      var listed := forms;
      var todo := listed.Keys;
      while todo != {}
        invariant todo <= listed.Keys == forms.Keys
        invariant forall id :: id in listed ==>
                    forms[id] == if id in todo then listed[id] else ReapedRow(listed[id], cutoff, id in failing, now)
        decreases |todo|
      {
        var id :| id in todo;
        todo := todo - {id};
        var f := SweepOne(listed[id], cutoff, id in failing, now);
        forms := forms[id := f];
      }
    }

    /** The row after the sweep has been at it. */
    method SweepOne(f0: Form, cutoff: int, fails: bool, now: int) returns (f: Form)
      ensures f == ReapedRow(f0, cutoff, fails, now)
    {
      f := f0;
      if f.status != ProcessingAI || f.updatedAt > cutoff {
        return;
      }
      if f.aiJob == None {
        f := f.(aiJob := Some(EMPTY_JOB));
      }
      var job := f.aiJob.value.(error := TimedOut, clarifying := [], pending := [], updatedAt := now);
      f := f.(status := Draft, aiJob := Some(job), updatedAt := now);
      if fails {
        return f0;
      }
    }
  }
}
