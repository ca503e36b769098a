/** What holds in every run of the feedback-form service: any operations, in any order, with
    callbacks that come late, twice or never. */
module FormRuns {
  import opened Collections
  import opened Text
  import opened FeedbackDomain
  import opened Questions
  import opened TypeCounts
  import opened FormStore
  import Slugs
  import Analytics

  datatype Op =
    | Create(id: string, title: string, language: Language, questions: seq<Question>, desired: string, uuids: Uuids, now: int)
    | Update(id: string, title: string, newLanguage: Option<Language>, questions: seq<Question>, desired: string, uuids: Uuids, now: int)
    | Publish(id: string, now: int)
    | Delete(id: string)
    | Request(formId: Option<string>, newId: string, prompt: string, fields: map<QuestionType, JsonValue>,
              hasFiles: bool, language: Language, uuids: Uuids, now: int)
    | TaskFailed(id: string, reason: JobError, now: int)
      // `replyTo` is the number of the dispatch the agent answers; the service does not look at it.
    | Callback(id: string, replyTo: nat, content: Content, errMsg: string, now: int)
    | Submit(id: string, answers: seq<string>, now: int)
    | Clear(id: string, now: int)
    | Sweep(cutoff: int, failing: set<string>, now: int)

  ghost function Apply(s: Store, op: Op): (Store, Outcome) {
    match op
    case Create(id, title, language, questions, desired, uuids, now) => CreateForm(s, id, title, language, questions, desired, uuids, now)
    case Update(id, title, language, questions, desired, uuids, now) => UpdateForm(s, id, title, language, questions, desired, uuids, now)
    case Publish(id, now) => PublishForm(s, id, now)
    case Delete(id) => DeleteForm(s, id)
    case Request(formId, newId, prompt, fields, hasFiles, language, uuids, now) =>
      RequestSuggest(s, formId, newId, prompt, fields, hasFiles, language, uuids, now)
    case TaskFailed(id, reason, now) => FailDispatch(s, id, reason, now)
    case Callback(id, _, content, errMsg, now) => CompleteSuggest(s, id, content, errMsg, now)
    case Submit(id, answers, now) => SubmitAnswers(s, id, answers, now)
    case Clear(id, now) => ClearJob(s, id, now)
    case Sweep(cutoff, failing, now) => (Reap(s, cutoff, failing, now), Done)
  }

  ghost function Run(ops: seq<Op>): Store {
    if ops == [] then Store(map[], []) else Apply(Run(ops[..|ops| - 1]), ops[|ops| - 1]).0
  }

  // ----- the invariant -----

  ghost predicate Processing(s: Store, id: string) {
    id in s.forms && s.forms[id].status.ProcessingAI?
  }

  ghost predicate JobInv(job: AIJob) {
    job.round <= |job.qaHistory| <= MAX_CLARIFYING * job.round && 0 <= job.confidence <= 100
  }

  ghost predicate StatusInv(f: Form) {
    && !f.status.Closed?
    && (f.status.ProcessingAI? ==> f.aiJob.Some? && f.aiJob.value.clarifying == [] && f.aiJob.value.pending == [])
    && (f.status.NeedClarification? ==>
          f.aiJob.Some? && 1 <= |f.aiJob.value.clarifying| <= MAX_CLARIFYING && f.aiJob.value.pending == [])
  }

  ghost predicate FormInv(f: Form) {
    && f.slug != "" && Slugs.Slugify(f.slug) == f.slug
    && f.language.Valid()
    && (forall q :: q in f.questions ==> Canonical(q))
    && (f.aiJob.Some? ==> JobInv(f.aiJob.value))
    && StatusInv(f)
  }

  ghost predicate SlugsDistinct(forms: map<string, Form>) {
    forall id :: id in forms ==> SlugFreeFor(forms, id, forms[id].slug)
  }

  ghost predicate Inv(s: Store) {
    SlugsDistinct(s.forms) && forall id :: id in s.forms ==> FormInv(s.forms[id])
  }

  /** Saving a good form whose slug is its own or free keeps the invariant. */
  lemma SaveKeeps(s: Store, id: string, f: Form)
    requires Inv(s) && FormInv(f)
    requires f.slug in SlugsOf(s.forms) ==> id in s.forms && f.slug == s.forms[id].slug
    ensures SlugFreeFor(s.forms, id, f.slug)
    ensures Inv(s.(forms := s.forms[id := f]))
  {
    forall other | other in s.forms && other != id ensures s.forms[other].slug != f.slug {
      assert s.forms[other].slug in SlugsOf(s.forms);
      assert id in s.forms ==> SlugFreeFor(s.forms, id, s.forms[id].slug);
    }
  }

  lemma CreateKeeps(s: Store, id: string, title: string, language: Language, questions: seq<Question>,
                    desired: string, uuids: Uuids, now: int)
    requires Inv(s)
    ensures var (s', outcome) := CreateForm(s, id, title, language, questions, desired, uuids, now);
            && Inv(s') && (outcome.Conflict? ==> id in s.forms) && s'.dispatches == s.dispatches
            && (outcome.Done? ==> id in s'.forms)
            && s'.forms == (if outcome.Done? then s.forms[id := s'.forms[id]] else s.forms)
            && (outcome.Done? ==> id !in s.forms && s'.forms[id].status.Draft? && s'.forms[id].aiJob.None?)
  {
    NormalizeAllIdempotent(questions, uuids.QuestionId, uuids.QuestionId);
    Slugs.AllocatedSlugIsGood(SlugsOf(s.forms), desired, title, "", uuids.slug);
    var qs := NormalizeAll(questions, uuids.QuestionId);
    if qs.Ok? && id !in s.forms {
      var slug := Slugs.AllocatedSlug(SlugsOf(s.forms), desired, title, "", uuids.slug);
      SaveKeeps(s, id, Form(title, slug, Draft, KnownLanguage(language), qs.value, None, now));
    }
  }

  /** The outcome of an edit: refused with nothing changed, or one row written that keeps its job
      and, while the AI is at work, its status. */
  ghost predicate Updated(s: Store, r: (Store, Outcome), id: string) {
    && Inv(r.0) && !r.1.Conflict? && r.0.dispatches == s.dispatches
    && (!r.1.Done? ==> r.0 == s)
    && (r.1.Done? ==>
          && id in s.forms && id in r.0.forms && r.0.forms == s.forms[id := r.0.forms[id]]
          && r.0.forms[id].aiJob == s.forms[id].aiJob
          && r.0.forms[id].status == StatusAfterEdit(s.forms[id].status))
  }

  lemma UpdateKeeps(s: Store, id: string, title: string, newLanguage: Option<Language>, questions: seq<Question>,
                    desired: string, uuids: Uuids, now: int)
    requires Inv(s)
    ensures Updated(s, UpdateForm(s, id, title, newLanguage, questions, desired, uuids, now), id)
  {
    NormalizeAllIdempotent(questions, uuids.QuestionId, uuids.QuestionId);
    var qs := NormalizeAll(questions, uuids.QuestionId);
    if qs.Ok? && id in s.forms {
      SlugAfterEditIsGood(s, id, title, desired, uuids.slug);
      EditedKeeps(s, id, title, SlugAfterEdit(s, s.forms[id], title, desired, uuids.slug), newLanguage, qs.value, now);
    }
  }

  lemma SlugAfterEditIsGood(s: Store, id: string, title: string, desired: string, uuid: nat)
    requires Inv(s) && id in s.forms
    ensures var slug := SlugAfterEdit(s, s.forms[id], title, desired, uuid);
            slug != "" && Slugs.Slugify(slug) == slug && (slug in SlugsOf(s.forms) ==> slug == s.forms[id].slug)
  {
    assert FormInv(s.forms[id]);
    Slugs.AllocatedSlugIsGood(SlugsOf(s.forms), desired, title, s.forms[id].slug, uuid);
  }

  lemma EditedKeeps(s: Store, id: string, title: string, slug: string, language: Option<Language>,
                    questions: seq<Question>, now: int)
    requires Inv(s) && id in s.forms
    requires slug != "" && Slugs.Slugify(slug) == slug && (slug in SlugsOf(s.forms) ==> slug == s.forms[id].slug)
    requires forall q :: q in questions ==> Canonical(q)
    ensures Updated(s, Save(s, id, Edited(s.forms[id], title, slug, language, questions, now)), id)
  {
    assert FormInv(s.forms[id]);
    SaveKeeps(s, id, Edited(s.forms[id], title, slug, language, questions, now));
  }

  /** Beginning a job on a good form: one row is written, and one task goes out exactly when
      the form starts being processed. */
  lemma BeginKeeps(s: Store, isNew: bool, id: string, f: Form, prompt: string, spec: Spec, vague: bool,
                   language: Language, now: int)
    requires Inv(s) && FormInv(f)
    requires if isNew then f.slug !in SlugsOf(s.forms) else id in s.forms && f == s.forms[id]
    ensures var (s', outcome) := BeginOn(s, isNew, id, f, prompt, spec, vague, language, now);
            && Inv(s')
            && (outcome.Conflict? <==> isNew && id in s.forms)
            && (outcome.Conflict? ==> s' == s)
            && (!outcome.Conflict? ==>
                  && s'.forms == s.forms[id := Begun(f, prompt, spec, vague, language, now)]
                  && s'.dispatches == s.dispatches + (if vague then [] else [Dispatch(id, 0, false, spec)]))
  {
    if !(isNew && id in s.forms) {
      SaveKeeps(s, id, Begun(f, prompt, spec, vague, language, now));
    }
  }

  lemma PromptedIsGood(s: Store, prompt: string, language: Language, uuid: nat, now: int)
    requires language.Valid()
    ensures FormInv(PromptedForm(s, prompt, language, uuid, now))
    ensures PromptedForm(s, prompt, language, uuid, now).slug !in SlugsOf(s.forms)
  {
    Slugs.AllocatedSlugIsGood(SlugsOf(s.forms), "", Headline(prompt, DEFAULT_TITLE), "", uuid);
  }

  /** A request that is not turned away begins a job on one form that was not being processed. */
  ghost predicate Requested(s: Store, r: (Store, Outcome), id: string, isNew: bool, f: Form, prompt: string, spec: Spec,
                            vague: bool, language: Language, now: int) {
    && Inv(r.0)
    && (r.1.Conflict? ==> isNew && id in s.forms)
    && (!r.1.Done? ==> r.0 == s)
    && (r.1.Done? ==>
          && !Processing(s, id)
          && r.0.forms == s.forms[id := Begun(f, prompt, spec, vague, language, now)]
          && r.0.dispatches == s.dispatches + (if vague then [] else [Dispatch(id, 0, false, spec)]))
  }

  lemma StartEffect(s: Store, formId: Option<string>, newId: string, prompt: string, spec: Spec,
                    hasFiles: bool, language: Language, uuids: Uuids, now: int) returns (f: Form)
    requires Inv(s)
    ensures Requested(s, StartSuggest(s, formId, newId, prompt, spec, hasFiles, language, uuids, now),
                      if formId.Some? then formId.value else newId, formId.None?, f, prompt, spec,
                      TooVague(prompt, hasFiles), KnownLanguage(language), now)
  {
    var l, vague := KnownLanguage(language), TooVague(prompt, hasFiles);
    f := PromptedForm(s, prompt, l, uuids.slug, now);
    match formId {
      case None =>
        PromptedIsGood(s, prompt, l, uuids.slug, now);
        BeginKeeps(s, true, newId, f, prompt, spec, vague, l, now);
      case Some(id) =>
        if id in s.forms {
          f := s.forms[id];
          BeginKeeps(s, false, id, f, prompt, spec, vague, l, now);
        }
    }
  }

  lemma RequestEffect(s: Store, formId: Option<string>, newId: string, prompt: string, fields: map<QuestionType, JsonValue>,
                      hasFiles: bool, language: Language, uuids: Uuids, now: int) returns (f: Form)
    requires Inv(s)
    ensures Requested(s, RequestSuggest(s, formId, newId, prompt, fields, hasFiles, language, uuids, now),
                      if formId.Some? then formId.value else newId, formId.None?, f, prompt, Readable(fields),
                      TooVague(prompt, hasFiles), KnownLanguage(language), now)
  {
    f := StartEffect(s, formId, newId, prompt, Readable(fields), hasFiles, language, uuids, now);
  }

  lemma CompletedIsGood(f: Form, content: Content, errMsg: string, now: int)
    requires FormInv(f) && f.status.ProcessingAI?
    ensures FormInv(Completed(f, content, errMsg, now))
    ensures !Completed(f, content, errMsg, now).status.ProcessingAI?
  {
  }

  lemma SubmittedIsGood(f: Form, answers: seq<string>, now: int)
    requires FormInv(f) && AwaitsAnswers(f)
    ensures FormInv(Submitted(f, answers, now))
  {
  }

  lemma PublishKeeps(s: Store, id: string, now: int)
    requires Inv(s)
    ensures Inv(PublishForm(s, id, now).0) && !PublishForm(s, id, now).1.Conflict?
  {
    if id in s.forms {
      SaveKeeps(s, id, s.forms[id].(status := Published, updatedAt := now));
    }
  }

  lemma FailKeeps(s: Store, id: string, reason: JobError, now: int)
    requires Inv(s)
    ensures Inv(FailDispatch(s, id, reason, now).0) && !FailDispatch(s, id, reason, now).1.Conflict?
  {
    if id in s.forms {
      SaveKeeps(s, id, Failed(s.forms[id], reason, now));
    }
  }

  lemma CompleteKeeps(s: Store, id: string, content: Content, errMsg: string, now: int)
    requires Inv(s)
    ensures Inv(CompleteSuggest(s, id, content, errMsg, now).0) && !CompleteSuggest(s, id, content, errMsg, now).1.Conflict?
    ensures Processing(s, id) ==>
              CompleteSuggest(s, id, content, errMsg, now).0.forms == s.forms[id := Completed(s.forms[id], content, errMsg, now)]
  {
    if Processing(s, id) {
      CompletedIsGood(s.forms[id], content, errMsg, now);
      SaveKeeps(s, id, Completed(s.forms[id], content, errMsg, now));
    }
  }

  lemma SubmitKeeps(s: Store, id: string, answers: seq<string>, now: int)
    requires Inv(s)
    ensures Inv(SubmitAnswers(s, id, answers, now).0) && !SubmitAnswers(s, id, answers, now).1.Conflict?
    ensures id in s.forms && AwaitsAnswers(s.forms[id]) ==> SubmitAnswers(s, id, answers, now).1.Done?
  {
    if id in s.forms && AwaitsAnswers(s.forms[id]) {
      SubmittedIsGood(s.forms[id], answers, now);
      SaveKeeps(s, id, Submitted(s.forms[id], answers, now));
    }
  }

  lemma ClearKeeps(s: Store, id: string, now: int)
    requires Inv(s)
    ensures Inv(ClearJob(s, id, now).0) && !ClearJob(s, id, now).1.Conflict?
  {
    if id in s.forms {
      SaveKeeps(s, id, Cleared(s.forms[id], now));
    }
  }

  lemma SweepKeeps(s: Store, cutoff: int, failing: set<string>, now: int)
    requires Inv(s)
    ensures Inv(Reap(s, cutoff, failing, now))
  {
    var s' := Reap(s, cutoff, failing, now);
    forall id | id in s'.forms ensures FormInv(s'.forms[id]) && s'.forms[id].slug == s.forms[id].slug {
      assert FormInv(s.forms[id]);
    }
    forall id | id in s'.forms ensures SlugFreeFor(s'.forms, id, s'.forms[id].slug) {
      assert SlugFreeFor(s.forms, id, s.forms[id].slug);
    }
  }

  lemma DeleteKeeps(s: Store, id: string)
    requires Inv(s)
    ensures Inv(DeleteForm(s, id).0)
  {
    var forms' := s.forms - {id};
    forall other | other in forms' ensures SlugFreeFor(forms', other, forms'[other].slug) {
      assert SlugFreeFor(s.forms, other, s.forms[other].slug);
    }
  }

  /** Only a primary key that is already there can conflict. */
  ghost predicate KeyTaken(s: Store, op: Op) {
    (op.Create? && op.id in s.forms) || (op.Request? && op.formId.None? && op.newId in s.forms)
  }

  lemma EditKeepsInvariant(s: Store, op: Op)
    requires Inv(s) && (op.Create? || op.Update? || op.Publish? || op.Delete?)
    ensures Inv(Apply(s, op).0) && (Apply(s, op).1.Conflict? ==> KeyTaken(s, op))
  {
    match op {
      case Create(id, title, language, questions, desired, uuids, now) =>
        CreateKeeps(s, id, title, language, questions, desired, uuids, now);
      case Update(id, title, language, questions, desired, uuids, now) =>
        UpdateKeeps(s, id, title, language, questions, desired, uuids, now);
      case Publish(id, now) => PublishKeeps(s, id, now);
      case Delete(id) => DeleteKeeps(s, id);
    }
  }

  lemma RequestKeepsInvariant(s: Store, op: Op)
    requires Inv(s) && op.Request?
    ensures Inv(Apply(s, op).0) && (Apply(s, op).1.Conflict? ==> KeyTaken(s, op))
  {
    var _ := RequestEffect(s, op.formId, op.newId, op.prompt, op.fields, op.hasFiles, op.language, op.uuids, op.now);
  }

  lemma EndingKeepsInvariant(s: Store, op: Op)
    requires Inv(s) && (op.TaskFailed? || op.Clear? || op.Sweep?)
    ensures Inv(Apply(s, op).0) && !Apply(s, op).1.Conflict?
  {
    match op {
      case TaskFailed(id, reason, now) => FailKeeps(s, id, reason, now);
      case Clear(id, now) => ClearKeeps(s, id, now);
      case Sweep(cutoff, failing, now) => SweepKeeps(s, cutoff, failing, now);
    }
  }

  lemma RoundKeepsInvariant(s: Store, op: Op)
    requires Inv(s) && (op.Callback? || op.Submit?)
    ensures Inv(Apply(s, op).0) && !Apply(s, op).1.Conflict?
  {
    if op.Callback? {
      ApplyCallback(s, op);
      CompleteKeeps(s, op.id, op.content, op.errMsg, op.now);
    } else {
      ApplySubmit(s, op);
      SubmitKeeps(s, op.id, op.answers, op.now);
    }
  }

  /** Every operation keeps the invariant, and the unique index on slugs never rejects a row:
      a conflict can only be a primary key that is already there. */
  lemma StepKeepsInvariant(s: Store, op: Op)
    requires Inv(s)
    ensures Inv(Apply(s, op).0)
    ensures Apply(s, op).1.Conflict? ==> KeyTaken(s, op)
  {
    if op.Request? {
      RequestKeepsInvariant(s, op);
    } else if op.Create? || op.Update? || op.Publish? || op.Delete? {
      EditKeepsInvariant(s, op);
    } else if op.Callback? || op.Submit? {
      RoundKeepsInvariant(s, op);
    } else {
      EndingKeepsInvariant(s, op);
    }
  }

  /** In every reachable state no two forms share a slug, every slug is a non-empty fixed point
      of `slugify`, every question is canonical, processing_ai comes with a job that waits for
      nothing, and need_clarification with one to four open questions. */
  lemma {:induction false} ReachableInvariant(ops: seq<Op>)
    ensures Inv(Run(ops))
  {
    if ops != [] {
      ReachableInvariant(ops[..|ops| - 1]);
      StepKeepsInvariant(Run(ops[..|ops| - 1]), ops[|ops| - 1]);
    }
  }

  /** So the analytics never meet a scale that would panic, whichever stored forms they read. */
  lemma {:induction false} ReachableFormsAreMakeable(ops: seq<Op>, ids: seq<string>)
    requires forall i :: 0 <= i < |ids| ==> ids[i] in Run(ops).forms
    ensures var forms := seq(|ids|, i requires 0 <= i < |ids| => Run(ops).forms[ids[i]].questions);
            Analytics.Makeable(Analytics.FirstDefs(Analytics.Flat(forms)))
  {
    ReachableInvariant(ops);
    var forms := seq(|ids|, i requires 0 <= i < |ids| => Run(ops).forms[ids[i]].questions);
    FlatCanonical(forms);
    var qs := Analytics.Flat(forms);
    var at := Analytics.FirstDefsAreFirst(qs);
    forall d | d in Analytics.FirstDefs(qs) ensures Canonical(d) {
      var k :| 0 <= k < |Analytics.FirstDefs(qs)| && Analytics.FirstDefs(qs)[k] == d;
      assert d == qs[at[k]];
    }
  }

  lemma {:induction false} FlatCanonical(forms: seq<seq<Question>>)
    requires forall i :: 0 <= i < |forms| ==> forall q :: q in forms[i] ==> Canonical(q)
    ensures forall q :: q in Analytics.Flat(forms) ==> Canonical(q)
  {
    if forms != [] {
      FlatCanonical(forms[..|forms| - 1]);
    }
  }

  // ----- one form in one step -----

  ghost function At(s: Store, id: string): Option<Form> {
    if id in s.forms then Some(s.forms[id]) else None
  }

  ghost predicate InProcess(f: Option<Form>) {
    f.Some? && f.value.status.ProcessingAI?
  }

  ghost function JobAt(f: Option<Form>): Option<AIJob> {
    if f.Some? then f.value.aiJob else None
  }

  function TasksFor(tasks: seq<Dispatch>, id: string): nat {
    if tasks == [] then 0
    else
      var n := |tasks| - 1;
      TasksFor(tasks[..n], id) + (if tasks[n].formId == id then 1 else 0)
  }

  /** The latest task sent out for `id`. */
  function LatestTask(tasks: seq<Dispatch>, id: string): Option<nat> {
    if tasks == [] then None
    else if tasks[|tasks| - 1].formId == id then Some(|tasks| - 1)
    else LatestTask(tasks[..|tasks| - 1], id)
  }

  lemma TasksSnoc(tasks: seq<Dispatch>, d: Dispatch, id: string)
    ensures TasksFor(tasks + [d], id) == TasksFor(tasks, id) + (if d.formId == id then 1 else 0)
    ensures LatestTask(tasks + [d], id) == if d.formId == id then Some(|tasks|) else LatestTask(tasks, id)
  {
    assert (tasks + [d])[..|tasks|] == tasks;
  }

  /** A form that is being processed waits for its latest task, which carries the round and the
      type counts of its job. */
  ghost predicate WaitsForLatest(f: Option<Form>, tasks: seq<Dispatch>, id: string) {
    InProcess(f) ==>
      && JobAt(f).Some?
      && LatestTask(tasks, id).Some? && LatestTask(tasks, id).value < |tasks|
      && var d, job := tasks[LatestTask(tasks, id).value], JobAt(f).value;
         d.formId == id && d.round == job.round && d.spec == TypeCounts.Restored(job.typeCounts)
  }

  /** The rounds stay within the limit. */
  ghost predicate RoundOk(f: Option<Form>) {
    JobAt(f).Some? ==>
      && JobAt(f).value.round <= MAX_CLARIFY_ROUNDS
      && (f.value.status.NeedClarification? ==> JobAt(f).value.round < MAX_CLARIFY_ROUNDS)
  }

  /** The job goes on: its request stays, its history grows by the accepted answers only. */
  ghost predicate Continues(before: AIJob, after: AIJob, answers: Option<seq<string>>) {
    && before.prompt == after.prompt && before.typeCounts == after.typeCounts
    && match answers
       case None => after.round == before.round && after.qaHistory == before.qaHistory
       case Some(a) => after.round == before.round + 1 && after.qaHistory == before.qaHistory + Paired(before.clarifying, a)
  }

  /** What a step does to the form `f` in row `id`: `starts` says it begins a new job there,
      `answers` are those it accepts, `asksAgain` says it applies a reply that asks for
      clarification although the job is in its last round. */
  ghost predicate FormStep(f: Option<Form>, f': Option<Form>, tasks: seq<Dispatch>, tasks': seq<Dispatch>, id: string,
                           starts: Option<Spec>, answers: Option<seq<string>>, asksAgain: bool) {
    && (tasks' == tasks || (|tasks'| == |tasks| + 1 && tasks' == tasks + [tasks'[|tasks|]]
                            && (tasks'[|tasks|].forceFinal <==> tasks'[|tasks|].round >= MAX_CLARIFY_ROUNDS)))
    && TasksFor(tasks', id) == TasksFor(tasks, id) + (if !InProcess(f) && InProcess(f') then 1 else 0)
    && (WaitsForLatest(f, tasks, id) ==> WaitsForLatest(f', tasks', id))
    && (JobAt(f').Some? && starts.None? ==> JobAt(f).Some? && Continues(JobAt(f).value, JobAt(f').value, answers))
    && (JobAt(f').Some? && starts.Some? ==>
          JobAt(f').value.round == 0 && TypeCounts.Restored(JobAt(f').value.typeCounts) == starts.value)
    && (RoundOk(f) && !asksAgain ==> RoundOk(f'))
  }

  /** A form is written, and nothing sent: it may stop being processed, not start. */
  lemma QuietStep(f: Option<Form>, f': Option<Form>, tasks: seq<Dispatch>, id: string, asksAgain: bool)
    requires InProcess(f') ==> InProcess(f) && JobAt(f').Some?
    requires JobAt(f').Some? ==> JobAt(f).Some? && Continues(JobAt(f).value, JobAt(f').value, None)
    requires JobAt(f').Some? && f'.value.status.NeedClarification? ==>
               asksAgain || f.value.status.NeedClarification? || JobAt(f).value.round < MAX_CLARIFY_ROUNDS
    ensures FormStep(f, f', tasks, tasks, id, None, None, asksAgain)
  {
  }

  /** A form that nothing happens to. */
  lemma StillStep(f: Option<Form>, tasks: seq<Dispatch>, id: string)
    requires f.Some? ==> FormInv(f.value)
    ensures FormStep(f, f, tasks, tasks, id, None, None, false)
  {
    QuietStep(f, f, tasks, id, false);
  }

  /** Another form's task leaves this form alone. */
  lemma OtherStep(f: Option<Form>, tasks: seq<Dispatch>, d: Dispatch, id: string)
    requires d.formId != id && (d.forceFinal <==> d.round >= MAX_CLARIFY_ROUNDS)
    ensures FormStep(f, f, tasks, tasks + [d], id, None, None, false)
  {
    TasksSnoc(tasks, d, id);
  }

  /** The form's own task goes out as it starts being processed. */
  lemma TaskStep(f: Option<Form>, g: Form, tasks: seq<Dispatch>, d: Dispatch, starts: Option<Spec>, answers: Option<seq<string>>)
    requires !InProcess(f) && g.status.ProcessingAI? && g.aiJob.Some?
    requires d.forceFinal <==> d.round >= MAX_CLARIFY_ROUNDS
    requires d.round == g.aiJob.value.round && d.spec == TypeCounts.Restored(g.aiJob.value.typeCounts)
    requires if starts.Some? then d.round == 0 && d.spec == starts.value else JobAt(f).Some? && Continues(JobAt(f).value, g.aiJob.value, answers)
    requires RoundOk(f) ==> d.round <= MAX_CLARIFY_ROUNDS
    ensures FormStep(f, Some(g), tasks, tasks + [d], d.formId, starts, answers, false)
  {
    TasksSnoc(tasks, d, d.formId);
  }

  /** The type counts of the job a step begins on form `id`. */
  ghost function StartedWith(s: Store, op: Op, id: string): Option<Spec> {
    if op.Request? && Apply(s, op).1.Done? && id == (if op.formId.Some? then op.formId.value else op.newId)
    then Some(Readable(op.fields)) else None
  }

  ghost function AcceptedAnswers(s: Store, op: Op, id: string): Option<seq<string>> {
    if op.Submit? && op.id == id && id in s.forms && AwaitsAnswers(s.forms[id]) then Some(op.answers) else None
  }

  /** The step applies the agent's result to form `id`. */
  ghost predicate AppliesResult(s: Store, op: Op, id: string) {
    op.Callback? && op.id == id && Processing(s, id)
  }

  ghost predicate AsksAgain(s: Store, op: Op, id: string) {
    && AppliesResult(s, op, id) && op.content.Reply? && Evaluate(op.content).clarify != []
    && JobAt(At(s, id)).Some? && JobAt(At(s, id)).value.round >= MAX_CLARIFY_ROUNDS
  }

  ghost predicate StepOf(s: Store, s': Store, id: string, starts: Option<Spec>, answers: Option<seq<string>>, asksAgain: bool) {
    FormStep(At(s, id), At(s', id), s.dispatches, s'.dispatches, id, starts, answers, asksAgain)
  }

  lemma CreateStep(s: Store, at: string, title: string, language: Language, questions: seq<Question>,
                   desired: string, uuids: Uuids, now: int, id: string)
    requires Inv(s)
    ensures StepOf(s, CreateForm(s, at, title, language, questions, desired, uuids, now).0, id, None, None, false)
  {
    CreateKeeps(s, at, title, language, questions, desired, uuids, now);
    var s' := CreateForm(s, at, title, language, questions, desired, uuids, now).0;
    QuietStep(At(s, id), At(s', id), s.dispatches, id, false);
  }

  lemma UpdateStep(s: Store, at: string, title: string, language: Option<Language>, questions: seq<Question>,
                   desired: string, uuids: Uuids, now: int, id: string)
    requires Inv(s)
    ensures StepOf(s, UpdateForm(s, at, title, language, questions, desired, uuids, now).0, id, None, None, false)
  {
    UpdateKeeps(s, at, title, language, questions, desired, uuids, now);
    UpdatedStep(s, UpdateForm(s, at, title, language, questions, desired, uuids, now), at, id);
  }

  lemma UpdatedStep(s: Store, r: (Store, Outcome), at: string, id: string)
    requires Inv(s) && Updated(s, r, at)
    ensures StepOf(s, r.0, id, None, None, false)
  {
    assert id in s.forms ==> FormInv(s.forms[id]);
    if r.1.Done? && id == at {
      QuietStep(Some(s.forms[id]), Some(r.0.forms[id]), s.dispatches, id, false);
    } else {
      StillStep(At(s, id), s.dispatches, id);
    }
  }

  lemma WriteStep(s: Store, at: string, g: Form, id: string)
    requires Inv(s) && at in s.forms
    requires g.status.ProcessingAI? ==> s.forms[at].status.ProcessingAI? && g.aiJob.Some?
    requires g.status.NeedClarification? ==> s.forms[at].status.NeedClarification?
    requires g.aiJob.Some? ==> s.forms[at].aiJob.Some? && Continues(s.forms[at].aiJob.value, g.aiJob.value, None)
    ensures StepOf(s, Save(s, at, g).0, id, None, None, false)
  {
    assert id in s.forms ==> FormInv(s.forms[id]);
    StillStep(At(s, id), s.dispatches, id);
    if id == at {
      QuietStep(Some(s.forms[id]), Some(g), s.dispatches, id, false);
    }
  }

  lemma PublishStep(s: Store, at: string, now: int, id: string)
    requires Inv(s)
    ensures StepOf(s, PublishForm(s, at, now).0, id, None, None, false)
  {
    QuietStep(At(s, id), At(s, id), s.dispatches, id, false);
    if at in s.forms {
      WriteStep(s, at, s.forms[at].(status := Published, updatedAt := now), id);
    }
  }

  lemma FailStep(s: Store, at: string, reason: JobError, now: int, id: string)
    requires Inv(s)
    ensures StepOf(s, FailDispatch(s, at, reason, now).0, id, None, None, false)
  {
    QuietStep(At(s, id), At(s, id), s.dispatches, id, false);
    if Processing(s, at) {
      WriteStep(s, at, Failed(s.forms[at], reason, now), id);
    }
  }

  lemma ClearStep(s: Store, at: string, now: int, id: string)
    requires Inv(s)
    ensures StepOf(s, ClearJob(s, at, now).0, id, None, None, false)
  {
    QuietStep(At(s, id), At(s, id), s.dispatches, id, false);
    if at in s.forms {
      WriteStep(s, at, Cleared(s.forms[at], now), id);
    }
  }

  lemma DeleteStep(s: Store, at: string, id: string)
    requires Inv(s)
    ensures StepOf(s, DeleteForm(s, at).0, id, None, None, false)
  {
    assert id in s.forms ==> FormInv(s.forms[id]);
    QuietStep(At(s, id), At(DeleteForm(s, at).0, id), s.dispatches, id, false);
  }

  lemma SweepStep(s: Store, cutoff: int, failing: set<string>, now: int, id: string)
    requires Inv(s)
    ensures StepOf(s, Reap(s, cutoff, failing, now), id, None, None, false)
  {
    assert id in s.forms ==> FormInv(s.forms[id]);
    QuietStep(At(s, id), At(Reap(s, cutoff, failing, now), id), s.dispatches, id, false);
  }

  lemma CallbackStep(s: Store, at: string, content: Content, errMsg: string, now: int, id: string)
    requires Inv(s)
    ensures var s' := CompleteSuggest(s, at, content, errMsg, now).0;
            var asks := Processing(s, at) && content.Reply? && Evaluate(content).clarify != []
                        && JobAt(At(s, at)).Some? && JobAt(At(s, at)).value.round >= MAX_CLARIFY_ROUNDS;
            StepOf(s, s', id, None, None, asks && id == at)
  {
    CompleteKeeps(s, at, content, errMsg, now);
    var s' := CompleteSuggest(s, at, content, errMsg, now).0;
    if Processing(s, at) && id == at {
      CompletedIsGood(s.forms[at], content, errMsg, now);
      QuietStep(At(s, id), At(s', id), s.dispatches, id,
                content.Reply? && Evaluate(content).clarify != [] && JobAt(At(s, at)).value.round >= MAX_CLARIFY_ROUNDS);
    } else {
      QuietStep(At(s, id), At(s, id), s.dispatches, id, false);
    }
  }

  lemma RequestStep(s: Store, formId: Option<string>, newId: string, prompt: string, fields: map<QuestionType, JsonValue>,
                    hasFiles: bool, language: Language, uuids: Uuids, now: int, id: string)
    requires Inv(s)
    ensures var (s', outcome) := RequestSuggest(s, formId, newId, prompt, fields, hasFiles, language, uuids, now);
            StepOf(s, s', id, if outcome.Done? && id == (if formId.Some? then formId.value else newId) then Some(Readable(fields)) else None,
                   None, false)
  {
    var f := RequestEffect(s, formId, newId, prompt, fields, hasFiles, language, uuids, now);
    var (s', outcome) := RequestSuggest(s, formId, newId, prompt, fields, hasFiles, language, uuids, now);
    var at := if formId.Some? then formId.value else newId;
    if outcome.Done? {
      BeginStep(s, s', at, f, prompt, fields, TooVague(prompt, hasFiles), KnownLanguage(language), now, id);
    } else {
      QuietStep(At(s, id), At(s, id), s.dispatches, id, false);
    }
  }

  lemma BeginStep(s: Store, s': Store, at: string, f: Form, prompt: string, fields: map<QuestionType, JsonValue>,
                  vague: bool, language: Language, now: int, id: string)
    requires Inv(s) && !Processing(s, at)
    requires s'.forms == s.forms[at := Begun(f, prompt, Readable(fields), vague, language, now)]
    requires s'.dispatches == s.dispatches + (if vague then [] else [Dispatch(at, 0, false, Readable(fields))])
    ensures StepOf(s, s', id, if id == at then Some(Readable(fields)) else None, None, false)
  {
    var g := Begun(f, prompt, Readable(fields), vague, language, now);
    ParsedSpecSurvivesStorage(fields);
    if vague {
      assert s'.dispatches == s.dispatches;
    } else if id == at {
      TaskStep(At(s, id), g, s.dispatches, Dispatch(at, 0, false, Readable(fields)), Some(Readable(fields)), None);
    } else {
      OtherStep(At(s, id), s.dispatches, Dispatch(at, 0, false, Readable(fields)), id);
    }
  }

  lemma SubmitStep(s: Store, at: string, answers: seq<string>, now: int, id: string)
    requires Inv(s)
    ensures StepOf(s, SubmitAnswers(s, at, answers, now).0, id, None,
                   if id == at && id in s.forms && AwaitsAnswers(s.forms[id]) then Some(answers) else None, false)
  {
    SubmitKeeps(s, at, answers, now);
    if at in s.forms && AwaitsAnswers(s.forms[at]) {
      var g := Submitted(s.forms[at], answers, now);
      var job := g.aiJob.value;
      var d := Dispatch(at, job.round, job.round >= MAX_CLARIFY_ROUNDS, TypeCounts.Restored(job.typeCounts));
      if id == at {
        TaskStep(At(s, id), g, s.dispatches, d, None, Some(answers));
      } else {
        OtherStep(At(s, id), s.dispatches, d, id);
      }
    } else {
      QuietStep(At(s, id), At(s, id), s.dispatches, id, false);
    }
  }

  lemma EditIsStep(s: Store, op: Op, id: string)
    requires Inv(s) && (op.Create? || op.Update? || op.Publish? || op.Delete?)
    ensures StepOf(s, Apply(s, op).0, id, None, None, false)
  {
    match op {
      case Create(at, title, language, questions, desired, uuids, now) =>
        CreateStep(s, at, title, language, questions, desired, uuids, now, id);
      case Update(at, title, language, questions, desired, uuids, now) =>
        UpdateStep(s, at, title, language, questions, desired, uuids, now, id);
      case Publish(at, now) => PublishStep(s, at, now, id);
      case Delete(at) => DeleteStep(s, at, id);
    }
  }

  lemma EndingIsStep(s: Store, op: Op, id: string)
    requires Inv(s) && (op.TaskFailed? || op.Clear? || op.Sweep?)
    ensures StepOf(s, Apply(s, op).0, id, None, None, false)
  {
    match op {
      case TaskFailed(at, reason, now) => FailStep(s, at, reason, now, id);
      case Clear(at, now) => ClearStep(s, at, now, id);
      case Sweep(cutoff, failing, now) => SweepStep(s, cutoff, failing, now, id);
    }
  }

  lemma CallbackIsStep(s: Store, op: Op, id: string)
    requires Inv(s) && op.Callback?
    ensures StepOf(s, Apply(s, op).0, id, None, None, AsksAgain(s, op, id))
  {
    CallbackStep(s, op.id, op.content, op.errMsg, op.now, id);
  }

  lemma RequestIsStep(s: Store, op: Op, id: string)
    requires Inv(s) && op.Request?
    ensures StepOf(s, Apply(s, op).0, id, StartedWith(s, op, id), None, false)
  {
    ApplyRequest(s, op);
    RequestStep(s, op.formId, op.newId, op.prompt, op.fields, op.hasFiles, op.language, op.uuids, op.now, id);
  }

  lemma SubmitIsStep(s: Store, op: Op, id: string)
    requires Inv(s) && op.Submit?
    ensures StepOf(s, Apply(s, op).0, id, None, AcceptedAnswers(s, op, id), false)
  {
    SubmitStep(s, op.id, op.answers, op.now, id);
  }

  /** Every operation, whatever its outcome, is such a step for every form. */
  lemma StepOfForm(s: Store, op: Op, id: string)
    requires Inv(s)
    ensures StepOf(s, Apply(s, op).0, id, StartedWith(s, op, id), AcceptedAnswers(s, op, id), AsksAgain(s, op, id))
  {
    if op.Request? {
      RequestIsStep(s, op, id);
    } else if op.Callback? {
      CallbackIsStep(s, op, id);
    } else if op.Submit? {
      SubmitIsStep(s, op, id);
    } else if op.TaskFailed? || op.Clear? || op.Sweep? {
      EndingIsStep(s, op, id);
    } else {
      EditIsStep(s, op, id);
    }
  }

  // ----- at most one result per dispatch -----

  lemma AppliedResultEndsProcessing(s: Store, op: Op, id: string)
    requires Inv(s) && AppliesResult(s, op, id)
    ensures !Processing(Apply(s, op).0, id)
  {
    CompleteKeeps(s, id, op.content, op.errMsg, op.now);
    CompletedIsGood(s.forms[id], op.content, op.errMsg, op.now);
  }

  ghost function ResultsApplied(ops: seq<Op>, id: string): nat {
    if ops == [] then 0
    else
      var n := |ops| - 1;
      ResultsApplied(ops[..n], id) + (if AppliesResult(Run(ops[..n]), ops[n], id) then 1 else 0)
  }

  /** In total, the results applied to a form, plus the task still out, are no more than the tasks
      sent for it. */
  lemma {:induction false} OneResultPerTask(ops: seq<Op>, id: string)
    ensures ResultsApplied(ops, id) + (if Processing(Run(ops), id) then 1 else 0) <= TasksFor(Run(ops).dispatches, id)
  {
    if ops != [] {
      var n := |ops| - 1;
      OneResultPerTask(ops[..n], id);
      ReachableInvariant(ops[..n]);
      StepOfForm(Run(ops[..n]), ops[n], id);
      if AppliesResult(Run(ops[..n]), ops[n], id) {
        AppliedResultEndsProcessing(Run(ops[..n]), ops[n], id);
      }
    }
  }

  /** The step hands a task for the form to the agent. */
  ghost predicate SendsTask(s: Store, op: Op, id: string) {
    TasksFor(Apply(s, op).0.dispatches, id) == TasksFor(s.dispatches, id) + 1
  }

  lemma {:induction false} SentInBetween(ops: seq<Op>, m: nat, j: nat, id: string) returns (k: nat)
    requires m <= j <= |ops| && !Processing(Run(ops[..m]), id) && Processing(Run(ops[..j]), id)
    ensures m <= k < j && SendsTask(Run(ops[..k]), ops[k], id)
  {
    assert ops[..j][..j - 1] == ops[..j - 1];
    if Processing(Run(ops[..j - 1]), id) {
      k := SentInBetween(ops, m, j - 1, id);
    } else {
      k := j - 1;
      ReachableInvariant(ops[..k]);
      StepOfForm(Run(ops[..k]), ops[k], id);
    }
  }

  /** Each entry into processing has at most one result applied to it: between two steps that apply a
      result to a form, a task for it is sent. */
  lemma {:induction false} OneResultPerEntry(ops: seq<Op>, i: nat, j: nat, id: string) returns (k: nat)
    requires i < j < |ops|
    requires AppliesResult(Run(ops[..i]), ops[i], id) && AppliesResult(Run(ops[..j]), ops[j], id)
    ensures i < k < j && SendsTask(Run(ops[..k]), ops[k], id)
  {
    ReachableInvariant(ops[..i]);
    AppliedResultEndsProcessing(Run(ops[..i]), ops[i], id);
    assert ops[..i + 1][..i] == ops[..i];
    k := SentInBetween(ops, i + 1, j, id);
  }

  // ----- rounds and history -----

  /** Accepted submissions since the job of `id` was started. */
  ghost function RoundsSubmitted(ops: seq<Op>, id: string): nat {
    if ops == [] then 0
    else
      var n := |ops| - 1;
      var s := Run(ops[..n]);
      if StartedWith(s, ops[n], id).Some? then 0
      else RoundsSubmitted(ops[..n], id) + (if AcceptedAnswers(s, ops[n], id).Some? then 1 else 0)
  }

  /** The round of a job is the number of its accepted submissions, and bounds its history. */
  lemma {:induction false} RoundCountsSubmissions(ops: seq<Op>, id: string)
    requires JobAt(At(Run(ops), id)).Some?
    ensures var job := JobAt(At(Run(ops), id)).value;
            job.round == RoundsSubmitted(ops, id) && job.round <= |job.qaHistory| <= 4 * job.round
  {
    ReachableInvariant(ops);
    assert FormInv(Run(ops).forms[id]);
    if ops != [] {
      var n := |ops| - 1;
      ReachableInvariant(ops[..n]);
      StepOfForm(Run(ops[..n]), ops[n], id);
      if StartedWith(Run(ops[..n]), ops[n], id).None? {
        RoundCountsSubmissions(ops[..n], id);
      }
    }
  }

  // ----- the last round -----

  lemma {:induction false} ReachableWaits(ops: seq<Op>, id: string)
    ensures WaitsForLatest(At(Run(ops), id), Run(ops).dispatches, id)
  {
    if ops != [] {
      var n := |ops| - 1;
      ReachableWaits(ops[..n], id);
      ReachableInvariant(ops[..n]);
      StepOfForm(Run(ops[..n]), ops[n], id);
    }
  }

  /** The type counts of the request that began the current job of `id`. */
  ghost function RequestedSpec(ops: seq<Op>, id: string): Spec {
    if ops == [] then map[]
    else
      var n := |ops| - 1;
      var started := StartedWith(Run(ops[..n]), ops[n], id);
      if started.Some? then started.value else RequestedSpec(ops[..n], id)
  }

  lemma {:induction false} JobKeepsSpec(ops: seq<Op>, id: string)
    requires JobAt(At(Run(ops), id)).Some?
    ensures TypeCounts.Restored(JobAt(At(Run(ops), id)).value.typeCounts) == RequestedSpec(ops, id)
  {
    if ops != [] {
      var n := |ops| - 1;
      ReachableInvariant(ops[..n]);
      StepOfForm(Run(ops[..n]), ops[n], id);
      if StartedWith(Run(ops[..n]), ops[n], id).None? {
        JobKeepsSpec(ops[..n], id);
      }
    }
  }

  /** The task a processed form waits for carries the configuration the user sent with the
      request, whatever the round and however the job was stored in between. */
  lemma {:induction false} EveryRoundUsesTheRequest(ops: seq<Op>, id: string) returns (k: nat)
    requires Processing(Run(ops), id)
    ensures k < |Run(ops).dispatches| && LatestTask(Run(ops).dispatches, id) == Some(k)
    ensures Run(ops).dispatches[k].spec == RequestedSpec(ops, id)
    ensures JobAt(At(Run(ops), id)).Some? && Run(ops).dispatches[k].round == JobAt(At(Run(ops), id)).value.round
  {
    ReachableWaits(ops, id);
    JobKeepsSpec(ops, id);
    k := LatestTask(Run(ops).dispatches, id).value;
  }

  /** A task is forced to a final result exactly when it belongs to round three or later. */
  lemma {:induction false} ForcedFromRoundThree(ops: seq<Op>)
    ensures forall d :: d in Run(ops).dispatches ==> (d.forceFinal <==> d.round >= MAX_CLARIFY_ROUNDS)
  {
    if ops != [] {
      var n := |ops| - 1;
      ForcedFromRoundThree(ops[..n]);
      ReachableInvariant(ops[..n]);
      StepOfForm(Run(ops[..n]), ops[n], "");
    }
  }

  /** The agent keeps to its instructions: an applied reply answers the form's latest task, and a
      reply to a forced-final task does not ask for clarification. */
  ghost predicate Obedient(s: Store, op: Op) {
    op.Callback? && Processing(s, op.id) ==>
      && LatestTask(s.dispatches, op.id) == Some(op.replyTo) && op.replyTo < |s.dispatches|
      && (s.dispatches[op.replyTo].forceFinal && op.content.Reply? ==> Evaluate(op.content).clarify == [])
  }

  ghost predicate ObedientRun(ops: seq<Op>) {
    forall n :: 0 <= n < |ops| ==> Obedient(Run(ops[..n]), ops[n])
  }

  /** A reply that asks again in the last round takes the form past the limit. */
  lemma AskingAgainGoesOver(s: Store, op: Op, id: string)
    requires Inv(s) && AsksAgain(s, op, id)
    ensures !RoundOk(At(Apply(s, op).0, id))
  {
    CompleteKeeps(s, id, op.content, op.errMsg, op.now);
  }

  /** No step of the run applies a reply that asks for clarification to a job in round three or later. */
  ghost predicate NeverAsksAgain(ops: seq<Op>, id: string) {
    forall n :: 0 <= n < |ops| ==> !AsksAgain(Run(ops[..n]), ops[n], id)
  }

  /** The rounds stay within the limit all through a run exactly when no step of it applies a reply
      that asks for clarification to a job in round three or later. */
  lemma {:induction false} LimitHoldsIff(ops: seq<Op>, id: string)
    ensures (forall n :: 0 <= n <= |ops| ==> RoundOk(At(Run(ops[..n]), id))) <==> NeverAsksAgain(ops, id)
  {
    if NeverAsksAgain(ops, id) {
      forall n | 0 <= n <= |ops| ensures RoundOk(At(Run(ops[..n]), id)) {
        StaysInRounds(ops, n, id);
      }
    } else {
      var n :| 0 <= n < |ops| && AsksAgain(Run(ops[..n]), ops[n], id);
      GoesOver(ops, n, id);
    }
  }

  lemma GoesOver(ops: seq<Op>, n: nat, id: string)
    requires n < |ops| && AsksAgain(Run(ops[..n]), ops[n], id)
    ensures !RoundOk(At(Run(ops[..n + 1]), id))
  {
    ReachableInvariant(ops[..n]);
    AskingAgainGoesOver(Run(ops[..n]), ops[n], id);
    assert ops[..n + 1][..n] == ops[..n];
  }

  lemma {:induction false} StaysInRounds(ops: seq<Op>, n: nat, id: string)
    requires n <= |ops| && NeverAsksAgain(ops, id)
    ensures RoundOk(At(Run(ops[..n]), id))
  {
    if n > 0 {
      StaysInRounds(ops, n - 1, id);
      NextInRounds(ops, n - 1, id);
    }
  }

  lemma NextInRounds(ops: seq<Op>, n: nat, id: string)
    requires n < |ops| && !AsksAgain(Run(ops[..n]), ops[n], id) && RoundOk(At(Run(ops[..n]), id))
    ensures RoundOk(At(Run(ops[..n + 1]), id))
  {
    ReachableInvariant(ops[..n]);
    StepOfForm(Run(ops[..n]), ops[n], id);
    assert ops[..n + 1][..n] == ops[..n];
  }

  /** An obedient agent never asks again, so with one no job ever goes past round three. */
  lemma {:induction false} ObedientStaysInRounds(ops: seq<Op>, id: string)
    requires ObedientRun(ops)
    ensures forall n :: 0 <= n <= |ops| ==> RoundOk(At(Run(ops[..n]), id))
    ensures RoundOk(At(Run(ops), id))
  {
    forall n | 0 <= n < |ops| ensures !AsksAgain(Run(ops[..n]), ops[n], id) {
      ReachableWaits(ops[..n], id);
      ForcedFromRoundThree(ops[..n]);
      assert Obedient(Run(ops[..n]), ops[n]);
    }
    LimitHoldsIff(ops, id);
    assert ops[..|ops|] == ops;
  }

  /** The agent decides alone, as nothing in the service stops the rounds: for every number there is a run that
      reaches it, with an agent that keeps asking. */
  lemma {:induction false} StubbornAgentGoesOn(n: nat, id: string) returns (ops: seq<Op>)
    ensures id in Run(ops).forms && AwaitsAnswers(Run(ops).forms[id]) && Run(ops).forms[id].aiJob.value.round == n
  {
    if n == 0 {
      ops := [Request(None, id, "", map[], false, Indonesian, Uuids(_ => 0, 0), 0)];
      FirstRequestWaits(id, Uuids(_ => 0, 0));
      RunOne(id, Uuids(_ => 0, 0));
    } else {
      var before := StubbornAgentGoesOn(n - 1, id);
      ReachableInvariant(before);
      AskedOnceMore(Run(before), id);
      RunTwoMore(before, id);
      ops := before + [Submit(id, [], 0)] + [Callback(id, 0, Reply(0, ["?"], []), "", 0)];
    }
  }

  lemma RunOne(id: string, uuids: Uuids)
    ensures Run([Request(None, id, "", map[], false, Indonesian, uuids, 0)])
            == RequestSuggest(Store(map[], []), None, id, "", map[], false, Indonesian, uuids, 0).0
  {
    var op := Request(None, id, "", map[], false, Indonesian, uuids, 0);
    RunOnly(op);
    ApplyRequest(Store(map[], []), op);
  }

  lemma ApplyRequest(s: Store, op: Op)
    requires op.Request?
    ensures Apply(s, op)
            == RequestSuggest(s, op.formId, op.newId, op.prompt, op.fields, op.hasFiles, op.language, op.uuids, op.now)
  {
  }

  lemma RunOnly(op: Op)
    ensures Run([op]) == Apply(Store(map[], []), op).0
  {
    RunSnoc([], op);
    assert [] + [op] == [op];
  }

  lemma RunTwoMore(before: seq<Op>, id: string)
    ensures Run(before + [Submit(id, [], 0)] + [Callback(id, 0, Reply(0, ["?"], []), "", 0)])
            == CompleteSuggest(SubmitAnswers(Run(before), id, [], 0).0, id, Reply(0, ["?"], []), "", 0).0
  {
    var submit, callback := Submit(id, [], 0), Callback(id, 0, Reply(0, ["?"], []), "", 0);
    RunSnoc(before, submit);
    RunSnoc(before + [submit], callback);
    ApplySubmit(Run(before), submit);
    ApplyCallback(Run(before + [submit]), callback);
  }

  lemma ApplySubmit(s: Store, op: Op)
    requires op.Submit?
    ensures Apply(s, op) == SubmitAnswers(s, op.id, op.answers, op.now)
  {
  }

  lemma ApplyCallback(s: Store, op: Op)
    requires op.Callback?
    ensures Apply(s, op) == CompleteSuggest(s, op.id, op.content, op.errMsg, op.now)
  {
  }

  lemma RunSnoc(ops: seq<Op>, op: Op)
    ensures Run(ops + [op]) == Apply(Run(ops), op).0
  {
    InitOfSnoc(ops, op);
  }

  lemma FirstRequestWaits(id: string, uuids: Uuids)
    ensures var s := RequestSuggest(Store(map[], []), None, id, "", map[], false, Indonesian, uuids, 0).0;
            id in s.forms && AwaitsAnswers(s.forms[id]) && s.forms[id].aiJob.value.round == 0
  {
    var _ := RequestEffect(Store(map[], []), None, id, "", map[], false, Indonesian, uuids, 0);
    TrimBare("", IsSpace);
  }

  lemma AskedOnceMore(s: Store, id: string)
    requires Inv(s) && id in s.forms && AwaitsAnswers(s.forms[id])
    ensures var s' := CompleteSuggest(SubmitAnswers(s, id, [], 0).0, id, Reply(0, ["?"], []), "", 0).0;
            && id in s'.forms && AwaitsAnswers(s'.forms[id])
            && s'.forms[id].aiJob.value.round == s.forms[id].aiJob.value.round + 1
  {
    SubmitKeeps(s, id, [], 0);
    CompleteKeeps(SubmitAnswers(s, id, [], 0).0, id, Reply(0, ["?"], []), "", 0);
  }
}
