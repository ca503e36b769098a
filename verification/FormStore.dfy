/** What each operation of the feedback-form service does to the stored forms, as a function
    on values. A form's AI-suggestion job lives inside the form: the job is dispatched to the
    agent, and the agent calls back later, twice, or never. */
module FormStore {
  import opened Text
  import opened FeedbackDomain
  import opened Questions
  import opened TypeCounts
  import Slugs

  datatype Status = Draft | Published | Closed | ProcessingAI | NeedClarification

  datatype ClarifyQA = ClarifyQA(question: string, answer: string)

  /** Why the last round failed; the fixed messages of the source are constructors here. */
  datatype JobError = NoError | GenerateFailed | InvalidOutput | TimedOut | Reported(reason: string)

  datatype AIJob = AIJob(prompt: string, language: Language, round: nat, qaHistory: seq<ClarifyQA>,
                         typeCounts: map<QuestionType, string>, confidence: int, clarifying: seq<string>,
                         pending: seq<Suggestion>, error: JobError, updatedAt: int)

  datatype Form = Form(title: string, slug: string, status: Status, language: Language, questions: seq<Question>,
                       aiJob: Option<AIJob>, updatedAt: int)

  /** A task handed to the agent. */
  datatype Dispatch = Dispatch(formId: string, round: nat, forceFinal: bool, spec: Spec)

  datatype Store = Store(forms: map<string, Form>, dispatches: seq<Dispatch>)

  datatype Outcome = Done | NotFound | Refused | Conflict

  /** UUIDs drawn by one call: one per question without an ID, one for a random slug. */
  datatype Uuids = Uuids(questions: nat -> nat, slug: nat)
  {
    function QuestionId(i: nat): string {
      Slugs.HexDigits(questions(i), 10)
    }
  }

  const MAX_CLARIFY_ROUNDS := 3
  const MIN_PROMPT_WORDS := 3
  const VAGUE_CONFIDENCE := 40

  // ----- the repository: a table with a unique index on the slug -----

  function SlugsOf(forms: map<string, Form>): set<string> {
    set id | id in forms :: forms[id].slug
  }

  predicate SlugFreeFor(forms: map<string, Form>, id: string, slug: string) {
    forall other :: other in forms && other != id ==> forms[other].slug != slug
  }

  function Insert(s: Store, id: string, f: Form): (Store, Outcome) {
    if id in s.forms || !SlugFreeFor(s.forms, id, f.slug) then (s, Conflict)
    else (s.(forms := s.forms[id := f]), Done)
  }

  function Save(s: Store, id: string, f: Form): (Store, Outcome) {
    if !SlugFreeFor(s.forms, id, f.slug) then (s, Conflict) else (s.(forms := s.forms[id := f]), Done)
  }

  // ----- editing -----

  /** An unknown language falls back to Indonesian. */
  function KnownLanguage(l: Language): Language {
    if l.Valid() then l else Indonesian
  }

  function CreateForm(s: Store, id: string, title: string, language: Language, questions: seq<Question>,
                      desired: string, uuids: Uuids, now: int): (Store, Outcome)
  {
    match NormalizeAll(questions, uuids.QuestionId)
    case Err(_) => (s, Refused)
    case Ok(qs) =>
      var slug := Slugs.AllocatedSlug(SlugsOf(s.forms), desired, title, "", uuids.slug);
      Insert(s, id, Form(title, slug, Draft, KnownLanguage(language), qs, None, now))
  }

  function StatusAfterEdit(status: Status): Status {
    if status.ProcessingAI? || status.NeedClarification? then status else Draft
  }

  /** A blank wish keeps the slug. */
  function SlugAfterEdit(s: Store, f: Form, title: string, desired: string, uuid: nat): string {
    if Blank(desired) then f.slug else Slugs.AllocatedSlug(SlugsOf(s.forms), desired, title, f.slug, uuid)
  }

  /** `language` is None when the request leaves it out. */
  function Edited(f: Form, title: string, slug: string, language: Option<Language>, questions: seq<Question>, now: int): Form {
    Form(title, slug, StatusAfterEdit(f.status), KnownLanguage(if language.Some? then language.value else f.language),
         questions, f.aiJob, now)
  }

  function UpdateForm(s: Store, id: string, title: string, language: Option<Language>, questions: seq<Question>,
                      desired: string, uuids: Uuids, now: int): (Store, Outcome)
  {
    if id !in s.forms then (s, NotFound)
    else
      match NormalizeAll(questions, uuids.QuestionId)
      case Err(_) => (s, Refused)
      case Ok(qs) =>
        var slug := SlugAfterEdit(s, s.forms[id], title, desired, uuids.slug);
        Save(s, id, Edited(s.forms[id], title, slug, language, qs, now))
  }

  function PublishForm(s: Store, id: string, now: int): (Store, Outcome) {
    if id !in s.forms then (s, NotFound)
    else if s.forms[id].questions == [] then (s, Refused)
    else Save(s, id, s.forms[id].(status := Published, updatedAt := now))
  }

  function DeleteForm(s: Store, id: string): (Store, Outcome) {
    (s.(forms := s.forms - {id}), Done)
  }

  // ----- AI suggestions -----

  const DEFAULT_TITLE := "Form Feedback (draft)"

  /** How many runs of non-space characters start in `s`; `inWord` says one is open. */
  function CountWords(s: string, inWord: bool): nat {
    if s == "" then 0
    else (if !IsSpace(s[0]) && !inWord then 1 else 0) + CountWords(s[1..], !IsSpace(s[0]))
  }

  predicate TooVague(prompt: string, hasFiles: bool) {
    !hasFiles && CountWords(TrimSpace(prompt), false) < MIN_PROMPT_WORDS
  }

  /** The three standard questions, named by their subject. */
  function DefaultQuestions(language: Language): seq<string> {
    if language == English then ["project", "respondent", "aspect"] else ["proyek", "responden", "aspek"]
  }

  function NewJob(prompt: string, language: Language, spec: Spec, now: int): AIJob {
    AIJob(prompt, language, 0, [], TypeCounts.Stored(spec), 0, [], [], NoError, now)
  }

  /** A new form gets its slug and its row; an existing one is saved. */
  function PersistJobForm(s: Store, isNew: bool, id: string, f: Form, uuid: nat): (Store, Outcome) {
    if isNew then Insert(s, id, f.(slug := Slugs.AllocatedSlug(SlugsOf(s.forms), "", f.title, "", uuid)))
    else Save(s, id, f)
  }

  /** The form with a new job: sent out for processing, or back to the user with the
      standard questions when the prompt says too little. */
  function Begun(f: Form, prompt: string, spec: Spec, vague: bool, language: Language, now: int): Form {
    var job := NewJob(prompt, language, spec, now);
    if vague then
      f.(aiJob := Some(job.(confidence := VAGUE_CONFIDENCE, clarifying := DefaultQuestions(language))),
         status := NeedClarification, updatedAt := now)
    else f.(aiJob := Some(job), status := ProcessingAI, updatedAt := now)
  }

  /** The form `f`, new or stored, begins a job; the task goes out unless the prompt is vague. */
  function BeginOn(s: Store, isNew: bool, id: string, f: Form, prompt: string, spec: Spec, vague: bool,
                   language: Language, now: int): (Store, Outcome)
  {
    var g := Begun(f, prompt, spec, vague, language, now);
    var (s', outcome) := if isNew then Insert(s, id, g) else Save(s, id, g);
    if outcome.Done? && !vague then (s'.(dispatches := s'.dispatches + [Dispatch(id, 0, false, spec)]), Done)
    else (s', outcome)
  }

  /** A form made for a prompt. */
  function PromptedForm(s: Store, prompt: string, language: Language, uuid: nat, now: int): Form {
    var title := Headline(prompt, DEFAULT_TITLE);
    Form(title, Slugs.AllocatedSlug(SlugsOf(s.forms), "", title, "", uuid), Draft, language, [], None, now)
  }

  /** `formId` None means a form that is not stored yet and gets the row `newId`. */
  function StartSuggest(s: Store, formId: Option<string>, newId: string, prompt: string, spec: Spec,
                        hasFiles: bool, language: Language, uuids: Uuids, now: int): (Store, Outcome)
  {
    var language := KnownLanguage(language);
    var vague := TooVague(prompt, hasFiles);
    match formId
    case None => BeginOn(s, true, newId, PromptedForm(s, prompt, language, uuids.slug, now), prompt, spec, vague, language, now)
    case Some(id) =>
      if id !in s.forms then (s, NotFound)
      else if s.forms[id].status.ProcessingAI? then (s, Refused)
      else BeginOn(s, false, id, s.forms[id], prompt, spec, vague, language, now)
  }

  predicate Unreadable(fields: map<QuestionType, JsonValue>) {
    exists t :: t in fields && t.Valid() && ParseCount(fields[t]).None?
  }

  /** The request: the type counts are parsed before anything else. */
  function RequestSuggest(s: Store, formId: Option<string>, newId: string, prompt: string,
                          fields: map<QuestionType, JsonValue>, hasFiles: bool, language: Language,
                          uuids: Uuids, now: int): (Store, Outcome)
  {
    if Unreadable(fields) then (s, Refused)
    else StartSuggest(s, formId, newId, prompt, Readable(fields), hasFiles, language, uuids, now)
  }

  const EMPTY_JOB := AIJob("", OtherLanguage(""), 0, [], map[], 0, [], [], NoError, 0)

  /** The job of a form, or the blank job the code repairs a missing one with. */
  function JobOf(f: Form): AIJob {
    if f.aiJob.Some? then f.aiJob.value else EMPTY_JOB
  }

  function Failed(f: Form, reason: JobError, now: int): Form {
    f.(status := Draft, aiJob := Some(JobOf(f).(error := reason, clarifying := [], pending := [], updatedAt := now)), updatedAt := now)
  }

  /** The task could not be handed over: failed, unless the form has moved on. */
  function FailDispatch(s: Store, id: string, reason: JobError, now: int): (Store, Outcome) {
    if id !in s.forms || !s.forms[id].status.ProcessingAI? then (s, Done)
    else Save(s, id, Failed(s.forms[id], reason, now))
  }

  function Completed(f: Form, content: Content, errMsg: string, now: int): Form {
    match content
    case NoContent => Failed(f, if errMsg == "" then GenerateFailed else Reported(errMsg), now)
    case BadJson => Failed(f, InvalidOutput, now)
    case Reply(_, _, _) =>
      var v := Evaluate(content);
      var job := JobOf(f).(confidence := v.confidence, error := NoError, updatedAt := now);
      if v.clarify != [] then
        f.(status := NeedClarification, aiJob := Some(job.(clarifying := v.clarify, pending := [])), updatedAt := now)
      else
        f.(status := Draft, aiJob := Some(job.(clarifying := [], pending := v.questions)), updatedAt := now)
  }

  /** The agent's callback: applied only to a form that is still being processed. */
  function CompleteSuggest(s: Store, id: string, content: Content, errMsg: string, now: int): (Store, Outcome) {
    if id !in s.forms then (s, NotFound)
    else if !s.forms[id].status.ProcessingAI? then (s, Done)
    else Save(s, id, Completed(s.forms[id], content, errMsg, now))
  }

  const UNANSWERED := "(tidak dijawab)"

  function AnswerAt(answers: seq<string>, i: nat): string {
    if i < |answers| && !Blank(answers[i]) then TrimSpace(answers[i]) else UNANSWERED
  }

  function Paired(questions: seq<string>, answers: seq<string>): seq<ClarifyQA> {
    seq(|questions|, i requires 0 <= i < |questions| => ClarifyQA(questions[i], AnswerAt(answers, i)))
  }

  predicate AwaitsAnswers(f: Form) {
    f.aiJob.Some? && f.aiJob.value.clarifying != [] && f.status.NeedClarification?
  }

  function Submitted(f: Form, answers: seq<string>, now: int): Form
    requires f.aiJob.Some?
  {
    var job := f.aiJob.value;
    f.(status := ProcessingAI, updatedAt := now,
       aiJob := Some(job.(qaHistory := job.qaHistory + Paired(job.clarifying, answers), round := job.round + 1,
                          clarifying := [], confidence := 0, error := NoError, updatedAt := now)))
  }

  /** The user's answers: recorded, and the task goes out again, forced to a final result
      from the last round on. */
  function SubmitAnswers(s: Store, id: string, answers: seq<string>, now: int): (Store, Outcome) {
    if id !in s.forms then (s, NotFound)
    else if !AwaitsAnswers(s.forms[id]) then (s, Refused)
    else
      var f := Submitted(s.forms[id], answers, now);
      var job := f.aiJob.value;
      var (s', outcome) := Save(s, id, f);
      if outcome.Done? then
        (s'.(dispatches := s'.dispatches
             + [Dispatch(id, job.round, job.round >= MAX_CLARIFY_ROUNDS, TypeCounts.Restored(job.typeCounts))]), Done)
      else (s', outcome)
  }

  function Cleared(f: Form, now: int): Form {
    f.(aiJob := None, updatedAt := now,
       status := if f.status.ProcessingAI? || f.status.NeedClarification? then Draft else f.status)
  }

  function ClearJob(s: Store, id: string, now: int): (Store, Outcome) {
    if id !in s.forms then (s, NotFound) else Save(s, id, Cleared(s.forms[id], now))
  }

  predicate Stale(f: Form, cutoff: int) {
    f.status.ProcessingAI? && f.updatedAt <= cutoff
  }

  function ReapedRow(f: Form, cutoff: int, fails: bool, now: int): Form {
    if Stale(f, cutoff) && !fails then Failed(f, TimedOut, now) else f
  }

  function ReapedForms(forms: map<string, Form>, cutoff: int, failing: set<string>, now: int): map<string, Form> {
    map id | id in forms :: ReapedRow(forms[id], cutoff, id in failing, now)
  }

  /** Forms stuck in processing since the cutoff are failed; rows whose write fails stay. */
  function Reap(s: Store, cutoff: int, failing: set<string>, now: int): Store {
    s.(forms := ReapedForms(s.forms, cutoff, failing, now))
  }
}
