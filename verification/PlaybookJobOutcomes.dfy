/** What each writer of playbook jobs does, field by field: when a call is refused, which row it
    writes, and what that row then holds. */
module PlaybookJobOutcomes {
  import opened Text
  import opened PlaybookJobs

  /** What no writer but a refinement changes. */
  ghost predicate SameJob(job: Job, after: Job) {
    && after.userTitled == job.userTitled && after.prompt == job.prompt && after.source == job.source && after.event == job.event
    && after.revisions == job.revisions
  }

  ghost predicate FailsWith(job: Job, after: Job, reason: string, now: nat) {
    && SameJob(job, after) && after.title == job.title && after.content == job.content
    && after.status == Failed && after.error == Some(reason) && after.updatedAt == now
  }

  ghost predicate FinishesWith(job: Job, after: Job, content: string, now: nat) {
    && SameJob(job, after)
    && after.status == Success && after.content == content && after.error == None && after.updatedAt == now
  }

  /** Row `id` alone is written, if it is there and `due`. */
  ghost predicate Writes(jobs: Jobs, jobs': Jobs, id: Id, due: bool) {
    if id in jobs && due then id in jobs' && jobs' == jobs[id := jobs'[id]] else jobs' == jobs
  }

  // ----- new jobs -----

  /** A job in progress without content, under the title typed or, when that is blank, the one derived. */
  ghost predicate StartsAs(job: Job, title: string, derived: string, prompt: string, source: Source, event: Option<string>, now: nat) {
    && (job.userTitled <==> TrimSpace(title) != "")
    && job.title == (if job.userTitled then TrimSpace(title) else derived)
    && job.prompt == prompt && job.status == InProgress && job.content == "" && job.error == None
    && job.revisions == [] && job.source == source && job.event == event && job.updatedAt == now
  }

  /** A custom playbook needs a prompt or a document. */
  ghost predicate StartsCustom(jobs: Jobs, r: (Jobs, Outcome), id: Id, title: string, prompt: string, hasDocument: bool, now: nat) {
    && r.1 == (if TrimSpace(prompt) == "" && !hasDocument then Err(EmptyPrompt) else Ok)
    && (r.1.Err? ==> r.0 == jobs)
    && (r.1.Ok? ==>
          && id in r.0 && r.0 == jobs[id := r.0[id]]
          && StartsAs(r.0[id], title, Headline(prompt, "Playbook custom"), prompt, Custom, None, now))
  }

  lemma CustomOutcome(jobs: Jobs, id: Id, title: string, prompt: string, hasDocument: bool, now: nat)
    ensures StartsCustom(jobs, CreatedCustom(jobs, id, title, prompt, hasDocument, now), id, title, prompt, hasDocument, now)
  {
  }

  /** The link of the event, and nothing else of any job, goes; `stamp` when the row was saved for it. */
  ghost predicate Unlinks(jobs: Jobs, jobs': Jobs, event: string, stamp: Option<nat>) {
    && jobs'.Keys == jobs.Keys
    && forall i :: i in jobs ==>
         jobs'[i] == if jobs[i].event != Some(event) then jobs[i]
                     else if stamp.Some? then jobs[i].(event := None, updatedAt := stamp.value)
                     else jobs[i].(event := None)
  }

  /** A playbook for an event: the old link is taken off first, if it was found; each failing call stops
      there. It succeeds exactly when the row can be written and no link is in the way. */
  ghost predicate StartsForEvent(jobs: Jobs, r: (Jobs, Outcome), id: Id, event: string, name: string, title: string,
                                 prompt: string, w: Weather, now: nat) {
    var linked := exists i :: i in jobs && jobs[i].event == Some(event);
    var freed := linked && !w.lookupFails && !w.unlinkFails;
    && r.1 == (if linked && !w.lookupFails && w.unlinkFails then Err(WriteFailed)
               else if w.writeFails then Err(WriteFailed)
               else if linked && w.lookupFails then Err(Conflict)
               else Ok)
    && (r.1.Err? ==> if freed then Unlinks(jobs, r.0, event, Some(now)) else r.0 == jobs)
    && (r.1.Ok? ==>
          && id in r.0 && StartsAs(r.0[id], title, "Playbook Event: " + name, prompt, FromEvent, Some(event), now)
          && r.0.Keys == jobs.Keys + {id}
          && if freed then Unlinks(jobs - {id}, r.0 - {id}, event, Some(now)) else r.0 - {id} == jobs - {id})
  }

  lemma UnlinkedUnlinks(jobs: Jobs, event: string, stamp: Option<nat>, id: Id)
    ensures Unlinks(jobs, Unlinked(jobs, event, stamp), event, stamp)
    ensures Unlinks(jobs - {id}, Unlinked(jobs, event, stamp) - {id}, event, stamp)
    ensures !Linked(Unlinked(jobs, event, stamp), event)
  {
  }

  lemma EventOutcome(jobs: Jobs, id: Id, event: string, name: string, title: string, prompt: string, w: Weather, now: nat)
    ensures StartsForEvent(jobs, CreatedForEvent(jobs, id, event, name, title, prompt, w, now), id, event, name, title, prompt, w, now)
  {
    UnlinkedUnlinks(jobs, event, Some(now), id);
    var r := CreatedForEvent(jobs, id, event, name, title, prompt, w, now);
    if r.1.Ok? {
      var freed := if !w.lookupFails && Linked(jobs, event) then Unlinked(jobs, event, Some(now)) else jobs;
      assert r.0 - {id} == freed - {id};
    }
  }

  // ----- results -----

  /** The callback: content finishes the job, under the agent's title unless the user typed one; without
      content the job fails with the reason given. */
  ghost predicate Takes(job: Job, after: Job, content: string, title: Option<string>, error: string, now: nat) {
    if content == "" then FailsWith(job, after, if error == "" then "Generate playbook gagal." else error, now)
    else
      && FinishesWith(job, after, content, now)
      && after.title == if title.Some? && TrimSpace(title.value) != "" && !job.userTitled then TrimSpace(title.value) else job.title
  }

  lemma CompleteOutcome(job: Job, content: string, title: Option<string>, error: string, now: nat)
    ensures Takes(job, Completed(job, content, title, error, now), content, title, error, now)
  {
  }

  /** Only a failed job is tried again. */
  ghost predicate Retries(jobs: Jobs, r: (Jobs, Outcome), id: Id, now: nat) {
    && r.1 == (if id !in jobs then Err(NotFound) else if jobs[id].status == Failed then Ok else Err(NotFailed))
    && Writes(jobs, r.0, id, r.1.Ok?)
    && (r.1.Ok? ==>
          var job, after := jobs[id], r.0[id];
          && SameJob(job, after) && after.title == job.title && after.content == job.content
          && after.status == InProgress && after.error == None && after.updatedAt == now)
  }

  lemma RetryOutcome(jobs: Jobs, id: Id, now: nat)
    ensures Retries(jobs, Retried(jobs, id, now), id, now)
  {
  }

  /** A refinement needs an instruction and a finished job with content; it goes at the end of the
      job's history. */
  ghost predicate Refines(jobs: Jobs, r: (Jobs, Outcome), id: Id, instruction: string, now: nat) {
    && r.1 == (if TrimSpace(instruction) == "" then Err(EmptyInstruction)
               else if id !in jobs then Err(NotFound)
               else if jobs[id].status != Success then Err(NotReady)
               else if jobs[id].content == "" then Err(NoContent)
               else Ok)
    && Writes(jobs, r.0, id, r.1.Ok?)
    && (r.1.Ok? ==>
          var job, after := jobs[id], r.0[id];
          && after.revisions == job.revisions + [Revision(instruction, now)] && SameJob(job, after.(revisions := job.revisions))
          && after.title == job.title && after.content == job.content && after.error == job.error
          && after.status == Updating && after.updatedAt == now)
  }

  lemma RefineOutcome(jobs: Jobs, id: Id, instruction: string, now: nat)
    ensures Refines(jobs, Refined(jobs, id, instruction, now), id, instruction, now)
  {
  }

  // ----- in a run -----

  /** Exactly the running jobs that were silent for the time fail, unless their write does. */
  ghost predicate Reaps(jobs: Jobs, jobs': Jobs, now: nat, olderThan: nat, failing: set<Id>, reason: string) {
    && jobs'.Keys == jobs.Keys
    && forall id :: id in jobs ==> ReapsOne(jobs[id], jobs'[id], now, olderThan, id in failing, reason)
  }

  ghost predicate ReapsOne(job: Job, after: Job, now: nat, olderThan: nat, fails: bool, reason: string) {
    if (job.status == InProgress || job.status == Updating) && job.updatedAt + olderThan <= now && !fails
    then FailsWith(job, after, reason, now) else after == job
  }

  /** At boot every running job fails, however recent. */
  ghost predicate Interrupts(jobs: Jobs, jobs': Jobs, now: nat) {
    && jobs'.Keys == jobs.Keys
    && forall id :: id in jobs ==> InterruptsOne(jobs[id], jobs'[id], now)
  }

  ghost predicate InterruptsOne(job: Job, after: Job, now: nat) {
    if job.status == InProgress || job.status == Updating then FailsWith(job, after, "Proses terputus", now) else after == job
  }

  ghost predicate DoesItsWork(jobs: Jobs, op: Op, now: nat, jobs': Jobs) {
    match op
    case CreateCustom(id, title, prompt, hasDocument) =>
      id !in jobs ==> exists r :: StartsCustom(jobs, (jobs', r), id, title, prompt, hasDocument, now)
    case CreateForEvent(id, event, name, title, prompt, w) =>
      id !in jobs ==> exists r :: StartsForEvent(jobs, (jobs', r), id, event, name, title, prompt, w, now)
    case Complete(id, content, title, error) =>
      Writes(jobs, jobs', id, true) && (id in jobs ==> Takes(jobs[id], jobs'[id], content, title, error, now))
    case DispatchFails(id, reason) =>
      var running := id in jobs && (jobs[id].status == InProgress || jobs[id].status == Updating);
      Writes(jobs, jobs', id, running) && (running ==> FailsWith(jobs[id], jobs'[id], reason, now))
    case Retry(id) => exists r :: Retries(jobs, (jobs', r), id, now)
    case Refine(id, instruction) => exists r :: Refines(jobs, (jobs', r), id, instruction, now)
    case ToolSave(id, content) =>
      Writes(jobs, jobs', id, content != "")
      && (id in jobs && content != "" ==> FinishesWith(jobs[id], jobs'[id], content, now) && jobs'[id].title == jobs[id].title)
    case ToolFail(id, reason) => Writes(jobs, jobs', id, true) && (id in jobs ==> FailsWith(jobs[id], jobs'[id], reason, now))
    case ReapStale(olderThan, failing) => Reaps(jobs, jobs', now, olderThan, failing, "Waktu habis")
    case Boot => Interrupts(jobs, jobs', now)
    case Delete(id) => jobs' == jobs - {id}
    case DeleteEvent(event) => Unlinks(jobs, jobs', event, None)
  }

  lemma CreateDoesItsWork(jobs: Jobs, op: Op, now: nat)
    requires op.CreateCustom? || op.CreateForEvent?
    ensures DoesItsWork(jobs, op, now, Apply(jobs, op, now))
  {
    if op.CreateCustom? {
      CustomOutcome(jobs, op.id, op.title, op.prompt, op.hasDocument, now);
      var r := CreatedCustom(jobs, op.id, op.title, op.prompt, op.hasDocument, now);
      assert r == (r.0, r.1);
    } else {
      EventOutcome(jobs, op.id, op.event, op.name, op.title, op.prompt, op.w, now);
      var r := CreatedForEvent(jobs, op.id, op.event, op.name, op.title, op.prompt, op.w, now);
      assert r == (r.0, r.1);
    }
  }

  lemma RetryDoesItsWork(jobs: Jobs, op: Op, now: nat)
    requires op.Retry? || op.Refine?
    ensures DoesItsWork(jobs, op, now, Apply(jobs, op, now))
  {
    if op.Retry? {
      RetryOutcome(jobs, op.id, now);
      var r := Retried(jobs, op.id, now);
      assert r == (r.0, r.1);
    } else {
      RefineOutcome(jobs, op.id, op.instruction, now);
      var r := Refined(jobs, op.id, op.instruction, now);
      assert r == (r.0, r.1);
    }
  }

  lemma ResultDoesItsWork(jobs: Jobs, op: Op, now: nat)
    requires op.Complete? || op.DispatchFails? || op.ToolSave? || op.ToolFail?
    ensures DoesItsWork(jobs, op, now, Apply(jobs, op, now))
  {
    match op {
      case Complete(id, content, title, error) =>
        if id in jobs { CompleteOutcome(jobs[id], content, title, error, now); }
      case DispatchFails(id, _) =>
        assert id in jobs ==> jobs[id := jobs[id]] == jobs;
      case _ =>
    }
  }

  lemma SweepDoesItsWork(jobs: Jobs, op: Op, now: nat)
    requires op.ReapStale? || op.Boot? || op.Delete? || op.DeleteEvent?
    ensures DoesItsWork(jobs, op, now, Apply(jobs, op, now))
  {
    if op.DeleteEvent? {
      UnlinkedUnlinks(jobs, op.event, None, 0);
    }
  }

  /** Whoever writes next, in whatever table a run has led to, does exactly its own work. */
  lemma {:induction false} EveryWriterDoesItsWork(ops: seq<(Op, nat)>, op: Op, now: nat)
    ensures DoesItsWork(Run(ops), op, now, Apply(Run(ops), op, now))
  {
    if op.CreateCustom? || op.CreateForEvent? {
      CreateDoesItsWork(Run(ops), op, now);
    } else if op.Retry? || op.Refine? {
      RetryDoesItsWork(Run(ops), op, now);
    } else if op.Complete? || op.DispatchFails? || op.ToolSave? || op.ToolFail? {
      ResultDoesItsWork(Run(ops), op, now);
    } else {
      SweepDoesItsWork(Run(ops), op, now);
    }
  }
}
