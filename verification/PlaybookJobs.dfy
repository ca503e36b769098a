/** Playbook jobs: rows written by the service, by the agent's callback, by the agent's own tools, by
    the sweep at boot and by the reaper. */
module PlaybookJobs {
  import opened Text
  import opened Collections

  type Id = nat

  datatype Status = InProgress | Updating | Success | Failed

  datatype Revision = Revision(instruction: string, at: nat)

  datatype Source = Custom | FromEvent

  /** `content` is the stored JSON text, empty when there is none. */
  datatype Job = Job(title: string, userTitled: bool, prompt: string, status: Status, content: string, error: Option<string>,
                     revisions: seq<Revision>, source: Source, event: Option<string>, updatedAt: nat)

  type Jobs = map<Id, Job>

  datatype Failure = EmptyPrompt | EmptyInstruction | NotFound | NotFailed | NotReady | NoContent | WriteFailed | Conflict

  datatype Outcome = Ok | Err(failure: Failure)

  predicate Running(job: Job) {
    job.status.InProgress? || job.status.Updating?
  }

  // ----- one job -----

  const DEFAULT_TITLE := "Playbook custom"

  function NewJob(title: string, otherwise: string, prompt: string, source: Source, event: Option<string>, now: nat): Job {
    var typed := TrimSpace(title);
    Job(if typed != "" then typed else otherwise, typed != "", prompt, InProgress, "", None, [], source, event, now)
  }

  function FailedWith(job: Job, reason: string, now: nat): Job {
    job.(status := Failed, error := Some(reason), updatedAt := now)
  }

  function FinishedWith(job: Job, content: string, now: nat): Job {
    job.(status := Success, content := content, error := None, updatedAt := now)
  }

  /** A title the user typed is never replaced; otherwise the agent's is taken when it has one. */
  function Retitled(job: Job, title: Option<string>): Job {
    if !job.userTitled && title.Some? && TrimSpace(title.value) != "" then job.(title := TrimSpace(title.value)) else job
  }

  const GENERATE_FAILED := "Generate playbook gagal."

  /** The callback; `title` is what the content says its title is, if it can be read. */
  function Completed(job: Job, content: string, title: Option<string>, error: string, now: nat): Job {
    if content != "" then Retitled(FinishedWith(job, content, now), title)
    else FailedWith(job, if error == "" then GENERATE_FAILED else error, now)
  }

  /** Only a running job is turned down: a result that came first stays. */
  function MarkedFailed(job: Job, reason: string, now: nat): Job {
    if Running(job) then FailedWith(job, reason, now) else job
  }

  predicate Stale(job: Job, now: nat, olderThan: nat) {
    Running(job) && job.updatedAt + olderThan <= now
  }

  // ----- the table -----

  predicate Linked(jobs: Jobs, event: string) {
    exists id :: id in jobs && jobs[id].event == Some(event)
  }

  /** Every job linked to the event loses the link; with the unique index there is at most one. The
      service saves the row, which stamps it; the foreign key of a deleted event does not. */
  function Unlinked(jobs: Jobs, event: string, stamp: Option<nat>): Jobs {
    map id | id in jobs ::
      if jobs[id].event == Some(event) then
        jobs[id].(event := None, updatedAt := if stamp.Some? then stamp.value else jobs[id].updatedAt)
      else jobs[id]
  }

  const TIMED_OUT := "Waktu habis"

  /** `failing` are the rows whose update fails; the reaper goes on with the next. */
  function Reaped(jobs: Jobs, now: nat, olderThan: nat, failing: set<Id>): Jobs {
    map id | id in jobs :: if id !in failing && Stale(jobs[id], now, olderThan) then FailedWith(jobs[id], TIMED_OUT, now) else jobs[id]
  }

  const INTERRUPTED := "Proses terputus"

  function Interrupted(jobs: Jobs, now: nat): Jobs {
    map id | id in jobs :: MarkedFailed(jobs[id], INTERRUPTED, now)
  }

  /** The faults of one call: reading the linked job, unlinking it, writing the row. */
  datatype Weather = Weather(lookupFails: bool, unlinkFails: bool, writeFails: bool)

  /** The old link goes before the new row comes, so a failure in between leaves the event without. */
  function CreatedForEvent(jobs: Jobs, id: Id, event: string, name: string, title: string, prompt: string, w: Weather, now: nat): (Jobs, Outcome) {
    var prev := !w.lookupFails && Linked(jobs, event);
    if prev && w.unlinkFails then (jobs, Err(WriteFailed))
    else
      var freed := if prev then Unlinked(jobs, event, Some(now)) else jobs;
      if w.writeFails then (freed, Err(WriteFailed))
      else if Linked(freed, event) then (freed, Err(Conflict))
      else (freed[id := NewJob(title, "Playbook Event: " + name, prompt, FromEvent, Some(event), now)], Ok)
  }

  function CreatedCustom(jobs: Jobs, id: Id, title: string, prompt: string, hasDocument: bool, now: nat): (Jobs, Outcome) {
    if TrimSpace(prompt) == "" && !hasDocument then (jobs, Err(EmptyPrompt))
    else (jobs[id := NewJob(title, Headline(prompt, DEFAULT_TITLE), prompt, Custom, None, now)], Ok)
  }

  function Retried(jobs: Jobs, id: Id, now: nat): (Jobs, Outcome) {
    if id !in jobs then (jobs, Err(NotFound))
    else if !jobs[id].status.Failed? then (jobs, Err(NotFailed))
    else (jobs[id := jobs[id].(status := InProgress, error := None, updatedAt := now)], Ok)
  }

  function Refined(jobs: Jobs, id: Id, instruction: string, now: nat): (Jobs, Outcome) {
    if TrimSpace(instruction) == "" then (jobs, Err(EmptyInstruction))
    else if id !in jobs then (jobs, Err(NotFound))
    else if !jobs[id].status.Success? then (jobs, Err(NotReady))
    else if jobs[id].content == "" then (jobs, Err(NoContent))
    else
      (jobs[id := jobs[id].(revisions := jobs[id].revisions + [Revision(instruction, now)], status := Updating, updatedAt := now)], Ok)
  }

  // ----- the service -----

  class PlaybookJobService {
    var jobs: Jobs

    constructor ()
      ensures jobs == map[]
    {
      jobs := map[];
    }

    method CreateCustom(id: Id, title: string, prompt: string, hasDocument: bool, now: nat) returns (r: Outcome)
      modifies this
      ensures (jobs, r) == CreatedCustom(old(jobs), id, title, prompt, hasDocument, now)
    {
      if TrimSpace(prompt) == "" && !hasDocument {
        return Err(EmptyPrompt);
      }
      var typed := TrimSpace(title);
      var userTitled := typed != "";
      var shown := typed;
      if !userTitled {
        shown := Headline(prompt, DEFAULT_TITLE);
      }
      jobs := jobs[id := Job(shown, userTitled, prompt, InProgress, "", None, [], Custom, None, now)];
      return Ok;
    }

    method CreateForEvent(id: Id, event: string, name: string, title: string, prompt: string, w: Weather, now: nat) returns (r: Outcome)
      modifies this
      ensures (jobs, r) == CreatedForEvent(old(jobs), id, event, name, title, prompt, w, now)
    {
      if !w.lookupFails && Linked(jobs, event) {
        if w.unlinkFails {
          return Err(WriteFailed);
        }
        jobs := Unlinked(jobs, event, Some(now));
      }
      if w.writeFails {
        return Err(WriteFailed);
      }
      if Linked(jobs, event) {
        return Err(Conflict);
      }
      jobs := jobs[id := NewJob(title, "Playbook Event: " + name, prompt, FromEvent, Some(event), now)];
      return Ok;
    }

    method Complete(id: Id, content: string, title: Option<string>, error: string, now: nat) returns (r: Outcome)
      modifies this
      ensures r == (if id in old(jobs) then Ok else Err(NotFound))
      ensures jobs == if id in old(jobs) then old(jobs)[id := Completed(old(jobs)[id], content, title, error, now)] else old(jobs)
    {
      if id !in jobs {
        return Err(NotFound);
      }
      var job := jobs[id];
      if content != "" {
        job := job.(status := Success, content := content, error := None);
        if !job.userTitled && title.Some? {
          var t := TrimSpace(title.value);
          if t != "" {
            job := job.(title := t);
          }
        }
      } else {
        var reason := error;
        if reason == "" {
          reason := GENERATE_FAILED;
        }
        job := job.(status := Failed, error := Some(reason));
      }
      jobs := jobs[id := job.(updatedAt := now)];
      return Ok;
    }

    method MarkFailed(id: Id, reason: string, now: nat)
      modifies this
      ensures jobs == if id in old(jobs) then old(jobs)[id := MarkedFailed(old(jobs)[id], reason, now)] else old(jobs)
    {
      if id !in jobs {
        return;
      }
      var job := jobs[id];
      if !job.status.InProgress? && !job.status.Updating? {
        assert jobs[id := job] == jobs;
        return;
      }
      jobs := jobs[id := job.(status := Failed, error := Some(reason), updatedAt := now)];
    }

    method Retry(id: Id, now: nat) returns (r: Outcome)
      modifies this
      ensures (jobs, r) == Retried(old(jobs), id, now)
    {
      if id !in jobs {
        return Err(NotFound);
      }
      if !jobs[id].status.Failed? {
        return Err(NotFailed);
      }
      jobs := jobs[id := jobs[id].(status := InProgress, error := None, updatedAt := now)];
      return Ok;
    }

    method Refine(id: Id, instruction: string, now: nat) returns (r: Outcome)
      modifies this
      ensures (jobs, r) == Refined(old(jobs), id, instruction, now)
    {
      if TrimSpace(instruction) == "" {
        return Err(EmptyInstruction);
      }
      if id !in jobs {
        return Err(NotFound);
      }
      if !jobs[id].status.Success? {
        return Err(NotReady);
      }
      if jobs[id].content == "" {
        return Err(NoContent);
      }
      var revisions := jobs[id].revisions + [Revision(instruction, now)];
      jobs := jobs[id := jobs[id].(revisions := revisions, status := Updating, updatedAt := now)];
      return Ok;
    }

    method ReapStale(now: nat, olderThan: nat, failing: set<Id>)
      modifies this
      ensures jobs == Reaped(old(jobs), now, olderThan, failing)
    {
      var todo := jobs.Keys;
      ghost var was := jobs;
      while todo != {}
        invariant todo <= was.Keys && jobs.Keys == was.Keys
        invariant forall id :: id in was ==> jobs[id] == if id in todo then was[id] else Reaped(was, now, olderThan, failing)[id]
        decreases |todo|
      {
        var id :| id in todo;
        todo := todo - {id};
        var job := jobs[id];
        if !job.status.InProgress? && !job.status.Updating? {
          continue;
        }
        if now < job.updatedAt + olderThan {
          continue;
        }
        if id !in failing {
          jobs := jobs[id := job.(status := Failed, error := Some(TIMED_OUT), updatedAt := now)];
        }
      }
    }
  }

  // ----- every writer, in any order -----

  datatype Op =
    | CreateCustom(id: Id, title: string, prompt: string, hasDocument: bool)
    | CreateForEvent(id: Id, event: string, name: string, title: string, prompt: string, w: Weather)
    | Complete(id: Id, content: string, itsTitle: Option<string>, error: string)
    | DispatchFails(id: Id, reason: string)
    | Retry(id: Id)
    | Refine(id: Id, instruction: string)
    | ToolSave(id: Id, content: string)
    | ToolFail(id: Id, reason: string)
    | ReapStale(olderThan: nat, failing: set<Id>)
    | Boot
    | Delete(id: Id)
    | DeleteEvent(event: string)

  predicate New(op: Op, jobs: Jobs) {
    op.CreateCustom? || op.CreateForEvent? ==> op.id !in jobs
  }

  /** The agent's tools check nothing but that the job exists, and that there is some content. */
  function Written(jobs: Jobs, id: Id, job: Job -> Job): Jobs {
    if id in jobs then jobs[id := job(jobs[id])] else jobs
  }

  /** The table after one call at `now`. Ids of new jobs are fresh. */
  function Apply(jobs: Jobs, op: Op, now: nat): Jobs {
    if !New(op, jobs) then jobs
    else
      match op
      case CreateCustom(id, title, prompt, hasDocument) => CreatedCustom(jobs, id, title, prompt, hasDocument, now).0
      case CreateForEvent(id, event, name, title, prompt, w) => CreatedForEvent(jobs, id, event, name, title, prompt, w, now).0
      case Complete(id, content, title, error) => Written(jobs, id, job => Completed(job, content, title, error, now))
      case DispatchFails(id, reason) => Written(jobs, id, job => MarkedFailed(job, reason, now))
      case Retry(id) => Retried(jobs, id, now).0
      case Refine(id, instruction) => Refined(jobs, id, instruction, now).0
      case ToolSave(id, content) => if content == "" then jobs else Written(jobs, id, job => FinishedWith(job, content, now))
      case ToolFail(id, reason) => Written(jobs, id, job => FailedWith(job, reason, now))
      case ReapStale(olderThan, failing) => Reaped(jobs, now, olderThan, failing)
      case Boot => Interrupted(jobs, now)
      case Delete(id) => jobs - {id}
      case DeleteEvent(event) => Unlinked(jobs, event, None)
  }

  /** Operations with the times they happen at. */
  function Run(ops: seq<(Op, nat)>): Jobs {
    if ops == [] then map[] else Apply(Run(ops[..|ops| - 1]), ops[|ops| - 1].0, ops[|ops| - 1].1)
  }

  // ----- what holds of every job -----

  predicate Sound(job: Job) {
    && (job.error.Some? <==> job.status.Failed?)
    && (job.status.Success? || job.status.Updating? ==> job.content != "")
    && job.title != ""
  }

  /** What may become of a job: revisions are added at the end, a typed title stays, the link to the
      event is kept or lost, and prompt and source never change. */
  predicate Follows(before: Job, after: Job) {
    && before.revisions <= after.revisions
    && before.userTitled == after.userTitled && (before.userTitled ==> before.title == after.title)
    && (after.event == before.event || after.event.None?)
    && before.prompt == after.prompt && before.source == after.source
  }

  ghost predicate AllSound(jobs: Jobs) {
    forall id :: id in jobs ==> Sound(jobs[id])
  }

  ghost predicate OnePerEvent(jobs: Jobs) {
    forall i, j :: i in jobs && j in jobs && i != j && jobs[i].event.Some? ==> jobs[i].event != jobs[j].event
  }

  ghost predicate AllFollow(before: Jobs, after: Jobs) {
    forall id :: id in before && id in after ==> Follows(before[id], after[id])
  }

  /** One job written over by one that follows it. */
  lemma OneWritten(jobs: Jobs, id: Id, job: Job)
    requires AllSound(jobs) && OnePerEvent(jobs) && id in jobs && Sound(job) && Follows(jobs[id], job)
    ensures AllSound(jobs[id := job]) && OnePerEvent(jobs[id := job]) && AllFollow(jobs, jobs[id := job])
  {
  }

  lemma OneAdded(jobs: Jobs, id: Id, job: Job)
    requires AllSound(jobs) && OnePerEvent(jobs) && id !in jobs && Sound(job)
    requires job.event.Some? ==> !Linked(jobs, job.event.value)
    ensures AllSound(jobs[id := job]) && OnePerEvent(jobs[id := job]) && AllFollow(jobs, jobs[id := job])
  {
  }

  lemma UnlinkKeeps(jobs: Jobs, event: string, stamp: Option<nat>)
    requires AllSound(jobs) && OnePerEvent(jobs)
    ensures var after := Unlinked(jobs, event, stamp);
            AllSound(after) && OnePerEvent(after) && AllFollow(jobs, after) && !Linked(after, event)
  {
  }

  lemma NewJobIsSound(title: string, otherwise: string, prompt: string, source: Source, event: Option<string>, now: nat)
    requires otherwise != ""
    ensures Sound(NewJob(title, otherwise, prompt, source, event, now))
  {
  }

  lemma CreateForEventKeeps(jobs: Jobs, id: Id, event: string, name: string, title: string, prompt: string, w: Weather, now: nat)
    requires AllSound(jobs) && OnePerEvent(jobs) && id !in jobs
    ensures var after := CreatedForEvent(jobs, id, event, name, title, prompt, w, now).0;
            AllSound(after) && OnePerEvent(after) && AllFollow(jobs, after)
  {
    UnlinkKeeps(jobs, event, Some(now));
    NewJobIsSound(title, "Playbook Event: " + name, prompt, FromEvent, Some(event), now);
    var freed := if !w.lookupFails && Linked(jobs, event) then Unlinked(jobs, event, Some(now)) else jobs;
    if !Linked(freed, event) {
      OneAdded(freed, id, NewJob(title, "Playbook Event: " + name, prompt, FromEvent, Some(event), now));
    }
  }

  lemma CreateCustomKeeps(jobs: Jobs, id: Id, title: string, prompt: string, hasDocument: bool, now: nat)
    requires AllSound(jobs) && OnePerEvent(jobs) && id !in jobs
    ensures var after := CreatedCustom(jobs, id, title, prompt, hasDocument, now).0;
            AllSound(after) && OnePerEvent(after) && AllFollow(jobs, after)
  {
    NewJobIsSound(title, Headline(prompt, DEFAULT_TITLE), prompt, Custom, None, now);
    OneAdded(jobs, id, NewJob(title, Headline(prompt, DEFAULT_TITLE), prompt, Custom, None, now));
  }

  lemma CompletedFollows(job: Job, content: string, title: Option<string>, error: string, now: nat)
    requires Sound(job)
    ensures Sound(Completed(job, content, title, error, now)) && Follows(job, Completed(job, content, title, error, now))
  {
  }

  lemma RetryKeeps(jobs: Jobs, id: Id, now: nat)
    requires AllSound(jobs) && OnePerEvent(jobs)
    ensures var after := Retried(jobs, id, now).0; AllSound(after) && OnePerEvent(after) && AllFollow(jobs, after)
  {
    if id in jobs && jobs[id].status.Failed? {
      OneWritten(jobs, id, jobs[id].(status := InProgress, error := None, updatedAt := now));
    }
  }

  lemma RefineKeeps(jobs: Jobs, id: Id, instruction: string, now: nat)
    requires AllSound(jobs) && OnePerEvent(jobs)
    ensures var after := Refined(jobs, id, instruction, now).0; AllSound(after) && OnePerEvent(after) && AllFollow(jobs, after)
  {
    if id in jobs && jobs[id].status.Success? && jobs[id].content != "" {
      OneWritten(jobs, id, jobs[id].(revisions := jobs[id].revisions + [Revision(instruction, now)], status := Updating, updatedAt := now));
    }
  }

  lemma ReapKeeps(jobs: Jobs, now: nat, olderThan: nat, failing: set<Id>)
    requires AllSound(jobs) && OnePerEvent(jobs)
    ensures var after := Reaped(jobs, now, olderThan, failing); AllSound(after) && OnePerEvent(after) && AllFollow(jobs, after)
  {
  }

  lemma BootKeeps(jobs: Jobs, now: nat)
    requires AllSound(jobs) && OnePerEvent(jobs)
    ensures AllSound(Interrupted(jobs, now)) && OnePerEvent(Interrupted(jobs, now)) && AllFollow(jobs, Interrupted(jobs, now))
  {
  }

  lemma CreateKeeps(jobs: Jobs, op: Op, now: nat)
    requires AllSound(jobs) && OnePerEvent(jobs) && (op.CreateCustom? || op.CreateForEvent?)
    ensures AllSound(Apply(jobs, op, now)) && OnePerEvent(Apply(jobs, op, now)) && AllFollow(jobs, Apply(jobs, op, now))
  {
    if op.id !in jobs {
      match op {
        case CreateCustom(id, title, prompt, hasDocument) => CreateCustomKeeps(jobs, id, title, prompt, hasDocument, now);
        case CreateForEvent(id, event, name, title, prompt, w) => CreateForEventKeeps(jobs, id, event, name, title, prompt, w, now);
      }
    }
  }

  lemma ApplyKeeps(jobs: Jobs, op: Op, now: nat)
    requires AllSound(jobs) && OnePerEvent(jobs)
    ensures AllSound(Apply(jobs, op, now)) && OnePerEvent(Apply(jobs, op, now)) && AllFollow(jobs, Apply(jobs, op, now))
  {
    if op.CreateCustom? || op.CreateForEvent? {
      CreateKeeps(jobs, op, now);
    } else {
      match op {
        case Complete(id, content, title, error) =>
          if id in jobs {
            CompletedFollows(jobs[id], content, title, error, now);
            OneWritten(jobs, id, Completed(jobs[id], content, title, error, now));
          }
        case DispatchFails(id, reason) =>
          if id in jobs { OneWritten(jobs, id, MarkedFailed(jobs[id], reason, now)); }
        case Retry(id) => RetryKeeps(jobs, id, now);
        case Refine(id, instruction) => RefineKeeps(jobs, id, instruction, now);
        case ToolSave(id, content) =>
          if id in jobs && content != "" { OneWritten(jobs, id, FinishedWith(jobs[id], content, now)); }
        case ToolFail(id, reason) =>
          if id in jobs { OneWritten(jobs, id, FailedWith(jobs[id], reason, now)); }
        case ReapStale(olderThan, failing) => ReapKeeps(jobs, now, olderThan, failing);
        case Boot => BootKeeps(jobs, now);
        case Delete(_) =>
        case DeleteEvent(event) => UnlinkKeeps(jobs, event, None);
      }
    }
  }

  /** In every reachable table a job has an error message exactly when it failed, has content when
      it is finished or being revised, has a title, and no event is linked to two jobs. */
  lemma {:induction false} ReachableJobsAreSound(ops: seq<(Op, nat)>)
    ensures AllSound(Run(ops)) && OnePerEvent(Run(ops))
  {
    if ops != [] {
      ReachableJobsAreSound(ops[..|ops| - 1]);
      ApplyKeeps(Run(ops[..|ops| - 1]), ops[|ops| - 1].0, ops[|ops| - 1].1);
    }
  }

  /** Whoever writes next, in a reachable table: every job still there follows from what it was. */
  lemma {:induction false} EveryWriterFollows(ops: seq<(Op, nat)>, op: Op, now: nat, id: Id)
    requires id in Run(ops) && id in Apply(Run(ops), op, now)
    ensures Follows(Run(ops)[id], Apply(Run(ops), op, now)[id])
  {
    ReachableJobsAreSound(ops);
    ApplyKeeps(Run(ops), op, now);
  }

  /** So over any stretch in which the job is not deleted: the history of revisions only grows, a
      typed title never changes, and a lost link does not come back. */
  lemma {:induction false} HistoryOnlyGrows(ops: seq<(Op, nat)>, n: nat, id: Id)
    requires n <= |ops| && forall k :: n <= k <= |ops| ==> id in Run(ops[..k])
    ensures id in Run(ops) && Follows(Run(ops[..n])[id], Run(ops)[id])
  {
    TakeAll(ops);
    if n < |ops| {
      var m := |ops| - 1;
      forall k | n <= k <= m ensures id in Run(ops[..m][..k]) {
        assert ops[..m][..k] == ops[..k];
      }
      HistoryOnlyGrows(ops[..m], n, id);
      TakeTake(ops, n);
      EveryWriterFollows(ops[..m], ops[m].0, ops[m].1, id);
    }
  }

  /** A refinement of a finished job is never refused for want of content. */
  lemma {:induction false} FinishedCanBeRefined(ops: seq<(Op, nat)>, id: Id, instruction: string, now: nat)
    requires TrimSpace(instruction) != "" && id in Run(ops)
    ensures Refined(Run(ops), id, instruction, now).1 == if Run(ops)[id].status.Success? then Ok else Err(NotReady)
  {
    ReachableJobsAreSound(ops);
  }

  /** Generating for an event moves its link: afterwards the new job alone holds it, whoever held it
      before. When the call fails, the event keeps its job, except exactly when the old link went and
      the new row could not be written: then it has none. */
  lemma {:induction false} GeneratingTakesTheLink(ops: seq<(Op, nat)>, id: Id, event: string, name: string, title: string, prompt: string, w: Weather, now: nat)
    requires id !in Run(ops)
    ensures var (after, r) := CreatedForEvent(Run(ops), id, event, name, title, prompt, w, now);
            && (r.Ok? ==> id in after && forall i :: i in after ==> (after[i].event == Some(event) <==> i == id))
            && (r.Err? ==> after == Run(ops) || (!Linked(after, event) && w.writeFails))
            && (r == Err(Conflict) <==> Linked(Run(ops), event) && w.lookupFails && !w.writeFails)
            && (Linked(Run(ops), event) ==>
                  (!Linked(after, event) <==> !w.lookupFails && !w.unlinkFails && w.writeFails))
  {
    ReachableJobsAreSound(ops);
    UnlinkKeeps(Run(ops), event, Some(now));
  }

  /** After the sweep at boot nothing is running; after the reaper nothing is that has been silent
      for too long, save the rows it could not write. */
  lemma NothingIsLeftStuck(ops: seq<(Op, nat)>, now: nat, olderThan: nat, failing: set<Id>, id: Id)
    requires id in Run(ops) && olderThan > 0
    ensures !Running(Apply(Run(ops), Boot, now)[id])
    ensures id !in failing ==> !Stale(Apply(Run(ops), ReapStale(olderThan, failing), now)[id], now, olderThan)
    ensures !Stale(Run(ops)[id], now, olderThan) ==> Apply(Run(ops), ReapStale(olderThan, failing), now)[id] == Run(ops)[id]
  {
  }

  /** What takes a finished job out of its state: a report of failure by callback or tool, a
      refinement, or its deletion. */
  predicate Unfinishes(op: Op, id: Id) {
    match op
    case Complete(at, content, _, _) => at == id && content == ""
    case ToolFail(at, _) => at == id
    case Refine(at, instruction) => at == id && TrimSpace(instruction) != ""
    case Delete(at) => at == id
    case _ => false
  }

  lemma FinishedStays(jobs: Jobs, op: Op, now: nat, id: Id)
    requires id in jobs && Sound(jobs[id]) && jobs[id].status.Success?
    ensures (id in Apply(jobs, op, now) && Apply(jobs, op, now)[id].status.Success?) <==> !Unfinishes(op, id)
  {
  }

  /** In every reachable table a finished job stays finished exactly when the next call is none of
      these; a failed dispatch, a retry, the reaper and the sweep at boot leave it finished. */
  lemma {:induction false} FinishedStaysIff(ops: seq<(Op, nat)>, op: Op, now: nat, id: Id)
    requires id in Run(ops) && Run(ops)[id].status.Success?
    ensures var after := Apply(Run(ops), op, now);
            (id in after && after[id].status.Success?) <==> !Unfinishes(op, id)
  {
    ReachableJobsAreSound(ops);
    FinishedStays(Run(ops), op, now, id);
  }

  /** The content a call brings for the job, from the callback or the agent's tool. */
  function Brings(op: Op, id: Id): string {
    match op
    case Complete(at, content, _, _) => if at == id then content else ""
    case ToolSave(at, content) => if at == id then content else ""
    case _ => ""
  }

  /** What the last call from the n-th on that brought any content brought, else `content`. */
  function LastContent(ops: seq<(Op, nat)>, n: nat, id: Id, content: string): string
    requires n <= |ops|
    decreases |ops|
  {
    if n == |ops| then content
    else
      var m := |ops| - 1;
      if Brings(ops[m].0, id) != "" then Brings(ops[m].0, id) else LastContent(ops[..m], n, id, content)
  }

  lemma ContentAfter(jobs: Jobs, op: Op, now: nat, id: Id)
    requires id in jobs && id in Apply(jobs, op, now)
    ensures Apply(jobs, op, now)[id].content == if Brings(op, id) != "" then Brings(op, id) else jobs[id].content
  {
  }

  /** Content is never lost, only replaced: over any stretch in which the job is not deleted it is
      what the last call that brought any brought, and what it was before if none did. */
  lemma {:induction false} ContentIsTheLastBrought(ops: seq<(Op, nat)>, n: nat, id: Id)
    requires n <= |ops| && forall k :: n <= k <= |ops| ==> id in Run(ops[..k])
    ensures id in Run(ops) && Run(ops)[id].content == LastContent(ops, n, id, Run(ops[..n])[id].content)
  {
    TakeAll(ops);
    if n < |ops| {
      var m := |ops| - 1;
      forall k | n <= k <= m ensures id in Run(ops[..m][..k]) {
        assert ops[..m][..k] == ops[..k];
      }
      ContentIsTheLastBrought(ops[..m], n, id);
      TakeTake(ops, n);
      ContentAfter(Run(ops[..m]), ops[m].0, ops[m].1, id);
    }
  }

  lemma RunSnoc(ops: seq<(Op, nat)>, op: Op, now: nat)
    ensures Run(ops + [(op, now)]) == Apply(Run(ops), op, now)
  {
    InitOfSnoc(ops, (op, now));
  }

  /** A job is created and finished, and a second, late callback then reports a failure. */
  function LateCallback(): seq<(Op, nat)> {
    [] + [(CreateCustom(0, "Plan", "", true), 1)] + [(Complete(0, "{}", None, ""), 2)] + [(Complete(0, "", None, "late"), 3)]
  }

  /** A witness that a callback can take a result back: it finds the job finished and leaves it failed. */
  lemma LateCallbackOverwrites()
    ensures var jobs := Run(LateCallback()[..2]); 0 in jobs && jobs[0].status.Success?
    ensures var jobs := Run(LateCallback()); 0 in jobs && jobs[0].status.Failed? && jobs[0].content == "{}"
  {
    TrimBare("Plan", IsSpace);
    var one := [] + [(CreateCustom(0, "Plan", "", true), 1)];
    var two := one + [(Complete(0, "{}", None, ""), 2)];
    RunSnoc([], CreateCustom(0, "Plan", "", true), 1);
    RunSnoc(one, Complete(0, "{}", None, ""), 2);
    RunSnoc(two, Complete(0, "", None, "late"), 3);
    assert LateCallback()[..2] == two;
  }

  const FAIR := Weather(false, false, false)

  /** A playbook is generated for an event, and then again, the second time with a failing insert. */
  function FailingRegeneration(): seq<(Op, nat)> {
    [] + [(CreateForEvent(0, "expo", "Expo", "", "context", FAIR), 1)]
       + [(CreateForEvent(1, "expo", "Expo", "", "context", FAIR.(writeFails := true)), 2)]
  }

  /** A witness that a failure can leave an event without a playbook: it had one before. */
  lemma FailureUnlinksEvent()
    ensures Linked(Run(FailingRegeneration()[..1]), "expo") && !Linked(Run(FailingRegeneration()), "expo")
  {
    var first := CreateForEvent(0, "expo", "Expo", "", "context", FAIR);
    var second := CreateForEvent(1, "expo", "Expo", "", "context", FAIR.(writeFails := true));
    RunSnoc([], first, 1);
    RunSnoc([] + [(first, 1)], second, 2);
    assert FailingRegeneration()[..1] == [] + [(first, 1)];
    GeneratingTakesTheLink([], 0, "expo", "Expo", "", "context", FAIR, 1);
    assert Run([] + [(first, 1)])[0].event == Some("expo");
    GeneratingTakesTheLink([] + [(first, 1)], 1, "expo", "Expo", "", "context", FAIR.(writeFails := true), 2);
  }
}
