/** Discovery runs: concurrent triggers look a correlation key up, insert a run row, and read the
    row again when the unique index refuses it; the trigger that inserted the row executes it. */
module DiscoveryRuns {
  import opened Text
  import opened Collections

  type Pid = nat

  datatype Status = Pending | Running | Success | Failed

  /** A run row; `owner` names the caller that inserted it. */
  datatype RunRow = RunRow(key: Option<string>, startedAt: nat, status: Status, finishedAt: Option<nat>, found: nat, owner: Pid)

  predicate Terminal(status: Status) {
    status.Success? || status.Failed?
  }

  /** What the service takes for a key: a pointer to the empty string is none. */
  predicate HasKey(key: Option<string>) {
    key.Some? && key.value != ""
  }

  /** The row a lookup by correlation key finds. */
  function Find(rows: seq<RunRow>, key: string): Option<nat> {
    if rows == [] then None
    else
      var n := |rows| - 1;
      var before := Find(rows[..n], key);
      if before.Some? then before else if rows[n].key == Some(key) then Some(n) else None
  }

  lemma {:induction false} FindFinds(rows: seq<RunRow>, key: string)
    ensures Find(rows, key).Some? ==> Find(rows, key).value < |rows| && rows[Find(rows, key).value].key == Some(key)
    ensures Find(rows, key).None? ==> forall i :: 0 <= i < |rows| ==> rows[i].key != Some(key)
  {
    if rows != [] {
      FindFinds(rows[..|rows| - 1], key);
    }
  }

  lemma FindSnoc(rows: seq<RunRow>, row: RunRow, key: string)
    requires Find(rows, key).Some?
    ensures Find(rows + [row], key) == Find(rows, key)
  {
    assert (rows + [row])[..|rows|] == rows;
  }

  /** A row written over with the same key is found as before. */
  lemma FindStays(rows: seq<RunRow>, r: nat, row: RunRow, key: string)
    requires r < |rows| && rows[r].key == row.key && Find(rows, key).Some?
    ensures Find(rows[r := row], key).Some?
  {
    FindFinds(rows, key);
    FindFinds(rows[r := row], key);
    assert rows[r := row][Find(rows, key).value].key == Some(key);
  }

  // ----- one trigger, step by step -----

  /** `StartRun` up to its result, then, for the caller that was told it started the run, the
      detached `ExecuteRun`, which saves whole copies of the row it fetched. */
  datatype Phase = Looking | Creating | Rereading | Errored | Found(run: nat)
                 | Started(run: nat) | Fetched(run: nat, copy: RunRow) | Piping(run: nat, copy: RunRow)
                 | Done(run: nat) | Stopped(run: nat)

  datatype Caller = Caller(key: Option<string>, phase: Phase)

  /** `pipelines` is the history of pipeline executions, by run row. */
  datatype State = State(rows: seq<RunRow>, pipelines: seq<nat>, callers: map<Pid, Caller>)

  datatype Step =
    | Call(pid: Pid, key: Option<string>)
    | LookUp(pid: Pid)
    | Create(pid: Pid, now: nat)
    | ReRead(pid: Pid)
    | Fetch(pid: Pid)
    | MarkRunning(pid: Pid)
    | Finish(pid: Pid, saved: nat, duplicates: nat, errs: nat, now: nat)
    | Fault(pid: Pid)

  const INIT := State([], [], map[])

  function Fresh(key: Option<string>, now: nat, owner: Pid): RunRow {
    RunRow(key, now, Pending, None, 0, owner)
  }

  /** Only a run that produced nothing at all alongside errors counts as failed. */
  function Finished(row: RunRow, saved: nat, duplicates: nat, errs: nat, now: nat): RunRow {
    row.(status := if saved == 0 && duplicates == 0 && errs > 0 then Failed else Success,
         finishedAt := Some(now), found := saved)
  }

  function Looked(found: Option<nat>, otherwise: Phase): Phase {
    if found.Some? then Found(found.value) else otherwise
  }

  /** The unique index speaks of every key that is not null, the empty one included. */
  predicate Clashes(rows: seq<RunRow>, key: Option<string>) {
    key.Some? && Find(rows, key.value).Some?
  }

  predicate Due(c: Caller, step: Step) {
    match step
    case Call(_, _) => false
    case LookUp(_) => c.phase.Looking?
    case Create(_, _) => c.phase.Creating?
    case ReRead(_) => c.phase.Rereading?
    case Fetch(_) => c.phase.Started?
    case MarkRunning(_) => c.phase.Fetched?
    case Finish(_, _, _, _, _) => c.phase.Piping?
    case Fault(_) => c.phase.Looking? || c.phase.Creating? || c.phase.Rereading? || c.phase.Started? || c.phase.Fetched? || c.phase.Piping?
  }

  /** The keyless caller starts at the insert. Every key is the caller's own. */
  ghost predicate Keyed(c: Caller) {
    (c.phase.Looking? || c.phase.Rereading? || c.phase.Found?) ==> HasKey(c.key)
  }

  function NextPhase(rows: seq<RunRow>, c: Caller, step: Step): Phase
    requires Due(c, step)
    requires (c.phase.Fetched? || c.phase.Piping? || c.phase.Started?) ==> c.phase.run < |rows|
    requires (c.phase.Looking? || c.phase.Rereading?) ==> c.key.Some?
  {
    match step
    case LookUp(_) => Looked(Find(rows, c.key.value), Creating)
    case Create(_, _) =>
      if !Clashes(rows, c.key) then Started(|rows|)
      else if HasKey(c.key) then Rereading
      else Errored
    case ReRead(_) => Looked(Find(rows, c.key.value), Errored)
    case Fetch(_) => Fetched(c.phase.run, rows[c.phase.run])
    case MarkRunning(_) => Piping(c.phase.run, c.phase.copy.(status := Running))
    case Finish(_, _, _, _, _) => Done(c.phase.run)
    case Fault(_) => if c.phase.Looking? || c.phase.Creating? || c.phase.Rereading? then Errored else Stopped(c.phase.run)
  }

  function NextRows(rows: seq<RunRow>, c: Caller, step: Step): seq<RunRow>
    requires Due(c, step) && ((c.phase.Fetched? || c.phase.Piping?) ==> c.phase.run < |rows|)
  {
    match step
    case Create(pid, now) => if Clashes(rows, c.key) then rows else rows + [Fresh(c.key, now, pid)]
    case MarkRunning(_) => rows[c.phase.run := c.phase.copy.(status := Running)]
    case Finish(_, saved, duplicates, errs, now) => rows[c.phase.run := Finished(c.phase.copy, saved, duplicates, errs, now)]
    case _ => rows
  }

  /** What a caller's program counter refers to exists. */
  predicate InBounds(rows: seq<RunRow>, c: Caller) {
    && ((c.phase.Started? || c.phase.Fetched? || c.phase.Piping?) ==> c.phase.run < |rows|)
    && ((c.phase.Looking? || c.phase.Rereading?) ==> c.key.Some?)
  }

  /** One step of one caller; a step that is not due changes nothing. */
  function Next(s: State, step: Step): State {
    if step.pid !in s.callers then
      if step.Call? then s.(callers := s.callers[step.pid := Caller(step.key, if HasKey(step.key) then Looking else Creating)]) else s
    else
      var c := s.callers[step.pid];
      if !Due(c, step) || !InBounds(s.rows, c) then s
      else
        State(NextRows(s.rows, c, step),
              if step.MarkRunning? then s.pipelines + [c.phase.run] else s.pipelines,
              s.callers[step.pid := c.(phase := NextPhase(s.rows, c, step))])
  }

  function Run(steps: seq<Step>): State {
    if steps == [] then INIT else Next(Run(steps[..|steps| - 1]), steps[|steps| - 1])
  }

  // ----- the invariant -----

  ghost predicate Unique(rows: seq<RunRow>) {
    forall i, j :: 0 <= i < j < |rows| && rows[i].key.Some? ==> rows[i].key != rows[j].key
  }

  /** A run has a finishing time exactly when it is over. */
  ghost predicate Stamped(rows: seq<RunRow>) {
    forall i :: 0 <= i < |rows| ==> (rows[i].finishedAt.Some? <==> Terminal(rows[i].status))
  }

  predicate HasRun(phase: Phase) {
    phase.Started? || phase.Fetched? || phase.Piping? || phase.Done? || phase.Stopped?
  }

  /** The row a caller inserted follows its phase. */
  ghost predicate InStep(row: RunRow, phase: Phase)
    requires HasRun(phase)
  {
    match phase
    case Started(_) => row.status == Pending
    case Fetched(_, copy) => row.status == Pending && copy == row
    case Piping(_, copy) => row.status == Running && copy == row
    case Done(_) => Terminal(row.status)
    case _ => !Terminal(row.status)
  }

  ghost predicate OwnsOnly(rows: seq<RunRow>, pid: Pid, c: Caller) {
    forall i :: 0 <= i < |rows| && rows[i].owner == pid ==> HasRun(c.phase) && c.phase.run == i
  }

  ghost predicate CallerInv(rows: seq<RunRow>, pid: Pid, c: Caller) {
    && OwnsOnly(rows, pid, c)
    && Keyed(c)
    && (HasRun(c.phase) ==>
          c.phase.run < |rows| && rows[c.phase.run].owner == pid && rows[c.phase.run].key == c.key && InStep(rows[c.phase.run], c.phase))
    && (c.phase.Found? ==> c.phase.run < |rows| && rows[c.phase.run].key == c.key)
    && (c.phase.Rereading? ==> Find(rows, c.key.value).Some?)
  }

  ghost predicate RowsInv(rows: seq<RunRow>, callers: map<Pid, Caller>) {
    Unique(rows) && Stamped(rows) && forall i :: 0 <= i < |rows| ==> rows[i].owner in callers
  }

  ghost predicate CallersInv(rows: seq<RunRow>, callers: map<Pid, Caller>) {
    forall pid :: pid in callers ==> CallerInv(rows, pid, callers[pid])
  }

  /** Exactly the runs that left pending were executed, each once. */
  ghost predicate PipelinesInv(rows: seq<RunRow>, pipelines: seq<nat>) {
    && Distinct(pipelines)
    && (forall k :: 0 <= k < |pipelines| ==> pipelines[k] < |rows| && rows[pipelines[k]].status != Pending)
    && (forall r :: 0 <= r < |rows| && rows[r].status != Pending ==> r in pipelines)
  }

  ghost predicate Inv(s: State) {
    RowsInv(s.rows, s.callers) && CallersInv(s.rows, s.callers) && PipelinesInv(s.rows, s.pipelines)
  }

  // ----- every step keeps it -----

  lemma CallerMoves(s: State, pid: Pid, c: Caller)
    requires Inv(s) && CallerInv(s.rows, pid, c)
    ensures Inv(s.(callers := s.callers[pid := c]))
  {
  }

  /** A step that only reads. */
  lemma ReadingIsSound(rows: seq<RunRow>, pid: Pid, c: Caller, step: Step)
    requires CallerInv(rows, pid, c) && Due(c, step) && InBounds(rows, c)
    requires step.LookUp? || step.ReRead? || step.Fetch? || step.Fault?
    ensures CallerInv(rows, pid, c.(phase := NextPhase(rows, c, step)))
  {
    if step.LookUp? || step.ReRead? {
      FindFinds(rows, c.key.value);
    }
  }

  lemma OthersSurviveInsert(rows: seq<RunRow>, pid: Pid, c: Caller, row: RunRow)
    requires CallerInv(rows, pid, c) && row.owner != pid
    ensures CallerInv(rows + [row], pid, c)
  {
    if c.phase.Rereading? {
      FindSnoc(rows, row, c.key.value);
    }
  }

  lemma InsertIsSound(rows: seq<RunRow>, pid: Pid, c: Caller, row: RunRow)
    requires CallerInv(rows, pid, c) && c.phase.Creating? && row.owner == pid && row.key == c.key && row.status == Pending
    ensures CallerInv(rows + [row], pid, c.(phase := Started(|rows|)))
  {
  }

  lemma UniqueSnoc(rows: seq<RunRow>, row: RunRow)
    requires Unique(rows) && !Clashes(rows, row.key)
    ensures Unique(rows + [row])
  {
    if row.key.Some? {
      FindFinds(rows, row.key.value);
    }
  }

  lemma RowsSnoc(rows: seq<RunRow>, callers: map<Pid, Caller>, row: RunRow, c: Caller)
    requires RowsInv(rows, callers) && !Clashes(rows, row.key) && row.status == Pending && row.finishedAt == None
    ensures RowsInv(rows + [row], callers[row.owner := c])
  {
    UniqueSnoc(rows, row);
  }

  lemma PipelinesSnoc(rows: seq<RunRow>, pipelines: seq<nat>, row: RunRow)
    requires PipelinesInv(rows, pipelines) && row.status == Pending
    ensures PipelinesInv(rows + [row], pipelines)
  {
  }

  lemma CallersSnoc(rows: seq<RunRow>, callers: map<Pid, Caller>, row: RunRow, c: Caller)
    requires CallersInv(rows, callers) && CallerInv(rows + [row], row.owner, c)
    ensures CallersInv(rows + [row], callers[row.owner := c])
  {
    forall p | p in callers && p != row.owner ensures CallerInv(rows + [row], p, callers[p]) {
      OthersSurviveInsert(rows, p, callers[p], row);
    }
  }

  lemma CreateKeeps(s: State, pid: Pid, c: Caller, now: nat)
    requires Inv(s) && pid in s.callers && c == s.callers[pid] && c.phase.Creating? && !Clashes(s.rows, c.key)
    ensures Inv(State(s.rows + [Fresh(c.key, now, pid)], s.pipelines, s.callers[pid := c.(phase := Started(|s.rows|))]))
  {
    var row, c' := Fresh(c.key, now, pid), c.(phase := Started(|s.rows|));
    InsertIsSound(s.rows, pid, c, row);
    RowsSnoc(s.rows, s.callers, row, c');
    PipelinesSnoc(s.rows, s.pipelines, row);
    CallersSnoc(s.rows, s.callers, row, c');
  }

  lemma RefusedIsSound(rows: seq<RunRow>, pid: Pid, c: Caller, now: nat)
    requires CallerInv(rows, pid, c) && c.phase.Creating? && Clashes(rows, c.key)
    ensures CallerInv(rows, pid, c.(phase := NextPhase(rows, c, Create(pid, now))))
  {
  }

  /** Another caller saving its own row. */
  lemma OthersSurviveSave(rows: seq<RunRow>, pid: Pid, c: Caller, r: nat, row: RunRow)
    requires CallerInv(rows, pid, c) && r < |rows| && rows[r].owner != pid
    requires row.owner == rows[r].owner && row.key == rows[r].key
    ensures CallerInv(rows[r := row], pid, c)
  {
    if c.phase.Rereading? {
      FindStays(rows, r, row, c.key.value);
    }
  }

  lemma SaveIsSound(rows: seq<RunRow>, pid: Pid, c: Caller, phase: Phase, row: RunRow)
    requires CallerInv(rows, pid, c) && HasRun(c.phase) && HasRun(phase) && phase.run == c.phase.run && InStep(row, phase)
    requires row.owner == rows[phase.run].owner && row.key == rows[phase.run].key
    ensures CallerInv(rows[phase.run := row], pid, c.(phase := phase))
  {
  }

  lemma RowsSaved(rows: seq<RunRow>, callers: map<Pid, Caller>, r: nat, row: RunRow, c: Caller)
    requires RowsInv(rows, callers) && r < |rows| && row.owner == rows[r].owner && row.key == rows[r].key
    requires row.finishedAt.Some? <==> Terminal(row.status)
    ensures RowsInv(rows[r := row], callers[row.owner := c])
  {
  }

  lemma CallersSaved(rows: seq<RunRow>, callers: map<Pid, Caller>, r: nat, row: RunRow, c: Caller)
    requires CallersInv(rows, callers) && r < |rows| && row.owner == rows[r].owner && row.key == rows[r].key
    requires CallerInv(rows[r := row], row.owner, c)
    ensures CallersInv(rows[r := row], callers[row.owner := c])
  {
    forall p | p in callers && p != row.owner ensures CallerInv(rows[r := row], p, callers[p]) {
      OthersSurviveSave(rows, p, callers[p], r, row);
    }
  }

  lemma PipelineBegins(rows: seq<RunRow>, pipelines: seq<nat>, r: nat, row: RunRow)
    requires PipelinesInv(rows, pipelines) && r < |rows| && rows[r].status == Pending && row.status != Pending
    ensures PipelinesInv(rows[r := row], pipelines + [r])
  {
    var after := pipelines + [r];
    forall q | 0 <= q < |rows| && rows[r := row][q].status != Pending ensures q in after {
      assert q == r || q in pipelines;
      assert after[|pipelines|] == r;
    }
  }

  lemma PipelineEnds(rows: seq<RunRow>, pipelines: seq<nat>, r: nat, row: RunRow)
    requires PipelinesInv(rows, pipelines) && r < |rows| && rows[r].status != Pending && row.status != Pending
    ensures PipelinesInv(rows[r := row], pipelines)
  {
  }

  lemma SaveKeeps(s: State, pid: Pid, c: Caller, phase: Phase, row: RunRow, pipelines: seq<nat>)
    requires Inv(s) && pid in s.callers && c == s.callers[pid]
    requires HasRun(c.phase) && HasRun(phase) && phase.run == c.phase.run && phase.run < |s.rows| && InStep(row, phase)
    requires row.owner == s.rows[phase.run].owner && row.key == s.rows[phase.run].key
    requires row.finishedAt.Some? <==> Terminal(row.status)
    requires PipelinesInv(s.rows[phase.run := row], pipelines)
    ensures Inv(State(s.rows[phase.run := row], pipelines, s.callers[pid := c.(phase := phase)]))
  {
    assert CallerInv(s.rows, pid, c);
    SaveIsSound(s.rows, pid, c, phase, row);
    RowsSaved(s.rows, s.callers, phase.run, row, c.(phase := phase));
    CallersSaved(s.rows, s.callers, phase.run, row, c.(phase := phase));
  }

  /** What a caller about to save holds. */
  lemma HoldsItsRow(s: State, pid: Pid, c: Caller)
    requires Inv(s) && pid in s.callers && c == s.callers[pid] && (c.phase.Fetched? || c.phase.Piping?)
    ensures c.phase.run < |s.rows| && c.phase.copy == s.rows[c.phase.run]
    ensures c.phase.copy.status == (if c.phase.Fetched? then Pending else Running) && c.phase.copy.finishedAt == None
  {
    assert CallerInv(s.rows, pid, c);
  }

  lemma MarkKeeps(s: State, pid: Pid, c: Caller)
    requires Inv(s) && pid in s.callers && c == s.callers[pid] && c.phase.Fetched?
    ensures Inv(Next(s, MarkRunning(pid)))
  {
    HoldsItsRow(s, pid, c);
    var row := c.phase.copy.(status := Running);
    PipelineBegins(s.rows, s.pipelines, c.phase.run, row);
    SaveKeeps(s, pid, c, Piping(c.phase.run, row), row, s.pipelines + [c.phase.run]);
  }

  lemma FinishKeeps(s: State, pid: Pid, c: Caller, saved: nat, duplicates: nat, errs: nat, now: nat)
    requires Inv(s) && pid in s.callers && c == s.callers[pid] && c.phase.Piping?
    ensures Inv(Next(s, Finish(pid, saved, duplicates, errs, now)))
  {
    HoldsItsRow(s, pid, c);
    var row := Finished(c.phase.copy, saved, duplicates, errs, now);
    PipelineEnds(s.rows, s.pipelines, c.phase.run, row);
    SaveKeeps(s, pid, c, Done(c.phase.run), row, s.pipelines);
  }

  lemma InsertKeeps(s: State, pid: Pid, c: Caller, now: nat)
    requires Inv(s) && pid in s.callers && c == s.callers[pid] && c.phase.Creating?
    ensures Inv(Next(s, Create(pid, now)))
  {
    if Clashes(s.rows, c.key) {
      RefusedIsSound(s.rows, pid, c, now);
      CallerMoves(s, pid, c.(phase := NextPhase(s.rows, c, Create(pid, now))));
    } else {
      CreateKeeps(s, pid, c, now);
    }
  }

  lemma ReadKeeps(s: State, c: Caller, step: Step)
    requires Inv(s) && step.pid in s.callers && c == s.callers[step.pid] && Due(c, step) && InBounds(s.rows, c)
    requires step.LookUp? || step.ReRead? || step.Fetch? || step.Fault?
    ensures Inv(Next(s, step))
  {
    ReadingIsSound(s.rows, step.pid, c, step);
    CallerMoves(s, step.pid, c.(phase := NextPhase(s.rows, c, step)));
  }

  lemma CallKeeps(s: State, pid: Pid, key: Option<string>)
    requires Inv(s) && pid !in s.callers
    ensures Inv(Next(s, Call(pid, key)))
  {
    CallerMoves(s, pid, Caller(key, if HasKey(key) then Looking else Creating));
  }

  lemma StepKeeps(s: State, step: Step)
    requires Inv(s)
    ensures Inv(Next(s, step))
  {
    if step.pid !in s.callers {
      if step.Call? {
        CallKeeps(s, step.pid, step.key);
      }
    } else if Due(s.callers[step.pid], step) && InBounds(s.rows, s.callers[step.pid]) {
      match step {
        case Create(pid, now) => InsertKeeps(s, pid, s.callers[pid], now);
        case MarkRunning(pid) => MarkKeeps(s, pid, s.callers[pid]);
        case Finish(pid, saved, duplicates, errs, now) => FinishKeeps(s, pid, s.callers[pid], saved, duplicates, errs, now);
        case LookUp(pid) => ReadKeeps(s, s.callers[pid], step);
        case ReRead(pid) => ReadKeeps(s, s.callers[pid], step);
        case Fetch(pid) => ReadKeeps(s, s.callers[pid], step);
        case Fault(pid) => ReadKeeps(s, s.callers[pid], step);
      }
    }
  }

  lemma {:induction false} Reachable(steps: seq<Step>)
    ensures Inv(Run(steps))
  {
    if steps != [] {
      Reachable(steps[..|steps| - 1]);
      StepKeeps(Run(steps[..|steps| - 1]), steps[|steps| - 1]);
    }
  }

  // ----- what every interleaving guarantees -----

  /** No two rows share a key. */
  lemma {:induction false} OneRowPerKey(steps: seq<Step>, i: nat, j: nat)
    requires i < |Run(steps).rows| && j < |Run(steps).rows|
    requires Run(steps).rows[i].key.Some? && Run(steps).rows[i].key == Run(steps).rows[j].key
    ensures i == j
  {
    Reachable(steps);
  }

  predicate Answered(phase: Phase) {
    phase.Found? || HasRun(phase)
  }

  /** All callers with one non-empty key that got a run got the same run, and at most one of them
      was told that it started it. */
  lemma {:induction false} SameKeySameRun(steps: seq<Step>, p: Pid, q: Pid)
    requires p in Run(steps).callers && q in Run(steps).callers
    requires Run(steps).callers[p].key == Run(steps).callers[q].key && HasKey(Run(steps).callers[p].key)
    requires Answered(Run(steps).callers[p].phase) && Answered(Run(steps).callers[q].phase)
    ensures Run(steps).callers[p].phase.run == Run(steps).callers[q].phase.run
    ensures HasRun(Run(steps).callers[p].phase) && HasRun(Run(steps).callers[q].phase) ==> p == q
  {
    Reachable(steps);
    var s := Run(steps);
    assert CallerInv(s.rows, p, s.callers[p]) && CallerInv(s.rows, q, s.callers[q]);
    OneRowPerKey(steps, s.callers[p].phase.run, s.callers[q].phase.run);
  }

  /** The pipeline was executed at most once per run and at most once per key. */
  lemma {:induction false} ExecutedOnce(steps: seq<Step>, j: nat, k: nat)
    requires j < k < |Run(steps).pipelines|
    ensures var s := Run(steps);
            && s.pipelines[j] < |s.rows| && s.pipelines[k] < |s.rows| && s.pipelines[j] != s.pipelines[k]
            && (s.rows[s.pipelines[j]].key.Some? ==> s.rows[s.pipelines[j]].key != s.rows[s.pipelines[k]].key)
  {
    Reachable(steps);
    var s := Run(steps);
    if s.rows[s.pipelines[j]].key.Some? && s.rows[s.pipelines[j]].key == s.rows[s.pipelines[k]].key {
      OneRowPerKey(steps, s.pipelines[j], s.pipelines[k]);
    }
  }

  /** The row read again after a conflict is always there: no trigger with a key fails for the race. */
  lemma {:induction false} ConflictIsResolved(steps: seq<Step>, pid: Pid)
    requires pid in Run(steps).callers && Run(steps).callers[pid].phase.Rereading?
    ensures var c := Run(steps + [ReRead(pid)]).callers;
            pid in c && c[pid].phase.Found?
  {
    Reachable(steps);
    var s := Run(steps);
    assert CallerInv(s.rows, pid, s.callers[pid]);
    assert (steps + [ReRead(pid)])[..|steps|] == steps;
  }

  /** A run without a real key is meant always to start. It does exactly unless the key is the empty
      string and some row holds the empty string already. */
  lemma {:induction false} KeylessStarts(steps: seq<Step>, pid: Pid, now: nat)
    requires pid in Run(steps).callers && Run(steps).callers[pid].phase.Creating? && !HasKey(Run(steps).callers[pid].key)
    ensures var before, after := Run(steps), Run(steps + [Create(pid, now)]).callers;
            && pid in after && (after[pid].phase.Started? || after[pid].phase.Errored?)
            && (after[pid].phase.Errored? <==>
                  before.callers[pid].key == Some("") && exists i :: 0 <= i < |before.rows| && before.rows[i].key == Some(""))
  {
    var s := Run(steps);
    assert (steps + [Create(pid, now)])[..|steps|] == steps;
    FindFinds(s.rows, "");
    if Find(s.rows, "").Some? {
      assert s.rows[Find(s.rows, "").value].key == Some("");
    }
  }

  /** One trigger with a pointer to the empty string, undisturbed. */
  function EmptyTrigger(s: State, pid: Pid, now: nat): State {
    Next(Next(s, Call(pid, Some(""))), Create(pid, now))
  }

  lemma EmptyTriggerIs(s: State, pid: Pid, now: nat)
    requires pid !in s.callers
    ensures EmptyTrigger(s, pid, now) ==
            if Find(s.rows, "").Some? then s.(callers := s.callers[pid := Caller(Some(""), Errored)])
            else State(s.rows + [Fresh(Some(""), now, pid)], s.pipelines, s.callers[pid := Caller(Some(""), Started(|s.rows|))])
  {
    assert Next(s, Call(pid, Some(""))) == s.(callers := s.callers[pid := Caller(Some(""), Creating)]);
    assert s.callers[pid := Caller(Some(""), Creating)][pid := Caller(Some(""), Errored)] == s.callers[pid := Caller(Some(""), Errored)];
    assert s.callers[pid := Caller(Some(""), Creating)][pid := Caller(Some(""), Started(|s.rows|))]
        == s.callers[pid := Caller(Some(""), Started(|s.rows|))];
  }

  /** Two such triggers, one after the other: the second fails. */
  lemma SecondEmptyKeyFails()
    ensures var callers := EmptyTrigger(EmptyTrigger(INIT, 0, 10), 1, 20).callers;
            callers == map[0 := Caller(Some(""), Started(0)), 1 := Caller(Some(""), Errored)]
  {
    EmptyTriggerIs(INIT, 0, 10);
    var s := EmptyTrigger(INIT, 0, 10);
    FindFinds(s.rows, "");
    assert s.rows[0].key == Some("");
    EmptyTriggerIs(s, 1, 20);
  }

  // ----- the life of a run -----

  predicate Moves(before: Status, after: Status) {
    before == after || (before.Pending? && after.Running?) || (before.Running? && Terminal(after))
  }

  /** From `before` to `after` in one step: rows stay in place, keep their key and start time, and
      each status takes at most one step of its life. A finished row does not change at all, and a
      new one is pending. */
  ghost predicate Progress(before: seq<RunRow>, after: seq<RunRow>) {
    && |before| <= |after|
    && (forall i :: 0 <= i < |before| ==>
         && before[i].key == after[i].key && before[i].startedAt == after[i].startedAt
         && Moves(before[i].status, after[i].status)
         && (Terminal(before[i].status) ==> before[i] == after[i]))
    && forall i :: |before| <= i < |after| ==> after[i].status.Pending?
  }

  lemma StepProgresses(s: State, step: Step)
    requires Inv(s)
    ensures Progress(s.rows, Next(s, step).rows)
  {
    if step.pid in s.callers && (step.MarkRunning? || step.Finish?) && Due(s.callers[step.pid], step) {
      HoldsItsRow(s, step.pid, s.callers[step.pid]);
    }
  }

  /** Each step of the system moves each run by at most one status: pending to running, running to
      success or failed. */
  lemma {:induction false} EveryStepProgresses(steps: seq<Step>, n: nat)
    requires n < |steps|
    ensures Progress(Run(steps[..n]).rows, Run(steps[..n + 1]).rows)
  {
    Reachable(steps[..n]);
    StepProgresses(Run(steps[..n]), steps[n]);
    assert steps[..n + 1][..n] == steps[..n];
  }

  /** Over a whole run of the system nothing of a run goes back, and the end is for good. */
  lemma {:induction false} LifeIsOrdered(steps: seq<Step>, n: nat, i: nat)
    requires n <= |steps| && i < |Run(steps[..n]).rows|
    ensures i < |Run(steps).rows|
    ensures var before, after := Run(steps[..n]).rows[i], Run(steps).rows[i];
            && before.key == after.key && before.startedAt == after.startedAt
            && (before.status.Running? ==> !after.status.Pending?)
            && (Terminal(before.status) ==> before == after)
            && (after.finishedAt.Some? <==> Terminal(after.status))
  {
    Reachable(steps);
    TakeAll(steps);
    if n < |steps| {
      var m := |steps| - 1;
      TakeTake(steps, n);
      LifeIsOrdered(steps[..m], n, i);
      EveryStepProgresses(steps, m);
    }
  }

  /** A run that is over was pending first, and running after that. */
  lemma {:induction false} EndedAfterRunning(steps: seq<Step>, i: nat) returns (born: nat, ran: nat)
    requires i < |Run(steps).rows| && Terminal(Run(steps).rows[i].status)
    ensures born < ran < |steps|
    ensures i < |Run(steps[..born]).rows| && Run(steps[..born]).rows[i].status.Pending?
    ensures i < |Run(steps[..ran]).rows| && Run(steps[..ran]).rows[i].status.Running?
  {
    TakeAll(steps);
    var m := |steps| - 1;
    EveryStepProgresses(steps, m);
    if Terminal(Run(steps[..m]).rows[i].status) {
      born, ran := EndedAfterRunning(steps[..m], i);
      assert steps[..m][..born] == steps[..born] && steps[..m][..ran] == steps[..ran];
    } else {
      ran := m;
      born := RanAfterPending(steps[..m], i);
      assert steps[..m][..born] == steps[..born];
    }
  }

  lemma {:induction false} RanAfterPending(steps: seq<Step>, i: nat) returns (born: nat)
    requires i < |Run(steps).rows| && Run(steps).rows[i].status.Running?
    ensures born < |steps| && i < |Run(steps[..born]).rows| && Run(steps[..born]).rows[i].status.Pending?
  {
    TakeAll(steps);
    var m := |steps| - 1;
    EveryStepProgresses(steps, m);
    if Run(steps[..m]).rows[i].status.Running? {
      born := RanAfterPending(steps[..m], i);
      assert steps[..m][..born] == steps[..born];
    } else {
      born := m;
    }
  }

  // ----- what each step does -----

  ghost predicate KeyIn(rows: seq<RunRow>, key: Option<string>) {
    exists i :: 0 <= i < |rows| && rows[i].key == key
  }

  /** The caller has a row of its key, or there is none and it goes on as told. */
  ghost predicate FindsOr(rows: seq<RunRow>, key: Option<string>, phase: Phase, otherwise: Phase) {
    if KeyIn(rows, key) then phase.Found? && phase.run < |rows| && rows[phase.run].key == key else phase == otherwise
  }

  /** The insert: a pending row of the caller's, or none when the key is taken; the empty key, which is
      none to the service, is one to the index. */
  ghost predicate Inserts(s: State, s': State, c: Caller, c': Caller, pid: Pid, now: nat) {
    if c.key.Some? && KeyIn(s.rows, c.key)
    then s'.rows == s.rows && c'.phase == if c.key == Some("") then Errored else Rereading
    else s'.rows == s.rows + [RunRow(c.key, now, Pending, None, 0, pid)] && c'.phase == Started(|s.rows|)
  }

  /** The caller's row is running: its execution begins. */
  ghost predicate BeginsRun(s: State, s': State, c: Caller, c': Caller) {
    && HasRun(c.phase) && c.phase.run < |s.rows|
    && s'.rows == s.rows[c.phase.run := s.rows[c.phase.run].(status := Running)]
    && s'.pipelines == s.pipelines + [c.phase.run]
    && c'.phase == Piping(c.phase.run, s'.rows[c.phase.run])
  }

  /** The caller's row is over: stamped, with what was saved, and failed exactly when nothing was found,
      old or new, and something went wrong. */
  ghost predicate EndsRun(s: State, s': State, c: Caller, c': Caller, saved: nat, duplicates: nat, errs: nat, now: nat) {
    && HasRun(c.phase) && c.phase.run < |s.rows| && |s'.rows| == |s.rows|
    && (forall i :: 0 <= i < |s.rows| && i != c.phase.run ==> s'.rows[i] == s.rows[i])
    && c'.phase == Done(c.phase.run)
    && var row, row' := s.rows[c.phase.run], s'.rows[c.phase.run];
       && row'.key == row.key && row'.startedAt == row.startedAt && row'.owner == row.owner
       && row'.finishedAt == Some(now) && row'.found == saved
       && row'.status == if saved + duplicates == 0 && errs > 0 then Failed else Success
  }

  /** What a due step does for its caller. Only the insert and the two saves write a row. */
  ghost predicate DoesItsWork(s: State, step: Step, s': State, c: Caller, c': Caller) {
    && c'.key == c.key
    && (!step.MarkRunning? ==> s'.pipelines == s.pipelines)
    && ((step.LookUp? || step.ReRead? || step.Fetch? || step.Fault?) ==> s'.rows == s.rows)
    && match step
       case Call(_, _) => true
       case LookUp(_) => FindsOr(s.rows, c.key, c'.phase, Creating)
       case Create(pid, now) => Inserts(s, s', c, c', pid, now)
       case ReRead(_) => FindsOr(s.rows, c.key, c'.phase, Errored)
       case Fetch(_) => HasRun(c.phase) && c.phase.run < |s.rows| && c'.phase == Fetched(c.phase.run, s.rows[c.phase.run])
       case MarkRunning(_) => BeginsRun(s, s', c, c')
       case Finish(_, saved, duplicates, errs, now) => EndsRun(s, s', c, c', saved, duplicates, errs, now)
       case Fault(_) => c'.phase == if c.phase.Started? || c.phase.Fetched? || c.phase.Piping? then Stopped(c.phase.run) else Errored
  }

  lemma LookedIsFound(rows: seq<RunRow>, key: Option<string>, otherwise: Phase)
    requires key.Some?
    ensures FindsOr(rows, key, Looked(Find(rows, key.value), otherwise), otherwise)
    ensures KeyIn(rows, key) <==> Find(rows, key.value).Some?
  {
    FindFinds(rows, key.value);
  }

  lemma ReadDoesItsWork(s: State, step: Step)
    requires Inv(s) && step.pid in s.callers && Due(s.callers[step.pid], step)
    requires step.LookUp? || step.ReRead? || step.Fetch? || step.Fault?
    ensures DoesItsWork(s, step, Next(s, step), s.callers[step.pid], Next(s, step).callers[step.pid])
  {
    var c := s.callers[step.pid];
    assert CallerInv(s.rows, step.pid, c);
    if step.LookUp? {
      LookedIsFound(s.rows, c.key, Creating);
    } else if step.ReRead? {
      LookedIsFound(s.rows, c.key, Errored);
    }
  }

  lemma WriteDoesItsWork(s: State, step: Step)
    requires Inv(s) && step.pid in s.callers && Due(s.callers[step.pid], step)
    requires step.Create? || step.MarkRunning? || step.Finish?
    ensures DoesItsWork(s, step, Next(s, step), s.callers[step.pid], Next(s, step).callers[step.pid])
  {
    var c := s.callers[step.pid];
    assert CallerInv(s.rows, step.pid, c);
    if step.Create? {
      if c.key.Some? {
        LookedIsFound(s.rows, c.key, Errored);
      }
    } else {
      HoldsItsRow(s, step.pid, c);
    }
  }

  /** However the callers interleave, each due step does its work and nothing else: it leaves the other
      callers alone, and a step that is not due changes nothing. A new caller looks its key up, or
      inserts at once when it has none. */
  lemma {:induction false} EveryStepDoesItsWork(steps: seq<Step>, step: Step)
    ensures var s, s' := Run(steps), Run(steps + [step]);
            if step.pid !in s.callers then
              s' == if step.Call?
                    then s.(callers := s.callers[step.pid := Caller(step.key, if HasKey(step.key) then Looking else Creating)])
                    else s
            else if !Due(s.callers[step.pid], step) then s' == s
            else
              && s'.callers.Keys == s.callers.Keys
              && (forall p :: p in s.callers && p != step.pid ==> s'.callers[p] == s.callers[p])
              && DoesItsWork(s, step, s', s.callers[step.pid], s'.callers[step.pid])
  {
    Reachable(steps);
    InitOfSnoc(steps, step);
    var s := Run(steps);
    assert Run(steps + [step]) == Next(s, step);
    if step.pid in s.callers && Due(s.callers[step.pid], step) {
      assert CallerInv(s.rows, step.pid, s.callers[step.pid]);
      if step.Create? || step.MarkRunning? || step.Finish? {
        WriteDoesItsWork(s, step);
      } else {
        ReadDoesItsWork(s, step);
      }
    }
  }
}
