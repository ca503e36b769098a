/** Concurrent profile saves: each reads its base outside the transaction, locks the current row,
    and inserts the next version. Who waits for the lock looks at the locked row again once it is
    free, and finds it demoted when the other transaction has committed. */
module ProfileRaces {
  import opened Text
  import opened ProfileContent
  import opened Profiles

  type Pid = nat

  /** `Unseen`: the select found no current row, so the insert takes version 1. */
  datatype Phase = HasBase | Waiting | Locked(version: nat) | Unseen | Done(row: nat) | Refused | Failed

  /** `seen` is how many versions there were when the base was read, `asked` how many when the call
      first asked for the current row. */
  datatype Call = Call(req: Request, base: Aggregate, seen: nat, asked: nat, phase: Phase)

  datatype State = State(tables: Tables, lock: Option<Pid>, calls: map<Pid, Call>)

  datatype Step =
    | Read(pid: Pid, req: Request)
    | Select(pid: Pid)
    | Commit(pid: Pid)
    | Abort(pid: Pid)

  const INIT := State(EMPTY, None, map[])

  /** The rows of a version under the number the transaction computed. */
  function Inserted(t: Tables, a: Aggregate, version: nat): Tables {
    var id := |t.profiles|;
    Tables(Demoted(t.profiles) + [ProfileRow(a.root, version, true)],
           With(t.targets, id, a.target), With(t.noGos, id, a.noGo),
           WithAll(t.keywords, id, a.keywords), With(t.scorings, id, a.scoring))
  }

  function Row(c: Call): Aggregate {
    Stored(Merge(c.req, c.base))
  }

  /** The call with the number of versions noted at its first select. */
  function Asking(s: State, c: Call): Call {
    if c.phase.HasBase? then c.(asked := |s.tables.profiles|) else c
  }

  function Selected(s: State, c: Call, pid: Pid): State {
    var d := Asking(s, c);
    if c.phase.HasBase? && s.tables.profiles == [] then s.(calls := s.calls[pid := d.(phase := Unseen)])
    else if s.lock.Some? then s.(calls := s.calls[pid := d.(phase := Waiting)])
    else s.(lock := Some(pid), calls := s.calls[pid := d.(phase := Locked(NextVersion(s.tables.profiles)))])
  }

  /** Those who waited for the row find it demoted. */
  function Woken(calls: map<Pid, Call>): map<Pid, Call> {
    map pid | pid in calls :: if calls[pid].phase.Waiting? then calls[pid].(phase := Unseen) else calls[pid]
  }

  function Committed(s: State, c: Call, pid: Pid): State {
    if c.phase.Locked? then
      State(Inserted(s.tables, Row(c), c.phase.version), None, Woken(s.calls)[pid := c.(phase := Done(|s.tables.profiles|))])
    else if Current(s.tables.profiles).Some? then
      // The unique index admits one current row.
      s.(calls := s.calls[pid := c.(phase := Refused)])
    else s.(tables := Inserted(s.tables, Row(c), 1), calls := s.calls[pid := c.(phase := Done(|s.tables.profiles|))])
  }

  predicate Over(c: Call) {
    c.phase.Done? || c.phase.Refused? || c.phase.Failed?
  }

  /** One step of one call; a step that is not due changes nothing. An abort frees the lock, and who
      waited for it may then take it. */
  function Next(s: State, step: Step): State {
    var pid := step.pid;
    if pid !in s.calls then
      if step.Read? then s.(calls := s.calls[pid := Call(step.req, Base(s.tables), |s.tables.profiles|, 0, HasBase)]) else s
    else
      var c := s.calls[pid];
      match step
      case Read(_, _) => s
      case Select(_) => if c.phase.HasBase? || (c.phase.Waiting? && s.lock.None?) then Selected(s, c, pid) else s
      case Commit(_) => if c.phase.Locked? || c.phase.Unseen? then Committed(s, c, pid) else s
      case Abort(_) =>
        if Over(c) then s
        else State(s.tables, if c.phase.Locked? then None else s.lock, s.calls[pid := c.(phase := Failed)])
  }

  function Interleave(steps: seq<Step>): State {
    if steps == [] then INIT else Next(Interleave(steps[..|steps| - 1]), steps[|steps| - 1])
  }

  // ----- the invariant -----

  /** What a save that begins when there are n versions merges over. */
  function BaseAt(t: Tables, n: nat): Aggregate
    requires n <= |t.profiles|
  {
    if n == 0 then DefaultAggregate("") else Load(t, n - 1)
  }

  ghost predicate CallInv(t: Tables, lock: Option<Pid>, pid: Pid, c: Call) {
    && c.seen <= |t.profiles| && c.base == BaseAt(t, c.seen)
    && (c.phase.Locked? ==> lock == Some(pid) && t.profiles != [] && c.phase.version == |t.profiles| + 1)
    && (c.phase.Waiting? ==> t.profiles != [])
    && (c.phase.Done? ==> c.seen <= c.phase.row < |t.profiles| && Load(t, c.phase.row) == Row(c))
    && AskedInv(|t.profiles|, c)
  }

  /** How many versions came since the call first asked. */
  ghost predicate AskedInv(n: nat, c: Call) {
    match c.phase
    case Locked(_) => c.asked == n
    case Waiting => c.asked == n
    case Unseen => if n == 0 then c.asked == 0 else c.asked < n
    case Done(row) => c.asked == row
    case Refused => c.asked < n
    case _ => true
  }

  /** What any save can merge over. */
  ghost predicate AllComplete(t: Tables) {
    forall n :: 0 <= n <= |t.profiles| ==> Complete(BaseAt(t, n))
  }

  ghost predicate CallsInv(t: Tables, lock: Option<Pid>, calls: map<Pid, Call>) {
    forall pid :: pid in calls ==> CallInv(t, lock, pid, calls[pid])
  }

  ghost predicate Sound(s: State) {
    Inv(s.tables) && AllComplete(s.tables) && CallsInv(s.tables, s.lock, s.calls)
  }

  lemma BaseIsLast(t: Tables)
    requires Inv(t)
    ensures Base(t) == BaseAt(t, |t.profiles|)
  {
    CurrentIsLast(t.profiles);
  }

  /** Locked, the number computed is the next version; so the insert is the version of `Versioned`. */
  lemma InsertedIsVersioned(t: Tables, a: Aggregate)
    requires Inv(t)
    ensures Inserted(t, a, |t.profiles| + 1) == Versioned(t, a)
  {
    CurrentIsLast(t.profiles);
  }

  lemma BaseStays(t: Tables, a: Aggregate, n: nat)
    requires Inv(t) && n <= |t.profiles|
    ensures |Versioned(t, a).profiles| == |t.profiles| + 1
    ensures BaseAt(Versioned(t, a), n) == BaseAt(t, n)
  {
    if n > 0 {
      OlderLoadsAsBefore(t, a, n - 1);
    }
  }

  /** Another call's committed version. */
  lemma OtherCommits(t: Tables, a: Aggregate, lock: Option<Pid>, pid: Pid, c: Call)
    requires Inv(t) && CallInv(t, lock, pid, c) && !c.phase.Locked?
    ensures !c.phase.Waiting? ==> CallInv(Versioned(t, a), None, pid, c)
    ensures c.phase.Waiting? ==> CallInv(Versioned(t, a), None, pid, c.(phase := Unseen))
  {
    BaseStays(t, a, c.seen);
    if c.phase.Done? {
      OlderLoadsAsBefore(t, a, c.phase.row);
    }
  }

  lemma OwnCommit(t: Tables, lock: Option<Pid>, pid: Pid, c: Call)
    requires Inv(t) && CallInv(t, lock, pid, c) && c.asked == |t.profiles|
    ensures CallInv(Versioned(t, Row(c)), None, pid, c.(phase := Done(|t.profiles|)))
  {
    BaseStays(t, Row(c), c.seen);
    VersionedIsSound(t, Row(c));
  }

  lemma CommitStaysComplete(t: Tables, lock: Option<Pid>, pid: Pid, c: Call)
    requires Inv(t) && AllComplete(t) && CallInv(t, lock, pid, c)
    ensures AllComplete(Versioned(t, Row(c)))
  {
    var after := Versioned(t, Row(c));
    StoredIsComplete(c.req, c.base);
    VersionedIsSound(t, Row(c));
    forall n | 0 <= n <= |after.profiles| ensures Complete(BaseAt(after, n)) {
      if n <= |t.profiles| {
        BaseStays(t, Row(c), n);
      }
    }
  }

  lemma LockedCommitKeeps(s: State, pid: Pid, c: Call)
    requires Sound(s) && pid in s.calls && c == s.calls[pid] && c.phase.Locked?
    ensures Sound(Committed(s, c, pid))
  {
    assert CallInv(s.tables, s.lock, pid, c);
    InsertedIsVersioned(s.tables, Row(c));
    VersionedIsSound(s.tables, Row(c));
    OwnCommit(s.tables, s.lock, pid, c);
    CommitStaysComplete(s.tables, s.lock, pid, c);
    forall p | p in s.calls && p != pid ensures CallInv(Versioned(s.tables, Row(c)), None, p, Woken(s.calls)[p]) {
      assert CallInv(s.tables, s.lock, p, s.calls[p]);
      OtherCommits(s.tables, Row(c), s.lock, p, s.calls[p]);
    }
  }

  lemma FirstCommitKeeps(s: State, pid: Pid, c: Call)
    requires Sound(s) && pid in s.calls && c == s.calls[pid] && c.phase.Unseen? && Current(s.tables.profiles).None?
    ensures Sound(Committed(s, c, pid))
  {
    CurrentIsLast(s.tables.profiles);
    InsertedIsVersioned(s.tables, Row(c));
    VersionedIsSound(s.tables, Row(c));
    OwnCommit(s.tables, s.lock, pid, c);
    CommitStaysComplete(s.tables, s.lock, pid, c);
    forall p | p in s.calls && p != pid ensures CallInv(Versioned(s.tables, Row(c)), s.lock, p, s.calls[p]) {
      assert CallInv(s.tables, s.lock, p, s.calls[p]);
      OtherCommits(s.tables, Row(c), s.lock, p, s.calls[p]);
    }
  }

  /** A step that leaves the tables alone, and the lock with whoever has it. */
  lemma CallMoves(s: State, pid: Pid, c: Call, lock: Option<Pid>)
    requires Sound(s) && CallInv(s.tables, lock, pid, c)
    requires forall p :: p in s.calls && p != pid && s.calls[p].phase.Locked? ==> lock == s.lock
    ensures Sound(State(s.tables, lock, s.calls[pid := c]))
  {
  }

  lemma ReadKeeps(s: State, pid: Pid, req: Request)
    requires Sound(s) && pid !in s.calls
    ensures Sound(Next(s, Read(pid, req)))
  {
    BaseIsLast(s.tables);
    CallMoves(s, pid, Call(req, Base(s.tables), |s.tables.profiles|, 0, HasBase), s.lock);
  }

  lemma SelectKeeps(s: State, pid: Pid, c: Call)
    requires Sound(s) && pid in s.calls && c == s.calls[pid] && (c.phase.HasBase? || (c.phase.Waiting? && s.lock.None?))
    ensures Sound(Selected(s, c, pid))
  {
    assert CallInv(s.tables, s.lock, pid, c);
    CurrentIsLast(s.tables.profiles);
    if c.phase.HasBase? && s.tables.profiles == [] {
      CallMoves(s, pid, Asking(s, c).(phase := Unseen), s.lock);
    } else if s.lock.Some? {
      CallMoves(s, pid, Asking(s, c).(phase := Waiting), s.lock);
    } else {
      CallMoves(s, pid, Asking(s, c).(phase := Locked(NextVersion(s.tables.profiles))), Some(pid));
    }
  }

  lemma AbortKeeps(s: State, pid: Pid, c: Call)
    requires Sound(s) && pid in s.calls && c == s.calls[pid] && !Over(c)
    ensures Sound(Next(s, Abort(pid)))
  {
    assert CallInv(s.tables, s.lock, pid, c);
    CallMoves(s, pid, c.(phase := Failed), if c.phase.Locked? then None else s.lock);
  }

  lemma CommitKeeps(s: State, pid: Pid, c: Call)
    requires Sound(s) && pid in s.calls && c == s.calls[pid] && (c.phase.Locked? || c.phase.Unseen?)
    ensures Sound(Committed(s, c, pid))
  {
    if c.phase.Locked? {
      LockedCommitKeeps(s, pid, c);
    } else if Current(s.tables.profiles).Some? {
      CallMoves(s, pid, c.(phase := Refused), s.lock);
    } else {
      FirstCommitKeeps(s, pid, c);
    }
  }

  lemma StepKeeps(s: State, step: Step)
    requires Sound(s)
    ensures Sound(Next(s, step))
  {
    var pid := step.pid;
    if pid !in s.calls {
      if step.Read? {
        ReadKeeps(s, pid, step.req);
      }
    } else {
      var c := s.calls[pid];
      if step.Select? && (c.phase.HasBase? || (c.phase.Waiting? && s.lock.None?)) {
        SelectKeeps(s, pid, c);
      } else if step.Commit? && (c.phase.Locked? || c.phase.Unseen?) {
        CommitKeeps(s, pid, c);
      } else if step.Abort? && !Over(c) {
        AbortKeeps(s, pid, c);
      }
    }
  }

  lemma {:induction false} AlwaysSound(steps: seq<Step>)
    ensures Sound(Interleave(steps))
  {
    if steps == [] {
      TemplateIsComplete("");
    } else {
      AlwaysSound(steps[..|steps| - 1]);
      StepKeeps(Interleave(steps[..|steps| - 1]), steps[|steps| - 1]);
    }
  }
}
