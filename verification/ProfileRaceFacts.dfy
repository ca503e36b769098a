/** What concurrent profile saves guarantee, which of them go through, and which lose what another
    changed. */
module ProfileRaceFacts {
  import opened Text
  import opened Collections
  import opened ProfileContent
  import opened Profiles
  import opened ProfileRaces

  // ----- what every interleaving guarantees -----

  /** The versions are exactly 1..k, the last alone is current, and every child belongs to a version. */
  lemma {:induction false} RacesKeepVersions(steps: seq<Step>)
    ensures Inv(Interleave(steps).tables)
  {
    AlwaysSound(steps);
  }

  /** A save that went through merged its request over the version that was current when it read its
      base, and stored that as a version of its own after it: whatever was saved in between is not in
      it unless the request says so. */
  lemma {:induction false} SavedOverWhatItRead(steps: seq<Step>, pid: Pid)
    requires pid in Interleave(steps).calls && Interleave(steps).calls[pid].phase.Done?
    ensures var s, c := Interleave(steps), Interleave(steps).calls[pid];
            && c.seen <= c.phase.row < |s.tables.profiles|
            && Load(s.tables, c.phase.row) == Stored(Merge(c.req, BaseAt(s.tables, c.seen)))
  {
    AlwaysSound(steps);
    assert CallInv(Interleave(steps).tables, Interleave(steps).lock, pid, Interleave(steps).calls[pid]);
  }

  /** A save loses nothing of the versions that came between its read and its own exactly when what it
      read and what was current before it agree wherever its request is silent: then it stored the
      request merged over its predecessor. Before it commits that can be told from the request, the
      base and the current version. */
  lemma {:induction false} NothingIsLostIff(steps: seq<Step>, pid: Pid)
    requires pid in Interleave(steps).calls && Interleave(steps).calls[pid].phase.Done?
    ensures var t, c := Interleave(steps).tables, Interleave(steps).calls[pid];
            && c.seen <= c.phase.row < |t.profiles|
            && (Load(t, c.phase.row) == Stored(Merge(c.req, BaseAt(t, c.phase.row)))
                <==> AgreeWhereSilent(c.req, BaseAt(t, c.seen), BaseAt(t, c.phase.row)))
  {
    AlwaysSound(steps);
    LostIff(Interleave(steps).tables, Interleave(steps).lock, pid, Interleave(steps).calls[pid]);
  }

  lemma LostIff(t: Tables, lock: Option<Pid>, pid: Pid, c: Call)
    requires AllComplete(t) && CallInv(t, lock, pid, c) && c.phase.Done?
    ensures Load(t, c.phase.row) == Stored(Merge(c.req, BaseAt(t, c.phase.row)))
            <==> AgreeWhereSilent(c.req, BaseAt(t, c.seen), BaseAt(t, c.phase.row))
  {
    SameMergeIff(c.req, BaseAt(t, c.seen), BaseAt(t, c.phase.row));
  }

  /** So a save whose version directly follows what it saw loses nothing. */
  lemma {:induction false} NextVersionLosesNothing(steps: seq<Step>, pid: Pid)
    requires pid in Interleave(steps).calls && Interleave(steps).calls[pid].phase == Done(Interleave(steps).calls[pid].seen)
    ensures var t, c := Interleave(steps).tables, Interleave(steps).calls[pid];
            c.seen < |t.profiles| && Load(t, c.seen) == Stored(Merge(c.req, BaseAt(t, c.seen)))
  {
    SavedOverWhatItRead(steps, pid);
  }

  /** A save that first asked for the current row when there were n versions goes through if there are
      still n when it commits, and is refused if there are more: whether it got the lock at once, after
      another gave up, or found no row at all. While it waits there are n. */
  lemma {:induction false} GoesThroughIff(steps: seq<Step>, pid: Pid)
    requires pid in Interleave(steps).calls
    ensures var s, c := Interleave(steps), Interleave(steps).calls[pid];
            && (c.phase.Waiting? ==> |s.tables.profiles| == c.asked)
            && (c.phase.Locked? || c.phase.Unseen? ==>
                  var after := Next(s, Commit(pid)).calls;
                  && pid in after
                  && (after[pid].phase == Done(c.asked) <==> |s.tables.profiles| == c.asked)
                  && (after[pid].phase == Refused <==> |s.tables.profiles| > c.asked)
                  && (after[pid].phase == Refused || after[pid].phase == Done(c.asked)))
            && (c.phase.Done? ==> c.phase.row == c.asked)
            && (c.phase.Refused? ==> |s.tables.profiles| > c.asked)
  {
    AlwaysSound(steps);
    AskedDecides(Interleave(steps), pid, Interleave(steps).calls[pid]);
  }

  lemma AskedDecides(s: State, pid: Pid, c: Call)
    requires Sound(s) && pid in s.calls && c == s.calls[pid]
    ensures c.phase.Waiting? ==> |s.tables.profiles| == c.asked
    ensures c.phase.Locked? || c.phase.Unseen? ==>
              pid in Next(s, Commit(pid)).calls
              && Next(s, Commit(pid)).calls[pid].phase == (if |s.tables.profiles| == c.asked then Done(c.asked) else Refused)
              && |s.tables.profiles| >= c.asked
    ensures c.phase.Done? ==> c.phase.row == c.asked
    ensures c.phase.Refused? ==> |s.tables.profiles| > c.asked
  {
    assert CallInv(s.tables, s.lock, pid, c);
    CurrentIsLast(s.tables.profiles);
  }

  lemma WokenUnseen(s: State, holder: Pid, waiter: Pid)
    requires Sound(s) && holder in s.calls && waiter in s.calls && s.calls[holder].phase.Locked? && s.calls[waiter].phase.Waiting?
    ensures var after := Next(s, Commit(holder));
            waiter in after.calls && after.calls[waiter].phase.Unseen? && Current(after.tables.profiles).Some?
  {
    LockedCommitKeeps(s, holder, s.calls[holder]);
    CurrentIsLast(Committed(s, s.calls[holder], holder).tables.profiles);
  }

  lemma UnseenIsRefused(s: State, pid: Pid)
    requires pid in s.calls && s.calls[pid].phase.Unseen? && Current(s.tables.profiles).Some?
    ensures Next(s, Commit(pid)) == s.(calls := s.calls[pid := s.calls[pid].(phase := Refused)])
  {
  }

  /** Who waited for the lock of a save that then committed is refused by the unique index: it finds no
      current row, takes version 1, and a current row is there. */
  lemma {:induction false} WaiterIsRefused(steps: seq<Step>, holder: Pid, waiter: Pid)
    requires holder in Interleave(steps).calls && Interleave(steps).calls[holder].phase.Locked?
    requires waiter in Interleave(steps).calls && Interleave(steps).calls[waiter].phase.Waiting?
    ensures var before := Next(Interleave(steps), Commit(holder));
            var after := Next(before, Commit(waiter));
            waiter in after.calls && after.calls[waiter].phase.Refused? && after.tables == before.tables
  {
    AlwaysSound(steps);
    WokenUnseen(Interleave(steps), holder, waiter);
    UnseenIsRefused(Next(Interleave(steps), Commit(holder)), waiter);
  }

  /** A save that was told nothing of the lock and finds no row either saves the first version or is
      refused; it is refused exactly when there is a version by then. */
  lemma {:induction false} FirstOrRefused(steps: seq<Step>, pid: Pid)
    requires pid in Interleave(steps).calls && Interleave(steps).calls[pid].phase.Unseen?
    ensures var after := Next(Interleave(steps), Commit(pid)).calls[pid].phase;
            if Interleave(steps).tables.profiles == [] then after == Done(0) else after == Refused
  {
    AlwaysSound(steps);
    CurrentIsLast(Interleave(steps).tables.profiles);
  }

  // ----- what each step does -----

  /** A select of the current row: there is none yet, or another holds it, or this call locks it and
      takes the version after it. */
  ghost predicate Selects(s: State, s': State, pid: Pid, c: Call, c': Call) {
    && s'.tables == s.tables
    && c' == c.(phase := c'.phase, asked := if c.phase.HasBase? then |s.tables.profiles| else c.asked)
    && if c.phase.HasBase? && s.tables.profiles == [] then c'.phase == Unseen && s'.lock == s.lock
       else if s.lock.Some? then c'.phase == Waiting && s'.lock == s.lock
       else c'.phase == Locked(|s.tables.profiles| + 1) && s'.lock == Some(pid)
  }

  /** One version more: the request merged over what the call read; the older ones load as before. */
  ghost predicate AddsVersion(t: Tables, t': Tables, c: Call) {
    && |t'.profiles| == |t.profiles| + 1
    && Load(t', |t.profiles|) == Stored(Merge(c.req, c.base))
    && forall i :: 0 <= i < |t.profiles| ==> Load(t', i) == Load(t, i)
  }

  /** A commit by a call for which the row it asked for is still the current one adds its version and
      frees its lock; any other is refused and changes nothing. */
  ghost predicate Commits(s: State, s': State, c: Call, c': Call) {
    if |s.tables.profiles| == c.asked
    then c' == c.(phase := Done(c.asked)) && AddsVersion(s.tables, s'.tables, c) && s'.lock == if c.phase.Locked? then None else s.lock
    else c' == c.(phase := Refused) && s'.tables == s.tables && s'.lock == s.lock
  }

  /** The other calls stay as they are, but for those a commit wakes: they find no current row. */
  ghost predicate OthersStay(s: State, s': State, pid: Pid, wakes: bool) {
    && s'.calls.Keys == s.calls.Keys
    && forall p :: p in s.calls && p != pid ==>
         s'.calls[p] == if wakes && s.calls[p].phase.Waiting? then s.calls[p].(phase := Unseen) else s.calls[p]
  }

  lemma VersionAdded(t: Tables, c: Call)
    requires Inv(t)
    ensures AddsVersion(t, Inserted(t, Row(c), |t.profiles| + 1), c)
  {
    InsertedIsVersioned(t, Row(c));
    VersionedIsSound(t, Row(c));
    forall i | 0 <= i < |t.profiles| ensures Load(Versioned(t, Row(c)), i) == Load(t, i) {
      OlderLoadsAsBefore(t, Row(c), i);
    }
  }

  lemma LockedCommits(s: State, pid: Pid, c: Call)
    requires Sound(s) && pid in s.calls && c == s.calls[pid] && c.phase.Locked?
    ensures var s' := Committed(s, c, pid);
            OthersStay(s, s', pid, true) && pid in s'.calls && Commits(s, s', c, s'.calls[pid])
  {
    assert CallInv(s.tables, s.lock, pid, c);
    VersionAdded(s.tables, c);
  }

  lemma UnseenCommits(s: State, pid: Pid, c: Call)
    requires Sound(s) && pid in s.calls && c == s.calls[pid] && c.phase.Unseen?
    ensures var s' := Committed(s, c, pid);
            OthersStay(s, s', pid, false) && pid in s'.calls && Commits(s, s', c, s'.calls[pid])
  {
    assert CallInv(s.tables, s.lock, pid, c);
    CurrentIsLast(s.tables.profiles);
    if s.tables.profiles == [] {
      VersionAdded(s.tables, c);
    }
  }

  /** What a due step does for its call. */
  ghost predicate DoesItsWork(s: State, step: Step, s': State) {
    var pid := step.pid;
    if pid !in s.calls then
      s' == if step.Read? then s.(calls := s.calls[pid := Call(step.req, BaseAt(s.tables, |s.tables.profiles|), |s.tables.profiles|, 0, HasBase)]) else s
    else
      var c := s.calls[pid];
      match step
      case Read(_, _) => s' == s
      case Select(_) =>
        if c.phase.HasBase? || (c.phase.Waiting? && s.lock.None?)
        then OthersStay(s, s', pid, false) && Selects(s, s', pid, c, s'.calls[pid]) else s' == s
      case Commit(_) =>
        if c.phase.Locked? || c.phase.Unseen?
        then OthersStay(s, s', pid, c.phase.Locked?) && Commits(s, s', c, s'.calls[pid]) else s' == s
      case Abort(_) =>
        if c.phase.Done? || c.phase.Refused? || c.phase.Failed? then s' == s
        else OthersStay(s, s', pid, false) && s'.tables == s.tables && s'.calls[pid] == c.(phase := Failed)
             && s'.lock == if c.phase.Locked? then None else s.lock
  }

  lemma CommitDoesItsWork(s: State, pid: Pid)
    requires Sound(s) && pid in s.calls
    ensures DoesItsWork(s, Commit(pid), Next(s, Commit(pid)))
  {
    var c := s.calls[pid];
    if c.phase.Locked? {
      LockedCommits(s, pid, c);
    } else if c.phase.Unseen? {
      UnseenCommits(s, pid, c);
    }
  }

  lemma SelectDoesItsWork(s: State, pid: Pid)
    requires Sound(s) && pid in s.calls
    ensures DoesItsWork(s, Select(pid), Next(s, Select(pid)))
  {
    CurrentIsLast(s.tables.profiles);
  }

  lemma OtherDoesItsWork(s: State, step: Step)
    requires Sound(s) && (step.pid !in s.calls || step.Read? || step.Abort?)
    ensures DoesItsWork(s, step, Next(s, step))
  {
    BaseIsLast(s.tables);
  }

  /** However saves interleave, each step does its work for its own call: it selects, commits or gives up
      as the tables and the lock then are. */
  lemma {:induction false} EveryStepDoesItsWork(steps: seq<Step>, step: Step)
    ensures DoesItsWork(Interleave(steps), step, Interleave(steps + [step]))
  {
    AlwaysSound(steps);
    InitOfSnoc(steps, step);
    if step.pid !in Interleave(steps).calls || step.Read? || step.Abort? {
      OtherDoesItsWork(Interleave(steps), step);
    } else if step.Select? {
      SelectDoesItsWork(Interleave(steps), step.pid);
    } else {
      CommitDoesItsWork(Interleave(steps), step.pid);
    }
  }

  // ----- an update that is lost -----

  /** A request that names the company and, perhaps, its vision. */
  function Naming(vision: Option<string>): Request {
    Request(RootRequest("Acme", None, vision, None, None, None, None, None, None, None, None, None), None, None, None, None)
  }

  /** A save of such a request that read the empty workspace. */
  function Early(vision: Option<string>, asked: nat, phase: Phase): Call {
    Call(Naming(vision), DefaultAggregate(""), 0, asked, phase)
  }

  const GROW := Some("Grow")

  /** Two saves read the empty workspace; the first sets the vision and commits, the second leaves it
      out, asks after that, and commits. */
  function Overtaking(): seq<Step> {
    BothRead() + [Commit(0)] + [Select(1)] + [Commit(1)]
  }

  function BothRead(): seq<Step> {
    [] + [Read(0, Naming(GROW))] + [Read(1, Naming(None))] + [Select(0)]
  }

  lemma RunSnoc(steps: seq<Step>, step: Step)
    ensures Interleave(steps + [step]) == Next(Interleave(steps), step)
  {
    InitOfSnoc(steps, step);
  }

  lemma BothHaveRead()
    ensures Interleave(BothRead()) == State(EMPTY, None, map[0 := Early(GROW, 0, Unseen), 1 := Early(None, 0, HasBase)])
  {
    var one := [] + [Read(0, Naming(GROW))];
    var two := one + [Read(1, Naming(None))];
    RunSnoc([], Read(0, Naming(GROW)));
    assert Interleave(one).calls == map[0 := Early(GROW, 0, HasBase)];
    RunSnoc(one, Read(1, Naming(None)));
    assert Interleave(two).calls == map[0 := Early(GROW, 0, HasBase), 1 := Early(None, 0, HasBase)];
    RunSnoc(two, Select(0));
    assert Interleave(BothRead()).calls == map[0 := Early(GROW, 0, Unseen), 1 := Early(None, 0, HasBase)];
  }

  /** The first version is in, and nobody holds the lock. */
  lemma FirstIsIn()
    ensures var s := Interleave(BothRead() + [Commit(0)]);
            s.lock == None && |s.tables.profiles| == 1 && s.calls == map[0 := Early(GROW, 0, Done(0)), 1 := Early(None, 0, HasBase)]
  {
    BothHaveRead();
    RunSnoc(BothRead(), Commit(0));
    var s := Interleave(BothRead() + [Commit(0)]);
    assert s.calls == map[0 := Early(GROW, 0, Done(0)), 1 := Early(None, 0, HasBase)];
  }

  lemma SecondIsIn()
    ensures var s := Interleave(Overtaking());
            && |s.tables.profiles| == 2
            && 0 in s.calls && s.calls[0] == Early(GROW, 0, Done(0))
            && 1 in s.calls && s.calls[1] == Early(None, 1, Done(1))
  {
    FirstIsIn();
    var first := BothRead() + [Commit(0)];
    RunSnoc(first, Select(1));
    RunSnoc(first + [Select(1)], Commit(1));
    assert Interleave(first + [Select(1)]).calls[1].phase.Locked?;
  }

  lemma StoredVision(vision: Option<string>, base: Aggregate)
    ensures Stored(Merge(Naming(vision), base)).root.vision == if vision.Some? then vision else base.root.vision
  {
  }

  /** A witness: in that run both saves go through, and the vision the first one set is not in the
      current version. */
  lemma VisionIsLost()
    ensures var t := Interleave(Overtaking()).tables;
            |t.profiles| == 2 && Load(t, 0).root.vision == GROW && Base(t).root.vision == None
  {
    SecondIsIn();
    AlwaysSound(Overtaking());
    SavedOverWhatItRead(Overtaking(), 0);
    SavedOverWhatItRead(Overtaking(), 1);
    StoredVision(GROW, DefaultAggregate(""));
    StoredVision(None, DefaultAggregate(""));
    BaseIsLast(Interleave(Overtaking()).tables);
  }
}
