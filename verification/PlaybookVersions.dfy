/** Playbook versions: many generators read the latest version of their target, insert the next
    one, and retry when the unique index says another took it. */
module PlaybookVersions {
  import opened Text

  datatype Target = Target(kind: string, id: string)

  type Pid = nat

  /** A stored playbook; `author` names the call that inserted it. */
  datatype Playbook = Playbook(target: Target, version: nat, content: string, createdAt: nat, author: Pid)

  const MAX_VERSION_RETRIES := 3

  // ----- the table, rows in commit order -----

  function Rows(table: seq<Playbook>, t: Target): seq<Playbook> {
    if table == [] then []
    else
      var n := |table| - 1;
      Rows(table[..n], t) + (if table[n].target == t then [table[n]] else [])
  }

  predicate Taken(table: seq<Playbook>, t: Target, version: nat) {
    exists i :: 0 <= i < |table| && table[i].target == t && table[i].version == version
  }

  /** `SELECT MAX(version)`, 0 when there is no row. */
  function LatestVersion(table: seq<Playbook>, t: Target): nat {
    if table == [] then 0
    else
      var n := |table| - 1;
      var before := LatestVersion(table[..n], t);
      if table[n].target == t && table[n].version > before then table[n].version else before
  }

  /** The k-th row of every target, counting from one, has version k. */
  ghost predicate Numbered(table: seq<Playbook>) {
    forall i :: 0 <= i < |table| ==> table[i].version == |Rows(table[..i], table[i].target)| + 1
  }

  lemma RowsSnoc(table: seq<Playbook>, row: Playbook, t: Target)
    ensures Rows(table + [row], t) == Rows(table, t) + (if row.target == t then [row] else [])
  {
    assert (table + [row])[..|table|] == table;
  }

  lemma NumberedInit(table: seq<Playbook>)
    requires Numbered(table) && table != []
    ensures Numbered(table[..|table| - 1])
  {
    var n := |table| - 1;
    forall i | 0 <= i < n ensures table[..n][i].version == |Rows(table[..n][..i], table[..n][i].target)| + 1 {
      assert table[..n][..i] == table[..i];
    }
  }

  lemma {:induction false} NumberedRows(table: seq<Playbook>, t: Target)
    requires Numbered(table)
    ensures LatestVersion(table, t) == |Rows(table, t)|
    ensures forall k :: 0 <= k < |Rows(table, t)| ==> Rows(table, t)[k].version == k + 1 && Rows(table, t)[k].target == t
  {
    if table != [] {
      NumberedInit(table);
      NumberedRows(table[..|table| - 1], t);
    }
  }

  lemma {:induction false} RowIndex(table: seq<Playbook>, i: nat) returns (k: nat)
    requires i < |table|
    ensures k < |Rows(table, table[i].target)| && Rows(table, table[i].target)[k] == table[i]
  {
    var n := |table| - 1;
    if i < n {
      k := RowIndex(table[..n], i);
    } else {
      k := |Rows(table[..n], table[i].target)|;
    }
  }

  lemma {:induction false} RowsOfTable(table: seq<Playbook>, t: Target, k: nat) returns (i: nat)
    requires k < |Rows(table, t)|
    ensures i < |table| && table[i] == Rows(table, t)[k]
  {
    var n := |table| - 1;
    if k < |Rows(table[..n], t)| {
      i := RowsOfTable(table[..n], t, k);
    } else {
      i := n;
    }
  }

  lemma TakenUpToLatest(table: seq<Playbook>, t: Target, v: nat)
    requires Numbered(table)
    ensures Taken(table, t, v) <==> 1 <= v <= |Rows(table, t)|
  {
    NumberedRows(table, t);
    if Taken(table, t, v) {
      var i :| 0 <= i < |table| && table[i].target == t && table[i].version == v;
      var k := RowIndex(table, i);
    } else if 1 <= v <= |Rows(table, t)| {
      var i := RowsOfTable(table, t, v - 1);
    }
  }

  lemma NumberedSnoc(table: seq<Playbook>, row: Playbook)
    requires Numbered(table) && row.version == |Rows(table, row.target)| + 1
    ensures Numbered(table + [row])
  {
    var after := table + [row];
    forall i | 0 <= i < |after| ensures after[i].version == |Rows(after[..i], after[i].target)| + 1 {
      assert after[..i] == if i < |table| then table[..i] else table;
    }
  }

  // ----- one call of persistNewVersion, step by step -----

  datatype Failure = VersionConflict | DatabaseError

  /** Where a call stands: about to read, holding the version it read, holding a stamped row, or
      finished. `attempt` counts from zero; `at` is the place of the stored row. */
  datatype Phase = Reading(attempt: nat) | HasLatest(attempt: nat, latest: nat)
                 | Inserting(attempt: nat, latest: nat, stamp: nat) | Stored(version: nat, at: nat) | Failed(failure: Failure)

  /** `start` is the length of the table when the call began, `base` how many of its rows were
      for the call's target. */
  datatype Call = Call(target: Target, content: string, phase: Phase, start: nat, base: nat)

  datatype State = State(table: seq<Playbook>, clock: nat, calls: map<Pid, Call>)

  datatype Step =
    | Begin(pid: Pid, target: Target, content: string)
    | Read(pid: Pid)
    | Stamp(pid: Pid)
    | Insert(pid: Pid)
    | Fault(pid: Pid)

  const INIT := State([], 0, map[])

  function RowOf(c: Call, pid: Pid): Playbook
    requires c.phase.Inserting?
  {
    Playbook(c.target, c.phase.latest + 1, c.content, c.phase.stamp, pid)
  }

  function Began(table: seq<Playbook>, target: Target, content: string): Call {
    Call(target, content, Reading(0), |table|, |Rows(table, target)|)
  }

  /** What one step makes of the call it belongs to; a step that is not due changes nothing. */
  function Moved(s: State, c: Call, pid: Pid, step: Step): Call {
    match step
    case Begin(_, _, _) => c
    case Read(_) =>
      if c.phase.Reading? then c.(phase := HasLatest(c.phase.attempt, LatestVersion(s.table, c.target))) else c
    case Stamp(_) =>
      // The clock is read when the insert is issued, before it reaches the table.
      if c.phase.HasLatest? then c.(phase := Inserting(c.phase.attempt, c.phase.latest, s.clock)) else c
    case Insert(_) =>
      if !c.phase.Inserting? then c
      else if !Taken(s.table, c.target, c.phase.latest + 1) then c.(phase := Stored(c.phase.latest + 1, |s.table|))
      else if c.phase.attempt < MAX_VERSION_RETRIES then c.(phase := Reading(c.phase.attempt + 1))
      else c.(phase := Failed(VersionConflict))
    case Fault(_) =>
      // The database fails the read or the insert with another error.
      if c.phase.Stored? || c.phase.Failed? then c else c.(phase := Failed(DatabaseError))
  }

  /** One step of one call: only an insert touches the table, only a stamp advances the clock. */
  function Next(s: State, step: Step): State {
    if step.pid !in s.calls then
      if step.Begin? then s.(calls := s.calls[step.pid := Began(s.table, step.target, step.content)]) else s
    else
      var c := s.calls[step.pid];
      var c' := Moved(s, c, step.pid, step);
      State(
        if step.Insert? && c.phase.Inserting? && c'.phase.Stored? then s.table + [RowOf(c, step.pid)] else s.table,
        if step.Stamp? && c.phase.HasLatest? then s.clock + 1 else s.clock,
        s.calls[step.pid := c'])
  }

  function Run(steps: seq<Step>): State {
    if steps == [] then INIT else Next(Run(steps[..|steps| - 1]), steps[|steps| - 1])
  }

  // ----- the invariant -----

  function AttemptsLost(c: Call): nat {
    match c.phase
    case Reading(a) => a
    case HasLatest(a, _) => a
    case Inserting(a, _, _) => a
    case Failed(VersionConflict) => MAX_VERSION_RETRIES + 1
    case _ => 0
  }

  ghost predicate Started(table: seq<Playbook>, c: Call) {
    c.start <= |table| && c.base == |Rows(table[..c.start], c.target)|
  }

  /** Every lost attempt has seen another row of the target committed since the call began. */
  ghost predicate Counted(c: Call, rows: nat) {
    && c.base + AttemptsLost(c) <= rows
    && (!c.phase.Failed? ==> AttemptsLost(c) <= MAX_VERSION_RETRIES)
    && (c.phase.HasLatest? || c.phase.Inserting? ==> c.base + AttemptsLost(c) <= c.phase.latest <= rows)
  }

  /** A stamp taken after a read is later than every row that was read. */
  ghost predicate StampedAfter(c: Call, rows: seq<Playbook>, clock: nat) {
    c.phase.Inserting? ==>
      c.phase.stamp < clock && forall k :: 0 <= k < c.phase.latest && k < |rows| ==> rows[k].createdAt < c.phase.stamp
  }

  /** A call that stored its row has exactly that one in the table, any other call has none. */
  ghost predicate Owns(table: seq<Playbook>, pid: Pid, c: Call) {
    && (forall i :: 0 <= i < |table| && table[i].author == pid ==> c.phase.Stored? && i == c.phase.at)
    && (c.phase.Stored? ==>
          && c.start <= c.phase.at < |table|
          && var row := table[c.phase.at];
             row.author == pid && row.target == c.target && row.content == c.content && row.version == c.phase.version)
  }

  ghost predicate CallInv(table: seq<Playbook>, clock: nat, pid: Pid, c: Call) {
    && Started(table, c)
    && Counted(c, |Rows(table, c.target)|)
    && StampedAfter(c, Rows(table, c.target), clock)
    && Owns(table, pid, c)
  }

  /** Within a target, later rows are stamped later. */
  ghost predicate InTimeOrder(rows: seq<Playbook>) {
    forall j, k :: 0 <= j < k < |rows| ==> rows[j].createdAt < rows[k].createdAt
  }

  ghost predicate StampsBelow(rows: seq<Playbook>, clock: nat) {
    forall i :: 0 <= i < |rows| ==> rows[i].createdAt < clock
  }

  ghost predicate TableInv(table: seq<Playbook>, clock: nat) {
    && Numbered(table)
    && StampsBelow(table, clock)
    && forall t :: InTimeOrder(Rows(table, t))
  }

  ghost predicate Authored(table: seq<Playbook>, calls: map<Pid, Call>) {
    forall i :: 0 <= i < |table| ==> table[i].author in calls
  }

  ghost predicate CallsInv(table: seq<Playbook>, clock: nat, calls: map<Pid, Call>) {
    forall pid :: pid in calls ==> CallInv(table, clock, pid, calls[pid])
  }

  ghost predicate Inv(s: State) {
    TableInv(s.table, s.clock) && Authored(s.table, s.calls) && CallsInv(s.table, s.clock, s.calls)
  }

  lemma RowsBelow(table: seq<Playbook>, t: Target, clock: nat)
    requires StampsBelow(table, clock)
    ensures StampsBelow(Rows(table, t), clock)
  {
    forall k | 0 <= k < |Rows(table, t)| ensures Rows(table, t)[k].createdAt < clock {
      var i := RowsOfTable(table, t, k);
    }
  }

  /** A step that leaves the table alone only has to answer for its own call. */
  lemma CallKeeps(s: State, pid: Pid, c: Call, clock: nat)
    requires Inv(s) && s.clock <= clock && CallInv(s.table, clock, pid, c)
    ensures Inv(State(s.table, clock, s.calls[pid := c]))
  {
  }

  /** Another call's row leaves what a call knows in place. */
  lemma AppendKeepsCall(table: seq<Playbook>, clock: nat, pid: Pid, c: Call, row: Playbook)
    requires CallInv(table, clock, pid, c) && row.author != pid
    ensures CallInv(table + [row], clock, pid, c)
  {
    RowsSnoc(table, row, c.target);
    assert (table + [row])[..c.start] == table[..c.start];
  }

  lemma BeganIsSound(s: State, pid: Pid, target: Target, content: string)
    requires Inv(s) && pid !in s.calls
    ensures CallInv(s.table, s.clock, pid, Began(s.table, target, content))
  {
    assert s.table[..|s.table|] == s.table;
  }

  lemma ReadIsSound(table: seq<Playbook>, clock: nat, pid: Pid, c: Call)
    requires Numbered(table) && CallInv(table, clock, pid, c) && c.phase.Reading?
    ensures CallInv(table, clock, pid, c.(phase := HasLatest(c.phase.attempt, LatestVersion(table, c.target))))
  {
    NumberedRows(table, c.target);
  }

  lemma StampIsSound(table: seq<Playbook>, clock: nat, pid: Pid, c: Call)
    requires StampsBelow(table, clock) && CallInv(table, clock, pid, c) && c.phase.HasLatest?
    ensures CallInv(table, clock + 1, pid, c.(phase := Inserting(c.phase.attempt, c.phase.latest, clock)))
  {
    RowsBelow(table, c.target, clock);
  }

  /** A version that is taken was taken by somebody since the read; one that is free is the next. */
  lemma FreeIsNext(table: seq<Playbook>, clock: nat, pid: Pid, c: Call)
    requires Numbered(table) && CallInv(table, clock, pid, c) && c.phase.Inserting?
    ensures var n := |Rows(table, c.target)|;
            if Taken(table, c.target, c.phase.latest + 1) then c.base + c.phase.attempt + 1 <= n
            else c.phase.latest == n
  {
    TakenUpToLatest(table, c.target, c.phase.latest + 1);
  }

  lemma ConflictIsSound(s: State, pid: Pid, c: Call)
    requires Numbered(s.table) && CallInv(s.table, s.clock, pid, c) && c.phase.Inserting?
    requires Taken(s.table, c.target, c.phase.latest + 1)
    ensures CallInv(s.table, s.clock, pid, Moved(s, c, pid, Insert(pid)))
  {
    FreeIsNext(s.table, s.clock, pid, c);
  }

  lemma CommitKeepsTable(table: seq<Playbook>, clock: nat, pid: Pid, c: Call)
    requires TableInv(table, clock) && CallInv(table, clock, pid, c) && c.phase.Inserting?
    requires c.phase.latest == |Rows(table, c.target)|
    ensures TableInv(table + [RowOf(c, pid)], clock)
  {
    var row := RowOf(c, pid);
    NumberedSnoc(table, row);
    forall t ensures InTimeOrder(Rows(table + [row], t)) {
      RowsSnoc(table, row, t);
      assert InTimeOrder(Rows(table, t));
    }
  }

  lemma CommitIsSound(table: seq<Playbook>, clock: nat, pid: Pid, c: Call)
    requires CallInv(table, clock, pid, c) && c.phase.Inserting? && c.phase.latest == |Rows(table, c.target)|
    ensures CallInv(table + [RowOf(c, pid)], clock, pid, c.(phase := Stored(c.phase.latest + 1, |table|)))
  {
    RowsSnoc(table, RowOf(c, pid), c.target);
    assert (table + [RowOf(c, pid)])[..c.start] == table[..c.start];
  }

  lemma CommitKeepsOthers(s: State, pid: Pid, row: Playbook)
    requires CallsInv(s.table, s.clock, s.calls) && row.author == pid
    ensures forall p :: p in s.calls && p != pid ==> CallInv(s.table + [row], s.clock, p, s.calls[p])
  {
    forall p | p in s.calls && p != pid ensures CallInv(s.table + [row], s.clock, p, s.calls[p]) {
      AppendKeepsCall(s.table, s.clock, p, s.calls[p], row);
    }
  }

  lemma AuthoredSnoc(table: seq<Playbook>, calls: map<Pid, Call>, row: Playbook, c: Call)
    requires Authored(table, calls)
    ensures Authored(table + [row], calls[row.author := c])
  {
  }

  lemma CallsWith(table: seq<Playbook>, clock: nat, calls: map<Pid, Call>, pid: Pid, c: Call)
    requires CallInv(table, clock, pid, c)
    requires forall p :: p in calls && p != pid ==> CallInv(table, clock, p, calls[p])
    ensures CallsInv(table, clock, calls[pid := c])
  {
  }

  lemma CommitKeeps(s: State, pid: Pid, c: Call)
    requires Inv(s) && pid in s.calls && c == s.calls[pid] && c.phase.Inserting?
    requires c.phase.latest == |Rows(s.table, c.target)|
    ensures Inv(State(s.table + [RowOf(c, pid)], s.clock, s.calls[pid := c.(phase := Stored(c.phase.latest + 1, |s.table|))]))
  {
    var row, c' := RowOf(c, pid), c.(phase := Stored(c.phase.latest + 1, |s.table|));
    assert CallInv(s.table, s.clock, pid, c);
    CommitKeepsTable(s.table, s.clock, pid, c);
    CommitIsSound(s.table, s.clock, pid, c);
    CommitKeepsOthers(s, pid, row);
    AuthoredSnoc(s.table, s.calls, row, c');
    CallsWith(s.table + [row], s.clock, s.calls, pid, c');
  }

  lemma ConflictKeeps(s: State, pid: Pid, c: Call)
    requires Inv(s) && pid in s.calls && c == s.calls[pid] && c.phase.Inserting?
    requires Taken(s.table, c.target, c.phase.latest + 1)
    ensures Inv(State(s.table, s.clock, s.calls[pid := Moved(s, c, pid, Insert(pid))]))
  {
    ConflictIsSound(s, pid, c);
    CallKeeps(s, pid, Moved(s, c, pid, Insert(pid)), s.clock);
  }

  lemma FreeKeeps(s: State, pid: Pid, c: Call)
    requires Inv(s) && pid in s.calls && c == s.calls[pid] && c.phase.Inserting?
    requires !Taken(s.table, c.target, c.phase.latest + 1)
    ensures Inv(State(s.table + [RowOf(c, pid)], s.clock, s.calls[pid := c.(phase := Stored(c.phase.latest + 1, |s.table|))]))
  {
    FreeIsNext(s.table, s.clock, pid, c);
    CommitKeeps(s, pid, c);
  }

  lemma InsertIs(s: State, pid: Pid, c: Call)
    requires pid in s.calls && c == s.calls[pid] && c.phase.Inserting?
    ensures Next(s, Insert(pid)) ==
            if Taken(s.table, c.target, c.phase.latest + 1) then State(s.table, s.clock, s.calls[pid := Moved(s, c, pid, Insert(pid))])
            else State(s.table + [RowOf(c, pid)], s.clock, s.calls[pid := c.(phase := Stored(c.phase.latest + 1, |s.table|))])
  {
  }

  lemma InsertKeeps(s: State, pid: Pid, c: Call)
    requires Inv(s) && pid in s.calls && c == s.calls[pid] && c.phase.Inserting?
    ensures Inv(Next(s, Insert(pid)))
  {
    InsertIs(s, pid, c);
    if Taken(s.table, c.target, c.phase.latest + 1) {
      ConflictKeeps(s, pid, c);
    } else {
      FreeKeeps(s, pid, c);
    }
  }

  lemma ReadKeeps(s: State, pid: Pid, c: Call)
    requires Inv(s) && pid in s.calls && c == s.calls[pid] && c.phase.Reading?
    ensures Inv(Next(s, Read(pid)))
  {
    ReadIsSound(s.table, s.clock, pid, c);
    CallKeeps(s, pid, c.(phase := HasLatest(c.phase.attempt, LatestVersion(s.table, c.target))), s.clock);
  }

  lemma StampKeeps(s: State, pid: Pid, c: Call)
    requires Inv(s) && pid in s.calls && c == s.calls[pid] && c.phase.HasLatest?
    ensures Inv(Next(s, Stamp(pid)))
  {
    var c' := c.(phase := Inserting(c.phase.attempt, c.phase.latest, s.clock));
    StampIsSound(s.table, s.clock, pid, c);
    CallKeeps(s, pid, c', s.clock + 1);
    assert Next(s, Stamp(pid)) == State(s.table, s.clock + 1, s.calls[pid := c']);
  }

  lemma FaultIsSound(table: seq<Playbook>, clock: nat, pid: Pid, c: Call)
    requires CallInv(table, clock, pid, c) && !c.phase.Stored? && !c.phase.Failed?
    ensures CallInv(table, clock, pid, c.(phase := Failed(DatabaseError)))
  {
  }

  lemma FaultKeeps(s: State, pid: Pid, c: Call)
    requires Inv(s) && pid in s.calls && c == s.calls[pid] && !c.phase.Stored? && !c.phase.Failed?
    ensures Inv(Next(s, Fault(pid)))
  {
    FaultIsSound(s.table, s.clock, pid, c);
    CallKeeps(s, pid, c.(phase := Failed(DatabaseError)), s.clock);
  }

  predicate Due(c: Call, step: Step) {
    match step
    case Begin(_, _, _) => false
    case Read(_) => c.phase.Reading?
    case Stamp(_) => c.phase.HasLatest?
    case Insert(_) => c.phase.Inserting?
    case Fault(_) => !c.phase.Stored? && !c.phase.Failed?
  }

  lemma IdleKeeps(s: State, step: Step)
    requires step.pid in s.calls && !Due(s.calls[step.pid], step)
    ensures Next(s, step) == s
  {
    assert s.calls[step.pid := s.calls[step.pid]] == s.calls;
  }

  lemma BeginKeeps(s: State, step: Step)
    requires Inv(s) && step.pid !in s.calls
    ensures Inv(Next(s, step))
  {
    if step.Begin? {
      BeganIsSound(s, step.pid, step.target, step.content);
      CallKeeps(s, step.pid, Began(s.table, step.target, step.content), s.clock);
    }
  }

  lemma StepKeeps(s: State, step: Step)
    requires Inv(s)
    ensures Inv(Next(s, step))
  {
    if step.pid !in s.calls {
      BeginKeeps(s, step);
    } else if !Due(s.calls[step.pid], step) {
      IdleKeeps(s, step);
    } else {
      match step {
        case Read(pid) => ReadKeeps(s, pid, s.calls[pid]);
        case Stamp(pid) => StampKeeps(s, pid, s.calls[pid]);
        case Insert(pid) => InsertKeeps(s, pid, s.calls[pid]);
        case Fault(pid) => FaultKeeps(s, pid, s.calls[pid]);
      }
    }
  }

  lemma {:induction false} Reachable(steps: seq<Step>)
    ensures Inv(Run(steps))
  {
    if steps != [] {
      Reachable(steps[..|steps| - 1]);
      StepKeeps(Run(steps[..|steps| - 1]), steps[|steps| - 1]);
    }
  }

  // ----- what every interleaving guarantees -----

  /** The versions stored for a target are exactly 1..n, in commit order, with no gap or repeat. */
  lemma {:induction false} VersionsAreExact(steps: seq<Step>, t: Target)
    ensures var rows := Rows(Run(steps).table, t);
            forall k :: 0 <= k < |rows| ==> rows[k].version == k + 1
  {
    Reachable(steps);
    NumberedRows(Run(steps).table, t);
  }

  /** Stored rows never change and never go: an earlier table is a prefix of a later one. */
  lemma {:induction false} RowsAreImmutable(steps: seq<Step>, n: nat)
    requires n <= |steps|
    ensures Run(steps[..n]).table <= Run(steps).table
  {
    if n < |steps| {
      var m := |steps| - 1;
      assert Run(steps[..m]).table <= Run(steps).table;
      assert steps[..m][..n] == steps[..n];
      RowsAreImmutable(steps[..m], n);
    } else {
      assert steps[..n] == steps;
    }
  }

  lemma {:induction false} RowsSplit(table: seq<Playbook>, start: nat, t: Target)
    requires start <= |table|
    ensures |Rows(table, t)| == |Rows(table[..start], t)| + |Rows(table[start..], t)|
  {
    if start == |table| {
      assert table[..start] == table && table[start..] == [];
    } else {
      var n := |table| - 1;
      RowsSplit(table[..n], start, t);
      assert table[..n][..start] == table[..start];
      assert table[start..][..n - start] == table[..n][start..];
    }
  }

  lemma FourCommitted(table: seq<Playbook>, clock: nat, pid: Pid, c: Call)
    requires CallInv(table, clock, pid, c) && c.phase == Failed(VersionConflict)
    ensures c.start <= |table| && |Rows(table[c.start..], c.target)| >= 4
    ensures forall i :: 0 <= i < |table| ==> table[i].author != pid
  {
    RowsSplit(table, c.start, c.target);
  }

  /** A call that gives up on a version conflict saw at least four rows of its target committed by
      other calls while it ran, and stored nothing itself. */
  lemma {:induction false} ConflictNeedsFourOthers(steps: seq<Step>, pid: Pid)
    requires pid in Run(steps).calls && Run(steps).calls[pid].phase == Failed(VersionConflict)
    ensures var s := Run(steps);
            var c := s.calls[pid];
            && c.start <= |s.table| && |Rows(s.table[c.start..], c.target)| >= 4
            && forall i :: 0 <= i < |s.table| ==> s.table[i].author != pid
  {
    Reachable(steps);
    FourCommitted(Run(steps).table, Run(steps).clock, pid, Run(steps).calls[pid]);
  }

  /** A call that succeeds stored its content once, after it began, under the version it reports;
      a call that has not succeeded stored nothing. */
  lemma {:induction false} SuccessStoresOnce(steps: seq<Step>, pid: Pid)
    requires pid in Run(steps).calls
    ensures var s := Run(steps);
            var c := s.calls[pid];
            && (forall i :: 0 <= i < |s.table| && s.table[i].author == pid ==> c.phase.Stored? && i == c.phase.at)
            && (c.phase.Stored? ==>
                  && c.start <= c.phase.at < |s.table|
                  && s.table[c.phase.at] == Playbook(c.target, c.phase.version, c.content, s.table[c.phase.at].createdAt, pid))
  {
    Reachable(steps);
    var s := Run(steps);
    assert CallInv(s.table, s.clock, pid, s.calls[pid]);
  }

  lemma StampOrderIsVersionOrder(table: seq<Playbook>, i: nat, j: nat)
    requires Numbered(table) && i < |table| && j < |table| && table[i].target == table[j].target
    requires InTimeOrder(Rows(table, table[i].target))
    ensures table[i].createdAt < table[j].createdAt <==> table[i].version < table[j].version
  {
    var k := RowIndex(table, i);
    var l := RowIndex(table, j);
    NumberedRows(table, table[i].target);
    OrderedByIndex(Rows(table, table[i].target), k, l);
  }

  lemma OrderedByIndex(rows: seq<Playbook>, k: nat, l: nat)
    requires InTimeOrder(rows) && k < |rows| && l < |rows|
    ensures rows[k].createdAt < rows[l].createdAt <==> k < l
  {
  }

  /** Creation order is version order within a target. */
  lemma {:induction false} CreationFollowsVersion(steps: seq<Step>, i: nat, j: nat)
    requires i < |Run(steps).table| && j < |Run(steps).table|
    requires Run(steps).table[i].target == Run(steps).table[j].target
    ensures var table := Run(steps).table;
            table[i].createdAt < table[j].createdAt <==> table[i].version < table[j].version
  {
    Reachable(steps);
    StampOrderIsVersionOrder(Run(steps).table, i, j);
  }

  // ----- what each step does -----

  /** The call of `c` after a due step: a read learns the number of its target's rows; a stamp takes the
      clock; an insert stores the next version unless that is taken, and then the call reads again, up
      to three times; an error ends it. Nothing else of the call changes. */
  ghost predicate DoesItsWork(s: State, step: Step, s': State, c: Call, c': Call) {
    && c' == c.(phase := c'.phase)
    && (!step.Stamp? ==> s'.clock == s.clock)
    && (!step.Insert? ==> s'.table == s.table)
    && match step
       case Begin(_, _, _) => true
       case Read(_) => c.phase.Reading? && c'.phase == HasLatest(c.phase.attempt, |Rows(s.table, c.target)|)
       case Stamp(_) =>
         c.phase.HasLatest? && c'.phase == Inserting(c.phase.attempt, c.phase.latest, s.clock) && s'.clock == s.clock + 1
       case Insert(pid) => c.phase.Inserting? && Inserts(s, s', c, c', pid)
       case Fault(_) => c'.phase == Failed(DatabaseError)
  }

  ghost predicate Inserts(s: State, s': State, c: Call, c': Call, pid: Pid)
    requires c.phase.Inserting?
  {
    var version := c.phase.latest + 1;
    if exists r :: r in s.table && r.target == c.target && r.version == version then
      s'.table == s.table && c'.phase == if c.phase.attempt < 3 then Reading(c.phase.attempt + 1) else Failed(VersionConflict)
    else
      && s'.table == s.table + [Playbook(c.target, version, c.content, c.phase.stamp, pid)]
      && c'.phase == Stored(version, |s.table|)
  }

  lemma InsertDoesItsWork(s: State, pid: Pid, c: Call)
    requires pid in s.calls && c == s.calls[pid] && c.phase.Inserting?
    ensures DoesItsWork(s, Insert(pid), Next(s, Insert(pid)), c, Next(s, Insert(pid)).calls[pid])
  {
    InsertIs(s, pid, c);
    var version := c.phase.latest + 1;
    if Taken(s.table, c.target, version) {
      var i :| 0 <= i < |s.table| && s.table[i].target == c.target && s.table[i].version == version;
      assert s.table[i] in s.table;
    }
  }

  ghost predicate Works(s: State, step: Step, s': State) {
    if step.pid !in s.calls then
      s' == if step.Begin? then
              s.(calls := s.calls[step.pid := Call(step.target, step.content, Reading(0), |s.table|, |Rows(s.table, step.target)|)])
            else s
    else if !Due(s.calls[step.pid], step) then s' == s
    else
      && s'.calls.Keys == s.calls.Keys
      && (forall p :: p in s.calls && p != step.pid ==> s'.calls[p] == s.calls[p])
      && DoesItsWork(s, step, s', s.calls[step.pid], s'.calls[step.pid])
  }

  lemma InsertWorks(s: State, step: Step)
    requires step.Insert? && step.pid in s.calls && Due(s.calls[step.pid], step)
    ensures Works(s, step, Next(s, step))
  {
    InsertIs(s, step.pid, s.calls[step.pid]);
    InsertDoesItsWork(s, step.pid, s.calls[step.pid]);
  }

  lemma QuietStepWorks(s: State, step: Step)
    requires Numbered(s.table) && !step.Insert? && step.pid in s.calls && Due(s.calls[step.pid], step)
    ensures Works(s, step, Next(s, step))
  {
    NumberedRows(s.table, s.calls[step.pid].target);
  }

  lemma StepDoesItsWork(s: State, step: Step)
    requires Numbered(s.table)
    ensures Works(s, step, Next(s, step))
  {
    if step.pid in s.calls {
      if !Due(s.calls[step.pid], step) {
        IdleKeeps(s, step);
      } else if step.Insert? {
        InsertWorks(s, step);
      } else {
        QuietStepWorks(s, step);
      }
    }
  }

  /** However the calls interleave, each due step does its work for its own call and leaves the others
      alone; a step that is not due changes nothing. */
  lemma {:induction false} EveryStepDoesItsWork(steps: seq<Step>, step: Step)
    ensures Works(Run(steps), step, Run(steps + [step]))
  {
    Reachable(steps);
    assert (steps + [step])[..|steps|] == steps;
    StepDoesItsWork(Run(steps), step);
  }

  // ----- the call itself, against what others commit between its reads and inserts -----

  class PlaybookTable {
    var table: seq<Playbook>
    var clock: nat

    constructor ()
      ensures table == [] && Numbered(table)
    {
      table, clock := [], 0;
    }

    method GetLatestVersion(t: Target) returns (latest: nat)
      ensures latest == LatestVersion(table, t)
    {
      latest := 0;
      for i := 0 to |table|
        invariant latest == LatestVersion(table[..i], t)
      {
        assert table[..i + 1][..i] == table[..i];
        if table[i].target == t && table[i].version > latest {
          latest := table[i].version;
        }
      }
      assert table[..|table|] == table;
    }

    /** The insert: the unique index on target and version is the only arbiter. */
    method Create(row: Playbook) returns (ok: bool)
      modifies this
      ensures ok <==> !Taken(old(table), row.target, row.version)
      ensures table == (if ok then old(table) + [row] else old(table))
      ensures clock == old(clock) + 1
    {
      ok := !Taken(table, row.target, row.version);
      clock := clock + 1;
      if ok {
        table := table + [row];
      }
    }

    /** Reads and inserts with nobody in between. */
    method Commit(target: Target, content: string, author: Pid)
      requires Numbered(table)
      modifies this
      ensures Numbered(table) && |table| == |old(table)| + 1 && old(table) <= table
      ensures var row := table[|old(table)|]; row.target == target && row.content == content && row.author == author
    {
      var latest := GetLatestVersion(target);
      var row := Playbook(target, latest + 1, content, clock, author);
      UnreadIsFree(table, table, target);
      NumberedSnoc(table, row);
      var ok := Create(row);
    }

    /** Other generators commit one row each for the given targets. */
    method Others(targets: seq<Target>, ghost t: Target, pid: Pid)
      requires Numbered(table)
      modifies this
      ensures Numbered(table) && old(table) <= table && StoredBy(pid, table) == StoredBy(pid, old(table))
      ensures Grown(old(table), table, t, t in targets)
    {
      ghost var was := table;
      for i := 0 to |targets|
        invariant Numbered(table) && was <= table && StoredBy(pid, table) == StoredBy(pid, was)
        invariant Grown(was, table, t, t in targets[..i])
      {
        ghost var before := table;
        Commit(targets[i], "", pid + 1);
        OthersNext(was, before, table, targets, i, t, pid);
      }
      assert targets[..|targets|] == targets;
    }

    /** One attempt. It meets a conflict exactly when somebody stored a row of the target between the
        read and the insert, and no call failed otherwise. */
    method Attempt(t: Target, content: string, pid: Pid, w: Window) returns (r: Result)
      requires Numbered(table)
      modifies this
      ensures Numbered(table) && old(table) <= table
      ensures r == Err(VersionConflict) <==> Lost(t, w)
      ensures r == Err(DatabaseError) <==> w.readFails || w.createFails
      ensures r.Ok? ==> |old(table)| < |table| && StoredLast(table, clock, t, content, pid, r.version)
      ensures StoredBy(pid, table) == StoredBy(pid, old(table)) + if r.Ok? then 1 else 0
    {
      if w.readFails {
        return Err(DatabaseError);
      }
      var latest := GetLatestVersion(t);
      ghost var read := table;
      Others(w.others, t, pid);
      UnreadIsFree(read, table, t);
      if w.createFails {
        return Err(DatabaseError);
      }
      var row := Playbook(t, latest + 1, content, clock, pid);
      ghost var before := table;
      var ok := Create(row);
      if ok {
        NumberedSnoc(before, row);
        StoredBySnoc(pid, before, table);
        return Ok(row.version);
      }
      return Err(VersionConflict);
    }

    /** `windows(k)` is what happens around attempt k. The call gives up on the first failing database
        call, and on a conflict exactly when its target is stored in all four windows; on success the
        last row is its own and the one row it stored, and otherwise it stored none. */
    method PersistNewVersion(t: Target, content: string, pid: Pid, windows: nat -> Window) returns (r: Result)
      requires Numbered(table)
      modifies this
      ensures Numbered(table) && old(table) <= table
      ensures r == Err(VersionConflict) <==> LostBefore(t, windows, 4)
      ensures r == Err(DatabaseError) <==> exists k: nat :: k < 4 && FailsIn(t, windows, k)
      ensures r.Ok? ==> |old(table)| < |table| && StoredLast(table, clock, t, content, pid, r.version)
      ensures StoredBy(pid, table) == StoredBy(pid, old(table)) + if r.Ok? then 1 else 0
    {
      var attempt := 0;
      ghost var was := table;
      while true
        invariant 0 <= attempt <= MAX_VERSION_RETRIES
        invariant Numbered(table) && was <= table && StoredBy(pid, table) == StoredBy(pid, was)
        invariant LostBefore(t, windows, attempt)
        decreases MAX_VERSION_RETRIES - attempt
      {
        r := Attempt(t, content, pid, windows(attempt));
        EndsIn(t, windows, attempt);
        if r.Ok? {
          return;
        }
        if r == Err(VersionConflict) && attempt < MAX_VERSION_RETRIES {
          attempt := attempt + 1;
        } else {
          return;
        }
      }
    }
  }

  function Authors(table: seq<Playbook>): seq<Pid> {
    seq(|table|, i requires 0 <= i < |table| => table[i].author)
  }

  /** How many rows the call stored. */
  function StoredBy(pid: Pid, table: seq<Playbook>): nat {
    multiset(Authors(table))[pid]
  }

  lemma StoredBySnoc(pid: Pid, before: seq<Playbook>, table: seq<Playbook>)
    requires before <= table && |table| == |before| + 1
    ensures StoredBy(pid, table) == StoredBy(pid, before) + if table[|before|].author == pid then 1 else 0
  {
    assert Authors(table) == Authors(before) + [table[|before|].author];
  }

  lemma OthersNext(was: seq<Playbook>, before: seq<Playbook>, table: seq<Playbook>, targets: seq<Target>, i: nat, t: Target, pid: Pid)
    requires i < |targets| && Grown(was, before, t, t in targets[..i])
    requires was <= before <= table && |table| == |before| + 1
    requires table[|before|].target == targets[i] && table[|before|].author != pid
    ensures was <= table && StoredBy(pid, table) == StoredBy(pid, before)
    ensures Grown(was, table, t, t in targets[..i + 1])
  {
    StoredBySnoc(pid, before, table);
    GrownByOne(was, before, table, t, t in targets[..i]);
    assert targets[..i + 1] == targets[..i] + [targets[i]];
  }

  /** What happens around one attempt: the read or the insert may fail, and others store a row for
      each of these targets in between. */
  datatype Window = Window(readFails: bool, others: seq<Target>, createFails: bool)

  datatype Result = Ok(version: nat) | Err(failure: Failure)

  /** The attempt meets a conflict. */
  ghost predicate Lost(t: Target, w: Window) {
    !w.readFails && !w.createFails && t in w.others
  }

  /** The first `n` attempts meet one. */
  ghost predicate LostBefore(t: Target, windows: nat -> Window, n: nat) {
    forall k: nat :: k < n ==> Lost(t, windows(k))
  }

  /** Attempt k is the first that meets none, and a database call of it fails. */
  ghost predicate FailsIn(t: Target, windows: nat -> Window, k: nat) {
    LostBefore(t, windows, k) && (windows(k).readFails || windows(k).createFails)
  }

  /** Attempt k is the first that meets none, and goes through. */
  ghost predicate GoesThroughIn(t: Target, windows: nat -> Window, k: nat) {
    LostBefore(t, windows, k) && !windows(k).readFails && !windows(k).createFails && t !in windows(k).others
  }

  /** The call ends with attempt k at the latest: lost only if that is the last and all are. */
  lemma EndsIn(t: Target, windows: nat -> Window, k: nat)
    requires k < 4 && LostBefore(t, windows, k)
    ensures Lost(t, windows(k)) ==> LostBefore(t, windows, k + 1)
    ensures !Lost(t, windows(k)) ==> !LostBefore(t, windows, 4)
    ensures !Lost(t, windows(k)) ==> ((exists n: nat :: n < 4 && FailsIn(t, windows, n)) <==> FailsIn(t, windows, k))
    ensures k == 3 && Lost(t, windows(3)) ==> !exists n: nat :: n < 4 && FailsIn(t, windows, n)
  {
    if !Lost(t, windows(k)) && exists n: nat :: n < 4 && FailsIn(t, windows, n) {
      var n: nat :| n < 4 && FailsIn(t, windows, n);
      assert n == k by {
        assert n < k ==> Lost(t, windows(n));
      }
    }
  }

  /** A call ends in one way: four conflicts, or a first attempt without one, which fails or goes through. */
  lemma {:induction false} CallEndsOneWay(t: Target, windows: nat -> Window, n: nat) returns (k: nat)
    requires n <= 4
    ensures LostBefore(t, windows, n) || (k < n && FailsIn(t, windows, k)) || (k < n && GoesThroughIn(t, windows, k))
    ensures forall j: nat :: j < n && (FailsIn(t, windows, j) || GoesThroughIn(t, windows, j)) ==> j == k && !LostBefore(t, windows, n)
  {
    k := 0;
    if n > 0 {
      k := CallEndsOneWay(t, windows, n - 1);
      if LostBefore(t, windows, n - 1) {
        k := n - 1;
      }
    }
  }

  /** The version after the one read is free exactly when nobody stored a row since; then it is next. */
  lemma UnreadIsFree(read: seq<Playbook>, table: seq<Playbook>, t: Target)
    requires Numbered(read) && Numbered(table) && |Rows(read, t)| <= |Rows(table, t)|
    ensures Taken(table, t, LatestVersion(read, t) + 1) <==> |Rows(table, t)| > |Rows(read, t)|
    ensures LatestVersion(read, t) == |Rows(read, t)|
  {
    NumberedRows(read, t);
    TakenUpToLatest(table, t, LatestVersion(read, t) + 1);
  }

  /** Between the two tables rows of the target were added, if `some`. */
  ghost predicate Grown(was: seq<Playbook>, table: seq<Playbook>, t: Target, some: bool) {
    if some then |Rows(table, t)| > |Rows(was, t)| else |Rows(table, t)| == |Rows(was, t)|
  }

  lemma GrownByOne(was: seq<Playbook>, before: seq<Playbook>, table: seq<Playbook>, t: Target, some: bool)
    requires Grown(was, before, t, some) && |table| == |before| + 1 && before <= table
    ensures Grown(was, table, t, some || table[|before|].target == t)
  {
    assert table == before + [table[|before|]];
    RowsSnoc(before, table[|before|], t);
  }

  /** The last row is the caller's, stamped just before the clock. */
  ghost predicate StoredLast(table: seq<Playbook>, clock: nat, t: Target, content: string, pid: Pid, version: nat) {
    clock > 0 && table != [] && table[|table| - 1] == Playbook(t, version, content, clock - 1, pid)
  }

  // ----- the list of custom playbooks -----

  predicate Listed(rows: seq<Playbook>, id: string) {
    exists i :: 0 <= i < |rows| && rows[i].target.id == id
  }

  /** The rows whose target stands nowhere before them. */
  function FirstPerTarget(rows: seq<Playbook>): seq<Playbook> {
    if rows == [] then []
    else
      var n := |rows| - 1;
      FirstPerTarget(rows[..n]) + (if Listed(rows[..n], rows[n].target.id) then [] else [rows[n]])
  }

  method ListCustom(rows: seq<Playbook>) returns (out: seq<Playbook>)
    ensures out == FirstPerTarget(rows)
  {
    out := [];
    var seen: set<string> := {};
    for n := 0 to |rows|
      invariant out == FirstPerTarget(rows[..n])
      invariant forall id :: id in seen <==> Listed(rows[..n], id)
    {
      var r := rows[n];
      assert rows[..n + 1][..n] == rows[..n];
      ListedSnoc(rows[..n], r);
      assert rows[..n + 1] == rows[..n] + [r];
      if r.target.id in seen {
        continue;
      }
      seen, out := seen + {r.target.id}, out + [r];
    }
    assert rows[..|rows|] == rows;
  }

  lemma ListedSnoc(rows: seq<Playbook>, r: Playbook)
    ensures forall id :: Listed(rows + [r], id) <==> Listed(rows, id) || id == r.target.id
  {
    forall id | Listed(rows, id) || id == r.target.id ensures Listed(rows + [r], id) {
      if Listed(rows, id) {
        var i :| 0 <= i < |rows| && rows[i].target.id == id;
        assert (rows + [r])[i].target.id == id;
      } else {
        assert (rows + [r])[|rows|].target.id == id;
      }
    }
    forall id | Listed(rows + [r], id) && id != r.target.id ensures Listed(rows, id) {
      var i :| 0 <= i < |rows + [r]| && (rows + [r])[i].target.id == id;
      assert rows[i].target.id == id;
    }
  }

  /** A listed row is one of the rows, and no row before it has its target. */
  lemma {:induction false} ListedIsFirst(rows: seq<Playbook>, k: nat) returns (i: nat)
    requires k < |FirstPerTarget(rows)|
    ensures i < |rows| && rows[i] == FirstPerTarget(rows)[k] && !Listed(rows[..i], rows[i].target.id)
  {
    var n := |rows| - 1;
    if k < |FirstPerTarget(rows[..n])| {
      i := ListedIsFirst(rows[..n], k);
      assert rows[..n][..i] == rows[..i];
    } else {
      i := n;
    }
  }

  /** `at` gives the place of each listed row: ascending, each the first row of its target. */
  ghost predicate ListedAt(rows: seq<Playbook>, out: seq<Playbook>, at: seq<nat>) {
    && |at| == |out|
    && (forall k :: 0 <= k < |at| ==> at[k] < |rows| && out[k] == rows[at[k]] && FirstOfTarget(rows, at[k]))
    && (forall j, k :: 0 <= j < k < |at| ==> at[j] < at[k])
  }

  ghost predicate FirstOfTarget(rows: seq<Playbook>, i: nat)
    requires i < |rows|
  {
    forall j :: 0 <= j < i ==> rows[j].target.id != rows[i].target.id
  }

  lemma NewIsFirst(rows: seq<Playbook>, i: nat)
    requires i < |rows| && !Listed(rows[..i], rows[i].target.id)
    ensures FirstOfTarget(rows, i)
  {
    forall j | 0 <= j < i ensures rows[j].target.id != rows[i].target.id {
      assert rows[..i][j] == rows[j];
    }
  }

  lemma ListedAtNext(init: seq<Playbook>, rows: seq<Playbook>, out: seq<Playbook>, at: seq<nat>)
    requires init <= rows && |rows| == |init| + 1 && ListedAt(init, out, at)
    ensures ListedAt(rows, out, at)
    ensures FirstOfTarget(rows, |init|) ==> ListedAt(rows, out + [rows[|init|]], at + [|init|])
  {
    forall k | 0 <= k < |at| ensures FirstOfTarget(rows, at[k]) {
      assert FirstOfTarget(init, at[k]);
    }
  }

  lemma ListedAtSnoc(init: seq<Playbook>, rows: seq<Playbook>, out: seq<Playbook>, at: seq<nat>) returns (at': seq<nat>)
    requires init <= rows && |rows| == |init| + 1 && ListedAt(init, out, at)
    ensures ListedAt(rows, out + (if Listed(init, rows[|init|].target.id) then [] else [rows[|init|]]), at')
  {
    at' := at;
    ListedAtNext(init, rows, out, at);
    if Listed(init, rows[|init|].target.id) {
      assert out + [] == out;
    } else {
      assert rows[..|init|] == init;
      NewIsFirst(rows, |init|);
      at' := at + [|init|];
    }
  }

  /** The listing keeps the order of the rows. */
  lemma {:induction false} ListedInOrder(rows: seq<Playbook>) returns (at: seq<nat>)
    ensures ListedAt(rows, FirstPerTarget(rows), at)
  {
    at := [];
    if rows != [] {
      var before := ListedInOrder(rows[..|rows| - 1]);
      at := ListedAtSnoc(rows[..|rows| - 1], rows, FirstPerTarget(rows[..|rows| - 1]), before);
    }
  }

  lemma {:induction false} ListedOnce(rows: seq<Playbook>, j: nat, k: nat)
    requires j < k < |FirstPerTarget(rows)|
    ensures FirstPerTarget(rows)[j].target.id != FirstPerTarget(rows)[k].target.id
  {
    var n := |rows| - 1;
    if k < |FirstPerTarget(rows[..n])| {
      ListedOnce(rows[..n], j, k);
    } else {
      var i := ListedIsFirst(rows[..n], j);
      assert Listed(rows[..n], FirstPerTarget(rows)[j].target.id);
    }
  }

  lemma {:induction false} EveryTargetListed(rows: seq<Playbook>, i: nat) returns (k: nat)
    requires i < |rows|
    ensures k < |FirstPerTarget(rows)| && FirstPerTarget(rows)[k].target.id == rows[i].target.id
  {
    var n := |rows| - 1;
    if i < n {
      k := EveryTargetListed(rows[..n], i);
    } else if Listed(rows[..n], rows[n].target.id) {
      var j :| 0 <= j < n && rows[..n][j].target.id == rows[n].target.id;
      k := EveryTargetListed(rows[..n], j);
    } else {
      k := |FirstPerTarget(rows[..n])|;
    }
  }

  /** What the query for one kind returns: its rows, newest first. */
  ghost predicate NewestFirst(table: seq<Playbook>, kind: string, rows: seq<Playbook>) {
    && (forall r :: r in rows <==> r in table && r.target.kind == kind)
    && (forall i, j :: 0 <= i < j < |rows| ==> rows[i].createdAt >= rows[j].createdAt)
  }

  lemma EarlierIsListed(rows: seq<Playbook>, i: nat, j: nat)
    requires j < i <= |rows|
    ensures Listed(rows[..i], rows[j].target.id)
  {
    assert rows[..i][j] == rows[j];
  }

  /** A row of the table with the target of a listed one stands after it in the listing. */
  lemma ListedIsNewest(table: seq<Playbook>, kind: string, rows: seq<Playbook>, k: nat, other: Playbook)
    requires NewestFirst(table, kind, rows) && k < |FirstPerTarget(rows)|
    requires other in table && other.target == FirstPerTarget(rows)[k].target
    ensures other.createdAt <= FirstPerTarget(rows)[k].createdAt
  {
    var i := ListedIsFirst(rows, k);
    assert rows[i] in rows;
    var j :| 0 <= j < |rows| && rows[j] == other;
    if j < i {
      EarlierIsListed(rows, i, j);
    }
  }

  /** A row as new as every row of its target is the last of them. */
  lemma NewestIsLast(table: seq<Playbook>, b: nat)
    requires Numbered(table) && b < |table| && InTimeOrder(Rows(table, table[b].target))
    requires forall other :: other in table && other.target == table[b].target ==> other.createdAt <= table[b].createdAt
    ensures table[b].version == |Rows(table, table[b].target)|
  {
    var rows := Rows(table, table[b].target);
    NumberedRows(table, table[b].target);
    var k := RowIndex(table, b);
    var a := RowsOfTable(table, table[b].target, |rows| - 1);
    assert table[a] in table;
  }

  /** Whatever interleaving filled the table, each row `ListCustom` keeps from the newest-first
      rows carries the highest version of its target. */
  lemma {:induction false} ListedIsLatest(steps: seq<Step>, kind: string, rows: seq<Playbook>, k: nat)
    requires NewestFirst(Run(steps).table, kind, rows) && k < |FirstPerTarget(rows)|
    ensures var r := FirstPerTarget(rows)[k];
            r in Run(steps).table && r.version == |Rows(Run(steps).table, r.target)|
  {
    Reachable(steps);
    var i := ListedIsFirst(rows, k);
    ListedIsLast(Run(steps).table, kind, rows, k, rows[i]);
  }

  lemma ListedIsLast(table: seq<Playbook>, kind: string, rows: seq<Playbook>, k: nat, r: Playbook)
    requires Numbered(table) && forall t :: InTimeOrder(Rows(table, t))
    requires NewestFirst(table, kind, rows) && k < |FirstPerTarget(rows)| && r == FirstPerTarget(rows)[k] && r in rows
    ensures r in table && r.version == |Rows(table, r.target)|
  {
    forall other | other in table && other.target == r.target ensures other.createdAt <= r.createdAt {
      ListedIsNewest(table, kind, rows, k, other);
    }
    var b :| 0 <= b < |table| && table[b] == r;
    NewestIsLast(table, b);
  }
}
