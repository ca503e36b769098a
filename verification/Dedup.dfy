/** Tenders found by discovery runs: each run looks every candidate's dedup key up, inserts what it
    did not find, and takes a refusal by the unique index for a duplicate. Other runs, and people who
    add, edit and delete tenders by hand, work on the same table. */
module Dedup {
  import opened Collections
  import opened Text

  type Pid = nat

  /** `key` is the hash of buyer, title and deadline; empty when there is nothing to hash. */
  datatype Candidate = Candidate(title: string, key: string)

  datatype Tender = Tender(title: string, key: Option<string>)

  /** An empty key is stored as null. */
  function TenderOf(c: Candidate): Tender {
    Tender(c.title, if c.key == "" then None else Some(c.key))
  }

  type Tenders = map<nat, Tender>

  ghost predicate Held(tenders: Tenders, key: string) {
    exists id :: id in tenders && tenders[id].key == Some(key)
  }

  function HeldKeys(tenders: Tenders): set<string> {
    set id | id in tenders && tenders[id].key.Some? :: tenders[id].key.value
  }

  lemma HeldKeysAreHeld(tenders: Tenders, key: string)
    ensures key in HeldKeys(tenders) <==> Held(tenders, key)
  {
    if Held(tenders, key) {
      var id :| id in tenders && tenders[id].key == Some(key);
      assert tenders[id].key.value in HeldKeys(tenders);
    }
  }

  predicate Clashes(tenders: Tenders, t: Tender) {
    t.key.Some? && t.key.value in HeldKeys(tenders)
  }

  // ----- the runs -----

  datatype Outcome = Saved(id: nat) | Duplicate | Unsaved

  /** The candidate at hand is the first without an outcome. */
  datatype Phase = Ready | Absent | Scoring

  /** A run over its batch, with the counters it keeps. As history, `known` are the keys held when it
      began, and `lost` those a tender of which was deleted since. */
  datatype Batch = Batch(candidates: seq<Candidate>, done: seq<Outcome>, phase: Phase,
                         saved: nat, duplicates: nat, unsaved: nat, unscored: nat, known: set<string>, lost: set<string>)

  /** `gone` are the keys whose tender was deleted and that none was stored under since. */
  datatype State = State(tenders: Tenders, next: nat, runs: map<Pid, Batch>, gone: set<string>)

  datatype Step =
    | Begin(pid: Pid, candidates: seq<Candidate>)
    | LookUp(pid: Pid)
    | Insert(pid: Pid)
    | Score(pid: Pid, ok: bool)
    | Fault(pid: Pid)
    | AddByHand(tender: Tender)
    | Edit(id: nat, title: string)
    | Delete(id: nat)

  const INIT := State(map[], 0, map[], {})

  function Counted(b: Batch, outcome: Outcome): Batch {
    b.(done := b.done + [outcome],
       phase := if outcome.Saved? then Scoring else Ready,
       saved := if outcome.Saved? then b.saved + 1 else b.saved,
       duplicates := if outcome.Duplicate? then b.duplicates + 1 else b.duplicates,
       unsaved := if outcome.Unsaved? then b.unsaved + 1 else b.unsaved)
  }

  predicate Open(b: Batch) {
    |b.done| < |b.candidates|
  }

  function LookedUp(tenders: Tenders, b: Batch): Batch
    requires Open(b)
  {
    var c := b.candidates[|b.done|];
    if c.key != "" && c.key in HeldKeys(tenders) then Counted(b, Duplicate) else b.(phase := Absent)
  }

  function WithRun(s: State, pid: Pid, b: Batch): State {
    s.(runs := s.runs[pid := b])
  }

  /** The keys given up for gone after a tender was stored. */
  function GoneAfter(gone: set<string>, t: Tender): set<string> {
    if t.key.Some? then gone - {t.key.value} else gone
  }

  function Added(s: State, t: Tender): State {
    s.(tenders := s.tenders[s.next := t], next := s.next + 1,
       gone := GoneAfter(s.gone, t))
  }

  function Inserted(s: State, pid: Pid, b: Batch): State
    requires Open(b)
  {
    var t := TenderOf(b.candidates[|b.done|]);
    if Clashes(s.tenders, t) then WithRun(s, pid, Counted(b, Duplicate))
    else WithRun(Added(s, t), pid, Counted(b, Saved(s.next)))
  }

  /** An edit leaves the key alone, whatever it makes of the rest. */
  function Edited(s: State, id: nat, title: string): State {
    if id !in s.tenders then s else s.(tenders := s.tenders[id := s.tenders[id].(title := title)])
  }

  /** Every run at work has lost the key. */
  function Losing(runs: map<Pid, Batch>, key: string): map<Pid, Batch> {
    map pid | pid in runs :: runs[pid].(lost := runs[pid].lost + {key})
  }

  function Deleted(s: State, id: nat): State {
    if id !in s.tenders then s
    else if s.tenders[id].key.None? then s.(tenders := s.tenders - {id})
    else
      var key := s.tenders[id].key.value;
      s.(tenders := s.tenders - {id}, gone := s.gone + {key}, runs := Losing(s.runs, key))
  }

  /** One step; a step that is not due changes nothing. */
  function Next(s: State, step: Step): State {
    match step
    case Begin(pid, candidates) =>
      if pid in s.runs then s else WithRun(s, pid, Batch(candidates, [], Ready, 0, 0, 0, 0, HeldKeys(s.tenders), {}))
    case LookUp(pid) =>
      if pid in s.runs && Open(s.runs[pid]) && s.runs[pid].phase.Ready? then WithRun(s, pid, LookedUp(s.tenders, s.runs[pid])) else s
    case Insert(pid) =>
      if pid in s.runs && Open(s.runs[pid]) && s.runs[pid].phase.Absent? then Inserted(s, pid, s.runs[pid]) else s
    case Score(pid, ok) =>
      // A tender that fails to score is kept; only the error is counted.
      if pid in s.runs && s.runs[pid].phase.Scoring? then
        WithRun(s, pid, s.runs[pid].(phase := Ready, unscored := if ok then s.runs[pid].unscored else s.runs[pid].unscored + 1))
      else s
    case Fault(pid) =>
      // The lookup or the insert fails with another error: this candidate only is given up.
      if pid in s.runs && Open(s.runs[pid]) && !s.runs[pid].phase.Scoring? then WithRun(s, pid, Counted(s.runs[pid], Unsaved)) else s
    case AddByHand(tender) => if Clashes(s.tenders, tender) then s else Added(s, tender)
    case Edit(id, title) => Edited(s, id, title)
    case Delete(id) => Deleted(s, id)
  }

  function Run(steps: seq<Step>): State {
    if steps == [] then INIT else Next(Run(steps[..|steps| - 1]), steps[|steps| - 1])
  }

  // ----- the invariant -----

  ghost predicate UniqueKeys(tenders: Tenders) {
    forall i, j :: i in tenders && j in tenders && i != j && tenders[i].key.Some? ==> tenders[i].key != tenders[j].key
  }

  ghost predicate TableInv(tenders: Tenders, next: nat) {
    UniqueKeys(tenders) && forall id :: id in tenders ==> id < next
  }

  ghost predicate HeldOrGone(tenders: Tenders, gone: set<string>, key: string) {
    Held(tenders, key) || key in gone
  }

  ghost predicate GoneInv(tenders: Tenders, gone: set<string>) {
    forall key :: key in gone ==> !Held(tenders, key)
  }

  function Tally(done: seq<Outcome>): (t: (nat, nat, nat))
    ensures t.0 + t.1 + t.2 == |done|
  {
    if done == [] then (0, 0, 0)
    else
      var (s, d, u) := Tally(done[..|done| - 1]);
      match done[|done| - 1]
      case Saved(_) => (s + 1, d, u)
      case Duplicate => (s, d + 1, u)
      case Unsaved => (s, d, u + 1)
  }

  /** What an outcome says of its candidate from then on. */
  ghost predicate Settled(tenders: Tenders, next: nat, gone: set<string>, known: set<string>, lost: set<string>,
                          c: Candidate, outcome: Outcome) {
    && (outcome.Saved? ==> outcome.id < next && (outcome.id in tenders ==> tenders[outcome.id].key == TenderOf(c).key))
    && (outcome.Saved? && c.key in known && c.key != "" ==> c.key in lost)
    && (outcome.Duplicate? ==> c.key != "")
    && (c.key != "" && !outcome.Unsaved? ==> HeldOrGone(tenders, gone, c.key))
  }

  ghost predicate AllSettled(tenders: Tenders, next: nat, gone: set<string>, b: Batch)
    requires |b.done| <= |b.candidates|
  {
    forall k :: 0 <= k < |b.done| ==> Settled(tenders, next, gone, b.known, b.lost, b.candidates[k], b.done[k])
  }

  ghost predicate KnownHeld(tenders: Tenders, known: set<string>, lost: set<string>) {
    forall key :: key in known ==> HeldOrGone(tenders, lost, key)
  }

  ghost predicate BatchInv(tenders: Tenders, next: nat, gone: set<string>, b: Batch) {
    && |b.done| <= |b.candidates|
    && (b.saved, b.duplicates, b.unsaved) == Tally(b.done)
    && (b.phase.Absent? ==> Open(b))
    && AllSettled(tenders, next, gone, b)
    && KnownHeld(tenders, b.known, b.lost)
  }

  ghost predicate RunsInv(tenders: Tenders, next: nat, gone: set<string>, runs: map<Pid, Batch>) {
    forall pid :: pid in runs ==> BatchInv(tenders, next, gone, runs[pid])
  }

  ghost predicate Inv(s: State) {
    TableInv(s.tenders, s.next) && GoneInv(s.tenders, s.gone) && RunsInv(s.tenders, s.next, s.gone, s.runs)
  }

  // ----- every step keeps it -----

  lemma RunMoves(s: State, pid: Pid, b: Batch)
    requires Inv(s) && BatchInv(s.tenders, s.next, s.gone, b)
    ensures Inv(WithRun(s, pid, b))
  {
  }

  lemma CountedIsSound(tenders: Tenders, next: nat, gone: set<string>, b: Batch, outcome: Outcome)
    requires BatchInv(tenders, next, gone, b) && Open(b)
    requires Settled(tenders, next, gone, b.known, b.lost, b.candidates[|b.done|], outcome)
    ensures BatchInv(tenders, next, gone, Counted(b, outcome))
  {
    assert (b.done + [outcome])[..|b.done|] == b.done;
  }

  lemma LookUpKeeps(s: State, pid: Pid, b: Batch)
    requires Inv(s) && pid in s.runs && b == s.runs[pid] && Open(b) && b.phase.Ready?
    ensures Inv(WithRun(s, pid, LookedUp(s.tenders, b)))
  {
    var c := b.candidates[|b.done|];
    HeldKeysAreHeld(s.tenders, c.key);
    if c.key != "" && c.key in HeldKeys(s.tenders) {
      CountedIsSound(s.tenders, s.next, s.gone, b, Duplicate);
    }
    RunMoves(s, pid, LookedUp(s.tenders, b));
  }

  lemma AddedHolds(tenders: Tenders, id: nat, t: Tender, key: string)
    requires id !in tenders
    ensures Held(tenders[id := t], key) <==> Held(tenders, key) || t.key == Some(key)
  {
    var after := tenders[id := t];
    if Held(tenders, key) {
      var h :| h in tenders && tenders[h].key == Some(key);
      assert after[h].key == Some(key);
    } else if t.key == Some(key) {
      assert after[id].key == Some(key);
    }
  }

  lemma AddedBatch(tenders: Tenders, next: nat, gone: set<string>, b: Batch, t: Tender)
    requires BatchInv(tenders, next, gone, b) && next !in tenders
    ensures BatchInv(tenders[next := t], next + 1, GoneAfter(gone, t), b)
  {
    forall key ensures Held(tenders[next := t], key) <==> Held(tenders, key) || t.key == Some(key) {
      AddedHolds(tenders, next, t, key);
    }
  }

  lemma AddedGone(tenders: Tenders, next: nat, gone: set<string>, t: Tender)
    requires GoneInv(tenders, gone) && next !in tenders
    ensures GoneInv(tenders[next := t], GoneAfter(gone, t))
  {
    forall key | key in GoneAfter(gone, t) ensures !Held(tenders[next := t], key) {
      AddedHolds(tenders, next, t, key);
    }
  }

  lemma AddedTable(tenders: Tenders, next: nat, t: Tender)
    requires TableInv(tenders, next) && !Clashes(tenders, t)
    ensures TableInv(tenders[next := t], next + 1)
  {
    if t.key.Some? {
      HeldKeysAreHeld(tenders, t.key.value);
    }
  }

  lemma AddedKeeps(s: State, t: Tender)
    requires Inv(s) && !Clashes(s.tenders, t)
    ensures Inv(Added(s, t))
  {
    AddedTable(s.tenders, s.next, t);
    AddedGone(s.tenders, s.next, s.gone, t);
    forall pid | pid in s.runs ensures BatchInv(s.tenders[s.next := t], s.next + 1, GoneAfter(s.gone, t), s.runs[pid]) {
      AddedBatch(s.tenders, s.next, s.gone, s.runs[pid], t);
    }
  }

  lemma SavedIsSettled(tenders: Tenders, next: nat, gone: set<string>, b: Batch, c: Candidate)
    requires KnownHeld(tenders, b.known, b.lost) && !Clashes(tenders, TenderOf(c))
    ensures Settled(tenders[next := TenderOf(c)], next + 1, gone, b.known, b.lost, c, Saved(next))
  {
    HeldKeysAreHeld(tenders, c.key);
    assert tenders[next := TenderOf(c)][next] == TenderOf(c);
  }

  lemma InsertKeeps(s: State, pid: Pid, b: Batch)
    requires Inv(s) && pid in s.runs && b == s.runs[pid] && Open(b) && b.phase.Absent?
    ensures Inv(Inserted(s, pid, b))
  {
    var c := b.candidates[|b.done|];
    if Clashes(s.tenders, TenderOf(c)) {
      HeldKeysAreHeld(s.tenders, c.key);
      CountedIsSound(s.tenders, s.next, s.gone, b, Duplicate);
      RunMoves(s, pid, Counted(b, Duplicate));
    } else {
      SavedKeeps(s, pid, b, c);
    }
  }

  lemma SavedKeeps(s: State, pid: Pid, b: Batch, c: Candidate)
    requires Inv(s) && pid in s.runs && b == s.runs[pid] && Open(b) && c == b.candidates[|b.done|]
    requires !Clashes(s.tenders, TenderOf(c))
    ensures Inv(WithRun(Added(s, TenderOf(c)), pid, Counted(b, Saved(s.next))))
  {
    var gone := GoneAfter(s.gone, TenderOf(c));
    AddedKeeps(s, TenderOf(c));
    SavedIsSettled(s.tenders, s.next, gone, b, c);
    AddedBatch(s.tenders, s.next, s.gone, b, TenderOf(c));
    CountedIsSound(s.tenders[s.next := TenderOf(c)], s.next + 1, gone, b, Saved(s.next));
    RunMoves(Added(s, TenderOf(c)), pid, Counted(b, Saved(s.next)));
  }

  lemma EditedHolds(tenders: Tenders, id: nat, title: string, key: string)
    requires id in tenders
    ensures Held(tenders[id := tenders[id].(title := title)], key) <==> Held(tenders, key)
  {
    var after := tenders[id := tenders[id].(title := title)];
    if Held(tenders, key) {
      var h :| h in tenders && tenders[h].key == Some(key);
      assert after[h].key == Some(key);
    }
  }

  lemma EditedKeeps(s: State, id: nat, title: string)
    requires Inv(s) && id in s.tenders
    ensures Inv(Edited(s, id, title))
  {
    forall key ensures Held(Edited(s, id, title).tenders, key) <==> Held(s.tenders, key) {
      EditedHolds(s.tenders, id, title, key);
    }
  }

  lemma DeletedHolds(tenders: Tenders, id: nat, key: string)
    requires id in tenders && UniqueKeys(tenders)
    ensures Held(tenders - {id}, key) <==> Held(tenders, key) && tenders[id].key != Some(key)
  {
    var after := tenders - {id};
    if Held(tenders, key) {
      var h :| h in tenders && tenders[h].key == Some(key);
      if h != id {
        assert after[h].key == Some(key);
      }
    }
  }

  lemma DeletedBatch(s: State, id: nat, b: Batch)
    requires BatchInv(s.tenders, s.next, s.gone, b) && UniqueKeys(s.tenders) && id in s.tenders
    ensures s.tenders[id].key.None? ==> BatchInv(s.tenders - {id}, s.next, s.gone, b)
    ensures s.tenders[id].key.Some? ==>
              var key := s.tenders[id].key.value;
              BatchInv(s.tenders - {id}, s.next, s.gone + {key}, b.(lost := b.lost + {key}))
  {
    forall key ensures Held(s.tenders - {id}, key) <==> Held(s.tenders, key) && s.tenders[id].key != Some(key) {
      DeletedHolds(s.tenders, id, key);
    }
  }

  lemma DeletedGone(s: State, id: nat)
    requires GoneInv(s.tenders, s.gone) && UniqueKeys(s.tenders)
    ensures GoneInv(Deleted(s, id).tenders, Deleted(s, id).gone)
  {
    if id in s.tenders {
      forall key | key in Deleted(s, id).gone ensures !Held(s.tenders - {id}, key) {
        DeletedHolds(s.tenders, id, key);
      }
    }
  }

  lemma DeletedKeeps(s: State, id: nat)
    requires Inv(s)
    ensures Inv(Deleted(s, id))
  {
    DeletedGone(s, id);
    if id in s.tenders {
      forall pid | pid in s.runs ensures BatchInv(s.tenders - {id}, s.next, Deleted(s, id).gone, Deleted(s, id).runs[pid]) {
        DeletedBatch(s, id, s.runs[pid]);
      }
    }
  }

  lemma BeginKeeps(s: State, pid: Pid, candidates: seq<Candidate>)
    requires Inv(s) && pid !in s.runs
    ensures Inv(Next(s, Begin(pid, candidates)))
  {
    forall key | key in HeldKeys(s.tenders) ensures Held(s.tenders, key) {
      HeldKeysAreHeld(s.tenders, key);
    }
    RunMoves(s, pid, Batch(candidates, [], Ready, 0, 0, 0, 0, HeldKeys(s.tenders), {}));
  }

  lemma FaultKeeps(s: State, pid: Pid, b: Batch)
    requires Inv(s) && pid in s.runs && b == s.runs[pid] && Open(b)
    ensures Inv(WithRun(s, pid, Counted(b, Unsaved)))
  {
    CountedIsSound(s.tenders, s.next, s.gone, b, Unsaved);
    RunMoves(s, pid, Counted(b, Unsaved));
  }

  lemma ScoreKeeps(s: State, pid: Pid, ok: bool)
    requires Inv(s) && pid in s.runs && s.runs[pid].phase.Scoring?
    ensures Inv(Next(s, Score(pid, ok)))
  {
    RunMoves(s, pid, s.runs[pid].(phase := Ready, unscored := if ok then s.runs[pid].unscored else s.runs[pid].unscored + 1));
  }

  lemma StepKeeps(s: State, step: Step)
    requires Inv(s)
    ensures Inv(Next(s, step))
  {
    match step {
      case Begin(pid, candidates) =>
        if pid !in s.runs { BeginKeeps(s, pid, candidates); }
      case LookUp(pid) =>
        if pid in s.runs && Open(s.runs[pid]) && s.runs[pid].phase.Ready? { LookUpKeeps(s, pid, s.runs[pid]); }
      case Insert(pid) =>
        if pid in s.runs && Open(s.runs[pid]) && s.runs[pid].phase.Absent? { InsertKeeps(s, pid, s.runs[pid]); }
      case Score(pid, ok) =>
        if pid in s.runs && s.runs[pid].phase.Scoring? { ScoreKeeps(s, pid, ok); }
      case Fault(pid) =>
        if pid in s.runs && Open(s.runs[pid]) { FaultKeeps(s, pid, s.runs[pid]); }
      case AddByHand(tender) =>
        if !Clashes(s.tenders, tender) { AddedKeeps(s, tender); }
      case Edit(id, title) =>
        if id in s.tenders { EditedKeeps(s, id, title); }
      case Delete(id) => DeletedKeeps(s, id);
    }
  }

  lemma {:induction false} Reachable(steps: seq<Step>)
    ensures Inv(Run(steps))
  {
    if steps != [] {
      Reachable(steps[..|steps| - 1]);
      StepKeeps(Run(steps[..|steps| - 1]), steps[|steps| - 1]);
    }
  }

  // ----- what every interleaving guarantees -----

  /** No two tenders hold one dedup key. */
  lemma {:induction false} OneTenderPerKey(steps: seq<Step>, i: nat, j: nat)
    requires i in Run(steps).tenders && j in Run(steps).tenders
    requires Run(steps).tenders[i].key.Some? && Run(steps).tenders[i].key == Run(steps).tenders[j].key
    ensures i == j
  {
    Reachable(steps);
  }

  /** The counters of a run account for every candidate it has dealt with, whatever others did. */
  lemma {:induction false} EveryCandidateIsCounted(steps: seq<Step>, pid: Pid)
    requires pid in Run(steps).runs
    ensures var b := Run(steps).runs[pid];
            && b.saved + b.duplicates + b.unsaved == |b.done| <= |b.candidates|
            && (b.saved, b.duplicates, b.unsaved) == Tally(b.done)
  {
    Reachable(steps);
  }

  /** A keyed candidate dealt with without error has a tender with its key from then on, except
      exactly while the tender is deleted and none was stored under the key since. */
  lemma {:induction false} EveryKeyIsHeld(steps: seq<Step>, pid: Pid, k: nat)
    requires pid in Run(steps).runs && k < |Run(steps).runs[pid].done|
    ensures var s, b := Run(steps), Run(steps).runs[pid];
            && k < |b.candidates|
            && (b.candidates[k].key != "" && !b.done[k].Unsaved? ==>
                  (Held(s.tenders, b.candidates[k].key) <==> b.candidates[k].key !in s.gone))
  {
    Reachable(steps);
    var s, b := Run(steps), Run(steps).runs[pid];
    assert BatchInv(s.tenders, s.next, s.gone, b);
    assert Settled(s.tenders, s.next, s.gone, b.known, b.lost, b.candidates[k], b.done[k]);
  }

  /** A candidate reported as a duplicate has a key, and the tender of one reported as saved is in the
      table under the candidate's key, however it was edited, unless it was deleted. */
  lemma {:induction false} OutcomesAreTrue(steps: seq<Step>, pid: Pid, k: nat)
    requires pid in Run(steps).runs && k < |Run(steps).runs[pid].done|
    ensures var s, b := Run(steps), Run(steps).runs[pid];
            && k < |b.candidates|
            && (b.done[k].Duplicate? ==> b.candidates[k].key != "")
            && (b.done[k].Saved? && b.done[k].id in s.tenders ==>
                  s.tenders[b.done[k].id].key == TenderOf(b.candidates[k]).key)
  {
    Reachable(steps);
    var s, b := Run(steps), Run(steps).runs[pid];
    assert BatchInv(s.tenders, s.next, s.gone, b);
    assert Settled(s.tenders, s.next, s.gone, b.known, b.lost, b.candidates[k], b.done[k]);
  }

  /** The step settles the candidate of `b` that is up, as the table stands before it: a duplicate when
      a tender holds the key, and nothing is written; saved when none does, as one new row; given up
      when the call fails. */
  ghost predicate Decides(s: State, step: Step, s': State, b: Batch, b': Batch) {
    && |b.done| < |b.candidates| && |b'.done| == |b.done| + 1
    && var c, outcome := b.candidates[|b.done|], b'.done[|b.done|];
       match outcome
       case Duplicate => c.key != "" && Held(s.tenders, c.key) && s'.tenders == s.tenders
       case Saved(id) => step.Insert? && (c.key != "" ==> !Held(s.tenders, c.key))
                         && id !in s.tenders && s'.tenders == s.tenders[id := TenderOf(c)]
       case Unsaved => step.Fault? && s'.tenders == s.tenders
  }

  /** The run goes on as it was, or its next candidate is settled by the table of that moment. */
  ghost predicate GoesOn(s: State, step: Step, s': State, b: Batch, b': Batch) {
    && b'.candidates == b.candidates
    && (b'.done == b.done || (b.done <= b'.done && Decides(s, step, s', b, b')))
  }

  lemma LookUpDecides(s: State, pid: Pid, b: Batch)
    requires Inv(s) && pid in s.runs && b == s.runs[pid] && Open(b) && b.phase.Ready?
    ensures GoesOn(s, LookUp(pid), WithRun(s, pid, LookedUp(s.tenders, b)), b, LookedUp(s.tenders, b))
    ensures var key := b.candidates[|b.done|].key;
            LookedUp(s.tenders, b).done == if key != "" && Held(s.tenders, key) then b.done + [Duplicate] else b.done
  {
    HeldKeysAreHeld(s.tenders, b.candidates[|b.done|].key);
  }

  lemma InsertDecides(s: State, pid: Pid, b: Batch)
    requires Inv(s) && pid in s.runs && b == s.runs[pid] && Open(b) && b.phase.Absent?
    ensures Decides(s, Insert(pid), Inserted(s, pid, b), b, Inserted(s, pid, b).runs[pid])
    ensures Inserted(s, pid, b).runs[pid].candidates == b.candidates && b.done <= Inserted(s, pid, b).runs[pid].done
    ensures !Inserted(s, pid, b).runs[pid].done[|b.done|].Unsaved?
  {
    HeldKeysAreHeld(s.tenders, b.candidates[|b.done|].key);
  }

  lemma StepDecides(s: State, step: Step, pid: Pid)
    requires Inv(s) && pid in s.runs
    ensures pid in Next(s, step).runs
    ensures GoesOn(s, step, Next(s, step), s.runs[pid], Next(s, step).runs[pid])
  {
    var b := s.runs[pid];
    if step == LookUp(pid) && Open(b) && b.phase.Ready? {
      LookUpDecides(s, pid, b);
    } else if step == Insert(pid) && Open(b) && b.phase.Absent? {
      InsertDecides(s, pid, b);
    } else {
      StepRemembers(s, step, pid, "");
    }
  }

  /** The outcome `k` of the run comes with this step, and is decided by it. */
  ghost predicate SettledBy(s: State, step: Step, s': State, pid: Pid, k: nat) {
    && pid in s.runs && pid in s'.runs && |s.runs[pid].done| == k
    && Decides(s, step, s', s.runs[pid], s'.runs[pid])
  }

  lemma SettledNowOrBefore(s: State, step: Step, pid: Pid, k: nat)
    requires Inv(s) && pid in Next(s, step).runs && k < |Next(s, step).runs[pid].done|
    ensures pid in s.runs && s.runs[pid].candidates == Next(s, step).runs[pid].candidates
    ensures if k < |s.runs[pid].done| then s.runs[pid].done[k] == Next(s, step).runs[pid].done[k]
            else SettledBy(s, step, Next(s, step), pid, k)
  {
    if pid in s.runs {
      StepDecides(s, step, pid);
    }
  }

  /** Every outcome a run reports was decided by one step, truly of the table as that step found it:
      a candidate counted as a duplicate had its key held before, and one counted as saved became one
      new row under a key that none held. */
  lemma {:induction false} EveryOutcomeWasDecided(steps: seq<Step>, pid: Pid, k: nat) returns (n: nat)
    requires pid in Run(steps).runs && k < |Run(steps).runs[pid].done|
    ensures n < |steps| && SettledBy(Run(steps[..n]), steps[n], Run(steps[..n + 1]), pid, k)
    ensures Run(steps[..n + 1]).runs[pid].done[k] == Run(steps).runs[pid].done[k]
    ensures Run(steps[..n + 1]).runs[pid].candidates == Run(steps).runs[pid].candidates
  {
    var m := |steps| - 1;
    TakeAll(steps);
    Reachable(steps[..m]);
    SettledNowOrBefore(Run(steps[..m]), steps[m], pid, k);
    if k < |Run(steps[..m]).runs[pid].done| {
      n := EveryOutcomeWasDecided(steps[..m], pid, k);
      assert steps[..m][..n] == steps[..n] && steps[..m][..n + 1] == steps[..n + 1];
    } else {
      n := m;
    }
  }

  /** The step deletes a tender that holds the key. */
  ghost predicate DeletesKey(s: State, step: Step, key: string) {
    step.Delete? && step.id in s.tenders && s.tenders[step.id].key == Some(key)
  }

  /** Later steps keep what a run knew and was given; it loses a key exactly when one deletes it. */
  lemma StepRemembers(s: State, step: Step, pid: Pid, key: string)
    requires pid in s.runs
    ensures pid in Next(s, step).runs
    ensures Next(s, step).runs[pid].known == s.runs[pid].known && Next(s, step).runs[pid].candidates == s.runs[pid].candidates
    ensures key in Next(s, step).runs[pid].lost <==> key in s.runs[pid].lost || DeletesKey(s, step, key)
  {
  }

  lemma RunSnoc(steps: seq<Step>, step: Step)
    ensures Run(steps + [step]) == Next(Run(steps), step)
  {
    InitOfSnoc(steps, step);
  }

  lemma SplitLast(before: seq<Step>, after: seq<Step>)
    requires after != []
    ensures before + after == (before + after[..|after| - 1]) + [after[|after| - 1]]
  {
  }

  lemma {:induction false} LaterRemembers(before: seq<Step>, after: seq<Step>, pid: Pid)
    requires pid in Run(before).runs
    ensures pid in Run(before + after).runs
    ensures Run(before + after).runs[pid].known == Run(before).runs[pid].known
    ensures Run(before + after).runs[pid].candidates == Run(before).runs[pid].candidates
  {
    if after == [] {
      assert before + after == before;
    } else {
      var n := |after| - 1;
      LaterRemembers(before, after[..n], pid);
      var s, t := Run(before + after[..n]), Run(before + after);
      SplitLast(before, after);
      RunSnoc(before + after[..n], after[n]);
      StepRemembers(s, after[n], pid, "");
      assert t == Next(s, after[n]);
    }
  }

  /** No step of `after`, taken from where `before` leads, deletes a tender with the key. */
  ghost predicate KeepsKey(before: seq<Step>, after: seq<Step>, key: string) {
    forall i :: 0 <= i < |after| ==> !DeletesKey(Run(before + after[..i]), after[i], key)
  }

  lemma {:induction false} LaterLosesNothing(before: seq<Step>, after: seq<Step>, pid: Pid, key: string)
    requires pid in Run(before).runs && key !in Run(before).runs[pid].lost && KeepsKey(before, after, key)
    ensures pid in Run(before + after).runs && key !in Run(before + after).runs[pid].lost
  {
    if after == [] {
      assert before + after == before;
    } else {
      var n := |after| - 1;
      forall i | 0 <= i < n ensures !DeletesKey(Run(before + after[..n][..i]), after[..n][i], key) {
        assert after[..n][..i] == after[..i];
      }
      LaterLosesNothing(before, after[..n], pid, key);
      SplitLast(before, after);
      RunSnoc(before + after[..n], after[n]);
      StepRemembers(Run(before + after[..n]), after[n], pid, key);
    }
  }

  /** The candidate's key, held when the run began, was deleted before the run saved it. */
  lemma SavedKnownIsLost(steps: seq<Step>, pid: Pid, k: nat)
    requires pid in Run(steps).runs
    requires var b := Run(steps).runs[pid];
             && k < |b.done| && k < |b.candidates| && b.done[k].Saved? && b.candidates[k].key in b.known && b.candidates[k].key != ""
    ensures Run(steps).runs[pid].candidates[k].key in Run(steps).runs[pid].lost
  {
    Reachable(steps);
    var s, b := Run(steps), Run(steps).runs[pid];
    assert BatchInv(s.tenders, s.next, s.gone, b);
    assert Settled(s.tenders, s.next, s.gone, b.known, b.lost, b.candidates[k], b.done[k]);
  }

  lemma BeginKnows(before: seq<Step>, pid: Pid, cs: seq<Candidate>, key: string)
    requires pid !in Run(before).runs && Held(Run(before).tenders, key)
    ensures var s := Run(before + [Begin(pid, cs)]);
            pid in s.runs && key in s.runs[pid].known && s.runs[pid].lost == {} && s.runs[pid].candidates == cs
  {
    RunSnoc(before, Begin(pid, cs));
    HeldKeysAreHeld(Run(before).tenders, key);
  }

  /** A second run over the batch of a run that went through without errors saves a keyed candidate
      only if a tender with the key was deleted before the second run began and not stored again,
      or is deleted while it is at work. */
  lemma {:induction false} ReplaySavesOnlyKeyless(before: seq<Step>, after: seq<Step>, first: Pid, second: Pid, k: nat)
    requires first in Run(before).runs && second !in Run(before).runs
    requires var b := Run(before).runs[first]; |b.done| == |b.candidates| && Unsaved !in b.done
    requires var begun := before + [Begin(second, Run(before).runs[first].candidates)];
             var s := Run(begun + after);
             && second in s.runs && k < |s.runs[second].done| && s.runs[second].done[k].Saved?
             && k < |Run(before).runs[first].candidates|
             && Run(before).runs[first].candidates[k].key !in Run(before).gone
             && KeepsKey(begun, after, Run(before).runs[first].candidates[k].key)
    ensures Run(before).runs[first].candidates[k].key == ""
  {
    var cs := Run(before).runs[first].candidates;
    var begun := before + [Begin(second, cs)];
    if cs[k].key != "" {
      EveryKeyIsHeld(before, first, k);
      BeginKnows(before, second, cs, cs[k].key);
      LaterRemembers(begun, after, second);
      LaterLosesNothing(begun, after, second, cs[k].key);
      SavedKnownIsLost(begun + after, second, k);
    }
  }
}
