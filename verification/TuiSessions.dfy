/** The Hermes TUI protocol: tickets are issued and exchanged for sessions, websocket pumps attach to
    and leave sessions, and sessions end by request or by the sweeper, in any interleaving. */
module TuiSessions {
  import opened Text
  import opened TuiRegistry
  import opened Collections

  datatype Issue = Issue(user: string, at: nat)

  datatype Entry = Entry(ticket: Id, user: string, at: nat)

  /** A websocket: the session was open when it was let in; attached once it is counted. */
  datatype Pump = Dialing(session: Id) | Attached(session: Id)

  /** Beside the two tables: what was issued, which of it was presented, what was entered, the cancelled contexts, how often each
      session was reported closed, and how often its end was written to the audit. */
  datatype State = State(clock: nat, tickets: Tickets, issued: map<Id, Issue>, spent: set<Id>, entries: map<Id, Entry>,
                         sessions: Sessions, cancelled: set<Id>, reports: multiset<Id>, ends: multiset<Id>, pumps: map<Id, Pump>)

  datatype Step =
    | Wait(seconds: nat)
    | IssueTicket(ticket: Id, user: string)
    | Enter(ticket: Id, session: Id)
    | EnterFails(session: Id)
    | Dial(pump: Id, session: Id)
    | Attach(pump: Id)
    | Frame(pump: Id)
    | Detach(pump: Id)
    | EndSession(session: Id)
    | Sweep

  const INIT := State(0, map[], map[], {}, map[], map[], {}, multiset{}, multiset{}, map[])

  /** Close an open session: cancelled, gone, reported. */
  function Ended(s: State, id: Id): State {
    s.(sessions := s.sessions - {id}, cancelled := s.cancelled + {id}, reports := s.reports + multiset{id})
  }

  function Entered(s: State, ticket: Id, session: Id): State {
    var user := Accepts(s.tickets, ticket, s.clock);
    var consumed := s.(tickets := s.tickets - {ticket}, spent := if ticket in s.issued then s.spent + {ticket} else s.spent);
    if user.None? then consumed
    else
      consumed.(entries := s.entries[session := Entry(ticket, user.value, s.clock)],
                sessions := Opened(s.sessions, session, user.value, s.clock))
  }

  function Swept(s: State): State {
    var due := Expired(s.sessions, s.clock);
    s.(sessions := s.sessions - due, cancelled := s.cancelled + due,
       reports := s.reports + multiset(due), ends := s.ends + multiset(due))
  }

  /** One step; ids of new tickets and sessions are fresh. */
  function Next(s: State, step: Step): State {
    match step
    case Wait(seconds) => s.(clock := s.clock + seconds)
    case IssueTicket(ticket, user) =>
      if ticket in s.issued then s
      else s.(tickets := Issued(s.tickets, ticket, user, s.clock), issued := s.issued[ticket := Issue(user, s.clock)])
    case Enter(ticket, session) => if session in s.entries then s else Entered(s, ticket, session)
    case EnterFails(session) =>
      // The cookie could not be signed: closed without an end in the audit.
      if session in s.sessions then Ended(s, session) else s
    case Dial(pump, session) =>
      if pump in s.pumps || session !in s.sessions then s else s.(pumps := s.pumps[pump := Dialing(session)])
    case Attach(pump) =>
      // The session may have ended since the dial: then nothing is counted.
      if pump in s.pumps && s.pumps[pump].Dialing? then
        s.(pumps := s.pumps[pump := Attached(s.pumps[pump].session)], sessions := Joined(s.sessions, s.pumps[pump].session))
      else s
    case Frame(pump) =>
      if pump in s.pumps && s.pumps[pump].Attached? then s.(sessions := Touched(s.sessions, s.pumps[pump].session, s.clock)) else s
    case Detach(pump) =>
      if pump in s.pumps && s.pumps[pump].Attached? then
        s.(pumps := s.pumps - {pump}, sessions := Left(s.sessions, s.pumps[pump].session))
      else s
    case EndSession(session) =>
      if session in s.sessions then Ended(s, session).(ends := s.ends + multiset{session}) else s
    case Sweep => Swept(s)
  }

  function Run(steps: seq<Step>): State {
    if steps == [] then INIT else Next(Run(steps[..|steps| - 1]), steps[|steps| - 1])
  }

  // ----- the invariant -----

  ghost predicate TicketInv(clock: nat, tickets: Tickets, issued: map<Id, Issue>) {
    && (forall id :: id in tickets ==> id in issued && tickets[id] == Ticket(issued[id].user, issued[id].at + TICKET_TTL))
    && (forall id :: id in issued ==> issued[id].at <= clock)
  }

  /** A ticket is there until it is presented, and stays at least until it is over. */
  ghost predicate SpentInv(clock: nat, tickets: Tickets, issued: map<Id, Issue>, spent: set<Id>) {
    && tickets.Keys !! spent && spent <= issued.Keys
    && forall id :: id in issued && id !in spent && clock <= issued[id].at + TICKET_TTL ==> id in tickets
  }

  /** A session was opened by a ticket, for the ticket's user, while the ticket was good; that
      ticket is gone, and no other session came of it. */
  ghost predicate OpenedInv(tickets: Tickets, issued: map<Id, Issue>, entries: map<Id, Entry>) {
    && (forall s :: s in entries ==> entries[s].ticket in issued && entries[s].ticket !in tickets && InTime(issued[entries[s].ticket], entries[s]))
    && (forall s, t :: s in entries && t in entries && s != t ==> entries[s].ticket != entries[t].ticket)
  }

  predicate InTime(issue: Issue, entry: Entry) {
    entry.user == issue.user && issue.at <= entry.at <= issue.at + TICKET_TTL
  }

  ghost predicate SessionInv(clock: nat, entries: map<Id, Entry>, sessions: Sessions, cancelled: set<Id>) {
    && sessions.Keys <= entries.Keys && cancelled == entries.Keys - sessions.Keys
    && forall id :: id in sessions ==>
         sessions[id].user == entries[id].user && entries[id].at == sessions[id].startedAt <= sessions[id].lastActivity <= clock
  }

  /** Every cancelled session was reported exactly once, and its end written at most once. */
  ghost predicate ReportInv(cancelled: set<Id>, reports: multiset<Id>, ends: multiset<Id>) {
    && (forall id: Id :: reports[id] == if id in cancelled then 1 else 0)
    && ends <= reports
  }

  function PumpsOf(pumps: map<Id, Pump>, session: Id): set<Id> {
    set p | p in pumps && pumps[p] == Attached(session)
  }

  ghost predicate PumpInv(entries: map<Id, Entry>, sessions: Sessions, pumps: map<Id, Pump>) {
    && (forall p :: p in pumps ==> pumps[p].session in entries)
    && (forall id :: id in sessions ==> sessions[id].conns == |PumpsOf(pumps, id)|)
  }

  ghost predicate Inv(s: State) {
    && TicketInv(s.clock, s.tickets, s.issued)
    && SpentInv(s.clock, s.tickets, s.issued, s.spent)
    && OpenedInv(s.tickets, s.issued, s.entries)
    && SessionInv(s.clock, s.entries, s.sessions, s.cancelled)
    && ReportInv(s.cancelled, s.reports, s.ends)
    && PumpInv(s.entries, s.sessions, s.pumps)
  }

  // ----- every step keeps it -----

  lemma IssueKeeps(s: State, ticket: Id, user: string)
    requires Inv(s) && ticket !in s.issued
    ensures Inv(Next(s, IssueTicket(ticket, user)))
  {
    var tickets, issued := Issued(s.tickets, ticket, user, s.clock), s.issued[ticket := Issue(user, s.clock)];
    assert TicketInv(s.clock, tickets, issued);
    assert OpenedInv(tickets, issued, s.entries);
  }

  lemma NoPumpsYet(entries: map<Id, Entry>, sessions: Sessions, pumps: map<Id, Pump>, session: Id)
    requires PumpInv(entries, sessions, pumps) && session !in entries
    ensures PumpsOf(pumps, session) == {}
  {
  }

  lemma OpenKeepsPumps(entries: map<Id, Entry>, sessions: Sessions, pumps: map<Id, Pump>, session: Id, entry: Entry)
    requires PumpInv(entries, sessions, pumps) && session !in entries
    ensures PumpInv(entries[session := entry], Opened(sessions, session, entry.user, entry.at), pumps)
  {
    NoPumpsYet(entries, sessions, pumps, session);
  }

  lemma OpenKeepsSessions(clock: nat, entries: map<Id, Entry>, sessions: Sessions, cancelled: set<Id>, session: Id, entry: Entry)
    requires SessionInv(clock, entries, sessions, cancelled) && session !in entries && entry.at == clock
    ensures SessionInv(clock, entries[session := entry], Opened(sessions, session, entry.user, clock), cancelled)
  {
  }

  lemma OpenKeepsTickets(clock: nat, tickets: Tickets, issued: map<Id, Issue>, entries: map<Id, Entry>, ticket: Id, session: Id)
    requires TicketInv(clock, tickets, issued) && OpenedInv(tickets, issued, entries) && session !in entries
    requires Accepts(tickets, ticket, clock).Some?
    ensures OpenedInv(tickets - {ticket}, issued, entries[session := Entry(ticket, Accepts(tickets, ticket, clock).value, clock)])
  {
  }

  lemma EnterKeeps(s: State, ticket: Id, session: Id)
    requires Inv(s) && session !in s.entries
    ensures Inv(Entered(s, ticket, session))
  {
    var user := Accepts(s.tickets, ticket, s.clock);
    assert TicketInv(s.clock, s.tickets - {ticket}, s.issued);
    if user.Some? {
      var entry := Entry(ticket, user.value, s.clock);
      OpenKeepsTickets(s.clock, s.tickets, s.issued, s.entries, ticket, session);
      OpenKeepsSessions(s.clock, s.entries, s.sessions, s.cancelled, session, entry);
      OpenKeepsPumps(s.entries, s.sessions, s.pumps, session, entry);
    }
  }

  lemma ClosedKeepsSessions(s: State, ids: set<Id>)
    requires Inv(s) && ids <= s.sessions.Keys
    ensures SessionInv(s.clock, s.entries, s.sessions - ids, s.cancelled + ids)
    ensures PumpInv(s.entries, s.sessions - ids, s.pumps)
  {
  }

  lemma ClosedKeepsReports(s: State, ids: set<Id>, ends: multiset<Id>)
    requires Inv(s) && ids <= s.sessions.Keys && ends <= multiset(ids)
    ensures ReportInv(s.cancelled + ids, s.reports + multiset(ids), s.ends + ends)
  {
    assert ids !! s.cancelled;
  }

  lemma SweepKeeps(s: State)
    requires Inv(s)
    ensures Inv(Swept(s))
  {
    var due := Expired(s.sessions, s.clock);
    ClosedKeepsSessions(s, due);
    ClosedKeepsReports(s, due, multiset(due));
  }

  lemma EndKeeps(s: State, id: Id, ends: multiset<Id>)
    requires Inv(s) && id in s.sessions && ends <= multiset{id}
    ensures Inv(Ended(s, id).(ends := s.ends + ends))
  {
    assert multiset({id}) == multiset{id};
    ClosedKeepsSessions(s, {id});
    ClosedKeepsReports(s, {id}, ends);
  }

  lemma UnsignedKeeps(s: State, id: Id)
    requires Inv(s) && id in s.sessions
    ensures Inv(Next(s, EnterFails(id)))
  {
    EndKeeps(s, id, multiset{});
    assert s.ends + multiset{} == s.ends;
  }

  lemma DialKeeps(s: State, pump: Id, session: Id)
    requires Inv(s) && pump !in s.pumps && session in s.sessions
    ensures Inv(Next(s, Dial(pump, session)))
  {
    DialCounts(s.entries, s.sessions, s.pumps, pump, session);
  }

  lemma DialCounts(entries: map<Id, Entry>, sessions: Sessions, pumps: map<Id, Pump>, pump: Id, session: Id)
    requires PumpInv(entries, sessions, pumps) && pump !in pumps && session in entries
    ensures PumpInv(entries, sessions, pumps[pump := Dialing(session)])
  {
    forall id | id in sessions ensures PumpsOf(pumps[pump := Dialing(session)], id) == PumpsOf(pumps, id) {
    }
  }

  lemma AttachAdds(pumps: map<Id, Pump>, pump: Id, session: Id, id: Id)
    requires pump in pumps && pumps[pump].Dialing?
    ensures PumpsOf(pumps[pump := Attached(session)], id) == PumpsOf(pumps, id) + (if id == session then {pump} else {})
    ensures pump !in PumpsOf(pumps, id)
  {
  }

  lemma AttachCounts(entries: map<Id, Entry>, sessions: Sessions, pumps: map<Id, Pump>, pump: Id)
    requires PumpInv(entries, sessions, pumps) && pump in pumps && pumps[pump].Dialing?
    ensures PumpInv(entries, Joined(sessions, pumps[pump].session), pumps[pump := Attached(pumps[pump].session)])
  {
    forall id: Id {
      AttachAdds(pumps, pump, pumps[pump].session, id);
    }
  }

  lemma DetachCounts(entries: map<Id, Entry>, sessions: Sessions, pumps: map<Id, Pump>, pump: Id)
    requires PumpInv(entries, sessions, pumps) && pump in pumps && pumps[pump].Attached?
    ensures PumpInv(entries, Left(sessions, pumps[pump].session), pumps - {pump})
  {
    var session := pumps[pump].session;
    forall id: Id ensures PumpsOf(pumps - {pump}, id) == PumpsOf(pumps, id) - (if id == session then {pump} else {}) {
    }
    assert pump in PumpsOf(pumps, session);
  }

  /** Counting connections and activity moves no session otherwise. */
  lemma TouchKeepsSessions(clock: nat, entries: map<Id, Entry>, sessions: Sessions, cancelled: set<Id>, id: Id)
    requires SessionInv(clock, entries, sessions, cancelled)
    ensures SessionInv(clock, entries, Touched(sessions, id, clock), cancelled)
    ensures SessionInv(clock, entries, Joined(sessions, id), cancelled)
    ensures SessionInv(clock, entries, Left(sessions, id), cancelled)
  {
    if id in sessions {
      assert sessions.Keys == Touched(sessions, id, clock).Keys == Joined(sessions, id).Keys == Left(sessions, id).Keys;
    }
  }

  lemma AttachKeeps(s: State, pump: Id)
    requires Inv(s) && pump in s.pumps && s.pumps[pump].Dialing?
    ensures Inv(Next(s, Attach(pump)))
  {
    AttachCounts(s.entries, s.sessions, s.pumps, pump);
    TouchKeepsSessions(s.clock, s.entries, s.sessions, s.cancelled, s.pumps[pump].session);
  }

  lemma DetachKeeps(s: State, pump: Id)
    requires Inv(s) && pump in s.pumps && s.pumps[pump].Attached?
    ensures Inv(Next(s, Detach(pump)))
  {
    DetachCounts(s.entries, s.sessions, s.pumps, pump);
    TouchKeepsSessions(s.clock, s.entries, s.sessions, s.cancelled, s.pumps[pump].session);
  }

  lemma FrameKeeps(s: State, pump: Id)
    requires Inv(s) && pump in s.pumps && s.pumps[pump].Attached?
    ensures Inv(Next(s, Frame(pump)))
  {
    TouchKeepsSessions(s.clock, s.entries, s.sessions, s.cancelled, s.pumps[pump].session);
  }

  lemma WaitKeeps(s: State, seconds: nat)
    requires Inv(s)
    ensures Inv(Next(s, Wait(seconds)))
  {
  }

  lemma EndSessionKeeps(s: State, id: Id)
    requires Inv(s) && id in s.sessions
    ensures Inv(Next(s, EndSession(id)))
  {
    EndKeeps(s, id, multiset{id});
  }

  lemma SessionStepKeeps(s: State, step: Step)
    requires Inv(s) && (step.Enter? || step.EnterFails? || step.EndSession? || step.Sweep?)
    ensures Inv(Next(s, step))
  {
    match step {
      case Enter(ticket, session) =>
        if session !in s.entries { EnterKeeps(s, ticket, session); }
      case EnterFails(session) =>
        if session in s.sessions { UnsignedKeeps(s, session); }
      case EndSession(session) =>
        if session in s.sessions { EndSessionKeeps(s, session); }
      case Sweep => SweepKeeps(s);
    }
  }

  lemma PumpStepKeeps(s: State, step: Step)
    requires Inv(s) && (step.Dial? || step.Attach? || step.Frame? || step.Detach?)
    ensures Inv(Next(s, step))
  {
    match step {
      case Dial(pump, session) =>
        if pump !in s.pumps && session in s.sessions { DialKeeps(s, pump, session); }
      case Attach(pump) =>
        if pump in s.pumps && s.pumps[pump].Dialing? { AttachKeeps(s, pump); }
      case Frame(pump) =>
        if pump in s.pumps && s.pumps[pump].Attached? { FrameKeeps(s, pump); }
      case Detach(pump) =>
        if pump in s.pumps && s.pumps[pump].Attached? { DetachKeeps(s, pump); }
    }
  }

  lemma StepKeeps(s: State, step: Step)
    requires Inv(s)
    ensures Inv(Next(s, step))
  {
    if step.Wait? {
      WaitKeeps(s, step.seconds);
    } else if step.IssueTicket? {
      if step.ticket !in s.issued { IssueKeeps(s, step.ticket, step.user); }
    } else if step.Dial? || step.Attach? || step.Frame? || step.Detach? {
      PumpStepKeeps(s, step);
    } else {
      SessionStepKeeps(s, step);
    }
  }

  lemma {:induction false} Reachable(steps: seq<Step>)
    ensures Inv(Run(steps))
  {
    if steps != [] {
      Reachable(steps[..|steps| - 1]);
      StepKeeps(Run(steps[..|steps| - 1]), steps[|steps| - 1]);
    }
  }

  // ----- what every run guarantees -----

  /** A ticket opens at most one session, for the user it was issued to, within its time to live. */
  lemma {:induction false} TicketOpensOnce(steps: seq<Step>, session: Id)
    requires session in Run(steps).entries
    ensures var s := Run(steps);
            var entry := s.entries[session];
            && entry.ticket in s.issued && entry.user == s.issued[entry.ticket].user
            && s.issued[entry.ticket].at <= entry.at <= s.issued[entry.ticket].at + 30
            && forall other :: other in s.entries && s.entries[other].ticket == entry.ticket ==> other == session
  {
    Reachable(steps);
  }

  /** A ticket opens a session exactly when it was issued, was not presented before, and is at most
      thirty seconds old; the session is its user's, begins now and has no connection. Whatever the
      answer, an issued ticket is presented from then on. */
  lemma {:induction false} TicketOpensIff(steps: seq<Step>, ticket: Id, session: Id)
    requires session !in Run(steps).entries
    ensures var s, s' := Run(steps), Run(steps + [Enter(ticket, session)]);
            && (session in s'.entries <==> ticket in s.issued && ticket !in s.spent && s.clock <= s.issued[ticket].at + 30)
            && (session in s'.entries ==>
                  && s'.entries == s.entries[session := Entry(ticket, s.issued[ticket].user, s.clock)]
                  && s'.sessions == s.sessions[session := Live(s.issued[ticket].user, s.clock, s.clock, 0)])
            && (session !in s'.entries ==> s'.entries == s.entries && s'.sessions == s.sessions)
            && s'.spent == (if ticket in s.issued then s.spent + {ticket} else s.spent)
            && s'.issued == s.issued && s'.clock == s.clock
  {
    Reachable(steps);
    InitOfSnoc(steps, Enter(ticket, session));
  }

  /** A session's context is cancelled exactly when it was opened and is registered no more. */
  lemma {:induction false} CancelledIsClosed(steps: seq<Step>, session: Id)
    ensures session in Run(steps).cancelled <==> session in Run(steps).entries && session !in Run(steps).sessions
    ensures session in Run(steps).sessions ==> session in Run(steps).entries
  {
    Reachable(steps);
  }

  lemma StepStaysClosed(s: State, step: Step, session: Id)
    requires Inv(s) && session in s.cancelled
    ensures session in Next(s, step).cancelled
  {
  }

  lemma LastStepStaysClosed(steps: seq<Step>, session: Id)
    requires steps != [] && session in Run(steps[..|steps| - 1]).cancelled
    ensures session in Run(steps).cancelled
  {
    Reachable(steps[..|steps| - 1]);
    StepStaysClosed(Run(steps[..|steps| - 1]), steps[|steps| - 1], session);
  }

  lemma {:induction false} StaysClosed(steps: seq<Step>, n: nat, session: Id)
    requires n <= |steps| && session in Run(steps[..n]).cancelled
    ensures session in Run(steps).cancelled
  {
    if n < |steps| {
      TakeTake(steps, n);
      StaysClosed(steps[..|steps| - 1], n, session);
      LastStepStaysClosed(steps, session);
    } else {
      TakeAll(steps);
    }
  }

  /** A session that closed stays closed. */
  lemma {:induction false} NeverReopens(steps: seq<Step>, n: nat, session: Id)
    requires n <= |steps| && session in Run(steps[..n]).cancelled
    ensures session in Run(steps).cancelled && session !in Run(steps).sessions
  {
    StaysClosed(steps, n, session);
    CancelledIsClosed(steps, session);
  }

  /** Explicit ends and sweeps together report a session once, when it closes; so the audit gets at
      most one end for it. */
  lemma {:induction false} EndedOnce(steps: seq<Step>, session: Id)
    ensures Run(steps).reports[session] == if session in Run(steps).cancelled then 1 else 0
    ensures Run(steps).ends[session] <= 1
  {
    Reachable(steps);
    assert Run(steps).ends[session] <= Run(steps).reports[session];
  }

  /** A sweep ends exactly the sessions without a frame for half an hour or open for four hours; the
      others stay as they are, and each end is reported and written. */
  lemma {:induction false} SweepEndsOverdue(steps: seq<Step>, session: Id)
    requires session in Run(steps).sessions
    ensures var s, s' := Run(steps), Run(steps + [Sweep]);
            && (session in s'.sessions <==>
                  s.clock <= s.sessions[session].lastActivity + 1800 && s.clock <= s.sessions[session].startedAt + 14400)
            && (session in s'.sessions ==> s'.sessions[session] == s.sessions[session])
            && s'.reports[session] == s.reports[session] + (if session in s'.sessions then 0 else 1)
            && s'.ends[session] == s.ends[session] + (if session in s'.sessions then 0 else 1)
            && s'.sessions.Keys <= s.sessions.Keys
  {
    InitOfSnoc(steps, Sweep);
    SweptCounts(Run(steps), session);
  }

  lemma SweptCounts(s: State, session: Id)
    ensures multiset(Expired(s.sessions, s.clock))[session] == if session in Expired(s.sessions, s.clock) then 1 else 0
  {
  }

  /** An explicit end of an open session closes it and writes one end; a session whose cookie could not
      be signed closes too, but without an end. No other session is touched. */
  lemma {:induction false} EndCloses(steps: seq<Step>, session: Id, signed: bool)
    requires session in Run(steps).sessions
    ensures var s, s' := Run(steps), Run(steps + [if signed then EndSession(session) else EnterFails(session)]);
            && s'.sessions == s.sessions - {session} && s'.cancelled == s.cancelled + {session}
            && s'.reports == s.reports + multiset{session}
            && s'.ends == (if signed then s.ends + multiset{session} else s.ends)
  {
    InitOfSnoc(steps, if signed then EndSession(session) else EnterFails(session));
  }

  /** A frame of an attached pump of an open session makes it active now; nothing else of any session
      changes. */
  lemma {:induction false} FrameKeepsAwake(steps: seq<Step>, pump: Id)
    requires pump in Run(steps).pumps && Run(steps).pumps[pump].Attached?
    ensures var s, s' := Run(steps), Run(steps + [Frame(pump)]);
            var session := s.pumps[pump].session;
            s' == s.(sessions := if session in s.sessions then s.sessions[session := s.sessions[session].(lastActivity := s.clock)] else s.sessions)
  {
    InitOfSnoc(steps, Frame(pump));
  }

  ghost predicate ActiveAsBefore(live: Live, live': Live, clock: nat, frame: bool) {
    && live'.user == live.user && live'.startedAt == live.startedAt
    && (live'.lastActivity == live.lastActivity || (frame && live'.lastActivity == clock))
  }

  lemma StepKeepsActivity(s: State, step: Step, session: Id)
    requires session in s.entries && session in s.sessions && session in Next(s, step).sessions
    ensures ActiveAsBefore(s.sessions[session], Next(s, step).sessions[session], s.clock, step.Frame?)
  {
  }

  /** Only a frame changes when a session was last active, and nothing changes its user or its start. */
  lemma {:induction false} ActivityIsFrames(steps: seq<Step>, step: Step, session: Id)
    requires session in Run(steps).sessions && session in Run(steps + [step]).sessions
    ensures ActiveAsBefore(Run(steps).sessions[session], Run(steps + [step]).sessions[session], Run(steps).clock, step.Frame?)
  {
    Reachable(steps);
    InitOfSnoc(steps, step);
    StepKeepsActivity(Run(steps), step, session);
  }

  /** A pump dials into an open session only, is counted when it attaches if the session is still
      open, and is taken off when it leaves. */
  lemma {:induction false} PumpsComeAndGo(steps: seq<Step>, pump: Id, session: Id)
    ensures var s := Run(steps);
            && Run(steps + [Dial(pump, session)]).pumps
               == (if pump !in s.pumps && session in s.sessions then s.pumps[pump := Dialing(session)] else s.pumps)
            && (pump in s.pumps && s.pumps[pump].Dialing? ==>
                  Run(steps + [Attach(pump)]).pumps == s.pumps[pump := Attached(s.pumps[pump].session)])
            && (pump in s.pumps && s.pumps[pump].Attached? ==> Run(steps + [Detach(pump)]).pumps == s.pumps - {pump})
  {
    InitOfSnoc(steps, Dial(pump, session));
    InitOfSnoc(steps, Attach(pump));
    InitOfSnoc(steps, Detach(pump));
  }

  /** An open session counts exactly its attached pumps. */
  lemma {:induction false} ConnsArePumps(steps: seq<Step>, session: Id)
    requires session in Run(steps).sessions
    ensures Run(steps).sessions[session].conns == |PumpsOf(Run(steps).pumps, session)|
  {
    Reachable(steps);
  }

  /** So a pump that leaves an open session always finds a connection to take off. */
  lemma {:induction false} LeavingIsCounted(steps: seq<Step>, pump: Id)
    requires pump in Run(steps).pumps && Run(steps).pumps[pump].Attached? && Run(steps).pumps[pump].session in Run(steps).sessions
    ensures Run(steps).sessions[Run(steps).pumps[pump].session].conns > 0
  {
    Reachable(steps);
    assert pump in PumpsOf(Run(steps).pumps, Run(steps).pumps[pump].session);
  }
}
