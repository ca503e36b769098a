/** The Hermes TUI's two tables in memory: single-use tickets, and the registry of open sessions. */
module TuiRegistry {
  import opened Text

  /** Ids are fresh for every ticket, session and connection. Times are in seconds. */
  type Id = nat

  const TICKET_TTL := 30
  const IDLE_TIMEOUT := 1800
  const HARD_CAP := 14400

  datatype Ticket = Ticket(user: string, expires: nat)

  type Tickets = map<Id, Ticket>

  /** The tickets that are still good at `now`. */
  function Fresh(tickets: Tickets, now: nat): Tickets {
    map id | id in tickets && now <= tickets[id].expires :: tickets[id]
  }

  function Issued(tickets: Tickets, id: Id, user: string, now: nat): Tickets {
    Fresh(tickets, now)[id := Ticket(user, now + TICKET_TTL)]
  }

  function Accepts(tickets: Tickets, id: Id, now: nat): Option<string> {
    if id in tickets && now <= tickets[id].expires then Some(tickets[id].user) else None
  }

  /** A ticket issued now is good for thirty seconds, for its user; the tickets that are over go, and
      no other does. */
  lemma IssuedLasts(tickets: Tickets, id: Id, user: string, now: nat, other: Id)
    ensures Issued(tickets, id, user, now)[id] == Ticket(user, now + 30)
    ensures other != id ==>
              (other in Issued(tickets, id, user, now) <==> other in tickets && now <= tickets[other].expires)
    ensures other != id && other in Issued(tickets, id, user, now) ==> Issued(tickets, id, user, now)[other] == tickets[other]
  {
  }

  class TicketStore {
    var tickets: Tickets

    constructor ()
      ensures tickets == map[]
    {
      tickets := map[];
    }

    method Sweep(now: nat)
      modifies this
      ensures tickets == Fresh(old(tickets), now)
    {
      var todo := tickets.Keys;
      while todo != {}
        invariant todo <= tickets.Keys
        invariant forall id :: id in tickets <==> id in old(tickets) && (id in todo || now <= old(tickets)[id].expires)
        invariant forall id :: id in tickets ==> tickets[id] == old(tickets)[id]
        decreases |todo|
      {
        var id :| id in todo;
        if now > tickets[id].expires {
          tickets := tickets - {id};
        }
        todo := todo - {id};
      }
    }

    method Issue(id: Id, user: string, now: nat)
      modifies this
      ensures tickets == Issued(old(tickets), id, user, now)
    {
      Sweep(now);
      tickets := tickets[id := Ticket(user, now + TICKET_TTL)];
    }

    /** Whatever the answer, the ticket is gone. */
    method Consume(id: Id, now: nat) returns (user: Option<string>)
      modifies this
      ensures tickets == old(tickets) - {id}
      ensures user == Accepts(old(tickets), id, now)
      ensures user.Some? <==> id in old(tickets) && now <= old(tickets)[id].expires
      ensures user.Some? ==> user.value == old(tickets)[id].user
    {
      if id !in tickets {
        tickets := tickets - {id};
        return None;
      }
      var entry := tickets[id];
      tickets := tickets - {id};
      if now > entry.expires {
        return None;
      }
      return Some(entry.user);
    }
  }

  // ----- sessions -----

  datatype Live = Live(user: string, startedAt: nat, lastActivity: nat, conns: nat)

  type Sessions = map<Id, Live>

  function Opened(sessions: Sessions, id: Id, user: string, now: nat): Sessions {
    sessions[id := Live(user, now, now, 0)]
  }

  function Touched(sessions: Sessions, id: Id, now: nat): Sessions {
    if id in sessions then sessions[id := sessions[id].(lastActivity := now)] else sessions
  }

  function Joined(sessions: Sessions, id: Id): Sessions {
    if id in sessions then sessions[id := sessions[id].(conns := sessions[id].conns + 1)] else sessions
  }

  function Left(sessions: Sessions, id: Id): Sessions {
    if id in sessions && sessions[id].conns > 0 then sessions[id := sessions[id].(conns := sessions[id].conns - 1)] else sessions
  }

  predicate Overdue(live: Live, now: nat) {
    now - live.lastActivity > IDLE_TIMEOUT || now - live.startedAt > HARD_CAP
  }

  function Expired(sessions: Sessions, now: nat): set<Id> {
    set id | id in sessions && Overdue(sessions[id], now)
  }

  /** A session is overdue half an hour after its last frame, or four hours after it began. */
  lemma ExpiredIff(sessions: Sessions, now: nat, id: Id)
    ensures id in Expired(sessions, now) <==>
              id in sessions && (now > sessions[id].lastActivity + 30 * 60 || now > sessions[id].startedAt + 4 * 60 * 60)
  {
  }

  datatype EndedSession = EndedSession(id: Id, user: string)

  /** The registry; `cancelled` are the ids whose context was cancelled. */
  class Registry {
    var sessions: Sessions
    var cancelled: set<Id>

    constructor ()
      ensures sessions == map[] && cancelled == {}
    {
      sessions, cancelled := map[], {};
    }

    method Open(id: Id, user: string, now: nat)
      modifies this`sessions
      ensures sessions == Opened(old(sessions), id, user, now)
    {
      sessions := sessions[id := Live(user, now, now, 0)];
    }

    method Touch(id: Id, now: nat)
      modifies this`sessions
      ensures sessions == Touched(old(sessions), id, now)
    {
      if id in sessions {
        sessions := sessions[id := sessions[id].(lastActivity := now)];
      }
    }

    method IncConn(id: Id)
      modifies this`sessions
      ensures sessions == Joined(old(sessions), id)
    {
      if id in sessions {
        sessions := sessions[id := sessions[id].(conns := sessions[id].conns + 1)];
      }
    }

    method DecConn(id: Id)
      modifies this`sessions
      ensures sessions == Left(old(sessions), id)
    {
      if id in sessions && sessions[id].conns > 0 {
        sessions := sessions[id := sessions[id].(conns := sessions[id].conns - 1)];
      }
    }

    predicate IsOpen(id: Id)
      reads this
    {
      id in sessions
    }

    /** The first close of an open session cancels it and answers true; any other changes nothing. */
    method Close(id: Id) returns (ok: bool)
      modifies this
      ensures ok <==> id in old(sessions)
      ensures sessions == old(sessions) - {id}
      ensures cancelled == (if ok then old(cancelled) + {id} else old(cancelled))
    {
      if id !in sessions {
        return false;
      }
      cancelled := cancelled + {id};
      sessions := sessions - {id};
      return true;
    }

    /** Closes exactly the overdue sessions, and reports each of them once, with its user. */
    method SweepExpired(now: nat) returns (ended: seq<EndedSession>)
      modifies this
      ensures sessions == old(sessions) - Expired(old(sessions), now)
      ensures cancelled == old(cancelled) + Expired(old(sessions), now)
      ensures Reports(ended, old(sessions), Expired(old(sessions), now))
    {
      ended := [];
      ghost var was, before := sessions, cancelled;
      var todo := sessions.Keys;
      while todo != {}
        invariant SweptBut(was, before, now, todo, sessions, cancelled, ended)
        decreases |todo|
      {
        var id :| id in todo;
        SweepsOne(was, before, now, todo, sessions, cancelled, ended, id);
        if Overdue(sessions[id], now) {
          cancelled := cancelled + {id};
          ended := ended + [EndedSession(id, sessions[id].user)];
          sessions := sessions - {id};
        }
        todo := todo - {id};
      }
      assert Expired(was, now) - todo == Expired(was, now);
    }
  }

  /** The sweep so far: of the overdue sessions all but those in `todo` are ended. */
  ghost predicate SweptBut(was: Sessions, before: set<Id>, now: nat, todo: set<Id>, sessions: Sessions, cancelled: set<Id>,
                           ended: seq<EndedSession>) {
    var gone := Expired(was, now) - todo;
    todo <= sessions.Keys && sessions == was - gone && cancelled == before + gone && Reports(ended, was, gone)
  }

  lemma SweepsOne(was: Sessions, before: set<Id>, now: nat, todo: set<Id>, sessions: Sessions, cancelled: set<Id>,
                  ended: seq<EndedSession>, id: Id)
    requires SweptBut(was, before, now, todo, sessions, cancelled, ended) && id in todo
    ensures id in sessions
    ensures Overdue(sessions[id], now) ==>
              SweptBut(was, before, now, todo - {id}, sessions - {id}, cancelled + {id}, ended + [EndedSession(id, sessions[id].user)])
    ensures !Overdue(sessions[id], now) ==> SweptBut(was, before, now, todo - {id}, sessions, cancelled, ended)
  {
    var due := Expired(was, now);
    if id in due {
      ReportsOne(ended, was, due - todo, id);
      assert due - (todo - {id}) == due - todo + {id};
    } else {
      assert due - (todo - {id}) == due - todo;
    }
  }

  function Ids(ended: seq<EndedSession>): seq<Id> {
    seq(|ended|, k requires 0 <= k < |ended| => ended[k].id)
  }

  /** Each of the ids is reported once, with the user of its session. */
  ghost predicate Reports(ended: seq<EndedSession>, sessions: Sessions, ids: set<Id>) {
    && multiset(Ids(ended)) == multiset(ids)
    && forall k :: 0 <= k < |ended| ==> ended[k].id in sessions && ended[k].user == sessions[ended[k].id].user
  }

  lemma ReportsOne(ended: seq<EndedSession>, sessions: Sessions, ids: set<Id>, id: Id)
    requires Reports(ended, sessions, ids) && id in sessions && id !in ids
    ensures Reports(ended + [EndedSession(id, sessions[id].user)], sessions, ids + {id})
  {
    assert Ids(ended + [EndedSession(id, sessions[id].user)]) == Ids(ended) + [id];
  }
}
