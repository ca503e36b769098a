/** The handler that drives tickets, sessions and the audit. */
module TuiHandler {
  import opened Text
  import opened TuiRegistry

  datatype Cookie = Cookie(user: string, session: Id)

  class HermesTuiHandler {
    const tickets: TicketStore
    const registry: Registry
    /** The audit: sessions whose start, and whose end, was written. */
    var starts: seq<Id>
    var ends: seq<Id>

    constructor ()
      ensures fresh(tickets) && fresh(registry)
      ensures tickets.tickets == map[] && registry.sessions == map[] && registry.cancelled == {} && starts == [] && ends == []
    {
      tickets := new TicketStore();
      registry := new Registry();
      starts, ends := [], [];
    }

    /** A ticket is exchanged for a session and its cookie. Whatever happens the ticket is gone. A
        failing audit does not stop the session; a cookie that cannot be signed closes it at once,
        and its end is not written. */
    method Enter(ticket: Id, session: Id, now: nat, auditFails: bool, signFails: bool) returns (cookie: Option<Cookie>)
      requires session !in registry.sessions
      modifies this, tickets, registry
      ensures tickets.tickets == old(tickets.tickets) - {ticket}
      ensures cookie == (if Accepts(old(tickets.tickets), ticket, now).Some? && !signFails
                         then Some(Cookie(Accepts(old(tickets.tickets), ticket, now).value, session)) else None)
      ensures cookie.Some? <==> !signFails && ticket in old(tickets.tickets) && now <= old(tickets.tickets)[ticket].expires
      ensures registry.sessions == if cookie.Some? then Opened(old(registry.sessions), session, cookie.value.user, now) else old(registry.sessions)
      ensures registry.cancelled == old(registry.cancelled)
                + if Accepts(old(tickets.tickets), ticket, now).Some? && signFails then {session} else {}
      ensures starts == old(starts) + if Accepts(old(tickets.tickets), ticket, now).Some? && !auditFails then [session] else []
      ensures ends == old(ends)
    {
      var user := tickets.Consume(ticket, now);
      if user.None? {
        return None;
      }
      ghost var before := registry.sessions;
      registry.Open(session, user.value, now);
      if !auditFails {
        starts := starts + [session];
      }
      if signFails {
        var _ := registry.Close(session);
        assert registry.sessions == before;
        return None;
      }
      return Some(Cookie(user.value, session));
    }

    /** Only a live session gets past the gate. */
    method CookieGate(cookie: Option<Cookie>) returns (session: Option<Id>)
      ensures session.Some? <==> cookie.Some? && cookie.value.session in registry.sessions
      ensures session.Some? ==> session.value == cookie.value.session
    {
      if cookie.None? || !registry.IsOpen(cookie.value.session) {
        return None;
      }
      return Some(cookie.value.session);
    }

    /** Ends an open session and writes its end; a second call writes nothing. */
    method EndSession(session: Id, writeFails: bool)
      modifies this`ends, registry
      ensures registry.sessions == old(registry.sessions) - {session}
      ensures registry.cancelled == old(registry.cancelled) + if session in old(registry.sessions) then {session} else {}
      ensures ends == old(ends) + if session in old(registry.sessions) && !writeFails then [session] else []
    {
      var ok := registry.Close(session);
      if ok && !writeFails {
        ends := ends + [session];
      }
    }

    /** One tick of the sweeper: the end of each overdue session is written once, unless its write
        fails. */
    method SweepTick(now: nat, failing: set<Id>)
      modifies this`ends, registry
      ensures registry.sessions == old(registry.sessions) - Expired(old(registry.sessions), now)
      ensures registry.cancelled == old(registry.cancelled) + Expired(old(registry.sessions), now)
      ensures multiset(ends) == multiset(old(ends)) + multiset(Expired(old(registry.sessions), now) - failing)
    {
      ghost var due := Expired(registry.sessions, now);
      var ended := registry.SweepExpired(now);
      WriteEnds(ended, failing);
      WrittenIsDifference(ended, due, failing);
    }

    method WriteEnds(ended: seq<EndedSession>, failing: set<Id>)
      modifies this`ends
      ensures ends == old(ends) + Written(ended, failing)
    {
      for i := 0 to |ended|
        invariant ends == old(ends) + Written(ended[..i], failing)
      {
        WrittenSnoc(ended, i, failing);
        if ended[i].id !in failing {
          ends := ends + [ended[i].id];
        }
      }
      assert ended[..|ended|] == ended;
    }
  }

  function Written(ended: seq<EndedSession>, failing: set<Id>): seq<Id> {
    if ended == [] then []
    else
      var n := |ended| - 1;
      Written(ended[..n], failing) + (if ended[n].id in failing then [] else [ended[n].id])
  }

  lemma WrittenSnoc(ended: seq<EndedSession>, i: nat, failing: set<Id>)
    requires i < |ended|
    ensures Written(ended[..i + 1], failing) == Written(ended[..i], failing) + (if ended[i].id in failing then [] else [ended[i].id])
  {
    assert ended[..i + 1][..i] == ended[..i];
  }

  lemma {:induction false} WrittenCounts(ended: seq<EndedSession>, failing: set<Id>, id: Id)
    ensures multiset(Written(ended, failing))[id] == if id in failing then 0 else multiset(Ids(ended))[id]
  {
    if ended != [] {
      var n := |ended| - 1;
      WrittenCounts(ended[..n], failing, id);
      IdsSplit(ended);
      OneMore(Ids(ended[..n]), ended[n].id, id);
      if ended[n].id !in failing {
        OneMore(Written(ended[..n], failing), ended[n].id, id);
      } else {
        assert Written(ended[..n], failing) + [] == Written(ended[..n], failing);
      }
    }
  }

  lemma IdsSplit(ended: seq<EndedSession>)
    requires ended != []
    ensures Ids(ended) == Ids(ended[..|ended| - 1]) + [ended[|ended| - 1].id]
  {
  }

  lemma OneMore(ids: seq<Id>, last: Id, id: Id)
    ensures multiset(ids + [last])[id] == multiset(ids)[id] + if last == id then 1 else 0
  {
  }

  lemma WrittenIsDifference(ended: seq<EndedSession>, due: set<Id>, failing: set<Id>)
    requires multiset(Ids(ended)) == multiset(due)
    ensures multiset(Written(ended, failing)) == multiset(due - failing)
  {
    forall id ensures multiset(Written(ended, failing))[id] == multiset(due - failing)[id] {
      WrittenCounts(ended, failing, id);
    }
  }
}
