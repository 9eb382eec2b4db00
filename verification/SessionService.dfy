/** The session tables updated in place, step by step, against the functions of module Sessions. */
module SessionService {
  import opened Basics
  import opened Sessions
  import opened SessionRuns

  datatype ExpiredSession = ExpiredSession(session: Id, user: Id, heldItems: seq<Id>)

  /** The items the policy holds for `session`, among the first `n`. */
  function HeldFor(items: seq<Item>, n: nat, session: Id): seq<Id>
    requires n <= |items|
  {
    if n == 0 then []
    else HeldFor(items, n - 1, session) + if Undecided(items[n - 1]) && items[n - 1].session == session then [n - 1] else []
  }

  lemma ExpireNothing(st: State, ids: seq<Id>, idle: nat, now: int)
    requires forall id: Id :: !Closes(st, ids, idle, now, id)
    ensures ExpireTimedOut(st, ids, idle, now) == st
  {
    assert ExpireTimedOut(st, ids, idle, now).sessions == st.sessions;
    assert ExpireTimedOut(st, ids, idle, now).items == st.items;
  }

  lemma ExpireOneMore(st: State, ids: seq<Id>, id: Id, idle: nat, now: int)
    ensures ExpireTimedOut(ExpireTimedOut(st, ids, idle, now), [id], idle, now) == ExpireTimedOut(st, ids + [id], idle, now)
  {
    var one, two := ExpireTimedOut(ExpireTimedOut(st, ids, idle, now), [id], idle, now), ExpireTimedOut(st, ids + [id], idle, now);
    assert one.sessions == two.sessions;
    assert one.items == two.items;
  }

  lemma PollStep(st: State, ids: seq<Id>, n: nat, before: State, after: State, idle: nat, now: int)
    requires n < |ids| && before == ExpireTimedOut(st, ids[..n], idle, now) && after == ExpireTimedOut(before, [ids[n]], idle, now)
    ensures after == ExpireTimedOut(st, ids[..n + 1], idle, now)
  {
    ExpireOneMore(st, ids[..n], ids[n], idle, now);
    assert ids[..n + 1] == ids[..n] + [ids[n]];
  }

  lemma ExpireOne(st: State, id: Id, idle: nat, now: int)
    requires id < |st.sessions| && !Due(st.sessions[id], idle, now)
    ensures ExpireTimedOut(st, [id], idle, now) == st
  {
    ExpireNothing(st, [id], idle, now);
  }

  function OnMachine(machine: Id): Session -> bool { s => On(s, machine) }

  function ActiveOn(sessions: seq<Session>, machine: Id): seq<Id> { Where(sessions, |sessions|, OnMachine(machine)) }

  function AfterPoll(st: State, machine: Id, idle: nat, now: int): State {
    ExpireTimedOut(st, ActiveOn(st.sessions, machine), idle, now)
  }

  /** The next candidate is untouched so far, and stays live unless it is due. */
  lemma CandidateAt(st: State, ids: seq<Id>, n: nat, live: seq<Id>, idle: nat, now: int)
    requires Increasing(ids) && n < |ids| && ids[n] < |st.sessions|
    ensures ExpireTimedOut(st, ids[..n], idle, now).sessions[ids[n]] == st.sessions[ids[n]]
    ensures live + NotDue(st.sessions, ids[n..], idle, now)
            == (if Due(st.sessions[ids[n]], idle, now) then live else live + [ids[n]]) + NotDue(st.sessions, ids[n + 1..], idle, now)
  {
    assert ids[n] !in ids[..n];
    assert ids[n..][1..] == ids[n + 1..];
    var rest := NotDue(st.sessions, ids[n + 1..], idle, now);
    assert live + ([ids[n]] + rest) == live + [ids[n]] + rest;
    assert live + ([] + rest) == live + rest;
  }

  /** After a poll the sessions it reports live are all the machine's active ones, and none is past its deadline. */
  lemma PollLeaves(st: State, machine: Id, idle: nat, now: int, id: Id)
    ensures id in NotDue(st.sessions, ActiveOn(st.sessions, machine), idle, now)
      <==> id < |st.sessions| && On(AfterPoll(st, machine, idle, now).sessions[id], machine)
    ensures id < |st.sessions| && On(AfterPoll(st, machine, idle, now).sessions[id], machine)
      ==> Deadline(AfterPoll(st, machine, idle, now).sessions[id], idle) > now
  {
    NotDueHolds(st.sessions, ActiveOn(st.sessions, machine), idle, now, id);
  }

  class SessionTables {
    var sessions: seq<Session>
    var items: seq<Item>
    var leases: seq<Lease>
    var polls: seq<Poll>

    constructor ()
      ensures Now() == EMPTY
    {
      sessions, items, leases, polls := [], [], [], [];
    }

    function Now(): State
      reads this
    {
      State(sessions, items, leases, polls)
    }

    method Read(st: State)
      modifies this
      ensures Now() == st
    {
      sessions, items, leases, polls := st.sessions, st.items, st.leases, st.polls;
    }

    /**
      The timeout policy: lock and re-read every given session, hold the undecided items of those that are
      due, then close them. It reports exactly the closed sessions, each with the items it held.
     */
    method ExpireTimedOutSessions(ids: seq<Id>, idle: nat, now: int) returns (expired: seq<ExpiredSession>)
      modifies this
      ensures Now() == ExpireTimedOut(old(Now()), ids, idle, now)
      ensures forall id: Id :: Closes(old(Now()), ids, idle, now, id) <==> exists e :: e in expired && e.session == id
      ensures forall e :: e in expired ==> e.session < |old(sessions)| && e.user == old(sessions)[e.session].user
                                           && e.heldItems == HeldFor(old(items), |old(items)|, e.session)
    {
      ghost var was := Now();
      var closing: seq<Id> := [];
      var n := 0;
      while n < |ids|
        invariant 0 <= n <= |ids| && Now() == was
        invariant forall id: Id :: id in closing <==> Closes(was, ids[..n], idle, now, id)
      {
        var id := ids[n];
        assert ids[..n + 1] == ids[..n] + [id];
        if id < |sessions| && IsActive(sessions[id].status) && Deadline(sessions[id], idle) <= now && id !in closing {
          closing := closing + [id];
        }
        n := n + 1;
      }
      assert ids[..|ids|] == ids;
      var held := HoldItems(closing);
      ghost var moved := items;
      n := 0;
      expired := [];
      while n < |closing|
        invariant 0 <= n <= |closing| && items == moved && leases == was.leases && polls == was.polls
        invariant |sessions| == |was.sessions|
        invariant forall i: Id :: i < |sessions| ==> sessions[i] == if i in closing[..n] then Closed(was.sessions[i], now) else was.sessions[i]
        invariant forall id: Id :: id in closing[..n] <==> exists e :: e in expired && e.session == id
        invariant forall e :: e in expired ==> e.session < |was.sessions| && e.user == was.sessions[e.session].user
                                               && e.heldItems == HeldFor(was.items, |was.items|, e.session)
      {
        var id := closing[n];
        assert id in closing && closing[..n + 1] == closing[..n] + [id];
        ghost var before := expired;
        expired := expired + [ExpiredSession(id, sessions[id].user, held[id])];
        assert expired[|before|].session == id;
        sessions := sessions[id := sessions[id].(status := Expired, completedAt := Some(now))];
        n := n + 1;
      }
    }

    /** Moves every undecided item of the closing sessions to review, keeping a reason it already has. */
    method HoldItems(closing: seq<Id>) returns (held: map<Id, seq<Id>>)
      modifies this`items
      ensures |items| == |old(items)|
      ensures forall k :: 0 <= k < |items| ==>
        items[k] == if Undecided(old(items)[k]) && old(items)[k].session in closing then Held(old(items)[k]) else old(items)[k]
      ensures forall id :: id in closing ==> id in held && held[id] == HeldFor(old(items), |old(items)|, id)
    {
      held := map id | id in closing :: [];
      var k := 0;
      while k < |items|
        invariant 0 <= k <= |items| == |old(items)|
        invariant forall j :: 0 <= j < k ==>
          items[j] == if Undecided(old(items)[j]) && old(items)[j].session in closing then Held(old(items)[j]) else old(items)[j]
        invariant forall j :: k <= j < |items| ==> items[j] == old(items)[j]
        invariant forall id :: id in closing ==> id in held && held[id] == HeldFor(old(items), k, id)
      {
        var item := items[k];
        if Undecided(item) && item.session in closing {
          items := items[k := item.(status := InReview, reason := if item.reason.Some? then item.reason else Some(SessionTimeout))];
          held := held[item.session := held[item.session] + [k]];
        }
        k := k + 1;
      }
    }

    /** Commits of other transactions: machine events do not take the machine lock. */
    method MachineActivity(events: seq<Event>)
      modifies this
      ensures Now() == HappenAll(old(Now()), events)
    {
      var n := 0;
      ghost var goal := HappenAll(Now(), events);
      assert events[0..] == events;
      while n < |events|
        invariant 0 <= n <= |events| && goal == HappenAll(Now(), events[n..])
      {
        assert events[n..][1..] == events[n + 1..];
        Read(Happen(Now(), events[n]));
        n := n + 1;
      }
    }

    /** Splits the machine's active sessions into those past their deadline and the live ones. */
    method SplitActive(r: StartRequest) returns (timedOut: seq<Id>, live: seq<Id>)
      ensures timedOut == TimedOutOn(sessions, r) && live == LiveOn(sessions, r)
    {
      timedOut, live := [], [];
      var late := (s: Session) => On(s, r.machine) && Deadline(s, r.idle) <= r.now;
      var early := (s: Session) => On(s, r.machine) && Deadline(s, r.idle) > r.now;
      var n := 0;
      while n < |sessions|
        invariant 0 <= n <= |sessions|
        invariant timedOut == Where(sessions, n, late) && live == Where(sessions, n, early)
      {
        if On(sessions[n], r.machine) {
          if Deadline(sessions[n], r.idle) <= r.now {
            timedOut := timedOut + [n];
          } else {
            live := live + [n];
          }
        }
        n := n + 1;
      }
    }

    /** A session the policy did not close (its deadline moved meanwhile) is still live. */
    method StillLive(committed: State, first: seq<Id>, timedOut: seq<Id>, expired: seq<ExpiredSession>, r: StartRequest)
      returns (live: seq<Id>)
      requires forall id: Id :: Closes(committed, timedOut, r.idle, r.now, id) <==> exists e :: e in expired && e.session == id
      ensures live == first + NotDue(committed.sessions, timedOut, r.idle, r.now)
    {
      live := first;
      var n := 0;
      while n < |timedOut|
        invariant 0 <= n <= |timedOut|
        invariant live + NotDue(committed.sessions, timedOut[n..], r.idle, r.now) == first + NotDue(committed.sessions, timedOut, r.idle, r.now)
      {
        var id := timedOut[n];
        assert id in timedOut && timedOut[n..][1..] == timedOut[n + 1..];
        ghost var rest := NotDue(committed.sessions, timedOut[n + 1..], r.idle, r.now);
        assert live + ([id] + rest) == live + [id] + rest;
        assert live + ([] + rest) == live + rest;
        assert Closes(committed, timedOut, r.idle, r.now, id) <==> exists e :: e in expired && e.session == id;
        if !(exists e :: e in expired && e.session == id) {
          live := live + [id];
        }
        n := n + 1;
      }
    }

    /** One admission transaction. */
    method Decide(r: StartRequest, between: seq<Event>) returns (outcome: Outcome)
      modifies this
      ensures (Now(), outcome) == DecideStart(old(Now()), r, between)
    {
      if !r.accepts { return Refused; }
      var timedOut: seq<Id>, live: seq<Id> := SplitActive(r);
      if live == [] && !r.eligible { return Refused; }
      MachineActivity(between);
      var committed := Now();
      var expired := ExpireTimedOutSessions(timedOut, r.idle, r.now);
      live := StillLive(committed, live, timedOut, expired, r);
      outcome := Conclude(committed, live, r);
    }

    method Conclude(committed: State, live: seq<Id>, r: StartRequest) returns (outcome: Outcome)
      modifies this
      ensures (Now(), outcome) == Admit(committed, old(Now()), live, r)
    {
      if |live| > 1 { return Conflict(live); }
      if |live| == 1 {
        return if live[0] < |committed.sessions| && committed.sessions[live[0]].user == r.actor then Resumed(live[0]) else Busy;
      }
      if !r.funded {
        Read(committed);
        return Refused;
      }
      sessions := sessions + [Session(r.actor, r.machine, Active, r.now, Some(r.now + r.idle * 60000), None)];
      return Created(|sessions| - 1);
    }

    /** A machine admits a session only when it has none: a newer scan never replaces a live one. */
    method Start(r: StartRequest, between: seq<Event>) returns (outcome: Outcome)
      modifies this
      ensures (Now(), outcome) == DecideStart(old(Now()), r, between)
      ensures outcome.Created? ==> Occupancy(Now(), r.machine) == 1
      ensures Occupancy(Now(), r.machine) <= Max(1, Occupancy(old(Now()), r.machine))
    {
      StartOccupancy(Now(), r, between, r.machine);
      outcome := Decide(r, between);
    }

    method CountUndecided(id: Id) returns (count: nat)
      ensures count > 0 <==> HasUndecided(Now(), id)
    {
      count := 0;
      var k := 0;
      while k < |items|
        invariant 0 <= k <= |items|
        invariant count > 0 <==> exists j :: 0 <= j < k && items[j].session == id && Undecided(items[j])
      {
        if items[k].session == id && Undecided(items[k]) { count := count + 1; }
        k := k + 1;
      }
    }

    /** Finish or cancel by the owner; a session with an item in the machine only ends through the timeout policy. */
    method EndDepositByOwner(actor: Id, id: Id, cancel: bool, idle: nat, now: int) returns (outcome: EndOutcome)
      modifies this
      ensures (Now(), outcome) == EndByOwner(old(Now()), actor, id, cancel, idle, now)
      ensures Sound(old(Now())) ==> Sound(Now())
    {
      if Sound(Now()) { EndSound(Now(), actor, id, cancel, idle, now); }
      if id >= |sessions| { return NotFound; }
      if sessions[id].user != actor { return NotOwner; }
      if !IsActive(sessions[id].status) { return Unchanged; }
      var undecided := CountUndecided(id);
      if undecided > 0 {
        var expired := ExpireTimedOutSessions([id], idle, now);
        if expired == [] {
          ExpireNothing(old(Now()), [id], idle, now);
          return ItemInProgress;
        }
        assert Closes(old(Now()), [id], idle, now, expired[0].session);
        return TimedOut;
      }
      var next := if cancel then Some(Cancelled) else Transition(sessions[id].status, Finish);
      if next.None? { return InvalidEnd; }
      sessions := sessions[id := sessions[id].(status := next.value, completedAt := Some(now))];
      return Ended;
    }

    /** The timeout policy for one session: closes it exactly when it is due. */
    method ExpireIfTimedOut(id: Id, idle: nat, now: int) returns (closed: bool)
      requires id < |sessions|
      modifies this
      ensures closed <==> Due(old(sessions)[id], idle, now)
      ensures Now() == ExpireTimedOut(old(Now()), [id], idle, now)
    {
      ghost var before := Now();
      var expired := ExpireTimedOutSessions([id], idle, now);
      closed := expired != [];
      assert Closes(before, [id], idle, now, id) <==> exists e :: e in expired && e.session == id;
      if closed { assert Closes(before, [id], idle, now, expired[0].session); }
    }

    /** One candidate of a poll, in its own transaction. */
    method PollCandidate(id: Id, idle: nat, now: int, before: seq<Id>) returns (live: seq<Id>)
      requires id < |sessions|
      modifies this
      ensures Now() == ExpireTimedOut(old(Now()), [id], idle, now)
      ensures live == if Due(old(sessions)[id], idle, now) then before else before + [id]
    {
      live := before;
      if Deadline(sessions[id], idle) > now {
        ExpireOne(Now(), id, idle, now);
        live := live + [id];
      } else {
        var closed := ExpireIfTimedOut(id, idle, now);
        if !closed { live := live + [id]; }
      }
    }

    method PollAll(candidates: seq<Id>, idle: nat, now: int) returns (live: seq<Id>)
      requires Increasing(candidates) && forall k :: 0 <= k < |candidates| ==> candidates[k] < |sessions|
      modifies this
      ensures Now() == ExpireTimedOut(old(Now()), candidates, idle, now)
      ensures live == NotDue(old(sessions), candidates, idle, now)
    {
      ghost var was := Now();
      live := [];
      ExpireNothing(was, [], idle, now);
      assert candidates[0..] == candidates;
      var n := 0;
      while n < |candidates|
        invariant 0 <= n <= |candidates| && Now() == ExpireTimedOut(was, candidates[..n], idle, now)
        invariant live + NotDue(was.sessions, candidates[n..], idle, now) == NotDue(was.sessions, candidates, idle, now)
      {
        var id := candidates[n];
        ghost var before := Now();
        CandidateAt(was, candidates, n, live, idle, now);
        live := PollCandidate(id, idle, now, live);
        PollStep(was, candidates, n, before, Now(), idle, now);
        n := n + 1;
      }
      assert candidates[..|candidates|] == candidates;
    }

    /** The lease poll: the timeout policy for each candidate in turn, then the one live session; with several, none is chosen. */
    method CurrentMachineSession(machine: Id, idle: nat, now: int) returns (session: Option<Id>, conflict: bool, live: seq<Id>)
      modifies this
      ensures Now() == AfterPoll(old(Now()), machine, idle, now)
      ensures live == NotDue(old(sessions), ActiveOn(old(sessions), machine), idle, now)
      ensures conflict <==> |live| > 1
      ensures session == if |live| == 1 then Some(live[0]) else None
    {
      var candidates := ActiveOn(sessions, machine);
      WhereIncreasing(sessions, |sessions|, OnMachine(machine));
      assert forall k :: 0 <= k < |candidates| ==> candidates[k] in candidates;
      live := PollAll(candidates, idle, now);
      conflict := |live| > 1;
      session := if |live| == 1 then Some(live[0]) else None;
    }

    /** A lease is signed from the row the poll read, however much later. */
    method SignLease(poll: nat, issuedAt: int) returns (lease: Option<Lease>)
      modifies this`leases
      ensures Now() == IssueLease(old(Now()), poll, issuedAt)
      ensures lease.Some? ==> poll < |polls| && lease.value.session == polls[poll].session
                              && issuedAt < lease.value.expiresAt <= issuedAt + LEASE_SECONDS
                              && lease.value.expiresAt * 1000 <= polls[poll].deadline
    {
      if poll >= |polls| { return None; }
      var expiry := LeaseExpiry(polls[poll].deadline, issuedAt);
      if expiry.None? { return None; }
      lease := Some(Lease(polls[poll].session, expiry.value));
      leases := leases + [lease.value];
    }
  }
}
