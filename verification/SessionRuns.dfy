/** Exclusivity, dead leases and decided items over every run of the session protocol. */
module SessionRuns {
  import opened Basics
  import opened Sums
  import opened Sessions

  // ----- what any step may do to a session row ----------------------------------------------------

  /** No ended session is revived or rewritten, deadlines only move later, and a timeout follows the deadline. */
  predicate Evolves(s: Session, t: Session) {
    && s.user == t.user && s.machine == t.machine && s.startedAt == t.startedAt
    && (!IsActive(s.status) ==> t == s)
    && (s.timeoutAt.Some? ==> t.timeoutAt.Some? && s.timeoutAt.value <= t.timeoutAt.value)
    && (IsActive(s.status) && t.status == Expired
        ==> t.completedAt.Some? && (t.timeoutAt.Some? ==> t.timeoutAt.value <= t.completedAt.value))
  }

  ghost predicate AllEvolve(st: State, st': State) {
    && |st.sessions| <= |st'.sessions|
    && forall i :: 0 <= i < |st.sessions| ==> Evolves(st.sessions[i], st'.sessions[i])
  }

  lemma EvolveTransitive(a: State, b: State, c: State)
    requires AllEvolve(a, b) && AllEvolve(b, c)
    ensures AllEvolve(a, c)
  {
    forall i | 0 <= i < |a.sessions| ensures Evolves(a.sessions[i], c.sessions[i]) {
      assert Evolves(a.sessions[i], b.sessions[i]) && Evolves(b.sessions[i], c.sessions[i]);
    }
  }

  /** Machine events start and end no session. */
  ghost predicate SameActive(st: State, st': State) {
    && |st.sessions| == |st'.sessions| && st.leases == st'.leases && st.polls == st'.polls
    && forall i :: 0 <= i < |st.sessions| ==> (IsActive(st.sessions[i].status) <==> IsActive(st'.sessions[i].status))
  }

  lemma HappenEvolves(st: State, e: Event)
    ensures AllEvolve(st, Happen(st, e)) && SameActive(st, Happen(st, e))
  {
  }

  lemma {:induction false} HappenAllEvolves(st: State, events: seq<Event>)
    ensures AllEvolve(st, HappenAll(st, events)) && SameActive(st, HappenAll(st, events))
    decreases events
  {
    if events != [] {
      var next := Happen(st, events[0]);
      HappenEvolves(st, events[0]);
      HappenAllEvolves(next, events[1..]);
      EvolveTransitive(st, next, HappenAll(next, events[1..]));
    }
  }

  lemma ExpireEvolves(st: State, ids: seq<Id>, idle: nat, now: int)
    ensures AllEvolve(st, ExpireTimedOut(st, ids, idle, now))
  {
  }

  lemma EndEvolves(st: State, actor: Id, id: Id, cancel: bool, idle: nat, now: int)
    ensures AllEvolve(st, EndByOwner(st, actor, id, cancel, idle, now).0)
    ensures |EndByOwner(st, actor, id, cancel, idle, now).0.sessions| == |st.sessions|
  {
  }

  lemma StartEvolves(st: State, r: StartRequest, between: seq<Event>)
    ensures AllEvolve(st, DecideStart(st, r, between).0)
  {
    var mid := HappenAll(st, between);
    var after := ExpireTimedOut(mid, TimedOutOn(st.sessions, r), r.idle, r.now);
    HappenAllEvolves(st, between);
    ExpireEvolves(mid, TimedOutOn(st.sessions, r), r.idle, r.now);
    EvolveTransitive(st, mid, after);
  }

  lemma StepEvolves(st: State, op: Op)
    ensures AllEvolve(st, Apply(st, op))
  {
    match op
    case Start(r, between) => StartEvolves(st, r, between);
    case End(actor, session, cancel, idle, now) => EndEvolves(st, actor, session, cancel, idle, now);
    case TimeOut(sessions, idle, now) => ExpireEvolves(st, sessions, idle, now);
    case Machine(event) => HappenEvolves(st, event);
    case _ =>
  }

  // ----- exclusivity ---------------------------------------------------------------------------------

  lemma EvolveOccupancy(st: State, st': State, m: Id)
    requires AllEvolve(st, st') && |st.sessions| == |st'.sessions|
    ensures Occupancy(st', m) <= Occupancy(st, m)
  {
    forall i | 0 <= i < |st.sessions| ensures Occupies(m)(st'.sessions[i]) <= Occupies(m)(st.sessions[i]) {
      assert Evolves(st.sessions[i], st'.sessions[i]);
    }
    SumPointwise(st'.sessions, st.sessions, Occupies(m));
  }

  lemma {:induction false} NotDueHolds(sessions: seq<Session>, ids: seq<Id>, idle: nat, now: int, id: Id)
    ensures id in NotDue(sessions, ids, idle, now) <==> id in ids && !(id < |sessions| && Due(sessions[id], idle, now))
  {
    if ids != [] { NotDueHolds(sessions, ids[1..], idle, now, id); }
  }

  /** With nothing live left, the timeout policy has emptied the machine. */
  lemma NothingLeft(st: State, r: StartRequest, between: seq<Event>)
    requires LiveOn(st.sessions, r) == []
    requires NotDue(HappenAll(st, between).sessions, TimedOutOn(st.sessions, r), r.idle, r.now) == []
    ensures Occupancy(ExpireTimedOut(HappenAll(st, between), TimedOutOn(st.sessions, r), r.idle, r.now), r.machine) == 0
  {
    var timedOut, mid := TimedOutOn(st.sessions, r), HappenAll(st, between);
    var after := ExpireTimedOut(mid, timedOut, r.idle, r.now);
    HappenAllEvolves(st, between);
    forall i | 0 <= i < |after.sessions| ensures Occupies(r.machine)(after.sessions[i]) == 0 {
      assert Evolves(st.sessions[i], mid.sessions[i]);
      assert i !in LiveOn(st.sessions, r);
      NotDueHolds(mid.sessions, timedOut, r.idle, r.now, i);
    }
    SumZero(after.sessions, Occupies(r.machine));
  }

  lemma StartOccupancy(st: State, r: StartRequest, between: seq<Event>, m: Id)
    ensures Occupancy(DecideStart(st, r, between).0, m) <= Max(1, Occupancy(st, m))
    ensures DecideStart(st, r, between).1.Created? ==> Occupancy(DecideStart(st, r, between).0, r.machine) == 1
  {
    var timedOut, mid := TimedOutOn(st.sessions, r), HappenAll(st, between);
    var after := ExpireTimedOut(mid, timedOut, r.idle, r.now);
    HappenAllEvolves(st, between);
    ExpireEvolves(mid, timedOut, r.idle, r.now);
    EvolveOccupancy(st, mid, m);
    EvolveOccupancy(mid, after, m);
    if DecideStart(st, r, between).1.Created? {
      NothingLeft(st, r, between);
      SumAppend(after.sessions, NewSession(r), Occupies(m));
      SumAppend(after.sessions, NewSession(r), Occupies(r.machine));
    }
  }

  lemma StepOccupancy(st: State, op: Op, m: Id)
    ensures Occupancy(Apply(st, op), m) <= Max(1, Occupancy(st, m))
  {
    StepEvolves(st, op);
    if op.Start? {
      StartOccupancy(st, op.request, op.between, m);
    } else {
      if op.End? { EndEvolves(st, op.actor, op.session, op.cancel, op.idle, op.now); }
      if op.Machine? { HappenEvolves(st, op.event); }
      EvolveOccupancy(st, Apply(st, op), m);
    }
  }

  /** A machine with at most one active session keeps at most one; a legacy conflict never grows. */
  lemma {:induction false} RunExclusive(states: seq<State>, ops: seq<Op>, m: Id, n: nat)
    requires IsRun(states, ops) && n <= |ops|
    ensures Occupancy(states[n], m) <= Max(1, Occupancy(states[0], m))
  {
    if n > 0 {
      RunExclusive(states, ops, m, n - 1);
      assert Steps(states, ops, n - 1);
      StepOccupancy(states[n - 1], ops[n - 1], m);
    }
  }

  // ----- leases ----------------------------------------------------------------------------------------

  lemma EvolveBounded(st: State, st': State, i: Id)
    requires AllEvolve(st, st') && Bounded(st, i) && st'.leases == st.leases && st'.polls == st.polls
    ensures Bounded(st', i)
  {
    assert Evolves(st.sessions[i], st'.sessions[i]);
  }

  lemma StartRows(st: State, r: StartRequest, between: seq<Event>)
    ensures var st' := DecideStart(st, r, between).0; st'.leases == st.leases && st'.polls == st.polls
    ensures var st' := DecideStart(st, r, between).0;
      |st'.sessions| == |st.sessions|
      || (|st'.sessions| == |st.sessions| + 1 && st'.sessions[|st.sessions|] == NewSession(r))
  {
    HappenAllEvolves(st, between);
  }

  lemma StepBounded(st: State, op: Op, i: Id)
    requires Sound(st) && (Bounded(st, i) || (|st.sessions| <= i < |Apply(st, op).sessions|))
    ensures Bounded(Apply(st, op), i)
  {
    var st' := Apply(st, op);
    StepEvolves(st, op);
    match op
    case Start(r, between) => {
      StartRows(st, r, between);
      if i < |st.sessions| {
        EvolveBounded(st, st', i);
      }
    }
    case ReadPoll(_, _) =>
    case Issue(_, _) =>
    case End(actor, session, cancel, idle, now) => {
      EndEvolves(st, actor, session, cancel, idle, now);
      EvolveBounded(st, st', i);
    }
    case TimeOut(_, _, _) => EvolveBounded(st, st', i);
    case Machine(event) => {
      HappenEvolves(st, event);
      EvolveBounded(st, st', i);
    }
  }

  // ----- items ------------------------------------------------------------------------------------------

  lemma HappenSound(st: State, e: Event)
    requires Sound(st)
    ensures Sound(Happen(st, e))
  {
    HappenEvolves(st, e);
  }

  lemma {:induction false} HappenAllSound(st: State, events: seq<Event>)
    requires Sound(st)
    ensures Sound(HappenAll(st, events))
    decreases events
  {
    if events != [] {
      HappenSound(st, events[0]);
      HappenAllSound(Happen(st, events[0]), events[1..]);
    }
  }

  lemma ExpireSound(st: State, ids: seq<Id>, idle: nat, now: int)
    requires Sound(st)
    ensures Sound(ExpireTimedOut(st, ids, idle, now))
  {
  }

  lemma EndSound(st: State, actor: Id, id: Id, cancel: bool, idle: nat, now: int)
    requires Sound(st)
    ensures Sound(EndByOwner(st, actor, id, cancel, idle, now).0)
  {
    ExpireSound(st, [id], idle, now);
  }

  lemma StartSound(st: State, r: StartRequest, between: seq<Event>)
    requires Sound(st)
    ensures Sound(DecideStart(st, r, between).0)
  {
    var mid := HappenAll(st, between);
    HappenAllSound(st, between);
    ExpireSound(mid, TimedOutOn(st.sessions, r), r.idle, r.now);
  }

  lemma StepSound(st: State, op: Op)
    requires Sound(st)
    ensures Sound(Apply(st, op))
  {
    match op
    case Start(r, between) => StartSound(st, r, between);
    case End(actor, session, cancel, idle, now) => EndSound(st, actor, session, cancel, idle, now);
    case TimeOut(sessions, idle, now) => ExpireSound(st, sessions, idle, now);
    case Machine(event) => HappenSound(st, event);
    case _ =>
  }

  /** Nothing undecided is left in an ended session, and deadlines bound every lease of sessions that have one. */
  lemma {:induction false} RunSound(states: seq<State>, ops: seq<Op>, n: nat)
    requires IsRun(states, ops) && n <= |ops| && Sound(states[0])
    requires forall i: Id :: i < |states[0].sessions| ==> Bounded(states[0], i)
    ensures Sound(states[n]) && forall i: Id :: i < |states[n].sessions| ==> Bounded(states[n], i)
  {
    if n > 0 {
      RunSound(states, ops, n - 1);
      assert Steps(states, ops, n - 1);
      StepSound(states[n - 1], ops[n - 1]);
      forall i: Id | i < |states[n].sessions| ensures Bounded(states[n], i) {
        StepBounded(states[n - 1], ops[n - 1], i);
      }
    }
  }

  /**
    From the empty tables, in every reachable state: each machine has at most one active session; every lease
    ever issued for a session closed by the timeout policy had expired by then; no ended session holds an
    undecided item.
   */
  lemma ReachableSessions(states: seq<State>, ops: seq<Op>, n: nat)
    requires IsRun(states, ops) && n <= |ops| && states[0] == EMPTY
    ensures forall m: Id :: Occupancy(states[n], m) <= 1
    ensures forall k :: 0 <= k < |states[n].leases| ==>
      var lease := states[n].leases[k];
      lease.session < |states[n].sessions|
      && (states[n].sessions[lease.session].status == Expired
          ==> states[n].sessions[lease.session].completedAt.Some?
              && lease.expiresAt * 1000 <= states[n].sessions[lease.session].completedAt.value)
    ensures forall k :: 0 <= k < |states[n].items| && Undecided(states[n].items[k]) ==>
      states[n].items[k].session < |states[n].sessions| && IsActive(states[n].sessions[states[n].items[k].session].status)
  {
    RunSound(states, ops, n);
    forall m: Id ensures Occupancy(states[n], m) <= 1 {
      RunExclusive(states, ops, m, n);
    }
    forall k | 0 <= k < |states[n].leases|
      ensures states[n].leases[k].session < |states[n].sessions| && Bounded(states[n], states[n].leases[k].session)
    {
    }
  }
}
