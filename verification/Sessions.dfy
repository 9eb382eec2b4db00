/**
  Deposit sessions: one active session per machine, deadlines, leases and the timeout policy
  (lib/deposit-session-service.ts, lib/deposit-session-deadline.ts, lib/machine-state.ts).
  Times are milliseconds; lease expiries are whole seconds.
 */
module Sessions {
  import opened Basics
  import opened Sums

  datatype Status = Reserved | Active | ProcessingItem | Review | Completed | Cancelled | Expired
  datatype Action = Activate | StartItem | ItemDone | Finish | Anomaly | Expire | Cancel | SafeState | Resume

  predicate IsActive(s: Status) { s == Reserved || s == Active || s == ProcessingItem || s == Review }

  function Transition(s: Status, a: Action): Option<Status> {
    match (s, a)
    case (Reserved, Activate) => Some(Active)
    case (Reserved, Cancel) => Some(Cancelled)
    case (Reserved, Expire) => Some(Expired)
    case (Active, StartItem) => Some(ProcessingItem)
    case (Active, Finish) => Some(Completed)
    case (Active, Anomaly) => Some(Review)
    case (Active, Expire) => Some(Expired)
    case (Active, Cancel) => Some(Cancelled)
    case (Active, SafeState) => Some(Review)
    case (ProcessingItem, ItemDone) => Some(Active)
    case (ProcessingItem, Finish) => Some(Completed)
    case (ProcessingItem, Anomaly) => Some(Review)
    case (ProcessingItem, SafeState) => Some(Review)
    case (ProcessingItem, Expire) => Some(Expired)
    case (Review, Finish) => Some(Completed)
    case (Review, Resume) => Some(Active)
    case _ => None
  }

  datatype Session = Session(
    user: Id, machine: Id, status: Status, startedAt: int, timeoutAt: Option<int>, completedAt: Option<int>)

  datatype ItemStatus = Pending | InReview | Accepted | Rejected
  datatype HoldReason = UnknownWasteType | SessionClosed | SessionTimeout | OtherReason
  datatype Item = Item(session: Id, status: ItemStatus, acceptanceEvent: Option<Id>, reason: Option<HoldReason>)

  /** A lease handed to the machine, valid until `expiresAt` (seconds). */
  datatype Lease = Lease(session: Id, expiresAt: int)

  /** A session row as a lease poll read it, before the lease is signed. */
  datatype Poll = Poll(session: Id, deadline: int)

  datatype State = State(sessions: seq<Session>, items: seq<Item>, leases: seq<Lease>, polls: seq<Poll>)

  // ----- deadlines ------------------------------------------------------------------------------

  const LEASE_SECONDS := 300

  function Deadline(s: Session, idle: int): int {
    if s.timeoutAt.Some? then s.timeoutAt.value else s.startedAt + idle * 60000
  }

  /** When the session stopped accepting machine work. */
  function SessionEnd(s: Session, idle: int): (end: int)
    ensures end <= Deadline(s, idle) && (s.completedAt.Some? ==> end <= s.completedAt.value)
    ensures end == Deadline(s, idle) || s.completedAt == Some(end)
  {
    if s.completedAt.Some? && s.completedAt.value < Deadline(s, idle) then s.completedAt.value else Deadline(s, idle)
  }

  /** A lease ends at most 300 s after issue and never after the deadline; none once that is reached. */
  function LeaseExpiry(deadline: int, issuedAt: int): (e: Option<int>)
    ensures e.Some? ==> issuedAt < e.value <= issuedAt + LEASE_SECONDS && e.value * 1000 <= deadline
    ensures e.None? <==> deadline < (issuedAt + 1) * 1000
  {
    var expiresAt := Min(deadline / 1000, issuedAt + LEASE_SECONDS);
    if expiresAt > issuedAt then Some(expiresAt) else None
  }

  // ----- machine events ---------------------------------------------------------------------------

  /** Not decided by the machine yet: physically still inside it. */
  predicate Undecided(i: Item) { i.status == Pending && i.acceptanceEvent.None? }

  datatype Event =
    | Move(session: Id, action: Action)
    | Detect(session: Id, idle: nat, now: int, unknown: bool)
    | Decide(item: Id, status: ItemStatus, acceptanceEvent: Option<Id>)

  predicate MachineAction(a: Action) { a == StartItem || a == ItemDone || a == Anomaly || a == SafeState }

  function MoveSession(st: State, id: Id, a: Action): State {
    if id < |st.sessions| && MachineAction(a) && Transition(st.sessions[id].status, a).Some?
    then st.(sessions := st.sessions[id := st.sessions[id].(status := Transition(st.sessions[id].status, a).value)])
    else st
  }

  /** A detected item extends a deadline that has not passed, and only to a later time. */
  function Extended(s: Session, idle: nat, now: int): Session {
    var extended := now + idle * 60000;
    if IsActive(s.status) && Deadline(s, idle) > now
    then
      var t := if s.timeoutAt.None? || s.timeoutAt.value < extended then s.(timeoutAt := Some(extended)) else s;
      if s.status == Active then t.(status := ProcessingItem) else t
    else s
  }

  function DetectItem(st: State, id: Id, idle: nat, now: int, unknown: bool): State {
    if id >= |st.sessions| then st
    else
      var closed := !IsActive(st.sessions[id].status);
      var item := Item(id, if unknown || closed then InReview else Pending, None,
                       if unknown then Some(UnknownWasteType) else if closed then Some(SessionClosed) else None);
      st.(sessions := st.sessions[id := Extended(st.sessions[id], idle, now)], items := st.items + [item])
  }

  function DecideItem(st: State, id: Id, status: ItemStatus, acceptance: Option<Id>): State {
    if id < |st.items| && st.items[id].acceptanceEvent.None? && (st.items[id].status == Pending || st.items[id].status == InReview)
       && (status != Pending || acceptance.Some?)
    then st.(items := st.items[id := st.items[id].(status := status, acceptanceEvent := acceptance)])
    else st
  }

  function Happen(st: State, e: Event): State {
    match e
    case Move(session, action) => MoveSession(st, session, action)
    case Detect(session, idle, now, unknown) => DetectItem(st, session, idle, now, unknown)
    case Decide(item, status, acceptance) => DecideItem(st, item, status, acceptance)
  }

  function HappenAll(st: State, events: seq<Event>): State
    decreases events
  {
    if events == [] then st else HappenAll(Happen(st, events[0]), events[1..])
  }

  // ----- the timeout policy -----------------------------------------------------------------------

  predicate Due(s: Session, idle: nat, now: int) { IsActive(s.status) && Deadline(s, idle) <= now }

  function Closed(s: Session, now: int): Session { s.(status := Expired, completedAt := Some(now)) }

  function Held(i: Item): Item {
    i.(status := InReview, reason := if i.reason.Some? then i.reason else Some(SessionTimeout))
  }

  predicate Closes(st: State, ids: seq<Id>, idle: nat, now: int, id: Id) {
    id in ids && id < |st.sessions| && Due(st.sessions[id], idle, now)
  }

  function ExpireTimedOut(st: State, ids: seq<Id>, idle: nat, now: int): State {
    st.(sessions := seq(|st.sessions|, i requires 0 <= i < |st.sessions| =>
                          if Closes(st, ids, idle, now, i) then Closed(st.sessions[i], now) else st.sessions[i]),
        items := seq(|st.items|, k requires 0 <= k < |st.items| =>
                       if Undecided(st.items[k]) && Closes(st, ids, idle, now, st.items[k].session)
                       then Held(st.items[k]) else st.items[k]))
  }

  // ----- start ----------------------------------------------------------------------------------------

  /** `accepts`: machine, token and organization are fine; `eligible`: the campaign admits the user; `funded`: the ceiling was reserved. */
  datatype StartRequest = StartRequest(
    actor: Id, machine: Id, idle: nat, now: int, accepts: bool, eligible: bool, funded: bool)

  datatype Outcome = Created(session: Id) | Resumed(session: Id) | Busy | Conflict(sessions: seq<Id>) | Refused

  /** Ids, in order, of the sessions among the first `n` that satisfy `p`. */
  function Where(sessions: seq<Session>, n: nat, p: Session -> bool): (ids: seq<Id>)
    requires n <= |sessions|
    ensures forall i: Id :: i in ids <==> i < n && p(sessions[i])
  {
    if n == 0 then [] else Where(sessions, n - 1, p) + if p(sessions[n - 1]) then [n - 1] else []
  }

  predicate Increasing(ids: seq<Id>) { forall a, b :: 0 <= a < b < |ids| ==> ids[a] < ids[b] }

  lemma {:induction false} WhereIncreasing(sessions: seq<Session>, n: nat, p: Session -> bool)
    requires n <= |sessions|
    ensures Increasing(Where(sessions, n, p))
  {
    if n > 0 {
      WhereIncreasing(sessions, n - 1, p);
      var front, ids := Where(sessions, n - 1, p), Where(sessions, n, p);
      forall a, b | 0 <= a < b < |ids| ensures ids[a] < ids[b] {
        assert ids[a] == front[a];
        if b < |front| { assert ids[b] == front[b]; } else { assert front[a] in front; }
      }
    }
  }

  predicate On(s: Session, machine: Id) { s.machine == machine && IsActive(s.status) }

  function TimedOutOn(sessions: seq<Session>, r: StartRequest): seq<Id> {
    Where(sessions, |sessions|, s => On(s, r.machine) && Deadline(s, r.idle) <= r.now)
  }

  function LiveOn(sessions: seq<Session>, r: StartRequest): seq<Id> {
    Where(sessions, |sessions|, s => On(s, r.machine) && Deadline(s, r.idle) > r.now)
  }

  function NotDue(sessions: seq<Session>, ids: seq<Id>, idle: nat, now: int): seq<Id> {
    if ids == [] then []
    else (if ids[0] < |sessions| && Due(sessions[ids[0]], idle, now) then [] else [ids[0]]) + NotDue(sessions, ids[1..], idle, now)
  }

  function NewSession(r: StartRequest): Session {
    Session(r.actor, r.machine, Active, r.now, Some(r.now + r.idle * 60000), None)
  }

  /** The decision once the live sessions are known; a refused reservation rolls the timeouts back. */
  function Admit(mid: State, after: State, live: seq<Id>, r: StartRequest): (State, Outcome) {
    if |live| > 1 then (after, Conflict(live))
    else if |live| == 1 then
      (after, if live[0] < |mid.sessions| && mid.sessions[live[0]].user == r.actor then Resumed(live[0]) else Busy)
    else if !r.funded then (mid, Refused)
    else (after.(sessions := after.sessions + [NewSession(r)]), Created(|after.sessions|))
  }

  /**
    Admission under the machine lock. Machine events do not take that lock: those in `between` land after
    the active sessions were read and before they are locked.
   */
  function DecideStart(st: State, r: StartRequest, between: seq<Event>): (State, Outcome) {
    var timedOut, live := TimedOutOn(st.sessions, r), LiveOn(st.sessions, r);
    if !r.accepts || (live == [] && !r.eligible) then (st, Refused)
    else
      var mid := HappenAll(st, between);
      var after := ExpireTimedOut(mid, timedOut, r.idle, r.now);
      var still := live + NotDue(mid.sessions, timedOut, r.idle, r.now);
      Admit(mid, after, still, r)
  }

  // ----- end by the owner ---------------------------------------------------------------------------

  datatype EndOutcome = NotFound | NotOwner | Unchanged | ItemInProgress | TimedOut | InvalidEnd | Ended

  predicate HasUndecided(st: State, id: Id) {
    exists k :: 0 <= k < |st.items| && st.items[k].session == id && Undecided(st.items[k])
  }

  function EndByOwner(st: State, actor: Id, id: Id, cancel: bool, idle: nat, now: int): (State, EndOutcome) {
    if id >= |st.sessions| then (st, NotFound)
    else
      var s := st.sessions[id];
      if s.user != actor then (st, NotOwner)
      else if !IsActive(s.status) then (st, Unchanged)
      else if HasUndecided(st, id) then
        if Due(s, idle, now) then (ExpireTimedOut(st, [id], idle, now), TimedOut) else (st, ItemInProgress)
      else
        var next := if cancel then Some(Cancelled) else Transition(s.status, Finish);
        if next.None? then (st, InvalidEnd)
        else (st.(sessions := st.sessions[id := s.(status := next.value, completedAt := Some(now))]), Ended)
  }

  // ----- leases -----------------------------------------------------------------------------------------

  function ReadForLease(st: State, id: Id, idle: nat): State {
    if id < |st.sessions| && IsActive(st.sessions[id].status)
    then st.(polls := st.polls + [Poll(id, Deadline(st.sessions[id], idle))]) else st
  }

  function IssueLease(st: State, poll: nat, issuedAt: int): State {
    if poll >= |st.polls| then st
    else
      var expiry := LeaseExpiry(st.polls[poll].deadline, issuedAt);
      if expiry.None? then st else st.(leases := st.leases + [Lease(st.polls[poll].session, expiry.value)])
  }

  // ----- runs -------------------------------------------------------------------------------------------

  datatype Op =
    | Start(request: StartRequest, between: seq<Event>)
    | End(actor: Id, session: Id, cancel: bool, idle: nat, now: int)
    | TimeOut(sessions: seq<Id>, idle: nat, now: int)
    | Machine(event: Event)
    | ReadPoll(session: Id, idle: nat)
    | Issue(poll: nat, issuedAt: int)

  function Apply(st: State, op: Op): State {
    match op
    case Start(r, between) => DecideStart(st, r, between).0
    case End(actor, session, cancel, idle, now) => EndByOwner(st, actor, session, cancel, idle, now).0
    case TimeOut(sessions, idle, now) => ExpireTimedOut(st, sessions, idle, now)
    case Machine(event) => Happen(st, event)
    case ReadPoll(session, idle) => ReadForLease(st, session, idle)
    case Issue(poll, issuedAt) => IssueLease(st, poll, issuedAt)
  }

  ghost predicate Steps(states: seq<State>, ops: seq<Op>, n: nat)
    requires n < |ops| && |states| == |ops| + 1
  {
    states[n + 1] == Apply(states[n], ops[n])
  }

  ghost predicate IsRun(states: seq<State>, ops: seq<Op>) {
    |states| == |ops| + 1 && forall n :: 0 <= n < |ops| ==> Steps(states, ops, n)
  }

  /** Rows refer to existing sessions, and no ended session left an item undecided. */
  ghost predicate Sound(st: State) {
    && (forall k :: 0 <= k < |st.items| ==> st.items[k].session < |st.sessions|
                                            && (Undecided(st.items[k]) ==> IsActive(st.sessions[st.items[k].session].status)))
    && (forall k :: 0 <= k < |st.leases| ==> st.leases[k].session < |st.sessions|)
    && (forall k :: 0 <= k < |st.polls| ==> st.polls[k].session < |st.sessions|)
  }

  /** Every lease and every pending poll of session `i` ends by its deadline, and a timeout came after that deadline. */
  ghost predicate Bounded(st: State, i: Id) {
    && i < |st.sessions| && st.sessions[i].timeoutAt.Some?
    && (forall k :: 0 <= k < |st.leases| && st.leases[k].session == i
                    ==> st.leases[k].expiresAt * 1000 <= st.sessions[i].timeoutAt.value)
    && (forall k :: 0 <= k < |st.polls| && st.polls[k].session == i ==> st.polls[k].deadline <= st.sessions[i].timeoutAt.value)
    && (st.sessions[i].status == Expired ==> st.sessions[i].completedAt.Some?
                                             && st.sessions[i].timeoutAt.value <= st.sessions[i].completedAt.value)
  }

  function Occupies(machine: Id): Session -> int { s => if On(s, machine) then 1 else 0 }

  /** How many active sessions a machine has. */
  function Occupancy(st: State, machine: Id): int { Sum(st.sessions, Occupies(machine)) }

  const EMPTY := State([], [], [], [])
}
