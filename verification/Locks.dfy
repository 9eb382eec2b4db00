/**
  The global row-lock order (lib/db-locks.ts). A transaction is the sequence of rows it locks; locks are held to
  its end. A lock it already holds is granted at once. Share locks count as exclusive, which only adds waiting.
 */
module Locks {
  import opened Basics
  import FundingBook
  import PA = PayoutAttribution

  datatype Class =
    | UserLock | PayoutAccountLock | FundingAccountLock | CampaignLock | MachineLock | TripLock | BagLock
    | SessionLock | ItemLock | RedemptionLock | LedgerLock

  datatype Row = Row(kind: Class, id: Id)

  function Rank(c: Class): nat {
    match c
    case UserLock => 0
    case PayoutAccountLock => 1
    case FundingAccountLock => 2
    case CampaignLock => 3
    case MachineLock => 4
    case TripLock => 5
    case BagLock => 6
    case SessionLock => 7
    case ItemLock => 8
    case RedemptionLock => 9
    case LedgerLock => 10
  }

  /** Class first, then id. */
  predicate Below(a: Row, b: Row) { Rank(a.kind) < Rank(b.kind) || (a.kind == b.kind && a.id < b.id) }

  /** Request `i` is for a row already held, or for one above every row held so far. */
  ghost predicate OrderedAt(path: seq<Row>, i: nat)
    requires i < |path|
  {
    path[i] in path[..i] || forall j :: 0 <= j < i ==> Below(path[j], path[i])
  }

  ghost predicate Ordered(path: seq<Row>) { forall i :: 0 <= i < |path| ==> OrderedAt(path, i) }

  // ----- the transactions -----------------------------------------------------------------------

  /** Consecutive locks of one class. */
  datatype Layer = Layer(kind: Class, ids: seq<Id>)

  function Rows(kind: Class, ids: seq<Id>): (rows: seq<Row>)
    ensures |rows| == |ids| && forall i :: 0 <= i < |ids| ==> rows[i] == Row(kind, ids[i])
  {
    seq(|ids|, i requires 0 <= i < |ids| => Row(kind, ids[i]))
  }

  function Flatten(layers: seq<Layer>): seq<Row> {
    if layers == [] then []
    else Flatten(layers[..|layers| - 1]) + Rows(layers[|layers| - 1].kind, layers[|layers| - 1].ids)
  }

  function Maybe(id: Option<Id>): seq<Id> { if id.Some? then [id.value] else [] }

  datatype Transaction =
    | RequestPayout(user: Id, payoutAccount: Id)
    | MovePayout(user: Id, redemption: Id)
    | SettlePayoutSuccess(user: Id, redemption: Id, commits: seq<FundingBook.Commit>, gross: nat)
    | ReviewDeposit(user: Id, account: Id, campaign: Option<Id>, machine: Id, session: Id, item: Id)
    | StartSession(user: Id, account: Id, campaign: Option<Id>, machine: Id, timedOut: set<Id>, undecided: set<Id>)
    | EndSession(user: Id, machine: Id, session: Id, undecided: set<Id>)
    | PollSession(user: Id, machine: Id, session: Id, undecided: set<Id>)
    | FixPolicy(user: Id, account: Id, campaign: Option<Id>, machine: Id, session: Id)
    | DetectItem(session: Id)
    | AcceptItem(user: Id, account: Id, campaign: Option<Id>, session: Id, item: Id)
    | RecordEvidence(user: Id, session: Id, item: Id)
    | RejectItem(user: Id, session: Id, item: Id)
    | HoldForFraud(user: Id, session: Id, item: Id)
    | ResolveCase(user: Id)
    | CloseSession(user: Id, reserved: Option<Id>, campaign: Option<Id>, machine: Id, session: Id, undecided: set<Id>)
    | IssueBags(recipient: Option<Id>, account: Id, program: Id, trip: Id)
    | TripOutcome(recipient: Option<Id>, account: Id, program: Id, trip: Id, bags: set<Id>)
    | RecordTopup(account: Id)
    | ReleaseResidue(account: Id, campaign: Option<Id>)

  /** First locks, by layer. */
  function Plan(t: Transaction): seq<Layer> {
    match t
    case RequestPayout(user, payout) => [Layer(UserLock, [user]), Layer(PayoutAccountLock, [payout])]
    case MovePayout(user, redemption) => [Layer(UserLock, [user]), Layer(RedemptionLock, [redemption])]
    case SettlePayoutSuccess(user, redemption, commits, _) =>
      [Layer(UserLock, [user]), Layer(FundingAccountLock, PA.FundingAccounts(commits, user)), Layer(RedemptionLock, [redemption])]
    case ReviewDeposit(user, account, campaign, machine, session, item) =>
      [Layer(UserLock, [user]), Layer(FundingAccountLock, [account]), Layer(CampaignLock, Maybe(campaign)),
       Layer(MachineLock, [machine]), Layer(SessionLock, [session]), Layer(ItemLock, [item])]
    case StartSession(user, account, campaign, machine, timedOut, undecided) =>
      [Layer(UserLock, [user]), Layer(FundingAccountLock, [account]), Layer(CampaignLock, Maybe(campaign)),
       Layer(MachineLock, [machine]), Layer(SessionLock, PA.SortedIds(timedOut)), Layer(ItemLock, PA.SortedIds(undecided))]
    case EndSession(user, machine, session, undecided) =>
      [Layer(UserLock, [user]), Layer(MachineLock, [machine]), Layer(SessionLock, [session]), Layer(ItemLock, PA.SortedIds(undecided))]
    case PollSession(user, machine, session, undecided) =>
      [Layer(UserLock, [user]), Layer(MachineLock, [machine]), Layer(SessionLock, [session]), Layer(ItemLock, PA.SortedIds(undecided))]
    case FixPolicy(user, account, campaign, machine, session) =>
      [Layer(UserLock, [user]), Layer(FundingAccountLock, [account]), Layer(CampaignLock, Maybe(campaign)),
       Layer(MachineLock, [machine]), Layer(SessionLock, [session])]
    case AcceptItem(user, account, campaign, session, item) =>
      [Layer(UserLock, [user]), Layer(FundingAccountLock, [account]), Layer(CampaignLock, Maybe(campaign)),
       Layer(SessionLock, [session]), Layer(ItemLock, [item])]
    case DetectItem(session) => [Layer(SessionLock, [session])]
    case RecordEvidence(user, session, item) => [Layer(UserLock, [user]), Layer(SessionLock, [session]), Layer(ItemLock, [item])]
    case RejectItem(user, session, item) => [Layer(UserLock, [user]), Layer(SessionLock, [session]), Layer(ItemLock, [item])]
    case HoldForFraud(user, session, item) => [Layer(UserLock, [user]), Layer(SessionLock, [session]), Layer(ItemLock, [item])]
    case ResolveCase(user) => [Layer(UserLock, [user])]
    case CloseSession(user, account, campaign, machine, session, undecided) =>
      [Layer(UserLock, [user]), Layer(FundingAccountLock, Maybe(account)), Layer(CampaignLock, Maybe(campaign)),
       Layer(MachineLock, [machine]), Layer(SessionLock, [session]), Layer(ItemLock, PA.SortedIds(undecided))]
    case IssueBags(recipient, account, campaign, trip) =>
      [Layer(UserLock, Maybe(recipient)), Layer(FundingAccountLock, [account]), Layer(CampaignLock, [campaign]), Layer(TripLock, [trip])]
    case TripOutcome(recipient, account, campaign, trip, bags) =>
      [Layer(UserLock, Maybe(recipient)), Layer(FundingAccountLock, [account]), Layer(CampaignLock, [campaign]),
       Layer(TripLock, [trip]), Layer(BagLock, PA.SortedIds(bags))]
    case RecordTopup(account) => [Layer(FundingAccountLock, [account])]
    case ReleaseResidue(account, campaign) => [Layer(FundingAccountLock, [account]), Layer(CampaignLock, Maybe(campaign))]
  }

  /** Locks taken again by the services called under the first ones. */
  function Again(t: Transaction): seq<Row> {
    match t
    case SettlePayoutSuccess(user, _, commits, gross) => Rows(FundingAccountLock, PA.SortedIds(PA.Sources(commits, user, gross)))
    case ReviewDeposit(user, account, campaign, _, session, _) =>
      [Row(UserLock, user), Row(FundingAccountLock, account)] + Rows(CampaignLock, Maybe(campaign))
    case StartSession(_, account, campaign, _, _, _) => [Row(FundingAccountLock, account)] + Rows(CampaignLock, Maybe(campaign))
    case AcceptItem(user, account, campaign, _, _) =>
      [Row(UserLock, user), Row(FundingAccountLock, account)] + Rows(CampaignLock, Maybe(campaign))
    case CloseSession(_, account, campaign, _, _, _) =>
      if account.Some? then [Row(FundingAccountLock, account.value)] + Rows(CampaignLock, Maybe(campaign)) else []
    case IssueBags(_, account, campaign, _) => [Row(FundingAccountLock, account), Row(CampaignLock, campaign)]
    case TripOutcome(_, _, _, _, _) => Flatten(Plan(t))
    case _ => []
  }

  function Path(t: Transaction): seq<Row> { Flatten(Plan(t)) + Again(t) }

  // ----- every transaction follows the order --------------------------------------------------------

  ghost predicate Increasing(rows: seq<Row>) { forall i, j :: 0 <= i < j < |rows| ==> Below(rows[i], rows[j]) }

  ghost predicate Layered(layers: seq<Layer>) {
    && (forall i, j :: 0 <= i < j < |layers| ==> Rank(layers[i].kind) < Rank(layers[j].kind))
    && (forall i :: 0 <= i < |layers| ==> PA.Ascending(layers[i].ids))
  }

  lemma {:induction false} FlattenHolds(layers: seq<Layer>, row: Row)
    ensures row in Flatten(layers) <==> exists i :: 0 <= i < |layers| && row.kind == layers[i].kind && row.id in layers[i].ids
  {
    if layers != [] {
      var n := |layers| - 1;
      FlattenHolds(layers[..n], row);
      var last := Rows(layers[n].kind, layers[n].ids);
      if row.kind == layers[n].kind && row.id in layers[n].ids {
        var k :| 0 <= k < |layers[n].ids| && layers[n].ids[k] == row.id;
        assert last[k] == row;
      }
      if i :| 0 <= i < n && row.kind == layers[i].kind && row.id in layers[i].ids {
        assert layers[..n][i] == layers[i];
      }
    }
  }

  lemma {:induction false} FlattenIncreasing(layers: seq<Layer>)
    requires Layered(layers)
    ensures Increasing(Flatten(layers))
  {
    if layers != [] {
      var n := |layers| - 1;
      FlattenIncreasing(layers[..n]);
      var front, last := Flatten(layers[..n]), Rows(layers[n].kind, layers[n].ids);
      forall i, j | 0 <= i < |front| && 0 <= j < |last| ensures Below(front[i], last[j]) {
        FlattenHolds(layers[..n], front[i]);
      }
    }
  }

  lemma AgainOrdered(first: seq<Row>, again: seq<Row>)
    requires Increasing(first) && forall i :: 0 <= i < |again| ==> again[i] in first
    ensures Ordered(first + again)
  {
    var path := first + again;
    forall i | 0 <= i < |path| ensures OrderedAt(path, i) {
      if i >= |first| {
        var k :| 0 <= k < |first| && first[k] == again[i - |first|];
        assert path[..i][k] == path[i];
      }
    }
  }

  lemma PlanRanks(t: Transaction, i: nat, j: nat)
    requires i < j < |Plan(t)|
    ensures Rank(Plan(t)[i].kind) < Rank(Plan(t)[j].kind)
  {
  }

  lemma PlanIds(t: Transaction, i: nat)
    requires i < |Plan(t)|
    ensures PA.Ascending(Plan(t)[i].ids)
  {
  }

  lemma PlanLayered(t: Transaction)
    ensures Layered(Plan(t))
  {
    var layers := Plan(t);
    forall i, j | 0 <= i < j < |layers| ensures Rank(layers[i].kind) < Rank(layers[j].kind) {
      PlanRanks(t, i, j);
    }
    forall i | 0 <= i < |layers| ensures PA.Ascending(layers[i].ids) {
      PlanIds(t, i);
    }
  }

  lemma AgainHeld(t: Transaction, row: Row)
    requires row in Again(t)
    ensures row in Flatten(Plan(t))
  {
    FlattenHolds(Plan(t), row);
    match t
    case SettlePayoutSuccess(user, _, commits, gross) => {
      PA.SourcesWereLocked(commits, user, gross);
      assert row.id in Plan(t)[1].ids;
    }
    case ReviewDeposit(_, _, _, _, _, _) => assert row.id in Plan(t)[Rank(row.kind) - if row.kind == UserLock then 0 else 1].ids;
    case AcceptItem(_, _, _, _, _) => assert row.id in Plan(t)[Rank(row.kind) - if row.kind == UserLock then 0 else 1].ids;
    case StartSession(_, _, _, _, _, _) => assert row.id in Plan(t)[Rank(row.kind) - 1].ids;
    case CloseSession(_, _, _, _, _, _) => assert row.id in Plan(t)[Rank(row.kind) - 1].ids;
    case IssueBags(_, _, _, _) => assert row.id in Plan(t)[Rank(row.kind) - 1].ids;
    case _ =>
  }

  /** Every transaction takes its not-yet-held locks in increasing (class, id) order. */
  lemma PathOrdered(t: Transaction)
    ensures Ordered(Path(t))
  {
    PlanLayered(t);
    FlattenIncreasing(Plan(t));
    forall i | 0 <= i < |Again(t)| ensures Again(t)[i] in Flatten(Plan(t)) {
      AgainHeld(t, Again(t)[i]);
    }
    AgainOrdered(Flatten(Plan(t)), Again(t));
  }

  // ----- ordered systems make progress ------------------------------------------------------------

  /** A running transaction: it holds the first `taken` rows of its path until it ends. */
  datatype Running = Running(path: seq<Row>, taken: nat, ended: bool)

  predicate Sized(r: Running) { r.taken <= |r.path| }

  predicate Asks(r: Running) { !r.ended && r.taken < |r.path| }

  predicate Holds(r: Running, row: Row) { !r.ended && Sized(r) && row in r.path[..r.taken] }

  /** Its next lock is held by no other transaction. */
  predicate Granted(rs: seq<Running>, i: nat) {
    && i < |rs| && Asks(rs[i])
    && forall j :: 0 <= j < |rs| && j != i ==> !Holds(rs[j], rs[i].path[rs[i].taken])
  }

  /** It can commit, or is granted its next lock. */
  predicate Proceeds(rs: seq<Running>, i: nat) {
    i < |rs| && !rs[i].ended && (rs[i].taken == |rs[i].path| || Granted(rs, i))
  }

  ghost predicate AllOrdered(rs: seq<Running>) { forall i :: 0 <= i < |rs| ==> Sized(rs[i]) && Ordered(rs[i].path) }

  /** The next row of a transaction is new to it, hence above all it holds, or it holds it already. */
  predicate AsksNew(r: Running) { Asks(r) && r.path[r.taken] !in r.path[..r.taken] }

  lemma KindsDiffer(a: Row, b: Row)
    ensures Rank(a.kind) == Rank(b.kind) ==> a.kind == b.kind
  {
  }

  /** Among the transactions that ask for a new row, one asks for a highest row. */
  lemma {:induction false} Highest(rs: seq<Running>, n: nat) returns (i: nat)
    requires n <= |rs| && exists k :: 0 <= k < n && AsksNew(rs[k])
    ensures i < n && AsksNew(rs[i])
    ensures forall k :: 0 <= k < n && AsksNew(rs[k]) ==> !Below(rs[i].path[rs[i].taken], rs[k].path[rs[k].taken])
  {
    var m := n - 1;
    if exists k :: 0 <= k < m && AsksNew(rs[k]) {
      i := Highest(rs, m);
      if AsksNew(rs[m]) && Below(rs[i].path[rs[i].taken], rs[m].path[rs[m].taken]) {
        var top := rs[i].path[rs[i].taken];
        forall k | 0 <= k < m && AsksNew(rs[k]) ensures !Below(rs[m].path[rs[m].taken], rs[k].path[rs[k].taken]) {
          KindsDiffer(top, rs[k].path[rs[k].taken]);
          KindsDiffer(rs[m].path[rs[m].taken], rs[k].path[rs[k].taken]);
          KindsDiffer(top, rs[m].path[rs[m].taken]);
        }
        i := m;
      }
    } else {
      i := m;
    }
  }

  lemma AboveHeld(r: Running, row: Row)
    requires Ordered(r.path) && AsksNew(r) && row in r.path[..r.taken]
    ensures Below(row, r.path[r.taken])
  {
    assert OrderedAt(r.path, r.taken);
    var j :| 0 <= j < r.taken && r.path[..r.taken][j] == row;
  }

  /** While some transaction is open, one of them can proceed: ordered transactions never deadlock. */
  lemma NeverDeadlocks(rs: seq<Running>) returns (i: nat)
    requires AllOrdered(rs) && Exclusive(rs) && exists k :: 0 <= k < |rs| && !rs[k].ended
    ensures Proceeds(rs, i)
  {
    if k :| 0 <= k < |rs| && !rs[k].ended && rs[k].taken == |rs[k].path| {
      i := k;
    } else if k :| 0 <= k < |rs| && Asks(rs[k]) && !AsksNew(rs[k]) {
      i := k;
      forall j | 0 <= j < |rs| && j != k ensures !Holds(rs[j], rs[k].path[rs[k].taken]) {
        assert Holds(rs[k], rs[k].path[rs[k].taken]);
        assert Apart(rs, j, k);
      }
    } else {
      var k :| 0 <= k < |rs| && !rs[k].ended;
      assert Sized(rs[k]) && AsksNew(rs[k]);
      i := Highest(rs, |rs|);
      var top := rs[i].path[rs[i].taken];
      forall j | 0 <= j < |rs| && j != i ensures !Holds(rs[j], top) {
        if Holds(rs[j], top) { AboveHeld(rs[j], top); }
      }
    }
  }

  /** No row is held twice. */
  ghost predicate Apart(rs: seq<Running>, i: nat, j: nat)
    requires i < |rs| && j < |rs|
  {
    i != j ==> forall row :: !(Holds(rs[i], row) && Holds(rs[j], row))
  }

  ghost predicate Exclusive(rs: seq<Running>) { forall i, j :: 0 <= i < |rs| && 0 <= j < |rs| ==> Apart(rs, i, j) }

  datatype Step = Take(i: nat) | Commit(i: nat) | Abort(i: nat)

  /** A granted lock is taken; a transaction that has all its locks commits, or aborts at any time, and releases them. */
  function Apply(rs: seq<Running>, s: Step): seq<Running> {
    match s
    case Take(i) => if Granted(rs, i) then rs[i := rs[i].(taken := rs[i].taken + 1)] else rs
    case Commit(i) => if i < |rs| && rs[i].taken == |rs[i].path| then rs[i := rs[i].(ended := true)] else rs
    case Abort(i) => if i < |rs| then rs[i := rs[i].(ended := true)] else rs
  }

  lemma StepKeeps(rs: seq<Running>, s: Step)
    requires AllOrdered(rs) && Exclusive(rs)
    ensures AllOrdered(Apply(rs, s)) && Exclusive(Apply(rs, s))
  {
    var rs' := Apply(rs, s);
    forall i, j | 0 <= i < |rs'| && 0 <= j < |rs'| ensures Apart(rs', i, j) {
      assert Apart(rs, i, j);
      if i != j {
        forall row ensures !(Holds(rs'[i], row) && Holds(rs'[j], row)) {
          StillHolds(rs, s, i, row);
          StillHolds(rs, s, j, row);
        }
      }
    }
  }

  /** What a transaction holds after a step it held before, or was just granted. */
  lemma StillHolds(rs: seq<Running>, s: Step, i: nat, row: Row)
    requires i < |rs| && Sized(rs[i])
    ensures Holds(Apply(rs, s)[i], row) ==> Holds(rs[i], row) || (s == Take(i) && Granted(rs, i) && row == rs[i].path[rs[i].taken])
  {
    var r := rs[i];
    if s == Take(i) && Granted(rs, i) {
      assert r.path[..r.taken + 1] == r.path[..r.taken] + [r.path[r.taken]];
    }
  }

  function Begun(paths: seq<seq<Row>>): seq<Running> { seq(|paths|, i requires 0 <= i < |paths| => Running(paths[i], 0, false)) }

  function RunAll(rs: seq<Running>, steps: seq<Step>): seq<Running> {
    if steps == [] then rs else Apply(RunAll(rs, steps[..|steps| - 1]), steps[|steps| - 1])
  }

  lemma {:induction false} RunKeeps(rs: seq<Running>, steps: seq<Step>)
    requires AllOrdered(rs) && Exclusive(rs)
    ensures AllOrdered(RunAll(rs, steps)) && Exclusive(RunAll(rs, steps))
  {
    if steps != [] {
      RunKeeps(rs, steps[..|steps| - 1]);
      StepKeeps(RunAll(rs, steps[..|steps| - 1]), steps[|steps| - 1]);
    }
  }

  function Paths(ts: seq<Transaction>): seq<seq<Row>> { seq(|ts|, i requires 0 <= i < |ts| => Path(ts[i])) }

  /**
    In every state that any interleaving of these transactions reaches, commits and aborts included, no row is held
    twice, and either all have ended or one of them can commit or is granted its next lock.
   */
  lemma TransactionsProgress(ts: seq<Transaction>, steps: seq<Step>)
    ensures var rs := RunAll(Begun(Paths(ts)), steps);
      Exclusive(rs) && ((forall k :: 0 <= k < |rs| ==> rs[k].ended) || exists i :: Proceeds(rs, i))
  {
    var begun := Begun(Paths(ts));
    forall i | 0 <= i < |begun| ensures Ordered(begun[i].path) {
      PathOrdered(ts[i]);
    }
    RunKeeps(begun, steps);
    var rs := RunAll(begun, steps);
    if exists k :: 0 <= k < |rs| && !rs[k].ended {
      var i := NeverDeadlocks(rs);
    }
  }
}
