/**
  The tamper-evident audit chain (lib/audit.ts). The keyed hash, the plain hash and the date rendering are
  parameters; `Sane` says what is used of them.
 */
module AuditChain {
  import opened Basics
  import opened Ordering
  import opened Json
  import opened JsonInjective

  datatype Primitives = Primitives(mac: string -> string, sha: string -> string, iso: int -> string)

  ghost predicate Sane(p: Primitives) {
    && (forall x, y :: p.mac(x) == p.mac(y) ==> x == y)
    && (forall x :: p.mac(x) != "" && OneLine(p.mac(x)))
    && (forall x, y :: p.sha(x) == p.sha(y) ==> x == y)
    && (forall t, u :: p.iso(t) == p.iso(u) ==> t == u)
  }

  datatype Entry = Entry(
    createdAt: int, actorId: Option<string>, action: string, entityType: string,
    entityId: Option<string>, metadata: Option<Json>)

  datatype Row = Row(
    id: string, entry: Entry, chainVersion: int, chainSequence: Option<int>,
    previousHash: Option<string>, checksum: Option<string>)

  ghost predicate Stored(e: Entry) { e.metadata.Some? ==> WellFormed(e.metadata.value) }
  ghost predicate AllStored(rows: seq<Row>) { forall i :: 0 <= i < |rows| ==> Stored(rows[i].entry) }

  // ----- canonical payload ----------------------------------------------------------------------

  function Text(s: Option<string>): Json { if s.Some? then Str(s.value) else Null }
  function Metadata(e: Entry): Json { if e.metadata.Some? then e.metadata.value else Null }

  function EntryMembers(p: Primitives, e: Entry): seq<Member> {
    [Member("v", Num("2")), Member("createdAt", Str(p.iso(e.createdAt))), Member("actorId", Text(e.actorId)),
     Member("action", Str(e.action)), Member("entityType", Str(e.entityType)), Member("entityId", Text(e.entityId)),
     Member("metadataJson", Metadata(e))]
  }

  function CanonicalPayload(p: Primitives, e: Entry): string { StableStringify(Obj(EntryMembers(p, e))) }

  /** The same entry, up to the order of keys inside its metadata. */
  ghost predicate SameEntry(e: Entry, f: Entry) {
    && e.createdAt == f.createdAt && e.actorId == f.actorId && e.action == f.action
    && e.entityType == f.entityType && e.entityId == f.entityId
    && Meaning(Metadata(e)) == Meaning(Metadata(f))
  }

  lemma EntryWellFormed(p: Primitives, e: Entry)
    requires Stored(e)
    ensures WellFormed(Obj(EntryMembers(p, e)))
  {
    var ms := EntryMembers(p, e);
    assert forall i :: 0 <= i < |ms| ==> WellFormed(ms[i].value);
    assert |"v"| == 1 && |"createdAt"| == 9 && |"actorId"| == 7 && |"action"| == 6 && |"entityType"| == 10
           && |"entityId"| == 8 && |"metadataJson"| == 12;
    assert forall i, j :: 0 <= i < j < |ms| ==> |ms[i].key| != |ms[j].key|;
  }

  lemma {:induction false} SameMembersSameValues(ms: seq<Member>, ns: seq<Member>, i: nat)
    requires DistinctKeys(ms) && DistinctKeys(ns) && i < |ms| == |ns| && ms[i].key == ns[i].key
    requires Members(ms) == Members(ns)
    ensures Meaning(ms[i].value) == Meaning(ns[i].value)
  {
    MembersAt(ms, ms[i].key);
    MembersAt(ns, ms[i].key);
  }

  lemma TextMeaning(s: Option<string>, t: Option<string>)
    ensures Meaning(Text(s)) == Meaning(Text(t)) <==> s == t
  {
  }

  lemma MembersGiveEntry(p: Primitives, e: Entry, f: Entry)
    requires Sane(p) && DistinctKeys(EntryMembers(p, e)) && DistinctKeys(EntryMembers(p, f))
    requires Members(EntryMembers(p, e)) == Members(EntryMembers(p, f))
    ensures SameEntry(e, f)
  {
    var ms, ns := EntryMembers(p, e), EntryMembers(p, f);
    SameMembersSameValues(ms, ns, 1);
    SameMembersSameValues(ms, ns, 2);
    SameMembersSameValues(ms, ns, 3);
    SameMembersSameValues(ms, ns, 4);
    SameMembersSameValues(ms, ns, 5);
    SameMembersSameValues(ms, ns, 6);
    TextMeaning(e.actorId, f.actorId);
    TextMeaning(e.entityId, f.entityId);
  }

  lemma EntryGivesMembers(p: Primitives, e: Entry, f: Entry)
    requires SameEntry(e, f)
    ensures Members(EntryMembers(p, e)) == Members(EntryMembers(p, f))
  {
    SameKeysSameMeaning(EntryMembers(p, e), EntryMembers(p, f));
  }

  /** The payload covers every column: two entries share it exactly when they are the same entry. */
  lemma PayloadExact(p: Primitives, e: Entry, f: Entry)
    requires Sane(p) && Stored(e) && Stored(f)
    ensures CanonicalPayload(p, e) == CanonicalPayload(p, f) <==> SameEntry(e, f)
  {
    var ms, ns := EntryMembers(p, e), EntryMembers(p, f);
    EntryWellFormed(p, e);
    EntryWellFormed(p, f);
    CanonicalText(Obj(ms), Obj(ns));
    if Members(ms) == Members(ns) {
      MembersGiveEntry(p, e, f);
    }
    if SameEntry(e, f) {
      EntryGivesMembers(p, e, f);
    }
  }

  // ----- the link -------------------------------------------------------------------------------

  function Decimal(n: nat): (s: string)
    ensures s != "" && forall i :: 0 <= i < |s| ==> '0' <= s[i] <= '9'
  {
    (if n < 10 then "" else Decimal(n / 10)) + ['0' + (n % 10) as char]
  }

  lemma {:induction false} DecimalInjective(n: nat, m: nat)
    requires Decimal(n) == Decimal(m)
    ensures n == m
  {
    var s, t := Decimal(n), Decimal(m);
    assert s[|s| - 1] == '0' + (n % 10) as char && t[|t| - 1] == '0' + (m % 10) as char;
    assert n % 10 == m % 10;
    assert s[..|s| - 1] == if n < 10 then "" else Decimal(n / 10);
    assert t[..|t| - 1] == if m < 10 then "" else Decimal(m / 10);
    if n >= 10 && m >= 10 {
      DecimalInjective(n / 10, m / 10);
    }
  }

  function Whole(n: int): string { if n < 0 then "-" + Decimal(-n) else Decimal(n) }

  lemma WholeInjective(n: int, m: int)
    requires Whole(n) == Whole(m)
    ensures n == m
  {
    assert (Whole(n)[0] == '-' <==> n < 0) && (Whole(m)[0] == '-' <==> m < 0);
    if n < 0 {
      Peel('-', Decimal(-n), Decimal(-m));
      DecimalInjective(-n, -m);
    } else {
      DecimalInjective(n, m);
    }
  }

  function Previous(h: Option<string>): string { if h.Some? then h.value else "" }

  const HEADER := "reloop-audit-v2\n"

  function Message(sequence: int, previous: Option<string>, canonical: string): string {
    HEADER + (Whole(sequence) + "\n" + (Previous(previous) + "\n" + canonical))
  }

  function ChecksumV2(p: Primitives, previous: Option<string>, sequence: int, e: Entry): string {
    p.mac(Message(sequence, previous, CanonicalPayload(p, e)))
  }

  ghost function LineSpan(s: string): nat {
    if s == "" || s[0] == '\n' then 0 else 1 + LineSpan(s[1..])
  }

  lemma {:induction false} LineSpanIs(a: string, u: string)
    requires OneLine(a)
    ensures LineSpan(a + "\n" + u) == |a|
  {
    if a == "" {
      assert a + "\n" + u == "\n" + u;
    } else {
      LineSpanIs(a[1..], u);
      assert (a + "\n" + u)[1..] == a[1..] + "\n" + u;
    }
  }

  lemma LineInjective(a: string, u: string, b: string, v: string)
    requires OneLine(a) && OneLine(b) && a + "\n" + u == b + "\n" + v
    ensures a == b && u == v
  {
    LineSpanIs(a, u);
    LineSpanIs(b, v);
    SameLength(a + "\n", u, b + "\n", v);
    SameLength(a, "\n", b, "\n");
  }

  /** What a checksum can follow: nothing, or an earlier checksum. */
  ghost predicate Hash(h: Option<string>) { h.Some? ==> h.value != "" && OneLine(h.value) }

  /** Position, predecessor and payload can be read back from the signed message. */
  lemma MessageInjective(n: int, h: Option<string>, c: string, m: int, g: Option<string>, d: string)
    requires Hash(h) && Hash(g) && Message(n, h, c) == Message(m, g, d)
    ensures n == m && h == g && c == d
  {
    SameLength(HEADER, Whole(n) + "\n" + (Previous(h) + "\n" + c), HEADER, Whole(m) + "\n" + (Previous(g) + "\n" + d));
    LineInjective(Whole(n), Previous(h) + "\n" + c, Whole(m), Previous(g) + "\n" + d);
    WholeInjective(n, m);
    LineInjective(Previous(h), c, Previous(g), d);
  }

  // ----- verification as one pass over the chain ------------------------------------------------

  datatype Break = VersionBreak | SequenceBreak | PreviousHashBreak | ChecksumBreak
  datatype Fault = Fault(row: string, reason: Break)
  datatype Verdict = Verdict(broken: Option<Fault>, checkedCount: nat, checkpoint: Option<Row>)

  const CHAIN_VERSION := 2
  const LEGACY_VERSION := 1

  predicate SequenceLess(a: Row, b: Row) {
    a.chainSequence.Some? && b.chainSequence.Some? && a.chainSequence.value < b.chainSequence.value
  }

  predicate TimeLess(a: Row, b: Row) {
    a.entry.createdAt < b.entry.createdAt || (a.entry.createdAt == b.entry.createdAt && KeyLess(a.id, b.id))
  }

  predicate Sequenced(row: Row) { row.chainSequence.Some? }
  predicate Legacy(row: Row) { row.chainVersion == LEGACY_VERSION }
  predicate Stray(row: Row) { row.chainSequence.None? && row.chainVersion != LEGACY_VERSION }
  predicate IsCheckpoint(row: Row) {
    row.entry.action == "AUDIT_CHAIN_CHECKPOINT" && row.entry.entityType == "AuditChain"
  }

  /** The checksum a row must carry, from its predecessor's checksum and its position. */
  type Link = (Option<string>, int, Entry) -> string

  function LinkOf(p: Primitives): Link { (previous, sequence, e) => ChecksumV2(p, previous, sequence, e) }

  /** The unique index on chainSequence. */
  ghost predicate UniqueSequences(table: seq<Row>) {
    forall i, j :: 0 <= i < j < |table| && Sequenced(table[i]) && Sequenced(table[j])
                   ==> table[i].chainSequence != table[j].chainSequence
  }

  ghost predicate UniqueIds(table: seq<Row>) {
    forall i, j :: 0 <= i < j < |table| ==> table[i].id != table[j].id
  }

  function Chain(table: seq<Row>): seq<Row> { Sort(Filter(table, Sequenced), SequenceLess) }

  function CheckRow(link: Link, row: Row, previous: Option<string>, expected: nat): Option<Break> {
    if row.chainVersion != CHAIN_VERSION then Some(VersionBreak)
    else if row.chainSequence != Some(expected) then Some(SequenceBreak)
    else if row.previousHash != previous then Some(PreviousHashBreak)
    else if row.checksum != Some(link(previous, expected, row.entry)) then Some(ChecksumBreak)
    else None
  }

  function Walk(link: Link, rows: seq<Row>, previous: Option<string>, count: nat, checkpoint: Option<Row>): Verdict {
    if rows == [] then Verdict(None, count, checkpoint)
    else
      var row := rows[0];
      var reason := CheckRow(link, row, previous, count + 1);
      if reason.Some? then Verdict(Some(Fault(row.id, reason.value)), count, checkpoint)
      else Walk(link, rows[1..], row.checksum, count + 1, if IsCheckpoint(row) then Some(row) else checkpoint)
  }

  function FirstStray(table: seq<Row>): Option<Row> {
    var strays := Sort(Filter(table, Stray), TimeLess);
    if strays == [] then None else Some(strays[0])
  }

  /** The verdict on a table: the first broken link in sequence order, or the first row without a place. */
  function Verify(p: Primitives, table: seq<Row>): Verdict {
    var v := Walk(LinkOf(p), Chain(table), None, 0, None);
    if v.broken.None? && FirstStray(table).Some?
    then v.(broken := Some(Fault(FirstStray(table).value.id, SequenceBreak))) else v
  }

  // ----- a valid chain ----------------------------------------------------------------------------

  function HashBefore(rows: seq<Row>, i: nat): Option<string>
    requires i <= |rows|
  {
    if i == 0 then None else rows[i - 1].checksum
  }

  ghost predicate LinkedAt(link: Link, rows: seq<Row>, i: nat)
    requires i < |rows|
  {
    CheckRow(link, rows[i], HashBefore(rows, i), i + 1).None?
  }

  ghost predicate Linked(link: Link, rows: seq<Row>) {
    forall i :: 0 <= i < |rows| ==> LinkedAt(link, rows, i)
  }

  function LastCheckpoint(rows: seq<Row>): Option<Row> {
    if rows == [] then None
    else if IsCheckpoint(rows[|rows| - 1]) then Some(rows[|rows| - 1]) else LastCheckpoint(rows[..|rows| - 1])
  }

  lemma {:induction false} WalkFrom(link: Link, rows: seq<Row>, k: nat)
    requires k <= |rows| && forall i :: 0 <= i < k ==> LinkedAt(link, rows, i)
    ensures Walk(link, rows, None, 0, None) == Walk(link, rows[k..], HashBefore(rows, k), k, LastCheckpoint(rows[..k]))
  {
    if k == 0 {
      assert rows[0..] == rows;
    } else {
      WalkFrom(link, rows, k - 1);
      assert LinkedAt(link, rows, k - 1);
      assert rows[k - 1..][1..] == rows[k..];
      assert rows[..k][..k - 1] == rows[..k - 1];
    }
  }

  lemma {:induction false} WalkLinked(link: Link, rows: seq<Row>, k: nat)
    requires k <= |rows| && forall i :: 0 <= i < k ==> LinkedAt(link, rows, i)
    requires Walk(link, rows, None, 0, None).broken.None?
    ensures Linked(link, rows)
    decreases |rows| - k
  {
    if k < |rows| {
      WalkFrom(link, rows, k);
      assert rows[k..][0] == rows[k];
      WalkLinked(link, rows, k + 1);
    }
  }

  /** The walk finds no break exactly when every row is linked; it then checked them all. */
  lemma WalkExact(link: Link, rows: seq<Row>)
    ensures Walk(link, rows, None, 0, None).broken.None? <==> Linked(link, rows)
    ensures Linked(link, rows) ==> Walk(link, rows, None, 0, None) == Verdict(None, |rows|, LastCheckpoint(rows))
  {
    if Walk(link, rows, None, 0, None).broken.None? { WalkLinked(link, rows, 0); }
    if Linked(link, rows) {
      WalkFrom(link, rows, |rows|);
      assert rows[..|rows|] == rows;
    }
  }

  // ----- appending ---------------------------------------------------------------------------------

  datatype Input = Input(id: string, entry: Entry)

  /** The row written under the chain lock: next position, linked to the head. */
  function NextRow(p: Primitives, table: seq<Row>, input: Input): Row {
    var chain := Chain(table);
    var head := if chain == [] then None else Some(chain[|chain| - 1]);
    var sequence := (if head.Some? && head.value.chainSequence.Some? then head.value.chainSequence.value else 0) + 1;
    var previous := if head.Some? then head.value.checksum else None;
    Row(input.id, input.entry, CHAIN_VERSION, Some(sequence), previous, Some(ChecksumV2(p, previous, sequence, input.entry)))
  }

  function Append(p: Primitives, table: seq<Row>, input: Input): seq<Row> { table + [NextRow(p, table, input)] }

  function AppendAll(p: Primitives, archive: seq<Row>, inputs: seq<Input>): seq<Row> {
    if inputs == [] then archive
    else Append(p, AppendAll(p, archive, inputs[..|inputs| - 1]), inputs[|inputs| - 1])
  }

  lemma SequenceOrders()
    ensures Orders(SequenceLess)
  {
  }

  lemma {:induction false} SequencedRanked(table: seq<Row>, keep: Row -> bool)
    requires UniqueSequences(table) && forall i :: 0 <= i < |table| && keep(table[i]) ==> Sequenced(table[i])
    ensures Ranked(Filter(table, keep), SequenceLess)
  {
    if table != [] {
      SequencedRanked(table[1..], keep);
      var rest := Filter(table[1..], keep);
      forall j | 0 <= j < |rest| && keep(table[0]) ensures SequenceLess(table[0], rest[j]) || SequenceLess(rest[j], table[0]) {
        FilterElements(table[1..], keep, rest[j]);
        var i :| 0 <= i < |table[1..]| && table[1..][i] == rest[j];
        assert table[i + 1] == rest[j];
      }
    }
  }

  lemma ChainHolds(table: seq<Row>, row: Row)
    ensures row in Chain(table) <==> row in table && Sequenced(row)
  {
    SortHolds(Filter(table, Sequenced), SequenceLess, row);
    FilterElements(table, Sequenced, row);
  }

  lemma {:induction false} FilterAppend(xs: seq<Row>, x: Row, keep: Row -> bool)
    ensures Filter(xs + [x], keep) == Filter(xs, keep) + if keep(x) then [x] else []
  {
    if xs != [] {
      FilterAppend(xs[1..], x, keep);
      assert (xs + [x])[1..] == xs[1..] + [x];
    } else {
      assert Filter([x], keep) == if keep(x) then [x] else [];
      assert xs + [x] == [x];
    }
  }

  ghost predicate Valid(p: Primitives, table: seq<Row>) { UniqueSequences(table) && Verify(p, table).broken.None? }

  lemma ValidLinked(p: Primitives, table: seq<Row>)
    requires Valid(p, table)
    ensures Linked(LinkOf(p), Chain(table)) && Verify(p, table).checkedCount == |Chain(table)| && FirstStray(table).None?
  {
    WalkExact(LinkOf(p), Chain(table));
  }

  /** In a linked chain every row sits at its own number, below the next one. */
  lemma LinkedBelow(link: Link, rows: seq<Row>, row: Row)
    requires Linked(link, rows) && row in rows
    ensures row.chainSequence.Some? && 1 <= row.chainSequence.value <= |rows|
  {
    var i :| 0 <= i < |rows| && rows[i] == row;
    assert LinkedAt(link, rows, i);
  }

  lemma LinkedAppend(link: Link, rows: seq<Row>, row: Row)
    requires Linked(link, rows) && CheckRow(link, row, HashBefore(rows, |rows|), |rows| + 1).None?
    ensures Linked(link, rows + [row])
  {
    forall i | 0 <= i < |rows + [row]| ensures LinkedAt(link, rows + [row], i) {
      if i < |rows| { assert LinkedAt(link, rows, i); }
    }
  }

  lemma NextRowLinks(p: Primitives, table: seq<Row>, input: Input)
    requires Linked(LinkOf(p), Chain(table))
    ensures CheckRow(LinkOf(p), NextRow(p, table, input), HashBefore(Chain(table), |Chain(table)|), |Chain(table)| + 1).None?
  {
    var chain := Chain(table);
    if chain != [] { assert LinkedAt(LinkOf(p), chain, |chain| - 1); }
  }

  /** The next row lies above every sequenced one. */
  lemma NextRowAbove(p: Primitives, table: seq<Row>, input: Input, r: Row)
    requires Linked(LinkOf(p), Chain(table)) && r in table && Sequenced(r)
    ensures SequenceLess(r, NextRow(p, table, input))
  {
    ChainHolds(table, r);
    LinkedBelow(LinkOf(p), Chain(table), r);
    NextRowLinks(p, table, input);
  }

  lemma AppendUnique(table: seq<Row>, row: Row)
    requires UniqueSequences(table) && forall r :: r in table && Sequenced(r) ==> SequenceLess(r, row)
    ensures UniqueSequences(table + [row])
  {
    var grown := table + [row];
    forall i, j | 0 <= i < j < |grown| && Sequenced(grown[i]) && Sequenced(grown[j])
      ensures grown[i].chainSequence != grown[j].chainSequence
    {
      if j == |table| { assert table[i] in table; }
    }
  }

  lemma AppendChain(table: seq<Row>, row: Row)
    requires UniqueSequences(table) && Sequenced(row)
    requires forall r :: r in table && Sequenced(r) ==> SequenceLess(r, row)
    ensures Chain(table + [row]) == Chain(table) + [row] && FirstStray(table + [row]) == FirstStray(table)
  {
    FilterAppend(table, row, Sequenced);
    FilterAppend(table, row, Stray);
    forall r | r in Filter(table, Sequenced) ensures SequenceLess(r, row) {
      FilterElements(table, Sequenced, r);
    }
    SequenceOrders();
    SequencedRanked(table, Sequenced);
    SortLast(Filter(table, Sequenced), row, SequenceLess);
    assert Filter(table, Stray) + [] == Filter(table, Stray);
  }

  /** Appending to a table that verifies gives one that verifies, with one more row checked. */
  lemma AppendVerifies(p: Primitives, table: seq<Row>, input: Input)
    requires Valid(p, table)
    ensures Valid(p, Append(p, table, input))
    ensures Verify(p, Append(p, table, input)).checkedCount == Verify(p, table).checkedCount + 1
    ensures Chain(Append(p, table, input)) == Chain(table) + [NextRow(p, table, input)]
  {
    var row := NextRow(p, table, input);
    ValidLinked(p, table);
    NextRowLinks(p, table, input);
    forall r | r in table && Sequenced(r) ensures SequenceLess(r, row) {
      NextRowAbove(p, table, input, r);
    }
    AppendUnique(table, row);
    AppendChain(table, row);
    LinkedAppend(LinkOf(p), Chain(table), row);
    WalkExact(LinkOf(p), Chain(table + [row]));
  }

  /** Any run of appends over an archive of legacy rows verifies, and every appended row was checked. */
  lemma {:induction false} AppendsVerify(p: Primitives, archive: seq<Row>, inputs: seq<Input>)
    requires forall i :: 0 <= i < |archive| ==> Legacy(archive[i]) && !Sequenced(archive[i])
    ensures Valid(p, AppendAll(p, archive, inputs))
    ensures Verify(p, AppendAll(p, archive, inputs)).checkedCount == |inputs|
  {
    if inputs == [] {
      FilterNone(archive, Sequenced);
      FilterNone(archive, Stray);
    } else {
      AppendsVerify(p, archive, inputs[..|inputs| - 1]);
      AppendVerifies(p, AppendAll(p, archive, inputs[..|inputs| - 1]), inputs[|inputs| - 1]);
    }
  }

  lemma {:induction false} FilterNone(rows: seq<Row>, keep: Row -> bool)
    requires forall i :: 0 <= i < |rows| ==> !keep(rows[i])
    ensures Filter(rows, keep) == []
  {
    if rows != [] { FilterNone(rows[1..], keep); }
  }

  // ----- the head checksum fixes the whole history --------------------------------------------------

  ghost predicate SamePayload(p: Primitives, xs: seq<Row>, ys: seq<Row>, i: nat)
    requires i < |xs| && i < |ys|
  {
    CanonicalPayload(p, xs[i].entry) == CanonicalPayload(p, ys[i].entry)
  }

  lemma {:induction false} Hashes(p: Primitives, rows: seq<Row>, i: nat)
    requires Sane(p) && Linked(LinkOf(p), rows) && i <= |rows|
    ensures Hash(HashBefore(rows, i)) && (HashBefore(rows, i).None? <==> i == 0)
  {
    if i > 0 { assert LinkedAt(LinkOf(p), rows, i - 1); }
  }

  lemma LinkInjective(p: Primitives, n: int, h: Option<string>, e: Entry, g: Option<string>, f: Entry)
    requires Sane(p) && Hash(h) && Hash(g) && ChecksumV2(p, h, n, e) == ChecksumV2(p, g, n, f)
    ensures h == g && CanonicalPayload(p, e) == CanonicalPayload(p, f)
  {
    MessageInjective(n, h, CanonicalPayload(p, e), n, g, CanonicalPayload(p, f));
  }

  lemma LinkedChecksum(p: Primitives, rows: seq<Row>, k: nat)
    requires Linked(LinkOf(p), rows) && k < |rows|
    ensures rows[k].checksum == Some(ChecksumV2(p, HashBefore(rows, k), k + 1, rows[k].entry))
  {
    assert LinkedAt(LinkOf(p), rows, k);
  }

  lemma {:induction false} SameChecksumSameHistory(p: Primitives, xs: seq<Row>, ys: seq<Row>, k: nat)
    requires Sane(p) && Linked(LinkOf(p), xs) && Linked(LinkOf(p), ys) && k < |xs| && k < |ys|
    requires xs[k].checksum == ys[k].checksum
    ensures forall i :: 0 <= i <= k ==> SamePayload(p, xs, ys, i)
  {
    LinkedChecksum(p, xs, k);
    LinkedChecksum(p, ys, k);
    Hashes(p, xs, k);
    Hashes(p, ys, k);
    LinkInjective(p, k + 1, HashBefore(xs, k), xs[k].entry, HashBefore(ys, k), ys[k].entry);
    assert SamePayload(p, xs, ys, k);
    if k > 0 { SameChecksumSameHistory(p, xs, ys, k - 1); }
  }

  lemma {:induction false} SameHistorySameChecksum(p: Primitives, xs: seq<Row>, ys: seq<Row>, k: nat)
    requires Linked(LinkOf(p), xs) && Linked(LinkOf(p), ys) && k < |xs| && k < |ys|
    requires forall i :: 0 <= i <= k ==> SamePayload(p, xs, ys, i)
    ensures xs[k].checksum == ys[k].checksum
  {
    if k > 0 { SameHistorySameChecksum(p, xs, ys, k - 1); }
    assert LinkedAt(LinkOf(p), xs, k) && LinkedAt(LinkOf(p), ys, k) && SamePayload(p, xs, ys, k);
  }

  /**
    Two tables that both verify, with the same number of rows, agree on the last checksum exactly when they
    hold the same entries in the same order (up to key order inside metadata).
   */
  lemma HeadFixesHistory(p: Primitives, s: seq<Row>, t: seq<Row>)
    requires Sane(p) && Valid(p, s) && Valid(p, t) && AllStored(Chain(s)) && AllStored(Chain(t))
    requires Verify(p, s).checkedCount == Verify(p, t).checkedCount > 0
    ensures |Chain(s)| == |Chain(t)| == Verify(p, s).checkedCount
    ensures var n := |Chain(s)|;
      Chain(s)[n - 1].checksum == Chain(t)[n - 1].checksum
      <==> forall i :: 0 <= i < n ==> SameEntry(Chain(s)[i].entry, Chain(t)[i].entry)
  {
    ValidLinked(p, s);
    ValidLinked(p, t);
    var xs, ys := Chain(s), Chain(t);
    var n := |xs|;
    forall i | 0 <= i < n ensures SamePayload(p, xs, ys, i) <==> SameEntry(xs[i].entry, ys[i].entry) {
      PayloadExact(p, xs[i].entry, ys[i].entry);
    }
    if xs[n - 1].checksum == ys[n - 1].checksum {
      SameChecksumSameHistory(p, xs, ys, n - 1);
    }
    if forall i :: 0 <= i < n ==> SameEntry(xs[i].entry, ys[i].entry) {
      SameHistorySameChecksum(p, xs, ys, n - 1);
    }
  }
}
