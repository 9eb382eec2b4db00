/** The batched readers of the audit table, and the append, against their one-pass specifications. */
module AuditWalk {
  import opened Basics
  import opened Ordering
  import opened Json
  import opened JsonInjective
  import opened AuditChain

  function Take<T>(xs: seq<T>, n: nat): seq<T> { if |xs| <= n then xs else xs[..n] }

  predicate After(row: Row, cursor: Option<int>) {
    row.chainSequence.Some? && (cursor.Some? ==> row.chainSequence.value > cursor.value)
  }

  /** One query: the next sequenced rows after the cursor, in order. */
  function ChainPage(table: seq<Row>, cursor: Option<int>, batch: nat): seq<Row> {
    Take(Sort(Filter(table, (row: Row) => After(row, cursor)), SequenceLess), batch)
  }

  /** The cursor of the walk: nothing read yet, or the sequence of the last row read. */
  ghost predicate CursorAt(all: seq<Row>, cursor: Option<int>, k: nat) {
    k <= |all| && if k == 0 then cursor.None? else cursor.Some? && cursor == all[k - 1].chainSequence
  }

  lemma ChainPageIs(table: seq<Row>, cursor: Option<int>, k: nat, batch: nat)
    requires UniqueSequences(table) && CursorAt(Chain(table), cursor, k)
    ensures ChainPage(table, cursor, batch) == Take(Chain(table)[k..], batch)
  {
    var after := (row: Row) => After(row, cursor);
    if k == 0 {
      FilterSame(table, Sequenced, after);
      assert Chain(table)[0..] == Chain(table);
    } else {
      SequenceOrders();
      SequencedRanked(table, Sequenced);
      SequencedRanked(table, after);
      PageFollows(table, Sequenced, SequenceLess, k, after);
    }
  }

  lemma {:induction false} FilterSame<T>(xs: seq<T>, f: T -> bool, g: T -> bool)
    requires forall i :: 0 <= i < |xs| ==> (f(xs[i]) <==> g(xs[i]))
    ensures Filter(xs, f) == Filter(xs, g)
  {
    if xs != [] { FilterSame(xs[1..], f, g); }
  }

  /** A page is the next stretch of the rows; a short page reaches their end. */
  ghost predicate Stretch(all: seq<Row>, k: nat, rows: seq<Row>, batch: nat) {
    && k + |rows| <= |all| && rows == all[k..k + |rows|] && |rows| <= batch
    && (|rows| < batch ==> k + |rows| == |all|)
  }

  lemma TakeStretch(all: seq<Row>, k: nat, batch: nat)
    requires k <= |all|
    ensures Stretch(all, k, Take(all[k..], batch), batch)
  {
  }

  lemma WalkStep(link: Link, all: seq<Row>, k: nat, previous: Option<string>, checkpoint: Option<Row>)
    requires k < |all|
    ensures var row := all[k]; var reason := CheckRow(link, row, previous, k + 1);
      Walk(link, all[k..], previous, k, checkpoint)
      == if reason.Some? then Verdict(Some(Fault(row.id, reason.value)), k, checkpoint)
         else Walk(link, all[k + 1..], row.checksum, k + 1, if IsCheckpoint(row) then Some(row) else checkpoint)
  {
    assert all[k..][0] == all[k] && all[k..][1..] == all[k + 1..];
  }

  /** One page of the walk towards the verdict `goal`. */
  method WalkPage(link: Link, ghost all: seq<Row>, rows: seq<Row>, ghost batch: nat,
                  start: nat, first: Option<string>, before: Option<Row>, ghost goal: Verdict)
    returns (broken: Option<Fault>, checked: nat, previous: Option<string>, checkpoint: Option<Row>)
    requires Stretch(all, start, rows, batch) && goal == Walk(link, all[start..], first, start, before)
    ensures broken.Some? ==> goal == Verdict(broken, checked, checkpoint)
    ensures broken.None? ==> checked == start + |rows| && goal == Walk(link, all[checked..], previous, checked, checkpoint)
  {
    broken, checked, previous, checkpoint := None, start, first, before;
    var expected, i := start + 1, 0;
    while i < |rows|
      invariant 0 <= i <= |rows| && checked == start + i && expected == checked + 1
      invariant goal == Walk(link, all[checked..], previous, checked, checkpoint)
    {
      var row := rows[i];
      assert row == all[checked];
      WalkStep(link, all, checked, previous, checkpoint);
      var reason := CheckRow(link, row, previous, expected);
      if reason.Some? {
        broken := Some(Fault(row.id, reason.value));
        return;
      }
      if IsCheckpoint(row) { checkpoint := Some(row); }
      previous, expected, checked, i := row.checksum, expected + 1, checked + 1, i + 1;
    }
  }

  /** The batched walk along the chain, for any way of linking rows. */
  method WalkPages(link: Link, table: seq<Row>, batch: nat) returns (v: Verdict)
    requires UniqueSequences(table) && batch >= 1
    ensures v == Walk(link, Chain(table), None, 0, None)
  {
    ghost var all := Chain(table);
    ghost var goal := Walk(link, all, None, 0, None);
    var broken: Option<Fault>, previous: Option<string>, cursor: Option<int>, checked: nat, checkpoint: Option<Row> := None, None, None, 0, None;
    assert all[0..] == all;
    while true
      invariant CursorAt(all, cursor, checked)
      invariant goal == Walk(link, all[checked..], previous, checked, checkpoint)
      decreases |all| - checked
    {
      var rows := ChainPage(table, cursor, batch);
      ChainPageIs(table, cursor, checked, batch);
      TakeStretch(all, checked, batch);
      broken, checked, previous, checkpoint := WalkPage(link, all, rows, batch, checked, previous, checkpoint, goal);
      if broken.Some? { return Verdict(broken, checked, checkpoint); }
      if |rows| < batch { break; }
      cursor := rows[|rows| - 1].chainSequence;
      ChainRow(table, checked - 1);
    }
    return Verdict(None, checked, checkpoint);
  }

  /** The batched walk gives the one-pass verdict, whatever the batch size. */
  method WalkV2Chain(p: Primitives, table: seq<Row>, batch: nat) returns (v: Verdict)
    requires UniqueSequences(table) && batch >= 1
    ensures v == Verify(p, table)
  {
    v := WalkPages(LinkOf(p), table, batch);
    if v.broken.Some? { return; }
    // A row that is neither legacy nor sequenced has no place in the chain.
    var stray := FirstStray(table);
    if stray.Some? {
      v := v.(broken := Some(Fault(stray.value.id, SequenceBreak)));
    }
  }

  lemma ChainRow(table: seq<Row>, k: nat)
    requires k < |Chain(table)|
    ensures Sequenced(Chain(table)[k])
  {
    ChainHolds(table, Chain(table)[k]);
  }

  // ----- the legacy archive --------------------------------------------------------------------------

  datatype LegacyStatus = NotPresent | Unverifiable | Proven
  datatype Snapshot = Snapshot(count: nat, digest: string, status: LegacyStatus)

  /** Everything the reader carries from row to row. */
  datatype Reading = Reading(text: string, count: nat, previous: Option<string>, provable: bool)

  function LegacyColumns(p: Primitives, row: Row): seq<Json> {
    [Str(row.id), Str(p.iso(row.entry.createdAt)), Text(row.entry.actorId), Str(row.entry.action),
     Str(row.entry.entityType), Text(row.entry.entityId), Metadata(row.entry), Text(row.previousHash), Text(row.checksum)]
  }

  function DigestLine(p: Primitives, row: Row): string { StableStringify(Arr(LegacyColumns(p, row))) }

  /** A missing entity id is spelled "null" by the string template. */
  function LegacyPayload(p: Primitives, row: Row): string {
    Plain(Obj([Member("ts", Str(p.iso(row.entry.createdAt))), Member("actor", Text(row.entry.actorId)),
               Member("action", Str(row.entry.action)),
               Member("entity", Str(row.entry.entityType + ":" + if row.entry.entityId.Some? then row.entry.entityId.value else "null")),
               Member("meta", Metadata(row.entry))]))
  }

  function ChecksumV1(p: Primitives, secret: string, previous: Option<string>, row: Row): string {
    p.sha(Previous(previous) + LegacyPayload(p, row) + secret)
  }

  type Line = Row -> string
  type OldLink = (Option<string>, Row) -> string

  function LineOf(p: Primitives): Line { row => DigestLine(p, row) }
  function OldLinkOf(p: Primitives, secret: string): OldLink { (previous, row) => ChecksumV1(p, secret, previous, row) }

  function ReadRow(line: Line, signed: OldLink, r: Reading, row: Row): Reading {
    Reading(r.text + (line(row) + "\n"), r.count + 1, row.checksum,
            r.provable && row.previousHash == r.previous && row.checksum == Some(signed(r.previous, row)))
  }

  function ReadAll(line: Line, signed: OldLink, r: Reading, rows: seq<Row>): Reading
    decreases rows
  {
    if rows == [] then r else ReadAll(line, signed, ReadRow(line, signed, r, rows[0]), rows[1..])
  }

  function Archive(table: seq<Row>): seq<Row> { Sort(Filter(table, Legacy), TimeLess) }

  const LEGACY_HEADER := "reloop-audit-legacy-v1\n"
  const UNREAD := Reading(LEGACY_HEADER, 0, None, true)

  function Conclude(p: Primitives, r: Reading): Snapshot {
    Snapshot(r.count, p.sha(r.text), if r.count == 0 then NotPresent else if r.provable then Proven else Unverifiable)
  }

  function LegacySnapshot(p: Primitives, secret: string, table: seq<Row>): Snapshot {
    Conclude(p, ReadAll(LineOf(p), OldLinkOf(p, secret), UNREAD, Archive(table)))
  }

  datatype TimeCursor = TimeCursor(createdAt: int, id: string)

  predicate AfterTime(row: Row, cursor: Option<TimeCursor>) {
    row.chainVersion == LEGACY_VERSION
    && (cursor.Some? ==> cursor.value.createdAt < row.entry.createdAt
                         || (cursor.value.createdAt == row.entry.createdAt && KeyLess(cursor.value.id, row.id)))
  }

  function LegacyPage(table: seq<Row>, cursor: Option<TimeCursor>, batch: nat): seq<Row> {
    Take(Sort(Filter(table, (row: Row) => AfterTime(row, cursor)), TimeLess), batch)
  }

  ghost predicate TimeCursorAt(all: seq<Row>, cursor: Option<TimeCursor>, k: nat) {
    k <= |all| && if k == 0 then cursor.None? else cursor == Some(TimeCursor(all[k - 1].entry.createdAt, all[k - 1].id))
  }

  lemma TimeOrders()
    ensures Orders(TimeLess)
  {
    forall a: Row, b: Row | TimeLess(a, b) ensures !TimeLess(b, a) { KeyLessTotal(a.id, b.id); }
    forall a: Row, b: Row, c: Row | TimeLess(a, b) && TimeLess(b, c) ensures TimeLess(a, c) {
      if KeyLess(a.id, b.id) && KeyLess(b.id, c.id) { KeyLessTransitive(a.id, b.id, c.id); }
    }
  }

  lemma IdsRanked(table: seq<Row>, keep: Row -> bool)
    requires UniqueIds(table)
    ensures Ranked(Filter(table, keep), TimeLess)
  {
    forall i, j | 0 <= i < j < |table| ensures TimeLess(table[i], table[j]) || TimeLess(table[j], table[i]) {
      KeyLessTotal(table[i].id, table[j].id);
    }
    FilterRanked(table, keep, TimeLess);
  }

  lemma LegacyPageIs(table: seq<Row>, cursor: Option<TimeCursor>, k: nat, batch: nat)
    requires UniqueIds(table) && TimeCursorAt(Archive(table), cursor, k)
    ensures LegacyPage(table, cursor, batch) == Take(Archive(table)[k..], batch)
  {
    var after := (row: Row) => AfterTime(row, cursor);
    if k == 0 {
      FilterSame(table, Legacy, after);
      assert Archive(table)[0..] == Archive(table);
    } else {
      TimeOrders();
      IdsRanked(table, Legacy);
      IdsRanked(table, after);
      PageFollows(table, Legacy, TimeLess, k, after);
    }
  }

  lemma ReadStep(line: Line, signed: OldLink, r: Reading, all: seq<Row>, k: nat)
    requires k < |all|
    ensures ReadAll(line, signed, r, all[k..]) == ReadAll(line, signed, ReadRow(line, signed, r, all[k]), all[k + 1..])
  {
    assert all[k..][0] == all[k] && all[k..][1..] == all[k + 1..];
  }

  /** One page of the archive towards the reading `goal`. */
  method ReadPage(line: Line, signed: OldLink, ghost all: seq<Row>, rows: seq<Row>, ghost batch: nat, first: Reading, ghost goal: Reading)
    returns (r: Reading)
    requires Stretch(all, first.count, rows, batch) && goal == ReadAll(line, signed, first, all[first.count..])
    ensures r.count == first.count + |rows|
    ensures goal == ReadAll(line, signed, r, all[r.count..])
  {
    var text, count, previous, provable := first.text, first.count, first.previous, first.provable;
    var i := 0;
    while i < |rows|
      invariant 0 <= i <= |rows| && count == first.count + i
      invariant goal == ReadAll(line, signed, Reading(text, count, previous, provable), all[count..])
    {
      var row := rows[i];
      assert row == all[count];
      ReadStep(line, signed, Reading(text, count, previous, provable), all, count);
      text := text + (line(row) + "\n");
      if provable && (row.previousHash != previous || row.checksum != Some(signed(previous, row))) {
        provable := false;
      }
      previous, count, i := row.checksum, count + 1, i + 1;
    }
    return Reading(text, count, previous, provable);
  }

  /** The batched archive reader gives the one-pass snapshot, whatever the batch size. */
  method LegacyAuditSnapshot(p: Primitives, secret: string, table: seq<Row>, batch: nat) returns (s: Snapshot)
    requires UniqueIds(table) && batch >= 1
    ensures s == LegacySnapshot(p, secret, table)
  {
    ghost var all := Archive(table);
    var line, signed := LineOf(p), OldLinkOf(p, secret);
    ghost var goal := ReadAll(line, signed, UNREAD, all);
    var r := UNREAD;
    var cursor: Option<TimeCursor> := None;
    assert all[0..] == all;
    while true
      invariant TimeCursorAt(all, cursor, r.count)
      invariant goal == ReadAll(line, signed, r, all[r.count..])
      decreases |all| - r.count
    {
      var rows := LegacyPage(table, cursor, batch);
      LegacyPageIs(table, cursor, r.count, batch);
      TakeStretch(all, r.count, batch);
      r := ReadPage(line, signed, all, rows, batch, r, goal);
      if |rows| < batch { break; }
      var last := rows[|rows| - 1];
      cursor := Some(TimeCursor(last.entry.createdAt, last.id));
    }
    assert all[r.count..] == [];
    return Snapshot(r.count, p.sha(r.text), if r.count == 0 then NotPresent else if r.provable then Proven else Unverifiable);
  }

  // ----- the digest covers the archive --------------------------------------------------------------

  ghost predicate SameRow(a: Row, b: Row) {
    a.id == b.id && SameEntry(a.entry, b.entry) && a.previousHash == b.previousHash && a.checksum == b.checksum
  }

  lemma ColumnsWellFormed(p: Primitives, row: Row)
    requires Stored(row.entry)
    ensures WellFormed(Arr(LegacyColumns(p, row)))
  {
  }

  lemma {:induction false} MeaningsAt(xs: seq<Json>, i: nat)
    requires i < |xs|
    ensures Meanings(xs)[i] == Meaning(xs[i])
  {
    if i > 0 { MeaningsAt(xs[1..], i - 1); }
  }

  lemma LineExact(p: Primitives, a: Row, b: Row)
    requires Sane(p) && Stored(a.entry) && Stored(b.entry)
    ensures DigestLine(p, a) == DigestLine(p, b) <==> SameRow(a, b)
  {
    var xs, ys := LegacyColumns(p, a), LegacyColumns(p, b);
    ColumnsWellFormed(p, a);
    ColumnsWellFormed(p, b);
    CanonicalText(Arr(xs), Arr(ys));
    forall i | 0 <= i < 9 ensures Meanings(xs)[i] == Meaning(xs[i]) && Meanings(ys)[i] == Meaning(ys[i]) {
      MeaningsAt(xs, i);
      MeaningsAt(ys, i);
    }
    ColumnsExact(p, a, b);
  }

  lemma ColumnsExact(p: Primitives, a: Row, b: Row)
    requires Sane(p)
    requires forall i :: 0 <= i < 9 ==> Meanings(LegacyColumns(p, a))[i] == Meaning(LegacyColumns(p, a)[i])
    requires forall i :: 0 <= i < 9 ==> Meanings(LegacyColumns(p, b))[i] == Meaning(LegacyColumns(p, b)[i])
    ensures Meanings(LegacyColumns(p, a)) == Meanings(LegacyColumns(p, b)) <==> SameRow(a, b)
  {
    var xs, ys := LegacyColumns(p, a), LegacyColumns(p, b);
    assert Meanings(xs) == Meanings(ys) <==> forall i :: 0 <= i < 9 ==> Meaning(xs[i]) == Meaning(ys[i]);
    if forall i :: 0 <= i < 9 ==> Meaning(xs[i]) == Meaning(ys[i]) {
      ColumnsGiveRow(p, a, b, xs, ys);
    }
  }

  lemma ColumnsGiveRow(p: Primitives, a: Row, b: Row, xs: seq<Json>, ys: seq<Json>)
    requires Sane(p) && xs == LegacyColumns(p, a) && ys == LegacyColumns(p, b)
    requires forall i :: 0 <= i < 9 ==> Meaning(xs[i]) == Meaning(ys[i])
    ensures SameRow(a, b)
  {
    assert Meaning(xs[0]) == Meaning(ys[0]) && Meaning(xs[1]) == Meaning(ys[1]) && Meaning(xs[2]) == Meaning(ys[2]);
    assert Meaning(xs[3]) == Meaning(ys[3]) && Meaning(xs[4]) == Meaning(ys[4]) && Meaning(xs[5]) == Meaning(ys[5]);
    assert Meaning(xs[6]) == Meaning(ys[6]) && Meaning(xs[7]) == Meaning(ys[7]) && Meaning(xs[8]) == Meaning(ys[8]);
    TextMeaning(a.entry.actorId, b.entry.actorId);
    TextMeaning(a.entry.entityId, b.entry.entityId);
    TextMeaning(a.previousHash, b.previousHash);
    TextMeaning(a.checksum, b.checksum);
  }

  function Lines(p: Primitives, rows: seq<Row>): string {
    if rows == [] then "" else DigestLine(p, rows[0]) + "\n" + Lines(p, rows[1..])
  }

  lemma {:induction false} ReadAllText(p: Primitives, secret: string, r: Reading, rows: seq<Row>)
    ensures ReadAll(LineOf(p), OldLinkOf(p, secret), r, rows).text == r.text + Lines(p, rows)
    ensures ReadAll(LineOf(p), OldLinkOf(p, secret), r, rows).count == r.count + |rows|
    decreases rows
  {
    if rows == [] {
      assert r.text + "" == r.text;
    } else {
      var line, rest := DigestLine(p, rows[0]), Lines(p, rows[1..]);
      ReadAllText(p, secret, ReadRow(LineOf(p), OldLinkOf(p, secret), r, rows[0]), rows[1..]);
      assert r.text + (line + "\n") + rest == r.text + (line + "\n" + rest);
    }
  }

  lemma {:induction false} LinesExact(p: Primitives, xs: seq<Row>, ys: seq<Row>)
    requires Sane(p) && AllStored(xs) && AllStored(ys)
    ensures Lines(p, xs) == Lines(p, ys) <==> |xs| == |ys| && forall i :: 0 <= i < |xs| ==> SameRow(xs[i], ys[i])
  {
    if xs != [] && ys != [] {
      LinesExact(p, xs[1..], ys[1..]);
      LineExact(p, xs[0], ys[0]);
      if Lines(p, xs) == Lines(p, ys) {
        ColumnsWellFormed(p, xs[0]);
        ColumnsWellFormed(p, ys[0]);
        CanonicalOneLine(Arr(LegacyColumns(p, xs[0])));
        CanonicalOneLine(Arr(LegacyColumns(p, ys[0])));
        LineInjective(DigestLine(p, xs[0]), Lines(p, xs[1..]), DigestLine(p, ys[0]), Lines(p, ys[1..]));
        forall i | 0 <= i < |xs| ensures SameRow(xs[i], ys[i]) {
          if i > 0 { assert xs[1..][i - 1] == xs[i] && ys[1..][i - 1] == ys[i]; }
        }
      }
      if |xs| == |ys| && forall i :: 0 <= i < |xs| ==> SameRow(xs[i], ys[i]) {
        assert forall i :: 0 <= i < |xs[1..]| ==> SameRow(xs[1..][i], ys[1..][i]);
      }
    }
  }

  /** The recorded digest matches exactly when the archive holds the same rows in the same order. */
  lemma DigestFixesArchive(p: Primitives, secret: string, s: seq<Row>, t: seq<Row>)
    requires Sane(p) && AllStored(Archive(s)) && AllStored(Archive(t))
    ensures LegacySnapshot(p, secret, s).digest == LegacySnapshot(p, secret, t).digest
      <==> |Archive(s)| == |Archive(t)| && forall i :: 0 <= i < |Archive(s)| ==> SameRow(Archive(s)[i], Archive(t)[i])
  {
    ReadAllText(p, secret, UNREAD, Archive(s));
    ReadAllText(p, secret, UNREAD, Archive(t));
    LinesExact(p, Archive(s), Archive(t));
    if LegacySnapshot(p, secret, s).digest == LegacySnapshot(p, secret, t).digest {
      SameLength(LEGACY_HEADER, Lines(p, Archive(s)), LEGACY_HEADER, Lines(p, Archive(t)));
    }
  }

  // ----- the table -------------------------------------------------------------------------------------

  class AuditLog {
    var rows: seq<Row>

    constructor (archive: seq<Row>)
      ensures rows == archive
    {
      rows := archive;
    }

    /** One append under the chain lock: a table that verified still verifies, one row longer. */
    method AppendAuditEntry(p: Primitives, input: Input)
      modifies this
      ensures rows == Append(p, old(rows), input)
      ensures Valid(p, old(rows)) ==> Valid(p, rows) && Verify(p, rows).checkedCount == Verify(p, old(rows)).checkedCount + 1
    {
      var chain := Chain(rows);
      var sequence, previous: Option<string> := 1, None;
      if chain != [] {
        var head := chain[|chain| - 1];
        ChainRow(rows, |chain| - 1);
        sequence, previous := head.chainSequence.value + 1, head.checksum;
      }
      var checksum := ChecksumV2(p, previous, sequence, input.entry);
      if Valid(p, rows) { AppendVerifies(p, rows, input); }
      rows := rows + [Row(input.id, input.entry, CHAIN_VERSION, Some(sequence), previous, Some(checksum))];
    }
  }
}
