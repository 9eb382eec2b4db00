/** The canonical text identifies a stored value up to the order of its object keys, and nothing else. */
module JsonInjective {
  import opened Ordering
  import opened Json

  // ----- pieces of text ---------------------------------------------------------------------------

  lemma Peel(c: char, u: string, v: string)
    ensures [c] + u == [c] + v ==> u == v
  {
    assert ([c] + u)[1..] == u && ([c] + v)[1..] == v;
  }

  lemma SameLength(a: string, u: string, b: string, v: string)
    requires a + u == b + v && |a| == |b|
    ensures a == b && u == v
  {
    assert a == (a + u)[..|a|] && b == (b + v)[..|b|];
    assert u == (a + u)[|a|..] && v == (b + v)[|b|..];
  }

  lemma HexInjective(c: char, d: char)
    requires c < ' ' && d < ' '
    requires HexDigit(c as int / 16) == HexDigit(d as int / 16) && HexDigit(c as int % 16) == HexDigit(d as int % 16)
    ensures c == d
  {
    assert c as int / 16 == d as int / 16;
    assert c as int % 16 == d as int % 16;
    assert c as int == d as int;
  }

  lemma EscapedLength(c: char, d: char, u: string, v: string)
    requires Escaped(c) + u == Escaped(d) + v
    ensures |Escaped(c)| == |Escaped(d)|
  {
    assert (Escaped(c) + u)[0] == Escaped(c)[0] && (Escaped(d) + v)[0] == Escaped(d)[0];
    if Escaped(c)[0] == '\\' {
      assert (Escaped(c) + u)[1] == Escaped(c)[1] && (Escaped(d) + v)[1] == Escaped(d)[1];
    }
  }

  lemma EscapedInjective(c: char, d: char, u: string, v: string)
    requires Escaped(c) + u == Escaped(d) + v
    ensures c == d && u == v
  {
    EscapedLength(c, d, u, v);
    SameLength(Escaped(c), u, Escaped(d), v);
    if |Escaped(c)| == 6 {
      assert Escaped(c)[4] == Escaped(d)[4] && Escaped(c)[5] == Escaped(d)[5];
      HexInjective(c, d);
    } else if |Escaped(c)| == 2 {
      assert Escaped(c)[1] == Escaped(d)[1];
    } else {
      assert Escaped(c)[0] == Escaped(d)[0];
    }
  }

  lemma EscapeSplit(s: string, u: string)
    requires s != ""
    ensures Escape(s) + "\"" + u == Escaped(s[0]) + (Escape(s[1..]) + "\"" + u)
  {
    var head, rest := Escaped(s[0]), Escape(s[1..]);
    Regroup(head, "", rest, "\"", u);
    assert head + "" == head;
  }

  /** An escaped text closes with a quote exactly when nothing is left to escape. */
  lemma EscapeOpens(s: string, u: string)
    ensures (Escape(s) + "\"" + u)[0] == '"' <==> s == ""
    ensures s == "" ==> Escape(s) + "\"" + u == ['"'] + u
  {
    if s != "" {
      EscapeSplit(s, u);
      var head := Escaped(s[0]);
      assert (head + (Escape(s[1..]) + "\"" + u))[0] == head[0];
    }
  }

  lemma Regroup(head: string, comma: string, rest: string, close: string, u: string)
    ensures head + comma + rest + close + u == head + (comma + (rest + close + u))
    ensures comma == "" ==> comma + (rest + close + u) == rest + close + u
  {
  }

  lemma {:induction false} EscapeInjective(s: string, t: string, u: string, v: string)
    requires Escape(s) + "\"" + u == Escape(t) + "\"" + v
    ensures s == t && u == v
  {
    EscapeOpens(s, u);
    EscapeOpens(t, v);
    if s == "" {
      Peel('"', u, v);
    } else {
      EscapeSplit(s, u);
      EscapeSplit(t, v);
      EscapedInjective(s[0], t[0], Escape(s[1..]) + "\"" + u, Escape(t[1..]) + "\"" + v);
      EscapeInjective(s[1..], t[1..], u, v);
      assert s == [s[0]] + s[1..] && t == [t[0]] + t[1..];
    }
  }

  lemma QuoteInjective(s: string, t: string, u: string, v: string)
    requires Quote(s) + u == Quote(t) + v
    ensures s == t && u == v
  {
    assert Quote(s) + u == ['"'] + (Escape(s) + "\"" + u);
    assert Quote(t) + v == ['"'] + (Escape(t) + "\"" + v);
    Peel('"', Escape(s) + "\"" + u, Escape(t) + "\"" + v);
    EscapeInjective(s, t, u, v);
  }

  /** What may follow a rendered value: the end, or a character no number contains. */
  predicate Delimited(s: string) { s == "" || !NumChar(s[0]) }

  /** How many number characters a text starts with. */
  ghost function NumSpan(s: string): nat {
    if s == "" || !NumChar(s[0]) then 0 else 1 + NumSpan(s[1..])
  }

  lemma {:induction false} NumSpanIs(n: string, u: string)
    requires (forall i :: 0 <= i < |n| ==> NumChar(n[i])) && Delimited(u)
    ensures NumSpan(n + u) == |n|
  {
    if n == "" {
      assert n + u == u;
    } else {
      NumSpanIs(n[1..], u);
      assert (n + u)[1..] == n[1..] + u;
    }
  }

  lemma NumInjective(n: string, m: string, u: string, v: string)
    requires NumText(n) && NumText(m) && Delimited(u) && Delimited(v) && n + u == m + v
    ensures n == m && u == v
  {
    NumSpanIs(n, u);
    NumSpanIs(m, v);
    SameLength(n, u, m, v);
  }

  /** The first character tells the kind of value. */
  predicate Opens(c: char, j: Json) {
    match j
    case Null => c == 'n'
    case Bool(b) => c == if b then 't' else 'f'
    case Num(_) => '0' <= c <= '9' || c == '-'
    case Str(_) => c == '"'
    case Arr(_) => c == '['
    case Obj(_) => c == '{'
  }

  lemma PlainOpens(j: Json, u: string)
    requires WellFormed(j)
    ensures Plain(j) != "" && Opens((Plain(j) + u)[0], j)
  {
    assert (Plain(j) + u)[0] == Plain(j)[0];
  }

  lemma SameKind(a: Json, b: Json, u: string, v: string)
    requires WellFormed(a) && WellFormed(b) && Plain(a) + u == Plain(b) + v
    ensures Opens((Plain(a) + u)[0], a) && Opens((Plain(a) + u)[0], b)
  {
    PlainOpens(a, u);
    PlainOpens(b, v);
  }

  // ----- rendering is injective -----------------------------------------------------------------

  lemma {:induction false} PlainInjective(a: Json, b: Json, u: string, v: string)
    requires WellFormed(a) && WellFormed(b) && Delimited(u) && Delimited(v)
    requires Plain(a) + u == Plain(b) + v
    ensures a == b && u == v
    decreases a
  {
    SameKind(a, b, u, v);
    match a
    case Num(n) => NumInjective(n, b.digits, u, v);
    case Str(s) => QuoteInjective(s, b.text, u, v);
    case Arr(xs) => {
      Bracketed('[', PlainItems(xs), "]", u, PlainItems(b.items), v);
      ItemsInjective(xs, b.items, u, v);
    }
    case Obj(ms) => {
      Bracketed('{', PlainMembers(ms), "}", u, PlainMembers(b.members), v);
      MembersInjective(ms, b.members, u, v);
    }
    case _ => SameLength(Plain(a), u, Plain(b), v);
  }

  lemma Bracketed(left: char, s: string, right: string, u: string, t: string, v: string)
    requires [left] + s + right + u == [left] + t + right + v
    ensures s + right + u == t + right + v
  {
    assert [left] + s + right + u == [left] + (s + right + u);
    assert [left] + t + right + v == [left] + (t + right + v);
    Peel(left, s + right + u, t + right + v);
  }

  /** What follows the first of several joined texts. */
  function Tail(many: bool, rest: string, close: string, u: string): string {
    (if many then "," else "") + (rest + close + u)
  }

  lemma TailInjective(many: bool, rest: string, many': bool, rest': string, close: string, u: string, v: string)
    requires |close| == 1 && close != "," && Tail(many, rest, close, u) == Tail(many', rest', close, v)
    requires !many ==> rest == ""
    requires !many' ==> rest' == ""
    ensures many == many' && rest + close + u == rest' + close + v
  {
    TailHead(many, rest, close, u);
    TailHead(many', rest', close, v);
    if many {
      Peel(',', rest + close + u, rest' + close + v);
    } else {
      assert Tail(false, rest, close, u) == rest + close + u;
      assert Tail(false, rest', close, v) == rest' + close + v;
    }
  }

  lemma TailHead(many: bool, rest: string, close: string, u: string)
    requires |close| == 1 && (!many ==> rest == "")
    ensures Tail(many, rest, close, u) != "" && Tail(many, rest, close, u)[0] == if many then ',' else close[0]
  {
    if many {
      assert Tail(many, rest, close, u)[0] == ',';
    } else {
      assert Tail(many, rest, close, u) == close + u;
    }
  }

  lemma TailDelimited(many: bool, rest: string, close: string, u: string)
    requires |close| == 1 && !NumChar(close[0]) && (!many ==> rest == "")
    ensures Delimited(Tail(many, rest, close, u))
  {
    TailHead(many, rest, close, u);
  }

  lemma ItemsSplit(xs: seq<Json>, u: string)
    ensures xs == [] ==> PlainItems(xs) + "]" + u == [']'] + u
    ensures xs != [] ==> PlainItems(xs) + "]" + u == Plain(xs[0]) + Tail(|xs| != 1, PlainItems(xs[1..]), "]", u)
  {
    if xs != [] {
      Regroup(Plain(xs[0]), if |xs| == 1 then "" else ",", PlainItems(xs[1..]), "]", u);
    }
  }

  /** The rendered items start with a closing bracket exactly when there are none. */
  lemma ItemsOpen(xs: seq<Json>, u: string)
    requires WellFormed(Arr(xs))
    ensures (PlainItems(xs) + "]" + u)[0] == ']' <==> xs == []
  {
    ItemsSplit(xs, u);
    if xs != [] {
      PlainOpens(xs[0], Tail(|xs| != 1, PlainItems(xs[1..]), "]", u));
    }
  }

  lemma {:induction false} ItemsInjective(xs: seq<Json>, ys: seq<Json>, u: string, v: string)
    requires WellFormed(Arr(xs)) && WellFormed(Arr(ys))
    requires PlainItems(xs) + "]" + u == PlainItems(ys) + "]" + v
    ensures xs == ys && u == v
    decreases xs
  {
    ItemsOpen(xs, u);
    ItemsOpen(ys, v);
    ItemsSplit(xs, u);
    ItemsSplit(ys, v);
    if xs == [] {
      Peel(']', u, v);
    } else {
      var t, t' := PlainItems(xs[1..]), PlainItems(ys[1..]);
      TailDelimited(|xs| != 1, t, "]", u);
      TailDelimited(|ys| != 1, t', "]", v);
      PlainInjective(xs[0], ys[0], Tail(|xs| != 1, t, "]", u), Tail(|ys| != 1, t', "]", v));
      TailInjective(|xs| != 1, t, |ys| != 1, t', "]", u, v);
      ItemsInjective(xs[1..], ys[1..], u, v);
      assert xs == [xs[0]] + xs[1..] && ys == [ys[0]] + ys[1..];
    }
  }

  lemma MembersSplit(xs: seq<Member>, u: string)
    ensures xs == [] ==> PlainMembers(xs) + "}" + u == ['}'] + u
    ensures xs != [] ==> PlainMembers(xs) + "}" + u
                         == Quote(xs[0].key) + ([':'] + (Plain(xs[0].value) + Tail(|xs| != 1, PlainMembers(xs[1..]), "}", u)))
  {
    if xs != [] {
      var comma := if |xs| == 1 then "" else ",";
      var key, value, rest := Quote(xs[0].key), Plain(xs[0].value), PlainMembers(xs[1..]);
      Regroup(key + ":" + value, comma, rest, "}", u);
      Colon(key, value, comma + (rest + "}" + u));
    }
  }

  lemma Colon(key: string, value: string, u: string)
    ensures key + ":" + value + u == key + ([':'] + (value + u))
  {
  }

  lemma MembersOpen(xs: seq<Member>, u: string)
    ensures (PlainMembers(xs) + "}" + u)[0] == '}' <==> xs == []
  {
    MembersSplit(xs, u);
  }

  lemma KeyInjective(s: string, t: string, u: string, v: string)
    requires Quote(s) + ([':'] + u) == Quote(t) + ([':'] + v)
    ensures s == t && u == v
  {
    QuoteInjective(s, t, [':'] + u, [':'] + v);
    Peel(':', u, v);
  }

  ghost predicate ValuesWellFormed(ms: seq<Member>) {
    forall i :: 0 <= i < |ms| ==> WellFormed(ms[i].value)
  }

  lemma {:induction false} MembersInjective(xs: seq<Member>, ys: seq<Member>, u: string, v: string)
    requires ValuesWellFormed(xs) && ValuesWellFormed(ys)
    requires PlainMembers(xs) + "}" + u == PlainMembers(ys) + "}" + v
    ensures xs == ys && u == v
    decreases xs
  {
    MembersOpen(xs, u);
    MembersOpen(ys, v);
    MembersSplit(xs, u);
    MembersSplit(ys, v);
    if xs == [] {
      Peel('}', u, v);
    } else {
      var t, t' := PlainMembers(xs[1..]), PlainMembers(ys[1..]);
      TailDelimited(|xs| != 1, t, "}", u);
      TailDelimited(|ys| != 1, t', "}", v);
      var w, w' := Tail(|xs| != 1, t, "}", u), Tail(|ys| != 1, t', "}", v);
      KeyInjective(xs[0].key, ys[0].key, Plain(xs[0].value) + w, Plain(ys[0].value) + w');
      PlainInjective(xs[0].value, ys[0].value, w, w');
      TailInjective(|xs| != 1, t, |ys| != 1, t', "}", u, v);
      assert ValuesWellFormed(xs[1..]) && ValuesWellFormed(ys[1..]);
      MembersInjective(xs[1..], ys[1..], u, v);
      assert xs == [xs[0]] + xs[1..] && ys == [ys[0]] + ys[1..];
    }
  }

  // ----- sorting keeps the meaning, and the meaning fixes the sorted value ----------------------

  lemma {:induction false} MembersAt(ms: seq<Member>, k: string)
    ensures k in Members(ms) <==> exists i :: 0 <= i < |ms| && ms[i].key == k
    ensures DistinctKeys(ms) ==> forall i :: 0 <= i < |ms| && ms[i].key == k ==> k in Members(ms) && Members(ms)[k] == Meaning(ms[i].value)
  {
    if ms != [] {
      var rest := ms[1..];
      MembersAt(rest, k);
      assert forall i :: 0 <= i < |rest| ==> rest[i] == ms[i + 1];
      if exists i :: 0 <= i < |ms| && ms[i].key == k {
        var i :| 0 <= i < |ms| && ms[i].key == k;
        if i > 0 { assert rest[i - 1].key == k; }
      }
    }
  }

  lemma {:induction false} SortedWellFormed(j: Json)
    requires WellFormed(j)
    ensures WellFormed(Sorted(j)) && Meaning(Sorted(j)) == Meaning(j)
    decreases j
  {
    match j
    case Arr(items) => SortedItemsWellFormed(items);
    case Obj(members) => {
      forall i | 0 <= i < |members| ensures WellFormed(Sorted(members[i].value)) && Meaning(Sorted(members[i].value)) == Meaning(members[i].value) {
        SortedWellFormed(members[i].value);
      }
      SortedMembersMeaning(members);
    }
    case _ =>
  }

  lemma {:induction false} SortedItemsWellFormed(items: seq<Json>)
    requires WellFormed(Arr(items))
    ensures WellFormed(Arr(SortedItems(items))) && Meanings(SortedItems(items)) == Meanings(items)
    decreases items
  {
    if items != [] {
      SortedWellFormed(items[0]);
      assert WellFormed(Arr(items[1..]));
      SortedItemsWellFormed(items[1..]);
      assert SortedItems(items)[1..] == SortedItems(items[1..]);
    }
  }

  lemma SortDistinct(ms: seq<Member>)
    requires DistinctKeys(ms)
    ensures Ascending(Sort(ms, Before), Before) && DistinctKeys(Sort(ms, Before))
  {
    BeforeOrders();
    DistinctRanked(ms);
    SortAscending(ms, Before);
    var s := Sort(ms, Before);
    forall i, j | 0 <= i < j < |s| ensures s[i].key != s[j].key {
      assert Before(s[i], s[j]);
      KeyLessTotal(s[i].key, s[j].key);
    }
  }

  lemma SortedMembersMeaning(ms: seq<Member>)
    requires DistinctKeys(ms)
    requires forall i :: 0 <= i < |ms| ==> WellFormed(Sorted(ms[i].value)) && Meaning(Sorted(ms[i].value)) == Meaning(ms[i].value)
    ensures WellFormed(Obj(Sort(SortedMembers(ms), Before)))
    ensures Members(Sort(SortedMembers(ms), Before)) == Members(ms)
  {
    var inner := SortedMembers(ms);
    assert forall i :: 0 <= i < |ms| ==> inner[i].key == ms[i].key && WellFormed(inner[i].value)
                                         && Meaning(inner[i].value) == Meaning(ms[i].value);
    SameKeysSameMeaning(ms, inner);
    SortKeepsMembers(inner);
  }

  lemma {:induction false} SameKeysSameMeaning(ms: seq<Member>, ns: seq<Member>)
    requires |ms| == |ns|
    requires forall i :: 0 <= i < |ms| ==> ms[i].key == ns[i].key && Meaning(ms[i].value) == Meaning(ns[i].value)
    ensures Members(ms) == Members(ns)
  {
    if ms != [] { SameKeysSameMeaning(ms[1..], ns[1..]); }
  }

  lemma SortKeepsMembers(ms: seq<Member>)
    requires WellFormed(Obj(ms))
    ensures WellFormed(Obj(Sort(ms, Before))) && Members(Sort(ms, Before)) == Members(ms)
  {
    var s := Sort(ms, Before);
    SortDistinct(ms);
    forall i | 0 <= i < |s| ensures WellFormed(s[i].value) {
      SortHolds(ms, Before, s[i]);
    }
    forall m ensures m in s <==> m in ms {
      SortHolds(ms, Before, m);
    }
    SameElementsSameMembers(s, ms);
  }

  lemma SameElementsSameMembers(ms: seq<Member>, ns: seq<Member>)
    requires DistinctKeys(ms) && DistinctKeys(ns) && forall m :: m in ms <==> m in ns
    ensures Members(ms) == Members(ns)
  {
    forall k ensures k in Members(ms) ==> k in Members(ns) && Members(ms)[k] == Members(ns)[k] {
      HeldMembers(ms, ns, k);
    }
    forall k ensures k in Members(ns) ==> k in Members(ms) {
      HeldMembers(ns, ms, k);
    }
  }

  lemma HeldMembers(ms: seq<Member>, ns: seq<Member>, k: string)
    requires DistinctKeys(ms) && DistinctKeys(ns) && forall m :: m in ms ==> m in ns
    ensures k in Members(ms) ==> k in Members(ns) && Members(ms)[k] == Members(ns)[k]
  {
    MembersAt(ms, k);
    MembersAt(ns, k);
    if i :| 0 <= i < |ms| && ms[i].key == k {
      assert ms[i] in ns;
    }
  }

  lemma {:induction false} MeaningFixesSorted(a: Json, b: Json)
    requires WellFormed(a) && WellFormed(b) && Meaning(a) == Meaning(b)
    ensures Sorted(a) == Sorted(b)
    decreases a
  {
    match a
    case Arr(items) => MeaningsFixItems(items, b.items);
    case Obj(ms) => {
      var ns := b.members;
      forall m | m in SortedMembers(ms) ensures m in SortedMembers(ns) {
        var i :| 0 <= i < |ms| && SortedMembers(ms)[i] == m;
        MembersAt(ms, m.key);
        MembersAt(ns, m.key);
        var n :| 0 <= n < |ns| && ns[n].key == m.key;
        MeaningFixesSorted(ms[i].value, ns[n].value);
        assert SortedMembers(ns)[n] == m;
      }
      forall m | m in SortedMembers(ns) ensures m in SortedMembers(ms) {
        var n :| 0 <= n < |ns| && SortedMembers(ns)[n] == m;
        MembersAt(ms, m.key);
        MembersAt(ns, m.key);
        var i :| 0 <= i < |ms| && ms[i].key == m.key;
        MeaningFixesSorted(ms[i].value, ns[n].value);
        assert SortedMembers(ms)[i] == m;
      }
      SameElementsSameSort(SortedMembers(ms), SortedMembers(ns));
    }
    case _ =>
  }

  lemma {:induction false} MeaningsFixItems(xs: seq<Json>, ys: seq<Json>)
    requires WellFormed(Arr(xs)) && WellFormed(Arr(ys)) && Meanings(xs) == Meanings(ys)
    ensures SortedItems(xs) == SortedItems(ys)
    decreases xs
  {
    assert |xs| == |Meanings(xs)| == |ys|;
    if xs != [] {
      assert Meanings(xs)[0] == Meaning(xs[0]) && Meanings(ys)[0] == Meaning(ys[0]);
      MeaningFixesSorted(xs[0], ys[0]);
      assert Meanings(xs)[1..] == Meanings(xs[1..]) && Meanings(ys)[1..] == Meanings(ys[1..]);
      MeaningsFixItems(xs[1..], ys[1..]);
    }
  }

  lemma SameElementsSameSort(xs: seq<Member>, ys: seq<Member>)
    requires DistinctKeys(xs) && DistinctKeys(ys)
    requires forall m :: m in xs <==> m in ys
    ensures Sort(xs, Before) == Sort(ys, Before)
  {
    SortDistinct(xs);
    SortDistinct(ys);
    BeforeOrders();
    forall m ensures m in Sort(xs, Before) <==> m in Sort(ys, Before) {
      SortHolds(xs, Before, m);
      SortHolds(ys, Before, m);
    }
    AscendingUnique(Sort(xs, Before), Sort(ys, Before), Before);
  }

  /** Two stored values have the same canonical text exactly when they differ at most in key order. */
  lemma CanonicalText(a: Json, b: Json)
    requires WellFormed(a) && WellFormed(b)
    ensures StableStringify(a) == StableStringify(b) <==> Meaning(a) == Meaning(b)
  {
    StableIsSortedPlain(a);
    StableIsSortedPlain(b);
    SortedWellFormed(a);
    SortedWellFormed(b);
    if StableStringify(a) == StableStringify(b) {
      assert Plain(Sorted(a)) + "" == Plain(Sorted(b)) + "";
      PlainInjective(Sorted(a), Sorted(b), "", "");
    }
    if Meaning(a) == Meaning(b) {
      MeaningFixesSorted(a, b);
    }
  }

  // ----- a rendered value stays on one line ----------------------------------------------------

  predicate OneLine(s: string) { forall i :: 0 <= i < |s| ==> s[i] != '\n' }

  lemma {:induction false} EscapeOneLine(s: string)
    ensures OneLine(Escape(s))
  {
    if s != "" { EscapeOneLine(s[1..]); }
  }

  lemma {:induction false} PlainOneLine(j: Json)
    requires WellFormed(j)
    ensures OneLine(Plain(j))
    decreases j
  {
    match j
    case Str(s) => EscapeOneLine(s);
    case Arr(items) => ItemsOneLine(items);
    case Obj(members) => MembersOneLine(members);
    case _ =>
  }

  lemma {:induction false} ItemsOneLine(items: seq<Json>)
    requires WellFormed(Arr(items))
    ensures OneLine(PlainItems(items))
    decreases items
  {
    if items != [] {
      PlainOneLine(items[0]);
      assert WellFormed(Arr(items[1..]));
      ItemsOneLine(items[1..]);
    }
  }

  lemma {:induction false} MembersOneLine(ms: seq<Member>)
    requires ValuesWellFormed(ms)
    ensures OneLine(PlainMembers(ms))
    decreases ms
  {
    if ms != [] {
      EscapeOneLine(ms[0].key);
      PlainOneLine(ms[0].value);
      MembersOneLine(ms[1..]);
    }
  }

  lemma CanonicalOneLine(j: Json)
    requires WellFormed(j)
    ensures OneLine(StableStringify(j))
  {
    StableIsSortedPlain(j);
    SortedWellFormed(j);
    PlainOneLine(Sorted(j));
  }
}
