/**
  Stored JSON values and their canonical text (`stableStringify` in lib/audit.ts). An object is the list
  of its members in enumeration order; a number is the text `JSON.stringify` gives it.
 */
module Json {
  import opened Ordering

  datatype Json =
    | Null
    | Bool(value: bool)
    | Num(digits: string)
    | Str(text: string)
    | Arr(items: seq<Json>)
    | Obj(members: seq<Member>)
  datatype Member = Member(key: string, value: Json)

  /** What a value means: objects are maps, so the order of their keys is gone. */
  datatype Value = VNull | VBool(bool) | VNum(string) | VStr(string) | VArr(seq<Value>) | VObj(map<string, Value>)

  predicate NumChar(c: char) { '0' <= c <= '9' || c == '-' || c == '+' || c == '.' || c == 'e' }

  predicate NumText(s: string) {
    s != "" && ('0' <= s[0] <= '9' || s[0] == '-') && forall i :: 0 <= i < |s| ==> NumChar(s[i])
  }

  ghost predicate DistinctKeys(ms: seq<Member>) {
    forall i, j :: 0 <= i < j < |ms| ==> ms[i].key != ms[j].key
  }

  ghost predicate WellFormed(j: Json) {
    match j
    case Num(digits) => NumText(digits)
    case Arr(items) => forall i :: 0 <= i < |items| ==> WellFormed(items[i])
    case Obj(members) => DistinctKeys(members) && forall i :: 0 <= i < |members| ==> WellFormed(members[i].value)
    case _ => true
  }

  ghost function Meaning(j: Json): Value {
    match j
    case Null => VNull
    case Bool(b) => VBool(b)
    case Num(n) => VNum(n)
    case Str(s) => VStr(s)
    case Arr(items) => VArr(Meanings(items))
    case Obj(members) => VObj(Members(members))
  }

  ghost function Meanings(items: seq<Json>): (r: seq<Value>)
    ensures |r| == |items|
  {
    if items == [] then [] else [Meaning(items[0])] + Meanings(items[1..])
  }

  ghost function Members(ms: seq<Member>): map<string, Value> {
    if ms == [] then map[] else Members(ms[1..])[ms[0].key := Meaning(ms[0].value)]
  }

  // ----- key order: UTF-16 code units, as JavaScript compares strings ---------------------------

  /** Characters beyond U+FFFF compare by their surrogates, which lie below U+E000. */
  function Rank(c: char): int {
    var n := c as int;
    if n < 0xD800 then n else if n < 0x10000 then n + 0x100000 else n - 0x10000 + 0xD800
  }

  predicate KeyLess(s: string, t: string) {
    t != "" && (s == "" || Rank(s[0]) < Rank(t[0]) || (s[0] == t[0] && KeyLess(s[1..], t[1..])))
  }

  predicate Before(m: Member, n: Member) { KeyLess(m.key, n.key) }

  lemma {:induction false} KeyLessTotal(s: string, t: string)
    ensures s == t || KeyLess(s, t) || KeyLess(t, s)
    ensures KeyLess(s, t) ==> !KeyLess(t, s) && s != t
  {
    if s != "" && t != "" {
      KeyLessTotal(s[1..], t[1..]);
      if s[0] == t[0] && s[1..] == t[1..] {
        assert s == [s[0]] + s[1..] && t == [t[0]] + t[1..];
      }
    }
  }

  lemma {:induction false} KeyLessTransitive(s: string, t: string, u: string)
    requires KeyLess(s, t) && KeyLess(t, u)
    ensures KeyLess(s, u)
  {
    if s != "" && s[0] == t[0] && t[0] == u[0] {
      KeyLessTransitive(s[1..], t[1..], u[1..]);
    }
  }

  lemma BeforeOrders()
    ensures Orders(Before)
  {
    forall a: Member, b: Member | Before(a, b) ensures !Before(b, a) { KeyLessTotal(a.key, b.key); }
    forall a: Member, b: Member, c: Member | Before(a, b) && Before(b, c) ensures Before(a, c) {
      KeyLessTransitive(a.key, b.key, c.key);
    }
  }

  lemma DistinctRanked(ms: seq<Member>)
    requires DistinctKeys(ms)
    ensures Ranked(ms, Before)
  {
    forall i, j | 0 <= i < j < |ms| ensures Before(ms[i], ms[j]) || Before(ms[j], ms[i]) {
      KeyLessTotal(ms[i].key, ms[j].key);
    }
  }

  // ----- text ----------------------------------------------------------------------------------

  function HexDigit(n: int): char
    requires 0 <= n < 16
  {
    if n < 10 then '0' + n as char else 'a' + (n - 10) as char
  }

  /** JSON.stringify of one character. */
  function Escaped(c: char): (r: string)
    ensures r != "" && r[0] != '"' && (r[0] == '\\' || r == [c])
    ensures forall i :: 0 <= i < |r| ==> r[i] >= ' '
  {
    if c == '"' then "\\\"" else if c == '\\' then "\\\\"
    else if c == 8 as char then "\\b" else if c == 12 as char then "\\f"
    else if c == '\n' then "\\n" else if c == '\r' then "\\r" else if c == '\t' then "\\t"
    else if c < ' ' then ['\\', 'u', '0', '0', HexDigit(c as int / 16), HexDigit(c as int % 16)]
    else [c]
  }

  function Escape(s: string): string {
    if s == "" then "" else Escaped(s[0]) + Escape(s[1..])
  }

  function Quote(s: string): string { "\"" + Escape(s) + "\"" }

  /** JSON.stringify: members in the order they are listed. */
  function Plain(j: Json): string {
    match j
    case Null => "null"
    case Bool(b) => if b then "true" else "false"
    case Num(n) => n
    case Str(s) => Quote(s)
    case Arr(items) => "[" + PlainItems(items) + "]"
    case Obj(members) => "{" + PlainMembers(members) + "}"
  }

  function PlainItems(items: seq<Json>): string {
    if items == [] then "" else Plain(items[0]) + (if |items| == 1 then "" else ",") + PlainItems(items[1..])
  }

  function PlainMembers(ms: seq<Member>): string {
    if ms == [] then ""
    else Quote(ms[0].key) + ":" + Plain(ms[0].value) + (if |ms| == 1 then "" else ",") + PlainMembers(ms[1..])
  }

  /** A member already rendered: its key and `"key":text`. */
  datatype Rendered = Rendered(key: string, text: string)

  predicate RenderedBefore(a: Rendered, b: Rendered) { KeyLess(a.key, b.key) }

  /** The canonical text: keys sorted at every depth, then rendered and joined. */
  function StableStringify(j: Json): string {
    match j
    case Arr(items) => "[" + Join(StableItems(items)) + "]"
    case Obj(members) => "{" + Join(Texts(Sort(StableMembers(members), RenderedBefore))) + "}"
    case _ => Plain(j)
  }

  function StableItems(items: seq<Json>): seq<string> {
    if items == [] then [] else [StableStringify(items[0])] + StableItems(items[1..])
  }

  function StableMembers(ms: seq<Member>): (r: seq<Rendered>)
    ensures |r| == |ms|
  {
    if ms == [] then []
    else [Rendered(ms[0].key, Quote(ms[0].key) + ":" + StableStringify(ms[0].value))] + StableMembers(ms[1..])
  }

  function Texts(rs: seq<Rendered>): seq<string> {
    if rs == [] then [] else [rs[0].text] + Texts(rs[1..])
  }

  function Join(texts: seq<string>): string {
    if texts == [] then "" else texts[0] + (if |texts| == 1 then "" else ",") + Join(texts[1..])
  }

  // ----- the canonical text is the plain text of the recursively sorted value --------------------

  function Sorted(j: Json): Json {
    match j
    case Arr(items) => Arr(SortedItems(items))
    case Obj(members) => Obj(Sort(SortedMembers(members), Before))
    case _ => j
  }

  function SortedItems(items: seq<Json>): (r: seq<Json>)
    ensures |r| == |items|
  {
    if items == [] then [] else [Sorted(items[0])] + SortedItems(items[1..])
  }

  function SortedMembers(ms: seq<Member>): (r: seq<Member>)
    ensures |r| == |ms|
    ensures forall i :: 0 <= i < |ms| ==> r[i] == Member(ms[i].key, Sorted(ms[i].value))
  {
    if ms == [] then [] else [Member(ms[0].key, Sorted(ms[0].value))] + SortedMembers(ms[1..])
  }

  function Render(ms: seq<Member>): (r: seq<Rendered>)
    ensures |r| == |ms|
  {
    if ms == [] then []
    else [Rendered(ms[0].key, Quote(ms[0].key) + ":" + Plain(ms[0].value))] + Render(ms[1..])
  }

  lemma {:induction false} RenderInsert(m: Member, ms: seq<Member>)
    ensures Render(Insert(m, ms, Before)) == Insert(Render([m])[0], Render(ms), RenderedBefore)
  {
    if ms != [] && Before(ms[0], m) {
      RenderInsert(m, ms[1..]);
      assert Insert(m, ms, Before)[1..] == Insert(m, ms[1..], Before);
      assert Render(ms)[1..] == Render(ms[1..]);
    } else {
      assert Insert(m, ms, Before)[1..] == ms;
    }
  }

  lemma {:induction false} RenderSort(ms: seq<Member>)
    ensures Render(Sort(ms, Before)) == Sort(Render(ms), RenderedBefore)
  {
    if ms != [] {
      RenderSort(ms[1..]);
      RenderInsert(ms[0], Sort(ms[1..], Before));
      assert Render(ms)[1..] == Render(ms[1..]);
    }
  }

  lemma {:induction false} JoinRendered(ms: seq<Member>)
    ensures Join(Texts(Render(ms))) == PlainMembers(ms)
  {
    if ms != [] {
      JoinRendered(ms[1..]);
      assert Render(ms)[1..] == Render(ms[1..]);
      TextsLength(Render(ms));
      assert Texts(Render(ms))[1..] == Texts(Render(ms[1..]));
    }
  }

  lemma {:induction false} TextsLength(rs: seq<Rendered>)
    ensures |Texts(rs)| == |rs|
  {
    if rs != [] { TextsLength(rs[1..]); }
  }

  /** `stableStringify` is `JSON.stringify` of the value with its keys sorted at every depth. */
  lemma {:induction false} StableIsSortedPlain(j: Json)
    ensures StableStringify(j) == Plain(Sorted(j))
    decreases j
  {
    match j
    case Arr(items) => StableItemsPlain(items);
    case Obj(members) => {
      StableMembersRender(members);
      RenderSort(SortedMembers(members));
      JoinRendered(Sort(SortedMembers(members), Before));
    }
    case _ =>
  }

  lemma {:induction false} StableItemsPlain(items: seq<Json>)
    ensures |StableItems(items)| == |items|
    ensures Join(StableItems(items)) == PlainItems(SortedItems(items))
    decreases items
  {
    if items != [] {
      StableIsSortedPlain(items[0]);
      StableItemsPlain(items[1..]);
      assert StableItems(items)[1..] == StableItems(items[1..]);
      assert SortedItems(items)[1..] == SortedItems(items[1..]);
    }
  }

  lemma {:induction false} StableMembersRender(ms: seq<Member>)
    ensures StableMembers(ms) == Render(SortedMembers(ms))
    decreases ms
  {
    if ms != [] {
      StableIsSortedPlain(ms[0].value);
      StableMembersRender(ms[1..]);
      assert SortedMembers(ms)[1..] == SortedMembers(ms[1..]);
    }
  }
}
