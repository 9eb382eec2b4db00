/**
  Base32 without padding (lib/totp.ts, section 6 of RFC 4648). The accumulators are 32-bit and never masked:
  they are kept here as their unsigned value, wrapping modulo 2^32.
 */
module Base32 {
  type Byte = b: int | 0 <= b < 256
  type Symbol = s: int | 0 <= s < 32

  const WORD := 0x1_0000_0000

  const OCTET: nat := 8
  const QUINTET: nat := 5

  function Pow2(n: nat): (p: int)
    ensures p > 0
  {
    if n == 0 then 1 else 2 * Pow2(n - 1)
  }

  /** The `n` low bits of `v`, most significant first. */
  function Low(v: int, n: nat): (bits: seq<int>)
    ensures |bits| == n
    decreases n
  {
    if n == 0 then [] else Low(v / 2, n - 1) + [v % 2]
  }

  /** Each number written in `w` bits, one after the other. */
  function Wide(xs: seq<int>, w: nat): seq<int> {
    if xs == [] then [] else Wide(xs[..|xs| - 1], w) + Low(xs[|xs| - 1], w)
  }

  function Zeros(n: nat): seq<int> { seq(n, _ => 0) }

  // ----- bits --------------------------------------------------------------------------------------

  /** `value >>> shift`. */
  function ShiftRight(value: int, shift: nat): int
    decreases shift
  {
    if shift == 0 then value else ShiftRight(value / 2, shift - 1)
  }

  lemma {:induction false} LowSplit(v: int, n: nat, k: nat)
    ensures Low(v, n + k) == Low(ShiftRight(v, k), n) + Low(v, k)
    decreases k
  {
    if k > 0 {
      LowSplit(v / 2, n, k - 1);
      Regroup(Low(ShiftRight(v, k), n), Low(v / 2, k - 1), [v % 2]);
    }
  }

  /** Halving commutes with a power-of-two modulus. */
  lemma Halves(v: int, p: int)
    requires p > 0
    ensures (v % (2 * p)) / 2 == (v / 2) % p && (v % (2 * p)) % 2 == v % 2
  {
    var q, r := v / 2 / p, v / 2 % p;
    assert v / 2 == q * p + r;
    assert v == q * (2 * p) + (2 * r + v % 2);
    Quotient(v, 2 * p, q, 2 * r + v % 2);
  }

  lemma Quotient(v: int, d: int, q: int, r: int)
    requires d > 0 && v == q * d + r && 0 <= r < d
    ensures v / d == q && v % d == r
  {
    assert v == v / d * d + v % d;
    var k := v / d - q;
    assert k * d == r - v % d;
    if k >= 1 {
      AtLeast(k, d);
    } else if k <= -1 {
      AtLeast(-k, d);
    }
  }

  lemma AtLeast(k: int, d: int)
    requires k >= 1 && d > 0
    ensures k * d >= d
  {
  }

  lemma {:induction false} LowMod(v: int, n: nat, m: nat)
    requires n <= m
    ensures Low(v % Pow2(m), n) == Low(v, n)
    decreases n
  {
    if n > 0 {
      Halves(v, Pow2(m - 1));
      LowMod(v / 2, n - 1, m - 1);
    }
  }

  lemma {:induction false} LowZero(n: nat)
    ensures Low(0, n) == Zeros(n)
  {
    if n > 0 { LowZero(n - 1); }
  }

  lemma Doubled(v: int, p: int, x: int)
    ensures (v * (2 * p) + x) / 2 == v * p + x / 2 && (v * (2 * p) + x) % 2 == x % 2
  {
    var m := v * p;
    assert v * (2 * p) == 2 * m;
  }

  lemma {:induction false} LowSum(v: int, x: int, n: nat, k: nat)
    requires 0 <= x < Pow2(k)
    ensures Low(v * Pow2(k) + x, n + k) == Low(v, n) + Low(x, k)
    decreases k
  {
    if k > 0 {
      Doubled(v, Pow2(k - 1), x);
      LowSum(v, x / 2, n, k - 1);
      Regroup(Low(v, n), Low(x / 2, k - 1), [x % 2]);
    }
  }

  /** Shifting `k` bits in keeps what was pending, even when the word wraps. */
  lemma LowPush(v: int, x: int, n: nat, k: nat)
    requires 0 <= x < Pow2(k) && n + k <= 32
    ensures Low((v * Pow2(k) + x) % WORD, n + k) == Low(v, n) + Low(x, k)
  {
    PowValues();
    LowMod(v * Pow2(k) + x, n + k, 32);
    LowSum(v, x, n, k);
  }

  lemma PowValues()
    ensures Pow2(QUINTET) == 32 && Pow2(OCTET) == 256 && Pow2(32) == WORD
  {
    assert Pow2(8) == 256;
    assert Pow2(16) == 65536 by { assert Pow2(12) == 4096; }
    assert Pow2(24) == 0x100_0000 by { assert Pow2(20) == 0x10_0000; }
    assert Pow2(32) == WORD by { assert Pow2(28) == 0x1000_0000; }
  }

  lemma {:induction false} LowInjective(x: int, y: int, n: nat)
    requires 0 <= x < Pow2(n) && 0 <= y < Pow2(n) && Low(x, n) == Low(y, n)
    ensures x == y
    decreases n
  {
    if n > 0 {
      assert Low(x, n)[n - 1] == x % 2 && Low(y, n)[n - 1] == y % 2;
      assert Low(x, n)[..n - 1] == Low(x / 2, n - 1) && Low(y, n)[..n - 1] == Low(y / 2, n - 1);
      LowInjective(x / 2, y / 2, n - 1);
    }
  }

  lemma {:induction false} OctetLength(xs: seq<int>)
    ensures |Wide(xs, OCTET)| == 8 * |xs|
  {
    if xs != [] { OctetLength(xs[..|xs| - 1]); }
  }

  lemma {:induction false} QuintetLength(xs: seq<int>)
    ensures |Wide(xs, QUINTET)| == 5 * |xs|
  {
    if xs != [] { QuintetLength(xs[..|xs| - 1]); }
  }

  lemma WideAppend(xs: seq<int>, x: int, w: nat)
    ensures Wide(xs + [x], w) == Wide(xs, w) + Low(x, w)
  {
    assert (xs + [x])[..|xs|] == xs;
  }

  lemma PrefixStep<T>(xs: seq<T>, i: nat)
    requires i < |xs|
    ensures xs[..i + 1] == xs[..i] + [xs[i]]
  {
  }

  lemma Whole<T>(xs: seq<T>)
    ensures xs[..|xs|] == xs
  {
  }

  lemma SameTail(a: seq<int>, b: seq<int>, c: seq<int>, d: seq<int>)
    requires a + b == c + d && |b| == |d|
    ensures a == c && b == d
  {
    assert a == (a + b)[..|a|] && c == (c + d)[..|c|];
    assert b == (a + b)[|a|..] && d == (c + d)[|c|..];
  }

  lemma ByteInjective(x: Byte, y: Byte)
    requires Low(x, OCTET) == Low(y, OCTET)
    ensures x == y
  {
    PowValues();
    LowInjective(x, y, OCTET);
  }

  lemma {:induction false} WideInjective(xs: seq<Byte>, ys: seq<Byte>)
    requires Wide(xs, OCTET) == Wide(ys, OCTET) && |xs| == |ys|
    ensures xs == ys
  {
    if xs != [] {
      var n := |xs| - 1;
      SameTail(Wide(xs[..n], OCTET), Low(xs[n], OCTET), Wide(ys[..n], OCTET), Low(ys[n], OCTET));
      WideInjective(xs[..n], ys[..n]);
      ByteInjective(xs[n], ys[n]);
      PrefixStep(xs, n);
      PrefixStep(ys, n);
      Whole(xs);
      Whole(ys);
    }
  }

  /** What has been emitted, `u` bits each, followed by the `bits` pending bits of `value`, spells `all`. */
  ghost predicate Spelled(xs: seq<int>, u: nat, value: int, bits: nat, all: seq<int>) {
    Wide(xs, u) + Low(value, bits) == all
  }

  /** The accumulator after `(value << k) | x` with 2^k = factor: the low bits are free, so the or is a sum. */
  function Shifted(value: int, factor: int, x: int): (r: int)
    ensures 0 <= r < WORD
  {
    (value * factor + x) % WORD
  }

  /** Shifting a number of `w` bits in. */
  lemma ShiftIn(xs: seq<int>, u: nat, value: int, bits: nat, ys: seq<int>, w: nat, y: int)
    requires Spelled(xs, u, value, bits, Wide(ys, w)) && 0 <= y < Pow2(w) && bits + w <= 32
    ensures Spelled(xs, u, Shifted(value, Pow2(w), y), bits + w, Wide(ys + [y], w))
  {
    WideAppend(ys, y, w);
    LowPush(value, y, bits, w);
    Regroup(Wide(xs, u), Low(value, bits), Low(y, w));
  }

  /** Emitting the `u` highest pending bits. */
  lemma TakeOut(xs: seq<int>, u: nat, value: int, bits: nat, all: seq<int>, x: int)
    requires Spelled(xs, u, value, u + bits, all) && Low(x, u) == Low(ShiftRight(value, bits), u)
    ensures Spelled(xs + [x], u, value, bits, all)
  {
    LowSplit(value, u, bits);
    WideAppend(xs, x, u);
    Regroup(Wide(xs, u), Low(x, u), Low(value, bits));
  }

  lemma Regroup(a: seq<int>, b: seq<int>, c: seq<int>)
    ensures a + (b + c) == a + b + c
  {
  }

  // ----- text --------------------------------------------------------------------------------------

  const ALPHABET := "ABCDEFGHIJKLMNOPQRSTUVWXYZ234567"

  function Letter(s: Symbol): char { if s < 26 then 'A' + s as char else '2' + (s - 26) as char }

  /** Position of a character in the alphabet, or -1. */
  function IndexOf(c: char): (i: int)
    ensures -1 <= i < 32 && (i >= 0 ==> Letter(i) == c)
    ensures forall s: Symbol :: Letter(s) == c ==> i == s
  {
    if 'A' <= c <= 'Z' then c as int - 'A' as int else if '2' <= c <= '7' then c as int - '2' as int + 26 else -1
  }

  lemma LettersAreTheAlphabet(s: Symbol)
    ensures |ALPHABET| == 32 && Letter(s) == ALPHABET[s]
  {
    assert ALPHABET[0] == 'A'; assert ALPHABET[1] == 'B'; assert ALPHABET[2] == 'C'; assert ALPHABET[3] == 'D';
    assert ALPHABET[4] == 'E'; assert ALPHABET[5] == 'F'; assert ALPHABET[6] == 'G'; assert ALPHABET[7] == 'H';
    assert ALPHABET[8] == 'I'; assert ALPHABET[9] == 'J'; assert ALPHABET[10] == 'K'; assert ALPHABET[11] == 'L';
    assert ALPHABET[12] == 'M'; assert ALPHABET[13] == 'N'; assert ALPHABET[14] == 'O'; assert ALPHABET[15] == 'P';
    assert ALPHABET[16] == 'Q'; assert ALPHABET[17] == 'R'; assert ALPHABET[18] == 'S'; assert ALPHABET[19] == 'T';
    assert ALPHABET[20] == 'U'; assert ALPHABET[21] == 'V'; assert ALPHABET[22] == 'W'; assert ALPHABET[23] == 'X';
    assert ALPHABET[24] == 'Y'; assert ALPHABET[25] == 'Z'; assert ALPHABET[26] == '2'; assert ALPHABET[27] == '3';
    assert ALPHABET[28] == '4'; assert ALPHABET[29] == '5'; assert ALPHABET[30] == '6'; assert ALPHABET[31] == '7';
  }

  /**
    `toUpperCase` of one character, as far as it reaches the alphabet: a-z, the dotless i, the long s, the sharp s,
    the precomposed letters without an uppercase form and the Latin ligatures. Any other character stays outside.
   */
  function Upper(c: char): string {
    if 'a' <= c <= 'z' then [c - 'a' + 'A']
    else if c == '\U{0131}' then "I"
    else if c == '\U{017F}' then "S"
    else if c == '\U{00DF}' then "SS"
    else if c == '\U{0149}' then "\U{02BC}N"
    else if c == '\U{01F0}' then "J\U{030C}"
    else if c == '\U{1E96}' then "H\U{0331}"
    else if c == '\U{1E97}' then "T\U{0308}"
    else if c == '\U{1E98}' then "W\U{030A}"
    else if c == '\U{1E99}' then "Y\U{030A}"
    else if c == '\U{1E9A}' then "A\U{02BE}"
    else if c == '\U{FB00}' then "FF"
    else if c == '\U{FB01}' then "FI"
    else if c == '\U{FB02}' then "FL"
    else if c == '\U{FB03}' then "FFI"
    else if c == '\U{FB04}' then "FFL"
    else if c == '\U{FB05}' || c == '\U{FB06}' then "ST"
    else [c]
  }

  function UpperAll(text: string): string {
    if text == "" then "" else UpperAll(text[..|text| - 1]) + Upper(text[|text| - 1])
  }

  /** The symbols of an uppercase text; any character outside the alphabet is skipped. */
  function Indices(text: string): (r: seq<Symbol>) {
    if text == "" then []
    else
      var i := IndexOf(text[|text| - 1]);
      Indices(text[..|text| - 1]) + if i < 0 then [] else [i]
  }

  /** The symbols a text stands for, in either case. */
  function Values(text: string): seq<Symbol> { Indices(UpperAll(text)) }

  function Letters(symbols: seq<Symbol>): (text: string)
    ensures |text| == |symbols|
  {
    if symbols == [] then "" else Letters(symbols[..|symbols| - 1]) + [Letter(symbols[|symbols| - 1])]
  }

  lemma UpperLetter(s: Symbol)
    ensures Upper(Letter(s)) == [Letter(s)]
  {
  }

  lemma {:induction false} LettersAreUpper(symbols: seq<Symbol>)
    ensures UpperAll(Letters(symbols)) == Letters(symbols)
  {
    if symbols != [] {
      var n := |symbols| - 1;
      LettersAreUpper(symbols[..n]);
      UpperLetter(symbols[n]);
      assert Letters(symbols)[..n] == Letters(symbols[..n]);
    }
  }

  lemma {:induction false} IndicesOfLetters(symbols: seq<Symbol>)
    ensures Indices(Letters(symbols)) == symbols
  {
    if symbols != [] {
      var n := |symbols| - 1;
      IndicesOfLetters(symbols[..n]);
      assert Letters(symbols)[..n] == Letters(symbols[..n]);
      assert symbols == symbols[..n] + [symbols[n]];
    }
  }

  lemma ValuesOfLetters(symbols: seq<Symbol>)
    ensures Values(Letters(symbols)) == symbols
  {
    LettersAreUpper(symbols);
    IndicesOfLetters(symbols);
  }

  /** A text encodes bytes when its symbols spell their bits, filled up with fewer than five zeros. */
  ghost predicate Encodes(bytes: seq<Byte>, text: string) {
    && |text| == (8 * |bytes| + 4) / 5
    && exists symbols: seq<Symbol> :: IsSpelling(bytes, text, symbols)
  }

  ghost predicate IsSpelling(bytes: seq<Byte>, text: string, symbols: seq<Symbol>) {
    && text == Letters(symbols) && 8 * |bytes| <= 5 * |symbols| < 8 * |bytes| + 5
    && Wide(symbols, QUINTET) == Wide(bytes, OCTET) + Zeros(5 * |symbols| - 8 * |bytes|)
  }

  /** Bytes decode a text when they are the whole octets of its symbols' bits. */
  predicate Decodes(text: string, bytes: seq<Byte>) {
    && 8 * |bytes| <= 5 * |Values(text)| < 8 * |bytes| + 8
    && Wide(bytes, OCTET) <= Wide(Values(text), QUINTET)
  }

  /** `(value >>> shift) & 31`. */
  function SymbolAt(value: int, shift: nat): Symbol { ShiftRight(value, shift) % 32 }

  /** `(value >>> shift) & 255`. */
  function ByteAt(value: int, shift: nat): Byte { ShiftRight(value, shift) % 256 }

  lemma MaskSymbol(v: int)
    ensures Low(v % 32, QUINTET) == Low(v, QUINTET)
  {
    PowValues();
    LowMod(v, QUINTET, QUINTET);
  }

  lemma MaskByte(v: int)
    ensures Low(v % 256, OCTET) == Low(v, OCTET)
  {
    PowValues();
    LowMod(v, OCTET, OCTET);
  }

  lemma EmitSymbol(symbols: seq<Symbol>, value: int, bits: nat, all: seq<int>)
    requires bits >= 5 && Spelled(symbols, QUINTET, value, bits, all)
    ensures Spelled(symbols + [SymbolAt(value, bits - 5)], QUINTET, value, bits - 5, all)
  {
    MaskSymbol(ShiftRight(value, bits - 5));
    TakeOut(symbols, QUINTET, value, bits - 5, all, SymbolAt(value, bits - 5));
  }

  lemma EmitByte(bytes: seq<Byte>, value: int, bits: nat, all: seq<int>)
    requires bits >= 8 && Spelled(bytes, OCTET, value, bits, all)
    ensures Spelled(bytes + [ByteAt(value, bits - 8)], OCTET, value, bits - 8, all)
  {
    MaskByte(ShiftRight(value, bits - 8));
    TakeOut(bytes, OCTET, value, bits - 8, all, ByteAt(value, bits - 8));
  }

  lemma PushBits(symbols: seq<Symbol>, value: int, bits: nat, bytes: seq<Byte>, byte: Byte)
    requires bits < 5 && Spelled(symbols, QUINTET, value, bits, Wide(bytes, OCTET))
    ensures Spelled(symbols, QUINTET, Shifted(value, 256, byte), bits + 8, Wide(bytes + [byte], OCTET))
  {
    PowValues();
    ShiftIn(symbols, QUINTET, value, bits, bytes, OCTET, byte);
  }

  lemma PullBits(bytes: seq<Byte>, value: int, bits: nat, values: seq<Symbol>, index: Symbol)
    requires bits < 8 && Spelled(bytes, OCTET, value, bits, Wide(values, QUINTET))
    ensures Spelled(bytes, OCTET, Shifted(value, 32, index), bits + 5, Wide(values + [index], QUINTET))
  {
    PowValues();
    ShiftIn(bytes, OCTET, value, bits, values, QUINTET, index);
  }

  method EmitOne(symbols: seq<Symbol>, value: int, bits: nat, ghost all: seq<int>) returns (more: seq<Symbol>)
    requires bits >= 5 && Spelled(symbols, QUINTET, value, bits, all)
    ensures Spelled(more, QUINTET, value, bits - 5, all)
  {
    EmitSymbol(symbols, value, bits, all);
    more := symbols + [SymbolAt(value, bits - 5)];
  }

  /** Emits symbols while five bits are pending. */
  method EmitSymbols(value: int, pending: nat, before: seq<Symbol>, ghost all: seq<int>) returns (symbols: seq<Symbol>, bits: nat)
    requires Spelled(before, QUINTET, value, pending, all)
    ensures bits < 5 && Spelled(symbols, QUINTET, value, bits, all)
  {
    symbols, bits := before, pending;
    while bits >= 5
      invariant Spelled(symbols, QUINTET, value, bits, all)
    {
      symbols := EmitOne(symbols, value, bits, all);
      bits := bits - 5;
    }
  }

  /** One byte shifted into the accumulator. */
  method PushByte(before: seq<Symbol>, pending: int, width: nat, byte: Byte, ghost bytes: seq<Byte>)
    returns (symbols: seq<Symbol>, value: int, bits: nat)
    requires width < 5 && Spelled(before, QUINTET, pending, width, Wide(bytes, OCTET))
    ensures bits < 5 && 0 <= value < WORD && Spelled(symbols, QUINTET, value, bits, Wide(bytes + [byte], OCTET))
  {
    PushBits(before, pending, width, bytes, byte);
    value := Shifted(pending, 256, byte);
    symbols, bits := EmitSymbols(value, width + 8, before, Wide(bytes + [byte], OCTET));
  }

  /** The pending bits, if any, become one last symbol. */
  method Flush(before: seq<Symbol>, value: int, bits: nat, ghost bytes: seq<Byte>) returns (symbols: seq<Symbol>)
    requires bits < 5 && 0 <= value < WORD && Spelled(before, QUINTET, value, bits, Wide(bytes, OCTET))
    ensures 8 * |bytes| <= 5 * |symbols| < 8 * |bytes| + 5
    ensures Wide(symbols, QUINTET) == Wide(bytes, OCTET) + Zeros(5 * |symbols| - 8 * |bytes|)
  {
    symbols := before;
    if bits > 0 {
      var symbol := value * Pow2(5 - bits) % WORD % 32;
      Filled(symbols, value, bits, symbol);
      symbols := symbols + [symbol];
      Lengths(symbols, bytes, Zeros(5 - bits));
    } else {
      assert Wide(symbols, QUINTET) + [] == Wide(symbols, QUINTET);
      assert Wide(bytes, OCTET) + Zeros(0) == Wide(bytes, OCTET);
      Lengths(symbols, bytes, []);
    }
  }

  method EncodeSymbols(bytes: seq<Byte>) returns (symbols: seq<Symbol>)
    ensures 8 * |bytes| <= 5 * |symbols| < 8 * |bytes| + 5
    ensures Wide(symbols, QUINTET) == Wide(bytes, OCTET) + Zeros(5 * |symbols| - 8 * |bytes|)
  {
    var bits: nat, value := 0, 0;
    symbols := [];
    var i := 0;
    while i < |bytes|
      invariant 0 <= i <= |bytes| && bits < 5 && 0 <= value < WORD
      invariant Spelled(symbols, QUINTET, value, bits, Wide(bytes[..i], OCTET))
    {
      symbols, value, bits := PushByte(symbols, value, bits, bytes[i], bytes[..i]);
      PrefixStep(bytes, i);
      i := i + 1;
    }
    Whole(bytes);
    symbols := Flush(symbols, value, bits, bytes);
  }

  /** Five bits a symbol against eight bits a byte. */
  lemma Lengths(symbols: seq<Symbol>, bytes: seq<Byte>, rest: seq<int>)
    requires Wide(symbols, QUINTET) == Wide(bytes, OCTET) + rest
    ensures 5 * |symbols| == 8 * |bytes| + |rest|
  {
    QuintetLength(symbols);
    OctetLength(bytes);
  }

  lemma Filled(symbols: seq<Symbol>, value: int, bits: nat, symbol: Symbol)
    requires 0 < bits < 5 && 0 <= value < WORD && symbol == value * Pow2(5 - bits) % WORD % 32
    ensures Wide(symbols + [symbol], QUINTET) == Wide(symbols, QUINTET) + Low(value, bits) + Zeros(5 - bits)
  {
    LastSymbol(value, bits);
    LowZero(5 - bits);
    Regroup(Wide(symbols, QUINTET), Low(value, bits), Zeros(5 - bits));
    WideAppend(symbols, symbol, QUINTET);
  }

  method Spell(symbols: seq<Symbol>) returns (text: string)
    ensures text == Letters(symbols)
  {
    text := "";
    var n := 0;
    while n < |symbols|
      invariant 0 <= n <= |symbols| && text == Letters(symbols[..n])
    {
      LettersAppend(symbols[..n], symbols[n]);
      PrefixStep(symbols, n);
      text := text + [Letter(symbols[n])];
      n := n + 1;
    }
    Whole(symbols);
  }

  /** Every byte sequence has an encoding of ceil(8n/5) symbols. */
  method Encode(bytes: seq<Byte>) returns (text: string)
    ensures Encodes(bytes, text)
  {
    var symbols := EncodeSymbols(bytes);
    text := Spell(symbols);
    assert IsSpelling(bytes, text, symbols);
  }

  lemma LettersAppend(symbols: seq<Symbol>, s: Symbol)
    ensures Letters(symbols + [s]) == Letters(symbols) + [Letter(s)]
  {
    assert (symbols + [s])[..|symbols|] == symbols;
  }

  /** The last symbol holds the pending bits, filled up with zeros. */
  lemma LastSymbol(value: int, bits: nat)
    requires 0 < bits < 5 && 0 <= value < WORD
    ensures Low(value * Pow2(5 - bits) % WORD % 32, QUINTET) == Low(value, bits) + Low(0, 5 - bits)
  {
    PowValues();
    LowPush(value, 0, bits, 5 - bits);
    LowMod(value * Pow2(5 - bits) % WORD, 5, QUINTET);
  }

  /** Trailing padding is dropped before decoding. */
  function StripPadding(text: string): string {
    if text != "" && text[|text| - 1] == '=' then StripPadding(text[..|text| - 1]) else text
  }

  lemma {:induction false} PaddingIsSkipped(text: string)
    ensures Values(StripPadding(text)) == Values(text)
  {
    if text != "" && text[|text| - 1] == '=' {
      PaddingIsSkipped(text[..|text| - 1]);
      var front := UpperAll(text[..|text| - 1]);
      assert (front + "=")[..|front|] == front;
    }
  }

  lemma IndicesNext(text: string, i: nat)
    requires i < |text|
    ensures var index := IndexOf(text[i]);
      Indices(text[..i + 1]) == if index < 0 then Indices(text[..i]) else Indices(text[..i]) + [index]
  {
    assert text[..i + 1][..i] == text[..i] && text[..i + 1][i] == text[i];
  }

  /** Takes a byte out once eight bits are pending. */
  method EmitBytes(value: int, pending: nat, before: seq<Byte>, ghost all: seq<int>) returns (bytes: seq<Byte>, bits: nat)
    requires pending <= 12 && Spelled(before, OCTET, value, pending, all)
    ensures bits < 8 && Spelled(bytes, OCTET, value, bits, all)
  {
    bytes, bits := before, pending;
    if bits >= 8 {
      EmitByte(bytes, value, bits, all);
      bytes := bytes + [ByteAt(value, bits - 8)];
      bits := bits - 8;
    }
  }

  /** One symbol shifted into the accumulator. */
  method TakeSymbol(before: seq<Byte>, pending: int, width: nat, index: Symbol, ghost values: seq<Symbol>)
    returns (bytes: seq<Byte>, value: int, bits: nat)
    requires width < 8 && Spelled(before, OCTET, pending, width, Wide(values, QUINTET))
    ensures bits < 8 && 0 <= value < WORD && Spelled(bytes, OCTET, value, bits, Wide(values + [index], QUINTET))
  {
    PullBits(before, pending, width, values, index);
    value := Shifted(pending, 32, index);
    bytes, bits := EmitBytes(value, width + 5, before, Wide(values + [index], QUINTET));
  }

  method DecodeText(text: string) returns (bytes: seq<Byte>, value: int, bits: nat)
    ensures bits < 8 && Spelled(bytes, OCTET, value, bits, Wide(Indices(text), QUINTET))
  {
    bits, value, bytes := 0, 0, [];
    var i := 0;
    while i < |text|
      invariant 0 <= i <= |text| && bits < 8
      invariant Spelled(bytes, OCTET, value, bits, Wide(Indices(text[..i]), QUINTET))
    {
      var index := IndexOf(text[i]);
      IndicesNext(text, i);
      if index >= 0 {
        bytes, value, bits := TakeSymbol(bytes, value, bits, index, Indices(text[..i]));
      }
      i := i + 1;
    }
    Whole(text);
  }

  method Decode(input: string) returns (bytes: seq<Byte>)
    ensures Decodes(input, bytes)
  {
    var text := UpperAll(StripPadding(input));
    PaddingIsSkipped(input);
    var decoded, value, bits := DecodeText(text);
    Lengths(Indices(text), decoded, Low(value, bits));
    bytes := decoded;
  }

  /** Decoding an encoding gives the bytes back, for every byte sequence. */
  lemma RoundTrip(bytes: seq<Byte>, text: string, decoded: seq<Byte>)
    requires Encodes(bytes, text) && Decodes(text, decoded)
    ensures decoded == bytes
  {
    var symbols: seq<Symbol> :| IsSpelling(bytes, text, symbols);
    ValuesOfLetters(symbols);
    SamePrefix(Wide(symbols, QUINTET), decoded, bytes);
  }

  lemma SamePrefix(bits: seq<int>, xs: seq<Byte>, ys: seq<Byte>)
    requires Wide(xs, OCTET) <= bits && Wide(ys, OCTET) <= bits && |xs| == |ys|
    ensures xs == ys
  {
    OctetLength(xs);
    OctetLength(ys);
    WideInjective(xs, ys);
  }

  method EncodeThenDecode(bytes: seq<Byte>) returns (text: string, decoded: seq<Byte>)
    ensures decoded == bytes && |text| == (8 * |bytes| + 4) / 5
  {
    text := Encode(bytes);
    decoded := Decode(text);
    RoundTrip(bytes, text, decoded);
  }
}
