/**
 * The pickle protocol-5 writer behind the block hash (`hash.rs`), as a value: the opcodes of an
 * object, the bytes of an opcode, the frame around them; and an independent reader, a stack
 * machine over the emitted opcodes (pickle protocol 5, PEP 574, with the framing of PEP 3154).
 */
module Pickle {
  import opened Basics

  const TWO32 := 0x1_0000_0000
  const TWO63 := 0x8000_0000_0000_0000
  const TWO64 := 0x1_0000_0000_0000_0000

  type Bytes = seq<Byte>

  /** A byte buffer; its length is a `usize`. */
  type Blob = b: Bytes | |b| < TWO64

  /** A signed 64-bit integer. */
  type I64 = v: int | -TWO63 <= v < TWO63

  // ---- UTF-8 ------------------------------------------------------------------------

  /** How many bytes a sequence with this first byte has, 0 if none starts with it. */
  function Width(lead: Byte): nat {
    if lead < 0x80 then 1
    else if 0xC2 <= lead < 0xE0 then 2
    else if 0xE0 <= lead < 0xF0 then 3
    else if 0xF0 <= lead < 0xF5 then 4
    else 0
  }

  predicate Continues(b: Byte) { 0x80 <= b < 0xC0 }

  /** Well-formed UTF-8 (table 3-7 of the Unicode standard). */
  predicate Utf8(s: Bytes) {
    s == [] ||
    var n := Width(s[0]);
    && 0 < n <= |s|
    && (forall i :: 1 <= i < n ==> Continues(s[i]))
    && (s[0] == 0xE0 ==> s[1] >= 0xA0)
    && (s[0] == 0xED ==> s[1] < 0xA0)
    && (s[0] == 0xF0 ==> s[1] >= 0x90)
    && (s[0] == 0xF4 ==> s[1] < 0x90)
    && Utf8(s[n..])
  }

  /** The bytes of a string. */
  type Text = s: Bytes | |s| < TWO64 && Utf8(s)

  /** What follows a complete string inside a longer one is again a string. */
  lemma {:induction false} Utf8Rest(s: Bytes, t: Bytes)
    requires Utf8(s) && Utf8(s + t)
    ensures Utf8(t)
  {
    if s == [] {
      assert s + t == t;
    } else {
      var n := Width(s[0]);
      assert (s + t)[0] == s[0];
      assert (s + t)[n..] == s[n..] + t;
      Utf8Rest(s[n..], t);
    }
  }

  // ---- integers as bytes ------------------------------------------------------------

  function Pow(w: nat): (p: int)
    ensures p > 0
  {
    if w == 0 then 1 else 256 * Pow(w - 1)
  }

  lemma Pows()
    ensures Pow(1) == 256 && Pow(2) == 65536 && Pow(4) == TWO32 && Pow(8) == TWO64
  {
    assert Pow(3) == 16777216;
    assert Pow(5) == 256 * Pow(4) && Pow(6) == 256 * Pow(5) && Pow(7) == 256 * Pow(6);
  }

  lemma {:induction false} PowGrows(a: nat, b: nat)
    requires a <= b
    ensures Pow(a) <= Pow(b)
  {
    if a < b { PowGrows(a, b - 1); }
  }

  /** The `w` low bytes of `n`, little-endian. */
  function Le(n: nat, w: nat): (b: Bytes)
    ensures |b| == w
  {
    if w == 0 then [] else [n % 256] + Le(n / 256, w - 1)
  }

  function Num(b: Bytes): nat {
    if b == [] then 0 else b[0] + 256 * Num(b[1..])
  }

  /** Little-endian two's complement. */
  function Signed(b: Bytes): int {
    if b != [] && b[|b| - 1] >= 128 then Num(b) - Pow(|b|) else Num(b)
  }

  lemma {:induction false} NumLe(n: nat, w: nat)
    requires n < Pow(w)
    ensures Num(Le(n, w)) == n
  {
    if w > 0 {
      NumLe(n / 256, w - 1);
      assert Le(n, w)[1..] == Le(n / 256, w - 1);
    }
  }

  lemma {:induction false} NumBound(b: Bytes)
    ensures Num(b) < Pow(|b|)
  {
    if b != [] { NumBound(b[1..]); }
  }

  lemma {:induction false} NumLast(b: Bytes, x: Byte)
    ensures Num(b + [x]) == Num(b) + x * Pow(|b|)
  {
    if b == [] {
      assert b + [x] == [x] && [x][1..] == [];
    } else {
      NumLast(b[1..], x);
      assert (b + [x])[1..] == b[1..] + [x];
      assert 256 * (x * Pow(|b| - 1)) == x * Pow(|b|);
    }
  }

  /** The low bytes of a two's-complement integer, `to_le_bytes` of the width. */
  function Twos(v: int, w: nat): (b: Bytes)
    requires -Pow(w) <= 2 * v < Pow(w)
    ensures |b| == w
  {
    Le(if v < 0 then v + Pow(w) else v, w)
  }

  lemma SignedTwos(v: int, w: nat)
    requires w > 0 && -Pow(w) <= 2 * v < Pow(w)
    ensures Signed(Twos(v, w)) == v
    ensures (Twos(v, w)[w - 1] >= 128) == (v < 0)
  {
    var n := if v < 0 then v + Pow(w) else v;
    var b := Twos(v, w);
    NumLe(n, w);
    assert b == b[..w - 1] + [b[w - 1]];
    NumLast(b[..w - 1], b[w - 1]);
    NumBound(b[..w - 1]);
    TopByte(n, b[w - 1], Num(b[..w - 1]), Pow(w - 1));
  }

  lemma TopByte(n: nat, x: Byte, low: nat, p: Pos)
    requires n == low + x * p && low < p
    ensures 2 * n >= 256 * p <==> x >= 128
  {
    if x >= 128 {
      assert x * p >= 128 * p;
    } else {
      assert x * p <= 127 * p;
    }
  }

  /** Drop sign-extension bytes from the end while the byte before keeps the sign. */
  function Shrink(b: Bytes, negative: bool): Bytes {
    if |b| > 1 && b[|b| - 1] == (if negative then 0xFF else 0) && (b[|b| - 2] >= 128) == negative
    then Shrink(b[..|b| - 1], negative)
    else b
  }

  lemma {:induction false} ShrinkKeeps(b: Bytes, negative: bool)
    requires b != [] && (b[|b| - 1] >= 128) == negative
    ensures Shrink(b, negative) != [] && |Shrink(b, negative)| <= |b|
    ensures Signed(Shrink(b, negative)) == Signed(b)
    ensures (Shrink(b, negative)[|Shrink(b, negative)| - 1] >= 128) == negative
  {
    if |b| > 1 && b[|b| - 1] == (if negative then 0xFF else 0) && (b[|b| - 2] >= 128) == negative {
      var c := b[..|b| - 1];
      ShrinkKeeps(c, negative);
      assert b == c + [b[|b| - 1]];
      NumLast(c, b[|b| - 1]);
    }
  }

  lemma SignedRange(c: Bytes)
    ensures -Pow(|c|) <= 2 * Signed(c) < Pow(|c|)
  {
    NumBound(c);
    if c != [] {
      var x := c[|c| - 1];
      assert c == c[..|c| - 1] + [x];
      NumLast(c[..|c| - 1], x);
      NumBound(c[..|c| - 1]);
      TopByte(Num(c), x, Num(c[..|c| - 1]), Pow(|c| - 1));
    }
  }

  /** A shrunk string is out of reach of one byte less. */
  lemma ShrunkWide(b: Bytes, negative: bool)
    requires |b| > 1 && (b[|b| - 1] >= 128) == negative
    requires !(b[|b| - 1] == (if negative then 0xFF else 0) && (b[|b| - 2] >= 128) == negative)
    ensures 2 * Signed(b) >= Pow(|b| - 1) || 2 * Signed(b) < -Pow(|b| - 1)
  {
    hide Num;
    var m := |b|;
    var x, c := b[m - 1], b[..m - 1];
    assert b == c + [x];
    NumLast(c, x);
    NumBound(c);
    if x == (if negative then 0xFF else 0) {
      var y, d := c[m - 2], c[..m - 2];
      assert c == d + [y];
      NumLast(d, y);
      NumBound(d);
      TopByte(Num(c), y, Num(d), Pow(m - 2));
    } else {
      WideTop(x, Num(c), Pow(m - 1));
    }
  }

  /** A top byte that is not the sign's fill takes the value past the lower bytes' reach. */
  lemma WideTop(x: Byte, low: nat, p: Pos)
    requires low < p
    ensures 0 < x < 128 ==> 2 * (low + x * p) >= p
    ensures 128 <= x < 255 ==> 2 * (low + x * p - 256 * p) < -(p as int)
  {
    if 0 < x < 128 {
      assert x * p >= p;
    } else if 128 <= x < 255 {
      assert x * p <= 254 * p;
    }
  }

  /** LONG1 is minimal: no shorter two's-complement string stands for the same integer. */
  lemma {:induction false} ShrinkMinimal(b: Bytes, negative: bool, c: Bytes)
    requires b != [] && (b[|b| - 1] >= 128) == negative
    requires Signed(c) == Signed(b) != 0
    ensures |c| >= |Shrink(b, negative)|
  {
    if |b| > 1 && b[|b| - 1] == (if negative then 0xFF else 0) && (b[|b| - 2] >= 128) == negative {
      var d := b[..|b| - 1];
      assert b == d + [b[|b| - 1]];
      NumLast(d, b[|b| - 1]);
      ShrinkMinimal(d, negative, c);
    } else if |b| > 1 {
      ShrunkWide(b, negative);
      SignedRange(c);
      if |c| < |b| { PowGrows(|c|, |b| - 1); }
    }
  }

  // ---- objects and opcodes ----------------------------------------------------------

  /** A Python object of the shapes that are hashed. */
  datatype Key =
    | Str(text: Text)
    | Int(v: I64)
    | Bin(bytes: Blob)
    | Tuple(items: seq<Key>)
    | Nothing

  datatype Token =
    | PushBytes(bytes: Blob)
    | PushStr(text: Text)
    | PushInt(v: I64)
    | PushNone
    | Mark
    | EmptyTuple
    | Tuple1
    | Tuple2
    | Tuple3
    | TupleToMark
    | Memoize
    | Stop

  /** `tuple_end`: up to three items have their own opcode; the empty tuple is not memoized. */
  function Close(n: nat): seq<Token> {
    if n == 0 then [EmptyTuple]
    else [if n == 1 then Tuple1 else if n == 2 then Tuple2 else if n == 3 then Tuple3 else TupleToMark, Memoize]
  }

  function Open(n: nat): seq<Token> { if n > 3 then [Mark] else [] }

  function Tokens(k: Key): seq<Token>
    decreases k, 1, 0
  {
    match k
    case Str(s) => [PushStr(s), Memoize]
    case Int(v) => [PushInt(v)]
    case Bin(b) => [PushBytes(b), Memoize]
    case Nothing => [PushNone]
    case Tuple(items) => Open(|items|) + ItemTokens(k, |items|) + Close(|items|)
  }

  /** The opcodes of a tuple's first `n` items. */
  function ItemTokens(k: Key, n: nat): seq<Token>
    requires k.Tuple? && n <= |k.items|
    decreases k, 0, n
  {
    if n == 0 then [] else ItemTokens(k, n - 1) + Tokens(k.items[n - 1])
  }

  // ---- the bytes of an opcode -------------------------------------------------------

  function BytesCode(b: Blob): Bytes {
    (if |b| < 256 then [0x43, |b|]
     else if |b| < TWO32 then [0x42] + Le(|b|, 4)
     else [0x8E] + Le(|b|, 8)) + b
  }

  /** The four-byte length of a long string is the low half of its length. */
  function StrCode(s: Text): Bytes {
    (if |s| < 256 then [0x8C, |s|] else [0x58] + Le(|s| % TWO32, 4)) + s
  }

  function Long1(v: I64): (b: Bytes)
    ensures 0 < |b| <= 8 && Signed(b) == v
  {
    Pows();
    SignedTwos(v, 8);
    ShrinkKeeps(Twos(v, 8), v < 0);
    Shrink(Twos(v, 8), v < 0)
  }

  function IntCode(v: I64): Bytes {
    Pows();
    if 0 <= v < 256 then [0x4B, v]
    else if 256 <= v < 65536 then [0x4D] + Le(v, 2)
    else if -0x8000_0000 <= v <= 0x7FFF_FFFF then [0x4A] + Twos(v, 4)
    else [0x8A, |Long1(v)|] + Long1(v)
  }

  function Code(t: Token): (b: Bytes)
    ensures b != []
  {
    match t
    case PushBytes(b) => BytesCode(b)
    case PushStr(s) => StrCode(s)
    case PushInt(v) => IntCode(v)
    case PushNone => [0x4E]
    case Mark => [0x28]
    case EmptyTuple => [0x29]
    case Tuple1 => [0x85]
    case Tuple2 => [0x86]
    case Tuple3 => [0x87]
    case TupleToMark => [0x74]
    case Memoize => [0x94]
    case Stop => [0x2E]
  }

  function Flat(ts: seq<Token>): Bytes {
    if ts == [] then [] else Code(ts[0]) + Flat(ts[1..])
  }

  lemma Associates(a: Bytes, b: Bytes, c: Bytes)
    ensures a + (b + c) == (a + b) + c
  {}

  lemma {:induction false} FlatJoin(a: seq<Token>, b: seq<Token>)
    ensures Flat(a + b) == Flat(a) + Flat(b)
  {
    hide Code;
    if a == [] {
      assert a + b == b;
    } else {
      FlatJoin(a[1..], b);
      assert (a + b)[0] == a[0] && (a + b)[1..] == a[1..] + b;
      Associates(Code(a[0]), Flat(a[1..]), Flat(b));
    }
  }

  /** PROTO 5, FRAME and the frame's length, then the opcodes and STOP. */
  function Frame(body: Bytes): Bytes {
    [0x80, 5, 0x95] + Le(|body| % TWO64, 8) + body
  }

  function Dump(k: Key): Bytes {
    Frame(Flat(Tokens(k) + [Stop]))
  }

  // ---- the reader -------------------------------------------------------------------

  function Span(b: Bytes, at: nat, n: nat): Option<Bytes> {
    if at + n <= |b| then Some(b[at..at + n]) else None
  }

  /** A payload whose length is the little-endian number in the `w` bytes after the opcode. */
  function Payload(b: Bytes, w: nat): Option<Bytes> {
    if |b| < 1 + w then None else Span(b, 1 + w, Num(b[1..1 + w]))
  }

  function AsBytes(p: Option<Bytes>): Option<Token> {
    if p.Some? && |p.value| < TWO64 then Some(PushBytes(p.value)) else None
  }

  function AsStr(p: Option<Bytes>): Option<Token> {
    if p.Some? && |p.value| < TWO64 && Utf8(p.value) then Some(PushStr(p.value)) else None
  }

  function AsInt(p: Option<Bytes>, signed: bool): Option<Token> {
    if p.None? then None
    else
      var v := if signed then Signed(p.value) else Num(p.value);
      if -TWO63 <= v < TWO63 then Some(PushInt(v)) else None
  }

  /** One opcode and its operand, and how many bytes they take. */
  function Lex(b: Bytes): Option<(Token, nat)> {
    if b == [] then None
    else
      match b[0]
      case 0x43 => Sized(AsBytes(Payload(b, 1)), 2)
      case 0x42 => Sized(AsBytes(Payload(b, 4)), 5)
      case 0x8E => Sized(AsBytes(Payload(b, 8)), 9)
      case 0x8C => Sized(AsStr(Payload(b, 1)), 2)
      case 0x58 => Sized(AsStr(Payload(b, 4)), 5)
      case 0x4B => Fixed(AsInt(Span(b, 1, 1), false), 2)
      case 0x4D => Fixed(AsInt(Span(b, 1, 2), false), 3)
      case 0x4A => Fixed(AsInt(Span(b, 1, 4), true), 5)
      case 0x8A => Fixed(AsInt(Payload(b, 1), true), if |b| > 1 then 2 + b[1] as int else 0)
      case 0x4E => Some((PushNone, 1))
      case 0x28 => Some((Mark, 1))
      case 0x29 => Some((EmptyTuple, 1))
      case 0x85 => Some((Tuple1, 1))
      case 0x86 => Some((Tuple2, 1))
      case 0x87 => Some((Tuple3, 1))
      case 0x74 => Some((TupleToMark, 1))
      case 0x94 => Some((Memoize, 1))
      case 0x2E => Some((Stop, 1))
      case _ => None
  }

  function Fixed(t: Option<Token>, size: nat): Option<(Token, nat)> {
    if t.Some? then Some((t.value, size)) else None
  }

  function Sized(t: Option<Token>, head: nat): Option<(Token, nat)> {
    match t
    case Some(PushBytes(b)) => Some((t.value, head + |b|))
    case Some(PushStr(s)) => Some((t.value, head + |s|))
    case _ => None
  }

  datatype Item = Val(key: Key) | MarkItem

  predicate AllVals(s: seq<Item>) {
    forall i :: 0 <= i < |s| ==> s[i].Val?
  }

  function Vals(ks: seq<Key>): (s: seq<Item>)
    ensures |s| == |ks| && AllVals(s)
    ensures forall i :: 0 <= i < |ks| ==> s[i] == Val(ks[i])
  {
    seq(|ks|, i requires 0 <= i < |ks| => Val(ks[i]))
  }

  function Unwrap(s: seq<Item>): (ks: seq<Key>)
    requires AllVals(s)
    ensures |ks| == |s| && forall i :: 0 <= i < |s| ==> ks[i] == s[i].key
  {
    seq(|s|, i requires 0 <= i < |s| => s[i].key)
  }

  /** The position just above the topmost mark, or 0. */
  function AboveMark(s: seq<Item>): (at: nat)
    ensures at <= |s| && AllVals(s[at..])
    ensures at > 0 ==> s[at - 1].MarkItem?
  {
    if s == [] || s[|s| - 1].MarkItem? then |s|
    else
      var at := AboveMark(s[..|s| - 1]);
      assert s[at..] == s[..|s| - 1][at..] + [s[|s| - 1]];
      at
  }

  /** Replace the items from `at` on by one tuple of them, dropping what lies from `keep` to `at`. */
  function Gather(s: seq<Item>, keep: int, at: int): Option<seq<Item>> {
    if 0 <= keep <= at <= |s| && AllVals(s[at..]) then Some(s[..keep] + [Val(Tuple(Unwrap(s[at..])))]) else None
  }

  /** The stack after one opcode. The memo is never read by these opcodes and is not kept. */
  function Step(s: seq<Item>, t: Token): Option<seq<Item>> {
    match t
    case PushBytes(b) => Some(s + [Val(Bin(b))])
    case PushStr(x) => Some(s + [Val(Str(x))])
    case PushInt(v) => Some(s + [Val(Int(v))])
    case PushNone => Some(s + [Val(Nothing)])
    case Mark => Some(s + [MarkItem])
    case EmptyTuple => Some(s + [Val(Tuple([]))])
    case Tuple1 => Gather(s, |s| - 1, |s| - 1)
    case Tuple2 => Gather(s, |s| - 2, |s| - 2)
    case Tuple3 => Gather(s, |s| - 3, |s| - 3)
    case TupleToMark => Gather(s, AboveMark(s) - 1, AboveMark(s))
    case Memoize => if s != [] && s[|s| - 1].Val? then Some(s) else None
    case Stop => None
  }

  /** Read opcodes up to STOP, which must be the last byte and leave exactly one object. */
  function ReadBody(b: Bytes, s: seq<Item>): Option<Key>
    decreases |b|
  {
    var next := Lex(b);
    if next.None? || next.value.1 == 0 || next.value.1 > |b| then None
    else
      var (t, n) := next.value;
      if t.Stop? then
        if n == |b| && |s| == 1 && s[0].Val? then Some(s[0].key) else None
      else
        var after := Step(s, t);
        if after.None? then None else ReadBody(b[n..], after.value)
  }

  /** The whole reader: protocol 5, one frame that covers the rest, and its opcodes. */
  function Load(b: Bytes): Option<Key> {
    if |b| >= 11 && b[..3] == [0x80, 5, 0x95] && Num(b[3..11]) == |b| - 11 then ReadBody(b[11..], []) else None
  }

  // ---- running opcodes --------------------------------------------------------------

  /** The stack after a list of opcodes other than STOP. */
  function Exec(s: seq<Item>, ts: seq<Token>): Option<seq<Item>>
    decreases |ts|
  {
    if ts == [] then Some(s)
    else
      var after := Step(s, ts[0]);
      if after.None? then None else Exec(after.value, ts[1..])
  }

  lemma {:induction false} ExecJoin(s: seq<Item>, a: seq<Token>, b: seq<Token>)
    ensures Exec(s, a + b) == (if Exec(s, a).None? then None else Exec(Exec(s, a).value, b))
    decreases |a|
  {
    if a == [] {
      assert a + b == b;
    } else {
      assert (a + b)[0] == a[0] && (a + b)[1..] == a[1..] + b;
      if Step(s, a[0]).Some? { ExecJoin(Step(s, a[0]).value, a[1..], b); }
    }
  }

  /** A tuple of up to three items, or of the items above the topmost mark. */
  lemma GatherTop(s: seq<Item>, low: seq<Item>, ks: seq<Key>)
    requires low == s || low == s + [MarkItem]
    ensures Gather(low + Vals(ks), |s|, |low|) == Some(s + [Val(Tuple(ks))])
  {
    var st := low + Vals(ks);
    assert st[|low|..] == Vals(ks) && Unwrap(Vals(ks)) == ks && st[..|s|] == s;
  }

  lemma ExecTwo(s: seq<Item>, t: Token, k: Key, after: seq<Item>)
    requires Step(s, t) == Some(after + [Val(k)])
    ensures Exec(s, [t, Memoize]) == Some(after + [Val(k)])
  {
    hide Step;
    var r := after + [Val(k)];
    assert [t, Memoize][1..] == [Memoize] && [Memoize][1..] == [];
    Memo(r);
  }

  lemma Memo(s: seq<Item>)
    requires s != [] && s[|s| - 1].Val?
    ensures Step(s, Memoize) == Some(s)
  {}

  lemma ExecClose(s: seq<Item>, ks: seq<Key>)
    ensures Exec(s + (if |ks| > 3 then [MarkItem] else []) + Vals(ks), Close(|ks|)) == Some(s + [Val(Tuple(ks))])
  {
    hide Exec, Gather, Vals;
    var n := |ks|;
    var low := s + (if n > 3 then [MarkItem] else []);
    if n == 0 {
      ExecEmpty(s);
      assert low + Vals(ks) == s && ks == [];
    } else {
      assert n <= 3 ==> low == s;
      GatherTop(s, low, ks);
      if n > 3 { MarkBelow(low, ks); }
      ExecTwo(low + Vals(ks), Close(n)[0], Tuple(ks), s);
    }
  }

  lemma ExecEmpty(s: seq<Item>)
    ensures Exec(s, [EmptyTuple]) == Some(s + [Val(Tuple([]))])
  {
    assert [EmptyTuple][1..] == [];
  }

  lemma {:induction false} MarkBelow(low: seq<Item>, ks: seq<Key>)
    requires low != [] && low[|low| - 1].MarkItem?
    ensures AboveMark(low + Vals(ks)) == |low|
  {
    var st := low + Vals(ks);
    if ks == [] {
      assert st == low;
    } else {
      assert st[..|st| - 1] == low + Vals(ks[..|ks| - 1]);
      MarkBelow(low, ks[..|ks| - 1]);
    }
  }

  /** The opcodes of an object push exactly that object. */
  lemma {:induction false} ExecKey(s: seq<Item>, k: Key)
    ensures Exec(s, Tokens(k)) == Some(s + [Val(k)])
    decreases k, 1, 0
  {
    if k.Tuple? {
      var n := |k.items|;
      var low := s + (if n > 3 then [MarkItem] else []);
      assert Exec(s, Open(n)) == Some(low) by {
        if n > 3 { assert Open(n)[1..] == []; } else { assert low == s; }
      }
      ExecItems(low, k, n);
      assert k.items[..n] == k.items;
      ExecJoin(s, Open(n), ItemTokens(k, n));
      ExecJoin(s, Open(n) + ItemTokens(k, n), Close(n));
      ExecClose(s, k.items);
    } else {
      var ts := Tokens(k);
      assert ts[1..] == [] || (ts[1..] == [Memoize] && [Memoize][1..] == []);
      var after := s + [Val(k)];
      assert Step(s, ts[0]) == Some(after);
      assert Exec(after, []) == Some(after);
      assert Exec(after, [Memoize]) == Exec(after, [Memoize][1..]);
    }
  }

  lemma {:induction false} ExecItems(s: seq<Item>, k: Key, n: nat)
    requires k.Tuple? && n <= |k.items|
    ensures Exec(s, ItemTokens(k, n)) == Some(s + Vals(k.items[..n]))
    decreases k, 0, n
  {
    if n == 0 {
      assert s + Vals(k.items[..0]) == s;
    } else {
      ExecItems(s, k, n - 1);
      var mid := s + Vals(k.items[..n - 1]);
      ExecKey(mid, k.items[n - 1]);
      ExecJoin(s, ItemTokens(k, n - 1), Tokens(k.items[n - 1]));
      assert mid + [Val(k.items[n - 1])] == s + Vals(k.items[..n]);
    }
  }

  /** Different objects have different opcodes. */
  lemma TokensInjective(a: Key, b: Key)
    requires Tokens(a) == Tokens(b)
    ensures a == b
  {
    ExecKey([], a);
    ExecKey([], b);
    assert ([] + [Val(a)])[0] == ([] + [Val(b)])[0];
  }
}
