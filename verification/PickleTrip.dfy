/**
 * What serialisation keeps. The reader recovers the object exactly when every string in it is
 * shorter than 2^32 bytes (longer ones have their length truncated) and the frame's length fits
 * its field; and, with no condition at all, two objects with the same bytes are the same object.
 */
module PickleTrip {
  import opened Basics
  import opened Pickle

  /** No string whose length the four-byte field cannot hold. */
  predicate Fits(k: Key) {
    match k
    case Str(s) => |s| < TWO32
    case Tuple(items) => forall i :: 0 <= i < |items| ==> Fits(items[i])
    case _ => true
  }

  predicate TokenFits(t: Token) { t.PushStr? ==> |t.text| < TWO32 }

  predicate AllFit(ts: seq<Token>) {
    forall i :: 0 <= i < |ts| ==> TokenFits(ts[i])
  }

  /** A string's opcode is followed by MEMOIZE. */
  predicate Followed(ts: seq<Token>, i: nat) {
    i < |ts| && ts[i].PushStr? ==> i + 1 < |ts| && ts[i + 1] == Memoize
  }

  predicate Guarded(ts: seq<Token>) {
    forall i: nat :: i < |ts| ==> Followed(ts, i)
  }

  lemma Join(a: seq<Token>, b: seq<Token>)
    requires Guarded(a) && Guarded(b)
    ensures Guarded(a + b)
    ensures AllFit(a + b) <==> AllFit(a) && AllFit(b)
  {
    forall i: nat | i < |a + b| ensures Followed(a + b, i)
    {
      if i < |a| {
        assert Followed(a, i);
      } else {
        assert Followed(b, i - |a|);
      }
    }
    if AllFit(a + b) {
      forall i | 0 <= i < |a| ensures TokenFits(a[i]) { assert (a + b)[i] == a[i]; }
      forall i | 0 <= i < |b| ensures TokenFits(b[i]) { assert (a + b)[|a| + i] == b[i]; }
    }
  }

  /** What holds of every object's opcodes: no STOP, strings followed by MEMOIZE. */
  lemma {:induction false} TokensShape(k: Key)
    ensures Guarded(Tokens(k)) && Stop !in Tokens(k)
    ensures AllFit(Tokens(k)) <==> Fits(k)
    decreases k, 1, 0
  {
    match k
    case Tuple(items) =>
      var n := |items|;
      ItemsShape(k, n);
      EndsShape(n);
      Join(Open(n), ItemTokens(k, n));
      Join(Open(n) + ItemTokens(k, n), Close(n));
    case Str(s) =>
      assert Tokens(k)[0] == PushStr(s) && TokenFits(Tokens(k)[1]);
    case _ =>
  }

  lemma EndsShape(n: nat)
    ensures Guarded(Open(n)) && AllFit(Open(n)) && Stop !in Open(n)
    ensures Guarded(Close(n)) && AllFit(Close(n)) && Stop !in Close(n)
  {}

  lemma {:induction false} ItemsShape(k: Key, n: nat)
    requires k.Tuple? && n <= |k.items|
    ensures Guarded(ItemTokens(k, n)) && Stop !in ItemTokens(k, n)
    ensures AllFit(ItemTokens(k, n)) <==> forall i :: 0 <= i < n ==> Fits(k.items[i])
    decreases k, 0, n
  {
    if n > 0 {
      ItemsShape(k, n - 1);
      TokensShape(k.items[n - 1]);
      Join(ItemTokens(k, n - 1), Tokens(k.items[n - 1]));
    }
  }

  // ---- one opcode -------------------------------------------------------------------

  lemma PayloadOf(op: Byte, n: nat, w: nat, body: Bytes, rest: Bytes)
    requires n < Pow(w) && |body| == n
    ensures Payload([op] + Le(n, w) + body + rest, w) == Some(body)
  {
    var b := [op] + Le(n, w) + body + rest;
    NumLe(n, w);
    assert b[1..1 + w] == Le(n, w);
    assert b[1 + w..1 + w + n] == body;
  }

  lemma OneByte(n: Byte)
    ensures Le(n, 1) == [n]
  {
    assert Le(n / 256, 0) == [];
  }

  lemma LexBytes(b: Blob, rest: Bytes)
    ensures Lex(BytesCode(b) + rest) == Some((PushBytes(b), |BytesCode(b)|))
  {
    Pows();
    if |b| < 256 {
      OneByte(|b|);
      PayloadOf(0x43, |b|, 1, b, rest);
      assert BytesCode(b) + rest == [0x43] + Le(|b|, 1) + b + rest;
    } else if |b| < TWO32 {
      PayloadOf(0x42, |b|, 4, b, rest);
    } else {
      PayloadOf(0x8E, |b|, 8, b, rest);
    }
  }

  lemma LexShortStr(s: Text, rest: Bytes)
    requires |s| < 256
    ensures Lex(StrCode(s) + rest) == Some((PushStr(s), |StrCode(s)|))
  {
    hide Utf8, Le, Num, Pow;
    Pows();
    OneByte(|s|);
    PayloadOf(0x8C, |s|, 1, s, rest);
    assert StrCode(s) + rest == [0x8C] + Le(|s|, 1) + s + rest;
  }

  lemma LexLongStr(s: Text, rest: Bytes)
    requires 256 <= |s| < TWO32
    ensures Lex(StrCode(s) + rest) == Some((PushStr(s), |StrCode(s)|))
  {
    hide Utf8, Le, Num, Pow;
    Pows();
    PayloadOf(0x58, |s|, 4, s, rest);
    assert StrCode(s) + rest == [0x58] + Le(|s|, 4) + s + rest;
  }

  lemma LexNarrow(v: I64, rest: Bytes)
    requires 0 <= v < 65536
    ensures Lex(IntCode(v) + rest) == Some((PushInt(v), |IntCode(v)|))
  {
    hide Le, Num, Pow, Twos, Long1;
    Pows();
    var b := IntCode(v) + rest;
    if v < 256 {
      OneByte(v);
      NumLe(v, 1);
      assert b[1..2] == [v];
    } else {
      NumLe(v, 2);
      assert b[1..3] == Le(v, 2);
    }
  }

  lemma LexWide(v: I64, rest: Bytes)
    requires !(0 <= v < 65536)
    ensures Lex(IntCode(v) + rest) == Some((PushInt(v), |IntCode(v)|))
  {
    hide Le, Num, Pow, Twos, Long1, Signed;
    Pows();
    var b := IntCode(v) + rest;
    if -0x8000_0000 <= v <= 0x7FFF_FFFF {
      SignedTwos(v, 4);
      assert b[1..5] == Twos(v, 4);
    } else {
      var l := Long1(v);
      OneByte(|l|);
      PayloadOf(0x8A, |l|, 1, l, rest);
      assert b == [0x8A] + Le(|l|, 1) + l + rest;
    }
  }

  /** The reader takes back exactly the opcode written, whatever follows it. */
  lemma LexCode(t: Token, rest: Bytes)
    requires TokenFits(t)
    ensures Lex(Code(t) + rest) == Some((t, |Code(t)|))
  {
    match t
    case PushBytes(b) => LexBytes(b, rest);
    case PushStr(s) => if |s| < 256 { LexShortStr(s, rest); } else { LexLongStr(s, rest); }
    case PushInt(v) => if 0 <= v < 65536 { LexNarrow(v, rest); } else { LexWide(v, rest); }
    case _ =>
  }

  // ---- the round trip ---------------------------------------------------------------

  lemma {:induction false} ReadRun(ts: seq<Token>, rest: Bytes, s: seq<Item>)
    requires AllFit(ts) && Stop !in ts && Exec(s, ts).Some?
    ensures ReadBody(Flat(ts) + rest, s) == ReadBody(rest, Exec(s, ts).value)
    decreases |ts|
  {
    hide Code, Lex, Step;
    if ts == [] {
      assert Flat(ts) + rest == rest;
    } else {
      var more := Flat(ts[1..]) + rest;
      assert Flat(ts) + rest == Code(ts[0]) + more;
      LexCode(ts[0], more);
      assert (Code(ts[0]) + more)[|Code(ts[0])|..] == more;
      assert ts[0] in ts;
      ReadRun(ts[1..], rest, Step(s, ts[0]).value);
    }
  }

  lemma ReadStop(k: Key)
    ensures ReadBody(Flat([Stop]), [Val(k)]) == Some(k)
  {
    hide Tokens, Step, BytesCode, StrCode, IntCode, Payload, AsInt;
    assert Flat([Stop]) == [0x2E] by { assert [Stop][1..] == []; }
    assert Lex([0x2E]) == Some((Stop, 1));
  }

  /** The writer's bytes, read back: the object itself. */
  lemma ReadBack(k: Key)
    requires Fits(k)
    ensures ReadBody(Flat(Tokens(k) + [Stop]), []) == Some(k)
  {
    hide Tokens, Flat, Exec, ReadBody, Fits;
    TokensShape(k);
    ExecKey([], k);
    FlatJoin(Tokens(k), [Stop]);
    ReadRun(Tokens(k), Flat([Stop]), []);
    assert [] + [Val(k)] == [Val(k)];
    ReadStop(k);
  }

  predicate ItemsFit(s: seq<Item>) {
    forall i :: 0 <= i < |s| && s[i].Val? ==> Fits(s[i].key)
  }

  lemma LexFits(b: Bytes)
    requires Lex(b).Some?
    ensures TokenFits(Lex(b).value.0)
  {
    Pows();
    if b[0] == 0x58 {
      NumBound(b[1..5]);
    } else if b[0] == 0x8C {
      NumBound(b[1..2]);
    }
  }

  lemma TupleFits(ks: seq<Key>)
    requires forall i :: 0 <= i < |ks| ==> Fits(ks[i])
    ensures Fits(Tuple(ks))
  {}

  lemma PushFits(s: seq<Item>, x: Item)
    requires ItemsFit(s) && (x.Val? ==> Fits(x.key))
    ensures ItemsFit(s + [x])
  {
    hide Fits;
  }

  lemma GatherFits(s: seq<Item>, keep: int, at: int)
    requires ItemsFit(s) && Gather(s, keep, at).Some?
    ensures ItemsFit(Gather(s, keep, at).value)
  {
    hide Fits;
    var ks := Unwrap(s[at..]);
    forall i | 0 <= i < |ks| ensures Fits(ks[i]) { assert s[at..][i] == s[at + i]; }
    TupleFits(ks);
    forall i | 0 <= i < keep && s[..keep][i].Val? ensures Fits(s[..keep][i].key) { assert s[..keep][i] == s[i]; }
    PushFits(s[..keep], Val(Tuple(ks)));
  }

  lemma StepFits(s: seq<Item>, t: Token)
    requires ItemsFit(s) && TokenFits(t) && Step(s, t).Some?
    ensures ItemsFit(Step(s, t).value)
  {
    hide Gather, ItemsFit;
    match t
    case PushBytes(b) => PushFits(s, Val(Bin(b)));
    case PushStr(x) => PushFits(s, Val(Str(x)));
    case PushInt(v) => PushFits(s, Val(Int(v)));
    case PushNone => PushFits(s, Val(Nothing));
    case Mark => PushFits(s, MarkItem);
    case EmptyTuple =>
      TupleFits([]);
      PushFits(s, Val(Tuple([])));
    case Tuple1 => GatherFits(s, |s| - 1, |s| - 1);
    case Tuple2 => GatherFits(s, |s| - 2, |s| - 2);
    case Tuple3 => GatherFits(s, |s| - 3, |s| - 3);
    case TupleToMark => GatherFits(s, AboveMark(s) - 1, AboveMark(s));
    case Memoize =>
    case Stop =>
  }

  /** The reader never produces a string of 2^32 bytes or more. */
  lemma {:induction false} ReadFits(b: Bytes, s: seq<Item>)
    requires ItemsFit(s) && ReadBody(b, s).Some?
    ensures Fits(ReadBody(b, s).value)
    decreases |b|
  {
    hide Lex, Step, Fits;
    var (t, n) := Lex(b).value;
    LexFits(b);
    if !t.Stop? {
      StepFits(s, t);
      ReadFits(b[n..], Step(s, t).value);
    }
  }

  /** The frame's length field holds the real length. */
  predicate Framed(k: Key) { |Flat(Tokens(k) + [Stop])| < TWO64 }

  /** Writing and reading back is the identity exactly on the objects the length fields can describe. */
  lemma RoundTrip(k: Key)
    ensures Load(Dump(k)) == Some(k) <==> Fits(k) && Framed(k)
  {
    hide Flat, Tokens, ReadBody, Fits;
    var body := Flat(Tokens(k) + [Stop]);
    var b := Dump(k);
    Pows();
    NumLe(|body| % TWO64, 8);
    assert b[..3] == [0x80, 5, 0x95] && b[3..11] == Le(|body| % TWO64, 8) && b[11..] == body;
    if Fits(k) { ReadBack(k); }
    if Load(b) == Some(k) { ReadFits(body, []); }
  }

  /** A string of 2^32 bytes, all of them the letter a. */
  function LongString(): (s: Text)
    ensures |s| == TWO32
  {
    Letters(TWO32);
    seq(TWO32, _ => 0x61)
  }

  lemma {:induction false} Letters(n: nat)
    ensures Utf8(seq(n, _ => 0x61))
  {
    if n > 0 {
      Letters(n - 1);
      var s: Bytes := seq(n, _ => 0x61);
      assert s[1..] == seq(n - 1, _ => 0x61);
    }
  }

  /** Its length is written as 0, and the bytes do not read back as the string. */
  lemma LongStringLost()
    ensures StrCode(LongString())[..5] == [0x58, 0, 0, 0, 0]
    ensures Load(Dump(Str(LongString()))) != Some(Str(LongString()))
  {
    hide Load, Dump, Utf8;
    RoundTrip(Str(LongString()));
    assert Le(0, 4) == [0, 0, 0, 0] by {
      assert Le(0, 0) == [] && Le(0, 1) == [0] && Le(0, 2) == [0] + Le(0, 1) && Le(0, 3) == [0] + Le(0, 2);
    }
  }

  // ---- injectivity ------------------------------------------------------------------

  /** A string is never a proper beginning of another that goes on with MEMOIZE's byte. */
  lemma StringEnds(s: Text, u: Text, x: Bytes, y: Bytes)
    requires s + x == u + y && x != [] && x[0] == 0x94
    ensures |u| <= |s|
  {
    if |s| < |u| {
      var t := u[|s|..];
      assert u == (s + x)[..|u|];
      assert u == s + t;
      assert t[0] == u[|s|] == (u + y)[|s|] == (s + x)[|s|];
      Utf8Rest(s, t);
    }
  }

  lemma StrUnique(s: Text, u: Text, x: Bytes, y: Bytes)
    requires |s| >= 256 && |u| >= 256 && StrCode(s) + x == StrCode(u) + y
    requires x != [] && x[0] == 0x94 && y != [] && y[0] == 0x94
    ensures s == u
  {
    assert s + x == (StrCode(s) + x)[5..] && u + y == (StrCode(u) + y)[5..];
    StringEnds(s, u, x, y);
    StringEnds(u, s, y, x);
    assert s == (s + x)[..|s|] && u == (u + y)[..|u|];
  }

  lemma LongCode(t: Token)
    ensures Code(t)[0] == 0x58 <==> t.PushStr? && |t.text| >= 256
  {}

  /** Opcodes with their operands cannot be mistaken for each other, even with truncated lengths. */
  lemma CodeUnique(t: Token, u: Token, x: Bytes, y: Bytes)
    requires Code(t) + x == Code(u) + y
    requires t.PushStr? ==> x != [] && x[0] == 0x94
    requires u.PushStr? ==> y != [] && y[0] == 0x94
    ensures t == u && x == y
  {
    if TokenFits(t) && TokenFits(u) {
      hide Code, Lex;
      LexCode(t, x);
      LexCode(u, y);
    } else {
      LongCode(t);
      LongCode(u);
      assert Code(t)[0] == (Code(t) + x)[0] && Code(u)[0] == (Code(u) + y)[0];
      StrUnique(t.text, u.text, x, y);
    }
    assert x == (Code(t) + x)[|Code(t)|..] && y == (Code(u) + y)[|Code(u)|..];
  }

  lemma GuardedTail(ts: seq<Token>)
    requires ts != [] && Guarded(ts)
    ensures Guarded(ts[1..])
    ensures ts[0].PushStr? ==> Flat(ts[1..]) != [] && Flat(ts[1..])[0] == 0x94
  {
    assert Followed(ts, 0);
    forall i: nat | i < |ts[1..]| ensures Followed(ts[1..], i) { assert Followed(ts, i + 1); }
  }

  lemma {:induction false} FlatUnique(ts: seq<Token>, us: seq<Token>)
    requires Guarded(ts) && Guarded(us) && Flat(ts) == Flat(us)
    ensures ts == us
    decreases |ts|
  {
    hide Code, Guarded;
    if ts != [] && us != [] {
      GuardedTail(ts);
      GuardedTail(us);
      CodeUnique(ts[0], us[0], Flat(ts[1..]), Flat(us[1..]));
      FlatUnique(ts[1..], us[1..]);
      assert ts == [ts[0]] + ts[1..] && us == [us[0]] + us[1..];
    }
  }

  /** Serialisation is injective on every object: strings of any length, any nesting. */
  lemma DumpInjective(a: Key, b: Key)
    requires Dump(a) == Dump(b)
    ensures a == b
  {
    hide Flat, Tokens;
    assert Dump(a)[11..] == Flat(Tokens(a) + [Stop]) && Dump(b)[11..] == Flat(Tokens(b) + [Stop]);
    TokensShape(a);
    TokensShape(b);
    Join(Tokens(a), [Stop]);
    Join(Tokens(b), [Stop]);
    FlatUnique(Tokens(a) + [Stop], Tokens(b) + [Stop]);
    assert Tokens(a) == (Tokens(a) + [Stop])[..|Tokens(a)|] && Tokens(b) == (Tokens(b) + [Stop])[..|Tokens(b)|];
    TokensInjective(a, b);
  }
}
