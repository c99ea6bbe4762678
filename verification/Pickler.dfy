/**
 * `Pickler`: the byte buffer that the writer pushes opcodes onto, proved against the values of
 * Pickle.dfy, and the serialisation of one block's hash input.
 */
module Picklers {
  import opened Basics
  import opened Pickle
  import opened PickleTrip

  /** The hashed object: parent hash, the tuple of token ids, and the extra keys or None. */
  function BlockObject(parent: Blob, tokens: seq<I64>, extra: Option<seq<Key>>): Key {
    Tuple([Bin(parent), Tuple(Ints(tokens)), if extra.Some? then Tuple(extra.value) else Nothing])
  }

  function Ints(tokens: seq<I64>): (ks: seq<Key>)
    ensures |ks| == |tokens| && forall i :: 0 <= i < |tokens| ==> ks[i] == Int(tokens[i])
  {
    seq(|tokens|, i requires 0 <= i < |tokens| => Int(tokens[i]))
  }

  lemma TwoFlat(t: Token)
    ensures Flat([t]) == Code(t)
    ensures Flat([t, Memoize]) == Code(t) + [0x94]
  {
    assert [t][1..] == [] && [t, Memoize][1..] == [Memoize] && [Memoize][1..] == [];
  }

  lemma ItemsStep(k: Key, n: nat)
    requires k.Tuple? && n < |k.items|
    ensures Flat(ItemTokens(k, n + 1)) == Flat(ItemTokens(k, n)) + Flat(Tokens(k.items[n]))
  {
    FlatJoin(ItemTokens(k, n), Tokens(k.items[n]));
  }

  lemma TupleFlat(k: Key)
    requires k.Tuple?
    ensures Flat(Tokens(k)) == Flat(Open(|k.items|)) + Flat(ItemTokens(k, |k.items|)) + Flat(Close(|k.items|))
  {
    hide Flat;
    var n := |k.items|;
    FlatJoin(Open(n) + ItemTokens(k, n), Close(n));
    FlatJoin(Open(n), ItemTokens(k, n));
  }

  class Pickler {
    var buf: Bytes

    constructor ()
      ensures buf == [0x80, 5, 0x95] + Repeat<Byte>(0, 8)
    {
      buf := [0x80, 5, 0x95] + [0, 0, 0, 0, 0, 0, 0, 0];
    }

    method WriteBytes(b: Blob)
      modifies this
      ensures buf == old(buf) + Flat(Tokens(Bin(b)))
    {
      TwoFlat(PushBytes(b));
      if |b| < 256 {
        buf := buf + [0x43];
        buf := buf + [|b|];
      } else if |b| <= 0xFFFF_FFFF {
        buf := buf + [0x42];
        buf := buf + Le(|b|, 4);
      } else {
        buf := buf + [0x8E];
        buf := buf + Le(|b|, 8);
      }
      buf := buf + b;
      buf := buf + [0x94];
    }

    method WriteStr(s: Text)
      modifies this
      ensures buf == old(buf) + Flat(Tokens(Str(s)))
    {
      hide Utf8, Flat, Le;
      TwoFlat(PushStr(s));
      ghost var start := buf;
      if |s| < 256 {
        buf := buf + [0x8C];
        buf := buf + [|s|];
        assert buf == start + [0x8C, |s|];
      } else {
        buf := buf + [0x58];
        buf := buf + Le(|s| % TWO32, 4);
        assert buf == start + ([0x58] + Le(|s| % TWO32, 4));
      }
      buf := buf + s;
      assert buf == start + StrCode(s);
      buf := buf + [0x94];
      Associates(start, StrCode(s), [0x94]);
    }

    method WriteInt(v: I64)
      modifies this
      ensures buf == old(buf) + Flat(Tokens(Int(v)))
    {
      TwoFlat(PushInt(v));
      Pows();
      if 0 <= v < 256 {
        buf := buf + [0x4B];
        buf := buf + [v];
      } else if 256 <= v < 65536 {
        buf := buf + [0x4D];
        buf := buf + Le(v, 2);
      } else if -0x8000_0000 <= v <= 0x7FFF_FFFF {
        buf := buf + [0x4A];
        buf := buf + Twos(v, 4);
      } else {
        var b := Twos(v, 8);
        var fill: Byte := if v < 0 then 0xFF else 0;
        while |b| > 1 && b[|b| - 1] == fill && (b[|b| - 2] >= 128) == (v < 0)
          invariant 0 < |b| <= 8 && Shrink(b, v < 0) == Shrink(Twos(v, 8), v < 0)
          decreases |b|
        {
          b := b[..|b| - 1];
        }
        assert b == Long1(v);
        buf := buf + [0x8A];
        buf := buf + [|b|];
        buf := buf + b;
      }
    }

    method WriteNone()
      modifies this
      ensures buf == old(buf) + Flat(Tokens(Nothing))
    {
      TwoFlat(PushNone);
      buf := buf + [0x4E];
    }

    method TupleStart(n: nat)
      modifies this
      ensures buf == old(buf) + Flat(Open(n))
    {
      TwoFlat(Mark);
      if n > 3 {
        buf := buf + [0x28];
      }
    }

    method TupleEnd(n: nat)
      modifies this
      ensures buf == old(buf) + Flat(Close(n))
    {
      TwoFlat(Close(n)[0]);
      if n == 0 {
        buf := buf + [0x29];
        return;
      }
      buf := buf + [if n == 1 then 0x85 else if n == 2 then 0x86 else if n == 3 then 0x87 else 0x74];
      buf := buf + [0x94];
    }

    method WriteKey(k: Key)
      modifies this
      ensures buf == old(buf) + Flat(Tokens(k))
      decreases k
    {
      hide Flat, Code, Tokens, ItemTokens, Open, Close;
      match k {
        case Str(s) => WriteStr(s);
        case Int(v) => WriteInt(v);
        case Bin(b) => WriteBytes(b);
        case Nothing => WriteNone();
        case Tuple(items) => WriteTuple(k);
      }
    }

    method WriteTuple(k: Key)
      requires k.Tuple?
      modifies this
      ensures buf == old(buf) + Flat(Tokens(k))
      decreases k, 0
    {
      hide Flat, Code, Tokens, Open, Close;
      TupleFlat(k);
      TupleStart(|k.items|);
      ghost var start := buf;
      NoItems(k);
      for i := 0 to |k.items|
        invariant buf == start + Flat(ItemTokens(k, i))
      {
        WriteKey(k.items[i]);
        ItemsStep(k, i);
      }
      TupleEnd(|k.items|);
    }

    /** `finish`: STOP, then the frame's length is written over its placeholder. */
    method Finish() returns (out: Bytes)
      requires |buf| >= 11 && buf[..3] == [0x80, 5, 0x95]
      modifies this
      ensures out == Frame(old(buf)[11..] + [0x2E])
    {
      buf := buf + [0x2E];
      var frameLen := |buf| - 11;
      buf := buf[..3] + Le(frameLen % TWO64, 8) + buf[11..];
      out := buf;
    }
  }

  lemma NoItems(k: Key)
    requires k.Tuple?
    ensures Flat(ItemTokens(k, 0)) == []
  {}

  lemma DumpBytes(k: Key)
    ensures Dump(k) == Frame(Flat(Tokens(k)) + [0x2E])
  {
    hide Tokens;
    FlatJoin(Tokens(k), [Stop]);
    TwoFlat(Stop);
  }

  /** The bytes of a block object, part by part. */
  lemma BlockFlat(parent: Blob, tokens: seq<I64>, extra: Option<seq<Key>>)
    ensures var k := BlockObject(parent, tokens, extra);
            Flat(Tokens(k)) ==
              Flat(Open(3)) + (Flat(Tokens(Bin(parent))) + Flat(Tokens(k.items[1])) + Flat(Tokens(k.items[2])))
                + Flat(Close(3))
  {
    hide Flat, Tokens;
    var k := BlockObject(parent, tokens, extra);
    TupleFlat(k);
    NoItems(k);
    ItemsStep(k, 0);
    ItemsStep(k, 1);
    ItemsStep(k, 2);
  }

  /** The tuple of token ids. */
  method WriteTokens(p: Pickler, tokens: seq<I64>)
    modifies p
    ensures p.buf == old(p.buf) + Flat(Tokens(Tuple(Ints(tokens))))
  {
    hide Flat, Tokens, Open, Close;
    ghost var k := Tuple(Ints(tokens));
    TupleFlat(k);
    p.TupleStart(|tokens|);
    NoItems(k);
    ghost var start := p.buf;
    for i := 0 to |tokens|
      invariant p.buf == start + Flat(ItemTokens(k, i))
    {
      p.WriteInt(tokens[i]);
      ItemsStep(k, i);
    }
    p.TupleEnd(|tokens|);
  }

  /** The tuple of extra keys, or None. */
  method WriteExtra(p: Pickler, extra: Option<seq<Key>>)
    modifies p
    ensures p.buf == old(p.buf) + Flat(Tokens(if extra.Some? then Tuple(extra.value) else Nothing))
  {
    hide Flat, Tokens, Open, Close;
    match extra {
      case None => p.WriteNone();
      case Some(keys) =>
        ghost var k := Tuple(keys);
        TupleFlat(k);
        p.TupleStart(|keys|);
        NoItems(k);
        ghost var start := p.buf;
        for i := 0 to |keys|
          invariant p.buf == start + Flat(ItemTokens(k, i))
        {
          p.WriteKey(keys[i]);
          ItemsStep(k, i);
        }
        p.TupleEnd(|keys|);
    }
  }

  method PickleBlockHashInput(parent: Blob, tokens: seq<I64>, extra: Option<seq<Key>>) returns (out: Bytes)
    ensures out == Dump(BlockObject(parent, tokens, extra))
  {
    hide Flat, Tokens, Open, Close, ItemTokens, Frame, Dump, Ints, Repeat;
    ghost var k := BlockObject(parent, tokens, extra);
    BlockFlat(parent, tokens, extra);
    DumpBytes(k);
    var p := new Pickler();
    ghost var head := p.buf;
    p.TupleStart(3);
    p.WriteBytes(parent);
    WriteTokens(p, tokens);
    WriteExtra(p, extra);
    p.TupleEnd(3);
    assert p.buf == head + Flat(Tokens(k));
    assert p.buf[11..] == Flat(Tokens(k)) && p.buf[..3] == head[..3];
    out := p.Finish();
  }

  /** Two block-hash inputs with the same bytes have the same parent, tokens and extra keys. */
  lemma BlockInputInjective(p: Blob, ts: seq<I64>, e: Option<seq<Key>>, q: Blob, us: seq<I64>, f: Option<seq<Key>>)
    requires Dump(BlockObject(p, ts, e)) == Dump(BlockObject(q, us, f))
    ensures p == q && ts == us && e == f
  {
    var a, b := BlockObject(p, ts, e), BlockObject(q, us, f);
    DumpInjective(a, b);
    assert a.items[0] == b.items[0] && a.items[1] == b.items[1] && a.items[2] == b.items[2];
    forall i | 0 <= i < |ts| ensures ts[i] == us[i]
    {
      assert Ints(ts)[i] == Ints(us)[i];
    }
  }
}
