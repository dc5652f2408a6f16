/**
 The cursor classes behind the codecs: a bounds-checked reader that advances a position, and a
 writer that appends to a buffer. Both are proved against the record format of module Wire.
 */
module Cursor {
  import opened Words
  import opened Wire

  class Reader {
    const data: Bytes
    var pos: nat

    ghost predicate Valid()
      reads this
    {
      pos <= |data|
    }

    ghost function Rest(): Bytes
      requires Valid()
      reads this
    {
      data[pos..]
    }

    constructor (data: Bytes)
      ensures Valid() && Rest() == data && this.data == data
    {
      this.data := data;
      pos := 0;
    }

    /** u8, u16, u32 and u64: refuse unless all bytes are there, then assemble them low byte first. */
    method ReadWord(width: nat) returns (v: Option<nat>)
      requires Valid()
      modifies this
      ensures Valid()
      ensures match Decode(Word(width), old(Rest()))
              case None => v.None? && pos == old(pos)
              case Some((n, rest)) => v == Some(n.n) && Rest() == rest
    {
      if |data| - pos < width { return None; }
      ghost var b := data[pos..pos + width];
      var n: nat, scale: nat := 0, 1;
      for i := 0 to width
        invariant scale == Span(i)
        invariant n == FromLittleEndian(b[..i])
        invariant pos == old(pos)
      {
        Snoc(b[..i], b[i]);
        assert b[..i] + [b[i]] == b[..i + 1];
        n := n + scale * data[pos + i];
        scale := 256 * scale;
      }
      assert b[..width] == b == old(Rest())[..width];
      assert data[pos + width..] == old(Rest())[width..];
      pos := pos + width;
      v := Some(n);
    }

    method ReadText() returns (t: Option<Bytes>)
      requires Valid()
      modifies this
      ensures Valid()
      ensures match Decode(Text, old(Rest()))
              case None => t.None?
              case Some((s, rest)) => t == Some(s.text) && Rest() == rest
    {
      ghost var b := Rest();
      var n := ReadWord(4);
      if n.None? || n.value > MAX_TEXT || |data| - pos < n.value { return None; }
      t := Some(data[pos..pos + n.value]);
      assert b[4..4 + n.value] == Rest()[..n.value] == t.value;
      assert b[4 + n.value..] == Rest()[n.value..];
      pos := pos + n.value;
    }

    method Finished() returns (done: bool)
      requires Valid()
      ensures done <==> Rest() == []
    {
      done := pos == |data|;
    }
  }

  lemma {:induction false} Snoc(bs: Bytes, b: U8)
    ensures FromLittleEndian(bs + [b]) == FromLittleEndian(bs) + Span(|bs|) * b
  {
    if bs == [] {
      assert bs + [b] == [b] && [b][1..] == [];
    } else {
      assert (bs + [b])[1..] == bs[1..] + [b];
      Snoc(bs[1..], b);
      Scale(Span(|bs| - 1), b);
    }
  }

  lemma Scale(x: nat, b: nat)
    ensures (256 * x) * b == 256 * (x * b)
  {
  }

  /** The parse result with values already read put in front. */
  ghost function After<T>(done: seq<T>, p: Parsed<seq<T>>): Parsed<seq<T>> {
    match p
    case None => None
    case Some((more, rest)) => Some((done + more, rest))
  }

  lemma AfterNothing<T>(p: Parsed<seq<T>>)
    ensures After([], p) == p
  {
    if p.Some? { assert [] + p.value.0 == p.value.0; }
  }

  /** Read the fields of a record in order, giving up at the first one that fails. */
  method ReadAll(r: Reader, fs: seq<Field>) returns (o: Option<seq<Value>>)
    requires r.Valid()
    modifies r
    ensures r.Valid()
    ensures match DecodeAll(fs, old(r.Rest()))
            case None => o.None?
            case Some((vs, rest)) => o == Some(vs) && r.Rest() == rest
    decreases fs, 0
  {
    var vs: seq<Value> := [];
    ghost var whole := DecodeAll(fs, r.Rest());
    assert fs[0..] == fs;
    AfterNothing(whole);
    for i := 0 to |fs|
      invariant r.Valid()
      invariant whole == After(vs, DecodeAll(fs[i..], r.Rest()))
    {
      var v := ReadField(r, fs[i]);
      assert fs[i..][0] == fs[i] && fs[i..][1..] == fs[i + 1..];
      if v.None? { return None; }
      if DecodeAll(fs[i + 1..], r.Rest()).Some? {
        assert vs + ([v.value] + DecodeAll(fs[i + 1..], r.Rest()).value.0)
            == vs + [v.value] + DecodeAll(fs[i + 1..], r.Rest()).value.0;
      }
      vs := vs + [v.value];
    }
    assert fs[|fs|..] == [] && vs + [] == vs;
    o := Some(vs);
  }

  method ReadField(r: Reader, f: Field) returns (o: Option<Value>)
    requires r.Valid()
    modifies r
    ensures r.Valid()
    ensures match Decode(f, old(r.Rest()))
            case None => o.None?
            case Some((v, rest)) => o == Some(v) && r.Rest() == rest
    decreases f, 1
  {
    match f
    case Word(width) =>
      var n := r.ReadWord(width);
      return if n.Some? then Some(Num(n.value)) else None;
    case Text =>
      var t := r.ReadText();
      return if t.Some? then Some(Str(t.value)) else None;
    case Many(body) =>
      var n := r.ReadWord(4);
      if n.None? || n.value > MAX_COUNT { return None; }
      var items: seq<seq<Value>> := [];
      ghost var whole := DecodeItems(body, n.value, r.Rest());
      AfterNothing(whole);
      for i := 0 to n.value
        invariant r.Valid()
        invariant whole == After(items, DecodeItems(body, n.value - i, r.Rest()))
      {
        var vs := ReadAll(r, body);
        if vs.None? { return None; }
        ghost var more := DecodeItems(body, n.value - i - 1, r.Rest());
        if more.Some? {
          assert items + ([vs.value] + more.value.0) == items + [vs.value] + more.value.0;
        }
        items := items + [vs.value];
      }
      assert items + [] == items;
      return Some(List(items));
  }

  /** Read a whole buffer as one record; trailing bytes are an error. */
  method ReadRecord(fs: seq<Field>, b: Bytes) returns (o: Option<seq<Value>>)
    ensures o == DecodeRecord(fs, b)
  {
    var r := new Reader(b);
    o := ReadAll(r, fs);
    if o.Some? {
      var done := r.Finished();
      if !done { return None; }
    }
  }

  class Writer {
    var out: Bytes

    constructor ()
      ensures out == []
    {
      out := [];
    }

    method WriteWord(n: nat, width: nat)
      modifies this
      ensures out == old(out) + LittleEndian(n, width)
    {
      var m := n;
      for i := 0 to width
        invariant out + LittleEndian(m, width - i) == old(out) + LittleEndian(n, width)
      {
        assert out + LittleEndian(m, width - i) == (out + [m % 256]) + LittleEndian(m / 256, width - i - 1);
        out := out + [m % 256];
        m := m / 256;
      }
      assert out + [] == out;
    }

    method WriteBytes(bs: Bytes)
      modifies this
      ensures out == old(out) + bs
    {
      out := out + bs;
    }
  }

  method WriteAll(w: Writer, fs: seq<Field>, vs: seq<Value>)
    requires AllFit(fs, vs)
    modifies w
    ensures w.out == old(w.out) + EncodeAll(fs, vs)
    decreases fs, 0
  {
    assert fs[0..] == fs && vs[0..] == vs;
    for i := 0 to |fs|
      invariant w.out + EncodeAll(fs[i..], vs[i..]) == old(w.out) + EncodeAll(fs, vs)
    {
      ghost var before, rest := w.out, EncodeAll(fs[i + 1..], vs[i + 1..]);
      assert fs[i..][0] == fs[i] && fs[i..][1..] == fs[i + 1..];
      assert vs[i..][0] == vs[i] && vs[i..][1..] == vs[i + 1..];
      WriteField(w, fs[i], vs[i]);
      assert before + (Encode(fs[i], vs[i]) + rest) == w.out + rest;
    }
    assert w.out + [] == w.out;
  }

  method WriteField(w: Writer, f: Field, v: Value)
    requires Fits(f, v)
    modifies w
    ensures w.out == old(w.out) + Encode(f, v)
    decreases f, 1
  {
    match f
    case Word(width) =>
      w.WriteWord(v.n, width);
    case Text =>
      w.WriteWord(|v.text|, 4);
      w.WriteBytes(v.text);
    case Many(body) =>
      w.WriteWord(|v.items|, 4);
      ghost var start := w.out;
      assert v.items[0..] == v.items;
      for i := 0 to |v.items|
        invariant w.out + EncodeItems(body, v.items[i..]) == start + EncodeItems(body, v.items)
      {
        ghost var before, rest := w.out, EncodeItems(body, v.items[i + 1..]);
        assert v.items[i..][0] == v.items[i] && v.items[i..][1..] == v.items[i + 1..];
        WriteAll(w, body, v.items[i]);
        assert before + (EncodeAll(body, v.items[i]) + rest) == w.out + rest;
      }
      assert w.out + [] == w.out;
  }

  method WriteRecord(fs: seq<Field>, vs: seq<Value>) returns (b: Bytes)
    requires AllFit(fs, vs)
    ensures b == EncodeAll(fs, vs)
  {
    var w := new Writer();
    WriteAll(w, fs, vs);
    b := w.out;
  }
}
