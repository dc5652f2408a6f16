/**
 The record format shared by the four frame payload codecs and by the state file: a record is a
 fixed list of fields, where a field is a little-endian word, a counted text, or a counted
 repetition of a sub-record. Readers bound every count before using it; writers do not.
 */
module Wire {
  import opened Words

  const MAX_COUNT: nat := 8192
  const MAX_TEXT: nat := 1024

  datatype Field = Word(width: nat) | Text | Many(body: seq<Field>)

  datatype Value = Num(n: nat) | Str(text: Bytes) | List(items: seq<seq<Value>>)

  type Parsed<T> = Option<(T, Bytes)>

  /** The value has the field's shape. */
  predicate Fits(f: Field, v: Value)
    decreases f, 0
  {
    match f
    case Word(width) => v.Num? && v.n < Span(width)
    case Text => v.Str?
    case Many(body) => v.List? && forall i :: 0 <= i < |v.items| ==> AllFit(body, v.items[i])
  }

  predicate AllFit(fs: seq<Field>, vs: seq<Value>)
    decreases fs, 1
  {
    |fs| == |vs| && forall i :: 0 <= i < |fs| ==> Fits(fs[i], vs[i])
  }

  /** Every text and every count is within what a reader accepts. */
  predicate Bounded(f: Field, v: Value)
    requires Fits(f, v)
    decreases f, 0
  {
    match f
    case Word(_) => true
    case Text => |v.text| <= MAX_TEXT
    case Many(body) => |v.items| <= MAX_COUNT && forall i :: 0 <= i < |v.items| ==> AllBounded(body, v.items[i])
  }

  predicate AllBounded(fs: seq<Field>, vs: seq<Value>)
    requires AllFit(fs, vs)
    decreases fs, 1
  {
    forall i :: 0 <= i < |vs| ==> Bounded(fs[i], vs[i])
  }

  lemma FitsConcat(fs: seq<Field>, gs: seq<Field>, vs: seq<Value>, ws: seq<Value>)
    requires AllFit(fs, vs) && AllFit(gs, ws)
    ensures AllFit(fs + gs, vs + ws)
  {
    forall i | 0 <= i < |fs + gs| ensures Fits((fs + gs)[i], (vs + ws)[i]) {
      if i >= |fs| { assert Fits(gs[i - |fs|], ws[i - |fs|]); }
    }
  }

  lemma BoundedConcat(fs: seq<Field>, gs: seq<Field>, vs: seq<Value>, ws: seq<Value>)
    requires AllFit(fs, vs) && AllFit(gs, ws) && AllBounded(fs, vs) && AllBounded(gs, ws)
    ensures AllFit(fs + gs, vs + ws) && AllBounded(fs + gs, vs + ws)
  {
    FitsConcat(fs, gs, vs, ws);
    forall i | 0 <= i < |vs + ws| ensures Bounded((fs + gs)[i], (vs + ws)[i]) {
      if i >= |fs| { assert Bounded(gs[i - |fs|], ws[i - |fs|]); }
    }
  }

  // ---- Writing ----

  function Encode(f: Field, v: Value): Bytes
    requires Fits(f, v)
    decreases f, 2, 0
  {
    match f
    case Word(width) => LittleEndian(v.n, width)
    case Text => LittleEndian(|v.text|, 4) + v.text
    case Many(body) => LittleEndian(|v.items|, 4) + EncodeItems(body, v.items)
  }

  function EncodeAll(fs: seq<Field>, vs: seq<Value>): Bytes
    requires AllFit(fs, vs)
    decreases fs, 0, 0
  {
    if fs == [] then [] else Encode(fs[0], vs[0]) + EncodeAll(fs[1..], vs[1..])
  }

  function EncodeItems(fs: seq<Field>, items: seq<seq<Value>>): Bytes
    requires forall i :: 0 <= i < |items| ==> AllFit(fs, items[i])
    decreases fs, 1, |items|
  {
    if items == [] then [] else EncodeAll(fs, items[0]) + EncodeItems(fs, items[1..])
  }

  // ---- Reading ----

  function Decode(f: Field, b: Bytes): Parsed<Value>
    decreases f, 2, 0
  {
    match f
    case Word(width) =>
      if |b| < width then None else Some((Num(FromLittleEndian(b[..width])), b[width..]))
    case Text =>
      if |b| < 4 then None else
        var n := FromLittleEndian(b[..4]);
        if n > MAX_TEXT || |b| - 4 < n then None else Some((Str(b[4..4 + n]), b[4 + n..]))
    case Many(body) =>
      if |b| < 4 then None else
        var n := FromLittleEndian(b[..4]);
        if n > MAX_COUNT then None else
          var (items, rest) :- DecodeItems(body, n, b[4..]);
          Some((List(items), rest))
  }

  function DecodeAll(fs: seq<Field>, b: Bytes): Parsed<seq<Value>>
    decreases fs, 0, 0
  {
    if fs == [] then Some(([], b)) else
      var (v, rest) :- Decode(fs[0], b);
      var (vs, rest') :- DecodeAll(fs[1..], rest);
      Some(([v] + vs, rest'))
  }

  function DecodeItems(fs: seq<Field>, n: nat, b: Bytes): Parsed<seq<seq<Value>>>
    decreases fs, 1, n
  {
    if n == 0 then Some(([], b)) else
      var (vs, rest) :- DecodeAll(fs, b);
      var (items, rest') :- DecodeItems(fs, n - 1, rest);
      Some(([vs] + items, rest'))
  }

  /** A whole buffer is one record: all fields present and nothing after them. */
  function DecodeRecord(fs: seq<Field>, b: Bytes): Option<seq<Value>>
  {
    var (vs, rest) :- DecodeAll(fs, b);
    if rest == [] then Some(vs) else None
  }

  // ---- Round trip ----

  lemma {:induction false} DecodeEncode(f: Field, v: Value, rest: Bytes)
    requires Fits(f, v) && Bounded(f, v)
    ensures Decode(f, Encode(f, v) + rest) == Some((v, rest))
    decreases f, 2, 0
  {
    var b := Encode(f, v) + rest;
    match f
    case Word(width) =>
      assert b[..width] == Encode(f, v) && b[width..] == rest;
      ReadBack(v.n, width);
    case Text =>
      Spans();
      ReadBack(|v.text|, 4);
      assert b[..4] == LittleEndian(|v.text|, 4);
      assert b[4..4 + |v.text|] == v.text && b[4 + |v.text|..] == rest;
    case Many(body) =>
      Spans();
      ReadBack(|v.items|, 4);
      assert b[..4] == LittleEndian(|v.items|, 4);
      assert b[4..] == EncodeItems(body, v.items) + rest;
      DecodeEncodeItems(body, v.items, rest);
  }

  lemma {:induction false} DecodeEncodeAll(fs: seq<Field>, vs: seq<Value>, rest: Bytes)
    requires AllFit(fs, vs) && AllBounded(fs, vs)
    ensures DecodeAll(fs, EncodeAll(fs, vs) + rest) == Some((vs, rest))
    decreases fs, 0, 0
  {
    if fs != [] {
      var tail := EncodeAll(fs[1..], vs[1..]) + rest;
      assert EncodeAll(fs, vs) + rest == Encode(fs[0], vs[0]) + tail;
      DecodeEncode(fs[0], vs[0], tail);
      DecodeEncodeAll(fs[1..], vs[1..], rest);
      assert [vs[0]] + vs[1..] == vs;
    } else {
      assert EncodeAll(fs, vs) + rest == rest;
    }
  }

  lemma {:induction false} DecodeEncodeItems(fs: seq<Field>, items: seq<seq<Value>>, rest: Bytes)
    requires forall i :: 0 <= i < |items| ==> AllFit(fs, items[i]) && AllBounded(fs, items[i])
    ensures DecodeItems(fs, |items|, EncodeItems(fs, items) + rest) == Some((items, rest))
    decreases fs, 1, |items|
  {
    if items != [] {
      var tail := EncodeItems(fs, items[1..]) + rest;
      assert EncodeItems(fs, items) + rest == EncodeAll(fs, items[0]) + tail;
      DecodeEncodeAll(fs, items[0], tail);
      DecodeEncodeItems(fs, items[1..], rest);
      assert [items[0]] + items[1..] == items;
    } else {
      assert EncodeItems(fs, items) + rest == rest;
    }
  }

  // ---- Exactness: whatever a reader accepts is the encoding of what it returns ----

  lemma {:induction false} DecodeExact(f: Field, b: Bytes)
    ensures match Decode(f, b)
            case None => true
            case Some((v, rest)) => Fits(f, v) && Bounded(f, v) && b == Encode(f, v) + rest
    decreases f, 2, 0
  {
    match f
    case Word(width) =>
      if |b| >= width {
        WriteBack(b[..width]);
        assert b == b[..width] + b[width..];
      }
    case Text =>
      if |b| >= 4 {
        WriteBack(b[..4]);
        var n := FromLittleEndian(b[..4]);
        if n <= MAX_TEXT && n <= |b| - 4 {
          assert b == b[..4] + b[4..4 + n] + b[4 + n..];
        }
      }
    case Many(body) =>
      if |b| >= 4 {
        WriteBack(b[..4]);
        var n := FromLittleEndian(b[..4]);
        DecodeItemsExact(body, n, b[4..]);
        assert b == b[..4] + b[4..];
        if n <= MAX_COUNT && DecodeItems(body, n, b[4..]).Some? {
          var (items, rest) := DecodeItems(body, n, b[4..]).value;
          assert b == (LittleEndian(n, 4) + EncodeItems(body, items)) + rest;
        }
      }
  }

  lemma {:induction false} DecodeAllExact(fs: seq<Field>, b: Bytes)
    ensures match DecodeAll(fs, b)
            case None => true
            case Some((vs, rest)) => AllFit(fs, vs) && AllBounded(fs, vs) && b == EncodeAll(fs, vs) + rest
    decreases fs, 0, 0
  {
    if fs != [] && DecodeAll(fs, b).Some? {
      var (v, middle) := Decode(fs[0], b).value;
      var (vs, rest) := DecodeAll(fs[1..], middle).value;
      DecodeExact(fs[0], b);
      DecodeAllExact(fs[1..], middle);
      var all := [v] + vs;
      assert all[1..] == vs;
      assert AllFit(fs, all) by {
        forall i | 0 <= i < |fs| ensures Fits(fs[i], all[i]) {
          if i > 0 { assert fs[i] == fs[1..][i - 1]; }
        }
      }
      assert b == (Encode(fs[0], v) + EncodeAll(fs[1..], vs)) + rest;
    }
  }

  lemma {:induction false} DecodeItemsExact(fs: seq<Field>, n: nat, b: Bytes)
    ensures match DecodeItems(fs, n, b)
            case None => true
            case Some((items, rest)) =>
              && |items| == n
              && (forall i :: 0 <= i < n ==> AllFit(fs, items[i]) && AllBounded(fs, items[i]))
              && b == EncodeItems(fs, items) + rest
    decreases fs, 1, n
  {
    if n > 0 && DecodeItems(fs, n, b).Some? {
      var (vs, middle) := DecodeAll(fs, b).value;
      var (items, rest) := DecodeItems(fs, n - 1, middle).value;
      DecodeAllExact(fs, b);
      DecodeItemsExact(fs, n - 1, middle);
      var all := [vs] + items;
      assert all[1..] == items;
      assert b == (EncodeAll(fs, vs) + EncodeItems(fs, items)) + rest;
    }
  }

  // ---- What a reader rejects ----

  lemma RecordRoundTrip(fs: seq<Field>, vs: seq<Value>)
    requires AllFit(fs, vs) && AllBounded(fs, vs)
    ensures DecodeRecord(fs, EncodeAll(fs, vs)) == Some(vs)
  {
    DecodeEncodeAll(fs, vs, []);
    assert EncodeAll(fs, vs) + [] == EncodeAll(fs, vs);
  }

  lemma RecordExact(fs: seq<Field>, b: Bytes)
    requires DecodeRecord(fs, b).Some?
    ensures var vs := DecodeRecord(fs, b).value;
            AllFit(fs, vs) && AllBounded(fs, vs) && b == EncodeAll(fs, vs)
  {
    DecodeAllExact(fs, b);
    var vs := DecodeRecord(fs, b).value;
    assert EncodeAll(fs, vs) + [] == EncodeAll(fs, vs);
  }

  /** No accepted record is a strict prefix of another: encodings are self-delimiting. */
  lemma RecordsArePrefixFree(fs: seq<Field>, b: Bytes, more: Bytes)
    requires more != []
    requires DecodeRecord(fs, b).Some?
    ensures DecodeRecord(fs, b + more).None?
  {
    RecordExact(fs, b);
    var vs := DecodeRecord(fs, b).value;
    DecodeEncodeAll(fs, vs, more);
  }

  /** Neither a strict prefix nor a strict extension of an encoding is accepted. */
  lemma NeighboursRejected(fs: seq<Field>, vs: seq<Value>, b: Bytes)
    requires AllFit(fs, vs) && AllBounded(fs, vs)
    requires b < EncodeAll(fs, vs) || EncodeAll(fs, vs) < b
    ensures DecodeRecord(fs, b).None?
  {
    var whole := EncodeAll(fs, vs);
    RecordRoundTrip(fs, vs);
    if whole < b {
      assert b == whole + b[|whole|..];
      RecordsArePrefixFree(fs, whole, b[|whole|..]);
    } else if DecodeRecord(fs, b).Some? {
      assert whole == b + whole[|b|..];
      RecordsArePrefixFree(fs, b, whole[|b|..]);
    }
  }

  // ---- Over-limit values: written, but never read back ----

  /** Texts and lists short enough that their 32-bit count is not truncated. */
  predicate Countable(f: Field, v: Value)
    requires Fits(f, v)
    decreases f, 0
  {
    match f
    case Word(_) => true
    case Text => |v.text| < U32_SPAN
    case Many(body) => |v.items| < U32_SPAN && forall i :: 0 <= i < |v.items| ==> AllCountable(body, v.items[i])
  }

  predicate AllCountable(fs: seq<Field>, vs: seq<Value>)
    requires AllFit(fs, vs)
    decreases fs, 1
  {
    forall i :: 0 <= i < |vs| ==> Countable(fs[i], vs[i])
  }

  /** Fields that always take at least one byte. */
  predicate Solid(f: Field)
    decreases f, 0
  {
    match f
    case Word(width) => width > 0
    case Text => true
    case Many(body) => body != [] && AllSolid(body)
  }

  predicate AllSolid(fs: seq<Field>)
    decreases fs, 1
  {
    forall i :: 0 <= i < |fs| ==> Solid(fs[i])
  }

  /** An encoding shorter than 2^32 bytes has no truncated count in it. */
  lemma {:induction false} SmallIsCountable(f: Field, v: Value)
    requires Fits(f, v) && Solid(f)
    ensures |Encode(f, v)| >= 1
    ensures |Encode(f, v)| < U32_SPAN ==> Countable(f, v)
    decreases f, 2, 0
  {
    if f.Many? { SmallItemsAreCountable(f.body, v.items); }
  }

  lemma {:induction false} SmallRecordIsCountable(fs: seq<Field>, vs: seq<Value>)
    requires AllFit(fs, vs) && AllSolid(fs)
    ensures |EncodeAll(fs, vs)| >= |fs|
    ensures |EncodeAll(fs, vs)| < U32_SPAN ==> AllCountable(fs, vs)
    decreases fs, 0, 0
  {
    if fs != [] {
      SmallIsCountable(fs[0], vs[0]);
      SmallRecordIsCountable(fs[1..], vs[1..]);
      if |EncodeAll(fs, vs)| < U32_SPAN {
        forall i | 0 <= i < |vs| ensures Countable(fs[i], vs[i]) {
          if i > 0 { assert vs[i] == vs[1..][i - 1] && fs[i] == fs[1..][i - 1]; }
        }
      }
    }
  }

  lemma {:induction false} SmallItemsAreCountable(fs: seq<Field>, items: seq<seq<Value>>)
    requires fs != [] && AllSolid(fs) && forall i :: 0 <= i < |items| ==> AllFit(fs, items[i])
    ensures |EncodeItems(fs, items)| >= |items|
    ensures |EncodeItems(fs, items)| < U32_SPAN ==> forall i :: 0 <= i < |items| ==> AllCountable(fs, items[i])
    decreases fs, 1, |items|
  {
    if items != [] {
      SmallRecordIsCountable(fs, items[0]);
      SmallItemsAreCountable(fs, items[1..]);
      if |EncodeItems(fs, items)| < U32_SPAN {
        forall i | 0 <= i < |items| ensures AllCountable(fs, items[i]) {
          if i > 0 { assert items[i] == items[1..][i - 1]; }
        }
      }
    }
  }

  lemma {:induction false} OverLimitRejected(f: Field, v: Value, rest: Bytes)
    requires Fits(f, v) && Countable(f, v) && !Bounded(f, v)
    ensures Decode(f, Encode(f, v) + rest).None?
    decreases f, 2, 0
  {
    var b := Encode(f, v) + rest;
    Spans();
    match f
    case Word(_) =>
    case Text =>
      ReadBack(|v.text|, 4);
      assert b[..4] == LittleEndian(|v.text|, 4);
    case Many(body) =>
      ReadBack(|v.items|, 4);
      assert b[..4] == LittleEndian(|v.items|, 4);
      assert b[4..] == EncodeItems(body, v.items) + rest;
      if |v.items| <= MAX_COUNT {
        OverLimitItemsRejected(body, v.items, rest);
      }
  }

  lemma {:induction false} OverLimitRecordRejected(fs: seq<Field>, vs: seq<Value>, rest: Bytes)
    requires AllFit(fs, vs) && AllCountable(fs, vs) && !AllBounded(fs, vs)
    ensures DecodeAll(fs, EncodeAll(fs, vs) + rest).None?
    decreases fs, 0, 0
  {
    var tail := EncodeAll(fs[1..], vs[1..]) + rest;
    assert EncodeAll(fs, vs) + rest == Encode(fs[0], vs[0]) + tail;
    if Bounded(fs[0], vs[0]) {
      DecodeEncode(fs[0], vs[0], tail);
      assert !AllBounded(fs[1..], vs[1..]) by {
        var i :| 0 <= i < |vs| && !Bounded(fs[i], vs[i]);
        assert vs[1..][i - 1] == vs[i];
      }
      OverLimitRecordRejected(fs[1..], vs[1..], rest);
    } else {
      OverLimitRejected(fs[0], vs[0], tail);
    }
  }

  lemma {:induction false} OverLimitItemsRejected(fs: seq<Field>, items: seq<seq<Value>>, rest: Bytes)
    requires forall i :: 0 <= i < |items| ==> AllFit(fs, items[i]) && AllCountable(fs, items[i])
    requires exists i :: 0 <= i < |items| && !AllBounded(fs, items[i])
    ensures DecodeItems(fs, |items|, EncodeItems(fs, items) + rest).None?
    decreases fs, 1, |items|
  {
    var tail := EncodeItems(fs, items[1..]) + rest;
    assert EncodeItems(fs, items) + rest == EncodeAll(fs, items[0]) + tail;
    if AllBounded(fs, items[0]) {
      DecodeEncodeAll(fs, items[0], tail);
      var i :| 0 <= i < |items| && !AllBounded(fs, items[i]);
      assert items[1..][i - 1] == items[i];
      OverLimitItemsRejected(fs, items[1..], rest);
    } else {
      OverLimitRecordRejected(fs, items[0], tail);
    }
  }

  /** A record reads back exactly when every text and count is within the reader's limits. */
  lemma ReadableIffBounded(fs: seq<Field>, vs: seq<Value>)
    requires AllFit(fs, vs) && AllCountable(fs, vs)
    ensures DecodeRecord(fs, EncodeAll(fs, vs)).Some? <==> AllBounded(fs, vs)
  {
    assert EncodeAll(fs, vs) + [] == EncodeAll(fs, vs);
    if AllBounded(fs, vs) {
      RecordRoundTrip(fs, vs);
    } else {
      OverLimitRecordRejected(fs, vs, []);
    }
  }
}
