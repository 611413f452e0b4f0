/** Name-value pairs: what comes back when rendered pairs are parsed, under the
    length test the code has and under the one section 3.4 has. */
module PairProofs {
  import opened Bytes
  import opened Wire

  /** A length with one byte below `limit` and four from there on: 0x7f is the
      renderer's limit, 0x80 the one of section 3.4. */
  function EncodeLength(limit: nat, n: nat): bytes
    requires limit <= 0x80
  {
    if n < limit then [n] else Int4(Set31(n % 0x1_0000_0000))
  }

  function EncodePair(limit: nat, p: Pair): bytes
    requires limit <= 0x80
  {
    EncodeLength(limit, |p.name|) + EncodeLength(limit, |p.value|) + p.name + p.value
  }

  function EncodePairs(limit: nat, ps: seq<Pair>): bytes
    requires limit <= 0x80
  {
    if ps == [] then [] else EncodePair(limit, ps[0]) + EncodePairs(limit, ps[1..])
  }

  ghost predicate Encodable(ps: seq<Pair>) {
    forall p <- ps :: |p.name| < 0x8000_0000 && |p.value| < 0x8000_0000
  }

  ghost predicate AllShort(limit: nat, ps: seq<Pair>) {
    forall p <- ps :: |p.name| < limit && |p.value| < limit
  }

  lemma LongBack(m: bytes, q: nat, v: u32)
    requires 0x8000_0000 <= v && Holds(m, q, Int4(v))
    ensures Int4Of(At(m, q), At(m, q + 1), At(m, q + 2), At(m, q + 3)) == v && At(m, q) >= 0x80
  {
    Int4Back(v);
    HoldsAt(m, q, Int4(v), 0);
    HoldsAt(m, q, Int4(v), 1);
    HoldsAt(m, q, Int4(v), 2);
    HoldsAt(m, q, Int4(v), 3);
  }

  /** The 31-bit mask undoes the high bit the four-byte form sets. */
  lemma LengthBack(t: LenTest, limit: nat, m: bytes, q: nat, n: nat)
    requires limit <= 0x80 && n < 0x8000_0000 && Holds(m, q, EncodeLength(limit, n))
    requires t.HighBit? || n < limit
    ensures LengthAt(t, m, q) == Length(n, |EncodeLength(limit, n)|)
  {
    if n < limit {
      HoldsAt(m, q, [n], 0);
    } else {
      LongBack(m, q, Set31(n));
      assert Mask31(Set31(n)) == n;
    }
  }

  lemma PairHolds(limit: nat, m: bytes, q: nat, p: Pair)
    requires limit <= 0x80 && Holds(m, q, EncodePair(limit, p))
    ensures var k, v := EncodeLength(limit, |p.name|), EncodeLength(limit, |p.value|);
            && Holds(m, q, k) && Holds(m, q + |k|, v)
            && Slice(m, q + |k| + |v|, |p.name|) == p.name
            && Slice(m, q + |k| + |v| + |p.name|, |p.value|) == p.value
            && |EncodePair(limit, p)| == |k| + |v| + |p.name| + |p.value|
  {
    var k, v := EncodeLength(limit, |p.name|), EncodeLength(limit, |p.value|);
    HoldsSplit(m, q, k + v + p.name, p.value);
    HoldsSplit(m, q, k + v, p.name);
    HoldsSplit(m, q, k, v);
    HoldsSlice(m, q + |k + v|, p.name);
    HoldsSlice(m, q + |k + v + p.name|, p.value);
  }

  lemma PairBack(t: LenTest, limit: nat, m: bytes, q: nat, p: Pair)
    requires limit <= 0x80 && |p.name| < 0x8000_0000 && |p.value| < 0x8000_0000
    requires t.HighBit? || (|p.name| < limit && |p.value| < limit)
    requires Holds(m, q, EncodePair(limit, p))
    ensures Kvp(t, m, q) == KvpRead(p, |EncodePair(limit, p)|)
  {
    PairHolds(limit, m, q, p);
    LengthBack(t, limit, m, q, |p.name|);
    LengthBack(t, limit, m, q + |EncodeLength(limit, |p.name|)|, |p.value|);
  }

  /** The pairs a length test can read: four-byte lengths need the high bit. */
  ghost predicate Readable(t: LenTest, limit: nat, p: Pair) {
    |p.name| < 0x8000_0000 && |p.value| < 0x8000_0000 && (t.HighBit? || (|p.name| < limit && |p.value| < limit))
  }

  /** A reader that returns every readable pair encoded in `m`. */
  ghost predicate ReadsPairs(read: nat -> PairRead, t: LenTest, limit: nat, m: bytes)
    requires limit <= 0x80
  {
    forall p: Pair, q: nat :: Readable(t, limit, p) && Holds(m, q, EncodePair(limit, p)) ==>
      read(q) == KvpRead(p, |EncodePair(limit, p)|)
  }

  lemma ParserReadsPairs(t: LenTest, limit: nat, m: bytes)
    requires limit <= 0x80
    ensures ReadsPairs(ReaderOf(t, m), t, limit, m)
  {
    forall p: Pair, q: nat | Readable(t, limit, p) && Holds(m, q, EncodePair(limit, p))
      ensures Kvp(t, m, q) == KvpRead(p, |EncodePair(limit, p)|)
    {
      PairBack(t, limit, m, q, p);
    }
  }

  lemma {:induction false} RunBack(read: nat -> PairRead, t: LenTest, limit: nat, m: bytes, q: nat, ps: seq<Pair>)
    requires limit <= 0x80 && ReadsPairs(read, t, limit, m) && Holds(m, q, EncodePairs(limit, ps))
    requires forall p <- ps :: Readable(t, limit, p)
    ensures PairsBy(read, q, |EncodePairs(limit, ps)|) == PairRun(ps, |EncodePairs(limit, ps)|)
    decreases |ps|
  {
    hide EncodePair, Holds, ReadsPairs, Readable;
    if ps != [] {
      var first := EncodePair(limit, ps[0]);
      FirstPair(read, t, limit, m, q, ps);
      RunBack(read, t, limit, m, q + |first|, ps[1..]);
      RunBackCons(read, limit, q, ps);
    }
  }

  lemma FirstPair(read: nat -> PairRead, t: LenTest, limit: nat, m: bytes, q: nat, ps: seq<Pair>)
    requires limit <= 0x80 && ReadsPairs(read, t, limit, m) && ps != [] && Holds(m, q, EncodePairs(limit, ps))
    requires Readable(t, limit, ps[0])
    ensures read(q) == KvpRead(ps[0], |EncodePair(limit, ps[0])|)
    ensures Holds(m, q + |EncodePair(limit, ps[0])|, EncodePairs(limit, ps[1..]))
  {
    hide EncodePair, Readable, Holds;
    HoldsSplit(m, q, EncodePair(limit, ps[0]), EncodePairs(limit, ps[1..]));
  }

  /** The first pair and the run of the others. */
  lemma RunBackCons(read: nat -> PairRead, limit: nat, q: nat, ps: seq<Pair>)
    requires limit <= 0x80 && ps != [] && read(q) == KvpRead(ps[0], |EncodePair(limit, ps[0])|)
    requires var left := |EncodePairs(limit, ps[1..])|;
             PairsBy(read, q + |EncodePair(limit, ps[0])|, left) == PairRun(ps[1..], left)
    ensures PairsBy(read, q, |EncodePairs(limit, ps)|) == PairRun(ps, |EncodePairs(limit, ps)|)
  {
    hide EncodePair;
    assert [ps[0]] + ps[1..] == ps;
  }

  /** Section 3.4 lengths round-trip for every length below 2^31; the test as coded
      does while every length takes one byte. */
  lemma PairsBack(t: LenTest, limit: nat, m: bytes, q: nat, ps: seq<Pair>)
    requires limit <= 0x80 && Encodable(ps) && Holds(m, q, EncodePairs(limit, ps))
    requires t.HighBit? || AllShort(limit, ps)
    ensures Pairs(t, m, q, |EncodePairs(limit, ps)|) == PairRun(ps, |EncodePairs(limit, ps)|)
  {
    ParserReadsPairs(t, limit, m);
    RunBack(ReaderOf(t, m), t, limit, m, q, ps);
  }

  /** The bytes a list of pairs takes when every length has one byte. */
  function ShortSize(ps: seq<Pair>): nat {
    if ps == [] then 0 else 2 + |ps[0].name| + |ps[0].value| + ShortSize(ps[1..])
  }

  lemma {:induction false} RunSize(read: nat -> PairRead, q: nat, left: int)
    requires forall p: nat :: read(p).size == 2 + |read(p).pair.name| + |read(p).pair.value|
    ensures PairsBy(read, q, left).size == ShortSize(PairsBy(read, q, left).pairs)
    decreases left
  {
    if left > 0 {
      var kvp := read(q);
      RunSize(read, q + kvp.size, left - kvp.size);
      var run := PairsBy(read, q, left);
      assert run.pairs[1..] == PairsBy(read, q + kvp.size, left - kvp.size).pairs;
    }
  }

  lemma CodedSize(m: bytes, q: nat, left: int)
    ensures Pairs(AsCoded, m, q, left).size == ShortSize(Pairs(AsCoded, m, q, left).pairs)
  {
    RunSize(ReaderOf(AsCoded, m), q, left);
  }

  lemma {:induction false} EncodedSize(limit: nat, ps: seq<Pair>)
    requires limit <= 0x80
    ensures |EncodePairs(limit, ps)| >= ShortSize(ps)
    ensures |EncodePairs(limit, ps)| == ShortSize(ps) <==> AllShort(limit, ps)
  {
    if ps != [] {
      EncodedSize(limit, ps[1..]);
      assert AllShort(limit, ps) <==> AllShort(limit, [ps[0]]) && AllShort(limit, ps[1..]) by {
        assert ps == [ps[0]] + ps[1..];
      }
    }
  }

  /** The exact domain of the code as written: a rendered list of pairs is parsed
      back, to the byte, if and only if every name and value is shorter than 0x7f. */
  lemma CodedRoundTrip(m: bytes, q: nat, ps: seq<Pair>)
    requires Encodable(ps) && Holds(m, q, EncodePairs(0x7f, ps))
    ensures Pairs(AsCoded, m, q, |EncodePairs(0x7f, ps)|) == PairRun(ps, |EncodePairs(0x7f, ps)|)
       <==> AllShort(0x7f, ps)
  {
    var size := |EncodePairs(0x7f, ps)|;
    if AllShort(0x7f, ps) {
      PairsBack(AsCoded, 0x7f, m, q, ps);
    } else {
      CodedSize(m, q, size);
      EncodedSize(0x7f, ps);
    }
  }

  /** A name of 127 bytes is already lost. */
  lemma LongNameLost()
    ensures var p := Pair(seq<byte>(0x7f, (i: nat) => 0x61), []);
            var s := EncodePairs(0x7f, [p]);
            Pairs(AsCoded, s, 0, |s|).pairs != [p]
  {
    var p := Pair(seq<byte>(0x7f, (i: nat) => 0x61), []);
    var s := EncodePairs(0x7f, [p]);
    assert s[..] == s;
    assert Holds(s, 0, s);
    CodedSize(s, 0, |s|);
    EncodedSize(0x7f, [p]);
    assert p in [p] && !AllShort(0x7f, [p]);
  }

  /** The renderer's pair bytes are the encoding with the limit 0x7f. */
  lemma {:induction false} RenderedPairs(values: seq<(bytes, Option<bytes>)>, start: nat)
    ensures RenderValues(values, start).data == EncodePairs(0x7f, Present(values))
    ensures Present(values) == [] ==> RenderValues(values, start).ret == 0
    ensures Present(values) != [] ==>
              RenderValues(values, start).ret >= start + |RenderValues(values, start).data|
  {
    if values != [] {
      match values[0].1
      case None => RenderedPairs(values[1..], start);
      case Some(v) =>
        var p := Pair(values[0].0, v);
        RenderedPairs(values[1..], start + |RenderPair(p.name, v)|);
        assert ([p] + Present(values[1..]))[1..] == Present(values[1..]);
    }
  }

  /** The pairs with a value, the only ones rendered. */
  function Present(values: seq<(bytes, Option<bytes>)>): seq<Pair> {
    if values == [] then []
    else match values[0].1
         case None => Present(values[1..])
         case Some(v) => [Pair(values[0].0, v)] + Present(values[1..])
  }

  /** GET_VALUES_RESULT as coded: because the pair renderer returns an absolute
      position, the length assertion holds if and only if no pair is rendered. The
      declared length exceeds the real one, so without assertions the frame is wrong. */
  lemma ResultRendersIffEmpty(rec: OutRecord, eod: nat)
    requires rec.ResultOut? || rec.ValuesOut?
    ensures RenderOutcome(PayloadOf(rec, eod + HEADER_LEN)).Rendered? <==> Present(rec.values) == []
    ensures RenderOutcome(PayloadOf(rec, eod + HEADER_LEN)).AssertionFailed? <==> Present(rec.values) != []
    ensures Present(rec.values) != [] ==>
              PayloadOf(rec, eod + HEADER_LEN).ret > |EncodePairs(0x7f, Present(rec.values))|
  {
    RenderedPairs(rec.values, eod + HEADER_LEN);
  }

  lemma MapsSnoc(ps: seq<Pair>, p: Pair)
    ensures ParamsMap(ps + [p]) == ParamsMap(ps)[p.name := p.value]
    ensures ValuesMap(ps + [p]) == if p.name == [] then ValuesMap(ps)
              else ValuesMap(ps)[p.name := if p.value == [] then None else Some(p.value)]
  {
    assert (ps + [p])[..|ps|] == ps;
  }

  /** Last pair of a name wins. */
  lemma {:induction false} LastWins(ps: seq<Pair>, i: nat)
    requires i < |ps| && forall j :: i < j < |ps| ==> ps[j].name != ps[i].name
    ensures ps[i].name in ParamsMap(ps) && ParamsMap(ps)[ps[i].name] == ps[i].value
  {
    var n := |ps| - 1;
    if i < n {
      LastWins(ps[..n], i);
    }
  }

  lemma {:induction false} OnlyNamed(ps: seq<Pair>, name: bytes)
    requires name in ParamsMap(ps)
    ensures exists i :: 0 <= i < |ps| && ps[i].name == name
  {
    var n := |ps| - 1;
    if ps[n].name != name {
      OnlyNamed(ps[..n], name);
      var i :| 0 <= i < n && ps[..n][i].name == name;
      assert ps[i].name == name;
    }
  }

  /** A query asks for exactly the names that are not empty. */
  lemma {:induction false} NamesAsked(ps: seq<Pair>, name: bytes)
    ensures name in ValuesMap(ps) <==> name != [] && exists i :: 0 <= i < |ps| && ps[i].name == name
  {
    if ps != [] {
      var n := |ps| - 1;
      NamesAsked(ps[..n], name);
      assert forall i :: 0 <= i < n ==> ps[..n][i] == ps[i];
      assert (exists i :: 0 <= i < |ps| && ps[i].name == name)
          <==> ps[n].name == name || exists i :: 0 <= i < n && ps[..n][i].name == name;
    }
  }

  /** Of several pairs with a name the last one decides, an empty value being none. */
  lemma {:induction false} ValueAsked(ps: seq<Pair>, i: nat)
    requires i < |ps| && ps[i].name != [] && forall j :: i < j < |ps| ==> ps[j].name != ps[i].name
    ensures ps[i].name in ValuesMap(ps)
    ensures ValuesMap(ps)[ps[i].name] == if ps[i].value == [] then None else Some(ps[i].value)
  {
    var n := |ps| - 1;
    if i < n {
      ValueAsked(ps[..n], i);
    }
  }
}
