/** How the peer's chunks matter: a record is parsed the same however it arrives unless the
    parser reads past it, and exactly when it then is. */
module ChunkProofs {
  import opened Bytes
  import opened Wire
  import opened PairProofs
  import opened StreamProofs

  // --------------------------------------------------- what the parser looks at

  predicate HasPairs(ty: byte) {
    ty == PARAMS || ty == GET_VALUES || ty == GET_VALUES_RESULT
  }

  /** The end of the cells the payload parser looks at: role and flags of a BEGIN_REQUEST,
      every pair that starts inside a record of pairs. */
  function Reach(t: LenTest, w: bytes, pos: nat): nat {
    var ty, rsz, q := At(w, pos + 1), RszAt(w, pos), pos + HEADER_LEN;
    if ty == BEGIN_REQUEST then q + 3
    else if HasPairs(ty) then q + Pairs(t, w, q, rsz).size
    else q + rsz
  }

  /** The parser stays inside the record. */
  predicate Contained(t: LenTest, w: bytes, pos: nat) {
    Reach(t, w, pos) <= pos + HEADER_LEN + RszAt(w, pos)
  }

  /** Whatever it looks at behind the record is zero, which is what `Bytes.At` makes of
      cells that were never written. The C buffer promises nothing about those. */
  ghost predicate Settled(t: LenTest, w: bytes, pos: nat) {
    forall i: nat :: pos + HEADER_LEN + RszAt(w, pos) <= i < Reach(t, w, pos) ==> At(w, i) == 0
  }

  lemma ReadAgrees(t: LenTest, m: bytes, w: bytes, q: nat)
    requires Agree(m, w, q, q + Kvp(t, w, q).size)
    ensures Kvp(t, m, q) == Kvp(t, w, q)
  {
    var k := LengthAt(t, w, q);
    var v := LengthAt(t, w, q + k.width);
    var hi := q + Kvp(t, w, q).size;
    LengthAgrees(t, m, w, q, q, hi);
    LengthAgrees(t, m, w, q + k.width, q, hi);
    SliceAgree(m, w, q, hi, q + k.width + v.width, k.value);
    SliceAgree(m, w, q, hi, q + k.width + v.width + k.value, v.value);
  }

  lemma LengthAgrees(t: LenTest, m: bytes, w: bytes, q: nat, lo: nat, hi: nat)
    requires Agree(m, w, lo, hi) && lo <= q && q + LengthAt(t, w, q).width <= hi
    ensures LengthAt(t, m, q) == LengthAt(t, w, q)
  {
  }

  /** Two readers that agree on every pair of the run give the same run. */
  lemma {:induction false} SameRun(a: nat -> PairRead, b: nat -> PairRead, q: nat, left: int)
    requires forall p: nat :: q <= p && p + b(p).size <= q + PairsBy(b, q, left).size ==> a(p) == b(p)
    ensures PairsBy(a, q, left) == PairsBy(b, q, left)
    decreases left
  {
    if left > 0 {
      SameRun(a, b, q + b(q).size, left - b(q).size);
    }
  }

  lemma RunAgrees(t: LenTest, m: bytes, w: bytes, q: nat, left: int)
    requires Agree(m, w, q, q + Pairs(t, w, q, left).size)
    ensures Pairs(t, m, q, left) == Pairs(t, w, q, left)
  {
    forall p: nat | q <= p && p + Kvp(t, w, p).size <= q + Pairs(t, w, q, left).size
      ensures Kvp(t, m, p) == Kvp(t, w, p)
    {
      ReadAgrees(t, m, w, p);
    }
    SameRun(ReaderOf(t, m), ReaderOf(t, w), q, left);
  }

  /** A payload depends on no cell outside its reach. */
  lemma PayloadAgrees(t: LenTest, m: bytes, w: bytes, pos: nat)
    requires KnownType(At(w, pos + 1))
    requires Agree(m, w, pos + HEADER_LEN, Reach(t, w, pos))
    ensures PayloadAt(t, m, pos + HEADER_LEN, At(w, pos + 1), RszAt(w, pos))
         == PayloadAt(t, w, pos + HEADER_LEN, At(w, pos + 1), RszAt(w, pos))
  {
    if HasPairs(At(w, pos + 1)) {
      RunAgrees(t, m, w, pos + HEADER_LEN, RszAt(w, pos));
    }
  }

  // ------------------------------------------------------------------- waiting

  /** Waiting moves bytes from the peer into the buffer and changes nothing else. */
  lemma {:induction false} FillKeeps(s: Input, need: nat)
    ensures Whole(Fill(s, need).input) == Whole(s)
    ensures s.eod <= Fill(s, need).input.eod
    ensures Fill(s, need).ok <==> s.pos + need <= |Whole(s)|
    ensures !Fill(s, need).ok ==> Fill(s, need).input.feed == []
    decreases |s.feed|
  {
    if s.Available() < need && s.feed != [] {
      var c := Consumed(s);
      assert s.mem[..s.eod] + (s.feed[0] + Flatten(s.feed[1..])) == c.mem[..c.eod] + Flatten(c.feed);
      FillKeeps(c, need);
    }
  }

  /** No cell behind the end of data has been written yet: so it is up to the first rewind. */
  predicate Unstale(s: Input) {
    |s.mem| == s.eod
  }

  lemma {:induction false} FillUnstale(s: Input, need: nat)
    requires Unstale(s)
    ensures Unstale(Fill(s, need).input)
    decreases |s.feed|
  {
    if s.Available() < need && s.feed != [] {
      FillUnstale(Consumed(s), need);
    }
  }

  lemma MovedWhole(s: Input, n: nat)
    ensures Whole(s.Moved(n)) == Whole(s)
  {
  }

  lemma PrefixAgrees(s: Input, lo: nat)
    ensures Agree(s.mem, Whole(s), lo, s.eod)
  {
    forall i: nat | lo <= i < s.eod ensures At(s.mem, i) == At(Whole(s), i) {
      assert Whole(s)[i] == s.mem[..s.eod][i];
    }
  }

  lemma HeaderAgrees(m: bytes, w: bytes, pos: nat)
    requires Agree(m, w, 0, pos + HEADER_LEN)
    ensures HeaderOk(m, pos) == HeaderOk(w, pos) && HeaderAt(m, pos) == HeaderAt(w, pos)
  {
  }

  lemma HeaderArrives(s: Input)
    ensures var head := Fill(s, HEADER_LEN);
            && (head.ok <==> s.pos + HEADER_LEN <= |Whole(s)|)
            && Whole(head.input) == Whole(s)
            && (head.ok ==> HeaderOk(head.input.mem, s.pos) == HeaderOk(Whole(s), s.pos)
                            && HeaderAt(head.input.mem, s.pos) == HeaderAt(Whole(s), s.pos))
  {
    var head := Fill(s, HEADER_LEN);
    FillKeeps(s, HEADER_LEN);
    if head.ok {
      PrefixAgrees(head.input, 0);
      HeaderAgrees(head.input.mem, Whole(s), s.pos);
    }
  }

  lemma PaddingWhole(s: Input, h: Header, content: Body, size: nat)
    ensures Whole(InputPadding(s, h, content, size).input) == Whole(s)
  {
    if size >= h.rsz {
      FillKeeps(s, h.psz);
    }
  }

  lemma BodyWhole(t: LenTest, s: Input, h: Header)
    requires KnownType(h.ty)
    ensures Whole(InputBody(t, s, h).input) == Whole(s)
  {
    FillKeeps(s, h.rsz);
    var body := Fill(s, h.rsz);
    if body.ok {
      match PayloadAt(t, body.input.mem, s.pos, h.ty, h.rsz)
      case Payload(content, size) => PaddingWhole(body.input.Moved(size), h, content, size);
      case _ =>
    }
  }

  /** Parsing loses no byte and makes none up, on any input. */
  lemma ParseWhole(t: LenTest, s: Input)
    ensures Whole(ParseInput(t, s).input) == Whole(s)
  {
    HeaderArrives(s);
    var head := Fill(s, HEADER_LEN);
    if head.ok && HeaderOk(head.input.mem, s.pos) {
      BodyWhole(t, head.input.Moved(HEADER_LEN), HeaderAt(head.input.mem, s.pos));
    }
  }

  lemma ParseUnstale(t: LenTest, s: Input)
    requires Unstale(s)
    ensures Unstale(ParseInput(t, s).input)
  {
    FillUnstale(s, HEADER_LEN);
    var head := Fill(s, HEADER_LEN);
    if head.ok && HeaderOk(head.input.mem, s.pos) {
      BodyUnstale(t, head.input.Moved(HEADER_LEN), HeaderAt(head.input.mem, s.pos));
    }
  }

  lemma BodyUnstale(t: LenTest, s: Input, h: Header)
    requires KnownType(h.ty) && Unstale(s)
    ensures Unstale(InputBody(t, s, h).input)
  {
    FillUnstale(s, h.rsz);
    var body := Fill(s, h.rsz);
    if body.ok {
      var payload := PayloadAt(t, body.input.mem, s.pos, h.ty, h.rsz);
      if payload.Payload? && payload.size >= h.rsz {
        FillUnstale(body.input.Moved(payload.size), h.psz);
      }
    }
  }

  // ------------------------------------------------------- one record in chunks

  /** Behind the payload all that counts is how much there is in all. */
  lemma PaddingArrives(s: Input, h: Header, content: Body, size: nat)
    requires size <= s.pos
    ensures InputPadding(s, h, content, size).parsed
         == Finished(Wire.Payload.Payload(content, size), |Whole(s)|, s.pos - size, h)
  {
    FillKeeps(s, h.psz);
  }

  /** A body is what its payload is where the wait for it ended. */
  lemma BodyArrives(t: LenTest, s: Input, h: Header)
    requires KnownType(h.ty)
    ensures var body := Fill(s, h.rsz);
            InputBody(t, s, h).parsed
            == if |Whole(s)| < s.pos + h.rsz then Bad(s.pos)
               else Finished(PayloadAt(t, body.input.mem, s.pos, h.ty, h.rsz), |Whole(s)|, s.pos, h)
  {
    FillKeeps(s, h.rsz);
    var body := Fill(s, h.rsz);
    if body.ok {
      match PayloadAt(t, body.input.mem, s.pos, h.ty, h.rsz)
      case Payload(content, size) =>
        MovedWhole(body.input, size);
        PaddingArrives(body.input.Moved(size), h, content, size);
      case _ =>
    }
  }

  function AfterHeader(s: Input): Input {
    Fill(s, HEADER_LEN).input.Moved(HEADER_LEN)
  }

  /** The header is what it is in the whole input; the rest is up to the body. */
  lemma HeaderParses(t: LenTest, s: Input)
    ensures Fill(s, HEADER_LEN).ok <==> s.pos + HEADER_LEN <= |Whole(s)|
    ensures Whole(AfterHeader(s)) == Whole(s) && AfterHeader(s).pos == s.pos + HEADER_LEN
    ensures ParseInput(t, s).parsed
         == if |Whole(s)| < s.pos + HEADER_LEN || !HeaderOk(Whole(s), s.pos) then Bad(s.pos)
            else InputBody(t, AfterHeader(s), HeaderAt(Whole(s), s.pos)).parsed
  {
    HeaderArrives(s);
    MovedWhole(Fill(s, HEADER_LEN).input, HEADER_LEN);
  }

  /** The buffer in which the payload of the next record is parsed, if all goes well. */
  function PayloadInput(s: Input): Input {
    Fill(AfterHeader(s), RszAt(Whole(s), s.pos)).input
  }

  /** A record parses as if all its bytes were there if the buffer its payload is parsed in
      agrees with all of the input as far as the parser looks. */
  lemma ParsedAsWhole(t: LenTest, s: Input)
    requires Agree(PayloadInput(s).mem, Whole(s), s.pos + HEADER_LEN, Reach(t, Whole(s), s.pos))
    ensures ParseInput(t, s).parsed == ParseOne(t, Whole(s), s.pos)
  {
    hide ParseInput, InputBody, AfterHeader, Reach, Agree;
    var w := Whole(s);
    HeaderParses(t, s);
    if s.pos + HEADER_LEN <= |w| && HeaderOk(w, s.pos) {
      BodyArrives(t, AfterHeader(s), HeaderAt(w, s.pos));
      PayloadAgrees(t, PayloadInput(s).mem, w, s.pos);
    }
  }

  lemma PayloadInputKeeps(s: Input)
    ensures Whole(PayloadInput(s)) == Whole(s)
    ensures s.pos + HEADER_LEN + RszAt(Whole(s), s.pos) <= |Whole(s)| ==>
              s.pos + HEADER_LEN + RszAt(Whole(s), s.pos) <= PayloadInput(s).eod
    ensures Unstale(s) ==> Unstale(PayloadInput(s))
  {
    HeaderParses(AsCoded, s);
    FillKeeps(AfterHeader(s), RszAt(Whole(s), s.pos));
    if Unstale(s) {
      FillUnstale(s, HEADER_LEN);
      FillUnstale(AfterHeader(s), RszAt(Whole(s), s.pos));
    }
  }

  /** However the bytes arrive, and whatever is left of earlier ones behind the end of
      data, a contained record parses as if all of them were there. */
  lemma ChunkIndependentOne(t: LenTest, s: Input)
    requires Contained(t, Whole(s), s.pos)
    ensures ParseInput(t, s).parsed == ParseOne(t, Whole(s), s.pos)
  {
    PayloadInputKeeps(s);
    if Fill(s, HEADER_LEN).ok && s.pos + HEADER_LEN + RszAt(Whole(s), s.pos) <= |Whole(s)| {
      PrefixAgrees(PayloadInput(s), s.pos + HEADER_LEN);
      ParsedAsWhole(t, s);
    } else {
      TooShort(t, s);
    }
  }

  lemma TooShort(t: LenTest, s: Input)
    requires !Fill(s, HEADER_LEN).ok || |Whole(s)| < s.pos + HEADER_LEN + RszAt(Whole(s), s.pos)
    ensures ParseInput(t, s).parsed == ParseOne(t, Whole(s), s.pos)
  {
    var w := Whole(s);
    HeaderParses(t, s);
    if s.pos + HEADER_LEN <= |w| && HeaderOk(w, s.pos) {
      BodyTooShort(t, AfterHeader(s), HeaderAt(w, s.pos));
    }
  }

  lemma BodyTooShort(t: LenTest, s: Input, h: Header)
    requires KnownType(h.ty) && |Whole(s)| < s.pos + h.rsz
    ensures InputBody(t, s, h).parsed == Bad(s.pos)
  {
    FillKeeps(s, h.rsz);
  }

  /** In a buffer never rewound the same holds as long as what lies behind the record is
      zero as far as the parser looks. */
  lemma SettledOne(t: LenTest, s: Input)
    requires Settled(t, Whole(s), s.pos) && Unstale(s)
    ensures ParseInput(t, s).parsed == ParseOne(t, Whole(s), s.pos)
  {
    PayloadInputKeeps(s);
    if Fill(s, HEADER_LEN).ok && s.pos + HEADER_LEN + RszAt(Whole(s), s.pos) <= |Whole(s)| {
      PrefixAgrees(PayloadInput(s), s.pos + HEADER_LEN);
      ParsedAsWhole(t, s);
    } else {
      TooShort(t, s);
    }
  }

  // ------------------------------------------------------------------ the limit

  /** The input in one chunk, and cut at the end of its first record. */
  function Once(w: bytes): Input {
    Buffered.Input([], 0, 0, [w])
  }

  function CutAt(w: bytes, n: nat): Input
    requires n <= |w|
  {
    Buffered.Input([], 0, 0, [w[..n], w[n..]])
  }

  function Cut(w: bytes): Input
    requires HEADER_LEN + RszAt(w, 0) <= |w|
  {
    CutAt(w, HEADER_LEN + RszAt(w, 0))
  }

  lemma OnceWhole(w: bytes)
    ensures Whole(Once(w)) == w
  {
    assert Flatten([w]) == w + Flatten([]) == w;
  }

  lemma CutWhole(w: bytes, n: nat)
    requires n <= |w|
    ensures Whole(CutAt(w, n)) == Flatten(CutAt(w, n).feed) == w
  {
    assert Flatten([w[n..]]) == w[n..] + Flatten([]) == w[n..];
    assert Flatten([w[..n], w[n..]]) == w[..n] + Flatten([w[n..]]) == w;
  }

  /** Cut behind its payload, or at its end, a record is parsed in a buffer that ends there. */
  lemma CutAtParses(t: LenTest, w: bytes, n: nat)
    requires HeaderOk(w, 0) && HEADER_LEN + RszAt(w, 0) <= n <= |w|
    ensures var h := HeaderAt(w, 0);
            ParseInput(t, CutAt(w, n)).parsed
            == Finished(PayloadAt(t, w[..n], HEADER_LEN, h.ty, h.rsz), |w|, HEADER_LEN, h)
  {
    hide ParseInput, InputBody, PayloadAt, AfterHeader, CutAt, Fill, Finished;
    var s, h := CutAt(w, n), HeaderAt(w, 0);
    CutWhole(w, n);
    HeaderParses(t, s);
    BodyArrives(t, AfterHeader(s), h);
    FirstChunkTaken(w, n);
  }

  lemma FirstChunkTaken(w: bytes, n: nat)
    requires HEADER_LEN + RszAt(w, 0) <= n <= |w|
    ensures var s := CutAt(w, n);
            AfterHeader(s).pos == HEADER_LEN && Fill(AfterHeader(s), RszAt(w, 0)).input.mem == w[..n]
  {
    var s := CutAt(w, n);
    var first := Consumed(s);
    assert first.mem == [] + w[..n] == w[..n];
    assert Fill(s, HEADER_LEN).input == Fill(first, HEADER_LEN).input == first;
  }

  lemma CutParses(t: LenTest, w: bytes)
    requires HeaderOk(w, 0) && HEADER_LEN + RszAt(w, 0) <= |w|
    ensures var h := HeaderAt(w, 0);
            ParseInput(t, Cut(w)).parsed
            == Finished(PayloadAt(t, w[..HEADER_LEN + h.rsz], HEADER_LEN, h.ty, h.rsz), |w|, HEADER_LEN, h)
  {
    CutAtParses(t, w, HEADER_LEN + RszAt(w, 0));
  }

  /** BEGIN_REQUEST, any size, any padding, anything behind it: every delivery gives what
      one chunk gives if and only if the record is refused anyway, for a size above eight
      or for lack of bytes, or the cells of role and flags behind its end are zero. */
  lemma BeginAnyChunksIff(w: bytes)
    requires HeaderOk(w, 0) && At(w, 1) == BEGIN_REQUEST && HEADER_LEN + RszAt(w, 0) <= |w|
    ensures (forall feed :: Flatten(feed) == w ==>
               ParseInput(AsCoded, Buffered.Input([], 0, 0, feed)).parsed == ParseOne(AsCoded, w, 0))
       <==> RszAt(w, 0) > 8 || |w| < 16 + At(w, 6) || Settled(AsCoded, w, 0)
  {
    if RszAt(w, 0) > 8 || |w| < 16 + At(w, 6) || Settled(AsCoded, w, 0) {
      forall feed | Flatten(feed) == w
        ensures ParseInput(AsCoded, Buffered.Input([], 0, 0, feed)).parsed == ParseOne(AsCoded, w, 0)
      {
        BeginArrives(w, feed);
      }
    } else {
      BeginCut(w);
    }
  }

  lemma BeginArrives(w: bytes, feed: seq<bytes>)
    requires HeaderOk(w, 0) && At(w, 1) == BEGIN_REQUEST && Flatten(feed) == w
    requires RszAt(w, 0) > 8 || |w| < 16 + At(w, 6) || Settled(AsCoded, w, 0)
    ensures ParseInput(AsCoded, Buffered.Input([], 0, 0, feed)).parsed == ParseOne(AsCoded, w, 0)
  {
    hide Settled, ParseInput, ParseOne;
    var s: Input := Buffered.Input([], 0, 0, feed);
    assert Whole(s) == w;
    if Settled(AsCoded, w, 0) {
      SettledOne(AsCoded, s);
    } else {
      BeginRefused(s);
    }
  }

  /** A BEGIN_REQUEST above eight bytes, or short of them, is refused with what it says unread. */
  lemma BeginRefused(s: Input)
    requires s.pos == 0 && HeaderOk(Whole(s), 0) && At(Whole(s), 1) == BEGIN_REQUEST
    requires RszAt(Whole(s), 0) > 8 || |Whole(s)| < 16 + At(Whole(s), 6)
    ensures ParseInput(AsCoded, s).parsed == ParseOne(AsCoded, Whole(s), 0)
  {
    hide ParseInput, InputBody, AfterHeader;
    HeaderParses(AsCoded, s);
    if HEADER_LEN <= |Whole(s)| {
      BodyArrives(AsCoded, AfterHeader(s), HeaderAt(Whole(s), 0));
    }
  }

  /** A short BEGIN_REQUEST loses in the cut what it had in one chunk. */
  lemma BeginCut(w: bytes)
    requires HeaderOk(w, 0) && At(w, 1) == BEGIN_REQUEST
    requires RszAt(w, 0) <= 8 && 16 + At(w, 6) <= |w| && !Settled(AsCoded, w, 0)
    ensures Flatten(Cut(w).feed) == w
    ensures ParseInput(AsCoded, Cut(w)).parsed != ParseOne(AsCoded, w, 0)
  {
    hide ParseInput, CutAt, Flatten;
    CutWhole(w, HEADER_LEN + RszAt(w, 0));
    CutParses(AsCoded, w);
    BeginCellsDiffer(w, HEADER_LEN + RszAt(w, 0));
  }

  lemma BeginCellsDiffer(w: bytes, end: nat)
    requires HEADER_LEN <= end <= |w| && exists i: nat :: end <= i < 11 && At(w, i) != 0
    ensures BeginBody(ShortOf(At(w[..end], 8), At(w[..end], 9)), At(w[..end], 10))
         != BeginBody(ShortOf(At(w, 8), At(w, 9)), At(w, 10))
  {
    var cut := w[..end];
    forall j: nat | 8 <= j < 11 ensures At(cut, j) == if j < end then At(w, j) else 0 {
    }
    assert end == 8 || end == 9 || end == 10;
  }

  /** Pairs: cut at the record's end, the same pairs are read if and only if what the last
      one covers behind the end is zero. */
  lemma SpillIff(w: bytes, q: nat, left: nat)
    requires q + left <= |w|
    ensures Pairs(AsCoded, w[..q + left], q, left) == Pairs(AsCoded, w, q, left)
       <==> forall i: nat :: q + left <= i < q + Pairs(AsCoded, w, q, left).size ==> At(w, i) == 0
  {
    var cut := w[..q + left];
    forall p: nat | q <= p < q + left
      ensures Kvp(AsCoded, cut, p) == Kvp(AsCoded, w, p)
         <==> forall i: nat :: q + left <= i < p + Kvp(AsCoded, w, p).size ==> At(w, i) == 0
      ensures Exact(Kvp(AsCoded, w, p)) && Exact(Kvp(AsCoded, cut, p))
    {
      ReadSpillIff(w, q + left, p);
    }
    RunSpillIff(ReaderOf(AsCoded, cut), ReaderOf(AsCoded, w), w, q + left, q, left);
  }

  /** One-byte lengths: the size of a pair is that of its two strings and two more. */
  predicate Exact(r: RawRead) {
    r.size == 2 + |r.pair.name| + |r.pair.value|
  }

  lemma ReadSpillIff(w: bytes, end: nat, p: nat)
    requires p < end <= |w|
    ensures Kvp(AsCoded, w[..end], p) == Kvp(AsCoded, w, p)
       <==> forall i: nat :: end <= i < p + Kvp(AsCoded, w, p).size ==> At(w, i) == 0
  {
    var cut, size := w[..end], Kvp(AsCoded, w, p).size;
    if forall i: nat :: end <= i < p + size ==> At(w, i) == 0 {
      ReadAgrees(AsCoded, cut, w, p);
    } else {
      var i: nat :| end <= i < p + size && At(w, i) != 0;
      assert At(cut, i) == 0;
      if Kvp(AsCoded, cut, p) == Kvp(AsCoded, w, p) {
        SameReadSameCells(cut, w, p, i);
      }
    }
  }

  /** Equal pairs come from equal cells. */
  lemma SameReadSameCells(m: bytes, w: bytes, p: nat, i: nat)
    requires Kvp(AsCoded, m, p) == Kvp(AsCoded, w, p) && p <= i < p + Kvp(AsCoded, w, p).size
    ensures At(m, i) == At(w, i)
  {
    var a, b := Kvp(AsCoded, m, p).pair, Kvp(AsCoded, w, p).pair;
    var k, v := |b.name|, |b.value|;
    assert k == At(w, p) == At(m, p) && v == At(w, p + 1) == At(m, p + 1);
    if p + 2 <= i < p + 2 + k {
      assert a.name[i - p - 2] == At(m, i) && b.name[i - p - 2] == At(w, i);
    } else if p + 2 + k <= i {
      assert a.value[i - p - 2 - k] == At(m, i) && b.value[i - p - 2 - k] == At(w, i);
    }
  }

  lemma {:induction false} RunSpillIff(a: nat -> PairRead, b: nat -> PairRead, w: bytes, end: nat, q: nat, left: nat)
    requires end == q + left
    requires forall p: nat :: q <= p < end ==>
               && Exact(a(p)) && Exact(b(p))
               && (a(p) == b(p) <==> forall i: nat :: end <= i < p + b(p).size ==> At(w, i) == 0)
    ensures PairsBy(a, q, left) == PairsBy(b, q, left)
       <==> forall i: nat :: end <= i < q + PairsBy(b, q, left).size ==> At(w, i) == 0
    decreases left
  {
    hide PairsBy, Exact, At;
    if left <= 0 {
      NoPairs(a, q, left);
      NoPairs(b, q, left);
    } else {
      var n := b(q).size;
      if n <= left {
        assert a(q) == b(q);
        SameHead(a, b, q, left);
        RunSpillIff(a, b, w, end, q + n, left - n);
      } else {
        LastPair(a, b, q, left);
      }
    }
  }

  lemma NoPairs(read: nat -> PairRead, q: nat, left: int)
    requires left <= 0
    ensures PairsBy(read, q, left) == PairRun([], 0)
  {
  }

  /** With the same first pair, the runs are the same if and only if the rests are. */
  lemma SameHead(a: nat -> PairRead, b: nat -> PairRead, q: nat, left: int)
    requires left > 0 && a(q) == b(q)
    ensures var n := b(q).size;
            && PairsBy(b, q, left).size == n + PairsBy(b, q + n, left - n).size
            && (PairsBy(a, q, left) == PairsBy(b, q, left) <==> PairsBy(a, q + n, left - n) == PairsBy(b, q + n, left - n))
  {
    var n := b(q).size;
    assert PairsBy(a, q, left).pairs[1..] == PairsBy(a, q + n, left - n).pairs;
    assert PairsBy(b, q, left).pairs[1..] == PairsBy(b, q + n, left - n).pairs;
  }

  /** The pair that ends a run makes it, and is seen in it. */
  lemma LastPair(a: nat -> PairRead, b: nat -> PairRead, q: nat, left: int)
    requires 0 < left < b(q).size && Exact(a(q)) && Exact(b(q))
    ensures PairsBy(b, q, left).size == b(q).size
    ensures PairsBy(a, q, left) == PairsBy(b, q, left) <==> a(q) == b(q)
  {
    assert PairsBy(b, q + b(q).size, left - b(q).size) == PairRun([], 0);
    assert PairsBy(a, q, left).pairs[0] == a(q).pair && PairsBy(b, q, left).pairs[0] == b(q).pair;
  }

  /** The table a record of pairs amounts to. */
  function TableBody(ty: byte, pairs: seq<Pair>): Body
    requires HasPairs(ty)
  {
    if ty == PARAMS then ParamsBody(ParamsMap(pairs))
    else if ty == GET_VALUES then ValuesBody(ValuesMap(pairs))
    else ResultBody(ValuesMap(pairs))
  }

  /** Read in a buffer that ends after `n` bytes, the pairs of a record take as much and,
      unless bytes are lacking, amount to the same table as with all bytes there. */
  ghost predicate SameTable(w: bytes, n: nat)
    requires HeaderOk(w, 0) && HasPairs(At(w, 1)) && n <= |w|
  {
    var part, all := Pairs(AsCoded, w[..n], HEADER_LEN, RszAt(w, 0)), Pairs(AsCoded, w, HEADER_LEN, RszAt(w, 0));
    part.size == all.size && (|w| < HEADER_LEN + all.size + At(w, 6)
                              || TableBody(At(w, 1), part.pairs) == TableBody(At(w, 1), all.pairs))
  }

  /** Cut anywhere behind its payload, a record of pairs gives what one chunk gives if and only
      if it does so in a buffer that ends there. */
  lemma PairsCutAtIff(w: bytes, n: nat)
    requires HeaderOk(w, 0) && HasPairs(At(w, 1)) && HEADER_LEN + RszAt(w, 0) <= n <= |w|
    ensures ParseInput(AsCoded, CutAt(w, n)).parsed == ParseOne(AsCoded, w, 0) <==> SameTable(w, n)
  {
    hide ParseInput, CutAt;
    CutAtParses(AsCoded, w, n);
  }

  /** A record of pairs gives the same under every delivery if and only if it does however much
      of what lies behind it has arrived when its pairs are read. */
  lemma PairsAnyDeliveryIff(w: bytes)
    requires HeaderOk(w, 0) && HasPairs(At(w, 1)) && HEADER_LEN + RszAt(w, 0) <= |w|
    ensures (forall feed :: Flatten(feed) == w ==>
               ParseInput(AsCoded, Buffered.Input([], 0, 0, feed)).parsed == ParseOne(AsCoded, w, 0))
       <==> forall n: nat :: HEADER_LEN + RszAt(w, 0) <= n <= |w| ==> SameTable(w, n)
  {
    hide ParseInput, ParseOne, SameTable, HeaderOk;
    if forall n: nat :: HEADER_LEN + RszAt(w, 0) <= n <= |w| ==> SameTable(w, n) {
      forall feed | Flatten(feed) == w
        ensures ParseInput(AsCoded, Buffered.Input([], 0, 0, feed)).parsed == ParseOne(AsCoded, w, 0)
      {
        PairsArrive(w, feed);
      }
    } else {
      var n: nat :| HEADER_LEN + RszAt(w, 0) <= n <= |w| && !SameTable(w, n);
      CutWhole(w, n);
      PairsCutAtIff(w, n);
      assert CutAt(w, n) == Buffered.Input([], 0, 0, CutAt(w, n).feed);
    }
  }

  lemma PairsArrive(w: bytes, feed: seq<bytes>)
    requires HeaderOk(w, 0) && HasPairs(At(w, 1)) && HEADER_LEN + RszAt(w, 0) <= |w| && Flatten(feed) == w
    requires forall n: nat :: HEADER_LEN + RszAt(w, 0) <= n <= |w| ==> SameTable(w, n)
    ensures ParseInput(AsCoded, Buffered.Input([], 0, 0, feed)).parsed == ParseOne(AsCoded, w, 0)
  {
    hide ParseInput, SameTable, ParseOne, CutAt, HeaderOk;
    var n := ArrivesCut(AsCoded, w, feed);
    PairsCutAtIff(w, n);
  }

  /** A delivery parses a record as one that is cut where the buffer ended does. */
  lemma ArrivesCut(t: LenTest, w: bytes, feed: seq<bytes>) returns (n: nat)
    requires HeaderOk(w, 0) && HEADER_LEN + RszAt(w, 0) <= |w| && Flatten(feed) == w
    ensures HEADER_LEN + RszAt(w, 0) <= n <= |w|
    ensures ParseInput(t, Buffered.Input([], 0, 0, feed)).parsed == ParseInput(t, CutAt(w, n)).parsed
  {
    hide ParseInput, InputBody, PayloadAt, AfterHeader, Fill, Finished, CutAt, Flatten;
    var s: Input := Buffered.Input([], 0, 0, feed);
    assert Whole(s) == w;
    PayloadInputKeeps(s);
    n := PayloadInput(s).eod;
    BufferEnds(PayloadInput(s));
    HeaderParses(t, s);
    BodyArrives(t, AfterHeader(s), HeaderAt(w, 0));
    CutAtParses(t, w, n);
  }

  lemma BufferEnds(s: Input)
    requires Unstale(s)
    ensures s.eod <= |Whole(s)| && s.mem == Whole(s)[..s.eod]
  {
  }

  /** And the pairs read, whatever table they amount to, are the same however much has arrived
      if and only if what the last one covers behind the record is zero. */
  lemma PairsAlwaysIff(w: bytes, q: nat, left: nat)
    requires q + left <= |w|
    ensures (forall n: nat :: q + left <= n <= |w| ==> Pairs(AsCoded, w[..n], q, left) == Pairs(AsCoded, w, q, left))
       <==> forall i: nat :: q + left <= i < q + Pairs(AsCoded, w, q, left).size ==> At(w, i) == 0
  {
    hide Pairs;
    SpillIff(w, q, left);
    if forall i: nat :: q + left <= i < q + Pairs(AsCoded, w, q, left).size ==> At(w, i) == 0 {
      forall n: nat | q + left <= n <= |w| ensures Pairs(AsCoded, w[..n], q, left) == Pairs(AsCoded, w, q, left) {
        RunAgrees(AsCoded, w[..n], w, q, left);
      }
    }
  }

  /** Every delivery of a record of pairs gives what one chunk gives if nothing but zero
      lies where its last pair runs past it. */
  lemma PairsAnyChunks(w: bytes, feed: seq<bytes>)
    requires HasPairs(At(w, 1)) && Flatten(feed) == w
    requires var past := HEADER_LEN + Pairs(AsCoded, w, HEADER_LEN, RszAt(w, 0)).size;
             forall i: nat :: HEADER_LEN + RszAt(w, 0) <= i < past ==> At(w, i) == 0
    ensures ParseInput(AsCoded, Buffered.Input([], 0, 0, feed)).parsed == ParseOne(AsCoded, w, 0)
  {
    hide ParseInput, ParseOne, Flatten;
    var s: Input := Buffered.Input([], 0, 0, feed);
    assert Whole(s) == w;
    SettledOne(AsCoded, s);
  }

  /** A PARAMS record of two bytes whose pair has a name of one more. */
  const SPILLING: bytes := [VERSION, PARAMS, 0, 1, 0, 2, 0, 0, 1, 0, 0x41]

  /** In one chunk its name is the byte behind the record, cut it is the byte zero. */
  lemma SpillDependsOnChunks()
    ensures ParseInput(AsCoded, Once(SPILLING)).parsed == Good(Record(1, 2, 0, ParamsBody(map[[0x41] := []])), 11)
    ensures ParseInput(AsCoded, Cut(SPILLING)).parsed == Good(Record(1, 2, 0, ParamsBody(map[[0] := []])), 11)
  {
    var w := SPILLING;
    assert HeaderAt(w, 0) == Header(PARAMS, 1, 2, 0);
    SpillRead(w, 0x41);
    SpillRead(w[..10], 0);
    CutParses(AsCoded, w);
    OnceWhole(w);
    var s := Once(w);
    HeaderArrives(s);
    var all := Consumed(s);
    assert Fill(s, HEADER_LEN).input == Fill(all, HEADER_LEN).input == all;
    MovedWhole(all, HEADER_LEN);
    assert Fill(all.Moved(HEADER_LEN), 2).input == all.Moved(HEADER_LEN);
    BodyArrives(AsCoded, all.Moved(HEADER_LEN), HeaderAt(w, 0));
  }

  lemma SpillRead(w: bytes, name: byte)
    requires At(w, 8) == 1 && At(w, 9) == 0 && At(w, 10) == name
    ensures Pairs(AsCoded, w, 8, 2) == PairRun([Pair([name], [])], 3)
    ensures ParamsMap([Pair([name], [])]) == map[[name] := []]
  {
    assert Slice(w, 10, 1) == [name] && Slice(w, 11, 0) == [];
    assert Kvp(AsCoded, w, 8) == KvpRead(Pair([name], []), 3);
    assert PairsBy(ReaderOf(AsCoded, w), 11, -1) == PairRun([], 0);
    assert [Pair([name], [])][..0] == [];
    assert ParamsMap([Pair([name], [])][..0]) == map[];
  }

  // -------------------------------------------------------------- whole input

  /** `mnfcgi_parse` in a loop, until it fails. */
  function DrainInput(t: LenTest, s: Input): Drained
    decreases Left(s)
  {
    var step := ParseInput(t, s);
    if !step.parsed.Good? then Drained([], step.parsed)
    else
      ParseShrinks(t, s);
      var rest := DrainInput(t, step.input);
      Drained([step.parsed.rec] + rest.records, rest.end)
  }

  lemma DrainCons(t: LenTest, s: Input)
    requires ParseInput(t, s).parsed.Good?
    ensures DrainInput(t, s).records == [ParseInput(t, s).parsed.rec] + DrainInput(t, ParseInput(t, s).input).records
  {
  }

  ghost function Left(s: Input): int {
    s.eod + |Flatten(s.feed)| - s.pos
  }

  lemma {:induction false} FillLeft(s: Input, need: nat)
    ensures Left(Fill(s, need).input) == Left(s)
    decreases |s.feed|
  {
    if s.Available() < need && s.feed != [] {
      FillLeft(Consumed(s), need);
    }
  }

  lemma BodyShrinks(t: LenTest, s: Input, h: Header)
    requires KnownType(h.ty) && InputBody(t, s, h).parsed.Good?
    ensures var r := InputBody(t, s, h); Left(r.input) <= Left(s) - r.parsed.rec.rsz - r.parsed.rec.psz
    ensures InputBody(t, s, h).input.pos <= InputBody(t, s, h).input.eod
  {
    FillLeft(s, h.rsz);
    var body := Fill(s, h.rsz).input;
    var payload := PayloadAt(t, body.mem, s.pos, h.ty, h.rsz);
    FillLeft(body.Moved(payload.size), h.psz);
  }

  /** A successful parse uses up at least the header, the declared size and the padding of
      what is left, and never more than there is. */
  lemma ParseShrinks(t: LenTest, s: Input)
    requires ParseInput(t, s).parsed.Good?
    ensures var r := ParseInput(t, s);
            && 0 <= Left(r.input) <= Left(s) - HEADER_LEN - r.parsed.rec.rsz - r.parsed.rec.psz
            && r.input.pos <= r.input.eod
  {
    FillLeft(s, HEADER_LEN);
    var head := Fill(s, HEADER_LEN).input;
    BodyShrinks(t, head.Moved(HEADER_LEN), HeaderAt(head.mem, s.pos));
  }

  /** Every record the parser reaches in `w` is contained, or settled. */
  ghost predicate AllContained(t: LenTest, w: bytes, pos: nat)
    decreases |w| - pos
  {
    && Contained(t, w, pos)
    && (ParseOne(t, w, pos).Good? ==> AllContained(t, w, ParseOne(t, w, pos).next))
  }

  ghost predicate AllSettled(t: LenTest, w: bytes, pos: nat)
    decreases |w| - pos
  {
    && Settled(t, w, pos)
    && (ParseOne(t, w, pos).Good? ==> AllSettled(t, w, ParseOne(t, w, pos).next))
  }

  /** Chunk independence of the whole connection input: the records, the point where
      parsing stops and the reason do not depend on how the bytes are delivered, as long as
      the parser stays inside the records or finds nothing but zero behind them. */
  lemma {:induction false} ChunkIndependent(t: LenTest, s: Input)
    requires Unstale(s) && AllSettled(t, Whole(s), s.pos)
    ensures DrainInput(t, s) == ParseAll(t, Whole(s), s.pos)
    decreases Left(s)
  {
    SettledOne(t, s);
    ParseWhole(t, s);
    ParseUnstale(t, s);
    var step := ParseInput(t, s);
    if step.parsed.Good? {
      ParseShrinks(t, s);
      ChunkIndependent(t, step.input);
    }
  }

  lemma {:induction false} ContainedSettled(t: LenTest, w: bytes, pos: nat)
    requires AllContained(t, w, pos)
    ensures AllSettled(t, w, pos)
    decreases |w| - pos
  {
    if ParseOne(t, w, pos).Good? {
      ContainedSettled(t, w, ParseOne(t, w, pos).next);
    }
  }

  lemma ItemContained(t: LenTest, w: bytes, pos: nat, item: Item)
    requires item.WellFormed(t) && Holds(w, pos, Layout(item))
    ensures Contained(t, w, pos)
  {
    LayoutHolds(w, pos, item);
    PayloadBack(t, w, pos + HEADER_LEN, item);
  }

  lemma ContainedAtEnd(t: LenTest, w: bytes)
    ensures AllContained(t, w, |w|)
  {
  }

  lemma FirstContained(t: LenTest, w: bytes, pos: nat, items: seq<Item>)
    requires items != [] && AllWellFormed(t, items) && Holds(w, pos, LayoutAll(items))
    requires AllContained(t, w, pos + |Layout(items[0])|)
    ensures AllContained(t, w, pos)
  {
    hide Contained, ParseOne, Layout, LayoutAll, Holds, Expected;
    FirstItem(t, w, pos, items);
    ItemContained(t, w, pos, items[0]);
    ItemBack(t, w, pos, items[0]);
  }

  /** Well-formed records are all contained. */
  lemma {:induction false} LaidOutContained(t: LenTest, w: bytes, pos: nat, items: seq<Item>)
    requires AllWellFormed(t, items)
    requires pos + |LayoutAll(items)| == |w| && Holds(w, pos, LayoutAll(items))
    ensures AllContained(t, w, pos)
    decreases |items|
  {
    hide AllContained, Layout, Holds;
    if items == [] {
      ContainedAtEnd(t, w);
    } else {
      FirstItem(t, w, pos, items);
      LaidOutContained(t, w, pos + |Layout(items[0])|, items[1..]);
      FirstContained(t, w, pos, items);
    }
  }

  /** However a client's well-formed records are cut into chunks, the parser returns
      exactly those records and stops at the end of the input. */
  lemma StreamArrives(t: LenTest, feed: seq<bytes>, items: seq<Item>)
    requires AllWellFormed(t, items) && Flatten(feed) == LayoutAll(items)
    ensures DrainInput(t, Buffered.Input([], 0, 0, feed)) == Drained(ExpectedAll(items, 0), Bad(|LayoutAll(items)|))
  {
    hide LayoutAll, ExpectedAll, AllSettled, AllContained, ParseAll, Flatten, AllWellFormed, DrainInput;
    var s: Input := Buffered.Input([], 0, 0, feed);
    var w := LayoutAll(items);
    assert Whole(s) == w && w[0..|w|] == w;
    LaidOutContained(t, w, 0, items);
    ContainedSettled(t, w, 0);
    ChunkIndependent(t, s);
    StreamRoundTrip(t, w, 0, items);
  }
}
