/** What a rewind of the shared input costs: as long as none drops unread bytes everything
    the client sent is dispatched, and only then. */
module DeliveryProofs {
  import opened Bytes
  import opened Wire
  import opened Engine
  import opened ChunkProofs
  import opened Sessions
  import opened SessionProofs
  import S = StreamProofs

  /** The events of an input of which every byte is there, without their positions. */
  function Contents(t: LenTest, w: bytes, pos: nat): seq<Event>
    decreases |w| - pos
  {
    var one := ParseOne(t, w, pos);
    if !one.Good? then [] else [Fixed(EventAt(w, one.rec))] + Contents(t, w, one.next)
  }

  // ------------------------------------------- parsing does not depend on where

  lemma SliceShift(w: bytes, n: nat, q: nat, k: nat)
    requires n <= |w|
    ensures Slice(w[n..], q, k) == Slice(w, n + q, k)
  {
    forall i: nat | i < k ensures Slice(w[n..], q, k)[i] == Slice(w, n + q, k)[i] {
      AtShift(w, n, q + i);
    }
  }

  lemma AtShift(w: bytes, n: nat, i: nat)
    requires n <= |w|
    ensures At(w[n..], i) == At(w, n + i)
  {
  }

  lemma LengthShift(t: LenTest, w: bytes, n: nat, q: nat)
    requires n <= |w|
    ensures LengthAt(t, w[n..], q) == LengthAt(t, w, n + q)
  {
  }

  lemma ReadShift(t: LenTest, w: bytes, n: nat, q: nat)
    requires n <= |w|
    ensures Kvp(t, w[n..], q) == Kvp(t, w, n + q)
  {
    hide LengthAt, Slice;
    LengthShift(t, w, n, q);
    var k := LengthAt(t, w, n + q);
    LengthShift(t, w, n, q + k.width);
    var v := LengthAt(t, w, n + q + k.width);
    SliceShift(w, n, q + k.width + v.width, k.value);
    SliceShift(w, n, q + k.width + v.width + k.value, v.value);
  }

  lemma {:induction false} RunShift(a: nat -> PairRead, b: nat -> PairRead, n: nat, q: nat, left: int)
    requires forall p: nat :: a(p) == b(n + p)
    ensures PairsBy(a, q, left) == PairsBy(b, n + q, left)
    decreases left
  {
    if left > 0 {
      assert a(q) == b(n + q);
      RunShift(a, b, n, q + a(q).size, left - a(q).size);
    }
  }

  lemma PairsShift(t: LenTest, w: bytes, n: nat, q: nat, left: int)
    requires n <= |w|
    ensures Pairs(t, w[n..], q, left) == Pairs(t, w, n + q, left)
  {
    forall p: nat ensures ReaderOf(t, w[n..])(p) == ReaderOf(t, w)(n + p) {
      ReadShift(t, w, n, p);
    }
    RunShift(ReaderOf(t, w[n..]), ReaderOf(t, w), n, q, left);
  }

  function BodyMoved(b: Body, n: nat): Body {
    match b
    case StdinBody(start, end) => StdinBody(start + n, end + n)
    case DataBody(start, end) => DataBody(start + n, end + n)
    case _ => b
  }

  function PayloadMoved(p: Payload, n: nat): Payload {
    match p
    case Payload(body, size) => Wire.Payload.Payload(BodyMoved(body, n), size)
    case _ => p
  }

  function RecordMoved(rec: Record, n: nat): Record {
    rec.(body := BodyMoved(rec.body, n))
  }

  function ParsedMoved(p: Parsed, n: nat): Parsed {
    match p
    case Good(rec, next) => Good(RecordMoved(rec, n), next + n)
    case Bad(next) => Bad(next + n)
    case Killed => Killed
  }

  lemma PayloadShift(t: LenTest, w: bytes, n: nat, q: nat, ty: byte, rsz: u16)
    requires n <= |w| && KnownType(ty)
    ensures PayloadAt(t, w, n + q, ty, rsz) == PayloadMoved(PayloadAt(t, w[n..], q, ty, rsz), n)
  {
    if HasPairs(ty) {
      PairsShift(t, w, n, q, rsz);
    } else if ty == BEGIN_REQUEST {
      BeginShift(t, w, n, q, rsz);
    }
  }

  lemma BeginShift(t: LenTest, w: bytes, n: nat, q: nat, rsz: u16)
    requires n <= |w|
    ensures PayloadAt(t, w, n + q, BEGIN_REQUEST, rsz) == PayloadAt(t, w[n..], q, BEGIN_REQUEST, rsz)
    ensures var p := PayloadAt(t, w[n..], q, BEGIN_REQUEST, rsz); p.Payload? && p.body.BeginBody?
  {
    AtShift(w, n, q);
    AtShift(w, n, q + 1);
    AtShift(w, n, q + 2);
  }

  lemma HeaderShift(w: bytes, n: nat, pos: nat)
    requires n <= |w|
    ensures HeaderOk(w, n + pos) == HeaderOk(w[n..], pos) && HeaderAt(w, n + pos) == HeaderAt(w[n..], pos)
  {
  }

  lemma FinishedShift(p: Payload, len: nat, n: nat, q: nat, h: Header)
    ensures Finished(PayloadMoved(p, n), n + len, n + q, h) == ParsedMoved(Finished(p, len, q, h), n)
  {
  }

  lemma OneBodyShift(t: LenTest, w: bytes, n: nat, q: nat, h: Header)
    requires n <= |w| && KnownType(h.ty)
    ensures OneBody(t, w, n + q, h) == ParsedMoved(OneBody(t, w[n..], q, h), n)
  {
    PayloadShift(t, w, n, q, h.ty, h.rsz);
    FinishedShift(PayloadAt(t, w[n..], q, h.ty, h.rsz), |w[n..]|, n, q, h);
  }

  lemma ParseShift(t: LenTest, w: bytes, n: nat, pos: nat)
    requires n <= |w|
    ensures ParseOne(t, w, n + pos) == ParsedMoved(ParseOne(t, w[n..], pos), n)
  {
    hide OneBody;
    HeaderShift(w, n, pos);
    if pos + HEADER_LEN <= |w[n..]| && HeaderOk(w[n..], pos) {
      OneBodyShift(t, w, n, pos + HEADER_LEN, HeaderAt(w[n..], pos));
    }
  }

  lemma EventShift(w: bytes, n: nat, rec: Record)
    requires n <= |w|
    ensures Fixed(EventAt(w, RecordMoved(rec, n))) == Fixed(EventAt(w[n..], rec))
  {
    match rec.body
    case StdinBody(start, end) =>
      if start <= end {
        SliceShift(w, n, start, end - start);
      }
    case DataBody(start, end) =>
      if start <= end {
        SliceShift(w, n, start, end - start);
      }
    case _ =>
  }

  lemma {:induction false} ContentsShift(t: LenTest, w: bytes, n: nat, pos: nat)
    requires n <= |w|
    ensures Contents(t, w, n + pos) == Contents(t, w[n..], pos)
    decreases |w| - pos
  {
    hide ParseOne, Fixed, EventAt;
    ParseShift(t, w, n, pos);
    var one := ParseOne(t, w[n..], pos);
    if one.Good? {
      EventShift(w, n, one.rec);
      ContentsShift(t, w, n, one.next);
    }
  }

  lemma ReachShift(t: LenTest, w: bytes, n: nat, pos: nat)
    requires n <= |w|
    ensures Reach(t, w, n + pos) == n + Reach(t, w[n..], pos)
  {
    hide Pairs;
    HeaderShift(w, n, pos);
    PairsShift(t, w, n, pos + HEADER_LEN, RszAt(w, n + pos));
  }

  lemma {:induction false} AllContainedShift(t: LenTest, w: bytes, n: nat, pos: nat)
    requires n <= |w| && AllContained(t, w, n + pos)
    ensures AllContained(t, w[n..], pos)
    decreases |w| - pos
  {
    ParseShift(t, w, n, pos);
    ReachShift(t, w, n, pos);
    HeaderShift(w, n, pos);
    if ParseOne(t, w[n..], pos).Good? {
      AllContainedShift(t, w, n, ParseOne(t, w[n..], pos).next);
    }
  }

  // ------------------------------------------------- nothing dropped, all there

  /** Where the loop goes on in an input without losing a byte, all the rest lies ahead. */
  lemma AfterKeeps(s: Input, c: Conn, c': Conn)
    requires s.pos <= s.eod && AllContained(AsCoded, Whole(s), s.pos) && Dropped(s, c, c') == 0
    ensures var s' := After(s, c, c');
            && AllContained(AsCoded, Whole(s'), s'.pos)
            && Contents(AsCoded, Whole(s'), s'.pos) == Contents(AsCoded, Whole(s), s.pos)
  {
    if c'.out.inRewinds != c.out.inRewinds {
      RewoundAhead(s);
      assert s.pos == s.eod;
      TailKeeps(Whole(s), s.eod);
    }
  }

  lemma TailKeeps(w: bytes, n: nat)
    requires n <= |w| && AllContained(AsCoded, w, n)
    ensures AllContained(AsCoded, w[n..], 0) && Contents(AsCoded, w[n..], 0) == Contents(AsCoded, w, n)
  {
    AllContainedShift(AsCoded, w, n, 0);
    ContentsShift(AsCoded, w, n, 0);
  }

  lemma RewoundAhead(s: Input)
    ensures s.eod <= |Whole(s)| && Whole(Rewound(s)) == Whole(s)[s.eod..]
  {
    assert Whole(Rewound(s)) == Flatten(s.feed);
  }

  lemma AfterHere(s: Input, c: Conn, c': Conn)
    requires s.pos <= s.eod
    ensures After(s, c, c').pos <= After(s, c, c').eod
    ensures Left(After(s, c, c')) + Dropped(s, c, c') == Left(s)
  {
  }

  /** The next record of an input, and what comes behind it. */
  lemma ContentsNext(s: Input)
    requires AllContained(AsCoded, Whole(s), s.pos)
    ensures var p := ParseInput(AsCoded, s);
            if p.parsed.Good? then
              && p.input.pos <= p.input.eod && AllContained(AsCoded, Whole(p.input), p.input.pos)
              && Contents(AsCoded, Whole(s), s.pos)
                 == [Fixed(EventAt(p.input.mem, p.parsed.rec))] + Contents(AsCoded, Whole(p.input), p.input.pos)
            else Contents(AsCoded, Whole(s), s.pos) == []
  {
    ChunkIndependentOne(AsCoded, s);
    ParseWhole(AsCoded, s);
    if ParseInput(AsCoded, s).parsed.Good? {
      ParseShrinks(AsCoded, s);
      ParsedBody(AsCoded, s);
    }
  }

  lemma FixedCons(ev: Event, evs: seq<Event>)
    ensures FixedAll([ev] + evs) == [Fixed(ev)] + FixedAll(evs)
  {
  }

  /** As long as no rewind drops unread bytes, what is dispatched is what the input holds,
      id, type, parameters and body bytes, whatever the callbacks do and however the bytes
      arrive: all of it if the peer hangs up, a prefix if the connection ends before. */
  lemma {:induction false} ServeContents(cfg: Config, link: Link, c: Conn, s: Input)
    requires AllContained(AsCoded, Whole(s), s.pos) && Serve(cfg, link, c, s).dropped == 0
    ensures var r := Serve(cfg, link, c, s);
            && FixedAll(r.events) <= Contents(AsCoded, Whole(s), s.pos)
            && (r.exit == ParseFailed ==> FixedAll(r.events) == Contents(AsCoded, Whole(s), s.pos))
    decreases Left(s)
  {
    ContentsNext(s);
    var p := ParseInput(AsCoded, s);
    if p.parsed.Good? {
      var ev := EventAt(p.input.mem, p.parsed.rec);
      var st := StepConn(cfg, link, c, ev);
      if st.status == Running {
        ParseShrinks(AsCoded, s);
        var s', d := After(p.input, c, st.conn), Dropped(p.input, c, st.conn);
        ServeTurn(cfg, link, c, s, ev, st.conn, s', d);
        AfterKeeps(p.input, c, st.conn);
        AfterHere(p.input, c, st.conn);
        ServeContents(cfg, link, st.conn, s');
        FixedCons(ev, Serve(cfg, link, st.conn, s').events);
      } else {
        FixedCons(ev, []);
      }
    }
  }

  // ----------------------------------------------------- something dropped

  /** The bytes the records of a run take: header, payload and padding of each. */
  function Taken(evs: seq<Event>): nat {
    if evs == [] then 0 else HEADER_LEN + evs[0].rec.rsz + evs[0].rec.psz + Taken(evs[1..])
  }

  /** What the records dispatched take and what is dropped never exceed what there was. */
  lemma {:induction false} ServeAccounts(cfg: Config, link: Link, c: Conn, s: Input)
    requires s.pos <= s.eod
    ensures var r := Serve(cfg, link, c, s); Taken(r.events) + r.dropped <= Left(s)
    decreases Left(s)
  {
    var p := ParseInput(AsCoded, s);
    if p.parsed.Good? {
      ParseShrinks(AsCoded, s);
      var ev := EventAt(p.input.mem, p.parsed.rec);
      var st := StepConn(cfg, link, c, ev);
      AfterHere(p.input, c, st.conn);
      if st.status == Running {
        var s', d := After(p.input, c, st.conn), Dropped(p.input, c, st.conn);
        ServeTurn(cfg, link, c, s, ev, st.conn, s', d);
        ServeAccounts(cfg, link, st.conn, s');
        assert ([ev] + Serve(cfg, link, st.conn, s').events)[1..] == Serve(cfg, link, st.conn, s').events;
      } else {
        assert Taken([ev][1..]) == 0;
      }
    }
  }

  lemma {:induction false} FixedTakes(evs: seq<Event>)
    ensures Taken(FixedAll(evs)) == Taken(evs)
    decreases |evs|
  {
    if evs != [] {
      FixedTakes(evs[1..]);
      assert FixedAll(evs)[1..] == FixedAll(evs[1..]);
    }
  }

  lemma {:induction false} ItemsTake(items: seq<S.Item>)
    ensures Taken(ItemEvents(items)) == |S.LayoutAll(items)|
    decreases |items|
  {
    if items != [] {
      ItemsTake(items[1..]);
      ItemTakes(items[0]);
      assert ItemEvents(items)[1..] == ItemEvents(items[1..]);
    }
  }

  lemma ItemTakes(item: S.Item)
    ensures |S.Layout(item)| == HEADER_LEN + ItemEvent(item).rec.rsz + ItemEvent(item).rec.psz
  {
  }

  // --------------------------------------------------------- a client's records

  lemma {:induction false} ContentsOfItems(t: LenTest, w: bytes, pos: nat, items: seq<S.Item>)
    requires S.AllWellFormed(t, items) && pos + |S.LayoutAll(items)| == |w| && Holds(w, pos, S.LayoutAll(items))
    ensures Contents(t, w, pos) == ItemEvents(items)
    decreases |items|
  {
    hide S.Layout, Holds, ItemEvent, ParseOne, S.AllWellFormed, Contents;
    if items != [] {
      S.FirstItem(t, w, pos, items);
      ContentsOfItems(t, w, pos + |S.Layout(items[0])|, items[1..]);
      ContentsOfItem(t, w, pos, items[0]);
    } else {
      NoContents(t, w);
    }
  }

  lemma NoContents(t: LenTest, w: bytes)
    ensures Contents(t, w, |w|) == []
  {
    S.ParseAtEnd(t, w);
  }

  lemma ContentsOfItem(t: LenTest, w: bytes, pos: nat, item: S.Item)
    requires item.WellFormed(t) && Holds(w, pos, S.Layout(item))
    ensures Contents(t, w, pos) == [ItemEvent(item)] + Contents(t, w, pos + |S.Layout(item)|)
  {
    hide S.Layout, S.Expected, ItemEvent, Fixed, EventAt, Holds, ParseOne;
    S.ItemBack(t, w, pos, item);
    ItemRead(w, pos, item);
  }

  /** Everything a client sent is dispatched, in order and with its contents, if and only if
      no rewind dropped unread bytes: any well-formed records, any chunks, any callbacks,
      any writes that succeed long enough for the peer to hang up first. */
  lemma AllDispatchedIff(cfg: Config, link: Link, feed: seq<bytes>, items: seq<S.Item>)
    requires S.AllWellFormed(AsCoded, items) && Flatten(feed) == S.LayoutAll(items)
    requires Serve(cfg, link, START, Buffered.Input([], 0, 0, feed)).exit == ParseFailed
    ensures var r := Serve(cfg, link, START, Buffered.Input([], 0, 0, feed));
            FixedAll(r.events) == ItemEvents(items) <==> r.dropped == 0
  {
    hide Serve, Contents, Taken, AllContained;
    var all: Input := Buffered.Input([], 0, 0, feed);
    var w, r := S.LayoutAll(items), Serve(cfg, link, START, all);
    assert Whole(all) == w && w[0..|w|] == w;
    if r.dropped == 0 {
      LaidOutContained(AsCoded, w, 0, items);
      ServeContents(cfg, link, START, all);
      ContentsOfItems(AsCoded, w, 0, items);
    }
    if FixedAll(r.events) == ItemEvents(items) {
      ServeAccounts(cfg, link, START, all);
      FixedTakes(r.events);
      ItemsTake(items);
    }
  }
}
