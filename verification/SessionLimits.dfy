/** Where a rewind of the shared input hurts: sessions in which one request's end costs
    another one its records, or the bytes its queue still points to. */
module SessionLimits {
  import opened Bytes
  import opened Wire
  import opened Engine
  import opened ChunkProofs
  import opened QueueProofs
  import opened Sessions
  import opened SessionProofs
  import opened DeliveryProofs
  import App
  import S = StreamProofs

  // ------------------------------------------------------ records in the buffer

  /** A record that is all there is parsed off the buffer without a wait. */
  lemma ItemInBuffer(s: Input, item: S.Item)
    requires item.WellFormed(AsCoded) && Holds(s.mem, s.pos, S.Layout(item)) && s.pos + |S.Layout(item)| <= s.eod
    ensures ParseInput(AsCoded, s)
         == Wire.Step(Good(S.Expected(item, s.pos), s.pos + |S.Layout(item)|), s.Moved(|S.Layout(item)|))
  {
    hide S.Layout, S.Expected, Holds, InputBody;
    S.LayoutHolds(s.mem, s.pos, item);
    BodyInBuffer(s.Moved(HEADER_LEN), item);
  }

  lemma BodyInBuffer(s: Input, item: S.Item)
    requires item.WellFormed(AsCoded) && HEADER_LEN <= s.pos && Holds(s.mem, s.pos, item.Payload())
    requires s.pos + |item.Payload()| + |item.padding| <= s.eod
    ensures var h := Header(item.Type(), item.rid, |item.Payload()|, |item.padding|);
            var n := |item.Payload()| + |item.padding|;
            InputBody(AsCoded, s, h) == Wire.Step(Good(S.Expected(item, s.pos - HEADER_LEN), s.pos + n), s.Moved(n))
  {
    S.PayloadBack(AsCoded, s.mem, s.pos, item);
  }

  /** With less than a header there, the next chunk is waited for. */
  lemma NextChunk(s: Input)
    requires s.Available() < HEADER_LEN && s.feed != []
    ensures ParseInput(AsCoded, s) == ParseInput(AsCoded, Consumed(s))
  {
  }

  /** A chunk that begins with a record, taken at the start of the buffer or behind all
      that was read. */
  lemma ChunkHolds(s: Input, item: S.Item, rest: bytes)
    requires s.pos == s.eod && s.feed != [] && s.feed[0] == S.Layout(item) + rest
    ensures Holds(Consumed(s).mem, s.pos, S.Layout(item))
    ensures Consumed(s).eod == s.pos + |S.Layout(item)| + |rest|
  {
    var m := Consumed(s).mem;
    assert m[..s.eod + |s.feed[0]|] == s.mem[..s.eod] + (S.Layout(item) + rest);
    assert m[s.pos..s.pos + |S.Layout(item)|] == m[..s.eod + |s.feed[0]|][s.pos..s.pos + |S.Layout(item)|];
  }

  lemma ChunkParses(s: Input, item: S.Item, rest: bytes)
    requires item.WellFormed(AsCoded) && s.pos == s.eod && s.feed != [] && s.feed[0] == S.Layout(item) + rest
    ensures ParseInput(AsCoded, s)
         == Wire.Step(Good(S.Expected(item, s.pos), s.pos + |S.Layout(item)|), Consumed(s).Moved(|S.Layout(item)|))
  {
    ChunkHolds(s, item, rest);
    NextChunk(s);
    ItemInBuffer(Consumed(s), item);
  }

  // ----------------------------------------------- a callback that finalizes

  /** A BEGIN_REQUEST callback that finalizes the requests of one id and accepts others. */
  function EndsAtOnce(rid: u16): Config {
    Config(Some((ev: Event, q: Req) => if ev.rec.rid == rid then App.Then(FinalizeOp, Return(0)) else Return(0)),
           None, None, None, None, [], [], Debug)
  }

  lemma Finalizes(link: Link, c: Conn, ev: Event)
    requires ev.rec.body.BeginBody? && ev.rec.body.role == RESPONDER && ev.rec.rid !in c.table
    ensures var st := StepConn(EndsAtOnce(ev.rec.rid), link, c, ev);
            st.status == Running && st.conn.table == c.table && st.conn.out.inRewinds == c.out.inRewinds + 1
  {
    var q := NewReq(ev.rec);
    App.RunThen(link, c.out, q, FinalizeOp, Return(0));
    var arm := Dispatch(EndsAtOnce(ev.rec.rid), link, c.out, None, ev, c.seen);
    assert arm.slot == None && arm.status == Running;
    assert c.table - {ev.rec.rid} == c.table;
  }

  lemma Accepts(link: Link, c: Conn, ev: Event, other: u16)
    requires ev.rec.body.BeginBody? && ev.rec.body.role == RESPONDER && ev.rec.rid !in c.table && ev.rec.rid != other
    ensures var st := StepConn(EndsAtOnce(other), link, c, ev);
            st.status == Running && st.conn.table == c.table[ev.rec.rid := Slot(NewReq(ev.rec), NewIds(c.seen))]
            && st.conn.out == c.out
  {
  }

  lemma Queues(link: Link, c: Conn, ev: Event, other: u16)
    requires ev.rec.body.StdinBody? && ev.rec.rid in c.table && !c.table[ev.rec.rid].req.complete
    ensures var st := StepConn(EndsAtOnce(other), link, c, ev);
            var s := c.table[ev.rec.rid];
            st.status == Running && st.conn.out == c.out
            && st.conn.table == c.table[ev.rec.rid := Slot(Enqueue(s.req, ev.rec), EnqueueId(s.ids, ev.rec.body, c.seen))]
  {
  }

  /** One chunk carries a BEGIN_REQUEST and anything behind it; the callback finalizes the
      request at once. Whatever is behind is never dispatched, to the last byte. */
  lemma FinalizeDropsChunk(link: Link, item: S.Item, rest: bytes)
    requires item.WellFormed(AsCoded) && item.content.Begin? && item.content.role == RESPONDER
    ensures var r := Serve(EndsAtOnce(item.rid), link, START, Once(S.Layout(item) + rest));
            FixedAll(r.events) == [ItemEvent(item)] && r.dropped == |rest| && r.exit == ParseFailed
  {
    var cfg, s := EndsAtOnce(item.rid), Once(S.Layout(item) + rest);
    ChunkParses(s, item, rest);
    ChunkHolds(s, item, rest);
    var p := ParseInput(AsCoded, s);
    ItemRead(p.input.mem, 0, item);
    var ev := EventAt(p.input.mem, p.parsed.rec);
    Finalizes(link, START, ev);
    var c' := StepConn(cfg, link, START, ev).conn;
    var s' := Rewound(p.input);
    ServeTurn(cfg, link, START, s, ev, c', s', |rest|);
    NothingLeft(cfg, link, c', s');
    assert [ev] + [] == [ev];
  }

  lemma NothingLeft(cfg: Config, link: Link, c: Conn, s: Input)
    requires s.pos == s.eod && s.feed == []
    ensures var r := Serve(cfg, link, c, s); r.events == [] && r.dropped == 0 && r.exit == ParseFailed
  {
    assert ParseInput(AsCoded, s).parsed == Bad(s.pos);
  }

  /** Two requests in one chunk: the first is finalized and the second never dispatched. */
  lemma SecondNeverDispatched(link: Link, first: S.Item, second: S.Item)
    requires first.WellFormed(AsCoded) && first.content.Begin? && first.content.role == RESPONDER
    requires second.WellFormed(AsCoded) && second.content.Begin? && second.rid != first.rid
    ensures var r := Serve(EndsAtOnce(first.rid), link, START, Once(S.LayoutAll([first, second])));
            && FixedAll(r.events) == [ItemEvent(first)] && r.dropped == |S.Layout(second)|
            && ItemEvents([first, second]) == [ItemEvent(first), ItemEvent(second)]
  {
    assert [first, second][1..] == [second] && [second][1..] == [];
    assert S.LayoutAll([second]) == S.Layout(second) + [] == S.Layout(second);
    assert ItemEvents([second]) == [ItemEvent(second)] + ItemEvents([]);
    FinalizeDropsChunk(link, first, S.Layout(second));
  }

  // ------------------------------------------------------------ turns of it

  lemma ItemEventAt(m: bytes, pos: nat, item: S.Item)
    requires Holds(m, pos, S.Layout(item))
    ensures var ev := EventAt(m, S.Expected(item, pos)); ev.rec == S.Expected(item, pos) && Fixed(ev) == ItemEvent(item)
  {
    ItemRead(m, pos, item);
  }

  /** A turn of the loop on a record that is parsed. */
  lemma TurnIs(cfg: Config, link: Link, c: Conn, s: Input, rec: Record, next: nat, s': Input, ev: Event, c': Conn)
    requires ParseInput(AsCoded, s) == Wire.Step(Good(rec, next), s') && ev == EventAt(s'.mem, rec)
    requires StepConn(cfg, link, c, ev) == Stepped(c', Running)
    ensures Turn(cfg, link, c, s, ev, c', After(s', c, c'), Dropped(s', c, c'))
  {
  }

  /** One request, and the STDIN records it has queued. */
  ghost predicate Holding(c: Conn, rid: u16, queue: seq<Record>, ids: Ids) {
    && c.table.Keys == {rid} && !c.table[rid].req.complete && c.table[rid].req.stdin == queue && c.table[rid].ids == ids
  }

  lemma AcceptsFirst(link: Link, ev: Event, other: u16)
    requires ev.rec.body.BeginBody? && ev.rec.body.role == RESPONDER && ev.rec.rid != other
    ensures var st := StepConn(EndsAtOnce(other), link, START, ev);
            st.status == Running && st.conn.out == START.out && st.conn.seen == 1
            && Holding(st.conn, ev.rec.rid, [], NewIds(0))
  {
    Accepts(link, START, ev, other);
  }

  lemma QueuesOne(link: Link, c: Conn, ev: Event, other: u16, queue: seq<Record>, ids: Ids)
    requires ev.rec.body.StdinBody? && Holding(c, ev.rec.rid, queue, ids)
    ensures var st := StepConn(EndsAtOnce(other), link, c, ev);
            st.status == Running && st.conn.out == c.out && st.conn.seen == c.seen + 1
            && Holding(st.conn, ev.rec.rid, queue + [ev.rec], ids.(stdin := ids.stdin + [c.seen]))
  {
    Queues(link, c, ev, other);
  }

  lemma FinalizesOther(link: Link, c: Conn, ev: Event, rid: u16, queue: seq<Record>, ids: Ids)
    requires ev.rec.body.BeginBody? && ev.rec.body.role == RESPONDER && ev.rec.rid != rid && Holding(c, rid, queue, ids)
    ensures var st := StepConn(EndsAtOnce(ev.rec.rid), link, c, ev);
            st.status == Running && st.conn.out.inRewinds == c.out.inRewinds + 1 && st.conn.seen == c.seen + 1
            && Holding(st.conn, rid, queue, ids)
  {
    Finalizes(link, c, ev);
  }

  /** A record is parsed at `s` into `s'`. */
  ghost predicate Parses(s: Input, item: S.Item, s': Input) {
    && ParseInput(AsCoded, s) == Wire.Step(Good(S.Expected(item, s.pos), s.pos + |S.Layout(item)|), s')
    && Holds(s'.mem, s.pos, S.Layout(item))
  }

  /** A turn accepts a request. */
  lemma AcceptTurn(link: Link, s: Input, item: S.Item, s': Input, other: u16) returns (ev: Event, c: Conn)
    requires Parses(s, item, s') && item.content.Begin? && item.content.role == RESPONDER && item.rid != other
    ensures Turn(EndsAtOnce(other), link, START, s, ev, c, s', 0) && Fixed(ev) == ItemEvent(item)
    ensures c.seen == 1 && Holding(c, item.rid, [], NewIds(0))
  {
    hide StepConn, Fixed, ItemEvent, ParseInput;
    ev := EventAt(s'.mem, S.Expected(item, s.pos));
    ItemEventAt(s'.mem, s.pos, item);
    AcceptsFirst(link, ev, other);
    c := StepConn(EndsAtOnce(other), link, START, ev).conn;
    TurnIs(EndsAtOnce(other), link, START, s, S.Expected(item, s.pos), s.pos + |S.Layout(item)|, s', ev, c);
  }

  /** A turn queues a STDIN record. */
  lemma QueueTurn(link: Link, c: Conn, s: Input, item: S.Item, s': Input, other: u16, queue: seq<Record>, ids: Ids)
    returns (ev: Event, c': Conn)
    requires Parses(s, item, s') && item.content.Stdin? && Holding(c, item.rid, queue, ids)
    ensures Turn(EndsAtOnce(other), link, c, s, ev, c', s', 0) && Fixed(ev) == ItemEvent(item)
    ensures c'.seen == c.seen + 1
    ensures Holding(c', item.rid, queue + [S.Expected(item, s.pos)], ids.(stdin := ids.stdin + [c.seen]))
  {
    hide StepConn, Fixed, ItemEvent, ParseInput;
    ev := EventAt(s'.mem, S.Expected(item, s.pos));
    ItemEventAt(s'.mem, s.pos, item);
    QueuesOne(link, c, ev, other, queue, ids);
    c' := StepConn(EndsAtOnce(other), link, c, ev).conn;
    TurnIs(EndsAtOnce(other), link, c, s, S.Expected(item, s.pos), s.pos + |S.Layout(item)|, s', ev, c');
  }

  /** A turn finalizes another request and rewinds the input, of which all was read. */
  lemma EndTurn(link: Link, c: Conn, s: Input, item: S.Item, s': Input, rid: u16, queue: seq<Record>, ids: Ids)
    returns (ev: Event, c': Conn)
    requires Parses(s, item, s') && item.content.Begin? && item.content.role == RESPONDER && item.rid != rid
    requires Holding(c, rid, queue, ids) && Unread(s') == 0
    ensures Turn(EndsAtOnce(item.rid), link, c, s, ev, c', Rewound(s'), 0) && Fixed(ev) == ItemEvent(item)
    ensures c'.seen == c.seen + 1 && Holding(c', rid, queue, ids)
  {
    hide StepConn, Fixed, ItemEvent, ParseInput;
    ev := EventAt(s'.mem, S.Expected(item, s.pos));
    ItemEventAt(s'.mem, s.pos, item);
    FinalizesOther(link, c, ev, rid, queue, ids);
    c' := StepConn(EndsAtOnce(item.rid), link, c, ev).conn;
    TurnIs(EndsAtOnce(item.rid), link, c, s, S.Expected(item, s.pos), s.pos + |S.Layout(item)|, s', ev, c');
  }

  // -------------------------------------------------------- a range that is stale

  /** Two requests share a chunk; the end of the second rewinds the input with every byte
      read, and the next chunk continues the first. */
  datatype Overtaken = Overtaken(first: S.Item, data: S.Item, other: S.Item, more: S.Item) {
    ghost predicate Valid() {
      && first.WellFormed(AsCoded) && data.WellFormed(AsCoded) && other.WellFormed(AsCoded) && more.WellFormed(AsCoded)
      && first.content.Begin? && first.content.role == RESPONDER && other.content.Begin? && other.content.role == RESPONDER
      && data.content.Stdin? && more.content.Stdin? && data.rid == more.rid == first.rid != other.rid
    }

    function Items(): seq<S.Item> { [first, data, other, more] }

    ghost function Start(): Input {
      Buffered.Input([], 0, 0, [S.Layout(first) + (S.Layout(data) + S.Layout(other)), S.Layout(more)])
    }

    /** Where the body of `data` lies in the buffer. */
    ghost function Body(): nat { |S.Layout(first)| + HEADER_LEN }
  }

  /** The buffer as the records of the first chunk are read off it. */
  ghost function ReadTo(o: Overtaken, n: nat): Input {
    Consumed(o.Start()).Moved(n)
  }

  lemma SharedChunk(o: Overtaken)
    requires o.Valid()
    ensures var a, b := |S.Layout(o.first)|, |S.Layout(o.data)|;
            var m := Consumed(o.Start()).mem;
            && m == S.Layout(o.first) + (S.Layout(o.data) + S.Layout(o.other))
            && Consumed(o.Start()).eod == |m| && Consumed(o.Start()).feed == [S.Layout(o.more)]
            && Holds(m, 0, S.Layout(o.first)) && Holds(m, a, S.Layout(o.data)) && Holds(m, a + b, S.Layout(o.other))
  {
    var a, b, c := S.Layout(o.first), S.Layout(o.data), S.Layout(o.other);
    var m := Consumed(o.Start()).mem;
    assert m == [] + (a + (b + c)) == a + (b + c);
    assert m[0..|m|] == m;
    HoldsSplit(m, 0, a, b + c);
    HoldsSplit(m, |a|, b, c);
  }

  /** The records of the first chunk are parsed where they lie. */
  lemma ParsesFirst(o: Overtaken)
    requires o.Valid()
    ensures Parses(o.Start(), o.first, ReadTo(o, |S.Layout(o.first)|))
  {
    SharedChunk(o);
    ChunkParses(o.Start(), o.first, S.Layout(o.data) + S.Layout(o.other));
  }

  lemma ParsesData(o: Overtaken)
    requires o.Valid()
    ensures var a, b := |S.Layout(o.first)|, |S.Layout(o.data)|; Parses(ReadTo(o, a), o.data, ReadTo(o, a + b))
  {
    hide S.Layout, ParseInput;
    SharedChunk(o);
    ItemInBuffer(ReadTo(o, |S.Layout(o.first)|), o.data);
  }

  lemma ParsesOther(o: Overtaken)
    requires o.Valid()
    ensures var n, d := |S.Layout(o.first)| + |S.Layout(o.data)|, |S.Layout(o.other)|;
            && Parses(ReadTo(o, n), o.other, ReadTo(o, n + d))
            && Unread(ReadTo(o, n + d)) == 0 && Rewound(ReadTo(o, n + d)) == Rewound(Consumed(o.Start()))
  {
    hide S.Layout, ParseInput, S.Expected, Holds, S.LayoutAll, Flatten;
    SharedChunk(o);
    ItemInBuffer(ReadTo(o, |S.Layout(o.first)| + |S.Layout(o.data)|), o.other);
  }

  ghost function AtEnd(o: Overtaken): Input {
    Consumed(Rewound(Consumed(o.Start()))).Moved(|S.Layout(o.more)|)
  }

  lemma ParsesMore(o: Overtaken)
    requires o.Valid()
    ensures Parses(Rewound(Consumed(o.Start())), o.more, AtEnd(o))
  {
    var s := Rewound(Consumed(o.Start()));
    SharedChunk(o);
    assert S.Layout(o.more) + [] == S.Layout(o.more);
    ChunkParses(s, o.more, []);
    ChunkHolds(s, o.more, []);
  }

  lemma TwoTurnsTrack(cfg: Config, link: Link, all: Input, evs: seq<Event>, c: Conn, s: Input, a: Event, c1: Conn,
                      s1: Input, b: Event, c2: Conn, s2: Input)
    requires Tracks(cfg, link, all, evs, 0, c, s)
    requires Turn(cfg, link, c, s, a, c1, s1, 0) && Turn(cfg, link, c1, s1, b, c2, s2, 0)
    ensures Tracks(cfg, link, all, evs + [a, b], 0, c2, s2)
  {
    hide Tracks, Turn;
    TracksTurn(cfg, link, all, evs, 0, c, s, a, c1, s1, 0);
    TracksTurn(cfg, link, all, evs + [a], 0, c1, s1, b, c2, s2, 0);
    assert evs + [a] + [b] == evs + [a, b];
  }

  lemma FourEvents(o: Overtaken, e1: Event, e2: Event, e3: Event, e4: Event)
    requires Fixed(e1) == ItemEvent(o.first) && Fixed(e2) == ItemEvent(o.data)
    requires Fixed(e3) == ItemEvent(o.other) && Fixed(e4) == ItemEvent(o.more)
    ensures FixedAll([e1, e2, e3, e4]) == ItemEvents(o.Items())
  {
    hide ItemEvent, Fixed;
    assert o.Items()[1..] == [o.data, o.other, o.more] && [o.data, o.other, o.more][1..] == [o.other, o.more];
    assert [o.other, o.more][1..] == [o.more] && [o.more][1..] == [];
    assert ItemEvents([o.more]) == [ItemEvent(o.more)];
    assert ItemEvents([o.other, o.more]) == [ItemEvent(o.other), ItemEvent(o.more)];
  }

  lemma InARow<T>(a: T, b: T, c: T, d: T)
    ensures [] + [a, b] + [c, d] == [a, b, c, d] && [c] + [d] == [c, d]
  {
  }

  lemma FirstTwo(link: Link, o: Overtaken) returns (e1: Event, c1: Conn, e2: Event, c2: Conn)
    requires o.Valid()
    ensures var a, b := |S.Layout(o.first)|, |S.Layout(o.data)|;
            && Turn(EndsAtOnce(o.other.rid), link, START, o.Start(), e1, c1, ReadTo(o, a), 0)
            && Turn(EndsAtOnce(o.other.rid), link, c1, ReadTo(o, a), e2, c2, ReadTo(o, a + b), 0)
    ensures c2.seen == 2 && Holding(c2, o.first.rid, [S.Expected(o.data, |S.Layout(o.first)|)], Ids(0, [], [1], []))
    ensures Fixed(e1) == ItemEvent(o.first) && Fixed(e2) == ItemEvent(o.data)
  {
    hide Parses, Turn, Holding;
    var a, b := |S.Layout(o.first)|, |S.Layout(o.data)|;
    assert Parses(o.Start(), o.first, ReadTo(o, a)) by { ParsesFirst(o); }
    e1, c1 := AcceptTurn(link, o.Start(), o.first, ReadTo(o, a), o.other.rid);
    assert Parses(ReadTo(o, a), o.data, ReadTo(o, a + b)) by { ParsesData(o); }
    e2, c2 := QueueTurn(link, c1, ReadTo(o, a), o.data, ReadTo(o, a + b), o.other.rid, [], NewIds(0));
    assert [] + [S.Expected(o.data, a)] == [S.Expected(o.data, a)] && [] + [c1.seen] == [1];
  }

  lemma LastTwo(link: Link, o: Overtaken, c2: Conn, queue: seq<Record>, ids: Ids)
    returns (e3: Event, c3: Conn, e4: Event, c4: Conn)
    requires o.Valid() && c2.seen == 2 && Holding(c2, o.first.rid, queue, ids)
    ensures var n := |S.Layout(o.first)| + |S.Layout(o.data)|;
            && Turn(EndsAtOnce(o.other.rid), link, c2, ReadTo(o, n), e3, c3, Rewound(Consumed(o.Start())), 0)
            && Turn(EndsAtOnce(o.other.rid), link, c3, Rewound(Consumed(o.Start())), e4, c4, AtEnd(o), 0)
    ensures Holding(c4, o.first.rid, queue + [S.Expected(o.more, 0)], ids.(stdin := ids.stdin + [3]))
    ensures Fixed(e3) == ItemEvent(o.other) && Fixed(e4) == ItemEvent(o.more)
  {
    hide Parses, Turn, Holding;
    var n, d := |S.Layout(o.first)| + |S.Layout(o.data)|, |S.Layout(o.other)|;
    var s := Rewound(Consumed(o.Start()));
    assert Parses(ReadTo(o, n), o.other, ReadTo(o, n + d)) && Unread(ReadTo(o, n + d)) == 0
           && Rewound(ReadTo(o, n + d)) == s by { ParsesOther(o); }
    e3, c3 := EndTurn(link, c2, ReadTo(o, n), o.other, ReadTo(o, n + d), o.first.rid, queue, ids);
    assert Parses(s, o.more, AtEnd(o)) by { ParsesMore(o); }
    e4, c4 := QueueTurn(link, c3, s, o.more, AtEnd(o), o.other.rid, queue, ids);
  }

  /** All four are dispatched as they were sent and nothing is dropped, though the input was
      rewound in between. */
  lemma FourTurns(link: Link, o: Overtaken) returns (evs: seq<Event>, c: Conn)
    requires o.Valid()
    ensures Tracks(EndsAtOnce(o.other.rid), link, o.Start(), evs, 0, c, AtEnd(o)) && FixedAll(evs) == ItemEvents(o.Items())
    ensures Holding(c, o.first.rid, [S.Expected(o.data, |S.Layout(o.first)|)] + [S.Expected(o.more, 0)],
                    Ids(0, [], [1, 3], []))
  {
    hide Tracks, Turn;
    var cfg, all := EndsAtOnce(o.other.rid), o.Start();
    var a, b, s := |S.Layout(o.first)|, |S.Layout(o.data)|, Rewound(Consumed(all));
    var e1, c1, e2, c2 := FirstTwo(link, o);
    var e3, c3, e4, c4 := LastTwo(link, o, c2, [S.Expected(o.data, a)], Ids(0, [], [1], []));
    FourEvents(o, e1, e2, e3, e4);
    evs, c := [e1, e2, e3, e4], c4;
    InARow(e1, e2, e3, e4);
    InARow(0, 0, 1, 3);
    TracksFirst(cfg, link, all);
    TwoTurnsTrack(cfg, link, all, [], START, all, e1, c1, ReadTo(o, a), e2, c2, ReadTo(o, a + b));
    TwoTurnsTrack(cfg, link, all, [] + [e1, e2], c2, ReadTo(o, a + b), e3, c3, s, e4, c4, AtEnd(o));
  }

  lemma TwoRanges(m: bytes, a: Record, b: Record)
    ensures QueueBytes(m, [a] + [b]) == RangeBytes(m, a) + RangeBytes(m, b)
  {
    assert ([a] + [b])[..1] == [a] && [a][..0] == [];
    assert QueueBytes(m, [a]) == [] + RangeBytes(m, a) == RangeBytes(m, a);
  }

  /** As far as a chunk written from the start of the buffer covers a body that lay there,
      it has the same bytes. */
  ghost predicate SameOver(chunk: bytes, start: nat, body: bytes) {
    forall i: nat :: start <= i < start + |body| && i < |chunk| ==> chunk[i] == body[i - start]
  }

  ghost predicate Untouched(o: Overtaken) {
    SameOver(S.Layout(o.more), o.Body(), o.data.Payload())
  }

  /** Before the rewind the queued range holds what was sent. */
  lemma DataThere(o: Overtaken)
    requires o.Valid()
    ensures var m, rec := Consumed(o.Start()).mem, S.Expected(o.data, |S.Layout(o.first)|);
            && RangeBytes(m, rec) == o.data.Payload() && o.Body() + |o.data.Payload()| <= Consumed(o.Start()).eod
            && m[o.Body()..o.Body() + |o.data.Payload()|] == o.data.Payload()
  {
    hide S.Layout, Consumed;
    SharedChunk(o);
    S.LayoutHolds(Consumed(o.Start()).mem, |S.Layout(o.first)|, o.data);
    HoldsSlice(Consumed(o.Start()).mem, o.Body(), o.data.Payload());
  }

  lemma DataSurvivesIff(o: Overtaken)
    requires o.Valid()
    ensures RangeBytes(AtEnd(o).mem, S.Expected(o.data, |S.Layout(o.first)|)) == o.data.Payload() <==> Untouched(o)
  {
    hide S.Layout, RangeBytes, SameOver;
    var s, rec := Consumed(o.Start()), S.Expected(o.data, |S.Layout(o.first)|);
    DataThere(o);
    assert s.feed == [S.Layout(o.more)] by { SharedChunk(o); }
    CoveredIff(s, rec, o.data.Payload());
  }

  lemma CoveredIff(s: Input, rec: Record, body: bytes)
    requires s.feed != [] && InRange(rec, s.eod) && rec.body.StdinBody? && rec.body.end == rec.body.start + |body|
    requires RangeBytes(s.mem, rec) == body && s.mem[rec.body.start..rec.body.end] == body
    ensures RangeBytes(Consumed(Rewound(s)).mem, rec) == body
       <==> SameOver(s.feed[0], rec.body.start, body)
  {
    RangeSurvivesIff(s, rec);
    forall i: nat | rec.body.start <= i < rec.body.end ensures s.mem[i] == body[i - rec.body.start] {
      assert s.mem[rec.body.start..rec.body.end][i - rec.body.start] == s.mem[i];
    }
  }

  lemma MoreThere(o: Overtaken)
    requires o.Valid()
    ensures RangeBytes(AtEnd(o).mem, S.Expected(o.more, 0)) == o.more.Payload()
  {
    ParsesMore(o);
    S.LayoutHolds(AtEnd(o).mem, 0, o.more);
    HoldsSlice(AtEnd(o).mem, HEADER_LEN, o.more.Payload());
  }

  /** Nothing is dropped and every callback gets its bytes; yet the STDIN queue of the live
      request reads what the client sent for it if and only if the chunk that came after
      the rewind happens to have the same bytes where the queued body lay. */
  lemma StaleQueueIff(link: Link, o: Overtaken) returns (evs: seq<Event>, c: Conn)
    requires o.Valid()
    ensures Tracks(EndsAtOnce(o.other.rid), link, o.Start(), evs, 0, c, AtEnd(o)) && FixedAll(evs) == ItemEvents(o.Items())
    ensures c.table.Keys == {o.first.rid}
    ensures QueueBytes(AtEnd(o).mem, c.table[o.first.rid].req.stdin) == o.data.Payload() + o.more.Payload() <==> Untouched(o)
  {
    hide Tracks, Turn, ItemEvents, QueueBytes, RangeBytes, Untouched;
    evs, c := FourTurns(link, o);
    var a, b := S.Expected(o.data, |S.Layout(o.first)|), S.Expected(o.more, 0);
    TwoRanges(AtEnd(o).mem, a, b);
    DataSurvivesIff(o);
    MoreThere(o);
    SuffixIff(RangeBytes(AtEnd(o).mem, a), o.data.Payload(), o.more.Payload());
  }

  lemma SuffixIff(x: bytes, y: bytes, z: bytes)
    ensures x + z == y + z <==> x == y
  {
    if x + z == y + z {
      assert x == (x + z)[..|x|] && y == (y + z)[..|y|];
    }
  }

  /** Two requests without padding, the first sending the byte `x` and then `more`. */
  function Sharing(x: byte, more: bytes): Overtaken
    requires |more| < 0x1_0000
  {
    var begin := S.Begin(RESPONDER, 0, [0, 0, 0, 0, 0]);
    Overtaken(S.RawItem.Item(1, begin, [], 0), S.RawItem.Item(1, S.Stdin([x]), [], 0),
              S.RawItem.Item(2, begin, [], 0), S.RawItem.Item(1, S.Stdin(more), [], 0))
  }

  /** The request has the byte in its queue and the buffer no longer does, exactly if another
      byte of the later record comes to lie in its place. */
  lemma OneByteStale(link: Link, x: byte, more: bytes) returns (evs: seq<Event>, c: Conn)
    requires 17 <= |more| < 0x1_0000
    ensures var o := Sharing(x, more);
            Tracks(EndsAtOnce(2), link, o.Start(), evs, 0, c, AtEnd(o)) && FixedAll(evs) == ItemEvents(o.Items())
    ensures c.table.Keys == {1}
    ensures QueueBytes(AtEnd(Sharing(x, more)).mem, c.table[1].req.stdin) == [x] + more <==> more[16] == x
  {
    hide Tracks, Turn, ItemEvents, QueueBytes;
    SharingOverlaps(x, more);
    evs, c := StaleQueueIff(link, Sharing(x, more));
  }

  lemma SharingOverlaps(x: byte, more: bytes)
    requires 17 <= |more| < 0x1_0000
    ensures Sharing(x, more).Valid() && (Untouched(Sharing(x, more)) <==> more[16] == x)
  {
    var o := Sharing(x, more);
    assert o.Body() == 24 && S.Layout(o.more)[24] == more[16];
  }
}
