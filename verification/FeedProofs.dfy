/** Which deliveries are safe: no configuration can lose a byte of what a client sends if and
    only if every record ends with a chunk. */
module FeedProofs {
  import opened Bytes
  import opened Wire
  import opened Engine
  import opened ChunkProofs
  import opened QueueProofs
  import opened Sessions
  import opened SessionProofs
  import opened DeliveryProofs
  import opened SessionLimits
  import App
  import RunProofs
  import S = StreamProofs

  // ------------------------------------------------------- how much is taken

  lemma {:induction false} FillMoved(s: Input, n: nat, need: nat)
    ensures Fill(s.Moved(n), need) == Filled(Fill(s, n + need).ok, Fill(s, n + need).input.Moved(n))
    decreases |s.feed|
  {
    if s.Available() < n + need && s.feed != [] {
      assert Consumed(s.Moved(n)) == Consumed(s).Moved(n);
      FillMoved(Consumed(s), n, need);
    }
  }

  lemma {:induction false} FillTwice(s: Input, a: nat, b: nat)
    requires a <= b
    ensures Fill(Fill(s, a).input, b) == Fill(s, b)
    decreases |s.feed|
  {
    if s.Available() < a && s.feed != [] {
      FillTwice(Consumed(s), a, b);
    }
  }

  lemma PaddingTakes(s: Input, h: Header, content: Body, size: nat)
    requires InputPadding(s, h, content, size).parsed.Good?
    ensures InputPadding(s, h, content, size).input == Fill(s, h.psz).input.Moved(h.psz) && size >= h.rsz
  {
  }

  lemma BodyWaits(t: LenTest, s: Input, h: Header) returns (content: Body, size: nat)
    requires KnownType(h.ty) && InputBody(t, s, h).parsed.Good?
    ensures InputBody(t, s, h) == InputPadding(Fill(s, h.rsz).input.Moved(size), h, content, size)
  {
    hide PayloadAt, Fill, InputPadding;
    var payload := PayloadAt(t, Fill(s, h.rsz).input.mem, s.pos, h.ty, h.rsz);
    content, size := payload.body, payload.size;
  }

  /** The three waits for a record take as many chunks as one wait for all of it. */
  lemma BodyTakes(t: LenTest, s: Input, h: Header)
    requires KnownType(h.ty) && InputBody(t, s, h).parsed.Good?
    requires InputBody(t, s, h).parsed.next == s.pos + h.rsz + h.psz
    ensures InputBody(t, s, h).input == Fill(s, h.rsz + h.psz).input.Moved(h.rsz + h.psz)
  {
    hide Fill, PayloadAt, InputBody, InputPadding;
    var content, size := BodyWaits(t, s, h);
    var body := Fill(s, h.rsz).input;
    PaddingTakes(body.Moved(size), h, content, size);
    assert size == h.rsz;
    FillMoved(body, h.rsz, h.psz);
    FillTwice(s, h.rsz, h.rsz + h.psz);
  }

  lemma ParseTakes(t: LenTest, s: Input, n: nat)
    requires var p := ParseInput(t, s).parsed; p.Good? && p.next == s.pos + n && n == HEADER_LEN + p.rec.rsz + p.rec.psz
    ensures ParseInput(t, s).input == Fill(s, n).input.Moved(n)
  {
    hide InputBody, PayloadAt, Fill;
    var head := Fill(s, HEADER_LEN).input;
    var h := HeaderAt(head.mem, s.pos);
    BodyHeader(t, head.Moved(HEADER_LEN), h);
    BodyTakes(t, head.Moved(HEADER_LEN), h);
    FillMoved(head, HEADER_LEN, h.rsz + h.psz);
    FillTwice(s, HEADER_LEN, n);
  }

  lemma BodyHeader(t: LenTest, s: Input, h: Header)
    requires KnownType(h.ty) && InputBody(t, s, h).parsed.Good?
    ensures var rec := InputBody(t, s, h).parsed.rec; rec.rsz == h.rsz && rec.psz == h.psz
  {
  }

  /** A client's record is parsed when exactly the chunks it takes have been received. */
  lemma ItemTakes(s: Input, item: S.Item)
    requires item.WellFormed(AsCoded) && Holds(Whole(s), s.pos, S.Layout(item))
    ensures var n := |S.Layout(item)|;
            ParseInput(AsCoded, s) == Wire.Step(Good(S.Expected(item, s.pos), s.pos + n), Fill(s, n).input.Moved(n))
  {
    hide ParseInput, Contained;
    ItemContained(AsCoded, Whole(s), s.pos, item);
    ChunkIndependentOne(AsCoded, s);
    S.ItemBack(AsCoded, Whole(s), s.pos, item);
    S.LayoutHolds(Whole(s), s.pos, item);
    ParseTakes(AsCoded, s, |S.Layout(item)|);
  }

  // ------------------------------------------------------- where chunks end

  /** A chunk ends after the first `n` bytes of a feed. */
  predicate EndsAt(feed: seq<bytes>, n: int) {
    n == 0 || (feed != [] && |feed[0]| <= n && EndsAt(feed[1..], n - |feed[0]|))
  }

  /** A wait ends with nothing more than was waited for exactly if a chunk ends there. */
  lemma {:induction false} FillEnds(s: Input, n: nat)
    requires s.Available() <= n <= s.Available() + |Flatten(s.feed)|
    ensures Fill(s, n).input.Available() >= n
    ensures Fill(s, n).input.Available() == n <==> EndsAt(s.feed, n - s.Available())
    decreases |s.feed|
  {
    if s.Available() < n && Consumed(s).Available() <= n {
      FillEnds(Consumed(s), n);
    }
  }

  /** What ends behind that, ends there in the chunks that are left. */
  lemma {:induction false} FillLater(s: Input, n: nat, m: nat)
    requires s.Available() <= n <= m && Fill(s, n).input.Available() == n
    ensures EndsAt(s.feed, m - s.Available()) <==> EndsAt(Fill(s, n).input.feed, m - n)
    decreases |s.feed|
  {
    if s.Available() < n {
      var c := Consumed(s);
      TakenWithin(c, n);
      FillLater(c, n, m);
    }
  }

  lemma {:induction false} TakenWithin(s: Input, n: nat)
    requires Fill(s, n).input.Available() == n
    ensures s.Available() <= n
    decreases |s.feed|
  {
    if s.Available() < n && s.feed != [] {
      TakenWithin(Consumed(s), n);
    }
  }

  /** Where record `k` of a list begins. */
  ghost function Offset(items: seq<S.Item>, k: nat): nat
    requires k <= |items|
  {
    if k == 0 then 0 else |S.Layout(items[0])| + Offset(items[1..], k - 1)
  }

  /** Every record's last byte ends a chunk. */
  ghost predicate AllEnd(feed: seq<bytes>, items: seq<S.Item>) {
    forall k: nat :: k <= |items| ==> EndsAt(feed, Offset(items, k))
  }

  /** A feed that is about to deliver these records, all before them read. */
  ghost predicate Ahead(s: Input, items: seq<S.Item>) {
    s.pos == s.eod && Flatten(s.feed) == S.LayoutAll(items) && S.AllWellFormed(AsCoded, items)
  }

  lemma FirstAhead(s: Input, items: seq<S.Item>)
    requires Ahead(s, items) && items != []
    ensures Holds(Whole(s), s.pos, S.Layout(items[0])) && items[0].WellFormed(AsCoded)
    ensures |S.Layout(items[0])| <= |Flatten(s.feed)|
  {
    hide S.Layout, S.LayoutAll, Flatten, Holds, S.AllWellFormed, Whole;
    HoldsAhead(s, S.LayoutAll(items));
    S.FirstItem(AsCoded, Whole(s), s.pos, items);
  }

  lemma HoldsAhead(s: Input, ahead: bytes)
    requires s.pos == s.eod && Flatten(s.feed) == ahead
    ensures Holds(Whole(s), s.pos, ahead)
  {
    hide Flatten;
    assert Whole(s) == s.mem[..s.eod] + ahead;
  }

  /** Parsing the first one. */
  lemma FirstTaken(s: Input, items: seq<S.Item>)
    requires Ahead(s, items) && items != []
    ensures var n, p := |S.Layout(items[0])|, ParseInput(AsCoded, s);
            && p.parsed == Good(S.Expected(items[0], s.pos), s.pos + n) && p.input == Fill(s, n).input.Moved(n)
            && (EndsAt(s.feed, n) <==> Unread(p.input) == 0) && p.input.pos <= p.input.eod
  {
    hide ParseInput, EndsAt, S.Layout, S.Expected, Flatten;
    FirstAhead(s, items);
    ItemTakes(s, items[0]);
    FillEnds(s, |S.Layout(items[0])|);
  }

  /** What is ahead behind it if it ends with a chunk, whether the input is rewound or not. */
  lemma RestAhead(s: Input, items: seq<S.Item>)
    requires Ahead(s, items) && items != [] && EndsAt(s.feed, |S.Layout(items[0])|)
    ensures var p := ParseInput(AsCoded, s).input;
            && Ahead(p, items[1..]) && Ahead(Rewound(p), items[1..])
            && forall k: nat :: k < |items| ==>
                 (EndsAt(p.feed, Offset(items[1..], k)) <==> EndsAt(s.feed, Offset(items, k + 1)))
  {
    hide ParseInput, EndsAt, S.Layout;
    FirstTaken(s, items);
    FirstAhead(s, items);
    FillEnds(s, |S.Layout(items[0])|);
    RestBytes(s, items);
    RestEnds(s, items);
  }

  lemma RestEnds(s: Input, items: seq<S.Item>)
    requires s.Available() == 0 && items != []
    requires Fill(s, |S.Layout(items[0])|).input.Available() == |S.Layout(items[0])|
    ensures forall k: nat :: k < |items| ==>
              (EndsAt(Fill(s, |S.Layout(items[0])|).input.feed, Offset(items[1..], k))
               <==> EndsAt(s.feed, Offset(items, k + 1)))
  {
    hide S.Layout, EndsAt, Fill;
    var n := |S.Layout(items[0])|;
    forall k: nat | k < |items|
      ensures EndsAt(Fill(s, n).input.feed, Offset(items[1..], k)) <==> EndsAt(s.feed, Offset(items, k + 1))
    {
      FillLater(s, n, n + Offset(items[1..], k));
    }
  }

  lemma RestBytes(s: Input, items: seq<S.Item>)
    requires Ahead(s, items) && items != []
    requires Fill(s, |S.Layout(items[0])|).input.Available() == |S.Layout(items[0])|
    ensures Flatten(Fill(s, |S.Layout(items[0])|).input.feed) == S.LayoutAll(items[1..])
  {
    hide S.Layout, Flatten, Fill, S.AllWellFormed;
    RestOf(s, S.Layout(items[0]), S.LayoutAll(items[1..]));
  }

  lemma RestOf(s: Input, first: bytes, rest: bytes)
    requires s.pos == s.eod && Flatten(s.feed) == first + rest && Fill(s, |first|).input.Available() == |first|
    ensures Flatten(Fill(s, |first|).input.feed) == rest
  {
    hide Flatten, Fill;
    var r := Fill(s, |first|).input;
    FillKeeps(s, |first|);
    assert Whole(r)[r.eod..] == Flatten(r.feed);
    assert Whole(s) == s.mem[..s.eod] + (first + rest);
    assert Whole(s)[s.eod + |first|..] == rest;
  }

  // ------------------------------------------------------------ nothing is lost

  lemma NothingAhead(cfg: Config, link: Link, c: Conn, s: Input)
    requires Ahead(s, [])
    ensures Serve(cfg, link, c, s).dropped == 0
  {
    HeaderParses(AsCoded, s);
    ServeGivesUp(cfg, link, c, s);
  }

  /** Whatever the callbacks do and however writes fare, every rewind finds all read. */
  lemma {:induction false} NothingLost(cfg: Config, link: Link, c: Conn, s: Input, items: seq<S.Item>)
    requires Ahead(s, items) && AllEnd(s.feed, items)
    ensures Serve(cfg, link, c, s).dropped == 0
    decreases |items|
  {
    hide Serve, StepConn, ParseInput;
    if items == [] {
      NothingAhead(cfg, link, c, s);
    } else {
      assert EndsAt(s.feed, Offset(items, 1)) && Offset(items, 1) == |S.Layout(items[0])|;
      FirstTaken(s, items);
      RestAhead(s, items);
      var p := ParseInput(AsCoded, s);
      var ev := EventAt(p.input.mem, p.parsed.rec);
      var st := StepConn(cfg, link, c, ev);
      if st.status == Running {
        var s' := After(p.input, c, st.conn);
        ServeTurn(cfg, link, c, s, ev, st.conn, s', 0);
        NothingLost(cfg, link, st.conn, s', items[1..]);
      } else {
        ServeStops(cfg, link, c, s, ev);
      }
    }
  }

  // ---------------------------------------------------------- something is lost

  /** On these records, however they come, a configuration dispatches the first `m` and
      rewinds the input at the next. */
  ghost predicate RewindsAt(cfg: Config, link: Link, c: Conn, items: seq<S.Item>, m: nat)
    requires m < |items|
    decreases m
  {
    forall ev: Event :: Fixed(ev) == ItemEvent(items[0]) ==>
      var st := StepConn(cfg, link, c, ev);
      if m == 0 then st.conn.out.inRewinds > c.out.inRewinds
      else st.status == Running && RewindsAt(cfg, link, st.conn, items[1..], m - 1)
  }

  lemma TakenEvent(s: Input, items: seq<S.Item>)
    requires Ahead(s, items) && items != []
    ensures var p := ParseInput(AsCoded, s);
            p.parsed.Good? && Fixed(EventAt(p.input.mem, p.parsed.rec)) == ItemEvent(items[0])
  {
    hide ParseInput;
    FirstAhead(s, items);
    FirstTaken(s, items);
    ParsedBody(AsCoded, s);
    ItemRead(Whole(s), s.pos, items[0]);
  }

  /** If the record at which it does ends inside a chunk, and none before, that costs bytes. */
  lemma {:induction false} SomethingLost(cfg: Config, link: Link, c: Conn, s: Input, items: seq<S.Item>, m: nat)
    requires Ahead(s, items) && m < |items| && RewindsAt(cfg, link, c, items, m)
    requires (forall k: nat :: k <= m ==> EndsAt(s.feed, Offset(items, k))) && !EndsAt(s.feed, Offset(items, m + 1))
    ensures Serve(cfg, link, c, s).dropped > 0
    decreases m
  {
    hide Serve, StepConn, ParseInput, Fixed, ItemEvent;
    FirstTaken(s, items);
    TakenEvent(s, items);
    var p := ParseInput(AsCoded, s);
    var ev := EventAt(p.input.mem, p.parsed.rec);
    var st := StepConn(cfg, link, c, ev);
    assert Offset(items, 1) == |S.Layout(items[0])|;
    var s', d := After(p.input, c, st.conn), Dropped(p.input, c, st.conn);
    if st.status == Running {
      ServeTurn(cfg, link, c, s, ev, st.conn, s', d);
      if m > 0 {
        RestAhead(s, items);
        SomethingLost(cfg, link, st.conn, s', items[1..], m - 1);
      }
    } else {
      ServeStops(cfg, link, c, s, ev);
    }
  }

  // ------------------------------------------- a callback for every record

  /** A client that sends what its requests take: a RESPONDER begins under an id that is not
      in use, stream records and aborts go to a request that has begun. */
  predicate Disciplined(items: seq<S.Item>, live: set<u16>) {
    if items == [] then true
    else
      var i := items[0];
      match i.content
      case Begin(role, _, _) => role == RESPONDER && i.rid !in live && Disciplined(items[1..], live + {i.rid})
      case Abort => i.rid in live && Disciplined(items[1..], live - {i.rid})
      case Values(_) => false
      case Results(_) => false
      case _ => i.rid in live && Disciplined(items[1..], live)
  }

  function LiveAfter(i: S.Item, live: set<u16>): set<u16> {
    match i.content
    case Begin(_, _, _) => live + {i.rid}
    case Abort => live - {i.rid}
    case _ => live
  }

  /** How many records of a kind a request has had, a new one starting at none. */
  function CountAfter(i: S.Item, rid: u16, k: Kind, n: nat): nat {
    if i.rid != rid then n
    else if i.content.Begin? then 0
    else if Carries(i, k) then n + 1 else n
  }

  function CountAt(items: seq<S.Item>, m: nat, rid: u16, k: Kind, n: nat): nat
    requires m <= |items|
  {
    if m == 0 then n else CountAt(items[1..], m - 1, rid, k, CountAfter(items[0], rid, k, n))
  }

  /** A callback that finalizes a request of one id at its record number `n` of a kind, and
      does nothing else; none does for `n` zero. */
  function AtNth(rid: u16, k: Kind, n: nat): Handler {
    (ev: Event, q: Req) =>
      if ev.rec.rid == rid && |QueueOf(q, k)| == n then App.Then(FinalizeOp, Return(0)) else Return(0)
  }

  function EndsAtNth(rid: u16, k: Kind, n: nat): Config {
    Config(None, if k == InParams then Some(AtNth(rid, k, n)) else None,
           if k == InStdin then Some(AtNth(rid, k, n)) else None,
           if k == InData then Some(AtNth(rid, k, n)) else None, None, [], [], Debug)
  }

  function AlwaysSent(): Link {
    (n: nat) => true
  }

  lemma AnyRuns(cfg: Config, c: Conn, ev: Event)
    requires !ev.rec.body.ValuesBody?
    ensures StepConn(cfg, AlwaysSent(), c, ev).status == Running
  {
    hide Dispatch;
    RunProofs.StepIsArm(cfg, AlwaysSent(), c, ev);
    RunProofs.DispatchSucceeds(cfg, AlwaysSent(), c.out, Lookup(c.table, ev.rec.rid), ev, c.seen);
    if Dispatch(cfg, AlwaysSent(), c.out, Lookup(c.table, ev.rec.rid), ev, c.seen).status == Crashed {
      OnlyValuesCrash(cfg, AlwaysSent(), c.out, Lookup(c.table, ev.rec.rid), ev, c.seen);
    }
  }

  /** The request of an id is in the table as long as the client has it begun and it has not
      had its `n` records of a kind, and these are what its queue holds. */
  ghost predicate Standing(c: Conn, rid: u16, k: Kind, n: nat, live: set<u16>, had: nat) {
    && (rid in c.table <==> rid in live && (n == 0 || had < n))
    && (rid in c.table ==> !c.table[rid].req.complete && |QueueOf(c.table[rid].req, k)| == had)
  }

  lemma SlotAfter(cfg: Config, link: Link, c: Conn, ev: Event, rid: u16)
    requires StepConn(cfg, link, c, ev).status == Running
    ensures Lookup(StepConn(cfg, link, c, ev).conn.table, rid)
         == if rid == ev.rec.rid then Dispatch(cfg, link, c.out, Lookup(c.table, rid), ev, c.seen).slot
            else Lookup(c.table, rid)
  {
    hide Dispatch;
  }

  lemma BeginSlot(rid: u16, k: Kind, n: nat, c: Conn, ev: Event)
    requires ev.rec.body.BeginBody? && ev.rec.body.role == RESPONDER && ev.rec.rid !in c.table
    ensures Dispatch(EndsAtNth(rid, k, n), AlwaysSent(), c.out, None, ev, c.seen).slot
         == Some(Slot(NewReq(ev.rec), NewIds(c.seen)))
  {
  }

  lemma AbortSlot(cfg: Config, c: Conn, slot: Option<Slot>, ev: Event)
    requires ev.rec.body.AbortBody?
    ensures var arm := Dispatch(cfg, AlwaysSent(), c.out, slot, ev, c.seen);
            arm.slot == None && (slot.Some? && cfg.endRender.None? ==> arm.out.inRewinds > c.out.inRewinds)
  {
  }

  /** A queued record: the request stays, unless this is the record its callback waits for. */
  lemma StreamSlot(k: Kind, n: nat, c: Conn, s: Slot, ev: Event)
    requires IsStream(ev.rec.body) && !s.req.complete
    ensures var arm := Dispatch(EndsAtNth(ev.rec.rid, k, n), AlwaysSent(), c.out, Some(s), ev, c.seen);
            var q := Enqueue(s.req, ev.rec);
            if Goes(ev.rec.body, k) && |QueueOf(q, k)| == n then arm.slot == None && arm.out.inRewinds > c.out.inRewinds
            else arm.slot == Some(Slot(q, EnqueueId(s.ids, ev.rec.body, c.seen)))
  {
    var q := Enqueue(s.req, ev.rec);
    if Goes(ev.rec.body, k) && |QueueOf(q, k)| == n {
      App.RunThen(AlwaysSent(), c.out, q, FinalizeOp, Return(0));
    }
  }

  lemma NoSlot(cfg: Config, c: Conn, ev: Event)
    requires IsStream(ev.rec.body)
    ensures Dispatch(cfg, AlwaysSent(), c.out, None, ev, c.seen).slot == None
  {
  }

  lemma ItemBody(ev: Event, item: S.Item)
    requires Fixed(ev) == ItemEvent(item)
    ensures ev.rec.rid == item.rid && (ev.rec.body.ValuesBody? <==> item.content.Values?)
    ensures ev.rec.body.BeginBody? <==> item.content.Begin?
    ensures item.content.Begin? ==> ev.rec.body.role == item.content.role
    ensures ev.rec.body.AbortBody? <==> item.content.Abort?
    ensures IsStream(ev.rec.body) <==> item.content.Params? || item.content.Stdin? || item.content.Data?
    ensures forall k: Kind :: Goes(ev.rec.body, k) <==> Carries(item, k)
  {
    forall k: Kind ensures Goes(ev.rec.body, k) <==> Carries(item, k) {
      SameKind(ev, item, k);
    }
  }

  lemma StandingStep(rid: u16, k: Kind, n: nat, c: Conn, ev: Event, item: S.Item, live: set<u16>, had: nat)
    requires Fixed(ev) == ItemEvent(item) && Disciplined([item], live) && Standing(c, rid, k, n, live, had)
    ensures var st := StepConn(EndsAtNth(rid, k, n), AlwaysSent(), c, ev);
            st.status == Running && Standing(st.conn, rid, k, n, LiveAfter(item, live), CountAfter(item, rid, k, had))
  {
    hide StepConn, Dispatch, Fixed, ItemEvent, EndsAtNth;
    var cfg := EndsAtNth(rid, k, n);
    ItemBody(ev, item);
    AnyRuns(cfg, c, ev);
    SlotAfter(cfg, AlwaysSent(), c, ev, rid);
    if item.rid == rid {
      if item.content.Begin? {
        BeginSlot(rid, k, n, c, ev);
      } else if item.content.Abort? {
        AbortSlot(cfg, c, Lookup(c.table, rid), ev);
      } else if rid in c.table {
        StreamSlot(k, n, c, c.table[rid], ev);
        assert |QueueOf(Enqueue(c.table[rid].req, ev.rec), k)| == had + if Goes(ev.rec.body, k) then 1 else 0;
      } else {
        NoSlot(cfg, c, ev);
      }
    }
  }

  lemma RewindsNow(rid: u16, k: Kind, n: nat, c: Conn, ev: Event, item: S.Item, live: set<u16>, had: nat)
    requires Fixed(ev) == ItemEvent(item) && item.rid == rid && rid in live && Standing(c, rid, k, n, live, had)
    requires (item.content.Abort? && n == 0) || (Carries(item, k) && n == had + 1)
    ensures StepConn(EndsAtNth(rid, k, n), AlwaysSent(), c, ev).conn.out.inRewinds > c.out.inRewinds
  {
    hide StepConn, Dispatch, Fixed, ItemEvent;
    var cfg := EndsAtNth(rid, k, n);
    ItemBody(ev, item);
    AnyRuns(cfg, c, ev);
    RunProofs.StepIsArm(cfg, AlwaysSent(), c, ev);
    if item.content.Abort? {
      AbortSlot(cfg, c, Lookup(c.table, rid), ev);
    } else {
      StreamSlot(k, n, c, c.table[rid], ev);
    }
  }

  lemma {:induction false} StreamRewinds(rid: u16, k: Kind, n: nat, c: Conn, items: seq<S.Item>, m: nat,
                                         live: set<u16>, had: nat)
    requires m < |items| && Disciplined(items, live) && Standing(c, rid, k, n, live, had) && items[m].rid == rid
    requires (items[m].content.Abort? && n == 0) || (Carries(items[m], k) && n == CountAt(items, m, rid, k, had) + 1)
    ensures RewindsAt(EndsAtNth(rid, k, n), AlwaysSent(), c, items, m)
    decreases m
  {
    hide StepConn, Fixed, ItemEvent, EndsAtNth, Standing;
    var cfg := EndsAtNth(rid, k, n);
    assert items[0..1] == [items[0]] && Disciplined([items[0]], live);
    forall ev: Event | Fixed(ev) == ItemEvent(items[0])
      ensures var st := StepConn(cfg, AlwaysSent(), c, ev);
              if m == 0 then st.conn.out.inRewinds > c.out.inRewinds
              else st.status == Running && RewindsAt(cfg, AlwaysSent(), st.conn, items[1..], m - 1)
    {
      if m == 0 {
        RewindsNow(rid, k, n, c, ev, items[0], live, had);
      } else {
        StandingStep(rid, k, n, c, ev, items[0], live, had);
        StreamRewinds(rid, k, n, StepConn(cfg, AlwaysSent(), c, ev).conn, items[1..], m - 1, LiveAfter(items[0], live),
                      CountAfter(items[0], rid, k, had));
      }
    }
  }

  // ------------------------------------------------ finalizing at the beginning

  lemma NeverStays(rid: u16, c: Conn, ev: Event)
    requires rid !in c.table && !ev.rec.body.ValuesBody?
    ensures var st := StepConn(EndsAtOnce(rid), AlwaysSent(), c, ev);
            st.status == Running && rid !in st.conn.table
    ensures ev.rec.rid == rid && ev.rec.body.BeginBody? && ev.rec.body.role == RESPONDER ==>
              StepConn(EndsAtOnce(rid), AlwaysSent(), c, ev).conn.out.inRewinds > c.out.inRewinds
  {
    hide StepConn;
    AnyRuns(EndsAtOnce(rid), c, ev);
    SlotAfter(EndsAtOnce(rid), AlwaysSent(), c, ev, rid);
    if ev.rec.rid == rid && ev.rec.body.BeginBody? && ev.rec.body.role == RESPONDER {
      Finalizes(AlwaysSent(), c, ev);
    }
  }

  lemma BeginTurn(rid: u16, c: Conn, ev: Event, item: S.Item)
    requires Fixed(ev) == ItemEvent(item) && rid !in c.table && !item.content.Values?
    ensures var st := StepConn(EndsAtOnce(rid), AlwaysSent(), c, ev);
            && st.status == Running && rid !in st.conn.table
            && (item.rid == rid && item.content.Begin? && item.content.role == RESPONDER ==>
                  st.conn.out.inRewinds > c.out.inRewinds)
  {
    hide StepConn, Fixed, ItemEvent, EndsAtOnce;
    ItemBody(ev, item);
    NeverStays(rid, c, ev);
  }

  predicate NoQuery(items: seq<S.Item>) {
    forall j :: 0 <= j < |items| ==> !items[j].content.Values?
  }

  lemma NoQueryRest(items: seq<S.Item>)
    requires NoQuery(items) && items != []
    ensures !items[0].content.Values? && NoQuery(items[1..])
  {
  }

  lemma {:induction false} BeginRewinds(rid: u16, c: Conn, items: seq<S.Item>, m: nat)
    requires m < |items| && rid !in c.table
    requires items[m].rid == rid && items[m].content.Begin? && items[m].content.role == RESPONDER
    requires NoQuery(items)
    ensures RewindsAt(EndsAtOnce(rid), AlwaysSent(), c, items, m)
    decreases m
  {
    hide StepConn, Fixed, ItemEvent, EndsAtOnce, NoQuery;
    NoQueryRest(items);
    forall ev: Event | Fixed(ev) == ItemEvent(items[0])
      ensures var st := StepConn(EndsAtOnce(rid), AlwaysSent(), c, ev);
              if m == 0 then st.conn.out.inRewinds > c.out.inRewinds
              else st.status == Running && RewindsAt(EndsAtOnce(rid), AlwaysSent(), st.conn, items[1..], m - 1)
    {
      BeginTurn(rid, c, ev, items[0]);
      if m > 0 {
        BeginRewinds(rid, StepConn(EndsAtOnce(rid), AlwaysSent(), c, ev).conn, items[1..], m - 1);
      }
    }
  }

  // ---------------------------------------------------------------- both ways

  lemma {:induction false} LiveAt(items: seq<S.Item>, m: nat, live: set<u16>)
    requires m < |items| && Disciplined(items, live)
    ensures items[m].content.Begin? ==> items[m].content.role == RESPONDER
    ensures !items[m].content.Values? && !items[m].content.Results?
    decreases m
  {
    if m > 0 {
      LiveAt(items[1..], m - 1, LiveAfter(items[0], live));
    }
  }

  function KindOf(i: S.Item): Kind {
    if i.content.Params? then InParams else if i.content.Data? then InData else InStdin
  }

  /** For every record a disciplined client sends there is a configuration that rewinds the
      input at it. */
  lemma SomeRewinds(items: seq<S.Item>, m: nat) returns (cfg: Config)
    requires m < |items| && Disciplined(items, {})
    ensures RewindsAt(cfg, AlwaysSent(), START, items, m)
  {
    hide RewindsAt;
    var i := items[m];
    var rid, k := i.rid, KindOf(i);
    LiveAt(items, m, {});
    if i.content.Begin? {
      cfg := EndsAtOnce(rid);
      forall j | 0 <= j < |items| ensures !items[j].content.Values? {
        LiveAt(items, j, {});
      }
      BeginRewinds(rid, START, items, m);
    } else {
      var n := if i.content.Abort? then 0 else CountAt(items, m, rid, k, 0) + 1;
      cfg := EndsAtNth(rid, k, n);
      StreamRewinds(rid, k, n, START, items, m, {}, 0);
    }
  }

  lemma {:induction false} FirstOpenEnd(feed: seq<bytes>, items: seq<S.Item>, k: nat) returns (m: nat)
    requires k <= |items| && !EndsAt(feed, Offset(items, k))
    ensures m < |items| && !EndsAt(feed, Offset(items, m + 1)) && forall j: nat :: j <= m ==> EndsAt(feed, Offset(items, j))
  {
    m := 0;
    while EndsAt(feed, Offset(items, m + 1))
      invariant m < k && forall j: nat :: j <= m ==> EndsAt(feed, Offset(items, j))
      decreases k - m
    {
      m := m + 1;
    }
  }

  /** Whether anything can be lost is a matter of the feed alone: of the records of a
      disciplined client, no callbacks and no writes can cost a byte if and only if every
      record's last byte ends a chunk. */
  lemma SafeFeedIff(feed: seq<bytes>, items: seq<S.Item>)
    requires S.AllWellFormed(AsCoded, items) && Flatten(feed) == S.LayoutAll(items) && Disciplined(items, {})
    ensures (forall cfg: Config, link: Link :: Serve(cfg, link, START, Buffered.Input([], 0, 0, feed)).dropped == 0)
       <==> AllEnd(feed, items)
  {
    hide Serve, EndsAt, Offset, RewindsAt, Disciplined;
    var s: Input := Buffered.Input([], 0, 0, feed);
    if AllEnd(feed, items) {
      forall cfg: Config, link: Link ensures Serve(cfg, link, START, s).dropped == 0 {
        NothingLost(cfg, link, START, s, items);
      }
    } else {
      var k: nat :| k <= |items| && !EndsAt(feed, Offset(items, k));
      var m := FirstOpenEnd(feed, items, k);
      var cfg := SomeRewinds(items, m);
      SomethingLost(cfg, AlwaysSent(), START, s, items, m);
    }
  }

  /** On such a feed everything is dispatched, whatever the callbacks do, when the peer hangs
      up before a write fails. */
  lemma SafeFeedDispatched(cfg: Config, link: Link, feed: seq<bytes>, items: seq<S.Item>)
    requires S.AllWellFormed(AsCoded, items) && Flatten(feed) == S.LayoutAll(items) && AllEnd(feed, items)
    requires Serve(cfg, link, START, Buffered.Input([], 0, 0, feed)).exit == ParseFailed
    ensures FixedAll(Serve(cfg, link, START, Buffered.Input([], 0, 0, feed)).events) == ItemEvents(items)
  {
    hide Serve, EndsAt, Offset;
    NothingLost(cfg, link, START, Buffered.Input([], 0, 0, feed), items);
    AllDispatchedIff(cfg, link, feed, items);
  }
}
