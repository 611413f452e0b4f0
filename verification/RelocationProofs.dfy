/** Where in the input buffer a body lies makes no difference to callbacks that read only
    its bytes: connections that carry the same records at other places run alike. */
module RelocationProofs {
  import opened Bytes
  import opened Wire
  import opened Headers
  import opened Engine
  import opened RequestProofs
  import opened Sessions
  import opened SessionProofs
  import opened DeliveryProofs
  import DispatchProofs
  import RunProofs
  import S = StreamProofs

  /** A record without the place of its body. */
  function Erased(rec: Record): Record {
    match rec.body
    case StdinBody(_, _) => rec.(body := StdinBody(0, 0))
    case DataBody(_, _) => rec.(body := DataBody(0, 0))
    case _ => rec
  }

  ghost predicate SameRecords(a: seq<Record>, b: seq<Record>) {
    |a| == |b| && forall i :: 0 <= i < |a| ==> Erased(a[i]) == Erased(b[i])
  }

  ghost predicate SameEvent(a: Event, b: Event) {
    Erased(a.rec) == Erased(b.rec) && a.body == b.body
  }

  /** The same request, its bodies elsewhere. */
  ghost predicate Alike(q: Req, r: Req) {
    && r == q.(stdin := r.stdin, data := r.data)
    && SameRecords(q.stdin, r.stdin) && SameRecords(q.data, r.data)
  }

  /** A callback that looks at body bytes and not at where they are. */
  ghost predicate Blind(h: Option<Handler>) {
    h.Some? ==> forall a: Event, b: Event, q: Req, r: Req ::
      SameEvent(a, b) && Alike(q, r) ==> h.value(a, q) == h.value(b, r)
  }

  ghost predicate AllBlind(cfg: Config) {
    Blind(cfg.beginParse) && Blind(cfg.paramsParse) && Blind(cfg.stdinParse) && Blind(cfg.dataParse)
  }

  // ------------------------------------------------------------- one callback

  lemma {:induction false} PiecesAlike(o: Out, q: Req, r: Req, payloads: seq<bytes>)
    requires Alike(q, r)
    ensures PutPieces(o, q, payloads).out == PutPieces(o, r, payloads).out
    ensures Alike(PutPieces(o, q, payloads).req, PutPieces(o, r, payloads).req)
    decreases |payloads|
  {
    if payloads != [] {
      var rec := StdoutOut(q.begin.rid, Chunk(payloads[0], |payloads[0]|));
      PiecesAlike(PutOwn(o, q, rec).out, PutOwn(o, q, rec).req, PutOwn(o, r, rec).req, payloads[1..]);
    }
  }

  lemma DoAlike(link: Link, o: Out, q: Req, r: Req, op: Op)
    requires Alike(q, r)
    ensures var a, b := Do(link, o, q, op), Do(link, o, r, op);
            a.out == b.out && a.code == b.code && Alike(a.req, b.req)
  {
    if op.HeadersEndOp? {
      PiecesAlike(o, q.(headers := []), r.(headers := []), PackAll(q.headers) + [CRLF]);
    }
  }

  lemma {:induction false} RunAlike(link: Link, o: Out, q: Req, r: Req, p: Prog)
    requires Alike(q, r)
    ensures var a, b := Run(link, o, q, p), Run(link, o, r, p);
            a.out == b.out && a.rc == b.rc && Alike(a.req, b.req)
    decreases p
  {
    match p
    case Return(_) =>
    case Step(op, _, _, _, _, _, _, _) =>
      DoAlike(link, o, q, r, op);
      var a, b := Do(link, o, q, op), Do(link, o, r, op);
      RunAlike(link, a.out, a.req, b.req, p.Next(a.code));
  }

  lemma ServedAlike(h: Option<Handler>, link: Link, o: Out, q: Req, r: Req, ev: Event, ev': Event)
    requires Blind(h) && Alike(q, r) && SameEvent(ev, ev')
    ensures var a, b := Served(h, link, o, q, ev), Served(h, link, o, r, ev');
            a.out == b.out && a.rc == b.rc && Alike(a.req, b.req)
  {
    if h.Some? {
      assert h.value(ev, q) == h.value(ev', r);
      RunAlike(link, o, q, r, h.value(ev, q));
    }
  }

  // ------------------------------------------------------------- one dispatch

  ghost predicate SameSlot(a: Option<Slot>, b: Option<Slot>) {
    match a
    case None => b.None?
    case Some(s) => b.Some? && Alike(s.req, b.value.req) && s.ids == b.value.ids
  }

  ghost predicate SameArm(a: Arm, b: Arm) {
    a.out == b.out && a.status == b.status && SameSlot(a.slot, b.slot)
  }

  lemma DismissAlike(cfg: Config, link: Link, o: Out, s: Slot, t: Slot, extra: seq<nat>, id: nat)
    requires Alike(s.req, t.req) && s.ids == t.ids
    ensures SameArm(Dismiss(cfg, link, o, s, extra, id), Dismiss(cfg, link, o, t, extra, id))
    ensures SameArm(Retire(cfg, link, o, s), Retire(cfg, link, o, t))
  {
    assert Wiped(s.req) == Wiped(t.req);
  }

  lemma SettleAlike(cfg: Config, link: Link, a: Returned, b: Returned, ids: Ids, body: Body, body': Body, id: nat)
    requires a.out == b.out && a.rc == b.rc && Alike(a.req, b.req)
    requires body.StdinBody? == body'.StdinBody? && body.DataBody? == body'.DataBody?
    ensures SameArm(Settle(cfg, link, a, ids, body, id), Settle(cfg, link, b, ids, body', id))
  {
    DismissAlike(cfg, link, a.out, Slot(a.req, ids), Slot(b.req, ids), [], id);
  }

  lemma StreamAlike(cfg: Config, link: Link, o: Out, s: Option<Slot>, t: Option<Slot>, ev: Event, ev': Event, id: nat)
    requires AllBlind(cfg) && SameSlot(s, t) && SameEvent(ev, ev') && IsStream(ev.rec.body)
    ensures IsStream(ev'.rec.body)
    ensures SameArm(DispatchStream(cfg, link, o, s, ev, id), DispatchStream(cfg, link, o, t, ev', id))
  {
    if s.Some? {
      var q, r := Enqueue(s.value.req, ev.rec), Enqueue(t.value.req, ev'.rec);
      var h := StreamHandler(cfg, ev.rec.body);
      hide Settle, Served;
      ServedAlike(h, link, o, q, r, ev, ev');
      SettleAlike(cfg, link, Served(h, link, o, q, ev), Served(h, link, o, r, ev'), EnqueueId(s.value.ids, ev.rec.body, id),
                  ev.rec.body, ev'.rec.body, id);
    }
  }

  lemma BeginAlike(cfg: Config, link: Link, o: Out, s: Option<Slot>, t: Option<Slot>, ev: Event, ev': Event, id: nat)
    requires AllBlind(cfg) && SameSlot(s, t) && SameEvent(ev, ev') && ev.rec.body.BeginBody?
    ensures ev'.rec.body.BeginBody?
    ensures SameArm(DispatchBegin(cfg, link, o, s, ev, id), DispatchBegin(cfg, link, o, t, ev', id))
  {
    hide Settle, Served;
    assert ev.rec == ev'.rec;
    ServedAlike(cfg.beginParse, link, o, NewReq(ev.rec), NewReq(ev.rec), ev, ev');
    SettleAlike(cfg, link, Served(cfg.beginParse, link, o, NewReq(ev.rec), ev),
                Served(cfg.beginParse, link, o, NewReq(ev.rec), ev'), NewIds(id), ev.rec.body, ev.rec.body, id);
  }

  lemma AbortAlike(cfg: Config, link: Link, o: Out, s: Option<Slot>, t: Option<Slot>, ev: Event, ev': Event, id: nat)
    requires SameSlot(s, t) && ev.rec.rid == ev'.rec.rid
    ensures SameArm(DispatchAbort(cfg, link, o, s, ev, id), DispatchAbort(cfg, link, o, t, ev', id))
  {
    if s.Some? {
      var a, b := Abort(link, o, s.value.req, 0), Abort(link, o, t.value.req, 0);
      DismissAlike(cfg, link, a.out, Slot(a.req, s.value.ids), Slot(b.req, t.value.ids), [id], id);
    }
  }

  lemma DispatchAlike(cfg: Config, link: Link, o: Out, s: Option<Slot>, t: Option<Slot>, ev: Event, ev': Event, id: nat)
    requires AllBlind(cfg) && SameSlot(s, t) && SameEvent(ev, ev')
    ensures SameArm(Dispatch(cfg, link, o, s, ev, id), Dispatch(cfg, link, o, t, ev', id))
  {
    hide DispatchBegin, DispatchStream, DispatchAbort;
    match ev.rec.body
    case BeginBody(_, _) => BeginAlike(cfg, link, o, s, t, ev, ev', id);
    case AbortBody => AbortAlike(cfg, link, o, s, t, ev, ev', id);
    case ParamsBody(_) => StreamAlike(cfg, link, o, s, t, ev, ev', id);
    case StdinBody(_, _) => StreamAlike(cfg, link, o, s, t, ev, ev', id);
    case DataBody(_, _) => StreamAlike(cfg, link, o, s, t, ev, ev', id);
    case _ => assert ev.rec == ev'.rec;
  }

  // ---------------------------------------------------------------- whole runs

  ghost predicate SameConn(c: Conn, d: Conn) {
    c.out == d.out && c.seen == d.seen && forall rid: u16 :: SameSlot(Lookup(c.table, rid), Lookup(d.table, rid))
  }

  lemma AfterAlike(c: Conn, d: Conn, rid: u16, a: Arm, b: Arm)
    requires SameConn(c, d) && SameArm(a, b)
    ensures SameConn(RunProofs.AfterArm(c, rid, a), RunProofs.AfterArm(d, rid, b))
  {
    var c', d' := RunProofs.AfterArm(c, rid, a), RunProofs.AfterArm(d, rid, b);
    forall x: u16 ensures SameSlot(Lookup(c'.table, x), Lookup(d'.table, x)) {
      assert SameSlot(Lookup(c.table, x), Lookup(d.table, x));
    }
  }

  lemma HangupAlike(c: Conn, d: Conn)
    requires SameConn(c, d)
    ensures SameConn(Hangup(c), Hangup(d))
  {
    forall x: u16 ensures SameSlot(Lookup(Hangup(c).table, x), Lookup(Hangup(d).table, x)) {
      assert SameSlot(Lookup(c.table, x), Lookup(d.table, x));
    }
  }

  lemma ArmsAlike(cfg: Config, link: Link, c: Conn, d: Conn, ev: Event, ev': Event)
    requires AllBlind(cfg) && SameConn(c, d) && SameEvent(ev, ev')
    ensures ev.rec.rid == ev'.rec.rid
    ensures var a := Dispatch(cfg, link, c.out, Lookup(c.table, ev.rec.rid), ev, c.seen);
            var b := Dispatch(cfg, link, d.out, Lookup(d.table, ev'.rec.rid), ev', d.seen);
            SameArm(a, b) && a.status == b.status
  {
    hide Dispatch, AllBlind;
    DispatchAlike(cfg, link, c.out, Lookup(c.table, ev.rec.rid), Lookup(d.table, ev.rec.rid), ev, ev', c.seen);
  }

  lemma StepAlike(cfg: Config, link: Link, c: Conn, d: Conn, ev: Event, ev': Event)
    requires AllBlind(cfg) && SameConn(c, d) && SameEvent(ev, ev')
    ensures StepConn(cfg, link, c, ev).status == StepConn(cfg, link, d, ev').status
    ensures SameConn(StepConn(cfg, link, c, ev).conn, StepConn(cfg, link, d, ev').conn)
  {
    hide Dispatch, AllBlind, SameEvent, StepConn, Hangup, RunProofs.AfterArm, SameConn, SameArm;
    var a := Dispatch(cfg, link, c.out, Lookup(c.table, ev.rec.rid), ev, c.seen);
    var b := Dispatch(cfg, link, d.out, Lookup(d.table, ev'.rec.rid), ev', d.seen);
    ArmsAlike(cfg, link, c, d, ev, ev');
    RunProofs.StepIsArm(cfg, link, c, ev);
    RunProofs.StepIsArm(cfg, link, d, ev');
    AfterAlike(c, d, ev.rec.rid, a, b);
    HangupAlike(RunProofs.AfterArm(c, ev.rec.rid, a), RunProofs.AfterArm(d, ev.rec.rid, b));
  }

  ghost predicate SameEvents(evs: seq<Event>, evs': seq<Event>) {
    |evs| == |evs'| && forall i :: 0 <= i < |evs| ==> SameEvent(evs[i], evs'[i])
  }

  /** The same records at other places: the same run, output and all. */
  lemma {:induction false} RunRelocated(cfg: Config, link: Link, c: Conn, d: Conn, evs: seq<Event>, evs': seq<Event>)
    requires AllBlind(cfg) && SameConn(c, d) && SameEvents(evs, evs')
    ensures RunConn(cfg, link, c, evs).status == RunConn(cfg, link, d, evs').status
    ensures SameConn(RunConn(cfg, link, c, evs).conn, RunConn(cfg, link, d, evs').conn)
    decreases |evs|
  {
    hide StepConn, AllBlind, SameEvent, SameConn;
    if evs != [] {
      StepAlike(cfg, link, c, d, evs[0], evs'[0]);
      var s, t := StepConn(cfg, link, c, evs[0]), StepConn(cfg, link, d, evs'[0]);
      if s.status == Running {
        RunRelocated(cfg, link, s.conn, t.conn, evs[1..], evs'[1..]);
      }
    }
  }

  // ------------------------------------------------------ multiplexed sessions

  function OnlyItems(items: seq<S.Item>, rid: u16): seq<S.Item> {
    if items == [] then []
    else (if items[0].rid == rid then [items[0]] else []) + OnlyItems(items[1..], rid)
  }

  lemma {:induction false} OnlyWellFormed(items: seq<S.Item>, rid: u16)
    requires S.AllWellFormed(AsCoded, items)
    ensures S.AllWellFormed(AsCoded, OnlyItems(items, rid))
  {
    if items != [] {
      OnlyWellFormed(items[1..], rid);
    }
  }

  lemma FixedSame(a: Event, b: Event)
    requires Fixed(a) == Fixed(b)
    ensures SameEvent(a, b)
  {
  }

  lemma FixedItem(ev: Event, item: S.Item)
    requires Fixed(ev) == ItemEvent(item)
    ensures ev.rec.rid == item.rid
  {
  }

  lemma {:induction false} OnlyEvents(evs: seq<Event>, items: seq<S.Item>, rid: u16)
    requires FixedAll(evs) == ItemEvents(items)
    ensures FixedAll(RunProofs.Only(evs, rid)) == ItemEvents(OnlyItems(items, rid))
    decreases |evs|
  {
    hide ItemEvent, Fixed;
    ExpectedLength(items, 0);
    if evs != [] {
      assert FixedAll(evs)[1..] == FixedAll(evs[1..]) && ItemEvents(items)[1..] == ItemEvents(items[1..]);
      assert Fixed(evs[0]) == FixedAll(evs)[0] == ItemEvent(items[0]);
      FixedItem(evs[0], items[0]);
      OnlyEvents(evs[1..], items[1..], rid);
      if items[0].rid == rid {
        FixedCons(evs[0], RunProofs.Only(evs[1..], rid));
        ItemEventsCons(items[0], OnlyItems(items[1..], rid));
      } else {
        assert RunProofs.Only(evs, rid) == RunProofs.Only(evs[1..], rid);
        assert OnlyItems(items, rid) == OnlyItems(items[1..], rid);
      }
    }
  }

  lemma ItemsHaveIds(evs: seq<Event>, items: seq<S.Item>)
    requires FixedAll(evs) == ItemEvents(items) && S.AllWellFormed(AsCoded, items)
    ensures RunProofs.ParsedIds(evs)
  {
    hide ItemEvents, ItemEvent, Fixed;
    forall i | 0 <= i < |evs| && evs[i].rec.body.ValuesBody? ensures evs[i].rec.rid == 0 {
      ExpectedLength(items, 0);
      ItemEventsAt(items, i);
      assert Fixed(evs[i]) == FixedAll(evs)[i];
      QueryItem(evs[i], items[i]);
    }
  }

  lemma QueryItem(ev: Event, item: S.Item)
    requires Fixed(ev) == ItemEvent(item)
    ensures ev.rec.rid == item.rid && (ev.rec.body.ValuesBody? <==> item.content.Values?)
  {
  }

  lemma {:induction false} ItemEventsAt(items: seq<S.Item>, i: nat)
    requires i < |items|
    ensures |ItemEvents(items)| == |items| && ItemEvents(items)[i] == ItemEvent(items[i])
    decreases |items|
  {
    hide ItemEvent;
    ExpectedLength(items, 0);
    if i > 0 {
      ItemEventsAt(items[1..], i - 1);
    }
  }

  lemma ItemEventsCons(item: S.Item, items: seq<S.Item>)
    ensures ItemEvents([item] + items) == [ItemEvent(item)] + ItemEvents(items)
  {
    assert ([item] + items)[1..] == items;
  }

  lemma SameFixed(evs: seq<Event>, evs': seq<Event>)
    requires FixedAll(evs) == FixedAll(evs')
    ensures SameEvents(evs, evs')
  {
    forall i | 0 <= i < |evs| ensures |evs| == |evs'| && SameEvent(evs[i], evs'[i]) {
      assert FixedAll(evs)[i] == FixedAll(evs')[i];
      FixedSame(evs[i], evs'[i]);
    }
    assert |FixedAll(evs)| == |FixedAll(evs')|;
  }

  /** Multiplexing is invisible on the wire: of two clients, one sends the records of many
      requests interleaved, the other those of one id alone, each in chunks of its own. While
      writes succeed and no rewind drops unread bytes, callbacks that read only body bytes
      give that id exactly the same records on both connections. */
  lemma SessionsAlike(cfg: Config, link: Link, feed: seq<bytes>, alone: seq<bytes>, items: seq<S.Item>, rid: u16)
    requires AllWritesSucceed(link) && AllBlind(cfg) && rid != 0
    requires S.AllWellFormed(AsCoded, items)
    requires Flatten(feed) == S.LayoutAll(items) && Flatten(alone) == S.LayoutAll(OnlyItems(items, rid))
    requires var r := Serve(cfg, link, START, Buffered.Input([], 0, 0, feed)); r.exit == ParseFailed && r.dropped == 0
    requires var r := Serve(cfg, link, START, Buffered.Input([], 0, 0, alone)); r.exit == ParseFailed && r.dropped == 0
    ensures var r := Serve(cfg, link, START, Buffered.Input([], 0, 0, feed));
            var r' := Serve(cfg, link, START, Buffered.Input([], 0, 0, alone));
            DispatchProofs.RidEntries(r.conn.out.log, rid) == DispatchProofs.RidEntries(r'.conn.out.log, rid)
  {
    hide Serve, FixedAll, AllBlind;
    var r := Serve(cfg, link, START, Buffered.Input([], 0, 0, feed));
    var r' := Serve(cfg, link, START, Buffered.Input([], 0, 0, alone));
    OnlyWellFormed(items, rid);
    AllDispatchedIff(cfg, link, feed, items);
    AllDispatchedIff(cfg, link, alone, OnlyItems(items, rid));
    OnlyEvents(r.events, items, rid);
    SameFixed(RunProofs.Only(r.events, rid), r'.events);
    ServeRuns(cfg, link, START, Buffered.Input([], 0, 0, feed));
    ServeRuns(cfg, link, START, Buffered.Input([], 0, 0, alone));
    ItemsHaveIds(r.events, items);
    RunProofs.MultiplexingInvisible(cfg, link, r.events, rid);
    StartAlike();
    RunRelocated(cfg, link, START, START, RunProofs.Only(r.events, rid), r'.events);
  }

  lemma StartAlike()
    ensures SameConn(START, START)
  {
  }
}
