/** Whole runs: what holds of a connection after any sequence of dispatched records,
    whatever the callbacks do. */
module RunProofs {
  import opened Bytes
  import opened Wire
  import opened Headers
  import opened Engine
  import opened RequestProofs
  import opened DispatchProofs
  import PairProofs
  import StreamProofs

  // --------------------------------------------------------------- invariant

  /** What the destroyed requests of an id put out, one request after the other. */
  function DoneSent(done: seq<Req>, rid: u16): seq<OutRecord> {
    if done == [] then []
    else DoneSent(done[..|done| - 1], rid)
         + if done[|done| - 1].begin.rid == rid then done[|done| - 1].sent else []
  }

  /** An id's own records in the log are those of its successive requests, each complete
      but the one in the table. */
  ghost predicate Accounted(c: Conn, rid: u16) {
    OwnRecords(c.out.log, rid) == DoneSent(c.done, rid) + SentIn(Lookup(c.table, rid))
  }

  ghost predicate Invariant(c: Conn) {
    && Conserved(c.out)
    && Faithful(c.out.log)
    && (forall rid <- c.table :: Open(c.table[rid].req, rid))
    && (forall k :: 0 <= k < |c.done| ==> Closed(c.done[k], c.done[k].begin.rid))
    && (forall rid: u16 :: Accounted(c, rid))
  }

  /** After the error exit: whatever is left has ended without an END_REQUEST. */
  ghost predicate Ended(c: Conn) {
    && c.out.unsent == []
    && (forall rid <- c.table :: var q := c.table[rid].req; q.begin.rid == rid && q.complete && AllStdout(q.sent, rid))
    && (forall k :: 0 <= k < |c.done| ==> Closed(c.done[k], c.done[k].begin.rid))
    && (forall rid: u16 :: Accounted(c, rid))
  }

  lemma HangupEnds(c: Conn)
    requires Invariant(c)
    ensures Ended(Hangup(c))
  {
    forall rid: u16 ensures Accounted(Hangup(c), rid) {
      assert Accounted(c, rid);
    }
    forall rid <- c.table ensures AllStdout(c.table[rid].req.sent, rid) {
      assert Open(c.table[rid].req, rid);
    }
  }

  /** The connection after a dispatch, before the error exit if it takes one. */
  ghost function AfterArm(c: Conn, rid: u16, arm: Arm): Conn {
    Conn(Updated(c.table, rid, arm.slot), arm.out, c.seen + 1, c.freed + arm.freed, c.done + arm.done,
         c.dangling || arm.dangling)
  }

  /** A step is a dispatch, and the error exit if it asks for it. */
  lemma StepIsArm(cfg: Config, link: Link, c: Conn, ev: Event)
    ensures var arm := Dispatch(cfg, link, c.out, Lookup(c.table, ev.rec.rid), ev, c.seen);
            var c' := AfterArm(c, ev.rec.rid, arm);
            StepConn(cfg, link, c, ev) == Stepped(if arm.status == Stopped then Hangup(c') else c', arm.status)
  {
  }

  /** At most one request is destroyed by a dispatch. */
  lemma DoneSentAppend(done: seq<Req>, more: seq<Req>, rid: u16)
    requires |more| <= 1 && forall k :: 0 <= k < |more| ==> more[k].begin.rid == rid
    ensures DoneSent(done + more, rid) == DoneSent(done, rid) + SentOf(more)
    ensures forall other: u16 :: other != rid ==> DoneSent(done + more, other) == DoneSent(done, other)
  {
    if more == [] {
      assert done + more == done;
    } else {
      assert (done + more)[..|done|] == done;
      assert more[1..] == [] && SentOf(more) == more[0].sent + [];
    }
  }

  lemma Splice(x: seq<OutRecord>, before: seq<OutRecord>, gone: seq<OutRecord>, kept: seq<OutRecord>)
    requires before <= gone + kept
    ensures x + before + (gone + kept)[|before|..] == x + gone + kept
  {
    var after := gone + kept;
    assert after == before + after[|before|..];
    assert x + before + after[|before|..] == x + (before + after[|before|..]) == x + after;
  }

  lemma ArmAccounted(c: Conn, rid: u16, arm: Arm)
    requires Accounted(c, rid) && Grows(c.out, Lookup(c.table, rid), rid, arm) && |arm.done| <= 1
    ensures Accounted(AfterArm(c, rid, arm), rid)
  {
    hide Grows, News, OwnRecords, DoneSent, SentOf;
    NewsOwn(c.out, Lookup(c.table, rid), rid, arm);
    OwnAppend(c.out.log, News(c.out, arm.out), rid);
    DoneSentAppend(c.done, arm.done, rid);
    Splice(DoneSent(c.done, rid), SentIn(Lookup(c.table, rid)), SentOf(arm.done), SentIn(arm.slot));
  }

  /** What a dispatch adds is what the request of its id put out besides. */
  lemma NewsOwn(o: Out, slot: Option<Slot>, rid: u16, arm: Arm)
    requires Grows(o, slot, rid, arm)
    ensures arm.out.log == o.log + News(o, arm.out) && SentIn(slot) <= SentOf(arm.done) + SentIn(arm.slot)
    ensures OwnRecords(News(o, arm.out), rid) == (SentOf(arm.done) + SentIn(arm.slot))[|SentIn(slot)|..]
    ensures forall k :: 0 <= k < |arm.done| ==> arm.done[k].begin.rid == rid
  {
    hide Faithful, Open, OwnRecords, SentOf, Grammatical;
  }

  /** What a dispatch adds is foreign to every other id. */
  lemma NewsForeign(o: Out, slot: Option<Slot>, rid: u16, arm: Arm, other: u16)
    requires Grows(o, slot, rid, arm) && other != rid
    ensures arm.out.log == o.log + News(o, arm.out) && OwnRecords(News(o, arm.out), other) == []
    ensures forall k :: 0 <= k < |arm.done| ==> arm.done[k].begin.rid == rid
  {
    hide Faithful, Open, SentOf, SentIn, Grammatical;
    ForeignOwn(News(o, arm.out), other);
  }

  lemma ArmAccountedOther(c: Conn, rid: u16, arm: Arm, other: u16)
    requires Accounted(c, other) && Grows(c.out, Lookup(c.table, rid), rid, arm) && |arm.done| <= 1 && other != rid
    ensures Accounted(AfterArm(c, rid, arm), other)
  {
    hide Grows, News, OwnRecords, DoneSent;
    NewsForeign(c.out, Lookup(c.table, rid), rid, arm, other);
    OwnAppend(c.out.log, News(c.out, arm.out), other);
    DoneSentAppend(c.done, arm.done, rid);
    assert OwnRecords(c.out.log, other) + [] == OwnRecords(c.out.log, other);
  }

  lemma AtMostOneDone(cfg: Config, link: Link, o: Out, slot: Option<Slot>, ev: Event, id: nat)
    ensures |Dispatch(cfg, link, o, slot, ev, id).done| <= 1
  {
  }

  /** One dispatch keeps the invariant, up to the error exit. */
  lemma ArmKeeps(cfg: Config, link: Link, c: Conn, ev: Event)
    requires Invariant(c)
    ensures Invariant(AfterArm(c, ev.rec.rid, Dispatch(cfg, link, c.out, Lookup(c.table, ev.rec.rid), ev, c.seen)))
  {
    var rid, slot := ev.rec.rid, Lookup(c.table, ev.rec.rid);
    var arm := Dispatch(cfg, link, c.out, slot, ev, c.seen);
    DispatchGrows(cfg, link, c.out, slot, ev, c.seen);
    AtMostOneDone(cfg, link, c.out, slot, ev, c.seen);
    InvariantAfter(c, rid, arm);
  }

  lemma InvariantAfter(c: Conn, rid: u16, arm: Arm)
    requires Invariant(c) && Grows(c.out, Lookup(c.table, rid), rid, arm) && |arm.done| <= 1 && Conserved(arm.out)
    ensures Invariant(AfterArm(c, rid, arm))
  {
    var c' := AfterArm(c, rid, arm);
    forall other: u16 ensures Accounted(c', other) {
      assert Accounted(c, other);
      if other == rid {
        ArmAccounted(c, rid, arm);
      } else {
        ArmAccountedOther(c, rid, arm, other);
      }
    }
    assert Faithful(c'.out.log) by {
      assert c'.out.log == c.out.log + News(c.out, arm.out);
    }
  }

  lemma StepKeeps(cfg: Config, link: Link, c: Conn, ev: Event)
    requires Invariant(c)
    ensures var s := StepConn(cfg, link, c, ev);
            if s.status == Stopped then Ended(s.conn) else Invariant(s.conn)
  {
    hide Dispatch, Invariant, Ended;
    ArmKeeps(cfg, link, c, ev);
    StepIsArm(cfg, link, c, ev);
    var arm := Dispatch(cfg, link, c.out, Lookup(c.table, ev.rec.rid), ev, c.seen);
    if arm.status == Stopped {
      HangupEnds(AfterArm(c, ev.rec.rid, arm));
    }
  }

  lemma StartInvariant()
    ensures Invariant(START)
  {
  }

  /** Every run, whatever the records, the callbacks and the writes: between dispatches
      the table, the response grammar of every request and the shared output are in
      order, and after the error exit every remaining request is complete. */
  lemma {:induction false} RunKeepsInvariant(cfg: Config, link: Link, c: Conn, evs: seq<Event>)
    requires Invariant(c)
    ensures var s := RunConn(cfg, link, c, evs);
            if s.status == Stopped then Ended(s.conn) else Invariant(s.conn)
    decreases |evs|
  {
    if evs != [] {
      StepKeeps(cfg, link, c, evs[0]);
      var s := StepConn(cfg, link, c, evs[0]);
      if s.status == Running {
        RunKeepsInvariant(cfg, link, s.conn, evs[1..]);
      }
    }
  }

  lemma RunOne(cfg: Config, link: Link, c: Conn, ev: Event)
    ensures RunConn(cfg, link, c, [ev]) == StepConn(cfg, link, c, ev)
  {
    assert [ev][1..] == [];
  }

  lemma {:induction false} RunSnoc(cfg: Config, link: Link, c: Conn, evs: seq<Event>, ev: Event)
    requires RunConn(cfg, link, c, evs).status == Running
    ensures RunConn(cfg, link, c, evs + [ev]) == StepConn(cfg, link, RunConn(cfg, link, c, evs).conn, ev)
    decreases |evs|
  {
    if evs == [] {
      assert [] + [ev] == [ev];
      RunOne(cfg, link, c, ev);
    } else {
      var rest := evs[1..];
      assert evs == [evs[0]] + rest && evs + [ev] == [evs[0]] + (rest + [ev]);
      RunCons(cfg, link, c, evs[0], rest);
      RunCons(cfg, link, c, evs[0], rest + [ev]);
      RunSnoc(cfg, link, StepConn(cfg, link, c, evs[0]).conn, rest, ev);
    }
  }

  // --------------------------------------------------- one END_REQUEST each

  function EndRequests(sent: seq<OutRecord>): nat {
    if sent == [] then 0
    else EndRequests(sent[..|sent| - 1]) + if sent[|sent| - 1].EndOut? then 1 else 0
  }

  function Departed(done: seq<Req>, rid: u16): nat {
    if done == [] then 0
    else Departed(done[..|done| - 1], rid) + if done[|done| - 1].begin.rid == rid then 1 else 0
  }

  lemma {:induction false} EndRequestsAppend(a: seq<OutRecord>, b: seq<OutRecord>)
    ensures EndRequests(a + b) == EndRequests(a) + EndRequests(b)
    decreases |b|
  {
    if b == [] {
      assert a + b == a;
    } else {
      EndRequestsAppend(a, b[..|b| - 1]);
      assert (a + b)[..|a + b| - 1] == a + b[..|b| - 1];
    }
  }

  lemma {:induction false} StdoutEndsNothing(sent: seq<OutRecord>, rid: u16)
    requires AllStdout(sent, rid)
    ensures EndRequests(sent) == 0
    decreases |sent|
  {
    if sent != [] {
      StdoutEndsNothing(sent[..|sent| - 1], rid);
    }
  }

  lemma {:induction false} DepartedEnd(done: seq<Req>, rid: u16)
    requires forall k :: 0 <= k < |done| ==> Closed(done[k], done[k].begin.rid)
    ensures EndRequests(DoneSent(done, rid)) == Departed(done, rid)
    decreases |done|
  {
    if done != [] {
      var rest, q := done[..|done| - 1], done[|done| - 1];
      DepartedEnd(rest, rid);
      if q.begin.rid == rid {
        EndRequestsAppend(DoneSent(rest, rid), q.sent);
        StdoutEndsNothing(q.sent[..|q.sent| - 1], rid);
      } else {
        assert DoneSent(rest, rid) + [] == DoneSent(rest, rid);
      }
    }
  }

  /** Among the records an id's requests put out there is exactly one END_REQUEST for each
      of them that has left the table, and none for one that is still there, be it open
      or cut off by the error exit. */
  lemma OneEndRequestEach(c: Conn, rid: u16)
    requires Invariant(c) || Ended(c)
    ensures EndRequests(OwnRecords(c.out.log, rid)) == Departed(c.done, rid)
  {
    assert Accounted(c, rid);
    DepartedEnd(c.done, rid);
    EndRequestsAppend(DoneSent(c.done, rid), SentIn(Lookup(c.table, rid)));
    if rid in c.table {
      assert Invariant(c) ==> Open(c.table[rid].req, rid);
      StdoutEndsNothing(c.table[rid].req.sent, rid);
    }
  }

  // ------------------------------------------------------- after the error exit

  /** After the error exit no callback of a remaining request puts out, sends or drops
      a byte. */
  lemma AfterErrorSilent(c: Conn, link: Link, rid: u16, p: Prog)
    requires Ended(c) && rid in c.table
    ensures OnlyRewound(c.out, Run(link, c.out, c.table[rid].req, p).out)
  {
    CompleteIsSilent(link, c.out, c.table[rid].req, p);
  }

  /** Hanging up drops exactly the unsent bytes, the only bytes ever dropped without a
      failed write; what was delivered is a prefix of what was rendered. */
  lemma HangupDrops(c: Conn)
    requires Invariant(c) && !c.out.lost
    ensures Hangup(c).out.delivered + c.out.unsent == LogBytes(c.out.log)
    ensures Hangup(c).out.lost <==> c.out.unsent != []
  {
  }

  // ------------------------------------------------------ wire-level conservation

  ghost predicate AllRendered(log: seq<Entry>) {
    forall k :: 0 <= k < |log| ==> RenderOutcome(PayloadOf(log[k].rec, HEADER_LEN)).Rendered?
  }

  /** The frame a receiver should see for an entry. */
  function FrameOf(e: Entry): StreamProofs.FrameRead {
    StreamProofs.FrameRead.FrameRead(e.rec.Type(), e.rec.rid, PayloadOf(e.rec, HEADER_LEN).data)
  }

  function FramesOf(log: seq<Entry>): seq<StreamProofs.FrameRead> {
    seq(|log|, (i: nat) requires i < |log| => FrameOf(log[i]))
  }

  lemma {:induction false} FramesSnoc(a: seq<StreamProofs.FrameRead>, f: StreamProofs.FrameRead)
    requires forall x <- a :: |x.data| <= MAX_PAYLOAD
    requires |f.data| <= MAX_PAYLOAD
    ensures StreamProofs.Frames(a + [f]) == StreamProofs.Frames(a) + Frame(f.ty, f.rid, f.data)
    decreases |a|
  {
    if a == [] {
      assert [] + [f] == [f] && [f][1..] == [];
      assert StreamProofs.Frames([f]) == Frame(f.ty, f.rid, f.data) + StreamProofs.Frames([]);
    } else {
      FramesSnoc(a[1..], f);
      assert (a + [f])[1..] == a[1..] + [f] && (a + [f])[0] == a[0];
      assert Frame(a[0].ty, a[0].rid, a[0].data) + (StreamProofs.Frames(a[1..]) + Frame(f.ty, f.rid, f.data))
          == Frame(a[0].ty, a[0].rid, a[0].data) + StreamProofs.Frames(a[1..]) + Frame(f.ty, f.rid, f.data);
    }
  }

  lemma {:induction false} LogIsFrames(log: seq<Entry>)
    requires Faithful(log) && AllRendered(log)
    ensures forall f <- FramesOf(log) :: |f.data| <= MAX_PAYLOAD
    ensures LogBytes(log) == StreamProofs.Frames(FramesOf(log))
    decreases |log|
  {
    hide Carried, PayloadOf, RenderOutcome, Frame, FrameOf;
    if log != [] {
      var n := |log| - 1;
      LogIsFrames(log[..n]);
      assert FramesOf(log) == FramesOf(log[..n]) + [FrameOf(log[n])];
      assert Carried(log[n]) && RenderOutcome(PayloadOf(log[n].rec, HEADER_LEN)).Rendered?;
      EntryIsFrame(log[n]);
      FramesSnoc(FramesOf(log[..n]), FrameOf(log[n]));
    }
  }

  lemma EntryIsFrame(e: Entry)
    requires Carried(e) && RenderOutcome(PayloadOf(e.rec, HEADER_LEN)).Rendered?
    ensures |FrameOf(e).data| <= MAX_PAYLOAD
    ensures e.bytes == Frame(FrameOf(e).ty, FrameOf(e).rid, FrameOf(e).data)
  {
    if e.rec.ResultOut? {
      PairProofs.ResultRendersIffEmpty(e.rec, 0);
    }
  }

  /** A receiver that follows section 3.3 reads, off the wire and the unsent bytes, exactly
      the records rendered, in order, over any run whose writes and renders succeed. */
  lemma WireIsLog(cfg: Config, link: Link, evs: seq<Event>)
    requires AllWritesSucceed(link)
    requires var s := RunConn(cfg, link, START, evs); s.status == Running && AllRendered(s.conn.out.log)
    ensures var o := RunConn(cfg, link, START, evs).conn.out;
            !o.lost && StreamProofs.ReadFrames(o.delivered + o.unsent) == FramesOf(o.log)
  {
    var s := RunConn(cfg, link, START, evs);
    StartInvariant();
    RunKeepsInvariant(cfg, link, START, evs);
    RunSucceeds(cfg, link, START, evs);
    LogIsFrames(s.conn.out.log);
    StreamProofs.FramesReadBack(FramesOf(s.conn.out.log));
  }

  // -------------------------------------------------- writes that all succeed

  lemma {:induction false} PiecesSucceed(o: Out, q: Req, payloads: seq<bytes>)
    ensures PutPieces(o, q, payloads).out.failed == o.failed
    decreases |payloads|
  {
    if payloads != [] {
      var a := PutOwn(o, q, StdoutOut(q.begin.rid, Chunk(payloads[0], |payloads[0]|)));
      PiecesSucceed(a.out, a.req, payloads[1..]);
    }
  }

  lemma {:induction false} ProgSucceeds(link: Link, o: Out, q: Req, p: Prog)
    requires AllWritesSucceed(link)
    ensures Run(link, o, q, p).out.failed == o.failed
    decreases p
  {
    match p
    case Return(_) =>
    case Step(op, _, _, _, _, _, _, _) =>
      var a := Do(link, o, q, op);
      if op.HeadersEndOp? {
        PiecesSucceed(o, q.(headers := []), PackAll(q.headers) + [CRLF]);
      }
      ProgSucceeds(link, a.out, a.req, p.Next(a.code));
  }

  lemma ServedSucceeds(h: Option<Handler>, link: Link, o: Out, q: Req, ev: Event)
    requires AllWritesSucceed(link)
    ensures Served(h, link, o, q, ev).out.failed == o.failed
  {
    if h.Some? {
      ProgSucceeds(link, o, q, h.value(ev, q));
    }
  }

  lemma RetireSucceeds(cfg: Config, link: Link, o: Out, s: Slot)
    requires AllWritesSucceed(link)
    ensures Retire(cfg, link, o, s).out.failed == o.failed
  {
    if cfg.endRender.Some? {
      ProgSucceeds(link, o, Wiped(s.req), cfg.endRender.value(Wiped(s.req)));
    }
  }

  /** A query whose answer, in a build without assertions, reckons more than a record takes. */
  ghost predicate Overfull(cfg: Config, o: Out, ev: Event) {
    && ev.rec.body.ValuesBody? && cfg.build.Release?
    && !AnswerFits(o, ResultOut(ev.rec.rid, cfg.build.order(Answered(cfg, ev.rec.body.values))))
  }

  lemma DispatchSucceeds(cfg: Config, link: Link, o: Out, slot: Option<Slot>, ev: Event, id: nat)
    requires AllWritesSucceed(link)
    ensures var arm := Dispatch(cfg, link, o, slot, ev, id);
            arm.out.failed == o.failed && (arm.status == Stopped <==> Overfull(cfg, o, ev))
  {
    match ev.rec.body
    case BeginBody(_, _) =>
      ServedSucceeds(cfg.beginParse, link, o, NewReq(ev.rec), ev);
      var r := Served(cfg.beginParse, link, o, NewReq(ev.rec), ev);
      RetireSucceeds(cfg, link, r.out, Slot(r.req, NewIds(id)));
    case AbortBody =>
      if slot.Some? {
        var a := Abort(link, o, slot.value.req, 0);
        RetireSucceeds(cfg, link, a.out, Slot(a.req, slot.value.ids));
      }
    case ParamsBody(_) => StreamSucceeds(cfg, link, o, slot, ev, id);
    case StdinBody(_, _) => StreamSucceeds(cfg, link, o, slot, ev, id);
    case DataBody(_, _) => StreamSucceeds(cfg, link, o, slot, ev, id);
    case _ =>
  }

  lemma StreamSucceeds(cfg: Config, link: Link, o: Out, slot: Option<Slot>, ev: Event, id: nat)
    requires IsStream(ev.rec.body) && AllWritesSucceed(link)
    ensures var arm := DispatchStream(cfg, link, o, slot, ev, id);
            arm.out.failed == o.failed && arm.status != Stopped
  {
    if slot.Some? {
      var q := Enqueue(slot.value.req, ev.rec);
      ServedSucceeds(StreamHandler(cfg, ev.rec.body), link, o, q, ev);
      var r := Served(StreamHandler(cfg, ev.rec.body), link, o, q, ev);
      RetireSucceeds(cfg, link, r.out, Slot(r.req, EnqueueId(slot.value.ids, ev.rec.body, id)));
    }
  }

  /** A run comes to such a query. */
  ghost predicate RunOverfull(cfg: Config, link: Link, c: Conn, evs: seq<Event>)
    decreases |evs|
  {
    evs != [] &&
      (Overfull(cfg, c.out, evs[0])
       || (StepConn(cfg, link, c, evs[0]).status == Running
           && RunOverfull(cfg, link, StepConn(cfg, link, c, evs[0]).conn, evs[1..])))
  }

  /** While writes succeed no write is counted as failed, and a run takes the error exit if and
      only if the build has no assertions and it comes to a query with too long an answer. */
  lemma {:induction false} RunSucceeds(cfg: Config, link: Link, c: Conn, evs: seq<Event>)
    requires AllWritesSucceed(link)
    ensures var s := RunConn(cfg, link, c, evs); s.conn.out.failed == c.out.failed
    ensures RunConn(cfg, link, c, evs).status == Stopped <==> RunOverfull(cfg, link, c, evs)
    decreases |evs|
  {
    if evs != [] {
      DispatchSucceeds(cfg, link, c.out, Lookup(c.table, evs[0].rec.rid), evs[0], c.seen);
      var s := StepConn(cfg, link, c, evs[0]);
      if s.status == Running {
        RunSucceeds(cfg, link, s.conn, evs[1..]);
      }
    }
  }

  // --------------------------------------------------------- non-interference

  /** The records of one request id. */
  function Only(evs: seq<Event>, rid: u16): seq<Event> {
    if evs == [] then []
    else (if evs[0].rec.rid == rid then [evs[0]] else []) + Only(evs[1..], rid)
  }

  /** Two connections a client of request `rid` cannot tell apart. */
  ghost predicate Similar(c: Conn, d: Conn, rid: u16) {
    && SameReq(Lookup(c.table, rid), Lookup(d.table, rid))
    && RidEntries(c.out.log, rid) == RidEntries(d.out.log, rid)
  }

  lemma StepSimilar(cfg: Config, link: Link, c: Conn, d: Conn, ev: Event)
    requires AllWritesSucceed(link) && Invariant(c) && Invariant(d) && Similar(c, d, ev.rec.rid) && Placeless(cfg, ev)
    ensures StepConn(cfg, link, c, ev).status == StepConn(cfg, link, d, ev).status
    ensures Similar(StepConn(cfg, link, c, ev).conn, StepConn(cfg, link, d, ev).conn, ev.rec.rid)
  {
    var rid := ev.rec.rid;
    var s1, s2 := Lookup(c.table, rid), Lookup(d.table, rid);
    var a1, a2 := Dispatch(cfg, link, c.out, s1, ev, c.seen), Dispatch(cfg, link, d.out, s2, ev, d.seen);
    DispatchIndependent(cfg, link, c.out, d.out, s1, s2, ev, c.seen, d.seen);
    DispatchSucceeds(cfg, link, c.out, s1, ev, c.seen);
    DispatchGrows(cfg, link, c.out, s1, ev, c.seen);
    DispatchGrows(cfg, link, d.out, s2, ev, d.seen);
    NewsAppended(c.out, a1.out, rid);
    NewsAppended(d.out, a2.out, rid);
  }

  lemma NewsAppended(o: Out, o': Out, rid: u16)
    requires o.log <= o'.log
    ensures RidEntries(o'.log, rid) == RidEntries(o.log, rid) + RidEntries(News(o, o'), rid)
  {
    EntriesAppend(o.log, News(o, o'), rid);
    assert o'.log == o.log + News(o, o');
  }

  lemma StepElsewhere(cfg: Config, link: Link, c: Conn, d: Conn, ev: Event, rid: u16)
    requires AllWritesSucceed(link) && Invariant(c) && Similar(c, d, rid) && ev.rec.rid != rid && rid != 0
    requires StepConn(cfg, link, c, ev).status == Running
    ensures Similar(StepConn(cfg, link, c, ev).conn, d, rid)
  {
    var slot := Lookup(c.table, ev.rec.rid);
    var arm := Dispatch(cfg, link, c.out, slot, ev, c.seen);
    DispatchGrows(cfg, link, c.out, slot, ev, c.seen);
    DispatchSucceeds(cfg, link, c.out, slot, ev, c.seen);
    NewsAppended(c.out, arm.out, rid);
    ForeignEntries(News(c.out, arm.out), rid);
  }

  lemma RunCons(cfg: Config, link: Link, c: Conn, ev: Event, rest: seq<Event>)
    ensures RunConn(cfg, link, c, [ev] + rest) ==
            var s := StepConn(cfg, link, c, ev);
            if s.status == Running then RunConn(cfg, link, s.conn, rest) else s
  {
    assert ([ev] + rest)[1..] == rest;
  }

  /** The parser gives GET_VALUES records the id zero. */
  ghost predicate ParsedIds(evs: seq<Event>) {
    forall i :: 0 <= i < |evs| && evs[i].rec.body.ValuesBody? ==> evs[i].rec.rid == 0
  }

  /** One record of an interleaved run, and the same record or none in the run alone. */
  lemma MultiplexStep(cfg: Config, link: Link, c: Conn, d: Conn, evs: seq<Event>, rid: u16) returns (c': Conn, d': Conn)
    requires AllWritesSucceed(link) && rid != 0 && evs != [] && (cfg.build.Debug? || ParsedIds(evs))
    requires Invariant(c) && Invariant(d) && Similar(c, d, rid)
    requires RunConn(cfg, link, c, evs).status == Running
    ensures Invariant(c') && Invariant(d') && Similar(c', d', rid)
    ensures RunConn(cfg, link, c, evs) == RunConn(cfg, link, c', evs[1..])
    ensures RunConn(cfg, link, d, Only(evs, rid)) == RunConn(cfg, link, d', Only(evs[1..], rid))
  {
    var ev := evs[0];
    c' := StepConn(cfg, link, c, ev).conn;
    d' := d;
    StepKeeps(cfg, link, c, ev);
    if ev.rec.rid == rid {
      d' := StepConn(cfg, link, d, ev).conn;
      StepSimilar(cfg, link, c, d, ev);
      StepKeeps(cfg, link, d, ev);
      RunCons(cfg, link, d, ev, Only(evs[1..], rid));
    } else {
      StepElsewhere(cfg, link, c, d, ev, rid);
      assert Only(evs, rid) == Only(evs[1..], rid);
    }
  }

  /** Multiplexing is invisible: whatever else a connection carries, a request id gets
      exactly the records, replies included, and ends in exactly the state it would have
      alone, which is what FCGI_MPXS_CONNS = 1 promises, whichever way the library is built. */
  lemma {:induction false} Multiplexing(cfg: Config, link: Link, c: Conn, d: Conn, evs: seq<Event>, rid: u16)
    requires AllWritesSucceed(link) && rid != 0 && (cfg.build.Debug? || ParsedIds(evs))
    requires Invariant(c) && Invariant(d) && Similar(c, d, rid)
    requires RunConn(cfg, link, c, evs).status == Running
    ensures RunConn(cfg, link, d, Only(evs, rid)).status == Running
    ensures Similar(RunConn(cfg, link, c, evs).conn, RunConn(cfg, link, d, Only(evs, rid)).conn, rid)
    decreases |evs|
  {
    if evs != [] {
      var c', d' := MultiplexStep(cfg, link, c, d, evs, rid);
      Multiplexing(cfg, link, c', d', evs[1..], rid);
    }
  }

  /** The same from the start of a connection. */
  lemma MultiplexingInvisible(cfg: Config, link: Link, evs: seq<Event>, rid: u16)
    requires AllWritesSucceed(link) && rid != 0 && RunConn(cfg, link, START, evs).status == Running
    requires cfg.build.Debug? || ParsedIds(evs)
    ensures var alone := RunConn(cfg, link, START, Only(evs, rid));
            && alone.status == Running
            && RidEntries(RunConn(cfg, link, START, evs).conn.out.log, rid) == RidEntries(alone.conn.out.log, rid)
  {
    StartInvariant();
    Multiplexing(cfg, link, START, START, evs, rid);
  }
}
