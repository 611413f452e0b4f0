/** How often a request's headers end: the terminating empty line is put out once, and once
    more for every time something sets the phase back behind it. */
module PhaseProofs {
  import opened Bytes
  import opened Wire
  import opened Headers
  import opened Engine
  import opened App
  import RunProofs

  // ------------------------------------------------------------- empty lines

  predicate IsEmptyLine(rec: OutRecord) {
    rec.StdoutOut? && rec.stdout == Chunk(CRLF, 2)
  }

  /** The STDOUT records of nothing but CRLF among those a request has put out. */
  function EmptyLines(sent: seq<OutRecord>): nat {
    if sent == [] then 0
    else EmptyLines(sent[..|sent| - 1]) + if IsEmptyLine(sent[|sent| - 1]) then 1 else 0
  }

  lemma EmptyLinesSnoc(sent: seq<OutRecord>, rec: OutRecord)
    ensures EmptyLines(sent + [rec]) == EmptyLines(sent) + if IsEmptyLine(rec) then 1 else 0
  {
    assert (sent + [rec])[..|sent|] == sent;
  }

  /** What is packed is empty or longer than CRLF. */
  lemma {:induction false} PackLength(t: Table, n: nat)
    ensures |Pack(t, n).chunk| == 0 || |Pack(t, n).chunk| >= 4
    decreases |t|
  {
    if t == [] {
    } else if TooLong(t[0]) {
      PackLength(t[1..], n);
    } else if n + Estimate(t[0]) < MAX_PAYLOAD {
      PackLength(t[1..], n + |Line(t[0])|);
    }
  }

  lemma {:induction false} NoLineInBlock(t: Table)
    ensures CRLF !in PackAll(t)
    decreases |t|
  {
    if t != [] {
      PackShrinks(t);
      PackLength(t, 0);
      NoLineInBlock(Pack(t, 0).rest);
    }
  }

  lemma {:induction false} PiecesLines(o: Out, q: Req, payloads: seq<bytes>)
    requires CRLF !in payloads
    ensures EmptyLines(PutPieces(o, q, payloads).req.sent) == EmptyLines(q.sent)
    decreases |payloads|
  {
    if payloads != [] {
      var rec := StdoutOut(q.begin.rid, Chunk(payloads[0], |payloads[0]|));
      var a := PutOwn(o, q, rec);
      EmptyLinesSnoc(q.sent, rec);
      assert payloads[0] in payloads;
      PiecesLines(a.out, a.req, payloads[1..]);
    }
  }

  lemma {:induction false} PiecesLast(o: Out, q: Req, payloads: seq<bytes>, last: bytes)
    ensures PutPieces(o, q, payloads + [last]).req.sent
         == PutPieces(o, q, payloads).req.sent + [StdoutOut(q.begin.rid, Chunk(last, |last|))]
    decreases |payloads|
  {
    if payloads == [] {
      assert [] + [last] == [last] && [last][1..] == [];
      var a := PutOwn(o, q, StdoutOut(q.begin.rid, Chunk(last, |last|)));
      assert PutPieces(a.out, a.req, []) == Ran(a.out, a.req, Headers.Ok);
    } else {
      var a := PutOwn(o, q, StdoutOut(q.begin.rid, Chunk(payloads[0], |payloads[0]|)));
      assert (payloads + [last])[0] == payloads[0] && (payloads + [last])[1..] == payloads[1..] + [last];
      PiecesLast(a.out, a.req, payloads[1..], last);
    }
  }

  /** Ending the headers puts out exactly one. */
  lemma EndHeadersLines(o: Out, q: Req)
    ensures var r := EndHeaders(o, q);
            EmptyLines(r.req.sent) == EmptyLines(q.sent) + if r.code == Headers.Ok then 1 else 0
  {
    if q.state <= HEADERS_ALLOWED && !q.complete {
      var bare := q.(headers := []);
      NoLineInBlock(q.headers);
      PiecesLines(o, bare, PackAll(q.headers));
      PiecesLast(o, bare, PackAll(q.headers), CRLF);
      EmptyLinesSnoc(PutPieces(o, bare, PackAll(q.headers)).req.sent, StdoutOut(q.begin.rid, Chunk(CRLF, 2)));
    }
  }

  // ------------------------------------------------------------- one callback

  /** A callback that never sets a state behind the headers; ending them is a call. */
  predicate SetsNoEnd(p: Prog) {
    match p
    case Return(_) => true
    case Step(op, a, b, c, d, e, g, h) =>
      && (op.SetStateOp? ==> op.state <= HEADERS_ALLOWED)
      && SetsNoEnd(a) && SetsNoEnd(b) && SetsNoEnd(c) && SetsNoEnd(d)
      && SetsNoEnd(e) && SetsNoEnd(g) && SetsNoEnd(h)
  }

  lemma NextSetsNoEnd(p: Prog, code: Code)
    requires p.Step? && SetsNoEnd(p)
    ensures SetsNoEnd(p.Next(code)) && (p.op.SetStateOp? ==> p.op.state <= HEADERS_ALLOWED)
  {
  }

  function AsOne(b: bool): nat {
    if b then 1 else 0
  }

  /** Whether the headers of a request have ended. */
  predicate Over(q: Req) {
    q.state > HEADERS_ALLOWED
  }

  /** How often a run sets the phase of an open request back behind its headers. */
  function Reopened(link: Link, o: Out, q: Req, p: Prog): nat
    decreases p
  {
    match p
    case Return(_) => 0
    case Step(op, _, _, _, _, _, _, _) =>
      var r := Do(link, o, q, op);
      AsOne(op.SetStateOp? && !q.complete && Over(q)) + Reopened(link, r.out, r.req, p.Next(r.code))
  }

  /** How often it writes an empty line as body data. */
  function BodyLines(link: Link, o: Out, q: Req, p: Prog): nat
    decreases p
  {
    match p
    case Return(_) => 0
    case Step(op, _, _, _, _, _, _, _) =>
      var r := Do(link, o, q, op);
      AsOne(op == RenderStdoutOp(Wrote(CRLF)) && !q.complete) + BodyLines(link, r.out, r.req, p.Next(r.code))
  }

  /** What one call does to the count and the phase of an open request. */
  lemma DoLines(link: Link, o: Out, q: Req, op: Op)
    requires !q.complete && (op.SetStateOp? ==> op.state <= HEADERS_ALLOWED)
    ensures var r := Do(link, o, q, op).req;
            EmptyLines(r.sent) + AsOne(Over(q) && !op.FinalizeOp?)
            == EmptyLines(q.sent) + AsOne(op.SetStateOp? && Over(q)) + AsOne(op == RenderStdoutOp(Wrote(CRLF)))
               + AsOne(Over(r) && !op.FinalizeOp?)
    ensures var r := Do(link, o, q, op).req; r.complete <==> op.FinalizeOp?
    ensures op.FinalizeOp? ==> Over(Do(link, o, q, op).req) == Over(q)
  {
    match op
    case RenderStdoutOp(piece) => EmptyLinesSnoc(q.sent, StdoutOut(q.begin.rid, piece.AsChunk()));
    case FinalizeOp =>
      EmptyLinesSnoc(q.sent, EmptyStdout(q));
      EmptyLinesSnoc(q.sent + [EmptyStdout(q)], EndOut(q.begin.rid, REQUEST_COMPLETE, 0));
    case HeadersEndOp =>
      EndHeadersLines(o, q);
      PiecesState(o, q.(headers := []), PackAll(q.headers) + [CRLF]);
      RequestKept(o, q);
    case _ =>
  }

  lemma RequestKept(o: Out, q: Req)
    requires !q.complete
    ensures !EndHeaders(o, q).req.complete
  {
    PiecesOpen(o, q.(headers := []), PackAll(q.headers) + [CRLF]);
  }

  lemma {:induction false} PiecesOpen(o: Out, q: Req, payloads: seq<bytes>)
    ensures PutPieces(o, q, payloads).req.complete == q.complete
    decreases |payloads|
  {
    if payloads != [] {
      var a := PutOwn(o, q, StdoutOut(q.begin.rid, Chunk(payloads[0], |payloads[0]|)));
      PiecesOpen(a.out, a.req, payloads[1..]);
    }
  }

  lemma {:induction false} CompleteLines(link: Link, o: Out, q: Req, p: Prog)
    requires q.complete
    ensures Run(link, o, q, p).req.complete && Run(link, o, q, p).req.sent == q.sent
    ensures Reopened(link, o, q, p) == 0 && BodyLines(link, o, q, p) == 0
    decreases p
  {
    if p.Step? {
      var r := Do(link, o, q, p.op);
      CompleteLines(link, r.out, r.req, p.Next(r.code));
    }
  }

  /** Over any callback, for a request that stays open: the empty lines it has put out, less
      the one that ended its headers if they are over, grow by one for every reopening and for
      every empty line written as body. If it completes, the last end may or may not be there. */
  lemma {:induction false} RunLines(link: Link, o: Out, q: Req, p: Prog)
    requires SetsNoEnd(p) && !q.complete
    ensures var r := Run(link, o, q, p).req;
            var grown := EmptyLines(q.sent) + Reopened(link, o, q, p) + BodyLines(link, o, q, p);
            && (!r.complete ==> EmptyLines(r.sent) + AsOne(Over(q)) == grown + AsOne(Over(r)))
            && grown <= EmptyLines(r.sent) + AsOne(Over(q)) <= grown + 1
    decreases p
  {
    if p.Step? {
      var r := Do(link, o, q, p.op);
      NextSetsNoEnd(p, r.code);
      DoLines(link, o, q, p.op);
      if r.req.complete {
        CompleteLines(link, r.out, r.req, p.Next(r.code));
      } else {
        RunLines(link, r.out, r.req, p.Next(r.code));
      }
    }
  }

  lemma ServedLines(h: Option<Handler>, link: Link, o: Out, q: Req, ev: Event)
    requires h.Some? && SetsNoEnd(h.value(ev, q)) && !q.complete
    ensures var p, r := h.value(ev, q), Served(h, link, o, q, ev).req;
            var grown := EmptyLines(q.sent) + Reopened(link, o, q, p) + BodyLines(link, o, q, p);
            && (!r.complete ==> EmptyLines(r.sent) + AsOne(Over(q)) == grown + AsOne(Over(r)))
            && grown <= EmptyLines(r.sent) + AsOne(Over(q)) <= grown + 1
  {
    var a := Run(link, o, q, h.value(ev, q));
    RunLines(link, o, q, h.value(ev, q));
    if a.rc < 0 {
      AbortLines(link, a.out, a.req, AbortStatus(a.rc));
    }
  }

  lemma AbortLines(link: Link, o: Out, q: Req, status: u32)
    ensures EmptyLines(Abort(link, o, q, status).req.sent) == EmptyLines(q.sent)
    ensures Abort(link, o, q, status).req.complete && Over(Abort(link, o, q, status).req) == Over(q)
  {
    if !q.complete {
      EmptyLinesSnoc(q.sent, EndOut(q.begin.rid, REQUEST_COMPLETE, status));
    }
  }

  // ------------------------------------------------------------- one request

  /** What happened to a request so far. */
  datatype Tally = Tally(reopened: nat, body: nat)

  ghost predicate Counted(q: Req, t: Tally) {
    EmptyLines(q.sent) == t.reopened + t.body + AsOne(Over(q))
  }

  /** A request that has left: its last end of headers may or may not be there. */
  ghost predicate CountedLast(q: Req, t: Tally) {
    t.reopened + t.body <= EmptyLines(q.sent) <= t.reopened + t.body + 1
  }

  datatype Call = NoCall | Call(req: Req, prog: Prog)

  /** The callback a record leads to, and the request it is given. */
  ghost function CallFor(cfg: Config, slot: Option<Slot>, ev: Event): Call {
    match ev.rec.body
    case BeginBody(role, _) =>
      if role == RESPONDER && slot.None? && cfg.beginParse.Some?
      then Call.Call(NewReq(ev.rec), cfg.beginParse.value(ev, NewReq(ev.rec))) else NoCall
    case ParamsBody(_) => StreamCall(cfg.paramsParse, slot, ev)
    case StdinBody(_, _) => StreamCall(cfg.stdinParse, slot, ev)
    case DataBody(_, _) => StreamCall(cfg.dataParse, slot, ev)
    case _ => NoCall
  }

  ghost function StreamCall(h: Option<Handler>, slot: Option<Slot>, ev: Event): Call
    requires IsStream(ev.rec.body)
  {
    if slot.None? || h.None? then NoCall
    else Call.Call(Enqueue(slot.value.req, ev.rec), h.value(ev, Enqueue(slot.value.req, ev.rec)))
  }

  /** The tally of the request of a record, a new one starting at nothing. */
  ghost function Tallied(cfg: Config, link: Link, o: Out, slot: Option<Slot>, ev: Event, t: Tally): Tally {
    var before := if slot.Some? then t else Tally(0, 0);
    match CallFor(cfg, slot, ev)
    case NoCall => before
    case Call(q, p) => Tally(before.reopened + Reopened(link, o, q, p), before.body + BodyLines(link, o, q, p))
  }

  ghost predicate CallbacksSetNoEnd(cfg: Config) {
    HandlerSetsNoEnd(cfg.beginParse) && HandlerSetsNoEnd(cfg.paramsParse) && HandlerSetsNoEnd(cfg.stdinParse)
    && HandlerSetsNoEnd(cfg.dataParse)
  }

  ghost predicate HandlerSetsNoEnd(h: Option<Handler>) {
    h.Some? ==> forall ev: Event, q: Req :: SetsNoEnd(h.value(ev, q))
  }

  ghost predicate SlotCounted(slot: Option<Slot>, t: Tally) {
    slot.Some? ==> !slot.value.req.complete && Counted(slot.value.req, t)
  }

  ghost predicate ArmCounted(arm: Arm, t: Tally) {
    && (arm.slot.Some? ==> Counted(arm.slot.value.req, t))
    && (arm.done != [] ==> |arm.done| == 1 && CountedLast(arm.done[0], t))
  }

  lemma SettleLines(cfg: Config, link: Link, r: Returned, ids: Ids, body: Body, id: nat, t: Tally)
    requires (!r.req.complete ==> Counted(r.req, t)) && CountedLast(r.req, t) && (r.rc < 0 ==> r.req.complete)
    ensures ArmCounted(Settle(cfg, link, r, ids, body, id), t)
  {
  }

  lemma ServedCounted(h: Option<Handler>, link: Link, o: Out, q: Req, ev: Event, t: Tally)
    requires HandlerSetsNoEnd(h) && !q.complete && Counted(q, t)
    ensures var r := Served(h, link, o, q, ev);
            var t' := if h.None? then t else Tally(t.reopened + Reopened(link, o, q, h.value(ev, q)),
                                                  t.body + BodyLines(link, o, q, h.value(ev, q)));
            && (!r.req.complete ==> Counted(r.req, t')) && CountedLast(r.req, t') && (r.rc < 0 ==> r.req.complete)
  {
    if h.Some? {
      ServedLines(h, link, o, q, ev);
      var a := Run(link, o, q, h.value(ev, q));
      AbortLines(link, a.out, a.req, AbortStatus(a.rc));
    }
  }

  lemma StreamLines(cfg: Config, link: Link, o: Out, slot: Option<Slot>, ev: Event, id: nat, t: Tally)
    requires CallbacksSetNoEnd(cfg) && SlotCounted(slot, t) && IsStream(ev.rec.body)
    ensures ArmCounted(DispatchStream(cfg, link, o, slot, ev, id), Tallied(cfg, link, o, slot, ev, t))
  {
    hide Served, Settle;
    if slot.Some? {
      var q, h := Enqueue(slot.value.req, ev.rec), StreamHandler(cfg, ev.rec.body);
      ServedCounted(h, link, o, q, ev, t);
      SettleLines(cfg, link, Served(h, link, o, q, ev), EnqueueId(slot.value.ids, ev.rec.body, id), ev.rec.body, id,
                  Tallied(cfg, link, o, slot, ev, t));
    }
  }

  lemma BeginLines(cfg: Config, link: Link, o: Out, slot: Option<Slot>, ev: Event, id: nat, t: Tally)
    requires CallbacksSetNoEnd(cfg) && SlotCounted(slot, t) && ev.rec.body.BeginBody?
    ensures ArmCounted(DispatchBegin(cfg, link, o, slot, ev, id), Tallied(cfg, link, o, slot, ev, t))
  {
    hide Served, Settle;
    if ev.rec.body.role == RESPONDER && slot.None? {
      var q := NewReq(ev.rec);
      ServedCounted(cfg.beginParse, link, o, q, ev, Tally(0, 0));
      SettleLines(cfg, link, Served(cfg.beginParse, link, o, q, ev), NewIds(id), ev.rec.body, id,
                  Tallied(cfg, link, o, slot, ev, t));
    }
  }

  /** One dispatch: a request that stays has put out one empty line for every reopening and
      every one it wrote as body, and one more if its headers are over. */
  lemma DispatchLines(cfg: Config, link: Link, o: Out, slot: Option<Slot>, ev: Event, id: nat, t: Tally)
    requires CallbacksSetNoEnd(cfg) && SlotCounted(slot, t)
    ensures ArmCounted(Dispatch(cfg, link, o, slot, ev, id), Tallied(cfg, link, o, slot, ev, t))
  {
    hide CallbacksSetNoEnd, Counted, CountedLast;
    match ev.rec.body
    case BeginBody(_, _) => BeginLines(cfg, link, o, slot, ev, id, t);
    case AbortBody => AbortedLines(cfg, link, o, slot, ev, id, t);
    case ParamsBody(_) => StreamLines(cfg, link, o, slot, ev, id, t);
    case StdinBody(_, _) => StreamLines(cfg, link, o, slot, ev, id, t);
    case DataBody(_, _) => StreamLines(cfg, link, o, slot, ev, id, t);
    case _ =>
  }

  lemma AbortedLines(cfg: Config, link: Link, o: Out, slot: Option<Slot>, ev: Event, id: nat, t: Tally)
    requires SlotCounted(slot, t)
    ensures ArmCounted(DispatchAbort(cfg, link, o, slot, ev, id), t)
  {
    if slot.Some? {
      AbortLines(link, o, slot.value.req, 0);
    }
  }

  // ---------------------------------------------------------------- whole runs

  /** The tally of the request an id has in the table, over a run. */
  ghost function TallyOf(cfg: Config, link: Link, c: Conn, evs: seq<Event>, rid: u16, t: Tally): Tally
    decreases |evs|
  {
    if evs == [] then t
    else
      var s := StepConn(cfg, link, c, evs[0]);
      var t' := if evs[0].rec.rid == rid then Tallied(cfg, link, c.out, Lookup(c.table, rid), evs[0], t) else t;
      if s.status == Running then TallyOf(cfg, link, s.conn, evs[1..], rid, t') else t'
  }

  lemma StepLines(cfg: Config, link: Link, c: Conn, ev: Event, rid: u16, t: Tally)
    requires CallbacksSetNoEnd(cfg) && RunProofs.Invariant(c) && (rid in c.table ==> Counted(c.table[rid].req, t))
    requires StepConn(cfg, link, c, ev).status == Running
    ensures var c' := StepConn(cfg, link, c, ev).conn;
            var t' := if ev.rec.rid == rid then Tallied(cfg, link, c.out, Lookup(c.table, rid), ev, t) else t;
            rid in c'.table ==> Counted(c'.table[rid].req, t')
  {
    hide Dispatch, Counted, CallbacksSetNoEnd;
    RunProofs.StepIsArm(cfg, link, c, ev);
    if ev.rec.rid == rid {
      assert rid in c.table ==> !c.table[rid].req.complete;
      DispatchLines(cfg, link, c.out, Lookup(c.table, rid), ev, c.seen, t);
    }
  }

  /** Over every run, whatever the callbacks call: a request has put out exactly one empty
      line for every time its phase was set back behind its headers, one for every one it
      wrote as body, and one if its headers are over. */
  lemma {:induction false} LinesExactly(cfg: Config, link: Link, c: Conn, evs: seq<Event>, rid: u16, t: Tally)
    requires CallbacksSetNoEnd(cfg) && RunProofs.Invariant(c) && (rid in c.table ==> Counted(c.table[rid].req, t))
    requires RunConn(cfg, link, c, evs).status == Running
    ensures var c' := RunConn(cfg, link, c, evs).conn;
            rid in c'.table ==> Counted(c'.table[rid].req, TallyOf(cfg, link, c, evs, rid, t))
    decreases |evs|
  {
    hide StepConn, Counted, CallbacksSetNoEnd, RunProofs.Invariant, Tallied;
    if evs != [] {
      StepLines(cfg, link, c, evs[0], rid, t);
      RunProofs.StepKeeps(cfg, link, c, evs[0]);
      var c' := StepConn(cfg, link, c, evs[0]).conn;
      var t' := if evs[0].rec.rid == rid then Tallied(cfg, link, c.out, Lookup(c.table, rid), evs[0], t) else t;
      LinesExactly(cfg, link, c', evs[1..], rid, t');
    }
  }

  // ------------------------------------------------------------- applications

  lemma {:induction false} NoSetStateSetsNoEnd(p: Prog)
    requires NoSetState(p)
    ensures SetsNoEnd(p)
    decreases p
  {
    match p
    case Return(_) =>
    case Step(_, a, b, c, d, e, g, h) =>
      NoSetStateSetsNoEnd(a);
      NoSetStateSetsNoEnd(b);
      NoSetStateSetsNoEnd(c);
      NoSetStateSetsNoEnd(d);
      NoSetStateSetsNoEnd(e);
      NoSetStateSetsNoEnd(g);
      NoSetStateSetsNoEnd(h);
  }

  lemma {:induction false} NoneReopened(link: Link, o: Out, q: Req, p: Prog)
    requires NoSetState(p)
    ensures Reopened(link, o, q, p) == 0
    decreases p
  {
    if p.Step? {
      var r := Do(link, o, q, p.op);
      NextNoSetState(p, r.code);
      NoneReopened(link, r.out, r.req, p.Next(r.code));
    }
  }

  lemma {:induction false} BindSetsNoEnd(p: Prog, f: int -> Prog)
    requires SetsNoEnd(p) && forall rc: int :: SetsNoEnd(f(rc))
    ensures SetsNoEnd(Bind(p, f))
    decreases p
  {
    match p
    case Return(_) =>
    case Step(_, a, b, c, d, e, g, h) =>
      BindSetsNoEnd(a, f);
      BindSetsNoEnd(b, f);
      BindSetsNoEnd(c, f);
      BindSetsNoEnd(d, f);
      BindSetsNoEnd(e, f);
      BindSetsNoEnd(g, f);
      BindSetsNoEnd(h, f);
  }

  lemma {:induction false} BindReopened(link: Link, o: Out, q: Req, p: Prog, f: int -> Prog)
    ensures Reopened(link, o, q, Bind(p, f)) ==
            var r := Run(link, o, q, p);
            Reopened(link, o, q, p) + Reopened(link, r.out, r.req, f(r.rc))
    decreases p
  {
    if p.Step? {
      var a := Do(link, o, q, p.op);
      BindReopened(link, a.out, a.req, p.Next(a.code), f);
      BindNext(p, f, a.code);
    }
  }

  ghost predicate UserSetsNoState(cb: Option<UserCallback>) {
    cb.Some? ==> forall q: Req :: NoSetState(cb.value(q))
  }

  /** User callbacks have no call that sets the state. */
  ghost predicate UsersSetNoState(app: Callbacks) {
    && UserSetsNoState(app.beginRequest) && UserSetsNoState(app.paramsComplete)
    && UserSetsNoState(app.stdin) && UserSetsNoState(app.stdinEnd)
  }

  lemma CalledSetsNoEnd(cb: Option<UserCallback>, q: Req, error: int, next: Prog)
    requires UserSetsNoState(cb) && SetsNoEnd(next)
    ensures SetsNoEnd(Called(cb, q, error, next))
  {
    if cb.Some? {
      NoSetStateSetsNoEnd(cb.value(q));
      BindSetsNoEnd(cb.value(q), (rc: int) => if rc != 0 then Return(error) else next);
    }
  }

  lemma ThenSetsNoEnd(state: int, p: Prog)
    requires state <= HEADERS_ALLOWED && SetsNoEnd(p)
    ensures SetsNoEnd(Then(SetStateOp(state), p))
  {
  }

  lemma AdaptersSetNoEnd(app: Callbacks, maxConns: bytes, maxReqs: bytes, build: Build)
    requires UsersSetNoState(app)
    ensures CallbacksSetNoEnd(ConfigOf(app, maxConns, maxReqs, build))
  {
    forall ev: Event, q: Req
      ensures SetsNoEnd(BeginRequest(app)(ev, q))
      ensures SetsNoEnd(ParamsHandler(app)(ev, q))
      ensures SetsNoEnd(StdinHandler(app)(ev, q))
    {
      var begun, done := q.(state := BEGIN), q.(state := PARAMS_DONE);
      var last := Then(SetStateOp(HEADERS_ALLOWED), Return(ev.rec.rsz));
      CalledSetsNoEnd(app.beginRequest, begun, app.beginError, Return(ev.rec.rsz));
      ThenSetsNoEnd(BEGIN, Called(app.beginRequest, begun, app.beginError, Return(ev.rec.rsz)));
      ThenSetsNoEnd(HEADERS_ALLOWED, Return(ev.rec.rsz));
      CalledSetsNoEnd(app.paramsComplete, done, app.paramsError, last);
      ThenSetsNoEnd(PARAMS_DONE, Called(app.paramsComplete, done, app.paramsError, last));
      CalledSetsNoEnd(if ev.rec.rsz > 0 then app.stdin else app.stdinEnd, q, app.stdinError, Return(ev.rec.rsz));
    }
  }

  lemma CalledReopened(cb: Option<UserCallback>, link: Link, o: Out, q: Req, error: int, next: Prog)
    requires UserSetsNoState(cb)
    ensures var user := User(cb, link, o, q);
            Reopened(link, o, q, Called(cb, q, error, next))
            == if user.rc != 0 then 0 else Reopened(link, user.out, user.req, next)
  {
    if cb.Some? {
      NoneReopened(link, o, q, cb.value(q));
      BindReopened(link, o, q, cb.value(q), (rc: int) => if rc != 0 then Return(error) else next);
    }
  }

  /** How often the PARAMS adapter sets the phase of an open request back behind its headers:
      once if they are over when the empty record comes, and once if they are over, again or
      for the first time, when the callback succeeds. */
  function ParamsReopens(app: Callbacks, link: Link, o: Out, q: Req, ev: Event): nat {
    if ev.rec.rsz != 0 || q.complete then 0
    else
      var user := User(app.paramsComplete, link, o, q.(state := PARAMS_DONE));
      AsOne(Over(q)) + AsOne(user.rc == 0 && !user.req.complete && Over(user.req))
  }

  lemma ThenReopened(link: Link, o: Out, q: Req, state: int, p: Prog)
    ensures Reopened(link, o, q, Then(SetStateOp(state), p))
         == AsOne(!q.complete && Over(q)) + Reopened(link, o, q.(state := state), p)
  {
  }

  lemma AdapterReopens(app: Callbacks, link: Link, o: Out, q: Req, ev: Event)
    requires UsersSetNoState(app) && !q.complete
    ensures Reopened(link, o, q, ParamsHandler(app)(ev, q)) == ParamsReopens(app, link, o, q, ev)
    ensures Reopened(link, o, q, StdinHandler(app)(ev, q)) == 0
    ensures !Over(q) ==> Reopened(link, o, q, BeginRequest(app)(ev, q)) == 0
  {
    var begun, done := q.(state := BEGIN), q.(state := PARAMS_DONE);
    var last := Then(SetStateOp(HEADERS_ALLOWED), Return(ev.rec.rsz));
    CalledReopened(app.beginRequest, link, o, begun, app.beginError, Return(ev.rec.rsz));
    ThenReopened(link, o, q, BEGIN, Called(app.beginRequest, begun, app.beginError, Return(ev.rec.rsz)));
    CalledReopened(app.paramsComplete, link, o, done, app.paramsError, last);
    ThenReopened(link, o, q, PARAMS_DONE, Called(app.paramsComplete, done, app.paramsError, last));
    var user := User(app.paramsComplete, link, o, done);
    ThenReopened(link, user.out, user.req, HEADERS_ALLOWED, Return(ev.rec.rsz));
    CalledReopened(if ev.rec.rsz > 0 then app.stdin else app.stdinEnd, link, o, q, app.stdinError, Return(ev.rec.rsz));
  }

  /** The reopenings of the request an id has in the table, over a run of an application:
      only empty PARAMS records count. */
  ghost function Reopenings(app: Callbacks, cfg: Config, link: Link, c: Conn, evs: seq<Event>, rid: u16, n: nat): nat
    decreases |evs|
  {
    if evs == [] then n
    else
      var s := StepConn(cfg, link, c, evs[0]);
      var n' := if evs[0].rec.rid == rid then ReopenedAt(app, link, c, evs[0], n) else n;
      if s.status == Running then Reopenings(app, cfg, link, s.conn, evs[1..], rid, n') else n'
  }

  ghost function ReopenedAt(app: Callbacks, link: Link, c: Conn, ev: Event, n: nat): nat {
    if ev.rec.rid !in c.table then 0
    else if !ev.rec.body.ParamsBody? then n
    else n + ParamsReopens(app, link, c.out, Enqueue(c.table[ev.rec.rid].req, ev.rec), ev)
  }

  lemma TalliedReopens(app: Callbacks, maxConns: bytes, maxReqs: bytes, build: Build, link: Link,
                       c: Conn, ev: Event, t: Tally)
    requires UsersSetNoState(app) && (ev.rec.rid in c.table ==> !c.table[ev.rec.rid].req.complete)
    ensures Tallied(ConfigOf(app, maxConns, maxReqs, build), link, c.out, Lookup(c.table, ev.rec.rid), ev, t).reopened
         == ReopenedAt(app, link, c, ev, t.reopened)
  {
    var slot := Lookup(c.table, ev.rec.rid);
    if slot.None? && ev.rec.body.BeginBody? {
      AdapterReopens(app, link, c.out, NewReq(ev.rec), ev);
    } else if slot.Some? && IsStream(ev.rec.body) {
      AdapterReopens(app, link, c.out, Enqueue(slot.value.req, ev.rec), ev);
    }
  }

  lemma {:induction false} TallyReopens(app: Callbacks, maxConns: bytes, maxReqs: bytes, build: Build, link: Link, c: Conn,
                                        evs: seq<Event>, rid: u16, t: Tally)
    requires UsersSetNoState(app) && RunProofs.Invariant(c)
    ensures TallyOf(ConfigOf(app, maxConns, maxReqs, build), link, c, evs, rid, t).reopened
         == Reopenings(app, ConfigOf(app, maxConns, maxReqs, build), link, c, evs, rid, t.reopened)
    decreases |evs|
  {
    hide StepConn, Tallied, ReopenedAt, UsersSetNoState;
    if evs != [] {
      var cfg := ConfigOf(app, maxConns, maxReqs, build);
      var s := StepConn(cfg, link, c, evs[0]);
      var t' := if evs[0].rec.rid == rid then Tallied(cfg, link, c.out, Lookup(c.table, rid), evs[0], t) else t;
      assert evs[0].rec.rid in c.table ==> !c.table[evs[0].rec.rid].req.complete;
      TalliedReopens(app, maxConns, maxReqs, build, link, c, evs[0], t);
      RunProofs.StepKeeps(cfg, link, c, evs[0]);
      if s.status == Running {
        TallyReopens(app, maxConns, maxReqs, build, link, s.conn, evs[1..], rid, t');
      }
    }
  }

  /** Over every run of an application: a request in the table has put out exactly one empty
      line for every reopening by an empty PARAMS record, one for each it wrote as body, and
      one if its headers are over. So it has put out a second one behind its headers if and
      only if an empty PARAMS record reopened them and they ended again, or did so twice. */
  lemma AppLines(app: Callbacks, maxConns: bytes, maxReqs: bytes, build: Build, link: Link, evs: seq<Event>, rid: u16)
    requires UsersSetNoState(app)
    requires var s := RunConn(ConfigOf(app, maxConns, maxReqs, build), link, START, evs);
             s.status == Running && rid in s.conn.table
    ensures var cfg := ConfigOf(app, maxConns, maxReqs, build);
            var q := RunConn(cfg, link, START, evs).conn.table[rid].req;
            var n, body := Reopenings(app, cfg, link, START, evs, rid, 0),
                           TallyOf(cfg, link, START, evs, rid, Tally(0, 0)).body;
            && EmptyLines(q.sent) == n + body + AsOne(Over(q))
            && (body == 0 ==> (EmptyLines(q.sent) > 1 <==> n > 1 || (n == 1 && Over(q))))
  {
    AdaptersSetNoEnd(app, maxConns, maxReqs, build);
    RunProofs.StartInvariant();
    LinesExactly(ConfigOf(app, maxConns, maxReqs, build), link, START, evs, rid, Tally(0, 0));
    TallyReopens(app, maxConns, maxReqs, build, link, START, evs, rid, Tally(0, 0));
  }
}
