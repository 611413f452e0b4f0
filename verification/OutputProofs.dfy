/** What reaches the peer, byte for byte and write by write: every API call, every reply to a
    record no request takes, every end of a request. */
module OutputProofs {
  import opened Bytes
  import opened Wire
  import opened Headers
  import opened Engine
  import opened RequestProofs
  import App
  import DispatchProofs
  import OwnershipProofs
  import PhaseProofs
  import RunProofs
  import Sessions

  // ------------------------------------------------------------------- frames

  /** END_REQUEST as it goes out: sixteen bytes, the protocol status first. */
  function EndFrame(rid: u16, proto: byte, app: u32): bytes {
    [1, 3, rid / 0x100, rid % 0x100, 0, 8, 0, 0]
    + [proto, app / 0x1_0000 / 0x100, app / 0x1_0000 % 0x100, app % 0x1_0000 / 0x100, app % 0x1_0000 % 0x100, 0, 0, 0]
  }

  /** A STDOUT record: the content is padded with 'Z' to a multiple of eight bytes. */
  function StdoutFrame(rid: u16, s: bytes): bytes
    requires |s| <= 0x8000
  {
    var psz: byte := (8 - |s| % 8) % 8;
    [1, 6, rid / 0x100, rid % 0x100, |s| / 0x100, |s| % 0x100, psz, 0] + s + seq<byte>(psz, (i: nat) => 0x5a)
  }

  /** What a STDOUT record leaves behind that was given up: a header of no length, and bytes. */
  function TornFrame(rid: u16, s: bytes): bytes {
    [1, 6, rid / 0x100, rid % 0x100, 0, 0, 0, 0] + s
  }

  const UNKNOWN_FRAME: bytes := [1, 11, 0, 0, 0, 0, 0, 0]

  lemma EndAppended(rid: u16, proto: byte, app: u32, eod: nat)
    ensures Appended(EndOut(rid, proto, app), eod) == EndFrame(rid, proto, app)
  {
    assert PaddingBytes(8) == [];
    assert Short(rid) == [rid / 0x100, rid % 0x100];
  }

  lemma UnknownAppended(eod: nat)
    ensures Appended(UnknownTypeOut(0, GET_VALUES_RESULT), eod) == UNKNOWN_FRAME
  {
    assert PaddingBytes(0) == [];
  }

  lemma StdoutAppended(rid: u16, c: Chunk, eod: nat)
    requires c.ret == |c.data| || c.ret < 0
    ensures Appended(StdoutOut(rid, c), eod)
         == if 0 <= c.ret <= 0x8000 then StdoutFrame(rid, c.data) else TornFrame(rid, c.data)
  {
    if 0 <= c.ret <= 0x8000 {
      assert PaddingBytes(|c.data|) == seq<byte>((8 - |c.data| % 8) % 8, (i: nat) => 0x5a);
    }
  }

  // ---------------------------------------------------------------- API calls

  /** The bytes of a payload are framed behind what is unsent; the code says whether it was
      written whole and is not too large. */
  lemma RenderAppends(link: Link, o: Out, q: Req, piece: Piece)
    ensures var r := Do(link, o, q, RenderStdoutOp(piece));
            if q.complete then r == Ran(o, q, Completed)
            else
              var rid := q.begin.rid;
              && r.req == q.(sent := q.sent + [StdoutOut(rid, piece.AsChunk())])
              && r.out == o.(unsent := r.out.unsent, log := r.out.log)
              && match piece
                 case Broke(s) => r.code == RenderFailed && r.out.unsent == o.unsent + TornFrame(rid, s)
                 case Wrote(s) =>
                   if |s| <= 0x8000 then r.code == Headers.Ok && r.out.unsent == o.unsent + StdoutFrame(rid, s)
                   else r.code == TooLarge && r.out.unsent == o.unsent + TornFrame(rid, s)
  {
    StdoutAppended(q.begin.rid, piece.AsChunk(), 0);
  }

  /** `mnfcgi_flush_out` on an open request sends everything unsent in one write, or loses it. */
  lemma FlushSends(link: Link, o: Out, q: Req)
    ensures var r, sent := Do(link, o, q, FlushOutOp), link(o.writes);
            if q.complete then r == Ran(o, q, Completed)
            else
              && r.req == q && r.code == (if sent then Headers.Ok else IoError)
              && r.out == Out([], 0, if sent then o.delivered + o.unsent else o.delivered, o.log, o.writes + 1,
                              o.failed || !sent, o.lost || (!sent && o.unsent != []), o.inRewinds)
  {
  }

  /** Everything unsent goes out with `end` behind it in one write, or is lost; both buffers
      start over. */
  ghost predicate EndsWith(o: Out, o': Out, sent: bool, end: bytes) {
    o' == Out([], 0, if sent then o.delivered + o.unsent + end else o.delivered, o'.log, o.writes + 1,
              o.failed || !sent, o.lost || !sent, o.inRewinds + 1)
  }

  /** Both buffers start over and what is unsent is lost. */
  function StartedOver(o: Out): Out {
    Out([], 0, o.delivered, o.log, o.writes, o.failed, o.lost || o.unsent != [], o.inRewinds + 1)
  }

  lemma FinalizeSends(link: Link, o: Out, q: Req)
    ensures var r, sent := Do(link, o, q, FinalizeOp), link(o.writes);
            if q.complete then r == Ran(StartedOver(o), q, Completed)
            else
              && r.req == q.(complete := true, finalized := true, sent := r.req.sent)
              && r.code == (if sent then Headers.Ok else IoError)
              && EndsWith(o, r.out, sent, StdoutFrame(q.begin.rid, []) + EndFrame(q.begin.rid, 0, 0))
  {
    StdoutAppended(q.begin.rid, Chunk([], 0), 0);
    EndAppended(q.begin.rid, 0, 0, 0);
    assert o.delivered + (o.unsent + StdoutFrame(q.begin.rid, []) + EndFrame(q.begin.rid, 0, 0))
        == o.delivered + o.unsent + (StdoutFrame(q.begin.rid, []) + EndFrame(q.begin.rid, 0, 0));
  }

  lemma AbortSends(link: Link, o: Out, q: Req, status: u32)
    ensures var r, sent := Abort(link, o, q, status), link(o.writes);
            if q.complete then r == Ran(StartedOver(o), q, Completed)
            else
              && r.req == q.(complete := true, sent := r.req.sent, finalized := false)
              && r.code == (if sent then Headers.Ok else IoError)
              && EndsWith(o, r.out, sent, EndFrame(q.begin.rid, 0, status))
  {
    EndAppended(q.begin.rid, 0, status, 0);
    assert o.delivered + (o.unsent + EndFrame(q.begin.rid, 0, status))
        == o.delivered + o.unsent + EndFrame(q.begin.rid, 0, status);
  }

  function StdoutFrames(rid: u16, payloads: seq<bytes>): bytes
    requires forall p <- payloads :: |p| <= 0x8000
  {
    if payloads == [] then [] else StdoutFrame(rid, payloads[0]) + StdoutFrames(rid, payloads[1..])
  }

  lemma {:induction false} PiecesAppend(o: Out, q: Req, payloads: seq<bytes>)
    requires forall p <- payloads :: |p| <= 0x8000
    ensures var r := PutPieces(o, q, payloads);
            && r.out == o.(unsent := o.unsent + StdoutFrames(q.begin.rid, payloads), log := r.out.log)
            && r.req == q.(sent := r.req.sent)
    decreases |payloads|
  {
    hide Appended, StdoutFrame, PayloadOf, RenderOutcome;
    if payloads == [] {
      assert o.unsent + [] == o.unsent;
    } else {
      var c := Chunk(payloads[0], |payloads[0]|);
      var a := PutOwn(o, q, StdoutOut(q.begin.rid, c));
      StdoutAppended(q.begin.rid, c, 0);
      PiecesAppend(a.out, a.req, payloads[1..]);
      var rest := StdoutFrames(q.begin.rid, payloads[1..]);
      var first := StdoutFrame(q.begin.rid, payloads[0]);
      assert o.unsent + first + rest == o.unsent + (first + rest);
    }
  }

  /** `mnfcgi_request_headers_end`, while headers are allowed and the request is open: STDOUT
      records whose contents are together the lines of the headers that can be sent, in order,
      and one of the empty line alone. Nothing is written yet. */
  lemma HeadersEndSends(link: Link, o: Out, q: Req) returns (payloads: seq<bytes>)
    ensures forall p <- payloads :: |p| <= 0x8000
    ensures var r := Do(link, o, q, HeadersEndOp);
            if q.state > 3 then r == Ran(o, q, BadState)
            else if q.complete then r == Ran(o, q.(state := 4), Completed)
            else
              && r.code == Headers.Ok && r.req == q.(headers := [], state := 4, sent := r.req.sent)
              && r.req.sent == q.sent + App.StdoutRecords(q.begin.rid, payloads + [[13, 10]])
              && r.out == o.(unsent := o.unsent + StdoutFrames(q.begin.rid, payloads + [[13, 10]]), log := r.out.log)
              && Flatten(payloads) == Lines(Sendable(q.headers))
  {
    hide PutPieces, StdoutFrames, PackAll, App.StdoutRecords, Lines, Sendable;
    payloads := PackAll(q.headers);
    PackedBlock(q.headers);
    assert CRLF == [13, 10];
    forall p | p in payloads + [CRLF] ensures |p| <= 0x8000 {
      assert p in payloads || p == CRLF;
    }
    PiecesAppend(o, q.(headers := []), payloads + [CRLF]);
    App.PiecesSent(o, q.(headers := []), payloads + [CRLF]);
  }

  /** A field call changes the table alone, as the call says of the name's values and of no
      other name's, and a state that is set changes the state alone. */
  lemma FieldChanges(link: Link, o: Out, q: Req, mode: Mode, name: bytes, value: Option<bytes>)
    ensures var r, t := Do(link, o, q, FieldOp(mode, name, value)), q.headers;
            && r.out == o && r.req == q.(headers := r.req.headers)
            && (forall other :: other != name ==> ValuesOf(r.req.headers, other) == ValuesOf(t, other))
            && var had := ValuesOf(t, name);
               if q.state > 3 then r.code == BadState && r.req.headers == t
               else if had == [] then r.code == Headers.Ok && ValuesOf(r.req.headers, name) == [value]
               else match mode
                 case Plain => r.code == Duplicate && ValuesOf(r.req.headers, name) == had + [value]
                 case IfNotExists => r.code == Duplicate && r.req.headers == t
                 case Override => r.code == Headers.Ok && ValuesOf(r.req.headers, name) == [value] + had[1..]
    ensures forall state: int :: Do(link, o, q, SetStateOp(state)) == Ran(o, q.(state := state), Headers.Ok)
  {
    hide ValuesOf, Find, EndHeaders, Finalize;
    var f, i := Field(name, value), Find(q.headers, name);
    ValuesNone(q.headers, name);
    forall other
      ensures ValuesOf(q.headers + [f], other) == ValuesOf(q.headers, other) + if other == name then [value] else []
    {
      ValuesAppend(q.headers, f, other);
    }
    if i < |q.headers| {
      forall other
        ensures ValuesOf(q.headers[i := f], other)
             == if other == name then [value] + ValuesOf(q.headers, name)[1..] else ValuesOf(q.headers, other)
      {
        ValuesUpdate(q.headers, i, f, other);
      }
    }
  }

  // --------------------------------------------------- records no request takes

  /** The reply to a record no request takes: one with an unknown role, a second BEGIN_REQUEST
      for an id, anything for an id without a request, or a GET_VALUES_RESULT. */
  function Refusal(table: map<u16, Slot>, ev: Event): Option<bytes> {
    var rid := ev.rec.rid;
    match ev.rec.body
    case BeginBody(role, _) =>
      if role != 1 then Some(EndFrame(rid, 3, 0)) else if rid in table then Some(EndFrame(rid, 0, 0)) else None
    case ValuesBody(_) => None
    case ResultBody(_) => Some(UNKNOWN_FRAME)
    case _ => if rid in table then None else Some(EndFrame(rid, 0, 0))
  }

  /** The arm that replies. */
  lemma ReplySends(link: Link, o: Out, slot: Option<Slot>, rec: OutRecord, id: nat)
    ensures var arm, sent := Reply(link, o, slot, rec, id), link(o.writes);
            && arm.slot == slot && arm.freed == [id] && arm.done == [] && !arm.dangling
            && arm.status == (if sent then Running else Stopped)
            && arm.out.writes == o.writes + 1 && arm.out.inRewinds == o.inRewinds && arm.out.lost == o.lost
            && arm.out.failed == (o.failed || !sent)
            && arm.out.delivered == (if sent then o.delivered + o.unsent + Appended(rec, 0) else o.delivered)
            && arm.out.unsent == (if sent then [] else o.unsent + Appended(rec, 0))
  {
    hide Appended;
    assert o.delivered + (o.unsent + Appended(rec, 0)) == o.delivered + o.unsent + Appended(rec, 0);
    assert [] + [id] == [id];
  }

  function RefusalRecord(table: map<u16, Slot>, ev: Event): OutRecord {
    match ev.rec.body
    case BeginBody(role, _) =>
      if role != RESPONDER then EndOut(ev.rec.rid, UNKNOWN_ROLE, 0) else EndOut(ev.rec.rid, REQUEST_COMPLETE, 0)
    case ResultBody(_) => UnknownTypeOut(0, GET_VALUES_RESULT)
    case _ => EndOut(ev.rec.rid, REQUEST_COMPLETE, 0)
  }

  lemma RefusalArm(cfg: Config, link: Link, c: Conn, ev: Event)
    requires Refusal(c.table, ev).Some?
    ensures var slot, rec := Lookup(c.table, ev.rec.rid), RefusalRecord(c.table, ev);
            && Dispatch(cfg, link, c.out, slot, ev, c.seen) == Reply(link, c.out, slot, rec, c.seen)
            && Refusal(c.table, ev).value == Appended(rec, 0)
  {
    hide Reply, Appended, EndFrame;
    EndAppended(ev.rec.rid, UNKNOWN_ROLE, 0, 0);
    EndAppended(ev.rec.rid, REQUEST_COMPLETE, 0, 0);
    UnknownAppended(0);
  }

  lemma SameTable(table: map<u16, Slot>, rid: u16)
    ensures Updated(table, rid, Lookup(table, rid)) == table
  {
    assert rid in table ==> table[rid := table[rid]] == table;
    assert rid !in table ==> table - {rid} == table;
  }

  /** It is written at once, behind everything unsent; if that fails the connection ends. */
  lemma RefusalsSent(cfg: Config, link: Link, c: Conn, ev: Event)
    requires Refusal(c.table, ev).Some?
    ensures var s, o := StepConn(cfg, link, c, ev), c.out;
            var o' := s.conn.out;
            && o'.unsent == [] && o'.writes == o.writes + 1
            && s.conn.seen == c.seen + 1 && s.conn.freed == c.freed + [c.seen] && s.conn.done == c.done
            && if link(o.writes) then
                 && s.status == Running && s.conn.table == c.table
                 && o'.delivered == o.delivered + o.unsent + Refusal(c.table, ev).value
                 && o'.failed == o.failed && o'.lost == o.lost && o'.inRewinds == o.inRewinds
               else
                 && s.status == Stopped && Ended(c.table, s.conn.table)
                 && o'.delivered == o.delivered && o'.failed && o'.lost
  {
    hide Dispatch, Reply, Appended, Refusal, Lookup, Updated;
    RefusalArm(cfg, link, c, ev);
    RefusalSome(c.table, ev);
    ReplySends(link, c.out, Lookup(c.table, ev.rec.rid), RefusalRecord(c.table, ev), c.seen);
    SameTable(c.table, ev.rec.rid);
    assert c.done + [] == c.done;
  }

  /** The requests that are left, each complete. */
  ghost predicate Ended(table: map<u16, Slot>, table': map<u16, Slot>) {
    table'.Keys == table.Keys
    && forall rid <- table :: table'[rid] == table[rid].(req := table[rid].req.(complete := true))
  }

  lemma RefusalSome(table: map<u16, Slot>, ev: Event)
    requires Refusal(table, ev).Some?
    ensures Refusal(table, ev).value != []
  {
  }

  // ------------------------------------------------------- the end of a request

  /** How often a callback finalizes. */
  function Finalizes(link: Link, o: Out, q: Req, p: Prog): nat
    decreases p
  {
    match p
    case Return(_) => 0
    case Step(op, _, _, _, _, _, _, _) =>
      var r := Do(link, o, q, op);
      (if op.FinalizeOp? then 1 else 0) + Finalizes(link, r.out, r.req, p.Next(r.code))
  }

  /** How often the end_request callback of a request rewinds the input: it runs, and it sees
      the request without its records and headers. */
  function EndRewinds(cfg: Config, q: Req): nat {
    match cfg.endRender
    case None => 0
    case Some(f) =>
      var bare := q.(params := [], stdin := [], data := [], headers := []);
      Finalizes((n: nat) => true, START.out, bare, f(bare))
  }

  /** On a complete request every call of a callback fares the same on any connection, and
      nothing but the rewinds shows. */
  lemma {:induction false} CompleteFinalizes(link: Link, o: Out, link': Link, o': Out, q: Req, p: Prog)
    requires q.complete
    ensures Finalizes(link, o, q, p) == Finalizes(link', o', q, p)
    ensures Run(link, o, q, p).out.inRewinds == o.inRewinds + Finalizes(link, o, q, p)
    decreases p
  {
    if p.Step? {
      var r, r' := Do(link, o, q, p.op), Do(link', o', q, p.op);
      CompleteFinalizes(link, r.out, link', r'.out, r.req, p.Next(r.code));
    }
  }

  /** With nothing unsent, as it is once a request is complete. */
  lemma EndHookRuns(cfg: Config, link: Link, o: Out, q: Req)
    requires q.complete && o.unsent == []
    ensures var o' := EndHook(cfg, link, o, q);
            o' == o.(start := o'.start, inRewinds := o.inRewinds + EndRewinds(cfg, q))
  {
    hide Run, Finalizes;
    DispatchProofs.EndHookNothing(cfg, link, o, q);
    if cfg.endRender.Some? {
      var w := Wiped(q);
      CompleteFinalizes(link, o, (n: nat) => true, START.out, w, cfg.endRender.value(w));
    }
  }

  /** A request that is destroyed, with nothing unsent: its end_request callback runs, and
      behind a failure or an abort there is one more write. */
  ghost predicate Destroyed(cfg: Config, link: Link, o: Out, q: Req, again: bool, o': Out, status: Status) {
    var sent := !again || link(o.writes);
    && status == (if sent then Running else Stopped)
    && o' == Out([], o'.start, o.delivered, o.log, if again then o.writes + 1 else o.writes, o.failed || !sent,
                 o.lost, o.inRewinds + EndRewinds(cfg, q))
  }

  lemma RetireEnds(cfg: Config, link: Link, o: Out, s: Slot)
    requires s.req.complete && o.unsent == []
    ensures var arm := Retire(cfg, link, o, s);
            && Destroyed(cfg, link, o, s.req, false, arm.out, arm.status)
            && arm.slot == None && arm.done == [s.req] && arm.freed == s.ids.All()
  {
    hide EndHook, EndRewinds;
    EndHookRuns(cfg, link, o, s.req);
  }

  lemma DismissEnds(cfg: Config, link: Link, o: Out, s: Slot, extra: seq<nat>, id: nat)
    requires s.req.complete && o.unsent == []
    ensures var arm := Dismiss(cfg, link, o, s, extra, id);
            && Destroyed(cfg, link, o, s.req, true, arm.out, arm.status)
            && arm.slot == None && arm.done == [s.req]
            && arm.freed == s.ids.All() + if link(o.writes) then extra else [id]
  {
    hide EndHook, EndRewinds;
    EndHookRuns(cfg, link, o, s.req);
    assert o.delivered + [] == o.delivered;
  }

  /** A step whose arm leaves no entry. */
  lemma StepLeaves(cfg: Config, link: Link, c: Conn, ev: Event, arm: Arm)
    requires arm == Dispatch(cfg, link, c.out, Lookup(c.table, ev.rec.rid), ev, c.seen) && arm.slot == None
    ensures var s := StepConn(cfg, link, c, ev);
            && s.status == arm.status && s.conn.done == c.done + arm.done && s.conn.freed == c.freed + arm.freed
            && s.conn.out == (if arm.status == Stopped then RewindBoth(arm.out) else arm.out)
            && if arm.status == Stopped then Ended(c.table - {ev.rec.rid}, s.conn.table)
               else s.conn.table == c.table - {ev.rec.rid}
  {
    hide Dispatch;
  }

  /** Where the connection is when a request has left it: its end_request callback has run, and
      with `again` there was a write behind that, whose failure ends the connection. */
  ghost predicate Leaves(cfg: Config, link: Link, c: Conn, rid: u16, o: Out, q: Req, again: bool, s: Stepped) {
    var sent := !again || link(o.writes);
    && s.status == (if sent then Running else Stopped)
    && s.conn.out == Out([], s.conn.out.start, o.delivered, o.log, if again then o.writes + 1 else o.writes,
                         o.failed || !sent, o.lost, o.inRewinds + EndRewinds(cfg, q) + if sent then 0 else 1)
    && s.conn.done == c.done + [q]
    && if sent then s.conn.table == c.table - {rid} else Ended(c.table - {rid}, s.conn.table)
  }

  lemma DestroyedLeaves(cfg: Config, link: Link, c: Conn, ev: Event, o: Out, q: Req, again: bool, arm: Arm)
    requires arm == Dispatch(cfg, link, c.out, Lookup(c.table, ev.rec.rid), ev, c.seen) && arm.slot == None
    requires Destroyed(cfg, link, o, q, again, arm.out, arm.status) && arm.done == [q]
    ensures Leaves(cfg, link, c, ev.rec.rid, o, q, again, StepConn(cfg, link, c, ev))
  {
    hide Dispatch, StepConn, EndRewinds, Ended;
    StepLeaves(cfg, link, c, ev, arm);
  }

  /** ABORT_REQUEST for a request in the table: END_REQUEST goes out behind everything unsent,
      the request leaves, and there is a second write. */
  lemma AbortsSent(cfg: Config, link: Link, c: Conn, ev: Event)
    requires ev.rec.body.AbortBody? && ev.rec.rid in c.table && !c.table[ev.rec.rid].req.complete
    ensures var q, a := c.table[ev.rec.rid].req, Abort(link, c.out, c.table[ev.rec.rid].req, 0);
            && EndsWith(c.out, a.out, link(c.out.writes), EndFrame(q.begin.rid, 0, 0))
            && a.req == q.(complete := true, sent := a.req.sent, finalized := false)
            && Leaves(cfg, link, c, ev.rec.rid, a.out, a.req, true, StepConn(cfg, link, c, ev))
    ensures var ids := c.table[ev.rec.rid].ids;
            StepConn(cfg, link, c, ev).conn.freed
            == c.freed + ([ids.begin] + ids.params + ids.stdin + ids.data + [c.seen])
  {
    hide Abort, EndFrame, Dismiss, StepConn, Destroyed;
    var s := c.table[ev.rec.rid];
    var a := Abort(link, c.out, s.req, 0);
    AbortSends(link, c.out, s.req, 0);
    DismissEnds(cfg, link, a.out, Slot(a.req, s.ids), [c.seen], c.seen);
    var arm := Dismiss(cfg, link, a.out, Slot(a.req, s.ids), [c.seen], c.seen);
    DestroyedLeaves(cfg, link, c, ev, a.out, a.req, true, arm);
    StepLeaves(cfg, link, c, ev, arm);
  }

  /** A callback's result, with the abort behind a failure. */
  function Ending(link: Link, r: Returned): Returned {
    if r.rc < 0 then
      var a := Abort(link, r.out, r.req, (0 - r.rc) % 0x1_0000_0000);
      Returned(a.out, a.req, r.rc)
    else r
  }

  lemma CalledArm(cfg: Config, link: Link, c: Conn, ev: Event, q: Req, p: Prog) returns (ids: Ids)
    requires PhaseProofs.CallFor(cfg, Lookup(c.table, ev.rec.rid), ev) == PhaseProofs.Call.Call(q, p)
    ensures Dispatch(cfg, link, c.out, Lookup(c.table, ev.rec.rid), ev, c.seen)
         == Settle(cfg, link, Ending(link, Run(link, c.out, q, p)), ids, ev.rec.body, c.seen)
    ensures ev.rec.rid in c.table ==>
              var was := c.table[ev.rec.rid].req; q.begin == was.begin && q.complete == was.complete
    ensures ev.rec.rid !in c.table ==> !q.complete
    ensures ev.rec.body.BeginBody? || IsStream(ev.rec.body)
  {
    hide Run, Abort, Settle;
    var slot := Lookup(c.table, ev.rec.rid);
    ids := if slot.Some? && IsStream(ev.rec.body) then EnqueueId(slot.value.ids, ev.rec.body, c.seen) else NewIds(c.seen);
  }

  lemma SettleDecides(cfg: Config, link: Link, c: Conn, ev: Event, r: Returned, ids: Ids)
    requires Dispatch(cfg, link, c.out, Lookup(c.table, ev.rec.rid), ev, c.seen)
          == Settle(cfg, link, r, ids, ev.rec.body, c.seen)
    requires (r.rc < 0 ==> r.req.complete) && (r.req.complete ==> r.out.unsent == [])
    requires ev.rec.body.BeginBody? || IsStream(ev.rec.body)
    ensures var s := StepConn(cfg, link, c, ev);
            if r.req.complete then
              var again := r.rc < 0 && (ev.rec.body.BeginBody? || ev.rec.body.ParamsBody?);
              Leaves(cfg, link, c, ev.rec.rid, r.out, r.req, again, s)
            else
              && s.status == Running && s.conn.out == r.out && s.conn.done == c.done && s.conn.freed == c.freed
              && ev.rec.rid in s.conn.table && s.conn.table[ev.rec.rid].req == r.req
  {
    hide Dispatch, Dismiss, Retire, Destroyed, Leaves, Lookup;
    var slot, body := Slot(r.req, ids), ev.rec.body;
    var arm := Settle(cfg, link, r, ids, body, c.seen);
    if r.req.complete {
      RetireEnds(cfg, link, r.out, slot);
      DismissEnds(cfg, link, r.out, slot, [], c.seen);
      SettleLeaves(cfg, link, r, ids, body, c.seen);
      DestroyedLeaves(cfg, link, c, ev, r.out, r.req, r.rc < 0 && (body.BeginBody? || body.ParamsBody?), arm);
    } else {
      assert c.done + [] == c.done && c.freed + [] == c.freed;
    }
  }

  lemma SettleLeaves(cfg: Config, link: Link, r: Returned, ids: Ids, body: Body, id: nat)
    requires r.req.complete && r.out.unsent == [] && (body.BeginBody? || IsStream(body))
    ensures var arm := Settle(cfg, link, r, ids, body, id);
            && Destroyed(cfg, link, r.out, r.req, r.rc < 0 && (body.BeginBody? || body.ParamsBody?), arm.out, arm.status)
            && arm.slot == None && arm.done == [r.req]
  {
    hide Dismiss, Retire, Destroyed;
    RetireEnds(cfg, link, r.out, Slot(r.req, ids));
    DismissEnds(cfg, link, r.out, Slot(r.req, ids), [], id);
    RetireMarked(cfg, link, r.out, Slot(r.req, ids));
  }

  lemma RetireMarked(cfg: Config, link: Link, o: Out, s: Slot)
    ensures var arm, marked := Retire(cfg, link, o, s), Retire(cfg, link, o, s).(dangling := true);
            marked.out == arm.out && marked.slot == arm.slot && marked.done == arm.done && marked.status == arm.status
  {
  }

  /** The callback a record leads to, on the request it is for, and what becomes of both: a
      request left open stays, with everything the callback did; a complete one leaves. If the
      callback fails, an open request is ended with the negated code first, and behind
      BEGIN_REQUEST and PARAMS there is one more write. */
  lemma CallbackDecides(cfg: Config, link: Link, c: Conn, ev: Event, q: Req, p: Prog)
    requires RunProofs.Invariant(c)
    requires PhaseProofs.CallFor(cfg, Lookup(c.table, ev.rec.rid), ev) == PhaseProofs.Call.Call(q, p)
    ensures var r, s := Run(link, c.out, q, p), StepConn(cfg, link, c, ev);
            var a := Abort(link, r.out, r.req, (0 - r.rc) % 0x1_0000_0000);
            if r.rc < 0 then
              && (r.req.complete ==> a == Ran(StartedOver(r.out), r.req, Completed))
              && (!r.req.complete ==>
                    EndsWith(r.out, a.out, link(r.out.writes), EndFrame(q.begin.rid, 0, (0 - r.rc) % 0x1_0000_0000)))
              && Leaves(cfg, link, c, ev.rec.rid, a.out, a.req, ev.rec.body.BeginBody? || ev.rec.body.ParamsBody?, s)
            else if r.req.complete then Leaves(cfg, link, c, ev.rec.rid, r.out, r.req, false, s)
            else
              && s.status == Running && s.conn.out == r.out && s.conn.done == c.done && s.conn.freed == c.freed
              && ev.rec.rid in s.conn.table && s.conn.table[ev.rec.rid].req == r.req
  {
    hide Run, Abort, Leaves, StepConn, EndsWith, RunProofs.Invariant, Dispatch, Settle;
    var r := Run(link, c.out, q, p);
    var ids := CalledArm(cfg, link, c, ev, q, p);
    OpenAt(c, ev.rec.rid);
    RunKeeps(link, c.out, q, p);
    AbortSends(link, r.out, r.req, (0 - r.rc) % 0x1_0000_0000);
    SettleDecides(cfg, link, c, ev, Ending(link, r), ids);
  }

  lemma OpenAt(c: Conn, rid: u16)
    requires RunProofs.Invariant(c)
    ensures Conserved(c.out)
    ensures rid in c.table ==> !c.table[rid].req.complete
  {
  }

  /** Without a callback for it a record does no more than begin a request or join a queue. */
  lemma NoCallbackStays(cfg: Config, link: Link, c: Conn, ev: Event)
    requires RunProofs.Invariant(c) && Refusal(c.table, ev).None? && (ev.rec.body.BeginBody? || IsStream(ev.rec.body))
    requires PhaseProofs.CallFor(cfg, Lookup(c.table, ev.rec.rid), ev) == PhaseProofs.NoCall
    ensures var s, rid := StepConn(cfg, link, c, ev), ev.rec.rid;
            && s.status == Running && s.conn.out == c.out && s.conn.done == c.done && s.conn.freed == c.freed
            && rid in s.conn.table && s.conn.table - {rid} == c.table - {rid}
            && var q := s.conn.table[rid].req;
               if ev.rec.body.BeginBody? then q == Req(ev.rec, [], [], [], [], 0, false, false, [])
               else
                 var was := c.table[rid].req;
                 q == was.(params := was.params + if ev.rec.body.ParamsBody? then [ev.rec] else [],
                           stdin := was.stdin + if ev.rec.body.StdinBody? then [ev.rec] else [],
                           data := was.data + if ev.rec.body.DataBody? then [ev.rec] else [])
  {
    assert c.done + [] == c.done && c.freed + [] == c.freed;
    if ev.rec.rid in c.table {
      var was := c.table[ev.rec.rid].req;
      assert was.params + [] == was.params && was.stdin + [] == was.stdin && was.data + [] == was.data;
    }
  }

  /** What comes of a user's callback: its failure is the library's error, its success the size
      of the record, in the state that follows. */
  function Adapted(user: Returned, error: int, state: int, size: int): Returned {
    if user.rc != 0 then Returned(user.out, user.req, error) else Returned(user.out, user.req.(state := state), size)
  }

  /** Which of an application's callbacks a record leads to: BEGIN_REQUEST to the one for it, an
      empty PARAMS record to the one for complete parameters, STDIN to the one for data or, if
      it is empty, for their end. No other record has any. */
  lemma ApplicationCalls(app: App.Callbacks, maxConns: bytes, maxReqs: bytes, build: Build, link: Link, c: Conn, ev: Event)
    returns (q: Req, p: Prog)
    requires Refusal(c.table, ev).None? && (ev.rec.body.BeginBody? || ev.rec.body.ParamsBody? || ev.rec.body.StdinBody?)
    ensures PhaseProofs.CallFor(App.ConfigOf(app, maxConns, maxReqs, build), Lookup(c.table, ev.rec.rid), ev)
         == PhaseProofs.Call.Call(q, p)
    ensures var r, was := Run(link, c.out, q, p), Lookup(c.table, ev.rec.rid);
            match ev.rec.body
            case BeginBody(_, _) =>
              var user := App.User(app.beginRequest, link, c.out, NewReq(ev.rec).(state := 1));
              r == Adapted(user, app.beginError, user.req.state, ev.rec.rsz)
            case ParamsBody(_) =>
              q == was.value.req.(params := was.value.req.params + [ev.rec])
              && var user := App.User(app.paramsComplete, link, c.out, q.(state := 2));
                 r == if ev.rec.rsz > 0 then Returned(c.out, q, ev.rec.rsz) else Adapted(user, app.paramsError, 3, 0)
            case _ =>
              q == was.value.req.(stdin := was.value.req.stdin + [ev.rec])
              && var user := App.User(if ev.rec.rsz > 0 then app.stdin else app.stdinEnd, link, c.out, q);
                 r == Adapted(user, app.stdinError, user.req.state, ev.rec.rsz)
  {
    hide Run, App.User;
    if ev.rec.body.BeginBody? {
      q := NewReq(ev.rec);
      p := App.BeginRequest(app)(ev, q);
      App.BeginAdapter(app, link, c.out, q, ev);
    } else {
      q := Enqueue(c.table[ev.rec.rid].req, ev.rec);
      if ev.rec.body.ParamsBody? {
        p := App.ParamsHandler(app)(ev, q);
        App.ParamsAdapter(app, link, c.out, q, ev);
      } else {
        p := App.StdinHandler(app)(ev, q);
        App.StdinAdapter(app, link, c.out, q, ev);
      }
    }
  }

  lemma ApplicationIgnores(app: App.Callbacks, maxConns: bytes, maxReqs: bytes, build: Build, slot: Option<Slot>, ev: Event)
    ensures var cfg := App.ConfigOf(app, maxConns, maxReqs, build);
            && (ev.rec.body.DataBody? ==> PhaseProofs.CallFor(cfg, slot, ev) == PhaseProofs.NoCall)
            && cfg.endRender == app.endRequest && cfg.maxConns == maxConns && cfg.maxReqs == maxReqs && cfg.build == build
  {
  }

  /** With assertions, a query that asks for nothing the library knows gets an empty answer,
      which waits for the next write. */
  lemma QueryAnswered(cfg: Config, link: Link, c: Conn, ev: Event)
    requires cfg.build.Debug? && ev.rec.body.ValuesBody?
    requires forall k <- ev.rec.body.values ::
               ev.rec.body.values[k].None? && k != MAX_CONNS && k != MAX_REQS && k != MPXS_CONNS
    ensures var s, rid := StepConn(cfg, link, c, ev), ev.rec.rid;
            && s.status == Running && s.conn.table == c.table && s.conn.freed == c.freed + [c.seen]
            && s.conn.out == c.out.(log := s.conn.out.log,
                                    unsent := c.out.unsent + [1, 10, rid / 0x100, rid % 0x100, 0, 0, 0, 0])
  {
    hide Appended;
    forall k <- Answered(cfg, ev.rec.body.values) ensures Answered(cfg, ev.rec.body.values)[k].None? {
      DispatchProofs.AnsweredNames(cfg, ev.rec.body.values, k);
    }
    SameTable(c.table, ev.rec.rid);
    EmptyAppended(ev.rec.rid);
  }

  lemma EmptyAppended(rid: u16)
    ensures Appended(ResultOut(rid, []), 0) == [1, 10, rid / 0x100, rid % 0x100, 0, 0, 0, 0]
  {
    assert PaddingBytes(0) == [];
  }

  // ------------------------------------------------ the end of a connection

  /** Requests destroyed one after the other, each as long as it is in the table. */
  function DropAll(cfg: Config, link: Link, c: Conn, order: seq<u16>): Conn {
    if order == [] then c
    else
      var before, rid := DropAll(cfg, link, c, order[..|order| - 1]), order[|order| - 1];
      if rid in before.table then OwnershipProofs.Drop(cfg, link, before, rid) else before
  }

  lemma DropNone(cfg: Config, link: Link, c: Conn)
    ensures DropAll(cfg, link, c, []) == c
  {
  }

  lemma DropOneMore(cfg: Config, link: Link, c: Conn, order: seq<u16>, rid: u16)
    requires rid in DropAll(cfg, link, c, order).table
    ensures DropAll(cfg, link, c, order + [rid]) == OwnershipProofs.Drop(cfg, link, DropAll(cfg, link, c, order), rid)
  {
    hide OwnershipProofs.Drop;
    assert (order + [rid])[..|order|] == order;
  }

  function EndRewindsOf(cfg: Config, reqs: seq<Req>): nat {
    if reqs == [] then 0 else EndRewindsOf(cfg, reqs[..|reqs| - 1]) + EndRewinds(cfg, reqs[|reqs| - 1])
  }

  /** Of the requests of a table, these are gone and those are left. */
  ghost predicate Parted(table: map<u16, Slot>, gone: seq<Req>, left: map<u16, Slot>) {
    && |gone| + |left| == |table|
    && forall rid <- table :: if rid in left then left[rid] == table[rid] else table[rid].req in gone
  }

  /** `c'` is `c` without some of its requests: each of them is destroyed once and its
      end_request callback has run. */
  ghost predicate Finished(cfg: Config, c: Conn, c': Conn) {
    && c'.table.Keys <= c.table.Keys && c.done <= c'.done
    && var gone := c'.done[|c.done|..];
       && Parted(c.table, gone, c'.table)
       && c'.out == c.out.(start := c'.out.start, inRewinds := c.out.inRewinds + EndRewindsOf(cfg, gone))
  }

  lemma PartOne(table: map<u16, Slot>, gone: seq<Req>, left: map<u16, Slot>, rid: u16)
    requires Parted(table, gone, left) && rid in left && left.Keys <= table.Keys
    ensures Parted(table, gone + [left[rid].req], left - {rid})
  {
    var q := left[rid].req;
    assert left.Keys == (left - {rid}).Keys + {rid} && |left| == |left.Keys| && |left - {rid}| == |(left - {rid}).Keys|;
    assert q in gone + [q] && forall x :: x in gone ==> x in gone + [q];
  }

  lemma DropFinishes(cfg: Config, link: Link, c: Conn, c1: Conn, rid: u16)
    requires Finished(cfg, c, c1) && rid in c1.table && c.out.unsent == [] && c1.table[rid].req.complete
    ensures Finished(cfg, c, OwnershipProofs.Drop(cfg, link, c1, rid))
  {
    hide EndRewinds, EndHook, EndRewindsOf, Parted;
    var c2, q := OwnershipProofs.Drop(cfg, link, c1, rid), c1.table[rid].req;
    EndHookRuns(cfg, link, c1.out, q);
    var gone := c1.done[|c.done|..];
    assert c2.done[|c.done|..] == gone + [q];
    OneMoreRewinds(cfg, gone, q);
    PartOne(c.table, gone, c1.table, rid);
  }

  lemma OneMoreRewinds(cfg: Config, gone: seq<Req>, q: Req)
    ensures EndRewindsOf(cfg, gone + [q]) == EndRewindsOf(cfg, gone) + EndRewinds(cfg, q)
  {
    hide EndRewinds;
    assert (gone + [q])[..|gone|] == gone;
  }

  lemma {:induction false} DropAllFinishes(cfg: Config, link: Link, c: Conn, order: seq<u16>)
    requires c.out.unsent == [] && forall r <- c.table :: c.table[r].req.complete
    ensures Finished(cfg, c, DropAll(cfg, link, c, order))
    decreases |order|
  {
    if order == [] {
      assert c.done[|c.done|..] == [];
    } else {
      DropAllFinishes(cfg, link, c, order[..|order| - 1]);
      var before, rid := DropAll(cfg, link, c, order[..|order| - 1]), order[|order| - 1];
      if rid in before.table {
        assert before.table[rid] == c.table[rid];
        DropFinishes(cfg, link, c, before, rid);
      }
    }
  }

  // ---------------------------------------------------------------- whole runs

  /** Records after which the code always writes. */
  predicate Ends(rec: OutRecord) {
    rec.EndOut? || rec.UnknownTypeOut?
  }

  /** The bytes rendered behind the last of them. */
  function Pending(log: seq<Entry>): bytes {
    if log == [] || Ends(log[|log| - 1].rec) then [] else Pending(log[..|log| - 1]) + log[|log| - 1].bytes
  }

  /** No more than those are unsent. */
  ghost predicate Caught(o: Out) {
    |o.unsent| <= |Pending(o.log)|
  }

  lemma PushCaught(o: Out, e: Entry)
    requires Caught(o) && !Ends(e.rec)
    ensures Caught(Push(o, e))
  {
    assert (o.log + [e])[..|o.log|] == o.log;
  }

  lemma {:induction false} PiecesCaught(o: Out, q: Req, payloads: seq<bytes>)
    requires Caught(o)
    ensures Caught(PutPieces(o, q, payloads).out)
    decreases |payloads|
  {
    if payloads != [] {
      var rec := StdoutOut(q.begin.rid, Chunk(payloads[0], |payloads[0]|));
      PushCaught(o, EntryOf(true, rec));
      PiecesCaught(PutOwn(o, q, rec).out, PutOwn(o, q, rec).req, payloads[1..]);
    }
  }

  lemma DoCaught(link: Link, o: Out, q: Req, op: Op)
    requires Caught(o)
    ensures Caught(Do(link, o, q, op).out)
  {
    hide Pending, Appended;
    match op
    case RenderStdoutOp(piece) =>
      PushCaught(o, EntryOf(true, StdoutOut(q.begin.rid, piece.AsChunk())));
    case HeadersEndOp =>
      PiecesCaught(o, q.(headers := []), PackAll(q.headers) + [CRLF]);
    case _ =>
  }

  lemma {:induction false} RunCaught(link: Link, o: Out, q: Req, p: Prog)
    requires Caught(o)
    ensures Caught(Run(link, o, q, p).out)
    decreases p
  {
    hide Caught, Do;
    if p.Step? {
      DoCaught(link, o, q, p.op);
      var r := Do(link, o, q, p.op);
      RunCaught(link, r.out, r.req, p.Next(r.code));
    }
  }

  lemma ServedCaught(h: Option<Handler>, link: Link, o: Out, q: Req, ev: Event)
    requires Caught(o)
    ensures Caught(Served(h, link, o, q, ev).out)
  {
    hide Run;
    if h.Some? {
      RunCaught(link, o, q, h.value(ev, q));
    }
  }

  lemma EndHookCaught(cfg: Config, link: Link, o: Out, q: Req)
    requires Caught(o)
    ensures Caught(EndHook(cfg, link, o, q))
  {
    hide Run;
    if cfg.endRender.Some? {
      RunCaught(link, o, Wiped(q), cfg.endRender.value(Wiped(q)));
    }
  }

  lemma SettleCaught(cfg: Config, link: Link, r: Returned, ids: Ids, body: Body, id: nat)
    requires AllWritesSucceed(link) && Caught(r.out)
    ensures Caught(Settle(cfg, link, r, ids, body, id).out)
  {
    hide EndHook;
    EndHookCaught(cfg, link, r.out, r.req);
  }

  lemma DispatchCaught(cfg: Config, link: Link, o: Out, slot: Option<Slot>, ev: Event, id: nat)
    requires AllWritesSucceed(link) && Caught(o)
    ensures Caught(Dispatch(cfg, link, o, slot, ev, id).out)
  {
    hide Served, Settle, EndHook, Pending, Appended, AppendedIn;
    match ev.rec.body
    case BeginBody(_, _) =>
      ServedCaught(cfg.beginParse, link, o, NewReq(ev.rec), ev);
      SettleCaught(cfg, link, Served(cfg.beginParse, link, o, NewReq(ev.rec), ev), NewIds(id), ev.rec.body, id);
    case AbortBody =>
    case ValuesBody(_) => ValuesCaught(cfg, o, slot, ev, id);
    case ResultBody(_) =>
    case _ =>
      if slot.Some? {
        var q, h := Enqueue(slot.value.req, ev.rec), StreamHandler(cfg, ev.rec.body);
        ServedCaught(h, link, o, q, ev);
        SettleCaught(cfg, link, Served(h, link, o, q, ev), EnqueueId(slot.value.ids, ev.rec.body, id), ev.rec.body, id);
      }
  }

  lemma ValuesCaught(cfg: Config, o: Out, slot: Option<Slot>, ev: Event, id: nat)
    requires Caught(o) && ev.rec.body.ValuesBody?
    ensures Caught(DispatchValues(cfg, o, slot, ev, id).out)
  {
    hide Pending, Appended, AppendedIn;
    match cfg.build
    case Debug => PushCaught(o, EntryOf(false, ResultOut(ev.rec.rid, [])));
    case Release(order) =>
      var rec := ResultOut(ev.rec.rid, order(Answered(cfg, ev.rec.body.values)));
      PushCaught(o, Entry(false, rec, AppendedIn(false, rec, o.End())));
  }

  lemma {:induction false} PendingBehind(log: seq<Entry>, k: nat)
    requires k < |log| && Ends(log[k].rec)
    ensures LogBytes(log[..k + 1]) <= LogBytes(log)
    ensures |LogBytes(log[..k + 1])| + |Pending(log)| <= |LogBytes(log)|
    decreases |log|
  {
    var n := |log| - 1;
    if k == n {
      assert log[..k + 1] == log;
    } else {
      PendingBehind(log[..n], k);
      assert log[..n][..k + 1] == log[..k + 1];
    }
  }

  /** Every END_REQUEST and every UNKNOWN_TYPE has been written, with all that was rendered
      before it. */
  ghost predicate EndsDelivered(o: Out) {
    forall k :: 0 <= k < |o.log| && Ends(o.log[k].rec) ==> LogBytes(o.log[..k + 1]) <= o.delivered
  }

  lemma RewoundDelivers(o: Out, o': Out)
    requires OnlyRewound(o, o')
    ensures EndsDelivered(o) ==> EndsDelivered(o')
  {
  }

  lemma CaughtDelivers(o: Out)
    requires Caught(o) && Conserved(o) && !o.lost
    ensures EndsDelivered(o)
  {
    forall k | 0 <= k < |o.log| && Ends(o.log[k].rec) ensures LogBytes(o.log[..k + 1]) <= o.delivered {
      PendingBehind(o.log, k);
      var end := LogBytes(o.log[..k + 1]);
      assert end == LogBytes(o.log)[..|end|] == (o.delivered + o.unsent)[..|end|] == o.delivered[..|end|];
    }
  }

  /** Over every run on which writes succeed, and however it ends: a peer has every END_REQUEST
      and every UNKNOWN_TYPE the connection has rendered, and everything rendered before. */
  lemma {:induction false} RunDelivers(cfg: Config, link: Link, c: Conn, evs: seq<Event>)
    requires AllWritesSucceed(link) && RunProofs.Invariant(c) && Caught(c.out) && !c.out.failed
    ensures EndsDelivered(RunConn(cfg, link, c, evs).conn.out)
    decreases |evs|
  {
    hide Dispatch, Caught, EndsDelivered, RunProofs.Invariant;
    OpenAt(c, 0);
    if evs == [] {
      CaughtDelivers(c.out);
    } else {
      var arm := Dispatch(cfg, link, c.out, Lookup(c.table, evs[0].rec.rid), evs[0], c.seen);
      DispatchCaught(cfg, link, c.out, Lookup(c.table, evs[0].rec.rid), evs[0], c.seen);
      RunProofs.DispatchSucceeds(cfg, link, c.out, Lookup(c.table, evs[0].rec.rid), evs[0], c.seen);
      ArmConserved(cfg, link, c, evs[0]);
      CaughtDelivers(arm.out);
      StepDelivers(cfg, link, c, evs[0]);
      var s := StepConn(cfg, link, c, evs[0]);
      if s.status == Running {
        RunProofs.StepKeeps(cfg, link, c, evs[0]);
        RunDelivers(cfg, link, s.conn, evs[1..]);
      }
    }
  }

  lemma ArmConserved(cfg: Config, link: Link, c: Conn, ev: Event)
    requires RunProofs.Invariant(c)
    ensures Conserved(Dispatch(cfg, link, c.out, Lookup(c.table, ev.rec.rid), ev, c.seen).out)
  {
    hide Dispatch;
    RunProofs.ArmKeeps(cfg, link, c, ev);
  }

  /** The error exit takes nothing back. */
  lemma StepDelivers(cfg: Config, link: Link, c: Conn, ev: Event)
    ensures var arm := Dispatch(cfg, link, c.out, Lookup(c.table, ev.rec.rid), ev, c.seen);
            EndsDelivered(arm.out) ==> EndsDelivered(StepConn(cfg, link, c, ev).conn.out)
    ensures var arm := Dispatch(cfg, link, c.out, Lookup(c.table, ev.rec.rid), ev, c.seen);
            StepConn(cfg, link, c, ev).status == Running ==> StepConn(cfg, link, c, ev).conn.out == arm.out
  {
    hide Dispatch;
  }

  /** And over every session, from its bytes. */
  lemma SessionDelivers(cfg: Config, link: Link, all: Input)
    requires AllWritesSucceed(link)
    ensures EndsDelivered(Sessions.Serve(cfg, link, START, all).conn.out)
  {
    hide Sessions.Serve;
    var r := Sessions.Serve(cfg, link, START, all);
    Sessions.ServeRuns(cfg, link, START, all);
    RunProofs.StartInvariant();
    RunDelivers(cfg, link, START, r.events);
  }

  // -------------------------------------------------------------- canned answers

  /** A response on the wire: the lines of the fields that can be sent, in STDOUT records, the
      empty line, the empty STDOUT and END_REQUEST, in one write behind what was unsent. */
  ghost predicate Answers(o: Out, o': Out, rid: u16, t: Table, sent: bool) {
    exists payloads: seq<bytes> ::
      && Flatten(payloads) == Lines(Sendable(t)) && (forall p <- payloads + [[13, 10]] :: |p| <= 0x8000)
      && EndsWith(o, o', sent, StdoutFrames(rid, payloads + [[13, 10]]) + (StdoutFrame(rid, []) + EndFrame(rid, 0, 0)))
  }

  lemma HeadersThenEnd(link: Link, o: Out, q: Req)
    requires q.state <= HEADERS_ALLOWED && !q.complete
    ensures var a := Do(link, o, q, HeadersEndOp);
            var b := Do(link, a.out, a.req, FinalizeOp);
            && a.code == Headers.Ok && b.req.complete
            && Answers(o, b.out, q.begin.rid, q.headers, link(o.writes))
  {
    hide Do, StdoutFrames, StdoutFrame, EndFrame, Lines, Sendable;
    var payloads := HeadersEndSends(link, o, q);
    var a := Do(link, o, q, HeadersEndOp);
    FinalizeSends(link, a.out, a.req);
    var rid := q.begin.rid;
    forall p | p in payloads + [[13, 10]] ensures |p| <= 0x8000 {
      assert p in payloads || p == [13, 10];
    }
    var fs, end := StdoutFrames(rid, payloads + [[13, 10]]), StdoutFrame(rid, []) + EndFrame(rid, 0, 0);
    assert o.delivered + (o.unsent + fs) + end == o.delivered + o.unsent + (fs + end);
  }

  lemma StatusDelivers(link: Link, o: Out, q: Req, status: bytes)
    requires q.state <= HEADERS_ALLOWED && !q.complete
    ensures Answers(o, Run(link, o, q, App.StatusThen(status, Return(0))).out, q.begin.rid,
                    SetFirst(q.headers, Field(App.STATUS, Some(status))), link(o.writes))
  {
    hide Answers, EndHeaders, Finalize, SetFirst;
    var f := Field(App.STATUS, Some(status));
    var last := App.Guarded(FinalizeOp, Return(0), Return(0));
    OverrideSets(q.headers, q.state, f);
    var a := Do(link, o, q, FieldOp(Override, App.STATUS, Some(status)));
    assert a == Ran(o, q.(headers := SetFirst(q.headers, f)), Headers.Ok);
    App.RunGuarded(link, o, q, FieldOp(Override, App.STATUS, Some(status)),
                   App.Guarded(HeadersEndOp, last, Return(0)), Return(0));
    HeadersThenEnd(link, o, a.req);
    var b := Do(link, o, a.req, HeadersEndOp);
    App.RunGuarded(link, o, a.req, HeadersEndOp, last, Return(0));
    App.RunGuarded(link, b.out, b.req, FinalizeOp, Return(0), Return(0));
  }

  /** What the peer gets of `mnfcgi_app_error`, one write, and of `mnfcgi_app_redir`. */
  lemma ErrorDelivers(link: Link, o: Out, q: Req, status: bytes)
    requires App.CanAnswer(q)
    ensures Answers(o, Run(link, o, q, App.ErrorThen(status, Return(0))).out, q.begin.rid,
                    SetFirst(q.headers + [Field(App.CONTENT_LENGTH, Some(App.ZERO))], Field(App.STATUS, Some(status))),
                    link(o.writes))
  {
    hide Answers, SetFirst;
    var length := Field(App.CONTENT_LENGTH, Some(App.ZERO));
    var a := Do(link, o, q, FieldOp(Plain, App.CONTENT_LENGTH, Some(App.ZERO)));
    assert a == Ran(o, q.(headers := q.headers + [length]), Headers.Ok);
    App.RunGuarded(link, o, q, FieldOp(Plain, App.CONTENT_LENGTH, Some(App.ZERO)),
                   App.StatusThen(status, Return(0)), Return(0));
    StatusDelivers(link, o, a.req, status);
  }

  lemma RedirDelivers(link: Link, o: Out, q: Req, status: bytes, uri: bytes)
    requires App.CanAnswer(q) && App.Lacks(q.headers, App.LOCATION)
    ensures var t := q.headers + [Field(App.CONTENT_LENGTH, Some(App.ZERO)), Field(App.LOCATION, Some(uri))];
            Answers(o, Run(link, o, q, App.RedirThen(status, uri, Return(0))).out, q.begin.rid,
                    SetFirst(t, Field(App.STATUS, Some(status))), link(o.writes))
  {
    hide Answers, SetFirst;
    var length, target := Field(App.CONTENT_LENGTH, Some(App.ZERO)), Field(App.LOCATION, Some(uri));
    var a := Do(link, o, q, FieldOp(Plain, App.CONTENT_LENGTH, Some(App.ZERO)));
    assert a == Ran(o, q.(headers := q.headers + [length]), Headers.Ok);
    App.FindOther(q.headers, length, App.LOCATION);
    var b := Do(link, o, a.req, FieldOp(Plain, App.LOCATION, Some(uri)));
    assert q.headers + [length] + [target] == q.headers + [length, target];
    assert b == Ran(o, q.(headers := q.headers + [length, target]), Headers.Ok);
    var rest := App.StatusThen(status, Return(0));
    App.RunGuarded(link, o, q, FieldOp(Plain, App.CONTENT_LENGTH, Some(App.ZERO)),
                   App.Guarded(FieldOp(Plain, App.LOCATION, Some(uri)), rest, Return(0)), Return(0));
    App.RunGuarded(link, o, a.req, FieldOp(Plain, App.LOCATION, Some(uri)), rest, Return(0));
    StatusDelivers(link, o, b.req, status);
  }
}
