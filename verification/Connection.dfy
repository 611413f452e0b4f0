/** The connection as the program keeps it: requests and buffers are objects updated in
    place. Every method is tied to the function of `Engine` it runs. */
module Connections {
  import opened Bytes
  import opened Wire
  import opened Headers
  import opened Engine
  import opened ByteStreams
  import PairProofs
  import DispatchProofs
  import OutputProofs
  import OwnershipProofs
  import RequestProofs
  import RunProofs
  import ChunkProofs
  import StreamProofs
  import Sessions
  import SessionProofs
  import DeliveryProofs
  import QueueProofs

  /** A parsed record in a queue, and as history the number under which it arrived. */
  datatype Queued = Queued(id: nat, rec: Record)

  function Recs(queue: seq<Queued>): seq<Record> {
    seq(|queue|, (i: nat) requires i < |queue| => queue[i].rec)
  }

  function Nums(queue: seq<Queued>): seq<nat> {
    seq(|queue|, (i: nat) requires i < |queue| => queue[i].id)
  }

  lemma QueueGrows(queue: seq<Queued>, id: nat, rec: Record)
    ensures Recs(queue + [Queued(id, rec)]) == Recs(queue) + [rec]
    ensures Nums(queue + [Queued(id, rec)]) == Nums(queue) + [id]
  {
  }

  class Request {
    const begin: Record
    const beginId: nat
    var params: seq<Queued>
    var stdin: seq<Queued>
    var data: seq<Queued>
    var headers: Table
    var state: int
    var complete: bool
    /** History: whether it was finalized and what it put out. */
    var finalized: bool
    var sent: seq<OutRecord>

    /** The request as a value: what its callbacks see, and what the contracts speak of. */
    function View(): Req
      reads this
    {
      Req(begin, Recs(params), Recs(stdin), Recs(data), headers, state, complete, finalized, sent)
    }

    /** The records it holds, by number. */
    function Held(): Ids
      reads this
    {
      Ids(beginId, Nums(params), Nums(stdin), Nums(data))
    }

    constructor (begin: Record, id: nat)
      ensures View() == NewReq(begin) && Held() == NewIds(id)
    {
      this.begin, beginId, params, stdin, data, headers := begin, id, [], [], [], [];
      state, complete, finalized, sent := 0, false, false, [];
    }

    /** `mnfcgi_request_get_param`. */
    method GetParam(name: bytes) returns (value: Option<bytes>)
      ensures value == Engine.GetParam(Recs(params), name)
    {
      var i := 0;
      while i < |params|
        invariant 0 <= i <= |params|
        invariant Engine.GetParam(Recs(params), name) == Engine.GetParam(Recs(params[i..]), name)
      {
        assert Recs(params[i..])[0] == params[i].rec && Recs(params[i..])[1..] == Recs(params[i + 1..]);
        var rec := params[i].rec;
        if rec.body.ParamsBody? && name in rec.body.params {
          return Some(rec.body.params[name]);
        }
        i := i + 1;
      }
      value := None;
    }

    /** `mnfcgi_request_field_add{f,b,t}` with the value formatted. */
    method FieldAdd(mode: Mode, name: bytes, value: Option<bytes>) returns (code: Code)
      modifies this`headers
      ensures Added(headers, code) == AddField(old(headers), state, mode, name, value)
    {
      if state > HEADERS_ALLOWED {
        return BadState;
      }
      code := Ok;
      var hit := Find(headers, name);
      if mode == IfNotExists && hit < |headers| {
        return Duplicate;
      }
      if hit < |headers| {
        if mode == Override {
          headers := headers[hit := Field(name, value)];
        } else {
          headers := headers + [Field(name, value)];
          code := Duplicate;
        }
      } else {
        headers := headers + [Field(name, value)];
      }
    }

    /** `mnfcgi_render_headers`: prints headers off the table into one payload. */
    method RenderHeaders() returns (chunk: bytes)
      modifies this`headers
      ensures Packed(chunk, headers) == Pack(old(headers), 0)
    {
      chunk := [];
      while headers != []
        invariant var more := Pack(headers, |chunk|);
                  Pack(old(headers), 0) == Packed(chunk + more.chunk, more.rest)
        decreases |headers|
      {
        var f := headers[0];
        if TooLong(f) {
          headers := headers[1..];
        } else if |chunk| + Estimate(f) < MAX_PAYLOAD {
          Assoc(chunk, Line(f), Pack(headers[1..], |chunk + Line(f)|).chunk);
          chunk := chunk + Line(f);
          headers := headers[1..];
        } else {
          break;
        }
      }
    }
  }

  lemma Taken(freed: seq<nat>, queue: seq<Queued>)
    requires queue != []
    ensures freed + [queue[0].id] + Nums(queue[1..]) == freed + Nums(queue)
  {
    assert Nums(queue) == [queue[0].id] + Nums(queue[1..]);
  }

  lemma Emptied(freed: seq<nat>, queue: seq<Queued>)
    requires queue == []
    ensures freed + Nums(queue) == freed
  {
    assert Nums(queue) == [];
  }

  lemma InOrder(freed: seq<nat>, begin: nat, params: seq<nat>, stdin: seq<nat>, data: seq<nat>)
    ensures freed + [begin] + params + stdin + data == freed + Ids(begin, params, stdin, data).All()
  {
  }

  /** Only pairs that are rendered make a frame depend on where it starts. */
  lemma PositionFree(rec: OutRecord, eod: nat)
    requires !rec.ValuesOut? && !rec.ResultOut?
    ensures Appended(rec, eod) == Appended(rec, 0) && PayloadOf(rec, eod + HEADER_LEN) == PayloadOf(rec, HEADER_LEN)
  {
  }

  /** A record whose payload renderer returns the number of bytes it appends, or fails. */
  predicate Measured(rec: OutRecord) {
    !RenderOutcome(PayloadOf(rec, HEADER_LEN)).AssertionFailed?
  }

  lemma EmptyMeasured(rid: u16)
    ensures Measured(StdoutOut(rid, Chunk([], 0)))
  {
  }

  class Connection {
    const cfg: Config
    const input: ByteStream
    const out: ByteStream
    var requests: map<u16, Request>
    /** History, as in `Engine.Out` and `Engine.Conn`. */
    var log: seq<Entry>
    var failed: bool
    var lost: bool
    var inRewinds: nat
    var seen: nat
    var freed: seq<nat>
    var done: seq<Req>
    var dangling: bool
    var dispatched: seq<Event>
    var dropped: nat

    /** `mnfcgi_ctx_init`, on what the peer is going to send and how writes to it fare. */
    constructor (cfg: Config, feed: seq<bytes>, link: Link)
      ensures fresh(input) && fresh(out) && Ready() && input.In() == Buffered.Input([], 0, 0, feed)
      ensures this.cfg == cfg && out.writeOk == link && requests == map[] && View() == START
      ensures dispatched == [] && dropped == 0
    {
      this.cfg := cfg;
      input := new ByteStream(feed, link);
      out := new ByteStream([], link);
      requests, log, failed, lost, inRewinds := map[], [], false, false, 0;
      seen, freed, done, dangling, dispatched, dropped := 0, [], [], false, [], 0;
    }

    ghost predicate OutReady()
      reads out
    {
      out.Valid() && out.pos <= out.eod
    }

    ghost predicate Ready()
      reads input, out
    {
      OutReady() && input != out && input.Valid()
    }

    ghost function OutView(): Out
      requires OutReady()
      reads this`log, this`failed, this`lost, this`inRewinds, out
    {
      Out.Out(out.buf[out.pos..out.eod], out.pos, out.delivered, log, out.writes, failed, lost, inRewinds)
    }

    ghost function SlotAt(rid: u16): Option<Slot>
      reads this`requests, requests.Values
    {
      if rid in requests then Some(Slot(requests[rid].View(), requests[rid].Held())) else None
    }

    ghost function TableView(): map<u16, Slot>
      reads this`requests, requests.Values
    {
      map rid <- requests :: Slot(requests[rid].View(), requests[rid].Held())
    }

    ghost function View(): Conn
      requires OutReady()
      reads this`log, this`failed, this`lost, this`inRewinds, this`seen, this`freed, this`done, this`dangling
      reads this`requests, out, requests.Values
    {
      Conn(TableView(), OutView(), seen, freed, done, dangling)
    }

    /** No two ids share a request. */
    ghost predicate Valid()
      reads this`requests, input, out
    {
      Ready() && forall a, b :: a in requests && b in requests && a != b ==> requests[a] != requests[b]
    }

    /** What may change besides this object and its buffers while `rid` is served. */
    ghost function RequestAt(rid: u16): set<Request>
      reads this`requests
    {
      if rid in requests then {requests[rid]} else {}
    }

    /** The input buffer is as it was, or has been rewound. */
    twostate predicate InputKept()
      reads this`inRewinds, input
    {
      && old(inRewinds) <= inRewinds
      && if inRewinds == old(inRewinds) then input.pos == old(input.pos) && input.eod == old(input.eod)
         else input.pos == 0 && input.eod == 0
    }

    // ------------------------------------------------------- the output buffer

    method Emit(own: bool, rec: OutRecord) returns (res: Outcome)
      requires Ready() && !rec.ValuesOut? && !rec.ResultOut? && Measured(rec)
      modifies out`buf, out`eod, this`log
      ensures Ready() && OutView() == Put(old(OutView()), own, rec)
      ensures res == RenderOutcome(PayloadOf(rec, HEADER_LEN))
    {
      PositionFree(rec, out.eod);
      res := out.Render(cfg.build.Debug?, rec);
      log := log + [EntryOf(own, rec)];
      assert out.buf[out.pos..out.eod] == out.Data()[out.pos..];
    }

    method Produce() returns (ok: bool)
      requires Ready()
      modifies out`pos, out`writes, out`delivered, this`failed
      ensures Ready() && OutView() == Flush(out.writeOk, old(OutView())) && ok == out.writeOk(old(out.writes))
    {
      ok := out.Produce();
      if !ok {
        failed := true;
      }
    }

    method RewindOut()
      requires Ready()
      modifies out`pos, out`eod, this`lost
      ensures Ready() && OutView() == Engine.Rewind(old(OutView()))
    {
      lost := lost || out.pos < out.eod;
      out.Rewind();
    }

    method RewindBoth()
      requires Ready()
      modifies out`pos, out`eod, input`pos, input`eod, this`lost, this`inRewinds
      ensures Ready() && OutView() == Engine.RewindBoth(old(OutView())) && InputKept()
    {
      input.Rewind();
      inRewinds := inRewinds + 1;
      RewindOut();
    }

    // ------------------------------------------------------------- request API

    /** A record of the request's own, recorded in its history. */
    method EmitOwn(req: Request, rec: OutRecord) returns (code: Code)
      requires Ready() && !rec.ValuesOut? && !rec.ResultOut? && Measured(rec)
      modifies out`buf, out`eod, this`log, req`sent
      ensures Ready() && Ran(OutView(), req.View(), code) == PutOwn(old(OutView()), old(req.View()), rec)
    {
      var res := Emit(true, rec);
      req.sent := req.sent + [rec];
      code := OutcomeCode(res);
    }

    method RenderStdout(req: Request, piece: Piece) returns (code: Code)
      requires Ready()
      modifies out`buf, out`eod, this`log, req`sent
      ensures Ready() && Ran(OutView(), req.View(), code) == Engine.RenderStdout(old(OutView()), old(req.View()), piece)
    {
      if req.complete {
        return Completed;
      }
      code := EmitOwn(req, StdoutOut(req.begin.rid, piece.AsChunk()));
    }

    method FlushOut(req: Request) returns (code: Code)
      requires Ready()
      modifies out, this`failed, this`lost
      ensures Ready()
      ensures Ran(OutView(), req.View(), code) == Engine.FlushOut(out.writeOk, old(OutView()), old(req.View()))
    {
      if req.complete {
        return Completed;
      }
      var ok := Produce();
      RewindOut();
      code := if ok then Ok else IoError;
    }

    /** END_REQUEST and a write of everything unsent. */
    method EndRequest(req: Request, status: u32) returns (code: Code)
      requires Ready()
      modifies out, this`log, this`failed, req`sent
      ensures var a := PutOwn(old(OutView()), old(req.View()), EndOut(req.begin.rid, REQUEST_COMPLETE, status));
              Ready() && OutView() == Flush(out.writeOk, a.out) && req.View() == a.req
      ensures code == if out.writeOk(old(out.writes)) then Ok else IoError
    {
      var _ := EmitOwn(req, EndOut(req.begin.rid, REQUEST_COMPLETE, status));
      var ok := Produce();
      code := if ok then Ok else IoError;
    }

    /** `mnfcgi_abort_request`. */
    method Abort(req: Request, status: u32) returns (code: Code)
      requires Ready()
      modifies out, input`pos, input`eod, this`log, this`failed, this`lost, this`inRewinds
      modifies req`sent, req`complete, req`finalized
      ensures Ready() && InputKept()
      ensures Ran(OutView(), req.View(), code) == Engine.Abort(out.writeOk, old(OutView()), old(req.View()), status)
    {
      code := Completed;
      if !req.complete {
        code := EndRequest(req, status);
        req.finalized := false;
      }
      RewindBoth();
      req.complete := true;
    }

    /** `mnfcgi_finalize_request`; the queue of unrendered STDOUT records is always empty. */
    method Finalize(req: Request) returns (code: Code)
      requires Ready()
      modifies out, input`pos, input`eod, this`log, this`failed, this`lost, this`inRewinds
      modifies req`sent, req`complete, req`finalized
      ensures Ready() && InputKept()
      ensures Ran(OutView(), req.View(), code) == Engine.Finalize(out.writeOk, old(OutView()), old(req.View()))
    {
      hide Appended, RenderOutcome, PayloadOf;
      code := Completed;
      if !req.complete {
        EmptyMeasured(req.begin.rid);
        var _ := EmitOwn(req, StdoutOut(req.begin.rid, Chunk([], 0)));
        code := EndRequest(req, 0);
        req.complete, req.finalized := true, true;
      }
      RewindBoth();
    }

    /** One STDOUT record off the header table, unless the request is complete. */
    method RenderHeaders(req: Request) returns (code: Code)
      requires Ready() && req.headers != []
      modifies out`buf, out`eod, this`log, req`sent, req`headers
      ensures Ready() && code == if old(req.complete) then Completed else Ok
      ensures old(req.complete) ==> OutView() == old(OutView()) && req.View() == old(req.View())
      ensures !old(req.complete) ==>
                var p := Pack(old(req.headers), 0);
                Ran(OutView(), req.View(), Ok)
                == HeaderPiece(old(OutView()), old(req.View()).(headers := p.rest), p.chunk)
    {
      if req.complete {
        return Completed;
      }
      PackTakes(req.headers, 0);
      var chunk := req.RenderHeaders();
      code := EmitOwn(req, StdoutOut(req.begin.rid, Chunk(chunk, |chunk|)));
    }

    /** `mnfcgi_request_headers_end`. */
    method HeadersEnd(req: Request) returns (code: Code)
      requires Ready()
      modifies out`buf, out`eod, this`log, req`sent, req`headers, req`state
      ensures Ready()
      ensures Ran(OutView(), req.View(), code) == EndHeaders(old(OutView()), old(req.View()))
    {
      hide PackAll, PutPieces;
      if req.state > HEADERS_ALLOWED {
        return BadState;
      }
      while req.headers != []
        invariant Ready() && req.state == old(req.state) && req.complete == old(req.complete)
        invariant req.complete ==> OutView() == old(OutView()) && req.View() == old(req.View())
        invariant !req.complete ==>
          BlockPieces(OutView(), req.View()) == BlockPieces(old(OutView()), old(req.View()))
        decreases |req.headers|
      {
        PackShrinks(req.headers);
        BlockStep(OutView(), req.View());
        code := RenderHeaders(req);
        if code != Ok {
          break;
        }
      }
      LastPiece(OutView(), req.View().(headers := []));
      code := RenderStdout(req, Wrote(CRLF));
      req.state := HEADERS_END;
    }

    // --------------------------------------------------------------- callbacks

    method Call(req: Request, op: Op) returns (code: Code)
      requires Ready()
      modifies out, input`pos, input`eod, this`log, this`failed, this`lost, this`inRewinds
      modifies req`sent, req`complete, req`finalized, req`headers, req`state
      ensures Ready() && InputKept()
      ensures Ran(OutView(), req.View(), code) == Do(out.writeOk, old(OutView()), old(req.View()), op)
    {
      match op
      case RenderStdoutOp(piece) => code := RenderStdout(req, piece);
      case FlushOutOp => code := FlushOut(req);
      case FinalizeOp => code := Finalize(req);
      case FieldOp(mode, name, value) => code := req.FieldAdd(mode, name, value);
      case HeadersEndOp => code := HeadersEnd(req);
      case SetStateOp(state) =>
        req.state := state;
        code := Ok;
    }

    method RunProgram(req: Request, p: Prog) returns (rc: int)
      requires Ready()
      modifies out, input`pos, input`eod, this`log, this`failed, this`lost, this`inRewinds
      modifies req`sent, req`complete, req`finalized, req`headers, req`state
      ensures Ready() && InputKept()
      ensures Returned(OutView(), req.View(), rc) == Run(out.writeOk, old(OutView()), old(req.View()), p)
    {
      var rest := p;
      while rest.Step?
        invariant Ready() && InputKept()
        invariant Run(out.writeOk, OutView(), req.View(), rest) == Run(out.writeOk, old(OutView()), old(req.View()), p)
        decreases rest
      {
        var code := Call(req, rest.op);
        rest := rest.Next(code);
      }
      rc := rest.rc;
    }

    /** A callback, and the abort if its code is negative. */
    method Serve(h: Option<Handler>, req: Request, ev: Event) returns (rc: int)
      requires Ready()
      modifies out, input`pos, input`eod, this`log, this`failed, this`lost, this`inRewinds
      modifies req`sent, req`complete, req`finalized, req`headers, req`state
      ensures Ready() && InputKept()
      ensures Returned(OutView(), req.View(), rc) == Served(h, out.writeOk, old(OutView()), old(req.View()), ev)
    {
      rc := 0;
      if h.Some? {
        rc := RunProgram(req, h.value(ev, req.View()));
      }
      if rc < 0 {
        var _ := Abort(req, AbortStatus(rc));
      }
    }

    /** The queue walks of `mnfcgi_request_fini`: each record is taken off and destroyed. */
    method DestroyRecords(req: Request)
      modifies this`freed, req`params, req`stdin, req`data
      ensures freed == old(freed) + old(req.Held().All())
      ensures req.params == [] && req.stdin == [] && req.data == []
    {
      freed := freed + [req.beginId];
      while req.params != []
        invariant freed + Nums(req.params) == old(freed) + [req.beginId] + old(Nums(req.params))
        invariant req.stdin == old(req.stdin) && req.data == old(req.data)
        decreases |req.params|
      {
        Taken(freed, req.params);
        freed, req.params := freed + [req.params[0].id], req.params[1..];
      }
      Emptied(freed, req.params);
      ghost var walked := freed;
      while req.stdin != []
        invariant freed + Nums(req.stdin) == walked + old(Nums(req.stdin))
        invariant req.params == [] && req.data == old(req.data)
        decreases |req.stdin|
      {
        Taken(freed, req.stdin);
        freed, req.stdin := freed + [req.stdin[0].id], req.stdin[1..];
      }
      Emptied(freed, req.stdin);
      walked := freed;
      while req.data != []
        invariant freed + Nums(req.data) == walked + old(Nums(req.data))
        invariant req.params == [] && req.stdin == []
        decreases |req.data|
      {
        Taken(freed, req.data);
        freed, req.data := freed + [req.data[0].id], req.data[1..];
      }
      Emptied(freed, req.data);
      InOrder(old(freed), req.beginId, old(Nums(req.params)), old(Nums(req.stdin)), old(Nums(req.data)));
    }

    /** `mnfcgi_request_destroy`: the records go, then the end_request callback runs. */
    method Destroy(req: Request)
      requires Ready()
      modifies out, input`pos, input`eod, this`log, this`failed, this`lost, this`inRewinds, this`freed, this`done
      modifies req
      ensures Ready() && InputKept()
      ensures OutView() == EndHook(cfg, out.writeOk, old(OutView()), old(req.View()))
      ensures freed == old(freed) + old(req.Held().All()) && done == old(done) + [old(req.View())]
    {
      done := done + [req.View()];
      DestroyRecords(req);
      req.headers := [];
      if cfg.endRender.Some? {
        var _ := RunProgram(req, cfg.endRender.value(req.View()));
      }
    }

    // -------------------------------------------------------------- dispatch

    /** The state a dispatch leaves is the one `arm` says, on the entry of `rid` alone. */
    twostate predicate Arrived(rid: u16, arm: Arm)
      requires Ready()
      reads this, input, out, requests.Values
    {
      && OutView() == arm.out && SlotAt(rid) == arm.slot
      && freed == old(freed) + arm.freed && done == old(done) + arm.done
      && dangling == (old(dangling) || arm.dangling)
      && (forall r: u16 :: r != rid ==> (r in requests <==> r in old(requests)))
      && (forall r <- requests :: r != rid ==> requests[r] == old(requests[r]))
    }

    /** No request has joined the table. */
    twostate predicate NoneJoined()
      reads this`requests
    {
      forall r <- requests :: r in old(requests) && requests[r] == old(requests[r])
    }

    /** Every request of the table was there, or is new. */
    twostate predicate RequestsFrom()
      reads this`requests
    {
      forall r <- requests :: (r in old(requests) && requests[r] == old(requests[r])) || fresh(requests[r])
    }

    /** A write of everything unsent; where it fails the record in hand is destroyed. */
    method Send(extra: seq<nat>, id: nat) returns (status: Status)
      requires Ready()
      modifies out`pos, out`writes, out`delivered, this`failed, this`freed
      ensures Ready() && OutView() == Flush(out.writeOk, old(OutView()))
      ensures var ok := out.writeOk(old(out.writes));
              status == (if ok then Running else Stopped) && freed == old(freed) + if ok then extra else [id]
    {
      var ok := Produce();
      freed := freed + if ok then extra else [id];
      status := if ok then Running else Stopped;
    }

    method ReplyWith(rec: OutRecord, rid: u16) returns (status: Status)
      requires Valid() && !rec.ValuesOut? && !rec.ResultOut? && Measured(rec)
      modifies out, this`log, this`failed, this`freed
      ensures Valid() && InputKept() && NoneJoined()
      ensures Arrived(rid, Reply(out.writeOk, old(OutView()), old(SlotAt(rid)), rec, seen))
      ensures status == Reply(out.writeOk, old(OutView()), old(SlotAt(rid)), rec, seen).status
    {
      var _ := Emit(false, rec);
      status := Send([seen], seen);
    }

    /** `hash_delete_pair` on the request table. */
    method Remove(rid: u16)
      requires Valid() && rid in requests
      modifies out, input`pos, input`eod, this`log, this`failed, this`lost, this`inRewinds, this`freed, this`done
      modifies this`requests, requests[rid]
      ensures Valid() && InputKept() && requests == old(requests) - {rid}
      ensures Arrived(rid, Retire(cfg, out.writeOk, old(OutView()), old(SlotAt(rid)).value))
    {
      Destroy(requests[rid]);
      requests := requests - {rid};
    }

    /** Destroys a request of the table, then flushes. */
    method RemoveAndSend(rid: u16, extra: seq<nat>) returns (status: Status)
      requires Valid() && rid in requests
      modifies out, input`pos, input`eod, this`log, this`failed, this`lost, this`inRewinds, this`freed, this`done
      modifies this`requests, requests[rid]
      ensures Valid() && InputKept() && NoneJoined()
      ensures var arm := Dismiss(cfg, out.writeOk, old(OutView()), old(SlotAt(rid)).value, extra, seen);
              Arrived(rid, arm) && status == arm.status
    {
      hide EndHook, Flush;
      Remove(rid);
      status := Send(extra, seen);
    }

    /** What becomes of a request of the table after its callback. */
    method Conclude(rid: u16, rc: int, body: Body) returns (status: Status)
      requires Valid() && rid in requests
      modifies out, input`pos, input`eod, this`log, this`failed, this`lost, this`inRewinds, this`freed, this`done
      modifies this`requests, this`dangling, requests[rid]
      ensures Valid() && InputKept() && NoneJoined()
      ensures var arm := Settle(cfg, out.writeOk, Returned(old(OutView()), old(requests[rid].View()), rc),
                                old(requests[rid].Held()), body, seen);
              Arrived(rid, arm) && status == arm.status
    {
      status := Running;
      if rc < 0 {
        if body.StdinBody? || body.DataBody? {
          Remove(rid);
          dangling := true;
        } else {
          status := RemoveAndSend(rid, []);
        }
      } else if requests[rid].complete {
        Remove(rid);
      }
    }

    /** What becomes of a new request after its callback; it joins the table only now. */
    method Begun(req: Request, rc: int, body: Body) returns (status: Status)
      requires Valid() && body.BeginBody? && req.begin.rid !in requests && req !in requests.Values
      modifies out, input`pos, input`eod, this`log, this`failed, this`lost, this`inRewinds, this`freed, this`done
      modifies this`requests, req
      ensures Valid() && InputKept()
      ensures forall r <- requests :: (r in old(requests) && requests[r] == old(requests[r])) || requests[r] == req
      ensures var r := Returned(old(OutView()), old(req.View()), rc);
              var arm := Settle(cfg, out.writeOk, r, old(req.Held()), body, seen);
              Arrived(req.begin.rid, arm) && status == arm.status
    {
      status := Running;
      if rc < 0 {
        Destroy(req);
        status := Send([], seen);
      } else if !req.complete {
        requests := requests[req.begin.rid := req];
      } else {
        Destroy(req);
      }
    }

    method OnBegin(ev: Event) returns (status: Status)
      requires Valid() && ev.rec.body.BeginBody?
      modifies out, input`pos, input`eod, this`log, this`failed, this`lost, this`inRewinds, this`freed, this`done
      modifies this`requests
      ensures Valid() && InputKept() && RequestsFrom()
      ensures var arm := DispatchBegin(cfg, out.writeOk, old(OutView()), old(SlotAt(ev.rec.rid)), ev, seen);
              Arrived(ev.rec.rid, arm) && status == arm.status
    {
      hide Settle, Served, Reply;
      if ev.rec.body.role != RESPONDER {
        status := ReplyWith(EndOut(ev.rec.rid, UNKNOWN_ROLE, 0), ev.rec.rid);
      } else if ev.rec.rid in requests {
        status := ReplyWith(EndOut(ev.rec.rid, REQUEST_COMPLETE, 0), ev.rec.rid);
      } else {
        var req := new Request(ev.rec, seen);
        var rc := Serve(cfg.beginParse, req, ev);
        status := Begun(req, rc, ev.rec.body);
      }
    }

    /** The client gives a request up. */
    method AbortEntry(rid: u16) returns (status: Status)
      requires Valid() && rid in requests
      modifies out, input`pos, input`eod, this`log, this`failed, this`lost, this`inRewinds, this`freed, this`done
      modifies this`requests, requests[rid]
      ensures Valid() && InputKept() && NoneJoined()
      ensures var s := old(SlotAt(rid)).value;
              var a := Engine.Abort(out.writeOk, old(OutView()), s.req, 0);
              var arm := Dismiss(cfg, out.writeOk, a.out, Slot(a.req, s.ids), [seen], seen);
              Arrived(rid, arm) && status == arm.status
    {
      var _ := Abort(requests[rid], 0);
      status := RemoveAndSend(rid, [seen]);
    }

    method OnAbort(ev: Event) returns (status: Status)
      requires Valid()
      modifies out, input`pos, input`eod, this`log, this`failed, this`lost, this`inRewinds, this`freed, this`done
      modifies this`requests, RequestAt(ev.rec.rid)
      ensures Valid() && InputKept() && NoneJoined()
      ensures var arm := DispatchAbort(cfg, out.writeOk, old(OutView()), old(SlotAt(ev.rec.rid)), ev, seen);
              Arrived(ev.rec.rid, arm) && status == arm.status
    {
      hide Dismiss, Reply, Engine.Abort;
      if ev.rec.rid !in requests {
        status := ReplyWith(EndOut(ev.rec.rid, REQUEST_COMPLETE, 0), ev.rec.rid);
      } else {
        status := AbortEntry(ev.rec.rid);
      }
    }

    /** The callback of a queued record, and what becomes of its request. */
    method ServeEntry(h: Option<Handler>, ev: Event) returns (status: Status)
      requires Valid() && ev.rec.rid in requests
      modifies out, input`pos, input`eod, this`log, this`failed, this`lost, this`inRewinds, this`freed, this`done
      modifies this`requests, this`dangling, requests[ev.rec.rid]
      ensures Valid() && InputKept() && NoneJoined()
      ensures var s := old(SlotAt(ev.rec.rid)).value;
              var r := Served(h, out.writeOk, old(OutView()), s.req, ev);
              var arm := Settle(cfg, out.writeOk, r, s.ids, ev.rec.body, seen);
              Arrived(ev.rec.rid, arm) && status == arm.status
    {
      hide Settle, Served;
      var rc := Serve(h, requests[ev.rec.rid], ev);
      status := Conclude(ev.rec.rid, rc, ev.rec.body);
    }

    method OnParams(ev: Event) returns (status: Status)
      requires Valid() && ev.rec.body.ParamsBody?
      modifies out, input`pos, input`eod, this`log, this`failed, this`lost, this`inRewinds, this`freed, this`done
      modifies this`requests, this`dangling, RequestAt(ev.rec.rid)
      ensures Valid() && InputKept() && NoneJoined()
      ensures var arm := DispatchStream(cfg, out.writeOk, old(OutView()), old(SlotAt(ev.rec.rid)), ev, seen);
              Arrived(ev.rec.rid, arm) && status == arm.status
    {
      hide Settle, Served, Reply;
      if ev.rec.rid !in requests {
        status := ReplyWith(EndOut(ev.rec.rid, REQUEST_COMPLETE, 0), ev.rec.rid);
      } else {
        var req := requests[ev.rec.rid];
        QueueGrows(req.params, seen, ev.rec);
        req.params := req.params + [Queued(seen, ev.rec)];
        status := ServeEntry(cfg.paramsParse, ev);
      }
    }

    method OnStdin(ev: Event) returns (status: Status)
      requires Valid() && ev.rec.body.StdinBody?
      modifies out, input`pos, input`eod, this`log, this`failed, this`lost, this`inRewinds, this`freed, this`done
      modifies this`requests, this`dangling, RequestAt(ev.rec.rid)
      ensures Valid() && InputKept() && NoneJoined()
      ensures var arm := DispatchStream(cfg, out.writeOk, old(OutView()), old(SlotAt(ev.rec.rid)), ev, seen);
              Arrived(ev.rec.rid, arm) && status == arm.status
    {
      hide Settle, Served, Reply;
      if ev.rec.rid !in requests {
        status := ReplyWith(EndOut(ev.rec.rid, REQUEST_COMPLETE, 0), ev.rec.rid);
      } else {
        var req := requests[ev.rec.rid];
        QueueGrows(req.stdin, seen, ev.rec);
        req.stdin := req.stdin + [Queued(seen, ev.rec)];
        status := ServeEntry(cfg.stdinParse, ev);
      }
    }

    method OnData(ev: Event) returns (status: Status)
      requires Valid() && ev.rec.body.DataBody?
      modifies out, input`pos, input`eod, this`log, this`failed, this`lost, this`inRewinds, this`freed, this`done
      modifies this`requests, this`dangling, RequestAt(ev.rec.rid)
      ensures Valid() && InputKept() && NoneJoined()
      ensures var arm := DispatchStream(cfg, out.writeOk, old(OutView()), old(SlotAt(ev.rec.rid)), ev, seen);
              Arrived(ev.rec.rid, arm) && status == arm.status
    {
      hide Settle, Served, Reply;
      if ev.rec.rid !in requests {
        status := ReplyWith(EndOut(ev.rec.rid, REQUEST_COMPLETE, 0), ev.rec.rid);
      } else {
        var req := requests[ev.rec.rid];
        QueueGrows(req.data, seen, ev.rec);
        req.data := req.data + [Queued(seen, ev.rec)];
        status := ServeEntry(cfg.dataParse, ev);
      }
    }

    /** The names asked for are answered, the others keep what they came with. */
    method FillIn(asked: map<bytes, Option<bytes>>) returns (values: map<bytes, Option<bytes>>)
      ensures values == Answered(cfg, asked)
    {
      values := asked;
      if MAX_CONNS in values {
        values := values[MAX_CONNS := Some(cfg.maxConns)];
      }
      if MAX_REQS in values {
        values := values[MAX_REQS := Some(cfg.maxReqs)];
      }
      if MPXS_CONNS in values {
        values := values[MPXS_CONNS := Some([0x31])];
      }
    }

    /** Renders the answer with assertions: the one on the length stops the process once a
        pair is in it. */
    method EmitResult(rid: u16, values: map<bytes, Option<bytes>>) returns (ok: bool)
      requires Ready()
      modifies out`buf, out`eod, this`log
      ensures Ready() && (ok <==> NoneSet(values))
      ensures ok ==> OutView() == Put(old(OutView()), false, ResultOut(rid, []))
    {
      var listed := Listed(values);
      AnswerRenders(values, listed, rid, out.eod);
      var res := out.Render(true, ResultOut(rid, listed));
      ok := res != AssertionFailed;
      if ok {
        log := log + [EntryOf(false, ResultOut(rid, []))];
        assert out.buf[out.pos..out.eod] == out.Data()[out.pos..];
      }
    }

    /** Renders the answer without: whatever was reckoned is declared, if it is not too much. */
    method EmitAnswer(rid: u16, listed: seq<(bytes, Option<bytes>)>) returns (fits: bool)
      requires Ready()
      modifies out`buf, out`eod, this`log
      ensures var o, rec := old(OutView()), ResultOut(rid, listed);
              && Ready() && OutView() == Push(o, Entry(false, rec, AppendedIn(false, rec, o.End())))
              && fits == AnswerFits(o, rec)
    {
      var rec, end := ResultOut(rid, listed), out.eod;
      var res := out.Render(false, rec);
      fits := res == Rendered;
      log := log + [Entry(false, rec, AppendedIn(false, rec, end))];
      assert out.buf[out.pos..out.eod] == out.Data()[out.pos..];
    }

    method OnValues(ev: Event) returns (status: Status)
      requires Valid() && ev.rec.body.ValuesBody?
      modifies out`buf, out`eod, this`log, this`freed
      ensures Valid() && NoneJoined() && InputKept()
      ensures var arm := DispatchValues(cfg, old(OutView()), old(SlotAt(ev.rec.rid)), ev, seen);
              status == arm.status && (status != Crashed ==> Arrived(ev.rec.rid, arm))
    {
      var values := FillIn(ev.rec.body.values);
      status := Running;
      if cfg.build.Debug? {
        var ok := EmitResult(ev.rec.rid, values);
        if !ok {
          return Crashed;
        }
      } else {
        var fits := EmitAnswer(ev.rec.rid, cfg.build.order(values));
        status := if fits then Running else Stopped;
      }
      freed := freed + [seen];
    }

    method OnOther(ev: Event) returns (status: Status)
      requires Valid() && ev.rec.body.ResultBody?
      modifies out, this`log, this`failed, this`freed
      ensures Valid() && InputKept() && NoneJoined()
      ensures var arm := Dispatch(cfg, out.writeOk, old(OutView()), old(SlotAt(ev.rec.rid)), ev, seen);
              Arrived(ev.rec.rid, arm) && status == arm.status
    {
      status := ReplyWith(UnknownTypeOut(0, GET_VALUES_RESULT), ev.rec.rid);
    }

    // ------------------------------------------------------------------ loop

    /** One record: the arm of its type. */
    method Arms(ev: Event) returns (status: Status)
      requires Valid()
      modifies out, input`pos, input`eod, this`log, this`failed, this`lost, this`inRewinds, this`freed, this`done
      modifies this`requests, this`dangling, RequestAt(ev.rec.rid)
      ensures Valid() && InputKept() && RequestsFrom()
      ensures var arm := Dispatch(cfg, out.writeOk, old(OutView()), old(SlotAt(ev.rec.rid)), ev, seen);
              status == arm.status && (status != Crashed ==> Arrived(ev.rec.rid, arm))
      ensures status == Crashed ==> inRewinds == old(inRewinds)
    {
      if Dispatch(cfg, out.writeOk, OutView(), SlotAt(ev.rec.rid), ev, seen).status == Crashed {
        Sessions.OnlyValuesCrash(cfg, out.writeOk, OutView(), SlotAt(ev.rec.rid), ev, seen);
      }
      hide DispatchBegin, DispatchAbort, DispatchStream, DispatchValues, Reply;
      match ev.rec.body
      case BeginBody(_, _) => status := OnBegin(ev);
      case AbortBody => status := OnAbort(ev);
      case ParamsBody(_) => status := OnParams(ev);
      case StdinBody(_, _) => status := OnStdin(ev);
      case DataBody(_, _) => status := OnData(ev);
      case ValuesBody(_) => status := OnValues(ev);
      case ResultBody(_) => status := OnOther(ev);
    }

    method CompleteAll()
      requires Valid()
      modifies requests.Values`complete
      ensures TableView() == AllComplete(old(TableView()))
    {
      ghost var was := TableView();
      var todo := requests.Keys;
      while todo != {}
        invariant todo <= requests.Keys
        invariant forall r <- requests :: r in todo || requests[r].complete
        decreases |todo|
      {
        var r :| r in todo;
        requests[r].complete := true;
        todo := todo - {r};
      }
      TableComplete(was, TableView());
    }

    /** The error exit. */
    method HangUp()
      requires Valid()
      modifies out`pos, out`eod, input`pos, input`eod, this`lost, this`inRewinds, requests.Values`complete
      ensures Valid() && InputKept() && View() == Hangup(old(View()))
    {
      RewindBoth();
      ghost var o := OutView();
      assert TableView() == old(TableView());
      CompleteAll();
      assert OutView() == o;
    }

    /** The table as a value moves at one id only. */
    twostate lemma TableMoves(rid: u16)
      requires forall r: u16 :: r != rid ==> (r in requests <==> r in old(requests))
      requires forall r <- requests :: r != rid ==>
                 requests[r] == old(requests[r]) && unchanged(old(requests[r]))
      ensures TableView() == Updated(old(TableView()), rid, SlotAt(rid))
    {
      TableAfter(old(TableView()), TableView(), rid, SlotAt(rid));
    }

    lemma SlotInTable(rid: u16)
      requires Ready()
      ensures Lookup(View().table, rid) == SlotAt(rid)
    {
    }

    /** One record, up to the error exit. */
    method Dispatched(ev: Event) returns (status: Status)
      requires Valid()
      modifies out, input`pos, input`eod, this`log, this`failed, this`lost, this`inRewinds, this`freed, this`done
      modifies this`requests, this`dangling, this`seen, RequestAt(ev.rec.rid)
      ensures Valid() && InputKept() && RequestsFrom()
      ensures var c := old(View());
              var arm := Dispatch(cfg, out.writeOk, c.out, Lookup(c.table, ev.rec.rid), ev, c.seen);
              status == arm.status && (status != Crashed ==> View() == RunProofs.AfterArm(c, ev.rec.rid, arm))
      ensures status == Crashed ==> inRewinds == old(inRewinds)
    {
      hide Dispatch, OutView, TableView, SlotAt;
      ghost var c := View();
      ghost var arm := Dispatch(cfg, out.writeOk, c.out, Lookup(c.table, ev.rec.rid), ev, c.seen);
      SlotInTable(ev.rec.rid);
      status := Arms(ev);
      seen := seen + 1;
      if status != Crashed {
        TableMoves(ev.rec.rid);
      }
    }

    method Step(ev: Event) returns (status: Status)
      requires Valid()
      modifies out, input`pos, input`eod, this`log, this`failed, this`lost, this`inRewinds, this`freed, this`done
      modifies this`requests, this`dangling, this`seen, this`dispatched, requests.Values
      ensures Valid() && InputKept() && RequestsFrom() && dispatched == old(dispatched) + [ev]
      ensures var s := StepConn(cfg, out.writeOk, old(View()), ev);
              status == s.status && (status != Crashed ==> View() == s.conn)
      ensures status == Crashed ==> inRewinds == old(inRewinds)
    {
      hide Dispatch, StepConn, RunProofs.AfterArm, Hangup, Lookup, TableView, OutView;
      RunProofs.StepIsArm(cfg, out.writeOk, View(), ev);
      dispatched := dispatched + [ev];
      status := Dispatched(ev);
      if status == Stopped {
        HangUp();
      }
    }

    /** Between two rounds: what was dispatched and dropped, the state and the input are
        those of the session, which goes on from here. */
    ghost predicate Tracks(all: Input, at: Input)
      requires Ready()
      reads this, input, out, requests.Values
    {
      SessionProofs.Tracks(cfg, out.writeOk, all, dispatched, dropped, View(), at)
    }

    /** What is left is what the session leaves; after a failed assertion there is no
        process to speak of. */
    ghost predicate Leaves(exit: Sessions.Exit, r: Sessions.Session)
      requires Ready()
      reads this, input, out, requests.Values
    {
      && exit == r.exit && dispatched == r.events && dropped == r.dropped
      && (exit != Sessions.Asserted ==> View() == r.conn && input.In() == r.input)
    }

    /** The same, seen from the input. */
    method StepInput(ev: Event) returns (status: Status)
      requires Valid()
      modifies out, input`pos, input`eod, this`log, this`failed, this`lost, this`inRewinds, this`freed, this`done
      modifies this`requests, this`dangling, this`seen, this`dispatched, requests.Values
      ensures Valid() && RequestsFrom() && dispatched == old(dispatched) + [ev]
      ensures var s := StepConn(cfg, out.writeOk, old(View()), ev);
              status == s.status && (status != Crashed ==> View() == s.conn)
      ensures status == Crashed ==> inRewinds == old(inRewinds)
      ensures input.In() == if inRewinds == old(inRewinds) then old(input.In()) else Sessions.Rewound(old(input.In()))
    {
      hide StepConn;
      status := Step(ev);
    }

    method CountDropped(n: nat)
      requires Valid()
      modifies this`dropped
      ensures Valid() && dropped == old(dropped) + n && View() == old(View())
    {
      dropped := dropped + n;
    }

    /** Dispatches one record and counts the unread bytes that are lost in it. */
    method DispatchNext(ev: Event) returns (status: Status)
      requires Valid()
      modifies out, input`pos, input`eod, this, requests.Values
      ensures Valid() && RequestsFrom() && dispatched == old(dispatched) + [ev]
      ensures var c, st := old(View()), StepConn(cfg, out.writeOk, old(View()), ev);
              && status == st.status && dropped == old(dropped) + Sessions.Dropped(old(input.In()), c, st.conn)
              && (status != Crashed ==> View() == st.conn && input.In() == Sessions.After(old(input.In()), c, st.conn))
    {
      hide StepConn;
      var unread := if input.pos < input.eod then input.eod - input.pos else 0;
      var rewinds := inRewinds;
      ghost var c := View();
      status := StepInput(ev);
      if status == Crashed {
        Sessions.CrashRewinds(cfg, out.writeOk, c, ev);
      }
      CountDropped(if inRewinds != rewinds then unread else 0);
    }

    /** A parsed record is dispatched. */
    method Follow(ghost all: Input, ghost before: Input, rec: Record) returns (exit: Option<Sessions.Exit>)
      requires Valid() && input.pos <= input.eod && Tracks(all, before)
      requires ParseInput(AsCoded, before) == Wire.Step(Good(rec, input.pos), input.In())
      modifies out, input`pos, input`eod, this, requests.Values
      ensures Valid() && RequestsFrom()
      ensures exit.None? ==> Tracks(all, input.In()) && input.pos <= input.eod
      ensures exit.None? ==> 0 <= ChunkProofs.Left(input.In()) <= ChunkProofs.Left(old(input.In()))
      ensures exit.Some? ==> Leaves(exit.value, Sessions.Serve(cfg, out.writeOk, START, all))
      ensures exit != Some(Sessions.ParseFailed)
    {
      hide Sessions.Serve, SessionProofs.Tracks, StepConn, ParseInput;
      var ev := EventAt(input.buf, rec);
      SessionProofs.TracksNext(cfg, out.writeOk, all, dispatched, dropped, View(), before, rec, input.In(), ev);
      var status := DispatchNext(ev);
      exit := match status
        case Running => None
        case Stopped => Some(Sessions.WriteFailed)
        case Crashed => Some(Sessions.Asserted);
    }

    /** One round of the loop: a record is parsed and dispatched, or the loop is left. */
    method Round(ghost all: Input) returns (exit: Option<Sessions.Exit>)
      requires Valid() && input.pos <= input.eod && Tracks(all, input.In())
      modifies out, input, this, requests.Values
      ensures Valid() && RequestsFrom()
      ensures exit.None? ==> input.pos <= input.eod && Tracks(all, input.In())
      ensures exit.None? ==> 0 <= ChunkProofs.Left(input.In()) < ChunkProofs.Left(old(input.In()))
      ensures exit.Some? ==> Leaves(exit.value, Sessions.Serve(cfg, out.writeOk, START, all))
    {
      hide Sessions.Serve, SessionProofs.Tracks, StepConn, ParseInput;
      ghost var before := input.In();
      var parsed := input.Parse();
      match parsed
      case Killed =>
        SessionProofs.TracksEnd(cfg, out.writeOk, all, dispatched, dropped, View(), before);
        exit := Some(Sessions.Exited);
      case Bad(_) =>
        SessionProofs.TracksEnd(cfg, out.writeOk, all, dispatched, dropped, View(), before);
        HangUp();
        exit := Some(Sessions.ParseFailed);
      case Good(rec, _) =>
        ChunkProofs.ParseShrinks(AsCoded, before);
        exit := Follow(all, before, rec);
    }

    /** `_mnfcgi_handle_socket`: on any input, with any callbacks and any writes, it ends,
        and the records dispatched, the bytes dropped, the state and the way out are those
        of the session. */
    method Handle() returns (exit: Sessions.Exit)
      requires Valid() && requests == map[] && View() == START && dispatched == [] && dropped == 0
      requires input.pos <= input.eod
      modifies out, input, this
      ensures Valid() && Leaves(exit, Sessions.Serve(cfg, out.writeOk, START, old(input.In())))
      ensures forall r <- requests :: fresh(requests[r])
    {
      hide Sessions.Serve, SessionProofs.Tracks;
      SessionProofs.TracksFirst(cfg, out.writeOk, input.In());
      while true
        invariant Valid() && input.pos <= input.eod && Tracks(old(input.In()), input.In())
        invariant forall r <- requests :: fresh(requests[r])
        decreases ChunkProofs.Left(input.In())
      {
        var left := Round(old(input.In()));
        if left.Some? {
          return left.value;
        }
      }
    }

    /** Nothing unsent and no request open: the state the error exit leaves. */
    ghost predicate Silent()
      requires OutReady()
      reads out, this`requests, requests.Values
    {
      out.pos == out.eod && forall r <- requests :: requests[r].complete
    }

    method DropRequest(rid: u16)
      requires Valid() && rid in requests
      modifies out, input`pos, input`eod, this`log, this`failed, this`lost, this`inRewinds, this`freed, this`done
      modifies this`requests, requests[rid]
      ensures Valid() && requests == old(requests) - {rid} && old(inRewinds) <= inRewinds
      ensures View() == OwnershipProofs.Drop(cfg, out.writeOk, old(View()), rid)
    {
      Remove(rid);
      TableMoves(rid);
    }

    /** One step of the destruction of the table. */
    method DropAny() returns (ghost rid: u16)
      requires Valid() && requests != map[]
      modifies out, input`pos, input`eod, this`log, this`failed, this`lost, this`inRewinds, this`freed, this`done
      modifies this`requests, requests.Values
      ensures Valid() && NoneJoined() && requests.Keys < old(requests).Keys && old(inRewinds) <= inRewinds
      ensures rid in old(requests) && View() == OwnershipProofs.Drop(cfg, out.writeOk, old(View()), rid)
      ensures forall x: nat :: OwnershipProofs.Places(View(), x) == old(OwnershipProofs.Places(View(), x))
      ensures old(Silent()) ==> Silent() && OnlyRewound(old(OutView()), OutView())
    {
      hide OwnershipProofs.Places, EndHook;
      var next :| next in requests;
      rid := next;
      ghost var c := View();
      if Silent() {
        DispatchProofs.EndHookNothing(cfg, out.writeOk, c.out, c.table[rid].req);
      }
      DropRequest(next);
      forall x: nat ensures OwnershipProofs.Places(View(), x) == OwnershipProofs.Places(c, x) {
        OwnershipProofs.DropPlaces(cfg, out.writeOk, c, rid, x);
      }
      assert rid in old(requests).Keys && rid !in requests.Keys;
      assert old(Silent()) ==> |OutView().unsent| == 0;
    }

    /** `mnfcgi_ctx_fini`: every remaining request is destroyed once, in any order, and its
        records with it, and its end_request callback runs; after the error exit not a byte
        is sent. */
    method Fini()
      requires Valid()
      modifies out, input`pos, input`eod, this`log, this`failed, this`lost, this`inRewinds, this`freed, this`done
      modifies this`requests, requests.Values
      ensures Valid() && requests == map[] && old(inRewinds) <= inRewinds
      ensures forall x: nat :: OwnershipProofs.Occurs(freed, x) == old(OwnershipProofs.Places(View(), x))
      ensures old(Silent()) ==> OnlyRewound(old(OutView()), OutView()) && OutputProofs.Finished(cfg, old(View()), View())
    {
      hide OutputProofs.DropAll, OwnershipProofs.Drop, OutputProofs.Finished;
      ghost var order: seq<u16> := [];
      OutputProofs.DropNone(cfg, out.writeOk, View());
      while requests != map[]
        invariant Valid() && NoneJoined() && old(inRewinds) <= inRewinds && (old(Silent()) ==> Silent())
        invariant forall x: nat :: OwnershipProofs.Places(View(), x) == old(OwnershipProofs.Places(View(), x))
        invariant old(Silent()) ==> OnlyRewound(old(OutView()), OutView())
        invariant View() == OutputProofs.DropAll(cfg, out.writeOk, old(View()), order)
        decreases requests.Keys
      {
        ghost var before := View();
        ghost var rid := DropAny();
        OutputProofs.DropOneMore(cfg, out.writeOk, old(View()), order, rid);
        order := order + [rid];
      }
      if old(Silent()) {
        OutputProofs.DropAllFinishes(cfg, out.writeOk, old(View()), order);
      }
      forall x: nat ensures OwnershipProofs.Occurs(freed, x) == OwnershipProofs.Places(View(), x) {
        OwnershipProofs.AllFreedOnce(View(), x);
      }
    }
  }

  /** A connection, up to the end of its loop. */
  method Connected(cfg: Config, feed: seq<bytes>, link: Link) returns (c: Connection, exit: Sessions.Exit)
    ensures fresh(c) && fresh(c.input) && fresh(c.out) && c.cfg == cfg && c.out.writeOk == link && c.Valid()
    ensures c.Leaves(exit, Sessions.Serve(cfg, link, START, Buffered.Input([], 0, 0, feed)))
    ensures forall r <- c.requests :: fresh(c.requests[r])
  {
    c := new Connection(cfg, feed, link);
    exit := c.Handle();
  }

  /** `mnfcgi_handle_socket`: one connection from its first byte to its last record, with any
      callbacks and any writes. Records and bytes dropped are those of the session. When the
      peer is gone every record dispatched has been destroyed exactly once; after a failed
      write so has every record but the last one, which may have been destroyed twice. While
      writes succeed the peer has received a prefix of the records rendered, at least up to the
      last END_REQUEST. Every request left at the end is destroyed once and its end_request
      callback run. Of well-formed records all were dispatched if and only if no rewind dropped
      an unread byte. */
  method HandleSocket(cfg: Config, feed: seq<bytes>, link: Link) returns (c: Connection, exit: Sessions.Exit)
    ensures fresh(c) && c.Ready()
    ensures var r := Sessions.Serve(cfg, link, START, Buffered.Input([], 0, 0, feed));
            && exit == r.exit && c.dispatched == r.events && c.dropped == r.dropped
            && (exit == Sessions.ParseFailed || exit == Sessions.WriteFailed ==>
                  && c.requests == map[] && OutputProofs.Finished(cfg, r.conn, c.View())
                  && forall x: nat :: OwnershipProofs.Occurs(c.freed, x) == Destroyed(cfg, link, r, x))
            && (exit == Sessions.ParseFailed && RequestProofs.AllWritesSucceed(link) ==>
                  c.OutView().delivered <= RequestProofs.LogBytes(c.OutView().log))
            && (exit != Sessions.Asserted && RequestProofs.AllWritesSucceed(link) ==>
                  OutputProofs.EndsDelivered(c.OutView()))
    ensures exit == Sessions.ParseFailed ==> forall items: seq<StreamProofs.Item> ::
              StreamProofs.AllWellFormed(AsCoded, items) && Flatten(feed) == StreamProofs.LayoutAll(items) ==>
                (FixedAll(c.dispatched) == SessionProofs.ItemEvents(items) <==> c.dropped == 0)
  {
    hide Sessions.Serve, FixedAll, OutputProofs.Finished, OutputProofs.EndsDelivered;
    c, exit := Connected(cfg, feed, link);
    if RequestProofs.AllWritesSucceed(link) {
      OutputProofs.SessionDelivers(cfg, link, Buffered.Input([], 0, 0, feed));
    }
    forall items: seq<StreamProofs.Item> | exit == Sessions.ParseFailed && StreamProofs.AllWellFormed(AsCoded, items)
                                           && Flatten(feed) == StreamProofs.LayoutAll(items)
      ensures FixedAll(c.dispatched) == SessionProofs.ItemEvents(items) <==> c.dropped == 0
    {
      DeliveryProofs.AllDispatchedIff(cfg, link, feed, items);
    }
    if exit == Sessions.ParseFailed || exit == Sessions.WriteFailed {
      ErrorExit(c, feed, link, exit);
      ghost var o := c.OutView();
      c.Fini();
      OutputProofs.RewoundDelivers(o, c.OutView());
    }
  }

  /** How often record `x` is destroyed when a session ends by the error exit. */
  ghost function Destroyed(cfg: Config, link: Link, r: Sessions.Session, x: nat): nat {
    if x >= |r.events| then 0
    else if x + 1 == |r.events| && r.exit == Sessions.WriteFailed then OwnershipProofs.LastHand(cfg, link, START, r.events)
    else 1
  }

  lemma ErrorExit(c: Connection, feed: seq<bytes>, link: Link, exit: Sessions.Exit)
    requires c.Valid() && c.out.writeOk == link && (exit == Sessions.ParseFailed || exit == Sessions.WriteFailed)
    requires c.Leaves(exit, Sessions.Serve(c.cfg, link, START, Buffered.Input([], 0, 0, feed)))
    ensures var r := Sessions.Serve(c.cfg, link, START, Buffered.Input([], 0, 0, feed));
            && c.Silent()
            && (forall x: nat :: OwnershipProofs.Places(c.View(), x) == Destroyed(c.cfg, link, r, x))
            && (exit == Sessions.ParseFailed && RequestProofs.AllWritesSucceed(link) ==>
                  c.OutView().delivered <= RequestProofs.LogBytes(c.OutView().log))
  {
    hide Sessions.Serve;
    var all: Input := Buffered.Input([], 0, 0, feed);
    SessionProofs.EndsSilent(c.cfg, link, all);
    assert forall r <- c.requests :: c.View().table[r].req.complete;
    forall x: nat
      ensures OwnershipProofs.Places(c.View(), x) == Destroyed(c.cfg, link, Sessions.Serve(c.cfg, link, START, all), x)
    {
      SessionProofs.SessionPlaces(c.cfg, link, all, x);
    }
    if exit == Sessions.ParseFailed && RequestProofs.AllWritesSucceed(link) {
      SessionProofs.PrefixReceived(c.cfg, link, all);
    }
  }

  /** Between two rounds, as long as the input was not rewound, the STDIN and DATA queues of
      a request of the table read out of the connection's input buffer exactly what the
      client has sent for it. */
  lemma LiveBodies(c: Connection, feed: seq<bytes>, items: seq<StreamProofs.Item>, rid: u16)
    requires c.Valid() && c.Tracks(Buffered.Input([], 0, 0, feed), c.input.In()) && c.inRewinds == 0
    requires StreamProofs.AllWellFormed(AsCoded, items) && Flatten(feed) == StreamProofs.LayoutAll(items)
    requires rid in c.requests
    ensures |c.dispatched| <= |items|
    ensures ReadsAs(c, items, rid, QueueProofs.InStdin) && ReadsAs(c, items, rid, QueueProofs.InData)
  {
    hide SessionProofs.Tracks, SessionProofs.QueueBytes, SessionProofs.SentFrom;
    LiveBody(c, feed, items, rid, QueueProofs.InStdin);
    LiveBody(c, feed, items, rid, QueueProofs.InData);
  }

  /** A queue reads out of the buffer what was sent since the request's BEGIN_REQUEST. */
  ghost predicate ReadsAs(c: Connection, items: seq<StreamProofs.Item>, rid: u16, k: QueueProofs.Kind)
    requires rid in c.requests && |c.dispatched| <= |items|
    reads c, c.input, c.requests.Values
  {
    SessionProofs.QueueBytes(c.input.buf, QueueProofs.QueueOf(c.requests[rid].View(), k))
    == SessionProofs.SentFrom(items, rid, k, c.requests[rid].beginId + 1, |c.dispatched|)
  }

  lemma LiveBody(c: Connection, feed: seq<bytes>, items: seq<StreamProofs.Item>, rid: u16, k: QueueProofs.Kind)
    requires c.Valid() && c.Tracks(Buffered.Input([], 0, 0, feed), c.input.In()) && c.inRewinds == 0
    requires StreamProofs.AllWellFormed(AsCoded, items) && Flatten(feed) == StreamProofs.LayoutAll(items)
    requires rid in c.requests && k != QueueProofs.InParams
    ensures |c.dispatched| <= |items| && ReadsAs(c, items, rid, k)
  {
    hide SessionProofs.Tracks, SessionProofs.QueueBytes, SessionProofs.SentFrom;
    var view := c.View();
    assert view.table[rid] == Slot(c.requests[rid].View(), c.requests[rid].Held());
    assert view.out.inRewinds == 0;
    SessionProofs.BodyFaithful(c.cfg, c.out.writeOk, feed, items, c.dispatched, c.dropped, view, c.input.In(), rid, k);
  }

  lemma TableComplete(was: map<u16, Slot>, now: map<u16, Slot>)
    requires forall r: u16 :: r in was <==> r in now
    requires forall r: u16 :: r in was ==> now[r] == was[r].(req := was[r].req.(complete := true))
    ensures now == AllComplete(was)
  {
  }

  /** A table that differs from another at one id only. */
  lemma TableAfter(was: map<u16, Slot>, now: map<u16, Slot>, rid: u16, slot: Option<Slot>)
    requires forall r: u16 :: r != rid ==> Lookup(now, r) == Lookup(was, r)
    requires Lookup(now, rid) == slot
    ensures now == Updated(was, rid, slot)
  {
    var next := Updated(was, rid, slot);
    assert forall r: u16 :: Lookup(now, r) == Lookup(next, r);
    assert forall r: u16 :: r in now <==> Lookup(now, r).Some?;
    assert forall r: u16 :: r in next <==> Lookup(next, r).Some?;
  }

  lemma {:induction false} PresentNone(values: seq<(bytes, Option<bytes>)>)
    ensures PairProofs.Present(values) == [] <==> forall i :: 0 <= i < |values| ==> values[i].1.None?
  {
    if values != [] {
      PresentNone(values[1..]);
      assert forall i :: 1 <= i < |values| ==> values[i] == values[1..][i - 1];
    }
  }

  /** However its pairs are listed, an answer is rendered exactly if none has a value. */
  lemma AnswerRenders(values: map<bytes, Option<bytes>>, listed: seq<(bytes, Option<bytes>)>, rid: u16, eod: nat)
    requires forall i :: 0 <= i < |listed| ==> listed[i].0 in values && listed[i].1 == values[listed[i].0]
    requires forall k <- values :: (k, values[k]) in listed
    ensures var c := PayloadOf(ResultOut(rid, listed), eod + HEADER_LEN);
            && (if NoneSet(values) then RenderOutcome(c).Rendered? else RenderOutcome(c).AssertionFailed?)
            && (NoneSet(values) ==> Appended(ResultOut(rid, listed), eod) == Appended(ResultOut(rid, []), 0))
  {
    var rec := ResultOut(rid, listed);
    PairProofs.ResultRendersIffEmpty(rec, eod);
    PresentNone(listed);
    if !NoneSet(values) {
      var k :| k in values && values[k].Some?;
      var i :| 0 <= i < |listed| && listed[i] == (k, values[k]);
      assert listed[i].1.Some?;
    } else {
      PairProofs.RenderedPairs(listed, eod + HEADER_LEN);
    }
  }

  /** The pairs of a table in some order. */
  method Listed(values: map<bytes, Option<bytes>>) returns (listed: seq<(bytes, Option<bytes>)>)
    ensures forall i :: 0 <= i < |listed| ==> listed[i].0 in values && listed[i].1 == values[listed[i].0]
    ensures forall k <- values :: (k, values[k]) in listed
  {
    listed := [];
    var todo := values.Keys;
    while todo != {}
      invariant forall k <- todo :: k in values
      invariant forall i :: 0 <= i < |listed| ==> listed[i].0 in values && listed[i].1 == values[listed[i].0]
      invariant forall k <- values :: k in todo || (k, values[k]) in listed
      decreases |todo|
    {
      var k :| k in todo;
      listed := listed + [(k, values[k])];
      todo := todo - {k};
    }
  }

  function HeaderPiece(o: Out, q: Req, chunk: bytes): Ran {
    PutOwn(o, q, StdoutOut(q.begin.rid, Chunk(chunk, |chunk|)))
  }

  /** What is still to be put out of a header table, the empty line included. */
  function BlockPieces(o: Out, q: Req): Ran {
    PutPieces(o, q.(headers := []), PackAll(q.headers) + [CRLF])
  }

  lemma BlockStep(o: Out, q: Req)
    requires q.headers != []
    ensures var p := Pack(q.headers, 0);
            var a := HeaderPiece(o, q.(headers := p.rest), p.chunk);
            BlockPieces(o, q) == BlockPieces(a.out, a.req)
  {
    PackShrinks(q.headers);
    var p := Pack(q.headers, 0);
    var pieces := PackAll(q.headers) + [CRLF];
    assert pieces[0] == p.chunk && pieces[1..] == PackAll(p.rest) + [CRLF];
    var a, b := HeaderPiece(o, q.(headers := p.rest), p.chunk), HeaderPiece(o, q.(headers := []), p.chunk);
    assert b.out == a.out && b.req == a.req.(headers := []);
  }

  lemma LastPiece(o: Out, q: Req)
    requires q.headers == []
    ensures BlockPieces(o, q) == HeaderPiece(o, q, CRLF).(code := Ok)
  {
    assert q.(headers := []) == q;
    assert PackAll(q.headers) + [CRLF] == [CRLF] && [CRLF][1..] == [];
    var a := HeaderPiece(o, q, CRLF);
    assert PutPieces(a.out, a.req, []) == Ran(a.out, a.req, Ok);
  }
}
