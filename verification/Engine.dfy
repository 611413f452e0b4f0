/** The connection loop as functions: the request API, user callbacks as programs over
    it, and one dispatch step per parsed record. `Connections` runs these on objects. */
module Engine {
  import opened Bytes
  import opened Wire
  import opened Headers

  const RESPONDER: u16 := 1
  const REQUEST_COMPLETE: byte := 0
  const UNKNOWN_ROLE: byte := 3

  // ---------------------------------------------------------------- requests

  /** A request. `finalized` and `sent`, the records it has put out, are history: no
      branch of the code reads them. */
  datatype Req = Req(
    begin: Record,
    params: seq<Record>,
    stdin: seq<Record>,
    data: seq<Record>,
    headers: Table,
    state: int,
    complete: bool,
    finalized: bool,
    sent: seq<OutRecord>)

  function NewReq(begin: Record): Req {
    Req(begin, [], [], [], [], 0, false, false, [])
  }

  /** `mnfcgi_request_get_param`: the first queued record that has the name. */
  function GetParam(params: seq<Record>, name: bytes): Option<bytes> {
    if params == [] then None
    else if params[0].body.ParamsBody? && name in params[0].body.params then Some(params[0].body.params[name])
    else GetParam(params[1..], name)
  }

  // ----------------------------------------------------------- shared output

  /** An output record, the bytes it rendered to, and whether a request put it out itself
      or the dispatcher did, as a reply to a record no request took. */
  datatype Entry = Entry(own: bool, rec: OutRecord, bytes: bytes)

  /** The shared output buffer. `unsent` is what lies between its sent position `start` and
      its end; the rest is history: `log` every record rendered so far, `delivered` the bytes
      on the wire, `failed` whether a write failed, `lost` whether a rewind dropped
      unsent bytes, `inRewinds` how often the input buffer was rewound. */
  datatype Out = Out(
    unsent: bytes,
    start: nat,
    delivered: bytes,
    log: seq<Entry>,
    writes: nat,
    failed: bool,
    lost: bool,
    inRewinds: nat)
  {
    function End(): nat { start + |unsent| }
  }

  /** Whether the n-th write to the peer succeeds. */
  type Link = nat -> bool

  function Push(o: Out, e: Entry): Out {
    o.(unsent := o.unsent + e.bytes, log := o.log + [e])
  }

  function EntryOf(own: bool, rec: OutRecord): Entry {
    Entry(own, rec, Appended(rec, 0))
  }

  function Put(o: Out, own: bool, rec: OutRecord): Out {
    Push(o, EntryOf(own, rec))
  }

  function Flush(link: Link, o: Out): Out {
    if link(o.writes) then o.(delivered := o.delivered + o.unsent, unsent := [], start := o.End(), writes := o.writes + 1)
    else o.(writes := o.writes + 1, failed := true)
  }

  function Rewind(o: Out): Out {
    o.(unsent := [], start := 0, lost := o.lost || o.unsent != [])
  }

  function RewindBoth(o: Out): Out {
    Rewind(o).(inRewinds := o.inRewinds + 1)
  }

  /** Nothing was put out, sent or dropped: at most the buffers were rewound. */
  predicate OnlyRewound(o: Out, o': Out) {
    o' == o.(start := o'.start, inRewinds := o'.inRewinds)
  }

  // ------------------------------------------------------------- request API

  /** What a renderer callback did: wrote its payload, or gave up part of the way. */
  datatype Piece = Wrote(payload: bytes) | Broke(partial: bytes) {
    function AsChunk(): Chunk {
      match this
      case Wrote(s) => Chunk(s, |s|)
      case Broke(s) => Chunk(s, -1)
    }
  }

  datatype Ran = Ran(out: Out, req: Req, code: Code)

  function OutcomeCode(r: Outcome): Code {
    match r
    case Rendered => Ok
    case PayloadTooLarge => TooLarge
    case _ => RenderFailed
  }

  function PutOwn(o: Out, q: Req, rec: OutRecord): Ran {
    Ran(Put(o, true, rec), q.(sent := q.sent + [rec]), OutcomeCode(RenderOutcome(PayloadOf(rec, HEADER_LEN))))
  }

  function RenderStdout(o: Out, q: Req, piece: Piece): Ran {
    if q.complete then Ran(o, q, Completed)
    else PutOwn(o, q, StdoutOut(q.begin.rid, piece.AsChunk()))
  }

  function FlushOut(link: Link, o: Out, q: Req): Ran {
    if q.complete then Ran(o, q, Completed)
    else Ran(Rewind(Flush(link, o)), q, if link(o.writes) then Ok else IoError)
  }

  function EmptyStdout(q: Req): OutRecord {
    StdoutOut(q.begin.rid, Chunk([], 0))
  }

  /** END_REQUEST, a flush, and both buffers rewound: the tail of finalize and abort. */
  function Close(link: Link, o: Out, q: Req, status: u32, finalized: bool): Ran {
    var a := PutOwn(o, q, EndOut(q.begin.rid, REQUEST_COMPLETE, status));
    Ran(RewindBoth(Flush(link, a.out)), a.req.(complete := true, finalized := finalized),
        if link(o.writes) then Ok else IoError)
  }

  function Finalize(link: Link, o: Out, q: Req): Ran {
    if q.complete then Ran(RewindBoth(o), q, Completed)
    else
      var a := PutOwn(o, q, EmptyStdout(q));
      Close(link, a.out, a.req, 0, true)
  }

  function Abort(link: Link, o: Out, q: Req, status: u32): Ran {
    if q.complete then Ran(RewindBoth(o), q, Completed)
    else Close(link, o, q, status, false)
  }

  function PutPieces(o: Out, q: Req, payloads: seq<bytes>): Ran
    decreases |payloads|
  {
    if payloads == [] then Ran(o, q, Ok)
    else
      var a := PutOwn(o, q, StdoutOut(q.begin.rid, Chunk(payloads[0], |payloads[0]|)));
      PutPieces(a.out, a.req, payloads[1..])
  }

  function EndHeaders(o: Out, q: Req): Ran {
    if q.state > HEADERS_ALLOWED then Ran(o, q, BadState)
    else if q.complete then Ran(o, q.(state := HEADERS_END), Completed)
    else
      var a := PutPieces(o, q.(headers := []), PackAll(q.headers) + [CRLF]);
      Ran(a.out, a.req.(state := HEADERS_END), Ok)
  }

  // --------------------------------------------------------------- callbacks

  datatype Op =
    | RenderStdoutOp(piece: Piece)
    | FlushOutOp
    | FinalizeOp
    | FieldOp(mode: Mode, name: bytes, value: Option<bytes>)
    | HeadersEndOp
    | SetStateOp(state: int)

  function Do(link: Link, o: Out, q: Req, op: Op): Ran {
    match op
    case RenderStdoutOp(piece) => RenderStdout(o, q, piece)
    case FlushOutOp => FlushOut(link, o, q)
    case FinalizeOp => Finalize(link, o, q)
    case FieldOp(mode, name, value) =>
      var a := AddField(q.headers, q.state, mode, name, value);
      Ran(o, q.(headers := a.table), a.code)
    case HeadersEndOp => EndHeaders(o, q)
    case SetStateOp(state) => Ran(o, q.(state := state), Ok)
  }

  /** A terminating deterministic callback: API calls, each followed by a continuation
      for every code it can return, and a return code. */
  datatype Prog =
    | Return(rc: int)
    | Step(op: Op, ok: Prog, completed: Prog, ioError: Prog, tooLarge: Prog,
           renderFailed: Prog, badState: Prog, duplicate: Prog)
  {
    function Next(code: Code): Prog
      requires Step?
    {
      match code
      case Ok => ok
      case Completed => completed
      case IoError => ioError
      case TooLarge => tooLarge
      case RenderFailed => renderFailed
      case BadState => badState
      case Duplicate => duplicate
    }
  }

  datatype Returned = Returned(out: Out, req: Req, rc: int)

  function Run(link: Link, o: Out, q: Req, p: Prog): Returned
    decreases p
  {
    match p
    case Return(rc) => Returned(o, q, rc)
    case Step(op, _, _, _, _, _, _, _) =>
      var r := Do(link, o, q, op);
      Run(link, r.out, r.req, p.Next(r.code))
  }

  /** A dispatched record and, for STDIN and DATA, the bytes its range covers. */
  datatype Event = Event(rec: Record, body: bytes)

  function EventAt(m: bytes, rec: Record): Event {
    match rec.body
    case StdinBody(start, end) => Event(rec, if start <= end then Slice(m, start, end - start) else [])
    case DataBody(start, end) => Event(rec, if start <= end then Slice(m, start, end - start) else [])
    case _ => Event(rec, [])
  }

  /** An event without its position in the buffer. */
  function Fixed(ev: Event): Event {
    match ev.rec.body
    case StdinBody(_, _) => ev.(rec := ev.rec.(body := StdinBody(0, |ev.body|)))
    case DataBody(_, _) => ev.(rec := ev.rec.(body := DataBody(0, |ev.body|)))
    case _ => ev
  }

  function FixedAll(evs: seq<Event>): seq<Event> {
    seq(|evs|, (i: nat) requires i < |evs| => Fixed(evs[i]))
  }

  function RecordsOf(evs: seq<Event>): seq<Record> {
    seq(|evs|, (i: nat) requires i < |evs| => evs[i].rec)
  }

  type Handler = (Event, Req) -> Prog

  /** How the library was built: with assertions, or without, when it matters in which order
      the hash of an answer to GET_VALUES is iterated. */
  datatype Build = Debug | Release(order: map<bytes, Option<bytes>> -> seq<(bytes, Option<bytes>)>)

  /** The callbacks of a configuration, the formatted answers to GET_VALUES, and the build. */
  datatype Config = Config(
    beginParse: Option<Handler>,
    paramsParse: Option<Handler>,
    stdinParse: Option<Handler>,
    dataParse: Option<Handler>,
    endRender: Option<Req -> Prog>,
    maxConns: bytes,
    maxReqs: bytes,
    build: Build)

  function RunHandler(h: Option<Handler>, link: Link, o: Out, q: Req, ev: Event): Returned {
    match h
    case None => Returned(o, q, 0)
    case Some(f) => Run(link, o, q, f(ev, q))
  }

  /** The status a failing callback's code becomes: `(uint32_t)(0 - nparsed)`. */
  function AbortStatus(rc: int): u32 {
    (0 - rc) % 0x1_0000_0000
  }

  /** A callback, and the abort if its code is negative. */
  function Served(h: Option<Handler>, link: Link, o: Out, q: Req, ev: Event): Returned {
    var r := RunHandler(h, link, o, q, ev);
    if r.rc < 0 then
      var a := Abort(link, r.out, r.req, AbortStatus(r.rc));
      Returned(a.out, a.req, r.rc)
    else r
  }

  // ---------------------------------------------------------------- dispatch

  /** The arrival numbers of the records a request holds: its begin_request and, position
      by position, its queues. */
  datatype Ids = Ids(begin: nat, params: seq<nat>, stdin: seq<nat>, data: seq<nat>) {
    /** In the order in which `mnfcgi_request_fini` destroys them. */
    function All(): seq<nat> { [begin] + params + stdin + data }
  }

  /** A table entry. A callback sees the request, not the numbers. */
  datatype Slot = Slot(req: Req, ids: Ids)

  datatype Status = Running | Stopped | Crashed

  /** What a dispatch does to the shared output, to the entry of the record's request id,
      and to records and requests it destroys. `dangling` marks that the code as written
      goes on to use the entry it has just deleted. */
  datatype Arm = Arm(out: Out, slot: Option<Slot>, freed: seq<nat>, done: seq<Req>, status: Status, dangling: bool)

  /** `mnfcgi_request_fini` empties the request before its end_request callback runs. */
  function Wiped(q: Req): Req {
    q.(params := [], stdin := [], data := [], headers := [])
  }

  function EndHook(cfg: Config, link: Link, o: Out, q: Req): Out {
    match cfg.endRender
    case None => o
    case Some(f) => Run(link, o, Wiped(q), f(Wiped(q))).out
  }

  /** Flushes; the arm goes on, freeing `extra`, or takes the error exit, where the record
      in hand is destroyed. */
  function FlushArm(link: Link, o: Out, slot: Option<Slot>, freed: seq<nat>, done: seq<Req>,
                    extra: seq<nat>, id: nat): Arm {
    if link(o.writes) then Arm(Flush(link, o), slot, freed + extra, done, Running, false)
    else Arm(Flush(link, o), slot, freed + [id], done, Stopped, false)
  }

  /** Replies to a record no request takes. */
  function Reply(link: Link, o: Out, slot: Option<Slot>, rec: OutRecord, id: nat): Arm {
    FlushArm(link, Put(o, false, rec), slot, [], [], [id], id)
  }

  /** Destroys a request: its records go, its end_request callback runs. */
  function Retire(cfg: Config, link: Link, o: Out, s: Slot): Arm {
    Arm(EndHook(cfg, link, o, s.req), None, s.ids.All(), [s.req], Running, false)
  }

  /** Destroys a request, then flushes. */
  function Dismiss(cfg: Config, link: Link, o: Out, s: Slot, extra: seq<nat>, id: nat): Arm {
    var gone := Retire(cfg, link, o, s);
    FlushArm(link, gone.out, None, gone.freed, gone.done, extra, id)
  }

  /** What becomes of a request after its callback. A failing BEGIN_REQUEST or PARAMS
      callback leaves by `continue` after a flush. For STDIN and DATA the code falls
      through to a test and a second deletion of the entry it has deleted; the model takes
      the exit of PARAMS without the flush and marks the arm as dangling. */
  function Settle(cfg: Config, link: Link, r: Returned, ids: Ids, body: Body, id: nat): Arm {
    if r.rc < 0 then
      if body.StdinBody? || body.DataBody? then Retire(cfg, link, r.out, Slot(r.req, ids)).(dangling := true)
      else Dismiss(cfg, link, r.out, Slot(r.req, ids), [], id)
    else if r.req.complete then Retire(cfg, link, r.out, Slot(r.req, ids))
    else Arm(r.out, Some(Slot(r.req, ids)), [], [], Running, false)
  }

  function DispatchBegin(cfg: Config, link: Link, o: Out, slot: Option<Slot>, ev: Event, id: nat): Arm
    requires ev.rec.body.BeginBody?
  {
    if ev.rec.body.role != RESPONDER then
      Reply(link, o, slot, EndOut(ev.rec.rid, UNKNOWN_ROLE, 0), id)
    else if slot.Some? then
      Reply(link, o, slot, EndOut(ev.rec.rid, REQUEST_COMPLETE, 0), id)
    else
      Settle(cfg, link, Served(cfg.beginParse, link, o, NewReq(ev.rec), ev), NewIds(id), ev.rec.body, id)
  }

  function DispatchAbort(cfg: Config, link: Link, o: Out, slot: Option<Slot>, ev: Event, id: nat): Arm {
    match slot
    case None => Reply(link, o, None, EndOut(ev.rec.rid, REQUEST_COMPLETE, 0), id)
    case Some(s) =>
      var a := Abort(link, o, s.req, 0);
      Dismiss(cfg, link, a.out, Slot(a.req, s.ids), [id], id)
  }

  /** PARAMS, STDIN and DATA: the record joins its queue, then the callback runs. */
  function DispatchStream(cfg: Config, link: Link, o: Out, slot: Option<Slot>, ev: Event, id: nat): Arm
    requires IsStream(ev.rec.body)
  {
    match slot
    case None => Reply(link, o, None, EndOut(ev.rec.rid, REQUEST_COMPLETE, 0), id)
    case Some(s) =>
      var r := Served(StreamHandler(cfg, ev.rec.body), link, o, Enqueue(s.req, ev.rec), ev);
      Settle(cfg, link, r, EnqueueId(s.ids, ev.rec.body, id), ev.rec.body, id)
  }

  predicate IsStream(b: Body) {
    b.ParamsBody? || b.StdinBody? || b.DataBody?
  }

  function StreamHandler(cfg: Config, b: Body): Option<Handler>
    requires IsStream(b)
  {
    match b
    case ParamsBody(_) => cfg.paramsParse
    case StdinBody(_, _) => cfg.stdinParse
    case DataBody(_, _) => cfg.dataParse
  }

  function Enqueue(q: Req, rec: Record): Req
    requires IsStream(rec.body)
  {
    match rec.body
    case ParamsBody(_) => q.(params := q.params + [rec])
    case StdinBody(_, _) => q.(stdin := q.stdin + [rec])
    case DataBody(_, _) => q.(data := q.data + [rec])
  }

  function NewIds(id: nat): Ids {
    Ids(id, [], [], [])
  }

  function EnqueueId(ids: Ids, body: Body, id: nat): Ids
    requires IsStream(body)
  {
    match body
    case ParamsBody(_) => ids.(params := ids.params + [id])
    case StdinBody(_, _) => ids.(stdin := ids.stdin + [id])
    case DataBody(_, _) => ids.(data := ids.data + [id])
  }

  const MAX_CONNS: bytes := [70, 67, 71, 73, 95, 77, 65, 88, 95, 67, 79, 78, 78, 83]
  const MAX_REQS: bytes := [70, 67, 71, 73, 95, 77, 65, 88, 95, 82, 69, 81, 83]
  const MPXS_CONNS: bytes := [70, 67, 71, 73, 95, 77, 80, 88, 83, 95, 67, 79, 78, 78, 83]

  function Answer(values: map<bytes, Option<bytes>>, name: bytes, value: bytes): map<bytes, Option<bytes>> {
    if name in values then values[name := Some(value)] else values
  }

  function Answered(cfg: Config, values: map<bytes, Option<bytes>>): map<bytes, Option<bytes>> {
    Answer(Answer(Answer(values, MAX_CONNS, cfg.maxConns), MAX_REQS, cfg.maxReqs), MPXS_CONNS, [0x31])
  }

  ghost predicate NoneSet(values: map<bytes, Option<bytes>>) {
    forall k <- values :: values[k].None?
  }

  /** GET_VALUES, answered without a flush. As soon as one pair is rendered the length
      assertion fails (`PairProofs.ResultRendersIffEmpty`) and the process stops. Without
      assertions a frame goes out that is shorter than it says, or, if the length reckoned
      is above the bound, the error exit is taken. */
  ghost function DispatchValues(cfg: Config, o: Out, slot: Option<Slot>, ev: Event, id: nat): Arm
    requires ev.rec.body.ValuesBody?
  {
    var values := Answered(cfg, ev.rec.body.values);
    match cfg.build
    case Debug =>
      if NoneSet(values) then Arm(Put(o, false, ResultOut(ev.rec.rid, [])), slot, [id], [], Running, false)
      else Arm(o, slot, [], [], Crashed, false)
    case Release(order) =>
      var rec := ResultOut(ev.rec.rid, order(values));
      Arm(Push(o, Entry(false, rec, AppendedIn(false, rec, o.End()))), slot, [id], [],
          if AnswerFits(o, rec) then Running else Stopped, false)
  }

  predicate AnswerFits(o: Out, rec: OutRecord) {
    OutcomeIn(false, PayloadOf(rec, o.End() + HEADER_LEN)).Rendered?
  }

  ghost function Dispatch(cfg: Config, link: Link, o: Out, slot: Option<Slot>, ev: Event, id: nat): Arm {
    match ev.rec.body
    case BeginBody(_, _) => DispatchBegin(cfg, link, o, slot, ev, id)
    case AbortBody => DispatchAbort(cfg, link, o, slot, ev, id)
    case ParamsBody(_) => DispatchStream(cfg, link, o, slot, ev, id)
    case StdinBody(_, _) => DispatchStream(cfg, link, o, slot, ev, id)
    case DataBody(_, _) => DispatchStream(cfg, link, o, slot, ev, id)
    case ValuesBody(_) => DispatchValues(cfg, o, slot, ev, id)
    case ResultBody(_) => Reply(link, o, slot, UnknownTypeOut(0, GET_VALUES_RESULT), id)
  }

  // -------------------------------------------------------------- connection

  /** A connection between two dispatches. `seen` counts records, `freed` lists the ones
      destroyed, `done` the requests destroyed. */
  datatype Conn = Conn(table: map<u16, Slot>, out: Out, seen: nat, freed: seq<nat>, done: seq<Req>, dangling: bool)

  const START: Conn := Conn(map[], Out([], 0, [], [], 0, false, false, 0), 0, [], [], false)

  function Lookup(table: map<u16, Slot>, rid: u16): Option<Slot> {
    if rid in table then Some(table[rid]) else None
  }

  function Updated(table: map<u16, Slot>, rid: u16, slot: Option<Slot>): map<u16, Slot> {
    match slot
    case None => table - {rid}
    case Some(s) => table[rid := s]
  }

  /** The error exit: both buffers are rewound and every remaining request is complete. */
  function Hangup(c: Conn): Conn {
    c.(out := RewindBoth(c.out), table := AllComplete(c.table))
  }

  function AllComplete(table: map<u16, Slot>): map<u16, Slot> {
    map rid | rid in table :: table[rid].(req := table[rid].req.(complete := true))
  }

  datatype Stepped = Stepped(conn: Conn, status: Status)

  ghost function StepConn(cfg: Config, link: Link, c: Conn, ev: Event): Stepped {
    var arm := Dispatch(cfg, link, c.out, Lookup(c.table, ev.rec.rid), ev, c.seen);
    var c' := Conn(Updated(c.table, ev.rec.rid, arm.slot), arm.out, c.seen + 1,
                   c.freed + arm.freed, c.done + arm.done, c.dangling || arm.dangling);
    Stepped(if arm.status == Stopped then Hangup(c') else c', arm.status)
  }

  /** A run over a sequence of dispatched records, up to the first that ends it. */
  ghost function RunConn(cfg: Config, link: Link, c: Conn, evs: seq<Event>): Stepped
    decreases |evs|
  {
    if evs == [] then Stepped(c, Running)
    else
      var s := StepConn(cfg, link, c, evs[0]);
      if s.status == Running then RunConn(cfg, link, s.conn, evs[1..]) else s
  }
}
