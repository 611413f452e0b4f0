/** What becomes of a request's header table: over a callback it is the fold of its field
    calls, and over a whole connection a name never added plainly stays single. */
module HeaderProofs {
  import opened Bytes
  import opened Wire
  import opened Headers
  import opened Engine
  import opened App
  import RunProofs

  // ---------------------------------------------------------- the table as a fold

  /** The field calls of a run that came while fields were allowed. */
  function FieldCalls(link: Link, o: Out, q: Req, p: Prog): seq<Call>
    decreases p
  {
    match p
    case Return(_) => []
    case Step(op, _, _, _, _, _, _, _) =>
      var r := Do(link, o, q, op);
      (if op.FieldOp? && r.code != BadState then [Call(op.mode, op.name, op.value)] else [])
      + FieldCalls(link, r.out, r.req, p.Next(r.code))
  }

  lemma AddAllFirst(t: Table, state: int, mode: Mode, name: bytes, value: Option<bytes>, calls: seq<Call>)
    requires state <= HEADERS_ALLOWED
    ensures AddAll(t, [Call(mode, name, value)] + calls) == AddAll(AddField(t, state, mode, name, value).table, calls)
  {
    assert ([Call(mode, name, value)] + calls)[1..] == calls;
  }

  /** What one call does to the table. */
  lemma DoHeaders(link: Link, o: Out, q: Req, op: Op)
    requires !op.SetStateOp?
    ensures var r := Do(link, o, q, op);
            r.req.headers == if op.FieldOp? then AddField(q.headers, q.state, op.mode, op.name, op.value).table
                             else if op.HeadersEndOp? && r.code == Headers.Ok then [] else q.headers
  {
    if op.HeadersEndOp? {
      PiecesState(o, q.(headers := []), PackAll(q.headers) + [CRLF]);
    }
  }

  /** Whatever a callback calls, the table it leaves is the fold of its field calls over the
      one it found, or empty if it has ended the headers. */
  lemma {:induction false} TableIsFold(link: Link, o: Out, q: Req, p: Prog)
    requires NoSetState(p)
    ensures Run(link, o, q, p).req.headers
         == if HeadersEnded(link, o, q, p) == 1 then [] else AddAll(q.headers, FieldCalls(link, o, q, p))
    decreases p
  {
    match p
    case Return(_) =>
    case Step(op, _, _, _, _, _, _, _) =>
      var r := Do(link, o, q, op);
      NextNoSetState(p, r.code);
      DoHeaders(link, o, q, op);
      TableIsFold(link, r.out, r.req, p.Next(r.code));
      HeaderPhases(link, r.out, r.req, p.Next(r.code));
      var later := FieldCalls(link, r.out, r.req, p.Next(r.code));
      if op.FieldOp? && r.code != BadState {
        AddAllFirst(q.headers, q.state, op.mode, op.name, op.value, later);
      } else {
        assert [] + later == later;
      }
  }

  /** So each name is there as often as the calls on that name alone say. */
  lemma RunFieldCount(link: Link, o: Out, q: Req, p: Prog, name: bytes)
    requires NoSetState(p) && HeadersEnded(link, o, q, p) == 0
    ensures Count(Run(link, o, q, p).req.headers, name)
         == Multiplicity(FieldCalls(link, o, q, p), name, Count(q.headers, name))
  {
    TableIsFold(link, o, q, p);
    FieldCount(q.headers, FieldCalls(link, o, q, p), name);
  }

  /** And its values are what those calls make of the ones it had, in order, whatever was
      said of other names. */
  lemma RunFieldValues(link: Link, o: Out, q: Req, p: Prog, name: bytes)
    requires NoSetState(p) && HeadersEnded(link, o, q, p) == 0
    ensures ValuesOf(Run(link, o, q, p).req.headers, name)
         == ValuesAfter(FieldCalls(link, o, q, p), name, ValuesOf(q.headers, name))
  {
    TableIsFold(link, o, q, p);
    FieldValues(q.headers, FieldCalls(link, o, q, p), name);
  }

  // -------------------------------------------------------- never added plainly

  /** Every field call on a name in a program is an OVERRIDE or an IFNOEXISTS. */
  predicate NeverPlain(p: Prog, name: bytes) {
    match p
    case Return(_) => true
    case Step(op, a, b, c, d, e, g, h) =>
      && (op.FieldOp? && op.name == name ==> op.mode != Plain)
      && NeverPlain(a, name) && NeverPlain(b, name) && NeverPlain(c, name) && NeverPlain(d, name)
      && NeverPlain(e, name) && NeverPlain(g, name) && NeverPlain(h, name)
  }

  lemma NextNeverPlain(p: Prog, name: bytes, code: Code)
    requires p.Step? && NeverPlain(p, name)
    ensures NeverPlain(p.Next(code), name)
  {
  }

  lemma AddOnce(t: Table, state: int, mode: Mode, name: bytes, value: Option<bytes>, other: bytes)
    requires Count(t, other) <= 1 && (name == other ==> mode != Plain)
    ensures Count(AddField(t, state, mode, name, value).table, other) <= 1
  {
    CountZero(t, name);
    CountAppend(t, Field(name, value), other);
    if Find(t, name) < |t| {
      CountUpdate(t, Find(t, name), Field(name, value), other);
    }
  }

  /** Over any callback, ended headers and set states included, a name that is there at most
      once and only added with OVERRIDE or IFNOEXISTS stays so. */
  lemma {:induction false} RunOnce(link: Link, o: Out, q: Req, p: Prog, name: bytes)
    requires NeverPlain(p, name) && Count(q.headers, name) <= 1
    ensures Count(Run(link, o, q, p).req.headers, name) <= 1
    decreases p
  {
    match p
    case Return(_) =>
    case Step(op, _, _, _, _, _, _, _) =>
      var r := Do(link, o, q, op);
      if op.FieldOp? {
        AddOnce(q.headers, q.state, op.mode, op.name, op.value, name);
      } else if !op.SetStateOp? {
        DoHeaders(link, o, q, op);
      }
      NextNeverPlain(p, name, r.code);
      RunOnce(link, r.out, r.req, p.Next(r.code), name);
  }

  /** Every callback of a configuration keeps to that. */
  ghost predicate CallbacksNeverPlain(cfg: Config, name: bytes) {
    && HandlerNeverPlain(cfg.beginParse, name) && HandlerNeverPlain(cfg.paramsParse, name)
    && HandlerNeverPlain(cfg.stdinParse, name) && HandlerNeverPlain(cfg.dataParse, name)
  }

  ghost predicate HandlerNeverPlain(h: Option<Handler>, name: bytes) {
    h.Some? ==> forall ev: Event, q: Req :: NeverPlain(h.value(ev, q), name)
  }

  lemma ServedOnce(h: Option<Handler>, link: Link, o: Out, q: Req, ev: Event, name: bytes)
    requires HandlerNeverPlain(h, name) && Count(q.headers, name) <= 1
    ensures Count(Served(h, link, o, q, ev).req.headers, name) <= 1
  {
    if h.Some? {
      RunOnce(link, o, q, h.value(ev, q), name);
    }
  }

  ghost predicate SlotOnce(slot: Option<Slot>, name: bytes) {
    slot.Some? ==> Count(slot.value.req.headers, name) <= 1
  }

  ghost predicate TableOnce(c: Conn, name: bytes) {
    forall rid <- c.table :: Count(c.table[rid].req.headers, name) <= 1
  }

  lemma DispatchOnce(cfg: Config, link: Link, o: Out, slot: Option<Slot>, ev: Event, id: nat, name: bytes)
    requires CallbacksNeverPlain(cfg, name) && SlotOnce(slot, name)
    ensures SlotOnce(Dispatch(cfg, link, o, slot, ev, id).slot, name)
  {
    match ev.rec.body
    case BeginBody(_, _) =>
      ServedOnce(cfg.beginParse, link, o, NewReq(ev.rec), ev, name);
    case ParamsBody(_) => StreamOnce(cfg, link, o, slot, ev, id, name);
    case StdinBody(_, _) => StreamOnce(cfg, link, o, slot, ev, id, name);
    case DataBody(_, _) => StreamOnce(cfg, link, o, slot, ev, id, name);
    case _ =>
  }

  lemma StreamOnce(cfg: Config, link: Link, o: Out, slot: Option<Slot>, ev: Event, id: nat, name: bytes)
    requires CallbacksNeverPlain(cfg, name) && SlotOnce(slot, name) && IsStream(ev.rec.body)
    ensures SlotOnce(DispatchStream(cfg, link, o, slot, ev, id).slot, name)
  {
    if slot.Some? {
      ServedOnce(StreamHandler(cfg, ev.rec.body), link, o, Enqueue(slot.value.req, ev.rec), ev, name);
    }
  }

  lemma StepOnce(cfg: Config, link: Link, c: Conn, ev: Event, name: bytes)
    requires CallbacksNeverPlain(cfg, name) && TableOnce(c, name)
    ensures TableOnce(StepConn(cfg, link, c, ev).conn, name)
  {
    hide Dispatch, CallbacksNeverPlain;
    RunProofs.StepIsArm(cfg, link, c, ev);
    DispatchOnce(cfg, link, c.out, Lookup(c.table, ev.rec.rid), ev, c.seen, name);
  }

  /** Over whole connections: in no request's table does a name occur twice that no callback
      adds plainly. */
  lemma {:induction false} NeverTwice(cfg: Config, link: Link, c: Conn, evs: seq<Event>, name: bytes)
    requires CallbacksNeverPlain(cfg, name) && TableOnce(c, name)
    ensures TableOnce(RunConn(cfg, link, c, evs).conn, name)
    decreases |evs|
  {
    if evs != [] {
      StepOnce(cfg, link, c, evs[0], name);
      var s := StepConn(cfg, link, c, evs[0]);
      if s.status == Running {
        NeverTwice(cfg, link, s.conn, evs[1..], name);
      }
    }
  }

  // -------------------------------------------------------------------- Status

  /** `mnfcgi_request_status_set`. */
  function StatusSet(status: bytes): Op {
    FieldOp(Override, STATUS, Some(status))
  }

  /** A user's callback touches `Status` by that call alone. */
  predicate SetsStatus(p: Prog) {
    match p
    case Return(_) => true
    case Step(op, a, b, c, d, e, g, h) =>
      && (op.FieldOp? && op.name == STATUS ==> op.value.Some? && op == StatusSet(op.value.value))
      && SetsStatus(a) && SetsStatus(b) && SetsStatus(c) && SetsStatus(d)
      && SetsStatus(e) && SetsStatus(g) && SetsStatus(h)
  }

  ghost predicate UserSetsStatus(cb: Option<UserCallback>) {
    cb.Some? ==> forall q: Req :: SetsStatus(cb.value(q))
  }

  lemma {:induction false} SetsStatusNeverPlain(p: Prog)
    requires SetsStatus(p)
    ensures NeverPlain(p, STATUS)
    decreases p
  {
    match p
    case Return(_) =>
    case Step(_, a, b, c, d, e, g, h) =>
      SetsStatusNeverPlain(a);
      SetsStatusNeverPlain(b);
      SetsStatusNeverPlain(c);
      SetsStatusNeverPlain(d);
      SetsStatusNeverPlain(e);
      SetsStatusNeverPlain(g);
      SetsStatusNeverPlain(h);
  }

  lemma {:induction false} BindNeverPlain(p: Prog, f: int -> Prog, name: bytes)
    requires NeverPlain(p, name) && forall rc: int :: NeverPlain(f(rc), name)
    ensures NeverPlain(Bind(p, f), name)
    decreases p
  {
    match p
    case Return(_) =>
    case Step(_, a, b, c, d, e, g, h) =>
      BindNeverPlain(a, f, name);
      BindNeverPlain(b, f, name);
      BindNeverPlain(c, f, name);
      BindNeverPlain(d, f, name);
      BindNeverPlain(e, f, name);
      BindNeverPlain(g, f, name);
      BindNeverPlain(h, f, name);
  }

  lemma CalledNeverPlain(cb: Option<UserCallback>, q: Req, error: int, next: Prog)
    requires UserSetsStatus(cb) && NeverPlain(next, STATUS)
    ensures NeverPlain(Called(cb, q, error, next), STATUS)
  {
    if cb.Some? {
      SetsStatusNeverPlain(cb.value(q));
      BindNeverPlain(cb.value(q), (rc: int) => if rc != 0 then Return(error) else next, STATUS);
    }
  }

  lemma ThenNeverPlain(state: int, p: Prog)
    requires NeverPlain(p, STATUS)
    ensures NeverPlain(Then(SetStateOp(state), p), STATUS)
  {
  }

  /** The canned responses set it that way as well. */
  lemma CannedSetStatus(status: bytes, uri: bytes, k: Prog)
    requires SetsStatus(k)
    ensures SetsStatus(ErrorThen(status, k)) && SetsStatus(RedirThen(status, uri, k))
  {
    assert SetsStatus(Guarded(FinalizeOp, k, k));
    assert SetsStatus(Guarded(HeadersEndOp, Guarded(FinalizeOp, k, k), k));
    assert SetsStatus(StatusThen(status, k));
  }

  lemma AdaptersNeverPlain(app: Callbacks, maxConns: bytes, maxReqs: bytes, build: Build)
    requires UserSetsStatus(app.beginRequest) && UserSetsStatus(app.paramsComplete)
    requires UserSetsStatus(app.stdin) && UserSetsStatus(app.stdinEnd)
    ensures CallbacksNeverPlain(ConfigOf(app, maxConns, maxReqs, build), STATUS)
  {
    forall ev: Event, q: Req
      ensures NeverPlain(BeginRequest(app)(ev, q), STATUS)
      ensures NeverPlain(ParamsHandler(app)(ev, q), STATUS)
      ensures NeverPlain(StdinHandler(app)(ev, q), STATUS)
    {
      var begun, done := q.(state := BEGIN), q.(state := PARAMS_DONE);
      var last := Then(SetStateOp(HEADERS_ALLOWED), Return(ev.rec.rsz));
      CalledNeverPlain(app.beginRequest, begun, app.beginError, Return(ev.rec.rsz));
      ThenNeverPlain(BEGIN, Called(app.beginRequest, begun, app.beginError, Return(ev.rec.rsz)));
      ThenNeverPlain(HEADERS_ALLOWED, Return(ev.rec.rsz));
      CalledNeverPlain(app.paramsComplete, done, app.paramsError, last);
      ThenNeverPlain(PARAMS_DONE, Called(app.paramsComplete, done, app.paramsError, last));
      CalledNeverPlain(if ev.rec.rsz > 0 then app.stdin else app.stdinEnd, q, app.stdinError, Return(ev.rec.rsz));
    }
  }

  /** `Status` occurs at most once in every request of an application whose callbacks set it
      by `mnfcgi_request_status_set`, the canned responses included, whatever else they do. */
  lemma StatusOnce(app: Callbacks, maxConns: bytes, maxReqs: bytes, build: Build, link: Link, evs: seq<Event>)
    requires UserSetsStatus(app.beginRequest) && UserSetsStatus(app.paramsComplete)
    requires UserSetsStatus(app.stdin) && UserSetsStatus(app.stdinEnd)
    ensures TableOnce(RunConn(ConfigOf(app, maxConns, maxReqs, build), link, START, evs).conn, STATUS)
  {
    AdaptersNeverPlain(app, maxConns, maxReqs, build);
    NeverTwice(ConfigOf(app, maxConns, maxReqs, build), link, START, evs, STATUS);
  }
}
