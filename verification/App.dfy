/** The application layer: adapters that wrap user callbacks and move the request state,
    and the canned error and redirect responses. */
module App {
  import opened Bytes
  import opened Wire
  import opened Headers
  import opened Engine
  import opened RequestProofs

  /** Sequencing: run `p`, go on with what `f` makes of its return code. */
  function Bind(p: Prog, f: int -> Prog): Prog {
    match p
    case Return(rc) => f(rc)
    case Step(op, a, b, c, d, e, g, h) =>
      Prog.Step(op, Bind(a, f), Bind(b, f), Bind(c, f), Bind(d, f), Bind(e, f), Bind(g, f), Bind(h, f))
  }

  /** A call whose code is ignored. */
  function Then(op: Op, p: Prog): Prog {
    Prog.Step(op, p, p, p, p, p, p, p)
  }

  /** A call that must succeed for `next` to run. */
  function Guarded(op: Op, next: Prog, otherwise: Prog): Prog {
    Prog.Step(op, next, otherwise, otherwise, otherwise, otherwise, otherwise, otherwise)
  }

  lemma {:induction false} RunBind(link: Link, o: Out, q: Req, p: Prog, f: int -> Prog)
    ensures Run(link, o, q, Bind(p, f)) ==
            var r := Run(link, o, q, p);
            Run(link, r.out, r.req, f(r.rc))
    decreases p
  {
    match p
    case Return(_) =>
    case Step(op, _, _, _, _, _, _, _) =>
      var a := Do(link, o, q, op);
      RunBind(link, a.out, a.req, p.Next(a.code), f);
      BindNext(p, f, a.code);
  }

  lemma BindNext(p: Prog, f: int -> Prog, code: Code)
    requires p.Step?
    ensures Bind(p, f).Step? && Bind(p, f).op == p.op && Bind(p, f).Next(code) == Bind(p.Next(code), f)
  {
  }

  // ---------------------------------------------------------------- adapters

  type UserCallback = Req -> Prog

  /** The callback table, and the library's error codes for its entries. */
  datatype Callbacks = Callbacks(
    beginRequest: Option<UserCallback>,
    paramsComplete: Option<UserCallback>,
    stdin: Option<UserCallback>,
    stdinEnd: Option<UserCallback>,
    endRequest: Option<UserCallback>,
    beginError: int,
    paramsError: int,
    stdinError: int)

  /** `cb != NULL && cb(req) != 0` gives `error`, anything else goes on with `next`. */
  function Called(cb: Option<UserCallback>, q: Req, error: int, next: Prog): Prog {
    match cb
    case None => next
    case Some(f) => Bind(f(q), (rc: int) => if rc != 0 then Return(error) else next)
  }

  function BeginRequest(app: Callbacks): Handler {
    (ev: Event, q: Req) =>
      Then(SetStateOp(BEGIN),
           Called(app.beginRequest, q.(state := BEGIN), app.beginError, Return(ev.rec.rsz)))
  }

  /** The state becomes HEADERS_ALLOWED after the callback, whatever the callback did. */
  function ParamsHandler(app: Callbacks): Handler {
    (ev: Event, q: Req) =>
      if ev.rec.rsz == 0 then
        Then(SetStateOp(PARAMS_DONE),
             Called(app.paramsComplete, q.(state := PARAMS_DONE), app.paramsError,
                    Then(SetStateOp(HEADERS_ALLOWED), Return(ev.rec.rsz))))
      else Return(ev.rec.rsz)
  }

  function StdinHandler(app: Callbacks): Handler {
    (ev: Event, q: Req) =>
      Called(if ev.rec.rsz > 0 then app.stdin else app.stdinEnd, q, app.stdinError, Return(ev.rec.rsz))
  }

  /** `mnfcgi_app_init` registers no DATA parser. */
  function ConfigOf(app: Callbacks, maxConns: bytes, maxReqs: bytes, build: Build): Config {
    Config(Some(BeginRequest(app)), Some(ParamsHandler(app)), Some(StdinHandler(app)), None, app.endRequest,
           maxConns, maxReqs, build)
  }

  // ------------------------------------------------------------ header phases

  /** A user callback cannot set the state. */
  predicate NoSetState(p: Prog) {
    match p
    case Return(_) => true
    case Step(op, a, b, c, d, e, g, h) =>
      && !op.SetStateOp?
      && NoSetState(a) && NoSetState(b) && NoSetState(c) && NoSetState(d)
      && NoSetState(e) && NoSetState(g) && NoSetState(h)
  }

  /** How often a run ends the headers, that is, puts out the terminating empty line. */
  function HeadersEnded(link: Link, o: Out, q: Req, p: Prog): nat
    decreases p
  {
    match p
    case Return(_) => 0
    case Step(op, _, _, _, _, _, _, _) =>
      var r := Do(link, o, q, op);
      (if op.HeadersEndOp? && r.code == Ok then 1 else 0) + HeadersEnded(link, r.out, r.req, p.Next(r.code))
  }

  lemma {:induction false} PiecesState(o: Out, q: Req, payloads: seq<bytes>)
    ensures PutPieces(o, q, payloads).req.state == q.state && PutPieces(o, q, payloads).req.headers == q.headers
    decreases |payloads|
  {
    if payloads != [] {
      var a := PutOwn(o, q, StdoutOut(q.begin.rid, Chunk(payloads[0], |payloads[0]|)));
      PiecesState(a.out, a.req, payloads[1..]);
    }
  }

  /** Whatever a user callback calls, the state never goes back, the terminating empty
      line is put out at most once, and behind it no field is added. */
  lemma {:induction false} HeaderPhases(link: Link, o: Out, q: Req, p: Prog)
    requires NoSetState(p)
    ensures q.state <= Run(link, o, q, p).req.state
    ensures HeadersEnded(link, o, q, p) <= 1
    ensures q.state > HEADERS_ALLOWED ==>
              HeadersEnded(link, o, q, p) == 0 && Run(link, o, q, p).req.headers == q.headers
    ensures HeadersEnded(link, o, q, p) == 1 ==> Run(link, o, q, p).req.state > HEADERS_ALLOWED
    decreases p
  {
    match p
    case Return(_) =>
    case Step(op, _, _, _, _, _, _, _) =>
      var r := Do(link, o, q, op);
      if op.HeadersEndOp? {
        PiecesState(o, q.(headers := []), PackAll(q.headers) + [CRLF]);
      }
      NextNoSetState(p, r.code);
      HeaderPhases(link, r.out, r.req, p.Next(r.code));
  }

  lemma NextNoSetState(p: Prog, code: Code)
    requires p.Step? && NoSetState(p)
    ensures NoSetState(p.Next(code)) && !p.op.SetStateOp?
  {
  }

  /** Ending the headers puts out the packed table and then the empty line. */
  lemma EndHeadersPutsBlock(o: Out, q: Req)
    requires q.state <= HEADERS_ALLOWED && !q.complete
    ensures var r := EndHeaders(o, q).req;
            && r.sent == q.sent + StdoutRecords(q.begin.rid, PackAll(q.headers) + [CRLF])
            && r.headers == [] && r.state == HEADERS_END
    ensures Flatten(PackAll(q.headers)) == Lines(Sendable(q.headers))
  {
    PiecesSent(o, q.(headers := []), PackAll(q.headers) + [CRLF]);
    PiecesState(o, q.(headers := []), PackAll(q.headers) + [CRLF]);
    PackedBlock(q.headers);
  }

  function StdoutRecords(rid: u16, payloads: seq<bytes>): seq<OutRecord> {
    if payloads == [] then []
    else [StdoutOut(rid, Chunk(payloads[0], |payloads[0]|))] + StdoutRecords(rid, payloads[1..])
  }

  lemma {:induction false} PiecesSent(o: Out, q: Req, payloads: seq<bytes>)
    ensures PutPieces(o, q, payloads).req.sent == q.sent + StdoutRecords(q.begin.rid, payloads)
    decreases |payloads|
  {
    if payloads != [] {
      var rec := StdoutOut(q.begin.rid, Chunk(payloads[0], |payloads[0]|));
      var a := PutOwn(o, q, rec);
      PiecesSent(a.out, a.req, payloads[1..]);
      assert q.sent + [rec] + StdoutRecords(q.begin.rid, payloads[1..])
          == q.sent + ([rec] + StdoutRecords(q.begin.rid, payloads[1..]));
    }
  }

  lemma RunThen(link: Link, o: Out, q: Req, op: Op, p: Prog)
    ensures Run(link, o, q, Then(op, p)) == Run(link, Do(link, o, q, op).out, Do(link, o, q, op).req, p)
  {
  }

  /** A callback that is not set does nothing and succeeds. */
  function User(cb: Option<UserCallback>, link: Link, o: Out, q: Req): Returned {
    match cb
    case None => Returned(o, q, 0)
    case Some(f) => Run(link, o, q, f(q))
  }

  lemma CalledRuns(cb: Option<UserCallback>, link: Link, o: Out, q: Req, error: int, next: Prog)
    ensures var user := User(cb, link, o, q);
            Run(link, o, q, Called(cb, q, error, next))
            == if user.rc != 0 then Returned(user.out, user.req, error) else Run(link, user.out, user.req, next)
  {
    match cb
    case None =>
    case Some(f) => RunBind(link, o, q, f(q), (rc: int) => if rc != 0 then Return(error) else next);
  }

  /** The callback sees the state BEGIN; its failure becomes the library's error code, its
      success the size of the record. */
  lemma BeginAdapter(app: Callbacks, link: Link, o: Out, q: Req, ev: Event)
    ensures var user := User(app.beginRequest, link, o, q.(state := 1));
            Run(link, o, q, BeginRequest(app)(ev, q))
            == Returned(user.out, user.req, if user.rc != 0 then app.beginError else ev.rec.rsz)
  {
    var q' := q.(state := BEGIN);
    CalledRuns(app.beginRequest, link, o, q', app.beginError, Return(ev.rec.rsz));
    RunThen(link, o, q, SetStateOp(BEGIN), Called(app.beginRequest, q', app.beginError, Return(ev.rec.rsz)));
  }

  /** The empty record that ends the parameters calls params_complete between the states
      PARAMS_DONE and, if it succeeds, HEADERS_ALLOWED; other records change nothing. */
  lemma ParamsAdapter(app: Callbacks, link: Link, o: Out, q: Req, ev: Event)
    ensures var user := User(app.paramsComplete, link, o, q.(state := 2));
            Run(link, o, q, ParamsHandler(app)(ev, q))
            == if ev.rec.rsz != 0 then Returned(o, q, ev.rec.rsz)
               else if user.rc != 0 then Returned(user.out, user.req, app.paramsError)
               else Returned(user.out, user.req.(state := 3), 0)
  {
    if ev.rec.rsz == 0 {
      var q' := q.(state := PARAMS_DONE);
      var next := Then(SetStateOp(HEADERS_ALLOWED), Return(ev.rec.rsz));
      CalledRuns(app.paramsComplete, link, o, q', app.paramsError, next);
      RunThen(link, o, q, SetStateOp(PARAMS_DONE), Called(app.paramsComplete, q', app.paramsError, next));
      var user := User(app.paramsComplete, link, o, q');
      RunThen(link, user.out, user.req, SetStateOp(HEADERS_ALLOWED), Return(ev.rec.rsz));
    }
  }

  /** Data goes to the stdin callback, the empty record that ends it to the other one. */
  lemma StdinAdapter(app: Callbacks, link: Link, o: Out, q: Req, ev: Event)
    ensures var user := User(if ev.rec.rsz > 0 then app.stdin else app.stdinEnd, link, o, q);
            Run(link, o, q, StdinHandler(app)(ev, q))
            == Returned(user.out, user.req, if user.rc != 0 then app.stdinError else ev.rec.rsz)
  {
    CalledRuns(if ev.rec.rsz > 0 then app.stdin else app.stdinEnd, link, o, q, app.stdinError, Return(ev.rec.rsz));
  }

  /** Across the PARAMS adapter the phase does go back: if the callback succeeds, exactly for
      a request whose headers had ended before the record came; if it fails, exactly when it
      leaves an earlier state than the request came with. */
  lemma ParamsReopensIff(app: Callbacks, link: Link, o: Out, q: Req, ev: Event)
    requires ev.rec.rsz == 0
    ensures var user := User(app.paramsComplete, link, o, q.(state := PARAMS_DONE));
            var r := Run(link, o, q, ParamsHandler(app)(ev, q));
            r.req.state < q.state <==> if user.rc == 0 then q.state > HEADERS_ALLOWED else user.req.state < q.state
  {
    ParamsAdapter(app, link, o, q, ev);
  }

  /** Fields, and another empty line, are possible again behind the adapter if the headers
      had ended before it or end in its callback, and the callback succeeds. */
  lemma FieldsAgain(app: Callbacks, link: Link, o: Out, q: Req, ev: Event, mode: Mode, name: bytes, value: Option<bytes>)
    requires ev.rec.rsz == 0 && User(app.paramsComplete, link, o, q.(state := PARAMS_DONE)).rc == 0
    ensures var r := Run(link, o, q, ParamsHandler(app)(ev, q));
            && Do(link, r.out, r.req, FieldOp(mode, name, value)).code != BadState
            && Do(link, r.out, r.req, HeadersEndOp).code == if r.req.complete then Completed else Ok
  {
    ParamsAdapter(app, link, o, q, ev);
  }

  lemma RunGuarded(link: Link, o: Out, q: Req, op: Op, next: Prog, otherwise: Prog)
    ensures var r := Do(link, o, q, op);
            Run(link, o, q, Guarded(op, next, otherwise))
            == Run(link, r.out, r.req, if r.code == Ok then next else otherwise)
  {
  }

  // --------------------------------------------------------- canned responses

  const CONTENT_LENGTH: bytes := [67, 111, 110, 116, 101, 110, 116, 45, 76, 101, 110, 103, 116, 104]
  const LOCATION: bytes := [76, 111, 99, 97, 116, 105, 111, 110]
  const STATUS: bytes := [83, 116, 97, 116, 117, 115]
  const ZERO: bytes := [0x30]

  /** `mnfcgi_app_error`, then `k`; `status` is the formatted "code text". */
  function ErrorThen(status: bytes, k: Prog): Prog {
    Guarded(FieldOp(Plain, CONTENT_LENGTH, Some(ZERO)), StatusThen(status, k), k)
  }

  function StatusThen(status: bytes, k: Prog): Prog {
    Guarded(FieldOp(Override, STATUS, Some(status)), Guarded(HeadersEndOp, Guarded(FinalizeOp, k, k), k), k)
  }

  /** `mnfcgi_app_redir`, then `k`. */
  function RedirThen(status: bytes, uri: bytes, k: Prog): Prog {
    Guarded(FieldOp(Plain, CONTENT_LENGTH, Some(ZERO)),
            Guarded(FieldOp(Plain, LOCATION, Some(uri)), StatusThen(status, k), k), k)
  }

  /** The guards that send the response: fields allowed, nothing set that the response
      sets plainly, and the request still open. */
  predicate CanAnswer(q: Req) {
    q.state <= HEADERS_ALLOWED && !q.complete && Lacks(q.headers, CONTENT_LENGTH)
  }

  predicate Lacks(t: Table, name: bytes) {
    forall j :: 0 <= j < |t| ==> t[j].name != name
  }

  /** What these names are, and those of section 4.1 of the FastCGI Specification. */
  lemma NamesSpelled()
    ensures CONTENT_LENGTH == Ascii("Content-Length") && LOCATION == Ascii("Location") && STATUS == Ascii("Status")
    ensures ZERO == Ascii("0") && MAX_CONNS == Ascii("FCGI_MAX_CONNS") && MAX_REQS == Ascii("FCGI_MAX_REQS")
    ensures MPXS_CONNS == Ascii("FCGI_MPXS_CONNS")
  {
  }

  lemma StatusFinalizes(link: Link, o: Out, q: Req, status: bytes)
    requires q.state <= HEADERS_ALLOWED
    ensures var r := Run(link, o, q, StatusThen(status, Return(0))).req;
            && (!q.complete ==> r.complete && r.finalized)
            && (q.complete ==> r.finalized == q.finalized)
  {
    var a := Do(link, o, q, FieldOp(Override, STATUS, Some(status)));
    assert a.code == Ok && a.req.complete == q.complete && a.req.finalized == q.finalized && a.req.state == q.state;
    var last := Guarded(FinalizeOp, Return(0), Return(0));
    RunGuarded(link, o, q, FieldOp(Override, STATUS, Some(status)), Guarded(HeadersEndOp, last, Return(0)), Return(0));
    RunGuarded(link, a.out, a.req, HeadersEndOp, last, Return(0));
    if !q.complete {
      PutPiecesKeeps(a.out, a.req.(headers := []), PackAll(a.req.headers) + [CRLF]);
      var b := EndHeaders(a.out, a.req);
      RunGuarded(link, b.out, b.req, FinalizeOp, Return(0), Return(0));
    }
  }

  /** `mnfcgi_app_error` finalizes an open request exactly if fields are still allowed and
      no Content-Length is set; otherwise it gives up without answering. */
  lemma ErrorAnswersIff(link: Link, o: Out, q: Req, status: bytes)
    requires !q.complete
    ensures Run(link, o, q, ErrorThen(status, Return(0))).req.complete <==> CanAnswer(q)
  {
    var a := Do(link, o, q, FieldOp(Plain, CONTENT_LENGTH, Some(ZERO)));
    if CanAnswer(q) {
      StatusFinalizes(link, a.out, a.req, status);
    }
  }

  /** What a response puts out that sends these fields: the packed headers, the empty line,
      the empty STDOUT and END_REQUEST. */
  function Response(rid: u16, t: Table): seq<OutRecord> {
    StdoutRecords(rid, PackAll(t) + [[13, 10]]) + [StdoutOut(rid, Chunk([], 0)), EndOut(rid, 0, 0)]
  }

  /** An error response: the request's fields with Content-Length behind them, and Status in
      the place of the first one it had, or last. */
  lemma ErrorSends(link: Link, o: Out, q: Req, status: bytes)
    requires CanAnswer(q)
    ensures var length, last := Field(CONTENT_LENGTH, Some(ZERO)), Field(STATUS, Some(status));
            var r := Run(link, o, q, ErrorThen(status, Return(0))).req;
            && r.sent == q.sent + Response(q.begin.rid, SetFirst(q.headers + [length], last))
            && (Lacks(q.headers, STATUS) ==> r.sent == q.sent + Response(q.begin.rid, q.headers + [length, last]))
  {
    var a := Do(link, o, q, FieldOp(Plain, CONTENT_LENGTH, Some(ZERO)));
    assert a.req == q.(headers := q.headers + [Field(CONTENT_LENGTH, Some(ZERO))]);
    RunGuarded(link, o, q, FieldOp(Plain, CONTENT_LENGTH, Some(ZERO)), StatusThen(status, Return(0)), Return(0));
    StatusSends(link, a.out, a.req, status);
    if Lacks(q.headers, STATUS) {
      SetNew(a.req.headers, Field(STATUS, Some(status)));
      assert a.req.headers + [Field(STATUS, Some(status))]
          == q.headers + [Field(CONTENT_LENGTH, Some(ZERO)), Field(STATUS, Some(status))];
    }
  }

  lemma StatusSends(link: Link, o: Out, q: Req, status: bytes)
    requires q.state <= HEADERS_ALLOWED && !q.complete
    ensures Run(link, o, q, StatusThen(status, Return(0))).req.sent
         == q.sent + Response(q.begin.rid, SetFirst(q.headers, Field(STATUS, Some(status))))
  {
    hide Finalize, PackAll, StdoutRecords, Lines, Sendable, SetFirst;
    var a := Do(link, o, q, FieldOp(Override, STATUS, Some(status)));
    OverrideSets(q.headers, q.state, Field(STATUS, Some(status)));
    var last := Guarded(FinalizeOp, Return(0), Return(0));
    RunGuarded(link, o, q, FieldOp(Override, STATUS, Some(status)), Guarded(HeadersEndOp, last, Return(0)), Return(0));
    RunGuarded(link, a.out, a.req, HeadersEndOp, last, Return(0));
    EndHeadersPutsBlock(a.out, a.req);
    PutPiecesKeeps(a.out, a.req.(headers := []), PackAll(a.req.headers) + [CRLF]);
    var b := EndHeaders(a.out, a.req);
    RunGuarded(link, b.out, b.req, FinalizeOp, Return(0), Return(0));
    FinalizeSends(link, b.out, b.req);
  }

  lemma FinalizeSends(link: Link, o: Out, q: Req)
    requires !q.complete
    ensures Finalize(link, o, q).req.sent == q.sent + [EmptyStdout(q), EndOut(q.begin.rid, REQUEST_COMPLETE, 0)]
  {
    assert q.sent + [EmptyStdout(q)] + [EndOut(q.begin.rid, REQUEST_COMPLETE, 0)]
        == q.sent + [EmptyStdout(q), EndOut(q.begin.rid, REQUEST_COMPLETE, 0)];
  }

  /** A redirect needs Location to be unset as well. */
  lemma RedirAnswersIff(link: Link, o: Out, q: Req, status: bytes, uri: bytes)
    requires !q.complete
    ensures Run(link, o, q, RedirThen(status, uri, Return(0))).req.complete
       <==> CanAnswer(q) && Lacks(q.headers, LOCATION)
  {
    var a := Do(link, o, q, FieldOp(Plain, CONTENT_LENGTH, Some(ZERO)));
    var next := Guarded(FieldOp(Plain, LOCATION, Some(uri)), StatusThen(status, Return(0)), Return(0));
    RunGuarded(link, o, q, FieldOp(Plain, CONTENT_LENGTH, Some(ZERO)), next, Return(0));
    RunGuarded(link, a.out, a.req, FieldOp(Plain, LOCATION, Some(uri)), StatusThen(status, Return(0)), Return(0));
    if CanAnswer(q) {
      FindOther(q.headers, Field(CONTENT_LENGTH, Some(ZERO)), LOCATION);
      var b := Do(link, a.out, a.req, FieldOp(Plain, LOCATION, Some(uri)));
      if Find(q.headers, LOCATION) == |q.headers| {
        StatusFinalizes(link, b.out, b.req, status);
      }
    }
  }

  /** A redirect: Content-Length and Location behind the request's fields, and Status. */
  lemma RedirSends(link: Link, o: Out, q: Req, status: bytes, uri: bytes)
    requires CanAnswer(q) && Lacks(q.headers, LOCATION)
    ensures var length, target := Field(CONTENT_LENGTH, Some(ZERO)), Field(LOCATION, Some(uri));
            var last := Field(STATUS, Some(status));
            var r := Run(link, o, q, RedirThen(status, uri, Return(0))).req;
            && r.sent == q.sent + Response(q.begin.rid, SetFirst(q.headers + [length, target], last))
            && (Lacks(q.headers, STATUS) ==>
                  r.sent == q.sent + Response(q.begin.rid, q.headers + [length, target, last]))
  {
    hide StdoutRecords, PackAll, SetFirst;
    var length, target, last := Field(CONTENT_LENGTH, Some(ZERO)), Field(LOCATION, Some(uri)), Field(STATUS, Some(status));
    var a := Do(link, o, q, FieldOp(Plain, CONTENT_LENGTH, Some(ZERO)));
    var next := Guarded(FieldOp(Plain, LOCATION, Some(uri)), StatusThen(status, Return(0)), Return(0));
    RunGuarded(link, o, q, FieldOp(Plain, CONTENT_LENGTH, Some(ZERO)), next, Return(0));
    RunGuarded(link, a.out, a.req, FieldOp(Plain, LOCATION, Some(uri)), StatusThen(status, Return(0)), Return(0));
    FindOther(q.headers, length, LOCATION);
    var b := Do(link, a.out, a.req, FieldOp(Plain, LOCATION, Some(uri)));
    assert q.headers + [length] + [target] == q.headers + [length, target];
    assert b.req == q.(headers := q.headers + [length, target]);
    StatusSends(link, b.out, b.req, status);
    if Lacks(q.headers, STATUS) {
      SetNew(b.req.headers, last);
      assert b.req.headers + [last] == q.headers + [length, target, last];
    }
  }

  lemma FindOther(t: Table, f: Field, name: bytes)
    requires f.name != name
    ensures Find(t + [f], name) == |t + [f]| <==> Find(t, name) == |t|
  {
    CountZero(t, name);
    CountZero(t + [f], name);
    CountAppend(t, f, name);
  }
}
