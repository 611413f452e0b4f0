/** Runs in which the code falls short, each at an input. */
module FailingRuns {
  import opened Bytes
  import opened Wire
  import opened Headers
  import opened Engine
  import opened App
  import DispatchProofs
  import FeedProofs
  import HeaderProofs
  import OwnershipProofs
  import PairProofs
  import PhaseProofs
  import RunProofs
  import Sessions
  import StreamProofs

  const EMPTY_LINE: Chunk := Chunk(CRLF, 2)

  // -------------------------------------------------- the empty line, twice

  /** An application that ends the headers whenever body data arrives. */
  function EndsOnData(): Callbacks {
    Callbacks(None, None, Some((q: Req) => Then(HeadersEndOp, Return(0))), None, None, -1, -1, -1)
  }

  function BeginEvent(rid: u16): Event {
    Event(Record(rid, 8, 0, BeginBody(RESPONDER, 0)), [])
  }

  /** The record that ends the parameters. */
  function ParamsEnd(rid: u16): Event {
    Event(Record(rid, 0, 0, ParamsBody(map[])), [])
  }

  function StdinByte(rid: u16, x: byte): Event {
    Event(Record(rid, 1, 0, StdinBody(0, 1)), [x])
  }

  /** One request in the table: open, without headers, in a state, with what it has put out. */
  ghost predicate Alone(c: Conn, rid: u16, state: int, sent: seq<OutRecord>) {
    && c.table.Keys == {rid}
    && var q := c.table[rid].req;
       q.begin.rid == rid && !q.complete && q.headers == [] && q.state == state && q.sent == sent
  }

  /** A queued record whose callback succeeds and leaves its request open. */
  lemma StreamStays(cfg: Config, link: Link, c: Conn, ev: Event, r: Returned)
    requires ev.rec.rid in c.table && IsStream(ev.rec.body)
    requires r == RunHandler(StreamHandler(cfg, ev.rec.body), link, c.out, Enqueue(c.table[ev.rec.rid].req, ev.rec), ev)
    requires r.rc >= 0 && !r.req.complete
    ensures var st := StepConn(cfg, link, c, ev);
            && st.status == Running && st.conn.table.Keys == c.table.Keys
            && st.conn.table[ev.rec.rid].req == r.req
  {
    hide RunHandler;
    var s := c.table[ev.rec.rid];
    assert Served(StreamHandler(cfg, ev.rec.body), link, c.out, Enqueue(s.req, ev.rec), ev) == r;
  }

  lemma Begins(app: Callbacks, build: Build, link: Link, rid: u16)
    requires app.beginRequest.None?
    ensures var st := StepConn(ConfigOf(app, [], [], build), link, START, BeginEvent(rid));
            st.status == Running && Alone(st.conn, rid, BEGIN, [])
  {
    var ev := BeginEvent(rid);
    BeginAdapter(app, link, START.out, NewReq(ev.rec), ev);
  }

  /** The end of the parameters sets the phase to HEADERS_ALLOWED, whatever it was. */
  lemma ParamsEnds(app: Callbacks, build: Build, link: Link, c: Conn, rid: u16, state: int, sent: seq<OutRecord>)
    requires app.paramsComplete.None? && Alone(c, rid, state, sent)
    ensures var st := StepConn(ConfigOf(app, [], [], build), link, c, ParamsEnd(rid));
            st.status == Running && Alone(st.conn, rid, HEADERS_ALLOWED, sent)
  {
    var ev := ParamsEnd(rid);
    var q := Enqueue(c.table[rid].req, ev.rec);
    ParamsAdapter(app, link, c.out, q, ev);
    StreamStays(ConfigOf(app, [], [], build), link, c, ev, Run(link, c.out, q, ParamsHandler(app)(ev, q)));
  }

  lemma DataEnds(build: Build, link: Link, c: Conn, rid: u16, x: byte, sent: seq<OutRecord>)
    requires Alone(c, rid, HEADERS_ALLOWED, sent)
    ensures var st := StepConn(ConfigOf(EndsOnData(), [], [], build), link, c, StdinByte(rid, x));
            st.status == Running && Alone(st.conn, rid, HEADERS_END, sent + [StdoutOut(rid, EMPTY_LINE)])
  {
    var ev := StdinByte(rid, x);
    var q := Enqueue(c.table[rid].req, ev.rec);
    StdinAdapter(EndsOnData(), link, c.out, q, ev);
    RunThen(link, c.out, q, HeadersEndOp, Return(0));
    BareEnd(c.out, q);
    StreamStays(ConfigOf(EndsOnData(), [], [], build), link, c, ev, Run(link, c.out, q, StdinHandler(EndsOnData())(ev, q)));
  }

  /** Ending the headers of an empty table puts out the empty line and nothing else. */
  lemma BareEnd(o: Out, q: Req)
    requires !q.complete && q.headers == [] && q.state <= HEADERS_ALLOWED
    ensures var r := EndHeaders(o, q).req;
            r == q.(state := HEADERS_END, sent := q.sent + [StdoutOut(q.begin.rid, EMPTY_LINE)])
  {
    assert q.(headers := []) == q && PackAll([]) + [CRLF] == [CRLF] && [CRLF][1..] == [];
    var a := PutOwn(o, q, StdoutOut(q.begin.rid, Chunk(CRLF, |CRLF|)));
    assert PutPieces(a.out, a.req, []) == Ran(a.out, a.req, Headers.Ok);
  }

  lemma Extends(cfg: Config, link: Link, evs: seq<Event>, ev: Event, c: Conn)
    requires RunConn(cfg, link, START, evs) == Stepped(c, Running)
    ensures RunConn(cfg, link, START, evs + [ev]) == StepConn(cfg, link, c, ev)
  {
    RunProofs.RunSnoc(cfg, link, START, evs, ev);
  }

  /** BEGIN_REQUEST, the end of the parameters, a byte of body, a second end of the
      parameters, another byte: the callback ends the headers at both bytes, and the request,
      still open, has put out two empty lines. */
  lemma TwoEmptyLines(build: Build, link: Link, rid: u16, x: byte, y: byte)
    ensures var s := RunConn(ConfigOf(EndsOnData(), [], [], build), link, START,
                             [BeginEvent(rid), ParamsEnd(rid), StdinByte(rid, x), ParamsEnd(rid), StdinByte(rid, y)]);
            && s.status == Running && rid in s.conn.table && !s.conn.table[rid].req.complete
            && s.conn.table[rid].req.sent == [StdoutOut(rid, EMPTY_LINE), StdoutOut(rid, EMPTY_LINE)]
  {
    hide StepConn;
    var app, cfg := EndsOnData(), ConfigOf(EndsOnData(), [], [], build);
    var one := [StdoutOut(rid, EMPTY_LINE)];
    var c1 := StepConn(cfg, link, START, BeginEvent(rid)).conn;
    Begins(app, build, link, rid);
    Extends(cfg, link, [], BeginEvent(rid), START);
    var c2 := StepConn(cfg, link, c1, ParamsEnd(rid)).conn;
    ParamsEnds(app, build, link, c1, rid, BEGIN, []);
    Extends(cfg, link, [] + [BeginEvent(rid)], ParamsEnd(rid), c1);
    var c3 := StepConn(cfg, link, c2, StdinByte(rid, x)).conn;
    DataEnds(build, link, c2, rid, x, []);
    Extends(cfg, link, [] + [BeginEvent(rid)] + [ParamsEnd(rid)], StdinByte(rid, x), c2);
    assert [] + [StdoutOut(rid, EMPTY_LINE)] == one;
    var c4 := StepConn(cfg, link, c3, ParamsEnd(rid)).conn;
    ParamsEnds(app, build, link, c3, rid, HEADERS_END, one);
    Extends(cfg, link, [] + [BeginEvent(rid)] + [ParamsEnd(rid)] + [StdinByte(rid, x)], ParamsEnd(rid), c3);
    DataEnds(build, link, c4, rid, y, one);
    Extends(cfg, link, [] + [BeginEvent(rid)] + [ParamsEnd(rid)] + [StdinByte(rid, x)] + [ParamsEnd(rid)],
            StdinByte(rid, y), c4);
    assert [] + [BeginEvent(rid)] + [ParamsEnd(rid)] + [StdinByte(rid, x)] + [ParamsEnd(rid)] + [StdinByte(rid, y)]
        == [BeginEvent(rid), ParamsEnd(rid), StdinByte(rid, x), ParamsEnd(rid), StdinByte(rid, y)];
    assert one + [StdoutOut(rid, EMPTY_LINE)] == [StdoutOut(rid, EMPTY_LINE), StdoutOut(rid, EMPTY_LINE)];
  }

  // ---------------------------------------------------- an answered GET_VALUES

  predicate Known(name: bytes) {
    name == MAX_CONNS || name == MAX_REQS || name == MPXS_CONNS
  }

  /** With assertions a query stops the process if and only if it asks for one of the three
      names the library knows, or brings a value of its own. */
  lemma CrashIff(cfg: Config, link: Link, c: Conn, ev: Event)
    ensures StepConn(cfg, link, c, ev).status == Crashed
       <==> cfg.build.Debug? && ev.rec.body.ValuesBody?
            && exists k :: k in ev.rec.body.values && (Known(k) || ev.rec.body.values[k].Some?)
  {
    hide Answered;
    if ev.rec.body.ValuesBody? {
      var asked := ev.rec.body.values;
      forall k ensures k in asked <==> k in Answered(cfg, asked)
               ensures k in asked ==> (Answered(cfg, asked)[k].Some? <==> Known(k) || asked[k].Some?)
      {
        AnsweredSome(cfg, asked, k);
      }
    } else {
      NoCrash(cfg, link, c, ev);
    }
  }

  lemma AnsweredSome(cfg: Config, asked: map<bytes, Option<bytes>>, k: bytes)
    ensures k in asked <==> k in Answered(cfg, asked)
    ensures k in asked ==> (Answered(cfg, asked)[k].Some? <==> Known(k) || asked[k].Some?)
  {
    DispatchProofs.AnsweredNames(cfg, asked, k);
  }

  lemma NoCrash(cfg: Config, link: Link, c: Conn, ev: Event)
    requires !ev.rec.body.ValuesBody?
    ensures StepConn(cfg, link, c, ev).status != Crashed
  {
  }

  /** A client that asks whether connections are multiplexed stops the process, whatever
      state the connection is in. */
  lemma MpxsQueryStops(cfg: Config, link: Link, c: Conn)
    requires cfg.build.Debug?
    ensures StepConn(cfg, link, c, Event(Record(0, 17, 0, ValuesBody(map[MPXS_CONNS := None])), [])).status == Crashed
  {
    var ev := Event(Record(0, 17, 0, ValuesBody(map[MPXS_CONNS := None])), []);
    assert MPXS_CONNS in ev.rec.body.values && Known(MPXS_CONNS);
    CrashIff(cfg, link, c, ev);
  }

  /** The query as a client sends it. */
  function MpxsQuery(): bytes {
    [1, 9, 0, 0, 0, 17, 0, 0, 15, 0] + Ascii("FCGI_MPXS_CONNS")
  }

  function MpxsItem(): StreamProofs.RawItem {
    StreamProofs.RawItem.Item(0, StreamProofs.Values([Pair(MPXS_CONNS, [])]), [], 0)
  }

  lemma MpxsLayout()
    ensures var i := MpxsItem(); i.Sized() && i.WellFormed(AsCoded) && StreamProofs.Layout(i) == MpxsQuery()
    ensures ValuesMap([Pair(MPXS_CONNS, [])]) == map[MPXS_CONNS := None]
  {
    hide PairProofs.EncodePairs, PairProofs.Encodable, PairProofs.AllShort;
    NamesSpelled();
    var p := Pair(MPXS_CONNS, []);
    assert [p][1..] == [] && [p][..0] == [];
    OnePair();
    assert Short(17) == [0, 17] && Short(0) == [0, 0];
  }

  lemma OnePair()
    ensures PairProofs.EncodePairs(0x80, [Pair(MPXS_CONNS, [])]) == [15, 0] + MPXS_CONNS
    ensures PairProofs.Encodable([Pair(MPXS_CONNS, [])]) && PairProofs.AllShort(0x80, [Pair(MPXS_CONNS, [])])
  {
    var p := Pair(MPXS_CONNS, []);
    assert [p][1..] == [];
  }

  /** Whatever comes with it, before or behind, and however it arrives: with assertions the
      session is over when the query is next in line. */
  lemma MpxsSessionStops(cfg: Config, link: Link, c: Conn, s: Input)
    requires cfg.build.Debug? && Holds(Whole(s), s.pos, MpxsQuery())
    ensures var r := Sessions.Serve(cfg, link, c, s); r.exit == Sessions.Asserted && |r.events| == 1
  {
    hide Holds, StepConn, ParseInput, StreamProofs.Layout, MpxsQuery;
    MpxsLayout();
    var item: StreamProofs.Item := MpxsItem();
    FeedProofs.ItemTakes(s, item);
    var p := ParseInput(AsCoded, s);
    var ev := EventAt(p.input.mem, p.parsed.rec);
    assert ev.rec.body == ValuesBody(map[MPXS_CONNS := None]);
    CrashIff(cfg, link, c, ev);
    assert MPXS_CONNS in ev.rec.body.values && Known(MPXS_CONNS);
    Sessions.ServeStops(cfg, link, c, s, ev);
  }

  /** Without assertions such a query is answered with a frame shorter than it says, which
      swallows bytes of the next one. */
  lemma AnswerMalformed(cfg: Config, link: Link, c: Conn, ev: Event)
    requires cfg.build.Release? && ev.rec.body.ValuesBody?
    requires PairProofs.Present(cfg.build.order(Answered(cfg, ev.rec.body.values))) != []
    requires StepConn(cfg, link, c, ev).status == Running
    ensures var log := StepConn(cfg, link, c, ev).conn.out.log;
            && log[..|log| - 1] == c.out.log
            && var u := log[|log| - 1].bytes; |u| < HEADER_LEN + RszAt(u, 0) + At(u, 6)
  {
    hide Answered;
    var rec := ResultOut(ev.rec.rid, cfg.build.order(Answered(cfg, ev.rec.body.values)));
    PairProofs.ResultRendersIffEmpty(rec, c.out.End());
    StreamProofs.UncheckedFrameIffEmpty(rec, c.out.End());
  }

  /** And it ends the connection, though every write succeeds, once the output buffer is long
      enough: the number reckoned is at least the position it stands at. */
  lemma AnswerEndsConnection(cfg: Config, link: Link, c: Conn, ev: Event)
    requires cfg.build.Release? && ev.rec.body.ValuesBody? && c.out.End() >= MAX_PAYLOAD
    requires PairProofs.Present(cfg.build.order(Answered(cfg, ev.rec.body.values))) != []
    ensures StepConn(cfg, link, c, ev).status == Stopped
  {
    hide Answered;
    var rec := ResultOut(ev.rec.rid, cfg.build.order(Answered(cfg, ev.rec.body.values)));
    PairProofs.ResultRendersIffEmpty(rec, c.out.End());
    PairProofs.RenderedPairs(rec.values, c.out.End() + HEADER_LEN);
  }

  // --------------------------------------------- records and entries too often

  /** A BEGIN_REQUEST callback that fails. */
  function Fails(): Handler {
    (ev: Event, q: Req) => Return(-1)
  }

  /** On a link that never delivers: the request is destroyed with its record, and so is the
      record by the error exit. */
  lemma RecordFreedTwice(build: Build)
    ensures var cfg := Config(Some(Fails()), None, None, None, None, [], [], build);
            var s := RunConn(cfg, (n: nat) => false, START, [BeginEvent(1)]);
            s.status == Stopped && s.conn.freed == [0, 0] && OwnershipProofs.Places(s.conn, 0) == 2
  {
    hide OwnershipProofs.HeldBelow, OwnershipProofs.Places;
    var cfg := Config(Some(Fails()), None, None, None, None, [], [], build);
    RunProofs.RunOne(cfg, (n: nat) => false, START, BeginEvent(1));
    TwiceFreed(build);
    TwicePlaced(StepConn(cfg, (n: nat) => false, START, BeginEvent(1)).conn);
  }

  lemma TwiceFreed(build: Build)
    ensures var cfg := Config(Some(Fails()), None, None, None, None, [], [], build);
            var s := StepConn(cfg, (n: nat) => false, START, BeginEvent(1));
            s.status == Stopped && s.conn.freed == [0, 0] && s.conn.table == map[]
  {
    assert NewIds(0).All() == [0];
  }

  lemma TwicePlaced(c: Conn)
    requires c.freed == [0, 0] && c.table == map[]
    ensures OwnershipProofs.Places(c, 0) == 2
  {
    OwnershipProofs.EmptyHeld(0x1_0000, 0);
    assert [0, 0][1..] == [0] && [0][1..] == [];
  }

  /** A STDIN callback that fails leaves the arm with an entry it has deleted. */
  lemma EntryUsedAfterFree(build: Build, link: Link)
    ensures var s := RunConn(Config(None, None, Some(Fails()), None, None, [], [], build), link, START,
                             [BeginEvent(1), StdinByte(1, 0)]);
            s.conn.dangling && 1 !in s.conn.table
  {
  }

  // ------------------------------------------------------ STDOUT closed early

  /** The shortest name that is too long, for a header without a value. */
  function LongName(): (r: bytes)
    ensures |r| == 0x7ff6
  {
    seq<byte>(0x7ff6, (i: nat) => 0x41)
  }

  /** One too long header and nothing else: the first STDOUT record of the response is the
      empty one that closes the stream, and the empty line comes behind it. */
  lemma ClosedEarly(link: Link, o: Out, q: Req)
    requires q.headers == [] && q.state <= HEADERS_ALLOWED && !q.complete
    ensures var p := Then(FieldOp(Plain, LongName(), None), Then(HeadersEndOp, Return(0)));
            Run(link, o, q, p).req.sent
            == q.sent + [StdoutOut(q.begin.rid, Chunk([], 0)), StdoutOut(q.begin.rid, EMPTY_LINE)]
  {
    var f := Field(LongName(), None);
    var q' := q.(headers := [f]);
    RunThen(link, o, q, FieldOp(Plain, LongName(), None), Then(HeadersEndOp, Return(0)));
    assert [] + [f] == [f] && Do(link, o, q, FieldOp(Plain, LongName(), None)).req == q';
    RunThen(link, o, q', HeadersEndOp, Return(0));
    OnlyTooLong(f);
    EndHeadersPutsBlock(o, q');
    assert StdoutRecords(q.begin.rid, [[], CRLF])
        == [StdoutOut(q.begin.rid, Chunk([], 0))] + StdoutRecords(q.begin.rid, [CRLF]);
    assert [[], CRLF][1..] == [CRLF] && [CRLF][1..] == [];
    assert StdoutRecords(q.begin.rid, [CRLF]) == [StdoutOut(q.begin.rid, Chunk(CRLF, |CRLF|))] + [];
  }

  lemma OnlyTooLong(f: Field)
    requires f.value.None? && |f.name| >= 0x7ff6
    ensures PackAll([f]) + [CRLF] == [[], CRLF]
  {
    assert [f][1..] == [];
    assert Pack([f], 0) == Pack([], 0) == Packed([], []);
    assert PackAll([f]) == [[]] + PackAll([]);
  }
}
