/** A whole connection as a function of what the peer sends: records are parsed off the input
    and dispatched, and a dispatch that rewinds the shared input buffer changes what is
    parsed next. `Connections.Connection.Handle` runs it. */
module Sessions {
  import opened Bytes
  import opened Wire
  import opened Engine
  import opened ChunkProofs
  import opened RequestProofs
  import DispatchProofs
  import QueueProofs
  import RunProofs

  /** How `_mnfcgi_handle_socket` ends: by the error exit on a failed parse or a failed
      write, or with the process, on an assertion or an incoming UNKNOWN_TYPE record. */
  datatype Exit = ParseFailed | WriteFailed | Asserted | Exited

  function Rewound(s: Input): Input {
    s.(pos := 0, eod := 0)
  }

  function Unread(s: Input): nat {
    if s.pos < s.eod then s.eod - s.pos else 0
  }

  /** The input after a dispatch, and the unread bytes it dropped. */
  function After(s: Input, c: Conn, c': Conn): Input {
    if c'.out.inRewinds == c.out.inRewinds then s else Rewound(s)
  }

  function Dropped(s: Input, c: Conn, c': Conn): nat {
    if c'.out.inRewinds == c.out.inRewinds then 0 else Unread(s)
  }

  datatype Session = Session(conn: Conn, input: Input, events: seq<Event>, dropped: nat, exit: Exit)

  /** The loop, from a connection and an input on. */
  ghost function Serve(cfg: Config, link: Link, c: Conn, s: Input): Session
    decreases Left(s)
  {
    var p := ParseInput(AsCoded, s);
    match p.parsed
    case Killed => Session(c, p.input, [], 0, Exited)
    case Bad(_) => Session(Hangup(c), Rewound(p.input), [], 0, ParseFailed)
    case Good(rec, _) =>
      ParseShrinks(AsCoded, s);
      var ev := EventAt(p.input.mem, rec);
      var st := StepConn(cfg, link, c, ev);
      var s', d := After(p.input, c, st.conn), Dropped(p.input, c, st.conn);
      match st.status
      case Stopped => Session(st.conn, s', [ev], d, WriteFailed)
      case Crashed => Session(st.conn, s', [ev], d, Asserted)
      case Running =>
        var r := Serve(cfg, link, st.conn, s');
        r.(events := [ev] + r.events, dropped := d + r.dropped)
  }

  /** A turn of the loop that goes on: `ev` is parsed at `s` and takes `c` to `c'`. */
  ghost predicate Turn(cfg: Config, link: Link, c: Conn, s: Input, ev: Event, c': Conn, s': Input, d: nat) {
    var p := ParseInput(AsCoded, s);
    && p.parsed.Good? && ev == EventAt(p.input.mem, p.parsed.rec)
    && StepConn(cfg, link, c, ev) == Stepped(c', Running)
    && s' == After(p.input, c, c') && d == Dropped(p.input, c, c')
  }

  lemma ServeTurn(cfg: Config, link: Link, c: Conn, s: Input, ev: Event, c': Conn, s': Input, d: nat)
    requires Turn(cfg, link, c, s, ev, c', s', d)
    ensures var r := Serve(cfg, link, c', s');
            Serve(cfg, link, c, s) == r.(events := [ev] + r.events, dropped := d + r.dropped)
  {
  }

  /** A turn that is the last one. */
  lemma ServeStops(cfg: Config, link: Link, c: Conn, s: Input, ev: Event)
    requires var p := ParseInput(AsCoded, s); p.parsed.Good? && ev == EventAt(p.input.mem, p.parsed.rec)
    requires StepConn(cfg, link, c, ev).status != Running
    ensures var p, st := ParseInput(AsCoded, s), StepConn(cfg, link, c, ev);
            Serve(cfg, link, c, s) == Session(st.conn, After(p.input, c, st.conn), [ev], Dropped(p.input, c, st.conn),
                                              if st.status == Stopped then WriteFailed else Asserted)
  {
  }

  lemma ServeGivesUp(cfg: Config, link: Link, c: Conn, s: Input)
    requires !ParseInput(AsCoded, s).parsed.Good?
    ensures var p := ParseInput(AsCoded, s);
            Serve(cfg, link, c, s) == if p.parsed.Killed? then Session(c, p.input, [], 0, Exited)
                                      else Session(Hangup(c), Rewound(p.input), [], 0, ParseFailed)
  {
  }

  /** The session of `all` begins with `evs`, dropped `d` bytes, and goes on from here. */
  ghost predicate Begins(cfg: Config, link: Link, all: Input, evs: seq<Event>, d: nat, c: Conn, s: Input) {
    var r := Serve(cfg, link, c, s);
    Serve(cfg, link, START, all) == r.(events := evs + r.events, dropped := d + r.dropped)
  }

  lemma BeginsTurn(cfg: Config, link: Link, all: Input, evs: seq<Event>, d: nat, c: Conn, s: Input,
                   ev: Event, c': Conn, s': Input, d': nat)
    requires Begins(cfg, link, all, evs, d, c, s) && Turn(cfg, link, c, s, ev, c', s', d')
    ensures Begins(cfg, link, all, evs + [ev], d + d', c', s')
  {
    ServeTurn(cfg, link, c, s, ev, c', s', d');
    var r := Serve(cfg, link, c', s');
    assert evs + ([ev] + r.events) == evs + [ev] + r.events;
  }

  lemma BeginsEnds(cfg: Config, link: Link, all: Input, evs: seq<Event>, d: nat, c: Conn, s: Input, last: Session)
    requires Begins(cfg, link, all, evs, d, c, s) && Serve(cfg, link, c, s) == last
    ensures Serve(cfg, link, START, all) == last.(events := evs + last.events, dropped := d + last.dropped)
  {
  }

  /** The state a session leaves is that of the run over the records it dispatched. */
  ghost predicate LeftBy(run: Stepped, r: Session) {
    match r.exit
    case ParseFailed => run.status == Running && r.conn == Hangup(run.conn)
    case WriteFailed => run.status == Stopped && r.conn == run.conn
    case Asserted => run.status == Crashed && r.conn == run.conn
    case Exited => run.status == Running && r.conn == run.conn
  }

  lemma {:induction false} ServeRuns(cfg: Config, link: Link, c: Conn, s: Input)
    ensures var r := Serve(cfg, link, c, s);
            LeftBy(RunConn(cfg, link, c, r.events), r) && QueueProofs.AllDispatched(cfg, link, c, r.events)
    decreases Left(s)
  {
    var p := ParseInput(AsCoded, s);
    if p.parsed.Good? {
      ParseShrinks(AsCoded, s);
      var ev := EventAt(p.input.mem, p.parsed.rec);
      var st := StepConn(cfg, link, c, ev);
      if st.status == Running {
        var s' := After(p.input, c, st.conn);
        ServeRuns(cfg, link, st.conn, s');
        var evs := Serve(cfg, link, st.conn, s').events;
        RunProofs.RunCons(cfg, link, c, ev, evs);
        assert ([ev] + evs)[1..] == evs;
      } else {
        RunProofs.RunOne(cfg, link, c, ev);
      }
    }
  }

  /** Whatever a dispatch does to the input buffer, it counts. */
  lemma DispatchRewinds(cfg: Config, link: Link, o: Out, slot: Option<Slot>, ev: Event, id: nat)
    ensures o.inRewinds <= Dispatch(cfg, link, o, slot, ev, id).out.inRewinds
  {
    match ev.rec.body
    case BeginBody(_, _) =>
      var q := NewReq(ev.rec);
      DispatchProofs.ServedKeeps(cfg.beginParse, link, o, q, ev);
      HookRewinds(cfg, link, Served(cfg.beginParse, link, o, q, ev));
    case AbortBody =>
      if slot.Some? {
        var a := Abort(link, o, slot.value.req, 0);
        AbortKeeps(link, o, slot.value.req, 0);
        HookRewinds(cfg, link, Returned(a.out, a.req, 0));
      }
    case ParamsBody(_) => StreamRewinds(cfg, link, o, slot, ev, id);
    case StdinBody(_, _) => StreamRewinds(cfg, link, o, slot, ev, id);
    case DataBody(_, _) => StreamRewinds(cfg, link, o, slot, ev, id);
    case _ =>
  }

  lemma HookRewinds(cfg: Config, link: Link, r: Returned)
    ensures r.out.inRewinds <= EndHook(cfg, link, r.out, r.req).inRewinds
  {
    if cfg.endRender.Some? {
      RunKeeps(link, r.out, Wiped(r.req), cfg.endRender.value(Wiped(r.req)));
    }
  }

  lemma StreamRewinds(cfg: Config, link: Link, o: Out, slot: Option<Slot>, ev: Event, id: nat)
    requires IsStream(ev.rec.body)
    ensures o.inRewinds <= DispatchStream(cfg, link, o, slot, ev, id).out.inRewinds
  {
    if slot.Some? {
      var q, h := Enqueue(slot.value.req, ev.rec), StreamHandler(cfg, ev.rec.body);
      DispatchProofs.ServedKeeps(h, link, o, q, ev);
      HookRewinds(cfg, link, Served(h, link, o, q, ev));
    }
  }

  lemma StepRewinds(cfg: Config, link: Link, c: Conn, ev: Event)
    ensures c.out.inRewinds <= StepConn(cfg, link, c, ev).conn.out.inRewinds
  {
    DispatchRewinds(cfg, link, c.out, Lookup(c.table, ev.rec.rid), ev, c.seen);
  }

  /** Only an answer to GET_VALUES can stop the process, before anything else is touched. */
  lemma OnlyValuesCrash(cfg: Config, link: Link, o: Out, slot: Option<Slot>, ev: Event, id: nat)
    requires Dispatch(cfg, link, o, slot, ev, id).status == Crashed
    ensures ev.rec.body.ValuesBody? && Dispatch(cfg, link, o, slot, ev, id).out == o
  {
  }

  lemma CrashRewinds(cfg: Config, link: Link, c: Conn, ev: Event)
    requires StepConn(cfg, link, c, ev).status == Crashed
    ensures StepConn(cfg, link, c, ev).conn.out == c.out
  {
    hide Dispatch;
    OnlyValuesCrash(cfg, link, c.out, Lookup(c.table, ev.rec.rid), ev, c.seen);
  }

  // -------------------------------------------------------------------- ids

  lemma BodyId(t: LenTest, s: Input, h: Header)
    requires KnownType(h.ty) && InputBody(t, s, h).parsed.Good?
    ensures var rec := InputBody(t, s, h).parsed.rec; rec.rid == h.rid && (rec.body.ValuesBody? ==> h.ty == GET_VALUES)
  {
  }

  lemma ParsedId(t: LenTest, s: Input)
    requires ParseInput(t, s).parsed.Good?
    ensures var rec := ParseInput(t, s).parsed.rec; rec.body.ValuesBody? ==> rec.rid == 0
  {
    hide InputBody;
    var head := Fill(s, HEADER_LEN).input;
    BodyId(t, head.Moved(HEADER_LEN), HeaderAt(head.mem, s.pos));
  }

  /** Of the records a session dispatches only the id zero has queries. */
  lemma {:induction false} ServedIds(cfg: Config, link: Link, c: Conn, s: Input)
    ensures RunProofs.ParsedIds(Serve(cfg, link, c, s).events)
    decreases Left(s)
  {
    hide StepConn, ParseInput;
    var p := ParseInput(AsCoded, s);
    if p.parsed.Good? {
      ParseShrinks(AsCoded, s);
      ParsedId(AsCoded, s);
      var ev := EventAt(p.input.mem, p.parsed.rec);
      var st := StepConn(cfg, link, c, ev);
      if st.status == Running {
        var s', d := After(p.input, c, st.conn), Dropped(p.input, c, st.conn);
        ServeTurn(cfg, link, c, s, ev, st.conn, s', d);
        ServedIds(cfg, link, st.conn, s');
      } else {
        ServeStops(cfg, link, c, s, ev);
      }
    } else {
      ServeGivesUp(cfg, link, c, s);
    }
  }

  /** Multiplexing over a whole session, on any input and in any build: an id gets from it
      exactly the records it gets if only its own are dispatched. */
  lemma SessionMultiplexed(cfg: Config, link: Link, all: Input, rid: u16)
    requires AllWritesSucceed(link) && rid != 0 && Serve(cfg, link, START, all).exit == ParseFailed
    ensures var r := Serve(cfg, link, START, all);
            var alone := RunConn(cfg, link, START, RunProofs.Only(r.events, rid));
            && alone.status == Running
            && DispatchProofs.RidEntries(r.conn.out.log, rid) == DispatchProofs.RidEntries(alone.conn.out.log, rid)
  {
    hide Serve;
    ServeRuns(cfg, link, START, all);
    ServedIds(cfg, link, START, all);
    RunProofs.MultiplexingInvisible(cfg, link, Serve(cfg, link, START, all).events, rid);
  }
}
