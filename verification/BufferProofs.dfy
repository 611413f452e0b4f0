/** What becomes of queued bodies over a whole session: the input buffer after any number of
    chunks and rewinds, and exactly which queues of live requests still read what was sent. */
module BufferProofs {
  import opened Bytes
  import opened Wire
  import opened Engine
  import opened ChunkProofs
  import opened QueueProofs
  import opened Sessions
  import opened SessionProofs

  /** What happens to the buffer: a chunk is appended, or the end goes back to the start. */
  datatype Write = Arrived(chunk: bytes) | Restarted

  datatype Cells = Cells(mem: bytes, eod: nat)

  function Replay(mem: bytes, eod: nat, ws: seq<Write>): (r: Cells)
    requires eod <= |mem|
    ensures r.eod <= |r.mem|
    decreases |ws|
  {
    if ws == [] then Cells(mem, eod)
    else
      match ws[0]
      case Arrived(chunk) => Replay(Overwrite(mem, eod, chunk), eod + |chunk|, ws[1..])
      case Restarted => Replay(mem, 0, ws[1..])
  }

  /** The last byte written to cell `i`, if any was. */
  function LastWrite(eod: nat, ws: seq<Write>, i: nat): Option<byte>
    decreases |ws|
  {
    if ws == [] then None
    else
      match ws[0]
      case Arrived(chunk) =>
        var later := LastWrite(eod + |chunk|, ws[1..], i);
        if later.None? && eod <= i < eod + |chunk| then Some(chunk[i - eod]) else later
      case Restarted => LastWrite(0, ws[1..], i)
  }

  lemma CellOver(mem: bytes, eod: nat, chunk: bytes, i: nat)
    requires eod <= |mem|
    ensures At(Overwrite(mem, eod, chunk), i) == if eod <= i < eod + |chunk| then chunk[i - eod] else At(mem, i)
  {
    var m := Overwrite(mem, eod, chunk);
    if i < eod + |chunk| {
      assert m[..eod + |chunk|][i] == (mem[..eod] + chunk)[i];
    }
  }

  /** A cell holds the last byte written to it, or what it held before. */
  lemma {:induction false} ReplayCell(mem: bytes, eod: nat, ws: seq<Write>, i: nat)
    requires eod <= |mem|
    ensures At(Replay(mem, eod, ws).mem, i)
         == match LastWrite(eod, ws, i) case None => At(mem, i) case Some(b) => b
    decreases |ws|
  {
    if ws != [] {
      match ws[0]
      case Arrived(chunk) =>
        CellOver(mem, eod, chunk, i);
        ReplayCell(Overwrite(mem, eod, chunk), eod + |chunk|, ws[1..], i);
      case Restarted => ReplayCell(mem, 0, ws[1..], i);
    }
  }

  lemma {:induction false} ReplayJoin(mem: bytes, eod: nat, a: seq<Write>, b: seq<Write>)
    requires eod <= |mem|
    ensures Replay(mem, eod, a + b) == var r := Replay(mem, eod, a); Replay(r.mem, r.eod, b)
    decreases |a|
  {
    if a == [] {
      assert a + b == b;
    } else {
      assert (a + b)[0] == a[0] && (a + b)[1..] == a[1..] + b;
      match a[0]
      case Arrived(chunk) => ReplayJoin(Overwrite(mem, eod, chunk), eod + |chunk|, a[1..], b);
      case Restarted => ReplayJoin(mem, 0, a[1..], b);
    }
  }

  /** A range keeps its bytes over any number of chunks and rewinds if and only if every byte
      last written into it is the one that was there. */
  lemma RangeKeptIff(mem: bytes, eod: nat, ws: seq<Write>, rec: Record)
    requires eod <= |mem| && (rec.body.StdinBody? || rec.body.DataBody?) && rec.body.start <= rec.body.end
    ensures RangeBytes(Replay(mem, eod, ws).mem, rec) == RangeBytes(mem, rec) <==> Kept(mem, eod, ws, rec)
  {
    var m := Replay(mem, eod, ws).mem;
    forall i: nat ensures At(m, i) == At(mem, i) <==> LastWrite(eod, ws, i) in {None, Some(At(mem, i))} {
      ReplayCell(mem, eod, ws, i);
    }
    SameRangeIff(m, mem, rec);
  }

  ghost predicate Kept(mem: bytes, eod: nat, ws: seq<Write>, rec: Record)
    requires rec.body.StdinBody? || rec.body.DataBody?
  {
    forall i: nat :: rec.body.start <= i < rec.body.end ==> LastWrite(eod, ws, i) in {None, Some(At(mem, i))}
  }

  // ---------------------------------------------------------- turns of a session

  function Arrivals(feed: seq<bytes>, k: nat): seq<Write>
    requires k <= |feed|
  {
    seq(k, (i: nat) requires i < k => Arrived(feed[i]))
  }

  /** The input `s'` is `s` with some more chunks received. */
  ghost predicate Later(s: Input, s': Input) {
    && |s'.feed| <= |s.feed| && s'.feed == s.feed[|s.feed| - |s'.feed|..]
    && Replay(s.mem, s.eod, Arrivals(s.feed, |s.feed| - |s'.feed|)) == Cells(s'.mem, s'.eod)
  }

  lemma LaterSelf(s: Input, n: nat)
    ensures Later(s, s.Moved(n))
  {
  }

  lemma LaterTrans(a: Input, b: Input, c: Input)
    requires Later(a, b) && Later(b, c)
    ensures Later(a, c)
  {
    var x, y := Arrivals(a.feed, |a.feed| - |b.feed|), Arrivals(b.feed, |b.feed| - |c.feed|);
    assert x + y == Arrivals(a.feed, |a.feed| - |c.feed|);
    ReplayJoin(a.mem, a.eod, x, y);
  }

  lemma LaterOne(s: Input)
    requires s.feed != []
    ensures Later(s, Consumed(s))
  {
    assert Arrivals(s.feed, 1) == [Arrived(s.feed[0])] && [Arrived(s.feed[0])][1..] == [];
  }

  lemma {:induction false} FillLater(s: Input, need: nat)
    ensures Later(s, Fill(s, need).input)
    decreases |s.feed|
  {
    if s.Available() >= need || s.feed == [] {
      LaterSelf(s, 0);
      assert s.Moved(0) == s;
    } else {
      LaterOne(s);
      FillLater(Consumed(s), need);
      LaterTrans(s, Consumed(s), Fill(s, need).input);
    }
  }

  lemma MovedLater(s: Input, s': Input, n: nat)
    requires Later(s, s')
    ensures Later(s, s'.Moved(n))
  {
    LaterSelf(s', n);
    LaterTrans(s, s', s'.Moved(n));
  }

  lemma PaddingLater(s: Input, h: Header, content: Body, size: nat)
    ensures Later(s, InputPadding(s, h, content, size).input)
  {
    hide Fill, Later;
    LaterSelf(s, 0);
    assert s.Moved(0) == s;
    FillLater(s, h.psz);
    MovedLater(s, Fill(s, h.psz).input, h.psz);
  }

  lemma BodyLater(t: LenTest, s: Input, h: Header)
    requires KnownType(h.ty)
    ensures Later(s, InputBody(t, s, h).input)
  {
    hide Fill, Later, PayloadAt, InputPadding;
    FillLater(s, h.rsz);
    var body := Fill(s, h.rsz).input;
    match PayloadAt(t, body.mem, s.pos, h.ty, h.rsz)
    case Payload(content, size) =>
      MovedLater(s, body, size);
      PaddingLater(body.Moved(size), h, content, size);
      LaterTrans(s, body.Moved(size), InputPadding(body.Moved(size), h, content, size).input);
    case _ =>
  }

  lemma ParseLater(t: LenTest, s: Input)
    ensures Later(s, ParseInput(t, s).input)
  {
    hide Fill, Later, InputBody;
    FillLater(s, HEADER_LEN);
    var head := Fill(s, HEADER_LEN).input;
    MovedLater(s, head, HEADER_LEN);
    if Fill(s, HEADER_LEN).ok && HeaderOk(head.mem, s.pos) {
      BodyLater(t, head.Moved(HEADER_LEN), HeaderAt(head.mem, s.pos));
      LaterTrans(s, head.Moved(HEADER_LEN), InputBody(t, head.Moved(HEADER_LEN), HeaderAt(head.mem, s.pos)).input);
    }
  }

  /** Where the loop is between two turns. */
  datatype State = State(conn: Conn, input: Input)

  ghost predicate Turns(cfg: Config, link: Link, st: State) {
    var p := ParseInput(AsCoded, st.input);
    p.parsed.Good? && StepConn(cfg, link, st.conn, EventAt(p.input.mem, p.parsed.rec)).status == Running
  }

  ghost function EventOf(st: State): Event
    requires ParseInput(AsCoded, st.input).parsed.Good?
  {
    var p := ParseInput(AsCoded, st.input);
    EventAt(p.input.mem, p.parsed.rec)
  }

  ghost function Next(cfg: Config, link: Link, st: State): State
    requires Turns(cfg, link, st)
  {
    var c' := StepConn(cfg, link, st.conn, EventOf(st)).conn;
    State(c', After(ParseInput(AsCoded, st.input).input, st.conn, c'))
  }

  /** What a turn does to the buffer. */
  ghost function TurnWrites(cfg: Config, link: Link, st: State): seq<Write>
    requires Turns(cfg, link, st)
  {
    ParseLater(AsCoded, st.input);
    var p := ParseInput(AsCoded, st.input).input;
    Arrivals(st.input.feed, |st.input.feed| - |p.feed|)
    + if Next(cfg, link, st).conn.out.inRewinds == st.conn.out.inRewinds then [] else [Restarted]
  }

  lemma TurnReplays(cfg: Config, link: Link, st: State)
    requires Turns(cfg, link, st)
    ensures var next := Next(cfg, link, st).input;
            Replay(st.input.mem, st.input.eod, TurnWrites(cfg, link, st)) == Cells(next.mem, next.eod)
  {
    hide StepConn, ParseInput;
    ParseLater(AsCoded, st.input);
    var s, p := st.input, ParseInput(AsCoded, st.input).input;
    var got := Arrivals(s.feed, |s.feed| - |p.feed|);
    ReplayJoin(s.mem, s.eod, got, [Restarted]);
    assert [Restarted][1..] == [] && got + [] == got;
  }

  /** The loop makes `k` turns from here. */
  ghost predicate Makes(cfg: Config, link: Link, st: State, k: nat)
    decreases k
  {
    k > 0 ==> Turns(cfg, link, st) && Makes(cfg, link, Next(cfg, link, st), k - 1)
  }

  ghost function StateAfter(cfg: Config, link: Link, st: State, k: nat): State
    requires Makes(cfg, link, st, k)
    decreases k
  {
    if k == 0 then st else StateAfter(cfg, link, Next(cfg, link, st), k - 1)
  }

  ghost function Writes(cfg: Config, link: Link, st: State, k: nat): seq<Write>
    requires Makes(cfg, link, st, k)
    decreases k
  {
    if k == 0 then [] else TurnWrites(cfg, link, st) + Writes(cfg, link, Next(cfg, link, st), k - 1)
  }

  ghost function Events(cfg: Config, link: Link, st: State, k: nat): (evs: seq<Event>)
    requires Makes(cfg, link, st, k)
    ensures |evs| == k
    decreases k
  {
    if k == 0 then [] else [EventOf(st)] + Events(cfg, link, Next(cfg, link, st), k - 1)
  }

  lemma {:induction false} WritesReplay(cfg: Config, link: Link, st: State, k: nat)
    requires Makes(cfg, link, st, k)
    ensures var last := StateAfter(cfg, link, st, k).input;
            Replay(st.input.mem, st.input.eod, Writes(cfg, link, st, k)) == Cells(last.mem, last.eod)
    decreases k
  {
    hide Turns, Next, TurnWrites, Replay;
    if k == 0 {
      ReplayNothing(st.input.mem, st.input.eod);
    } else {
      TurnReplays(cfg, link, st);
      WritesReplay(cfg, link, Next(cfg, link, st), k - 1);
      ReplayJoin(st.input.mem, st.input.eod, TurnWrites(cfg, link, st), Writes(cfg, link, Next(cfg, link, st), k - 1));
    }
  }

  lemma ReplayNothing(mem: bytes, eod: nat)
    requires eod <= |mem|
    ensures Replay(mem, eod, []) == Cells(mem, eod)
  {
  }

  lemma {:induction false} TurnsSplit(cfg: Config, link: Link, st: State, j: nat, k: nat)
    requires Makes(cfg, link, st, j + k)
    ensures Makes(cfg, link, st, j) && Makes(cfg, link, StateAfter(cfg, link, st, j), k)
    ensures StateAfter(cfg, link, st, j + k) == StateAfter(cfg, link, StateAfter(cfg, link, st, j), k)
    ensures Events(cfg, link, st, j + k) == Events(cfg, link, st, j) + Events(cfg, link, StateAfter(cfg, link, st, j), k)
    decreases j
  {
    hide Turns, Next;
    if j > 0 {
      TurnsSplit(cfg, link, Next(cfg, link, st), j - 1, k);
    }
  }

  lemma {:induction false} EventsNumbered(cfg: Config, link: Link, before: seq<Event>, st: State, k: nat)
    requires Makes(cfg, link, st, k) && Numbered(before, st.conn)
    ensures Numbered(before + Events(cfg, link, st, k), StateAfter(cfg, link, st, k).conn)
    decreases k
  {
    hide Numbered, StepConn, ParseInput;
    if k == 0 {
      assert before + [] == before;
    } else {
      var rest := Events(cfg, link, Next(cfg, link, st), k - 1);
      StepNumbered(cfg, link, st.conn, before, EventOf(st));
      EventsNumbered(cfg, link, before + [EventOf(st)], Next(cfg, link, st), k - 1);
      assert before + [EventOf(st)] + rest == before + ([EventOf(st)] + rest);
    }
  }

  // --------------------------------------------------------- which queues still read

  /** No byte written since record `n` was dispatched differs from its body where it lies. */
  ghost predicate StillRead(cfg: Config, link: Link, st: State, k: nat, n: nat)
    requires Makes(cfg, link, st, k) && n < k
  {
    TurnsSplit(cfg, link, st, n + 1, k - n - 1);
    var after := StateAfter(cfg, link, st, n + 1);
    var rec := Events(cfg, link, st, k)[n].rec;
    (rec.body.StdinBody? || rec.body.DataBody?)
    && Kept(after.input.mem, after.input.eod, Writes(cfg, link, after, k - n - 1), rec)
  }

  /** The record of turn `n`, and where its body was when that turn was over. */
  lemma TurnRecord(cfg: Config, link: Link, st: State, k: nat, n: nat)
    requires Makes(cfg, link, st, k) && n < k
    ensures Makes(cfg, link, st, n + 1)
    ensures var ev := Events(cfg, link, st, k)[n];
            && (ev.rec.body.StdinBody? || ev.rec.body.DataBody? ==> ev.rec.body.start <= ev.rec.body.end)
            && RangeBytes(StateAfter(cfg, link, st, n + 1).input.mem, ev.rec) == ev.body
  {
    hide StepConn, ParseInput;
    TurnsSplit(cfg, link, st, n, k - n);
    TurnsSplit(cfg, link, st, n + 1, k - n - 1);
    TurnsSplit(cfg, link, st, n, 1);
    var at := StateAfter(cfg, link, st, n);
    assert Events(cfg, link, st, k)[n] == Events(cfg, link, at, k - n)[0] == EventOf(at);
    assert StateAfter(cfg, link, st, n + 1) == StateAfter(cfg, link, at, 1) == Next(cfg, link, at);
    ParsedInRange(AsCoded, at.input);
  }

  lemma RecordReadsIff(cfg: Config, link: Link, st: State, k: nat, n: nat)
    requires Makes(cfg, link, st, k) && n < k
    requires var b := Events(cfg, link, st, k)[n].rec.body; b.StdinBody? || b.DataBody?
    ensures var ev := Events(cfg, link, st, k)[n];
            RangeBytes(StateAfter(cfg, link, st, k).input.mem, ev.rec) == ev.body <==> StillRead(cfg, link, st, k, n)
  {
    hide Turns, Next, TurnWrites, Writes, Kept, RangeBytes;
    TurnsSplit(cfg, link, st, n + 1, k - n - 1);
    TurnRecord(cfg, link, st, k, n);
    var after := StateAfter(cfg, link, st, n + 1);
    WritesReplay(cfg, link, after, k - n - 1);
    RangeKeptIff(after.input.mem, after.input.eod, Writes(cfg, link, after, k - n - 1), Events(cfg, link, st, k)[n].rec);
  }

  /** Pieces of the same lengths make the same bytes exactly if they are the same. */
  lemma JoinIff(a: bytes, b: bytes, x: bytes, y: bytes)
    requires |x| == |y|
    ensures a + x == b + y <==> a == b && x == y
  {
    if a + x == b + y {
      assert |a| == |b|;
      assert a == (a + x)[..|a|] && b == (b + y)[..|b|];
      assert x == (a + x)[|a|..] && y == (b + y)[|b|..];
    }
  }

  /** Over whole sessions, whatever is rewound how often: at any turn the STDIN or DATA queue
      of a live request reads what its callbacks got if and only if in none of its records a
      byte has since been overwritten by a different one. */
  lemma QueueReadsIff(cfg: Config, link: Link, all: Input, k: nat, rid: u16, kind: Kind)
    requires Makes(cfg, link, State(START, all), k) && kind != InParams
    requires rid in StateAfter(cfg, link, State(START, all), k).conn.table
    ensures var st, evs := StateAfter(cfg, link, State(START, all), k), Events(cfg, link, State(START, all), k);
            var slot := st.conn.table[rid];
            var ns := NumbersOf(slot.ids, kind);
            && (forall i :: 0 <= i < |ns| ==> ns[i] < k)
            && (QueueBytes(st.input.mem, QueueOf(slot.req, kind)) == Bodies(evs, ns)
                <==> forall i :: 0 <= i < |ns| ==> StillRead(cfg, link, State(START, all), k, ns[i]))
  {
    hide Makes, StateAfter, Events, StillRead, QueueBytes, Bodies;
    var begin := State(START, all);
    var st, evs := StateAfter(cfg, link, begin, k), Events(cfg, link, begin, k);
    EventsNumbered(cfg, link, [], begin, k);
    assert [] + evs == evs;
    var slot := st.conn.table[rid];
    HeldAsNumbered(evs, st.conn, rid, kind);
    var ns := NumbersOf(slot.ids, kind);
    ReceivedKind(evs, rid, kind, slot.ids.begin + 1);
    PiecesReadIff(cfg, link, begin, k, kind, ns);
  }

  lemma {:induction false} ReceivedKind(evs: seq<Event>, rid: u16, kind: Kind, from: nat)
    ensures forall i :: 0 <= i < |Received(evs, rid, kind, from)| ==>
              Received(evs, rid, kind, from)[i] < |evs| && Goes(evs[Received(evs, rid, kind, from)[i]].rec.body, kind)
    decreases |evs|
  {
    if |evs| > from {
      ReceivedKind(evs[..|evs| - 1], rid, kind, from);
    }
  }

  lemma {:induction false} PiecesReadIff(cfg: Config, link: Link, st: State, k: nat, kind: Kind, ns: seq<nat>)
    requires Makes(cfg, link, st, k) && kind != InParams
    requires forall i :: 0 <= i < |ns| ==> ns[i] < k && Goes(Events(cfg, link, st, k)[ns[i]].rec.body, kind)
    ensures var evs, m := Events(cfg, link, st, k), StateAfter(cfg, link, st, k).input.mem;
            QueueBytes(m, RecordsAt(evs, ns)) == Bodies(evs, ns)
            <==> forall i :: 0 <= i < |ns| ==> StillRead(cfg, link, st, k, ns[i])
    decreases |ns|
  {
    hide Makes, StateAfter, Events, StillRead;
    if ns != [] {
      var evs, m := Events(cfg, link, st, k), StateAfter(cfg, link, st, k).input.mem;
      var n := ns[|ns| - 1];
      PiecesReadIff(cfg, link, st, k, kind, ns[..|ns| - 1]);
      RecordReadsIff(cfg, link, st, k, n);
      TurnRecord(cfg, link, st, k, n);
      assert RecordsAt(evs, ns)[..|ns| - 1] == RecordsAt(evs, ns[..|ns| - 1]);
      JoinIff(QueueBytes(m, RecordsAt(evs, ns[..|ns| - 1])), Bodies(evs, ns[..|ns| - 1]),
              RangeBytes(m, evs[n].rec), evs[n].body);
      assert forall i :: 0 <= i < |ns| - 1 ==> ns[..|ns| - 1][i] == ns[i];
    }
  }

  /** These turns are those of the session. */
  lemma {:induction false} SessionTurns(cfg: Config, link: Link, st: State, k: nat)
    requires Makes(cfg, link, st, k)
    ensures Events(cfg, link, st, k) <= Serve(cfg, link, st.conn, st.input).events
    decreases k
  {
    hide StepConn, ParseInput;
    if k > 0 {
      var next := Next(cfg, link, st);
      ServeTurn(cfg, link, st.conn, st.input, EventOf(st), next.conn, next.input,
                Dropped(ParseInput(AsCoded, st.input).input, st.conn, next.conn));
      SessionTurns(cfg, link, next, k - 1);
    }
  }
}
