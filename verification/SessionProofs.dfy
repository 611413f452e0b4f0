/** Whole connections: what the client sent is what the callbacks get and what a request's
    queues read out of the input buffer, as long as no rewind comes between. */
module SessionProofs {
  import opened Bytes
  import opened Wire
  import opened Engine
  import opened ChunkProofs
  import opened QueueProofs
  import opened Sessions
  import OwnershipProofs
  import RequestProofs
  import RunProofs
  import S = StreamProofs

  // ------------------------------------------------------------ body ranges

  /** The bytes a record's range covers in a buffer. */
  function RangeBytes(m: bytes, rec: Record): bytes {
    EventAt(m, rec).body
  }

  function QueueBytes(m: bytes, queue: seq<Record>): bytes {
    if queue == [] then []
    else QueueBytes(m, queue[..|queue| - 1]) + RangeBytes(m, queue[|queue| - 1])
  }

  predicate InRange(rec: Record, n: nat) {
    match rec.body
    case StdinBody(start, end) => start <= end <= n
    case DataBody(start, end) => start <= end <= n
    case _ => true
  }

  lemma RangeAgrees(m: bytes, w: bytes, rec: Record, n: nat)
    requires InRange(rec, n) && Agree(m, w, 0, n)
    ensures EventAt(m, rec) == EventAt(w, rec)
  {
    match rec.body
    case StdinBody(start, end) => SliceAgree(m, w, 0, n, start, end - start);
    case DataBody(start, end) => SliceAgree(m, w, 0, n, start, end - start);
    case _ =>
  }

  lemma BodyInRange(t: LenTest, s: Input, h: Header)
    requires KnownType(h.ty) && InputBody(t, s, h).parsed.Good?
    ensures InRange(InputBody(t, s, h).parsed.rec, InputBody(t, s, h).input.pos)
  {
  }

  lemma ParsedInRange(t: LenTest, s: Input)
    requires ParseInput(t, s).parsed.Good?
    ensures InRange(ParseInput(t, s).parsed.rec, ParseInput(t, s).input.pos)
  {
    var head := Fill(s, HEADER_LEN).input;
    BodyInRange(t, head.Moved(HEADER_LEN), HeaderAt(head.mem, s.pos));
  }

  /** The body bytes a callback gets are those of the whole input, whatever the chunks. */
  lemma ParsedBody(t: LenTest, s: Input)
    requires ParseInput(t, s).parsed.Good?
    ensures var p := ParseInput(t, s); EventAt(p.input.mem, p.parsed.rec) == EventAt(Whole(s), p.parsed.rec)
  {
    var p := ParseInput(t, s);
    ParseWhole(t, s);
    ParseShrinks(t, s);
    ParsedInRange(t, s);
    PrefixAgrees(p.input, 0);
    RangeAgrees(p.input.mem, Whole(s), p.parsed.rec, p.input.pos);
  }

  // ------------------------------------------------- up to the first rewind

  /** Up to here nothing is lost, every dispatched record got the bytes its range covers in
      the input, and these are still in the buffer. */
  ghost predicate Intact(all: Input, evs: seq<Event>, s: Input) {
    && Whole(s) == Whole(all) && s.pos <= s.eod
    && (forall i :: 0 <= i < |evs| ==> InRange(evs[i].rec, s.pos) && evs[i] == EventAt(Whole(all), evs[i].rec))
    && DrainInput(AsCoded, all).records == RecordsOf(evs) + DrainInput(AsCoded, s).records
  }

  ghost predicate Legible(all: Input, evs: seq<Event>, c: Conn, s: Input) {
    c.out.inRewinds == 0 ==> Intact(all, evs, s)
  }

  lemma {:induction false} IntactParse(all: Input, evs: seq<Event>, s: Input, ev: Event)
    requires Intact(all, evs, s) && ParseInput(AsCoded, s).parsed.Good?
    requires ev == EventAt(ParseInput(AsCoded, s).input.mem, ParseInput(AsCoded, s).parsed.rec)
    ensures Intact(all, evs + [ev], ParseInput(AsCoded, s).input)
  {
    var p := ParseInput(AsCoded, s);
    ParseWhole(AsCoded, s);
    ParseShrinks(AsCoded, s);
    ParsedInRange(AsCoded, s);
    ParsedBody(AsCoded, s);
    DrainTurn(all, evs, s, ev);
    Forward(AsCoded, s);
    OneMoreRange(Whole(all), evs, s.pos, p.input.pos, ev);
  }

  lemma {:induction false} OneMoreRange(w: bytes, evs: seq<Event>, n: nat, m: nat, ev: Event)
    requires n <= m && InRange(ev.rec, m) && ev == EventAt(w, ev.rec)
    requires forall i :: 0 <= i < |evs| ==> InRange(evs[i].rec, n) && evs[i] == EventAt(w, evs[i].rec)
    ensures forall i :: 0 <= i < |evs + [ev]| ==>
              InRange((evs + [ev])[i].rec, m) && (evs + [ev])[i] == EventAt(w, (evs + [ev])[i].rec)
  {
  }

  lemma Forward(t: LenTest, s: Input)
    requires ParseInput(t, s).parsed.Good?
    ensures s.pos <= ParseInput(t, s).input.pos
  {
    var head := Fill(s, HEADER_LEN).input;
    BodyForward(t, head.Moved(HEADER_LEN), HeaderAt(head.mem, s.pos));
  }

  lemma BodyForward(t: LenTest, s: Input, h: Header)
    requires KnownType(h.ty)
    ensures s.pos <= InputBody(t, s, h).input.pos
  {
  }

  lemma {:induction false} LegibleTurn(cfg: Config, link: Link, all: Input, evs: seq<Event>, c: Conn, s: Input,
                    ev: Event, c': Conn, s': Input, d: nat)
    requires Legible(all, evs, c, s) && Turn(cfg, link, c, s, ev, c', s', d)
    ensures Legible(all, evs + [ev], c', s')
  {
    StepRewinds(cfg, link, c, ev);
    if c'.out.inRewinds == 0 {
      IntactParse(all, evs, s, ev);
    }
  }

  lemma {:induction false} DrainTurn(all: Input, evs: seq<Event>, s: Input, ev: Event)
    requires ParseInput(AsCoded, s).parsed.Good? && ParseInput(AsCoded, s).parsed.rec == ev.rec
    requires DrainInput(AsCoded, all).records == RecordsOf(evs) + DrainInput(AsCoded, s).records
    ensures DrainInput(AsCoded, all).records
         == RecordsOf(evs + [ev]) + DrainInput(AsCoded, ParseInput(AsCoded, s).input).records
  {
    hide DrainInput, ParseInput;
    DrainCons(AsCoded, s);
    assert RecordsOf(evs + [ev]) == RecordsOf(evs) + [ev.rec];
    Rejoined(RecordsOf(evs), ev.rec, DrainInput(AsCoded, ParseInput(AsCoded, s).input).records);
  }

  lemma Rejoined(a: seq<Record>, rec: Record, b: seq<Record>)
    ensures a + ([rec] + b) == a + [rec] + b
  {
  }

  /** Where the loop is after dispatching `evs`: all that its turns keep. */
  ghost predicate Tracks(cfg: Config, link: Link, all: Input, evs: seq<Event>, d: nat, c: Conn, s: Input) {
    && Begins(cfg, link, all, evs, d, c, s)
    && RunConn(cfg, link, START, evs) == Stepped(c, Running)
    && Numbered(evs, c)
    && Legible(all, evs, c, s)
  }

  lemma {:induction false} TracksFirst(cfg: Config, link: Link, all: Input)
    requires all.pos <= all.eod
    ensures Tracks(cfg, link, all, [], 0, START, all)
  {
    var r := Serve(cfg, link, START, all);
    assert [] + r.events == r.events;
    assert [] + DrainInput(AsCoded, all).records == DrainInput(AsCoded, all).records;
  }

  lemma {:induction false} TracksTurn(cfg: Config, link: Link, all: Input, evs: seq<Event>, d: nat, c: Conn, s: Input,
                   ev: Event, c': Conn, s': Input, d': nat)
    requires Tracks(cfg, link, all, evs, d, c, s) && Turn(cfg, link, c, s, ev, c', s', d')
    ensures Tracks(cfg, link, all, evs + [ev], d + d', c', s')
  {
    BeginsTurn(cfg, link, all, evs, d, c, s, ev, c', s', d');
    RunProofs.RunSnoc(cfg, link, START, evs, ev);
    StepNumbered(cfg, link, c, evs, ev);
    LegibleTurn(cfg, link, all, evs, c, s, ev, c', s', d');
  }

  /** A parsed record takes the session on, or ends it. */
  lemma TracksNext(cfg: Config, link: Link, all: Input, evs: seq<Event>, d: nat, c: Conn, s: Input,
                   rec: Record, s1: Input, ev: Event)
    requires Tracks(cfg, link, all, evs, d, c, s)
    requires ParseInput(AsCoded, s) == Wire.Step(Good(rec, s1.pos), s1) && ev == EventAt(s1.mem, rec)
    ensures var st := StepConn(cfg, link, c, ev);
            var s', d' := After(s1, c, st.conn), d + Dropped(s1, c, st.conn);
            if st.status == Running then Tracks(cfg, link, all, evs + [ev], d', st.conn, s')
            else Serve(cfg, link, START, all)
                 == Session(st.conn, s', evs + [ev], d', if st.status == Stopped then WriteFailed else Asserted)
  {
    hide Serve, StepConn, Numbered, Legible;
    var st := StepConn(cfg, link, c, ev);
    var s', d' := After(s1, c, st.conn), Dropped(s1, c, st.conn);
    if st.status == Running {
      TracksTurn(cfg, link, all, evs, d, c, s, ev, st.conn, s', d');
    } else {
      ServeStops(cfg, link, c, s, ev);
      BeginsEnds(cfg, link, all, evs, d, c, s, Serve(cfg, link, c, s));
    }
  }

  /** Nothing more can be parsed. */
  lemma TracksEnd(cfg: Config, link: Link, all: Input, evs: seq<Event>, d: nat, c: Conn, s: Input)
    requires Tracks(cfg, link, all, evs, d, c, s) && !ParseInput(AsCoded, s).parsed.Good?
    ensures var p := ParseInput(AsCoded, s);
            Serve(cfg, link, START, all)
            == if p.parsed.Killed? then Session(c, p.input, evs, d, Exited)
               else Session(Hangup(c), Rewound(p.input), evs, d, ParseFailed)
  {
    hide Serve, Numbered, Legible;
    ServeGivesUp(cfg, link, c, s);
    BeginsEnds(cfg, link, all, evs, d, c, s, Serve(cfg, link, c, s));
    assert evs + [] == evs;
  }

  // ------------------------------------------------------- what a session leaves

  /** After the error exit nothing is unsent and every request that is left is complete. */
  lemma EndsSilent(cfg: Config, link: Link, all: Input)
    requires var exit := Serve(cfg, link, START, all).exit; exit == ParseFailed || exit == WriteFailed
    ensures var c := Serve(cfg, link, START, all).conn;
            c.out.unsent == [] && forall rid <- c.table :: c.table[rid].req.complete
  {
    hide Serve;
    ServeRuns(cfg, link, START, all);
    RunProofs.StartInvariant();
    RunProofs.RunKeepsInvariant(cfg, link, START, Serve(cfg, link, START, all).events);
  }

  /** While writes succeed the peer has received a prefix of what was rendered. */
  lemma PrefixReceived(cfg: Config, link: Link, all: Input)
    requires RequestProofs.AllWritesSucceed(link) && Serve(cfg, link, START, all).exit == ParseFailed
    ensures var o := Serve(cfg, link, START, all).conn.out; o.delivered <= RequestProofs.LogBytes(o.log)
  {
    hide Serve;
    var evs := Serve(cfg, link, START, all).events;
    ServeRuns(cfg, link, START, all);
    RunProofs.StartInvariant();
    RunProofs.RunKeepsInvariant(cfg, link, START, evs);
    RunProofs.RunSucceeds(cfg, link, START, evs);
  }

  /** However a session ends, each record dispatched is destroyed or held, once; only the
      record of a dispatch that ended it can be in no place or in two. */
  lemma SessionPlaces(cfg: Config, link: Link, all: Input, x: nat)
    ensures var r := Serve(cfg, link, START, all);
            && r.conn.seen == |r.events|
            && OwnershipProofs.Places(r.conn, x)
               == if x >= |r.events| then 0
                  else if x + 1 == |r.events| && (r.exit == WriteFailed || r.exit == Asserted)
                  then OwnershipProofs.LastHand(cfg, link, START, r.events)
                  else 1
  {
    hide Serve;
    var r := Serve(cfg, link, START, all);
    ServeRuns(cfg, link, START, all);
    OwnershipProofs.RecordsInOnePlace(cfg, link, r.events, x);
    OwnershipProofs.HangupHeld(RunConn(cfg, link, START, r.events).conn, 0x1_0000, x);
    RunNumbered(cfg, link, START, [], r.events);
    assert [] + r.events == r.events;
  }

  // ---------------------------------------------------- reading a live request

  /** The bodies callbacks got, by number. */
  function Bodies(evs: seq<Event>, ns: seq<nat>): bytes
    requires forall i :: 0 <= i < |ns| ==> ns[i] < |evs|
  {
    if ns == [] then [] else Bodies(evs, ns[..|ns| - 1]) + evs[ns[|ns| - 1]].body
  }

  lemma {:induction false} QueueIsBodies(m: bytes, evs: seq<Event>, ns: seq<nat>)
    requires forall i :: 0 <= i < |ns| ==> ns[i] < |evs|
    requires forall i :: 0 <= i < |evs| ==> evs[i] == EventAt(m, evs[i].rec)
    ensures QueueBytes(m, RecordsAt(evs, ns)) == Bodies(evs, ns)
    decreases |ns|
  {
    if ns != [] {
      var n := |ns| - 1;
      QueueIsBodies(m, evs, ns[..n]);
      assert RecordsAt(evs, ns)[..n] == RecordsAt(evs, ns[..n]);
    }
  }

  /** Until the input is rewound, reading the STDIN or DATA queue of any request in the table
      out of the input buffer gives exactly the bytes its callbacks got, in order. */
  lemma {:induction false} QueuesReadable(all: Input, evs: seq<Event>, c: Conn, s: Input, rid: u16, k: Kind)
    requires Numbered(evs, c) && Intact(all, evs, s) && rid in c.table
    ensures var slot := c.table[rid];
            && (forall i :: 0 <= i < |NumbersOf(slot.ids, k)| ==> NumbersOf(slot.ids, k)[i] < |evs|)
            && QueueBytes(s.mem, QueueOf(slot.req, k)) == Bodies(evs, NumbersOf(slot.ids, k))
  {
    HeldAsNumbered(evs, c, rid, k);
    StillThere(all, evs, s);
    QueueIsBodies(s.mem, evs, NumbersOf(c.table[rid].ids, k));
  }

  lemma {:induction false} HeldAsNumbered(evs: seq<Event>, c: Conn, rid: u16, k: Kind)
    requires Numbered(evs, c) && rid in c.table
    ensures var slot := c.table[rid];
            && NumbersOf(slot.ids, k) == Received(evs, rid, k, slot.ids.begin + 1)
            && QueueOf(slot.req, k) == RecordsAt(evs, NumbersOf(slot.ids, k))
  {
    var slot := c.table[rid];
    assert Follows(evs, rid, slot) && FollowsIn(evs, rid, slot, k);
    ReceivedAt(evs, rid, k, slot.ids.begin + 1);
  }

  lemma {:induction false} StillThere(all: Input, evs: seq<Event>, s: Input)
    requires Intact(all, evs, s)
    ensures forall i :: 0 <= i < |evs| ==> evs[i] == EventAt(s.mem, evs[i].rec)
  {
    forall i | 0 <= i < |evs| ensures evs[i] == EventAt(s.mem, evs[i].rec) {
      PrefixAgrees(s, 0);
      RangeAgrees(s.mem, Whole(s), evs[i].rec, s.pos);
    }
  }

  // ---------------------------------------------------------- what is refused

  /** A header of another version, of no known type, or with an id where none belongs or none
      where one does, ends the connection, with nothing dispatched and nothing sent. */
  lemma RefusedEnds(cfg: Config, link: Link, c: Conn, s: Input)
    requires var w, pos := Whole(s), s.pos;
             && pos + 8 <= |w|
             && (w[pos] != 1 || w[pos + 1] == 0 || w[pos + 1] > 11
                 || (w[pos + 1] in {9, 10, 11} <==> w[pos + 2] != 0 || w[pos + 3] != 0))
    ensures var r := Serve(cfg, link, c, s);
            && r.exit == ParseFailed && r.events == []
            && r.conn.out.delivered == c.out.delivered && r.conn.out.writes == c.out.writes
  {
    hide ParseInput, Serve;
    HeaderParses(AsCoded, s);
    ServeGivesUp(cfg, link, c, s);
  }

  /** A record of a type the code does not implement, END_REQUEST, STDOUT or STDERR, ends it in
      the same way once it has arrived; an UNKNOWN_TYPE record stops the process. */
  lemma UnimplementedEnds(cfg: Config, link: Link, c: Conn, s: Input)
    requires var w, pos := Whole(s), s.pos;
             && pos + 8 <= |w| && pos + 8 + ShortOf(w[pos + 4], w[pos + 5]) <= |w| && w[pos] == 1
             && (w[pos + 1] in {3, 6, 7, 11}) && (w[pos + 1] == 11 <==> w[pos + 2] == 0 && w[pos + 3] == 0)
    ensures var r := Serve(cfg, link, c, s);
            && r.exit == (if Whole(s)[s.pos + 1] == 11 then Exited else ParseFailed) && r.events == []
            && r.conn.out.delivered == c.out.delivered && r.conn.out.writes == c.out.writes
  {
    hide ParseInput, Serve, InputBody;
    HeaderParses(AsCoded, s);
    BodyArrives(AsCoded, AfterHeader(s), HeaderAt(Whole(s), s.pos));
    ServeGivesUp(cfg, link, c, s);
  }

  // ------------------------------------------------------ what the client sent

  /** A record a client sends, as a callback should get it. */
  ghost function ItemEvent(i: S.Item): Event {
    var n := |i.Payload()|;
    match i.content
    case Begin(role, flags, _) => Event(Record(i.rid, n, |i.padding|, BeginBody(role, flags)), [])
    case Abort => Event(Record(i.rid, n, |i.padding|, AbortBody), [])
    case Params(ps) => Event(Record(i.rid, n, |i.padding|, ParamsBody(ParamsMap(ps))), [])
    case Stdin(s) => Event(Record(i.rid, n, |i.padding|, StdinBody(0, n)), s)
    case Data(s) => Event(Record(i.rid, n, |i.padding|, DataBody(0, n)), s)
    case Values(ps) => Event(Record(i.rid, n, |i.padding|, ValuesBody(ValuesMap(ps))), [])
    case Results(ps) => Event(Record(i.rid, n, |i.padding|, ResultBody(ValuesMap(ps))), [])
  }

  ghost function ItemEvents(items: seq<S.Item>): seq<Event> {
    if items == [] then [] else [ItemEvent(items[0])] + ItemEvents(items[1..])
  }

  lemma ItemRead(w: bytes, pos: nat, item: S.Item)
    requires Holds(w, pos, S.Layout(item))
    ensures Fixed(EventAt(w, S.Expected(item, pos))) == ItemEvent(item)
  {
    S.LayoutHolds(w, pos, item);
    if item.content.Stdin? || item.content.Data? {
      HoldsSlice(w, pos + HEADER_LEN, item.Payload());
    }
  }

  lemma {:induction false} ItemsRead(t: LenTest, w: bytes, pos: nat, items: seq<S.Item>, i: nat)
    requires S.AllWellFormed(t, items) && Holds(w, pos, S.LayoutAll(items)) && i < |items|
    ensures |S.ExpectedAll(items, pos)| == |items| == |ItemEvents(items)|
    ensures Fixed(EventAt(w, S.ExpectedAll(items, pos)[i])) == ItemEvents(items)[i] == ItemEvent(items[i])
    decreases |items|
  {
    hide S.Layout, S.LayoutAll, S.Expected, Holds, Fixed, EventAt, ItemEvent, S.AllWellFormed;
    S.FirstItem(t, w, pos, items);
    ItemRead(w, pos, items[0]);
    ExpectedLength(items, pos);
    if i > 0 {
      ItemsRead(t, w, pos + |S.Layout(items[0])|, items[1..], i - 1);
    }
  }

  lemma {:induction false} ExpectedLength(items: seq<S.Item>, pos: nat)
    ensures |S.ExpectedAll(items, pos)| == |items| == |ItemEvents(items)|
    decreases |items|
  {
    if items != [] {
      ExpectedLength(items[1..], pos + |S.Layout(items[0])|);
    }
  }

  predicate Carries(i: S.Item, k: Kind) {
    match k
    case InParams => i.content.Params?
    case InStdin => i.content.Stdin?
    case InData => i.content.Data?
  }

  /** The STDIN or DATA bytes the client sent for an id with its records from number `from`
      to before `n`. */
  ghost function SentFrom(items: seq<S.Item>, rid: u16, k: Kind, from: nat, n: nat): bytes
    requires n <= |items|
  {
    if n <= from then []
    else SentFrom(items, rid, k, from, n - 1)
         + if items[n - 1].rid == rid && Carries(items[n - 1], k) then items[n - 1].Payload() else []
  }

  lemma {:induction false} BodiesAreSent(evs: seq<Event>, items: seq<S.Item>, rid: u16, k: Kind, from: nat)
    requires |evs| <= |items| && k != InParams
    requires forall i :: 0 <= i < |evs| ==> Fixed(evs[i]) == ItemEvent(items[i])
    ensures Bodies(evs, Received(evs, rid, k, from)) == SentFrom(items, rid, k, from, |evs|)
    decreases |evs|
  {
    hide Fixed, ItemEvent;
    if |evs| > from {
      BodiesAreSent(evs[..|evs| - 1], items, rid, k, from);
      LastBody(evs, items, rid, k, from);
    }
  }

  lemma {:induction false} LastBody(evs: seq<Event>, items: seq<S.Item>, rid: u16, k: Kind, from: nat)
    requires from < |evs| <= |items| && k != InParams && Fixed(evs[|evs| - 1]) == ItemEvent(items[|evs| - 1])
    ensures var n := |evs| - 1;
            Bodies(evs, Received(evs, rid, k, from))
            == Bodies(evs[..n], Received(evs[..n], rid, k, from))
               + if items[n].rid == rid && Carries(items[n], k) then items[n].Payload() else []
  {
    var n := |evs| - 1;
    var before := Received(evs[..n], rid, k, from);
    BodiesPrefix(evs, before, n);
    SameKind(evs[n], items[n], k);
    if items[n].rid == rid && Carries(items[n], k) {
      BodiesSnoc(evs, before, n);
    } else {
      assert before + [] == before && Bodies(evs, before) + [] == Bodies(evs, before);
    }
  }

  lemma SameKind(ev: Event, item: S.Item, k: Kind)
    requires Fixed(ev) == ItemEvent(item)
    ensures ev.rec.rid == item.rid && (Goes(ev.rec.body, k) <==> Carries(item, k))
    ensures Carries(item, k) && k != InParams ==> ev.body == item.Payload()
  {
  }

  lemma BodiesSnoc(evs: seq<Event>, ns: seq<nat>, n: nat)
    requires n < |evs| && forall i :: 0 <= i < |ns| ==> ns[i] < |evs|
    ensures Bodies(evs, ns + [n]) == Bodies(evs, ns) + evs[n].body
  {
    assert (ns + [n])[..|ns|] == ns;
  }

  lemma {:induction false} BodiesPrefix(evs: seq<Event>, ns: seq<nat>, n: nat)
    requires n <= |evs| && forall i :: 0 <= i < |ns| ==> ns[i] < n
    ensures Bodies(evs, ns) == Bodies(evs[..n], ns)
    decreases |ns|
  {
    if ns != [] {
      BodiesPrefix(evs, ns[..|ns| - 1], n);
    }
  }

  /** Until the input is rewound, the records dispatched are the client's first ones, as it
      sent them. */
  lemma {:induction false} ClientRecords(feed: seq<bytes>, items: seq<S.Item>, evs: seq<Event>, s: Input)
    requires S.AllWellFormed(AsCoded, items) && Flatten(feed) == S.LayoutAll(items)
    requires Intact(Buffered.Input([], 0, 0, feed), evs, s)
    ensures |evs| <= |items| && forall i :: 0 <= i < |evs| ==> Fixed(evs[i]) == ItemEvent(items[i])
  {
    var w := S.LayoutAll(items);
    assert Whole(Buffered.Input([], 0, 0, feed)) == w && w[0..|w|] == w;
    StreamArrives(AsCoded, feed, items);
    ExpectedLength(items, 0);
    var recs, drained := RecordsOf(evs), S.ExpectedAll(items, 0);
    forall i | 0 <= i < |evs| ensures Fixed(evs[i]) == ItemEvent(items[i]) {
      assert drained[i] == recs[i] == evs[i].rec;
      ItemsRead(AsCoded, w, 0, items, i);
    }
  }

  /** Body slices are faithful: until the input is rewound, across interleaving, chunks and
      buffer growth, the STDIN or DATA queue of a live request reads out of the input buffer
      exactly what the client has sent for it since its BEGIN_REQUEST. */
  lemma {:induction false} BodyFaithful(cfg: Config, link: Link, feed: seq<bytes>, items: seq<S.Item>,
                     evs: seq<Event>, d: nat, c: Conn, s: Input, rid: u16, k: Kind)
    requires S.AllWellFormed(AsCoded, items) && Flatten(feed) == S.LayoutAll(items)
    requires Tracks(cfg, link, Buffered.Input([], 0, 0, feed), evs, d, c, s) && c.out.inRewinds == 0
    requires rid in c.table && k != InParams
    ensures |evs| <= |items|
    ensures QueueBytes(s.mem, QueueOf(c.table[rid].req, k))
         == SentFrom(items, rid, k, c.table[rid].ids.begin + 1, |evs|)
  {
    IntactFaithful(feed, items, evs, c, s, rid, k);
  }

  lemma {:induction false} IntactFaithful(feed: seq<bytes>, items: seq<S.Item>, evs: seq<Event>, c: Conn, s: Input,
                                          rid: u16, k: Kind)
    requires S.AllWellFormed(AsCoded, items) && Flatten(feed) == S.LayoutAll(items)
    requires Intact(Buffered.Input([], 0, 0, feed), evs, s) && Numbered(evs, c)
    requires rid in c.table && k != InParams
    ensures |evs| <= |items|
    ensures QueueBytes(s.mem, QueueOf(c.table[rid].req, k))
         == SentFrom(items, rid, k, c.table[rid].ids.begin + 1, |evs|)
  {
    hide Intact, Numbered, QueueBytes, SentFrom, ItemEvent, Fixed;
    ClientRecords(feed, items, evs, s);
    QueuesReadable(Buffered.Input([], 0, 0, feed), evs, c, s, rid, k);
    HeldAsNumbered(evs, c, rid, k);
    BodiesAreSent(evs, items, rid, k, c.table[rid].ids.begin + 1);
  }

  /** After a rewind the next chunk is written from the start of the buffer: a range keeps
      its bytes if and only if the chunk has the same ones as far as it covers the range. */
  lemma RangeSurvivesIff(s: Input, rec: Record)
    requires s.feed != [] && InRange(rec, s.eod) && (rec.body.StdinBody? || rec.body.DataBody?)
    ensures RangeBytes(Consumed(Rewound(s)).mem, rec) == RangeBytes(s.mem, rec)
       <==> forall i :: rec.body.start <= i < rec.body.end && i < |s.feed[0]| ==> s.feed[0][i] == s.mem[i]
  {
    var chunk, m := s.feed[0], Consumed(Rewound(s)).mem;
    forall i: nat | i < s.eod ensures At(m, i) == if i < |chunk| then chunk[i] else s.mem[i] {
      OverRewound(s, i);
    }
    SameRangeIff(m, s.mem, rec);
    forall i: nat | rec.body.start <= i < rec.body.end
      ensures At(m, i) == At(s.mem, i) <==> (i < |chunk| ==> chunk[i] == s.mem[i])
    {
    }
  }

  lemma OverRewound(s: Input, i: nat)
    requires s.feed != [] && i < s.eod
    ensures At(Consumed(Rewound(s)).mem, i) == if i < |s.feed[0]| then s.feed[0][i] else s.mem[i]
  {
    assert s.mem[..0] + s.feed[0] == s.feed[0];
  }

  lemma SameRangeIff(m: bytes, w: bytes, rec: Record)
    requires (rec.body.StdinBody? || rec.body.DataBody?) && rec.body.start <= rec.body.end
    ensures RangeBytes(m, rec) == RangeBytes(w, rec)
       <==> forall i: nat :: rec.body.start <= i < rec.body.end ==> At(m, i) == At(w, i)
  {
    var a, b := rec.body.start, rec.body.end;
    if RangeBytes(m, rec) == RangeBytes(w, rec) {
      forall i: nat | a <= i < b ensures At(m, i) == At(w, i) {
        assert RangeBytes(m, rec)[i - a] == RangeBytes(w, rec)[i - a];
      }
    }
  }
}
