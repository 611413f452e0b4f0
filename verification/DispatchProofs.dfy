/** What one dispatch does, seen from the request id of its record: how the log grows,
    what happens to the table entry, and that nothing else about the connection matters. */
module DispatchProofs {
  import opened Bytes
  import opened Wire
  import opened Headers
  import opened Engine
  import opened RequestProofs
  import PairProofs

  /** The records a request id has in a log, and those requests put out themselves. */
  function RidEntries(log: seq<Entry>, rid: u16): seq<Entry> {
    if log == [] then []
    else (if log[0].rec.rid == rid then [log[0]] else []) + RidEntries(log[1..], rid)
  }

  function OwnRecords(log: seq<Entry>, rid: u16): seq<OutRecord> {
    if log == [] then []
    else (if log[0].own && log[0].rec.rid == rid then [log[0].rec] else []) + OwnRecords(log[1..], rid)
  }

  lemma {:induction false} EntriesAppend(a: seq<Entry>, b: seq<Entry>, rid: u16)
    ensures RidEntries(a + b, rid) == RidEntries(a, rid) + RidEntries(b, rid)
  {
    if a == [] {
      assert a + b == b;
    } else {
      EntriesAppend(a[1..], b, rid);
      EntriesCons(a[0], a[1..], rid);
      EntriesCons(a[0], a[1..] + b, rid);
      assert a == [a[0]] + a[1..] && a + b == [a[0]] + (a[1..] + b);
    }
  }

  lemma EntriesCons(e: Entry, rest: seq<Entry>, rid: u16)
    ensures RidEntries([e] + rest, rid) == (if e.rec.rid == rid then [e] else []) + RidEntries(rest, rid)
  {
    assert ([e] + rest)[1..] == rest;
  }

  lemma {:induction false} OwnAppend(a: seq<Entry>, b: seq<Entry>, rid: u16)
    ensures OwnRecords(a + b, rid) == OwnRecords(a, rid) + OwnRecords(b, rid)
  {
    if a == [] {
      assert a + b == b;
    } else {
      OwnAppend(a[1..], b, rid);
      assert (a + b)[1..] == a[1..] + b && (a + b)[0] == a[0];
    }
  }

  lemma {:induction false} ForeignEntries(log: seq<Entry>, rid: u16)
    requires forall k :: 0 <= k < |log| ==> log[k].rec.rid != rid
    ensures RidEntries(log, rid) == []
  {
    if log != [] {
      ForeignEntries(log[1..], rid);
    }
  }

  lemma {:induction false} ForeignOwn(log: seq<Entry>, rid: u16)
    requires forall k :: 0 <= k < |log| ==> !log[k].own || log[k].rec.rid != rid
    ensures OwnRecords(log, rid) == []
  {
    if log != [] {
      ForeignOwn(log[1..], rid);
    }
  }

  lemma {:induction false} OwnEntriesBack(sent: seq<OutRecord>, rid: u16)
    requires forall k :: 0 <= k < |sent| ==> sent[k].rid == rid
    ensures OwnRecords(OwnEntries(sent), rid) == sent
  {
    if sent != [] {
      OwnEntriesBack(sent[1..], rid);
      assert OwnEntries(sent)[1..] == OwnEntries(sent[1..]);
      assert sent == [sent[0]] + sent[1..];
    }
  }

  // ------------------------------------------------------------ the new records

  /** The entry of request id `rid` between dispatches: an open RESPONDER request that
      has put out nothing but STDOUT records of its own. */
  ghost predicate Open(q: Req, rid: u16) {
    && q.begin.rid == rid && q.begin.body.BeginBody? && q.begin.body.role == RESPONDER
    && !q.complete && Grammatical(q)
  }

  /** A destroyed request: it has ended, and grammatically. */
  ghost predicate Closed(q: Req, rid: u16) {
    && q.begin.rid == rid && q.complete && Grammatical(q)
  }

  function SentIn(slot: Option<Slot>): seq<OutRecord> {
    match slot case None => [] case Some(s) => s.req.sent
  }

  function SentOf(done: seq<Req>): seq<OutRecord> {
    if done == [] then [] else done[0].sent + SentOf(done[1..])
  }

  /** The entries a step added to the log. */
  function News(o: Out, o': Out): seq<Entry> {
    if |o.log| <= |o'.log| then o'.log[|o.log|..] else []
  }

  /** A dispatch on `rid` adds replies, or exactly what the request of that id put out;
      the entry stays open, or its request is closed. */
  ghost predicate Grows(o: Out, slot: Option<Slot>, rid: u16, arm: Arm) {
    var news := News(o, arm.out);
    && o.log <= arm.out.log
    && (forall k :: 0 <= k < |news| ==> news[k].rec.rid == rid || (!news[k].own && news[k].rec.rid == 0))
    && Faithful(news)
    && SentIn(slot) <= SentOf(arm.done) + SentIn(arm.slot)
    && OwnRecords(news, rid) == (SentOf(arm.done) + SentIn(arm.slot))[|SentIn(slot)|..]
    && (arm.slot.Some? ==> Open(arm.slot.value.req, rid))
    && (forall k :: 0 <= k < |arm.done| ==> Closed(arm.done[k], rid))
  }

  /** An entry carries the bytes its record renders to, which do not depend on where in the
      buffer, unless it is an answer to GET_VALUES that answers something. */
  ghost predicate Carried(e: Entry) {
    e.bytes == Appended(e.rec, 0) || (e.rec.ResultOut? && PairProofs.Present(e.rec.values) != [])
  }

  /** Every entry does. */
  ghost predicate Faithful(log: seq<Entry>) {
    forall k :: 0 <= k < |log| ==> Carried(log[k])
  }

  lemma NewsOf(o: Out, o': Out, news: seq<Entry>)
    requires o'.log == o.log + news
    ensures News(o, o') == news && o.log <= o'.log
  {
  }

  /** The records of a request all carry its id. */
  lemma SentRids(q: Req)
    requires Grammatical(q)
    ensures forall k :: 0 <= k < |q.sent| ==> q.sent[k].rid == q.begin.rid
  {
    if q.complete {
      assert forall k :: 0 <= k < |q.sent| - 1 ==> q.sent[k] == q.sent[..|q.sent| - 1][k];
    }
  }

  lemma OwnNews(q: Req, q': Req, rid: u16)
    requires Grammatical(q') && q'.begin.rid == rid && q.sent <= q'.sent
    ensures var news := OwnEntries(q'.sent[|q.sent|..]);
            && OwnRecords(news, rid) == q'.sent[|q.sent|..]
            && forall k :: 0 <= k < |news| ==> news[k].rec.rid == rid
  {
    SentRids(q');
    OwnEntriesBack(q'.sent[|q.sent|..], rid);
  }

  lemma EndHookSilent(cfg: Config, link: Link, o: Out, q: Req)
    requires q.complete
    ensures EndHook(cfg, link, o, q).log == o.log
    ensures o.failed ==> EndHook(cfg, link, o, q).failed
    ensures Conserved(o) && o.unsent == [] ==> Conserved(EndHook(cfg, link, o, q))
    ensures o.unsent == [] ==> EndHook(cfg, link, o, q).unsent == [] && EndHook(cfg, link, o, q).writes == o.writes
  {
    match cfg.endRender
    case None =>
    case Some(f) =>
      var w := Wiped(q);
      RunKeeps(link, o, w, f(w));
      var r := Run(link, o, w, f(w));
      assert r.req.sent[|w.sent|..] == [];
      if o.unsent == [] {
        CompleteIsSilent(link, o, w, f(w));
      }
  }

  /** With nothing unsent, all an end_request callback can do is rewind the input. */
  lemma EndHookNothing(cfg: Config, link: Link, o: Out, q: Req)
    requires q.complete && o.unsent == []
    ensures OnlyRewound(o, EndHook(cfg, link, o, q))
  {
    match cfg.endRender
    case None =>
    case Some(f) => CompleteIsSilent(link, o, Wiped(q), f(Wiped(q)));
  }

  lemma ServedKeeps(h: Option<Handler>, link: Link, o: Out, q: Req, ev: Event)
    ensures var r := Served(h, link, o, q, ev); Keeps(o, q, r.out, r.req) && (r.rc < 0 ==> r.req.complete)
    ensures var r := Served(h, link, o, q, ev); Conserved(o) && Quiet(o, q) && r.req.complete ==> r.out.unsent == []
  {
    OwnsSelf(o, q);
    if h.Some? {
      RunKeeps(link, o, q, h.value(ev, q));
    }
    var r := RunHandler(h, link, o, q, ev);
    if r.rc < 0 {
      AbortKeeps(link, r.out, r.req, AbortStatus(r.rc));
      var s := Served(h, link, o, q, ev);
      KeepsTransitive(o, q, r.out, r.req, s.out, s.req);
    }
  }

  /** A callback that fails on a request still open ends it with an END_REQUEST whose
      status is the negated code, in 32 bits. */
  lemma FailureReported(h: Option<Handler>, link: Link, o: Out, q: Req, ev: Event)
    requires RunHandler(h, link, o, q, ev).rc < 0 && !RunHandler(h, link, o, q, ev).req.complete
    ensures var ran, served := RunHandler(h, link, o, q, ev), Served(h, link, o, q, ev);
            && served.req.complete && !served.req.finalized
            && |served.req.sent| == |ran.req.sent| + 1 && ran.req.sent <= served.req.sent
            && var last := served.req.sent[|ran.req.sent|];
               last.EndOut? && last.rid == q.begin.rid && last.protoStatus == REQUEST_COMPLETE
               && (last.appStatus + ran.rc) % 0x1_0000_0000 == 0
  {
    OwnsSelf(o, q);
    if h.Some? {
      RunKeeps(link, o, q, h.value(ev, q));
    }
    Negated(RunHandler(h, link, o, q, ev).rc);
  }

  lemma Negated(rc: int)
    ensures (AbortStatus(rc) + rc) % 0x1_0000_0000 == 0
  {
  }

  /** The names asked for stay as they are; exactly the three known ones get a value. */
  lemma AnsweredNames(cfg: Config, asked: map<bytes, Option<bytes>>, name: bytes)
    ensures var values := Answered(cfg, asked);
            && (name in values <==> name in asked)
            && (name in asked ==>
                  values[name] == if name == MAX_CONNS then Some(cfg.maxConns)
                                  else if name == MAX_REQS then Some(cfg.maxReqs)
                                  else if name == MPXS_CONNS then Some([0x31])
                                  else asked[name])
  {
    assert |MAX_CONNS| == 14 && |MAX_REQS| == 13 && |MPXS_CONNS| == 15;
  }

  // ------------------------------------------------------------------- arms

  /** One reply, the table entry as it was. */
  lemma EntryGrows(o: Out, o': Out, slot: Option<Slot>, e: Entry, rid: u16, freed: seq<nat>, status: Status)
    requires (e.rec.rid == rid || e.rec.rid == 0) && !e.own && Carried(e)
    requires slot.Some? ==> Open(slot.value.req, rid)
    requires o'.log == o.log + [e]
    ensures Grows(o, slot, rid, Arm(o', slot, freed, [], status, false))
    ensures News(o, o') == [e]
  {
    NewsOf(o, o', [e]);
    assert OwnRecords([e], rid) == [];
    assert [] + SentIn(slot) == SentIn(slot);
  }

  lemma PutGrows(o: Out, o': Out, slot: Option<Slot>, rec: OutRecord, rid: u16, freed: seq<nat>, status: Status)
    requires rec.rid == rid || rec.rid == 0
    requires slot.Some? ==> Open(slot.value.req, rid)
    requires o'.log == o.log + [EntryOf(false, rec)]
    ensures Grows(o, slot, rid, Arm(o', slot, freed, [], status, false))
    ensures News(o, o') == [EntryOf(false, rec)]
  {
    EntryGrows(o, o', slot, EntryOf(false, rec), rid, freed, status);
  }

  lemma ReplyGrows(link: Link, o: Out, slot: Option<Slot>, rec: OutRecord, rid: u16, id: nat)
    requires rec.rid == rid || rec.rid == 0
    requires slot.Some? ==> Open(slot.value.req, rid)
    ensures Grows(o, slot, rid, Reply(link, o, slot, rec, id))
    ensures News(o, Reply(link, o, slot, rec, id).out) == [EntryOf(false, rec)]
    ensures Conserved(o) ==> Conserved(Reply(link, o, slot, rec, id).out)
  {
    var arm := Reply(link, o, slot, rec, id);
    if Conserved(o) {
      PushConserves(o, EntryOf(false, rec));
      FlushConserves(link, Put(o, false, rec));
    }
    PutGrows(o, arm.out, slot, rec, rid, arm.freed, arm.status);
  }

  /** A served request that stays open: the log has what it put out. */
  lemma OpenGrows(o: Out, slot: Option<Slot>, rid: u16, q: Req, r: Returned, ids: Ids)
    requires Open(q, rid) && q.sent == SentIn(slot) && Keeps(o, q, r.out, r.req) && !r.req.complete
    ensures Grows(o, slot, rid, Arm(r.out, Some(Slot(r.req, ids)), [], [], Running, false))
    ensures News(o, r.out) == OwnEntries(r.req.sent[|q.sent|..])
  {
    OwnNews(q, r.req, rid);
    NewsOf(o, r.out, OwnEntries(r.req.sent[|q.sent|..]));
    assert [] + r.req.sent == r.req.sent;
  }

  /** A served request that is closed: the log has what it put out, and its end_request
      callback adds nothing. */
  lemma ClosedGrows(cfg: Config, link: Link, o: Out, slot: Option<Slot>, rid: u16, q: Req, r: Returned, ids: Ids)
    requires Open(q, rid) && q.sent == SentIn(slot) && Keeps(o, q, r.out, r.req) && r.req.complete
    ensures Grows(o, slot, rid, Retire(cfg, link, r.out, Slot(r.req, ids)))
    ensures News(o, Retire(cfg, link, r.out, Slot(r.req, ids)).out) == OwnEntries(r.req.sent[|q.sent|..])
    ensures Conserved(r.out) && r.out.unsent == [] ==> Conserved(Retire(cfg, link, r.out, Slot(r.req, ids)).out)
  {
    hide EndHook, OwnRecords;
    EndHookSilent(cfg, link, r.out, r.req);
    OwnNews(q, r.req, rid);
    NewsOf(o, Retire(cfg, link, r.out, Slot(r.req, ids)).out, OwnEntries(r.req.sent[|q.sent|..]));
    assert SentOf([r.req]) + [] == r.req.sent;
  }

  /** Flushing after a request is gone adds nothing to the log. */
  lemma FlushGrows(link: Link, o: Out, slot: Option<Slot>, rid: u16, gone: Arm, extra: seq<nat>, id: nat)
    requires Grows(o, slot, rid, gone) && gone.slot.None?
    ensures var arm := FlushArm(link, gone.out, None, gone.freed, gone.done, extra, id);
            && Grows(o, slot, rid, arm) && News(o, arm.out) == News(o, gone.out)
            && (Conserved(gone.out) ==> Conserved(arm.out))
  {
    if Conserved(gone.out) {
      FlushConserves(link, gone.out);
    }
  }

  /** Whatever becomes of a served request. */
  lemma SettleGrows(cfg: Config, link: Link, o: Out, slot: Option<Slot>, rid: u16, q: Req, r: Returned,
                    ids: Ids, body: Body, id: nat)
    requires Open(q, rid) && q.sent == SentIn(slot) && Keeps(o, q, r.out, r.req) && (r.rc < 0 ==> r.req.complete)
    requires Conserved(o) && Quiet(o, q) && r.req.complete ==> r.out.unsent == []
    ensures var arm := Settle(cfg, link, r, ids, body, id);
            && Grows(o, slot, rid, arm) && News(o, arm.out) == ServedNews(r, q)
            && (Conserved(o) ==> Conserved(arm.out))
  {
    if r.req.complete {
      ClosedGrows(cfg, link, o, slot, rid, q, r, ids);
      FlushGrows(link, o, slot, rid, Retire(cfg, link, r.out, Slot(r.req, ids)), [], id);
    } else {
      OpenGrows(o, slot, rid, q, r, ids);
    }
  }

  /** What an arm with a callback adds to the log. */
  function ServedNews(r: Returned, q: Req): seq<Entry> {
    if |q.sent| <= |r.req.sent| then OwnEntries(r.req.sent[|q.sent|..]) else []
  }

  lemma BeginGrows(cfg: Config, link: Link, o: Out, slot: Option<Slot>, ev: Event, id: nat)
    requires ev.rec.body.BeginBody?
    requires slot.Some? ==> Open(slot.value.req, ev.rec.rid)
    ensures var arm := DispatchBegin(cfg, link, o, slot, ev, id);
            && Grows(o, slot, ev.rec.rid, arm)
            && (Conserved(o) ==> Conserved(arm.out))
            && News(o, arm.out) ==
               if ev.rec.body.role != RESPONDER then [EntryOf(false, EndOut(ev.rec.rid, UNKNOWN_ROLE, 0))]
               else if slot.Some? then [EntryOf(false, EndOut(ev.rec.rid, REQUEST_COMPLETE, 0))]
               else ServedNews(Served(cfg.beginParse, link, o, NewReq(ev.rec), ev), NewReq(ev.rec))
  {
    var rid := ev.rec.rid;
    if ev.rec.body.role != RESPONDER {
      ReplyGrows(link, o, slot, EndOut(rid, UNKNOWN_ROLE, 0), rid, id);
    } else if slot.Some? {
      ReplyGrows(link, o, slot, EndOut(rid, REQUEST_COMPLETE, 0), rid, id);
    } else {
      var q := NewReq(ev.rec);
      var r := Served(cfg.beginParse, link, o, q, ev);
      ServedKeeps(cfg.beginParse, link, o, q, ev);
      SettleGrows(cfg, link, o, slot, rid, q, r, NewIds(id), ev.rec.body, id);
    }
  }

  lemma AbortGrows(cfg: Config, link: Link, o: Out, slot: Option<Slot>, ev: Event, id: nat)
    requires slot.Some? ==> Open(slot.value.req, ev.rec.rid)
    ensures var arm := DispatchAbort(cfg, link, o, slot, ev, id);
            && Grows(o, slot, ev.rec.rid, arm)
            && (Conserved(o) ==> Conserved(arm.out))
            && News(o, arm.out) == [EntryOf(slot.Some?, EndOut(ev.rec.rid, REQUEST_COMPLETE, 0))]
  {
    var rid := ev.rec.rid;
    match slot
    case None => ReplyGrows(link, o, slot, EndOut(rid, REQUEST_COMPLETE, 0), rid, id);
    case Some(s) =>
      var a := Abort(link, o, s.req, 0);
      AbortKeeps(link, o, s.req, 0);
      ClosedGrows(cfg, link, o, slot, rid, s.req, Returned(a.out, a.req, 0), s.ids);
      FlushGrows(link, o, slot, rid, Retire(cfg, link, a.out, Slot(a.req, s.ids)), [id], id);
      assert a.req.sent[|s.req.sent|..] == [EndOut(rid, REQUEST_COMPLETE, 0)];
  }

  lemma StreamGrows(cfg: Config, link: Link, o: Out, slot: Option<Slot>, ev: Event, id: nat)
    requires IsStream(ev.rec.body)
    requires slot.Some? ==> Open(slot.value.req, ev.rec.rid)
    ensures var arm := DispatchStream(cfg, link, o, slot, ev, id);
            && Grows(o, slot, ev.rec.rid, arm)
            && (Conserved(o) ==> Conserved(arm.out))
            && News(o, arm.out) ==
               match slot
               case None => [EntryOf(false, EndOut(ev.rec.rid, REQUEST_COMPLETE, 0))]
               case Some(s) =>
                 var q := Enqueue(s.req, ev.rec);
                 ServedNews(Served(StreamHandler(cfg, ev.rec.body), link, o, q, ev), q)
  {
    var rid := ev.rec.rid;
    match slot
    case None => ReplyGrows(link, o, slot, EndOut(rid, REQUEST_COMPLETE, 0), rid, id);
    case Some(s) =>
      var q, h := Enqueue(s.req, ev.rec), StreamHandler(cfg, ev.rec.body);
      var r := Served(h, link, o, q, ev);
      ServedKeeps(h, link, o, q, ev);
      SettleGrows(cfg, link, o, slot, rid, q, r, EnqueueId(s.ids, ev.rec.body, id), ev.rec.body, id);
  }

  /** The entry an answer without assertions adds. */
  ghost function AnswerEntry(order: map<bytes, Option<bytes>> -> seq<(bytes, Option<bytes>)>, cfg: Config, o: Out,
                             ev: Event): Entry
    requires ev.rec.body.ValuesBody?
  {
    var rec := ResultOut(ev.rec.rid, order(Answered(cfg, ev.rec.body.values)));
    Entry(false, rec, AppendedIn(false, rec, o.End()))
  }

  lemma AnswerPlain(order: map<bytes, Option<bytes>> -> seq<(bytes, Option<bytes>)>, cfg: Config, o: Out, ev: Event)
    requires ev.rec.body.ValuesBody?
    ensures Carried(AnswerEntry(order, cfg, o, ev))
  {
    var rec := AnswerEntry(order, cfg, o, ev).rec;
    PairProofs.ResultRendersIffEmpty(rec, o.End());
    PairProofs.ResultRendersIffEmpty(rec, 0);
    if PairProofs.Present(rec.values) == [] {
      AppendedChecked(false, rec, o.End());
      EmptyAnswer(rec, o.End());
    }
  }

  /** An answer that answers nothing is the same frame wherever it stands. */
  lemma EmptyAnswer(rec: OutRecord, eod: nat)
    requires rec.ResultOut? && PairProofs.Present(rec.values) == []
    ensures Appended(rec, eod) == Appended(rec, 0)
  {
    PairProofs.RenderedPairs(rec.values, eod + HEADER_LEN);
    PairProofs.RenderedPairs(rec.values, HEADER_LEN);
    PairProofs.ResultRendersIffEmpty(rec, eod);
    PairProofs.ResultRendersIffEmpty(rec, 0);
  }

  lemma ValuesGrows(cfg: Config, o: Out, slot: Option<Slot>, ev: Event, id: nat)
    requires ev.rec.body.ValuesBody?
    requires slot.Some? ==> Open(slot.value.req, ev.rec.rid)
    ensures var arm := DispatchValues(cfg, o, slot, ev, id);
            && Grows(o, slot, ev.rec.rid, arm)
            && (Conserved(o) ==> Conserved(arm.out))
            && News(o, arm.out)
               == match cfg.build
                  case Debug => if NoneSet(Answered(cfg, ev.rec.body.values))
                                then [EntryOf(false, ResultOut(ev.rec.rid, []))] else []
                  case Release(order) => [AnswerEntry(order, cfg, o, ev)]
  {
    hide AppendedIn, Appended, Conserved;
    match cfg.build
    case Debug =>
      var rec := ResultOut(ev.rec.rid, []);
      if NoneSet(Answered(cfg, ev.rec.body.values)) {
        if Conserved(o) {
          PushConserves(o, EntryOf(false, rec));
        }
        EntryGrows(o, Put(o, false, rec), slot, EntryOf(false, rec), ev.rec.rid, [id], Running);
      } else {
        NewsOf(o, o, []);
        assert [] + SentIn(slot) == SentIn(slot);
      }
    case Release(order) =>
      var e := AnswerEntry(order, cfg, o, ev);
      AnswerPlain(order, cfg, o, ev);
      if Conserved(o) {
        PushConserves(o, e);
      }
      EntryGrows(o, Push(o, e), slot, e, ev.rec.rid, [id], DispatchValues(cfg, o, slot, ev, id).status);
  }

  /** One dispatch, any arm, any callback: the response grammar and the conservation of
      the shared output are kept, and the log grows by this request id's records only. */
  lemma DispatchGrows(cfg: Config, link: Link, o: Out, slot: Option<Slot>, ev: Event, id: nat)
    requires slot.Some? ==> Open(slot.value.req, ev.rec.rid)
    ensures Grows(o, slot, ev.rec.rid, Dispatch(cfg, link, o, slot, ev, id))
    ensures Conserved(o) ==> Conserved(Dispatch(cfg, link, o, slot, ev, id).out)
  {
    hide Grows, Conserved, News, DispatchBegin, DispatchAbort, DispatchStream, DispatchValues, Reply, Open;
    match ev.rec.body
    case BeginBody(_, _) => BeginGrows(cfg, link, o, slot, ev, id);
    case AbortBody => AbortGrows(cfg, link, o, slot, ev, id);
    case ParamsBody(_) => StreamGrows(cfg, link, o, slot, ev, id);
    case StdinBody(_, _) => StreamGrows(cfg, link, o, slot, ev, id);
    case DataBody(_, _) => StreamGrows(cfg, link, o, slot, ev, id);
    case ValuesBody(_) => ValuesGrows(cfg, o, slot, ev, id);
    case ResultBody(_) => ReplyGrows(link, o, slot, UnknownTypeOut(0, GET_VALUES_RESULT), ev.rec.rid, id);
  }

  // ------------------------------------------------------------- independence

  lemma ServedIndependent(h: Option<Handler>, link: Link, o1: Out, o2: Out, q: Req, ev: Event)
    requires AllWritesSucceed(link)
    ensures Served(h, link, o1, q, ev).req == Served(h, link, o2, q, ev).req
    ensures Served(h, link, o1, q, ev).rc == Served(h, link, o2, q, ev).rc
  {
    if h.Some? {
      RunIndependent(link, o1, o2, q, h.value(ev, q));
    }
  }

  ghost predicate SameReq(s1: Option<Slot>, s2: Option<Slot>) {
    s1.Some? == s2.Some? && (s1.Some? ==> s1.value.req == s2.value.req)
  }

  /** Two dispatches of a record on connections that agree on its request. */
  ghost predicate Alike(o1: Out, a1: Arm, o2: Out, a2: Arm) {
    a1.status == a2.status && SameReq(a1.slot, a2.slot) && News(o1, a1.out) == News(o2, a2.out)
  }

  lemma SettleSame(cfg: Config, link: Link, r1: Returned, r2: Returned, ids1: Ids, ids2: Ids,
                   body: Body, id1: nat, id2: nat)
    requires AllWritesSucceed(link) && r1.req == r2.req && r1.rc == r2.rc
    ensures var a1, a2 := Settle(cfg, link, r1, ids1, body, id1), Settle(cfg, link, r2, ids2, body, id2);
            a1.status == a2.status && SameReq(a1.slot, a2.slot)
  {
  }

  lemma BeginSame(cfg: Config, link: Link, o1: Out, o2: Out, s1: Option<Slot>, s2: Option<Slot>,
                  ev: Event, id1: nat, id2: nat)
    requires ev.rec.body.BeginBody? && AllWritesSucceed(link) && SameReq(s1, s2)
    ensures var a1, a2 := DispatchBegin(cfg, link, o1, s1, ev, id1), DispatchBegin(cfg, link, o2, s2, ev, id2);
            a1.status == a2.status && SameReq(a1.slot, a2.slot)
  {
    var q := NewReq(ev.rec);
    ServedIndependent(cfg.beginParse, link, o1, o2, q, ev);
    SettleSame(cfg, link, Served(cfg.beginParse, link, o1, q, ev), Served(cfg.beginParse, link, o2, q, ev),
               NewIds(id1), NewIds(id2), ev.rec.body, id1, id2);
  }

  lemma BeginIndependent(cfg: Config, link: Link, o1: Out, o2: Out, s1: Option<Slot>, s2: Option<Slot>,
                         ev: Event, id1: nat, id2: nat)
    requires ev.rec.body.BeginBody? && AllWritesSucceed(link) && SameReq(s1, s2)
    requires s1.Some? ==> Open(s1.value.req, ev.rec.rid)
    ensures Alike(o1, DispatchBegin(cfg, link, o1, s1, ev, id1), o2, DispatchBegin(cfg, link, o2, s2, ev, id2))
  {
    ServedIndependent(cfg.beginParse, link, o1, o2, NewReq(ev.rec), ev);
    BeginSame(cfg, link, o1, o2, s1, s2, ev, id1, id2);
    BeginGrows(cfg, link, o1, s1, ev, id1);
    BeginGrows(cfg, link, o2, s2, ev, id2);
  }

  lemma StreamSame(cfg: Config, link: Link, o1: Out, o2: Out, s1: Option<Slot>, s2: Option<Slot>,
                   ev: Event, id1: nat, id2: nat)
    requires IsStream(ev.rec.body) && AllWritesSucceed(link) && SameReq(s1, s2)
    ensures var a1, a2 := DispatchStream(cfg, link, o1, s1, ev, id1), DispatchStream(cfg, link, o2, s2, ev, id2);
            a1.status == a2.status && SameReq(a1.slot, a2.slot)
  {
    if s1.Some? {
      var q, h := Enqueue(s1.value.req, ev.rec), StreamHandler(cfg, ev.rec.body);
      ServedIndependent(h, link, o1, o2, q, ev);
      SettleSame(cfg, link, Served(h, link, o1, q, ev), Served(h, link, o2, q, ev),
                 EnqueueId(s1.value.ids, ev.rec.body, id1), EnqueueId(s2.value.ids, ev.rec.body, id2), ev.rec.body, id1, id2);
    }
  }

  lemma StreamIndependent(cfg: Config, link: Link, o1: Out, o2: Out, s1: Option<Slot>, s2: Option<Slot>,
                          ev: Event, id1: nat, id2: nat)
    requires IsStream(ev.rec.body) && AllWritesSucceed(link) && SameReq(s1, s2)
    requires s1.Some? ==> Open(s1.value.req, ev.rec.rid)
    ensures Alike(o1, DispatchStream(cfg, link, o1, s1, ev, id1), o2, DispatchStream(cfg, link, o2, s2, ev, id2))
  {
    if s1.Some? {
      ServedIndependent(StreamHandler(cfg, ev.rec.body), link, o1, o2, Enqueue(s1.value.req, ev.rec), ev);
    }
    StreamSame(cfg, link, o1, o2, s1, s2, ev, id1, id2);
    StreamGrows(cfg, link, o1, s1, ev, id1);
    StreamGrows(cfg, link, o2, s2, ev, id2);
  }

  lemma AbortIndependent(cfg: Config, link: Link, o1: Out, o2: Out, s1: Option<Slot>, s2: Option<Slot>,
                         ev: Event, id1: nat, id2: nat)
    requires AllWritesSucceed(link) && SameReq(s1, s2)
    requires s1.Some? ==> Open(s1.value.req, ev.rec.rid)
    ensures Alike(o1, DispatchAbort(cfg, link, o1, s1, ev, id1), o2, DispatchAbort(cfg, link, o2, s2, ev, id2))
  {
    AbortGrows(cfg, link, o1, s1, ev, id1);
    AbortGrows(cfg, link, o2, s2, ev, id2);
  }

  lemma ValuesIndependent(cfg: Config, o1: Out, o2: Out, s1: Option<Slot>, s2: Option<Slot>,
                          ev: Event, id1: nat, id2: nat)
    requires ev.rec.body.ValuesBody? && SameReq(s1, s2) && cfg.build.Debug?
    requires s1.Some? ==> Open(s1.value.req, ev.rec.rid)
    ensures Alike(o1, DispatchValues(cfg, o1, s1, ev, id1), o2, DispatchValues(cfg, o2, s2, ev, id2))
  {
    ValuesGrows(cfg, o1, s1, ev, id1);
    ValuesGrows(cfg, o2, s2, ev, id2);
  }

  lemma ReplyIndependent(link: Link, o1: Out, o2: Out, s1: Option<Slot>, s2: Option<Slot>, rec: OutRecord, rid: u16,
                         id1: nat, id2: nat)
    requires AllWritesSucceed(link) && SameReq(s1, s2) && (rec.rid == rid || rec.rid == 0)
    requires s1.Some? ==> Open(s1.value.req, rid)
    ensures Alike(o1, Reply(link, o1, s1, rec, id1), o2, Reply(link, o2, s2, rec, id2))
  {
    ReplyGrows(link, o1, s1, rec, rid, id1);
    ReplyGrows(link, o2, s2, rec, rid, id2);
  }

  /** Without assertions an answer to GET_VALUES depends on where in the buffer it stands. The
      parser gives such a query the id zero. */
  ghost predicate Placeless(cfg: Config, ev: Event) {
    cfg.build.Debug? || !ev.rec.body.ValuesBody?
  }

  /** While writes succeed, a dispatch does not depend on the rest of the connection: same
      entry afterwards, same records put out, same verdict. */
  lemma DispatchIndependent(cfg: Config, link: Link, o1: Out, o2: Out, s1: Option<Slot>, s2: Option<Slot>,
                            ev: Event, id1: nat, id2: nat)
    requires AllWritesSucceed(link) && SameReq(s1, s2) && Placeless(cfg, ev)
    requires s1.Some? ==> Open(s1.value.req, ev.rec.rid)
    ensures Alike(o1, Dispatch(cfg, link, o1, s1, ev, id1), o2, Dispatch(cfg, link, o2, s2, ev, id2))
  {
    match ev.rec.body
    case BeginBody(_, _) => BeginIndependent(cfg, link, o1, o2, s1, s2, ev, id1, id2);
    case AbortBody => AbortIndependent(cfg, link, o1, o2, s1, s2, ev, id1, id2);
    case ParamsBody(_) => StreamIndependent(cfg, link, o1, o2, s1, s2, ev, id1, id2);
    case StdinBody(_, _) => StreamIndependent(cfg, link, o1, o2, s1, s2, ev, id1, id2);
    case DataBody(_, _) => StreamIndependent(cfg, link, o1, o2, s1, s2, ev, id1, id2);
    case ValuesBody(_) => ValuesIndependent(cfg, o1, o2, s1, s2, ev, id1, id2);
    case ResultBody(_) =>
      ReplyIndependent(link, o1, o2, s1, s2, UnknownTypeOut(0, GET_VALUES_RESULT), ev.rec.rid, id1, id2);
  }
}
