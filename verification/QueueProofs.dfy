/** What a request holds: its begin_request and its queues are, position by position, the
    records its numbers stand for, and those are all the client sent for it. */
module QueueProofs {
  import opened Bytes
  import opened Wire
  import opened Engine
  import opened ParamProofs
  import RunProofs

  datatype Kind = InParams | InStdin | InData

  predicate Goes(b: Body, k: Kind) {
    match k
    case InParams => b.ParamsBody?
    case InStdin => b.StdinBody?
    case InData => b.DataBody?
  }

  function QueueOf(q: Req, k: Kind): seq<Record> {
    match k
    case InParams => q.params
    case InStdin => q.stdin
    case InData => q.data
  }

  function NumbersOf(ids: Ids, k: Kind): seq<nat> {
    match k
    case InParams => ids.params
    case InStdin => ids.stdin
    case InData => ids.data
  }

  /** The numbers of the records of one kind an id received from number `from` on, and
      the records. */
  function Received(evs: seq<Event>, rid: u16, k: Kind, from: nat): (r: seq<nat>)
    ensures forall i :: 0 <= i < |r| ==> from <= r[i] < |evs|
  {
    if |evs| <= from then []
    else
      var n := |evs| - 1;
      Received(evs[..n], rid, k, from) + if evs[n].rec.rid == rid && Goes(evs[n].rec.body, k) then [n] else []
  }

  function ReceivedRecords(evs: seq<Event>, rid: u16, k: Kind, from: nat): seq<Record> {
    if |evs| <= from then []
    else
      var n := |evs| - 1;
      ReceivedRecords(evs[..n], rid, k, from)
      + if evs[n].rec.rid == rid && Goes(evs[n].rec.body, k) then [evs[n].rec] else []
  }

  function RecordsAt(evs: seq<Event>, ns: seq<nat>): seq<Record>
    requires forall i :: 0 <= i < |ns| ==> ns[i] < |evs|
  {
    seq(|ns|, (i: nat) requires i < |ns| => evs[ns[i]].rec)
  }

  lemma {:induction false} ReceivedAt(evs: seq<Event>, rid: u16, k: Kind, from: nat)
    ensures RecordsAt(evs, Received(evs, rid, k, from)) == ReceivedRecords(evs, rid, k, from)
  {
    if |evs| > from {
      var n := |evs| - 1;
      ReceivedAt(evs[..n], rid, k, from);
      var before := Received(evs[..n], rid, k, from);
      assert RecordsAt(evs, before) == RecordsAt(evs[..n], before);
    }
  }

  /** A table entry is what its id received since its BEGIN_REQUEST. */
  ghost predicate Follows(evs: seq<Event>, rid: u16, s: Slot) {
    && s.ids.begin < |evs| && evs[s.ids.begin].rec == s.req.begin
    && forall k: Kind :: FollowsIn(evs, rid, s, k)
  }

  ghost predicate FollowsIn(evs: seq<Event>, rid: u16, s: Slot, k: Kind) {
    && NumbersOf(s.ids, k) == Received(evs, rid, k, s.ids.begin + 1)
    && QueueOf(s.req, k) == ReceivedRecords(evs, rid, k, s.ids.begin + 1)
  }

  /** The records a request holds, in the order in which it destroys them. */
  function HeldRecords(q: Req): seq<Record> {
    [q.begin] + q.params + q.stdin + q.data
  }

  /** The numbers of a request stand for exactly the records it holds, one for one. */
  lemma HeldExactly(evs: seq<Event>, rid: u16, s: Slot)
    requires Follows(evs, rid, s)
    ensures forall i :: 0 <= i < |s.ids.All()| ==> s.ids.All()[i] < |evs|
    ensures RecordsAt(evs, s.ids.All()) == HeldRecords(s.req)
  {
    var from := s.ids.begin + 1;
    assert FollowsIn(evs, rid, s, InParams) && FollowsIn(evs, rid, s, InStdin) && FollowsIn(evs, rid, s, InData);
    ReceivedAt(evs, rid, InParams, from);
    ReceivedAt(evs, rid, InStdin, from);
    ReceivedAt(evs, rid, InData, from);
    AllJoin(evs, s.ids);
  }

  lemma AllJoin(evs: seq<Event>, ids: Ids)
    requires ids.begin < |evs|
    requires forall i :: 0 <= i < |ids.params| ==> ids.params[i] < |evs|
    requires forall i :: 0 <= i < |ids.stdin| ==> ids.stdin[i] < |evs|
    requires forall i :: 0 <= i < |ids.data| ==> ids.data[i] < |evs|
    ensures forall i :: 0 <= i < |ids.All()| ==> ids.All()[i] < |evs|
    ensures RecordsAt(evs, ids.All())
         == [evs[ids.begin].rec] + RecordsAt(evs, ids.params) + RecordsAt(evs, ids.stdin) + RecordsAt(evs, ids.data)
  {
    RecordsJoin(evs, [ids.begin], ids.params);
    RecordsJoin(evs, [ids.begin] + ids.params, ids.stdin);
    RecordsJoin(evs, [ids.begin] + ids.params + ids.stdin, ids.data);
    assert RecordsAt(evs, [ids.begin]) == [evs[ids.begin].rec];
  }

  lemma RecordsJoin(evs: seq<Event>, a: seq<nat>, b: seq<nat>)
    requires forall i :: 0 <= i < |a| ==> a[i] < |evs|
    requires forall i :: 0 <= i < |b| ==> b[i] < |evs|
    ensures forall i :: 0 <= i < |a + b| ==> (a + b)[i] < |evs|
    ensures RecordsAt(evs, a + b) == RecordsAt(evs, a) + RecordsAt(evs, b)
  {
  }

  // ---------------------------------------------------------------- one record

  /** A record that is not for a request's queue leaves it as it was. */
  lemma OtherRecord(evs: seq<Event>, ev: Event, rid: u16, s: Slot, s': Slot)
    requires Follows(evs, rid, s) && (ev.rec.rid != rid || !IsStream(ev.rec.body))
    requires s'.ids == s.ids && s'.req.begin == s.req.begin && forall k: Kind :: QueueOf(s'.req, k) == QueueOf(s.req, k)
    ensures Follows(evs + [ev], rid, s')
  {
    assert (evs + [ev])[..|evs|] == evs;
    forall k: Kind ensures FollowsIn(evs + [ev], rid, s', k) {
      assert FollowsIn(evs, rid, s, k);
    }
  }

  /** A record of a request joins its queue. */
  lemma QueuedRecord(evs: seq<Event>, ev: Event, s: Slot, s': Slot)
    requires Follows(evs, ev.rec.rid, s) && IsStream(ev.rec.body)
    requires s'.ids == EnqueueId(s.ids, ev.rec.body, |evs|)
    requires var q := Enqueue(s.req, ev.rec);
             s'.req.begin == q.begin && forall k: Kind :: QueueOf(s'.req, k) == QueueOf(q, k)
    ensures Follows(evs + [ev], ev.rec.rid, s')
  {
    assert (evs + [ev])[..|evs|] == evs;
    forall k: Kind ensures FollowsIn(evs + [ev], ev.rec.rid, s', k) {
      assert FollowsIn(evs, ev.rec.rid, s, k);
      assert NumbersOf(s'.ids, k) == NumbersOf(s.ids, k) + if Goes(ev.rec.body, k) then [|evs|] else [];
    }
  }

  /** A new request holds its BEGIN_REQUEST record and nothing else. */
  lemma FirstRecord(evs: seq<Event>, ev: Event, s: Slot)
    requires s.ids == NewIds(|evs|) && s.req.begin == ev.rec && forall k: Kind :: QueueOf(s.req, k) == []
    ensures Follows(evs + [ev], ev.rec.rid, s)
  {
    forall k: Kind ensures FollowsIn(evs + [ev], ev.rec.rid, s, k) {
      assert NumbersOf(s.ids, k) == [];
    }
  }

  /** What the record in hand makes of a request, before its callback's outcome is seen. */
  ghost function InHand(cfg: Config, link: Link, o: Out, slot: Option<Slot>, ev: Event, id: nat): Option<Slot> {
    match ev.rec.body
    case BeginBody(role, _) =>
      if role == RESPONDER && slot.None?
      then Some(Slot(Served(cfg.beginParse, link, o, NewReq(ev.rec), ev).req, NewIds(id)))
      else slot
    case AbortBody => if slot.None? then None else Some(Slot(Abort(link, o, slot.value.req, 0).req, slot.value.ids))
    case ParamsBody(_) => StreamInHand(cfg, link, o, slot, ev, id)
    case StdinBody(_, _) => StreamInHand(cfg, link, o, slot, ev, id)
    case DataBody(_, _) => StreamInHand(cfg, link, o, slot, ev, id)
    case _ => slot
  }

  ghost function StreamInHand(cfg: Config, link: Link, o: Out, slot: Option<Slot>, ev: Event, id: nat): Option<Slot>
    requires IsStream(ev.rec.body)
  {
    if slot.None? then None
    else Some(Slot(Served(StreamHandler(cfg, ev.rec.body), link, o, Enqueue(slot.value.req, ev.rec), ev).req,
                   EnqueueId(slot.value.ids, ev.rec.body, id)))
  }

  lemma InHandFollows(cfg: Config, link: Link, o: Out, slot: Option<Slot>, ev: Event, evs: seq<Event>)
    requires slot.Some? ==> Follows(evs, ev.rec.rid, slot.value)
    ensures var s := InHand(cfg, link, o, slot, ev, |evs|);
            s.Some? ==> Follows(evs + [ev], ev.rec.rid, s.value)
  {
    var s := InHand(cfg, link, o, slot, ev, |evs|);
    if s.Some? {
      if IsStream(ev.rec.body) {
        ServedQueues(StreamHandler(cfg, ev.rec.body), link, o, Enqueue(slot.value.req, ev.rec), ev);
        QueuedRecord(evs, ev, slot.value, s.value);
      } else if slot.None? {
        ServedQueues(cfg.beginParse, link, o, NewReq(ev.rec), ev);
        FirstRecord(evs, ev, s.value);
      } else {
        OtherRecord(evs, ev, ev.rec.rid, slot.value, s.value);
      }
    }
  }

  /** A dispatch keeps the request in hand in the table or destroys it, and with it, first
      of all it destroys, exactly the records it holds. */
  lemma KeptOrDestroyed(cfg: Config, link: Link, o: Out, slot: Option<Slot>, ev: Event, id: nat)
    ensures var arm, s := Dispatch(cfg, link, o, slot, ev, id), InHand(cfg, link, o, slot, ev, id);
            if arm.done == [] then arm.slot == s
            else s.Some? && Destroyed(arm, s.value)
  {
    match ev.rec.body
    case BeginBody(role, _) =>
      SettleKept(cfg, link, Served(cfg.beginParse, link, o, NewReq(ev.rec), ev), NewIds(id), ev.rec.body, id);
    case AbortBody =>
      if slot.Some? {
        DismissDestroys(cfg, link, Abort(link, o, slot.value.req, 0).out, InHand(cfg, link, o, slot, ev, id).value, [id], id);
      }
    case ParamsBody(_) => StreamKept(cfg, link, o, slot, ev, id);
    case StdinBody(_, _) => StreamKept(cfg, link, o, slot, ev, id);
    case DataBody(_, _) => StreamKept(cfg, link, o, slot, ev, id);
    case _ =>
  }

  ghost predicate Destroyed(arm: Arm, s: Slot) {
    arm.slot.None? && arm.done == [s.req] && s.ids.All() <= arm.freed
  }

  lemma DismissDestroys(cfg: Config, link: Link, o: Out, s: Slot, extra: seq<nat>, id: nat)
    ensures Destroyed(Dismiss(cfg, link, o, s, extra, id), s)
  {
  }

  lemma SettleKept(cfg: Config, link: Link, r: Returned, ids: Ids, body: Body, id: nat)
    ensures var arm := Settle(cfg, link, r, ids, body, id);
            if arm.done == [] then arm.slot == Some(Slot(r.req, ids)) else Destroyed(arm, Slot(r.req, ids))
  {
    DismissDestroys(cfg, link, r.out, Slot(r.req, ids), [], id);
  }

  lemma StreamKept(cfg: Config, link: Link, o: Out, slot: Option<Slot>, ev: Event, id: nat)
    requires IsStream(ev.rec.body)
    ensures var arm, s := DispatchStream(cfg, link, o, slot, ev, id), StreamInHand(cfg, link, o, slot, ev, id);
            if arm.done == [] then arm.slot == s else s.Some? && Destroyed(arm, s.value)
  {
    if slot.Some? {
      var r := Served(StreamHandler(cfg, ev.rec.body), link, o, Enqueue(slot.value.req, ev.rec), ev);
      SettleKept(cfg, link, r, EnqueueId(slot.value.ids, ev.rec.body, id), ev.rec.body, id);
    }
  }

  // ---------------------------------------------------------------- whole runs

  ghost predicate Numbered(evs: seq<Event>, c: Conn) {
    c.seen == |evs| && forall rid <- c.table :: Follows(evs, rid, c.table[rid])
  }

  lemma StepNumbered(cfg: Config, link: Link, c: Conn, evs: seq<Event>, ev: Event)
    requires Numbered(evs, c)
    ensures Numbered(evs + [ev], StepConn(cfg, link, c, ev).conn)
  {
    var slot := Lookup(c.table, ev.rec.rid);
    InHandFollows(cfg, link, c.out, slot, ev, evs);
    KeptOrDestroyed(cfg, link, c.out, slot, ev, c.seen);
    EntriesNumbered(c, evs, ev, Dispatch(cfg, link, c.out, slot, ev, c.seen));
  }

  /** Writing an entry back, with or without the error exit. */
  lemma EntriesNumbered(c: Conn, evs: seq<Event>, ev: Event, arm: Arm)
    requires Numbered(evs, c) && (arm.slot.Some? ==> Follows(evs + [ev], ev.rec.rid, arm.slot.value))
    ensures var c' := RunProofs.AfterArm(c, ev.rec.rid, arm);
            Numbered(evs + [ev], c') && Numbered(evs + [ev], Hangup(c'))
  {
    var c' := RunProofs.AfterArm(c, ev.rec.rid, arm);
    forall rid <- c'.table
      ensures Follows(evs + [ev], rid, c'.table[rid]) && Follows(evs + [ev], rid, Hangup(c').table[rid])
    {
      if rid != ev.rec.rid {
        OtherRecord(evs, ev, rid, c.table[rid], c'.table[rid]);
      }
      SameQueues(evs + [ev], rid, c'.table[rid], Hangup(c').table[rid]);
    }
  }

  lemma SameQueues(evs: seq<Event>, rid: u16, s: Slot, s': Slot)
    requires Follows(evs, rid, s) && (s'.ids == s.ids && s'.req == s.req.(complete := s'.req.complete))
    ensures Follows(evs, rid, s')
  {
    forall k: Kind ensures FollowsIn(evs, rid, s', k) {
      assert FollowsIn(evs, rid, s, k);
    }
  }

  /** Every record of a run is dispatched: none but the last one can end it. */
  ghost predicate AllDispatched(cfg: Config, link: Link, c: Conn, evs: seq<Event>)
    decreases |evs|
  {
    |evs| > 1 ==>
      && StepConn(cfg, link, c, evs[0]).status == Running
      && AllDispatched(cfg, link, StepConn(cfg, link, c, evs[0]).conn, evs[1..])
  }

  /** Over every run each request in the table holds its BEGIN_REQUEST record and, queue by
      queue and in order, exactly the PARAMS, STDIN and DATA records its id received since. */
  lemma {:induction false} RunNumbered(cfg: Config, link: Link, c: Conn, before: seq<Event>, evs: seq<Event>)
    requires Numbered(before, c) && AllDispatched(cfg, link, c, evs)
    ensures Numbered(before + evs, RunConn(cfg, link, c, evs).conn)
    decreases |evs|
  {
    hide StepConn, Numbered;
    if evs == [] {
      assert before + evs == before;
    } else {
      StepNumbered(cfg, link, c, before, evs[0]);
      assert before + [evs[0]] + evs[1..] == before + evs;
      if |evs| == 1 {
        assert evs == [evs[0]];
        RunProofs.RunOne(cfg, link, c, evs[0]);
      } else {
        RunNumbered(cfg, link, StepConn(cfg, link, c, evs[0]).conn, before + [evs[0]], evs[1..]);
      }
    }
  }

  /** What a dispatch of a run destroys of a request are the records it holds, each once:
      the numbers and the queues name the same records. */
  lemma DestroysItsQueues(cfg: Config, link: Link, c: Conn, evs: seq<Event>, ev: Event)
    requires Numbered(evs, c)
    ensures var arm := Dispatch(cfg, link, c.out, Lookup(c.table, ev.rec.rid), ev, c.seen);
            arm.done != [] ==>
              exists ids: Ids ::
                && ids.All() <= arm.freed && |arm.done| == 1
                && (forall i :: 0 <= i < |ids.All()| ==> ids.All()[i] < |evs| + 1)
                && RecordsAt(evs + [ev], ids.All()) == HeldRecords(arm.done[0])
  {
    var slot := Lookup(c.table, ev.rec.rid);
    InHandFollows(cfg, link, c.out, slot, ev, evs);
    KeptOrDestroyed(cfg, link, c.out, slot, ev, c.seen);
    var s := InHand(cfg, link, c.out, slot, ev, c.seen);
    if Dispatch(cfg, link, c.out, slot, ev, c.seen).done != [] {
      HeldExactly(evs + [ev], ev.rec.rid, s.value);
    }
  }
}
