/** Who owns a parsed record: records are numbered as they are dispatched, and each number
    is either destroyed or held by one request. */
module OwnershipProofs {
  import opened Bytes
  import opened Wire
  import opened Engine
  import opened RequestProofs

  function Occurs(s: seq<nat>, x: nat): nat {
    if s == [] then 0 else (if s[0] == x then 1 else 0) + Occurs(s[1..], x)
  }

  lemma {:induction false} OccursAppend(a: seq<nat>, b: seq<nat>, x: nat)
    ensures Occurs(a + b, x) == Occurs(a, x) + Occurs(b, x)
  {
    if a == [] {
      assert a + b == b;
    } else {
      OccursAppend(a[1..], b, x);
      assert (a + b)[0] == a[0] && (a + b)[1..] == a[1..] + b;
    }
  }

  function OwnedIn(slot: Option<Slot>): seq<nat> {
    match slot case None => [] case Some(s) => s.ids.All()
  }

  function HeldAt(table: map<u16, Slot>, rid: nat, x: nat): nat {
    if rid < 0x1_0000 then Occurs(OwnedIn(Lookup(table, rid)), x) else 0
  }

  function HeldBelow(table: map<u16, Slot>, n: nat, x: nat): nat {
    if n == 0 then 0 else HeldBelow(table, n - 1, x) + HeldAt(table, n - 1, x)
  }

  /** In how many places record `x` is: destroyed so often, held so often. */
  function Places(c: Conn, x: nat): nat {
    Occurs(c.freed, x) + HeldBelow(c.table, 0x1_0000, x)
  }

  lemma HeldAtUpdated(table: map<u16, Slot>, rid: u16, slot: Option<Slot>, k: nat, x: nat)
    ensures HeldAt(Updated(table, rid, slot), k, x) == if k == rid then Occurs(OwnedIn(slot), x) else HeldAt(table, k, x)
  {
    hide Occurs;
    if k < 0x1_0000 && k != rid {
      assert Lookup(Updated(table, rid, slot), k) == Lookup(table, k);
    }
  }

  lemma {:induction false} HeldUpdated(table: map<u16, Slot>, rid: u16, slot: Option<Slot>, n: nat, x: nat)
    ensures HeldBelow(Updated(table, rid, slot), n, x) + (if rid < n then HeldAt(table, rid, x) else 0)
         == HeldBelow(table, n, x) + (if rid < n then Occurs(OwnedIn(slot), x) else 0)
  {
    hide HeldAt, Updated, OwnedIn, Occurs;
    if n != 0 {
      HeldUpdated(table, rid, slot, n - 1, x);
      HeldAtUpdated(table, rid, slot, n - 1, x);
    }
  }

  // ------------------------------------------------------------- one dispatch

  /** A failing BEGIN_REQUEST or PARAMS callback destroys the request, and with it the
      record; if the write that follows fails too, the error exit destroys it again. */
  predicate FreedTwice(cfg: Config, link: Link, o: Out, slot: Option<Slot>, ev: Event) {
    match ev.rec.body
    case BeginBody(role, _) =>
      role == RESPONDER && slot.None? && FailsTwice(cfg, link, Served(cfg.beginParse, link, o, NewReq(ev.rec), ev))
    case ParamsBody(_) =>
      slot.Some? && FailsTwice(cfg, link, Served(cfg.paramsParse, link, o, Enqueue(slot.value.req, ev.rec), ev))
    case _ => false
  }

  predicate FailsTwice(cfg: Config, link: Link, r: Returned) {
    r.rc < 0 && !link(EndHook(cfg, link, r.out, r.req).writes)
  }

  /** The record in hand, `extra` times more than once, joins what the entry held. */
  ghost predicate Placed(arm: Arm, slot: Option<Slot>, id: nat, x: nat, twice: bool) {
    Occurs(arm.freed, x) + Occurs(OwnedIn(arm.slot), x)
    == Occurs(OwnedIn(slot), x) + if x != id then 0 else if twice then 2 else 1
  }

  lemma ReplyPlaces(link: Link, o: Out, slot: Option<Slot>, rec: OutRecord, id: nat, x: nat)
    ensures Placed(Reply(link, o, slot, rec, id), slot, id, x, false) && Reply(link, o, slot, rec, id).status != Crashed
  {
  }

  /** Whatever becomes of a served request, its records are destroyed or held, the one in
      hand twice if a callback and the write after it both fail. */
  lemma SettlePlaces(cfg: Config, link: Link, r: Returned, ids: Ids, body: Body, id: nat, x: nat)
    ensures var arm := Settle(cfg, link, r, ids, body, id);
            var twice := !body.StdinBody? && !body.DataBody? && FailsTwice(cfg, link, r);
            Occurs(arm.freed, x) + Occurs(OwnedIn(arm.slot), x) == Occurs(ids.All(), x) + if twice && x == id then 1 else 0
  {
    FlushPlaces(link, EndHook(cfg, link, r.out, r.req), [r.req], ids.All(), id, x);
  }

  lemma BeginPlaces(cfg: Config, link: Link, o: Out, slot: Option<Slot>, ev: Event, id: nat, x: nat)
    requires ev.rec.body.BeginBody?
    ensures Placed(DispatchBegin(cfg, link, o, slot, ev, id), slot, id, x, FreedTwice(cfg, link, o, slot, ev))
    ensures DispatchBegin(cfg, link, o, slot, ev, id).status != Crashed
  {
    if ev.rec.body.role != RESPONDER {
      ReplyPlaces(link, o, slot, EndOut(ev.rec.rid, UNKNOWN_ROLE, 0), id, x);
    } else if slot.Some? {
      ReplyPlaces(link, o, slot, EndOut(ev.rec.rid, REQUEST_COMPLETE, 0), id, x);
    } else {
      SettlePlaces(cfg, link, Served(cfg.beginParse, link, o, NewReq(ev.rec), ev), NewIds(id), ev.rec.body, id, x);
      assert NewIds(id).All() == [id];
    }
  }

  lemma AbortPlaces(cfg: Config, link: Link, o: Out, slot: Option<Slot>, ev: Event, id: nat, x: nat)
    ensures Placed(DispatchAbort(cfg, link, o, slot, ev, id), slot, id, x, false)
    ensures DispatchAbort(cfg, link, o, slot, ev, id).status != Crashed
  {
    match slot
    case None => ReplyPlaces(link, o, slot, EndOut(ev.rec.rid, REQUEST_COMPLETE, 0), id, x);
    case Some(s) => OccursAppend(s.ids.All(), [id], x);
  }

  lemma StreamPlaces(cfg: Config, link: Link, o: Out, slot: Option<Slot>, ev: Event, id: nat, x: nat)
    requires IsStream(ev.rec.body)
    ensures Placed(DispatchStream(cfg, link, o, slot, ev, id), slot, id, x, FreedTwice(cfg, link, o, slot, ev))
    ensures DispatchStream(cfg, link, o, slot, ev, id).status != Crashed
  {
    match slot
    case None => ReplyPlaces(link, o, slot, EndOut(ev.rec.rid, REQUEST_COMPLETE, 0), id, x);
    case Some(s) =>
      var ids := EnqueueId(s.ids, ev.rec.body, id);
      EnqueueOccurs(s.ids, ev.rec.body, id, x);
      var r := Served(StreamHandler(cfg, ev.rec.body), link, o, Enqueue(s.req, ev.rec), ev);
      SettlePlaces(cfg, link, r, ids, ev.rec.body, id, x);
  }

  /** A queued record joins what the request holds. */
  lemma EnqueueOccurs(ids: Ids, body: Body, id: nat, x: nat)
    requires IsStream(body)
    ensures Occurs(EnqueueId(ids, body, id).All(), x) == Occurs(ids.All(), x) + if x == id then 1 else 0
  {
    AllOccurs(ids, x);
    AllOccurs(EnqueueId(ids, body, id), x);
    OccursAppend(match body case ParamsBody(_) => ids.params case StdinBody(_, _) => ids.stdin case DataBody(_, _) => ids.data,
                 [id], x);
  }

  lemma AllOccurs(ids: Ids, x: nat)
    ensures Occurs(ids.All(), x)
         == Occurs([ids.begin], x) + Occurs(ids.params, x) + Occurs(ids.stdin, x) + Occurs(ids.data, x)
  {
    OccursAppend([ids.begin], ids.params, x);
    OccursAppend([ids.begin] + ids.params, ids.stdin, x);
    OccursAppend([ids.begin] + ids.params + ids.stdin, ids.data, x);
  }

  lemma FlushPlaces(link: Link, o: Out, done: seq<Req>, owned: seq<nat>, id: nat, x: nat)
    ensures Occurs(FlushArm(link, o, None, owned, done, [], id).freed, x)
         == Occurs(owned, x) + if !link(o.writes) && x == id then 1 else 0
  {
    OccursAppend(owned, [id], x);
    assert owned + [] == owned;
  }

  lemma ValuesPlaces(cfg: Config, o: Out, slot: Option<Slot>, ev: Event, id: nat, x: nat)
    requires ev.rec.body.ValuesBody?
    ensures var arm := DispatchValues(cfg, o, slot, ev, id);
            if arm.status == Crashed then arm.freed == [] && arm.slot == slot else Placed(arm, slot, id, x, false)
  {
  }

  lemma ArmPlaces(cfg: Config, link: Link, o: Out, slot: Option<Slot>, ev: Event, id: nat, x: nat)
    ensures var arm := Dispatch(cfg, link, o, slot, ev, id);
            if arm.status == Crashed then arm.freed == [] && arm.slot == slot
            else Placed(arm, slot, id, x, FreedTwice(cfg, link, o, slot, ev))
  {
    hide DispatchBegin, DispatchAbort, DispatchStream, DispatchValues, Reply, FailsTwice, Placed;
    match ev.rec.body
    case BeginBody(_, _) => BeginPlaces(cfg, link, o, slot, ev, id, x);
    case AbortBody => AbortPlaces(cfg, link, o, slot, ev, id, x);
    case ParamsBody(_) => StreamPlaces(cfg, link, o, slot, ev, id, x);
    case StdinBody(_, _) => StreamPlaces(cfg, link, o, slot, ev, id, x);
    case DataBody(_, _) => StreamPlaces(cfg, link, o, slot, ev, id, x);
    case ValuesBody(_) => ValuesPlaces(cfg, o, slot, ev, id, x);
    case ResultBody(_) => ReplyPlaces(link, o, slot, UnknownTypeOut(0, GET_VALUES_RESULT), id, x);
  }

  /** In how many places a dispatch puts its record: none if the process stops in it. */
  ghost function Hand(cfg: Config, link: Link, c: Conn, ev: Event): nat {
    if StepConn(cfg, link, c, ev).status == Crashed then 0
    else if FreedTwice(cfg, link, c.out, Lookup(c.table, ev.rec.rid), ev) then 2
    else 1
  }

  /** Record ownership is conserved by every dispatch, and exactly one kind of dispatch
      destroys a record twice: a BEGIN_REQUEST or PARAMS callback fails and then so does
      the write after it. */
  lemma StepPlaces(cfg: Config, link: Link, c: Conn, ev: Event, x: nat)
    ensures Places(StepConn(cfg, link, c, ev).conn, x) == Places(c, x) + if x == c.seen then Hand(cfg, link, c, ev) else 0
    ensures StepConn(cfg, link, c, ev).conn.seen == c.seen + 1
  {
    var slot := Lookup(c.table, ev.rec.rid);
    ArmPlaces(cfg, link, c.out, slot, ev, c.seen, x);
    TablePlaces(c, ev.rec.rid, Dispatch(cfg, link, c.out, slot, ev, c.seen), x);
  }

  /** A record destroyed twice is the last one: the connection has ended. */
  lemma TwiceStops(cfg: Config, link: Link, c: Conn, ev: Event)
    requires FreedTwice(cfg, link, c.out, Lookup(c.table, ev.rec.rid), ev)
    ensures StepConn(cfg, link, c, ev).status == Stopped
  {
  }

  /** Writing an entry back, with or without the error exit, moves only its records. */
  lemma TablePlaces(c: Conn, rid: u16, arm: Arm, x: nat)
    ensures var c' := Conn(Updated(c.table, rid, arm.slot), arm.out, c.seen + 1, c.freed + arm.freed,
                           c.done + arm.done, c.dangling || arm.dangling);
            && Places(c', x) + Occurs(OwnedIn(Lookup(c.table, rid)), x)
               == Places(c, x) + Occurs(arm.freed, x) + Occurs(OwnedIn(arm.slot), x)
            && Places(Hangup(c'), x) == Places(c', x)
  {
    var c' := Conn(Updated(c.table, rid, arm.slot), arm.out, c.seen + 1, c.freed + arm.freed,
                   c.done + arm.done, c.dangling || arm.dangling);
    HeldUpdated(c.table, rid, arm.slot, 0x1_0000, x);
    OccursAppend(c.freed, arm.freed, x);
    HangupHeld(c', 0x1_0000, x);
  }

  lemma {:induction false} HangupHeld(c: Conn, n: nat, x: nat)
    ensures HeldBelow(Hangup(c).table, n, x) == HeldBelow(c.table, n, x)
  {
    if n != 0 {
      HangupHeld(c, n - 1, x);
    }
  }

  // -------------------------------------------------------------- whole runs

  /** In how many places the record of the dispatch that ended a run is. */
  ghost function LastHand(cfg: Config, link: Link, c: Conn, evs: seq<Event>): nat
    decreases |evs|
  {
    if evs == [] then 1
    else
      var s := StepConn(cfg, link, c, evs[0]);
      if s.status == Running then LastHand(cfg, link, s.conn, evs[1..]) else Hand(cfg, link, c, evs[0])
  }

  /** After any run, however its writes fare, each record dispatched is in exactly one place,
      destroyed once or held once by one request; only the record of a dispatch that ended
      the run can be in two, exactly if it was destroyed twice, or in none. */
  lemma {:induction false} RunPlaces(cfg: Config, link: Link, c: Conn, evs: seq<Event>, x: nat)
    requires Places(c, x) == if x < c.seen then 1 else 0
    ensures var r := RunConn(cfg, link, c, evs);
            Places(r.conn, x) == if x >= r.conn.seen then 0
                                 else if x + 1 == r.conn.seen && r.status != Running then LastHand(cfg, link, c, evs)
                                 else 1
    decreases |evs|
  {
    if evs != [] {
      var s := StepConn(cfg, link, c, evs[0]);
      StepPlaces(cfg, link, c, evs[0], x);
      if FreedTwice(cfg, link, c.out, Lookup(c.table, evs[0].rec.rid), evs[0]) {
        TwiceStops(cfg, link, c, evs[0]);
      }
      if s.status == Running {
        RunPlaces(cfg, link, s.conn, evs[1..], x);
      }
    }
  }

  lemma {:induction false} EmptyHeld(n: nat, x: nat)
    ensures HeldBelow(map[], n, x) == 0
  {
    if n != 0 {
      EmptyHeld(n - 1, x);
    }
  }

  /** From the start of a connection. */
  lemma RecordsInOnePlace(cfg: Config, link: Link, evs: seq<Event>, x: nat)
    ensures var r := RunConn(cfg, link, START, evs);
            Places(r.conn, x) == if x >= r.conn.seen then 0
                                 else if x + 1 == r.conn.seen && r.status != Running then LastHand(cfg, link, START, evs)
                                 else 1
  {
    EmptyHeld(0x1_0000, x);
    RunPlaces(cfg, link, START, evs, x);
  }

  /** Destroying a connection destroys each remaining request and so each record it holds. */
  function Drop(cfg: Config, link: Link, c: Conn, rid: u16): Conn
    requires rid in c.table
  {
    var gone := Retire(cfg, link, c.out, c.table[rid]);
    c.(table := c.table - {rid}, out := gone.out, freed := c.freed + gone.freed, done := c.done + gone.done)
  }

  lemma DropPlaces(cfg: Config, link: Link, c: Conn, rid: u16, x: nat)
    requires rid in c.table
    ensures Places(Drop(cfg, link, c, rid), x) == Places(c, x)
  {
    HeldUpdated(c.table, rid, None, 0x1_0000, x);
    OccursAppend(c.freed, c.table[rid].ids.All(), x);
  }

  /** Once the table is empty, a record in exactly one place has been destroyed once. */
  lemma AllFreedOnce(c: Conn, x: nat)
    requires c.table == map[]
    ensures Occurs(c.freed, x) == Places(c, x)
  {
    EmptyHeld(0x1_0000, x);
  }

  // ------------------------------------------------------------- use after free

  /** As written, the STDIN and DATA arms use a deleted entry exactly if the request is
      there and its callback returns a negative code. */
  lemma DanglingIff(cfg: Config, link: Link, o: Out, slot: Option<Slot>, ev: Event, id: nat)
    ensures Dispatch(cfg, link, o, slot, ev, id).dangling <==>
              && (ev.rec.body.StdinBody? || ev.rec.body.DataBody?) && slot.Some?
              && RunHandler(StreamHandler(cfg, ev.rec.body), link, o, Enqueue(slot.value.req, ev.rec), ev).rc < 0
  {
  }
}
