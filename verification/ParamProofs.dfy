/** Parameter lookup: the queue of PARAMS records behaves like one map, and an answer,
    once given, never changes while the request lives. */
module ParamProofs {
  import opened Bytes
  import opened Wire
  import opened Engine
  import opened RequestProofs

  /** The one map a request's PARAMS records amount to: an earlier record wins. */
  function Merged(params: seq<Record>): map<bytes, bytes> {
    if params == [] then map[]
    else Merged(params[1..]) + if params[0].body.ParamsBody? then params[0].body.params else map[]
  }

  function LookupIn(m: map<bytes, bytes>, name: bytes): Option<bytes> {
    if name in m then Some(m[name]) else None
  }

  lemma {:induction false} GetParamIsLookup(params: seq<Record>, name: bytes)
    ensures GetParam(params, name) == LookupIn(Merged(params), name)
  {
    if params != [] {
      GetParamIsLookup(params[1..], name);
    }
  }

  /** More PARAMS records never change an answer. */
  lemma {:induction false} FoundStays(params: seq<Record>, more: seq<Record>, name: bytes)
    requires GetParam(params, name).Some?
    ensures GetParam(params + more, name) == GetParam(params, name)
  {
    assert (params + more)[0] == params[0] && (params + more)[1..] == params[1..] + more;
    if !(params[0].body.ParamsBody? && name in params[0].body.params) {
      FoundStays(params[1..], more, name);
    }
  }

  lemma ServedQueues(h: Option<Handler>, link: Link, o: Out, q: Req, ev: Event)
    ensures var q' := Served(h, link, o, q, ev).req;
            q'.begin == q.begin && q'.params == q.params && q'.stdin == q.stdin && q'.data == q.data
  {
    if h.Some? {
      RunKeeps(link, o, q, h.value(ev, q));
    }
    var r := RunHandler(h, link, o, q, ev);
    if r.rc < 0 {
      AbortKeeps(link, r.out, r.req, AbortStatus(r.rc));
    }
  }

  /** A request that survives a dispatch has kept its PARAMS records, in order, with at
      most one more behind them. */
  lemma StepExtends(cfg: Config, link: Link, c: Conn, ev: Event, rid: u16)
    requires rid in c.table && rid in StepConn(cfg, link, c, ev).conn.table
    ensures c.table[rid].req.params <= StepConn(cfg, link, c, ev).conn.table[rid].req.params
  {
    if ev.rec.rid == rid {
      var slot := Lookup(c.table, rid);
      if IsStream(ev.rec.body) {
        ServedQueues(StreamHandler(cfg, ev.rec.body), link, c.out, Enqueue(slot.value.req, ev.rec), ev);
        StreamExtends(cfg, link, c.out, slot, ev, c.seen);
      }
    }
  }

  lemma StreamExtends(cfg: Config, link: Link, o: Out, slot: Option<Slot>, ev: Event, id: nat)
    requires IsStream(ev.rec.body) && slot.Some?
    ensures var arm := DispatchStream(cfg, link, o, slot, ev, id);
            arm.slot.Some? ==> slot.value.req.params <= arm.slot.value.req.params
  {
    ServedQueues(StreamHandler(cfg, ev.rec.body), link, o, Enqueue(slot.value.req, ev.rec), ev);
  }

  /** The request of an id is the same one all through a run. */
  ghost predicate LivesThrough(cfg: Config, link: Link, c: Conn, evs: seq<Event>, rid: u16)
    decreases |evs|
  {
    && rid in c.table
    && (evs != [] ==> StepConn(cfg, link, c, evs[0]).status == Running
                      && LivesThrough(cfg, link, StepConn(cfg, link, c, evs[0]).conn, evs[1..], rid))
  }

  /** Once a parameter is found, the answer is the same after any further records. */
  lemma {:induction false} ParamStable(cfg: Config, link: Link, c: Conn, evs: seq<Event>, rid: u16, name: bytes)
    requires LivesThrough(cfg, link, c, evs, rid) && GetParam(c.table[rid].req.params, name).Some?
    ensures var c' := RunConn(cfg, link, c, evs).conn;
            rid in c'.table && GetParam(c'.table[rid].req.params, name) == GetParam(c.table[rid].req.params, name)
    decreases |evs|
  {
    if evs != [] {
      var c' := StepConn(cfg, link, c, evs[0]).conn;
      StepExtends(cfg, link, c, evs[0], rid);
      var before, after := c.table[rid].req.params, c'.table[rid].req.params;
      assert after == before + after[|before|..];
      FoundStays(before, after[|before|..], name);
      ParamStable(cfg, link, c', evs[1..], rid, name);
    }
  }
}
